/**
 * backend/src/services/meeting.service.ts: creating a meeting (Zoom first,
 * then the `meetings` table, then a best-effort ZAK token), and the table
 * queries the routes use. The table is the class `MeetingStore`; the
 * database's own failures are the `dbError` inputs, its clock `now`, and the
 * uuid it generates for a new row `newId`.
 */
module MeetingService {
  import opened Common
  import opened ZoomMeetingService

  datatype MeetingType = Instant | Scheduled
  datatype Status = Created | Started | Ended | Cancelled

  /**
   * A row of `meetings`. `created_at` and `updated_at` are timestamps the
   * database and the server write; they are kept as instants (milliseconds).
   */
  datatype Meeting = Meeting(
    id: string,
    zoomMeetingId: string,
    hostUserId: string,
    title: string,
    password: Option<string>,
    joinUrl: Option<string>,
    startTime: Option<string>,
    duration: int,
    meetingType: MeetingType,
    status: Status,
    createdAt: int,
    updatedAt: int)

  datatype MeetingWithZak = MeetingWithZak(meeting: Meeting, zakToken: Option<string>)

  /** Omitted fields are None; the destructuring defaults apply to them only. */
  datatype CreateMeetingInput = CreateMeetingInput(
    hostUserId: string,
    title: Option<string>,
    meetingType: Option<MeetingType>,
    startTime: Option<string>,
    duration: Option<int>)

  const DefaultTitle := "Contract Call"
  const DefaultDuration := 60
  /** PostgREST's message for error PGRST116 (`.single()` on zero or several rows). */
  const SingleRowMessage := "JSON object requested, multiple (or no) rows returned"

  function TitleOf(input: CreateMeetingInput): (t: string)
    ensures input.title.None? ==> t == DefaultTitle
    ensures input.title.Some? ==> t == input.title.value
  {
    if input.title.Some? then input.title.value else DefaultTitle
  }

  function TypeOf(input: CreateMeetingInput): (t: MeetingType)
    ensures input.meetingType.None? ==> t == Instant
    ensures input.meetingType.Some? ==> t == input.meetingType.value
  {
    if input.meetingType.Some? then input.meetingType.value else Instant
  }

  function DurationOf(input: CreateMeetingInput): (d: int)
    ensures input.duration.None? ==> d == DefaultDuration
    ensures input.duration.Some? ==> d == input.duration.value
  {
    if input.duration.Some? then input.duration.value else DefaultDuration
  }

  /** Zoom's numeric meeting type: 1 for an instant meeting, 2 for anything else. */
  function ZoomType(t: MeetingType): (n: int)
    ensures n == 1 <==> t == Instant
    ensures n == 2 <==> t == Scheduled
  {
    match t
    case Instant => 1
    case Scheduled => 2
  }

  /** The body POSTed to Zoom; the two settings are fixed. */
  datatype ZoomMeetingBody = ZoomMeetingBody(
    topic: string, zoomType: int, startTime: Option<string>, duration: int,
    waitingRoom: bool, joinBeforeHost: bool)

  function ZoomBodyFor(input: CreateMeetingInput): (b: ZoomMeetingBody)
    ensures b.topic == TitleOf(input) && b.zoomType == ZoomType(TypeOf(input))
    ensures b.startTime == input.startTime && b.duration == DurationOf(input)
    ensures !b.waitingRoom && b.joinBeforeHost
  {
    ZoomMeetingBody(TitleOf(input), ZoomType(TypeOf(input)), input.startTime, DurationOf(input), false, true)
  }

  type ZoomCreateApi = (string, ZoomMeetingBody) -> Result<ZoomMeetingData, string>

  /** The row inserted for a meeting Zoom created: status "created", `start_time = startTime || null`. */
  function NewRow(input: CreateMeetingInput, zoom: ZoomMeetingData, newId: string, now: int): (m: Meeting)
    ensures m.id == newId && m.hostUserId == input.hostUserId
    ensures m.zoomMeetingId == IntToString(zoom.id)
    ensures m.title == TitleOf(input) && m.meetingType == TypeOf(input) && m.duration == DurationOf(input)
    ensures m.password == zoom.password && m.joinUrl == zoom.joinUrl
    ensures m.startTime.Some? <==> Truthy(input.startTime)
    ensures m.startTime.Some? ==> m.startTime == input.startTime
    ensures m.status == Created && m.createdAt == now && m.updatedAt == now
  {
    Meeting(newId, IntToString(zoom.id), input.hostUserId, TitleOf(input), zoom.password, zoom.joinUrl,
            if Truthy(input.startTime) then input.startTime else None,
            DurationOf(input), TypeOf(input), Created, now, now)
  }

  /**
   * `getZakToken`: every failure (no bearer token, ZOOM_HOST_EMAIL unset,
   * Zoom's refusal) becomes null; it has no error path at all.
   */
  function GetZakToken(bearer: Result<string, string>, env: Env, zakApi: ZakApi): (r: Option<string>)
    ensures r.Some? <==> (bearer.Ok? && EnvGet(env, "ZOOM_HOST_EMAIL").Some?
                          && zakApi(bearer.value, env["ZOOM_HOST_EMAIL"]).Ok?)
    ensures r.Some? ==> r.value == zakApi(bearer.value, env["ZOOM_HOST_EMAIL"]).value
  {
    match bearer
    case Err(_) => None
    case Ok(b) =>
      match EnvGet(env, "ZOOM_HOST_EMAIL")
      case None => None
      case Some(email) =>
        match zakApi(b, email)
        case Err(_) => None
        case Ok(t) => Some(t)
  }

  /** The external inputs of one `createMeeting` call. */
  datatype CreateWorld = CreateWorld(
    bearer: Result<string, string>,      // getZoomS2SToken for the Zoom POST
    zoomApi: ZoomCreateApi,
    newId: string,                       // the uuid the database assigns
    now: int,                            // the database's now() for created_at
    insertError: Option<string>,         // the insert's error, if any
    zakBearer: Result<string, string>,   // getZoomS2SToken inside getZakToken
    env: Env,
    zakApi: ZakApi)

  /** Rows after the call, what it returns or throws, and whether a ZAK token was requested. */
  datatype CreateOutcome = CreateOutcome(rows: seq<Meeting>, result: Result<MeetingWithZak, string>, zakAsked: bool)

  function CreateMeetingStep(rows: seq<Meeting>, input: CreateMeetingInput, w: CreateWorld): (o: CreateOutcome)
    // nothing is inserted unless Zoom created the meeting and the insert succeeded
    ensures o.rows == rows || (o.result.Ok? && o.rows == rows + [o.result.value.meeting])
    ensures o.result.Ok? <==> (w.bearer.Ok? && w.zoomApi(w.bearer.value, ZoomBodyFor(input)).Ok?
                               && w.insertError.None?)
    // failures are thrown in the order they happen, each leaving the table alone
    ensures w.bearer.Err? ==> o == CreateOutcome(rows, Err(w.bearer.error), false)
    ensures w.bearer.Ok? && w.zoomApi(w.bearer.value, ZoomBodyFor(input)).Err?
            ==> o == CreateOutcome(rows, Err(w.zoomApi(w.bearer.value, ZoomBodyFor(input)).error), false)
    ensures w.bearer.Ok? && w.zoomApi(w.bearer.value, ZoomBodyFor(input)).Ok? && w.insertError.Some?
            ==> o == CreateOutcome(rows, Err("Failed to save meeting: " + w.insertError.value), false)
    // the ZAK token is asked for exactly when the row was saved, and cannot fail the call
    ensures o.zakAsked <==> o.result.Ok?
    ensures o.result.Ok? ==> (o.rows == rows + [o.result.value.meeting]
                              && o.result.value.meeting == NewRow(input, w.zoomApi(w.bearer.value, ZoomBodyFor(input)).value, w.newId, w.now)
                              && o.result.value.zakToken == GetZakToken(w.zakBearer, w.env, w.zakApi))
  {
    match w.bearer
    case Err(e) => CreateOutcome(rows, Err(e), false)
    case Ok(b) =>
      match w.zoomApi(b, ZoomBodyFor(input))
      case Err(e) => CreateOutcome(rows, Err(e), false)
      case Ok(zoom) =>
        if w.insertError.Some? then CreateOutcome(rows, Err("Failed to save meeting: " + w.insertError.value), false)
        else
          var row := NewRow(input, zoom, w.newId, w.now);
          CreateOutcome(rows + [row], Ok(MeetingWithZak(row, GetZakToken(w.zakBearer, w.env, w.zakApi))), true)
  }

  /** Omitted title, type and duration come out as "Contract Call", instant (Zoom type 1) and 60. */
  lemma DefaultsApplied(input: CreateMeetingInput, w: CreateWorld, rows: seq<Meeting>)
    requires input.title.None? && input.meetingType.None? && input.duration.None?
    requires CreateMeetingStep(rows, input, w).result.Ok?
    ensures var m := CreateMeetingStep(rows, input, w).result.value.meeting;
            m.title == "Contract Call" && m.meetingType == Instant && m.duration == 60 && m.status == Created
    ensures ZoomBodyFor(input).zoomType == 1
  {
  }

  /** A failing ZAK lookup never fails `createMeeting`: it only nulls `zak_token`. */
  lemma ZakFailureIsHarmless(rows: seq<Meeting>, input: CreateMeetingInput, w: CreateWorld, zakBearer2: Result<string, string>)
    ensures CreateMeetingStep(rows, input, w).result.Ok?
            == CreateMeetingStep(rows, input, w.(zakBearer := zakBearer2)).result.Ok?
    ensures CreateMeetingStep(rows, input, w).rows == CreateMeetingStep(rows, input, w.(zakBearer := zakBearer2)).rows
  {
  }

  // ---- the table queries ------------------------------------------------

  /** `.eq("host_user_id", h)`: the rows of host `h`, each as often as in the table. */
  function FilterHost(rows: seq<Meeting>, host: string): (r: seq<Meeting>)
    ensures forall m :: multiset(r)[m] == if m.hostUserId == host then multiset(rows)[m] else 0
    decreases |rows|
  {
    if rows == [] then []
    else
      assert rows == [rows[0]] + rows[1..];
      (if rows[0].hostUserId == host then [rows[0]] else []) + FilterHost(rows[1..], host)
  }

  /** `.order("created_at", { ascending: false })`: newest first. */
  predicate NewestFirst(s: seq<Meeting>) {
    forall i, j :: 0 <= i < j < |s| ==> s[i].createdAt >= s[j].createdAt
  }

  function InsertNewestFirst(m: Meeting, s: seq<Meeting>): (r: seq<Meeting>)
    ensures multiset(r) == multiset(s) + multiset{m}
    decreases |s|
  {
    if s == [] || m.createdAt >= s[0].createdAt then [m] + s
    else
      assert s == [s[0]] + s[1..];
      [s[0]] + InsertNewestFirst(m, s[1..])
  }

  /** Inserting into a newest-first list keeps it newest first. */
  lemma {:induction false} InsertKeepsOrder(m: Meeting, s: seq<Meeting>)
    requires NewestFirst(s)
    ensures NewestFirst(InsertNewestFirst(m, s))
    ensures InsertNewestFirst(m, s) != [] && (InsertNewestFirst(m, s)[0] == m || (s != [] && InsertNewestFirst(m, s)[0] == s[0]))
    decreases |s|
  {
    if s == [] || m.createdAt >= s[0].createdAt {
    } else {
      InsertKeepsOrder(m, s[1..]);
      var rest := InsertNewestFirst(m, s[1..]);
      assert InsertNewestFirst(m, s) == [s[0]] + rest;
      assert rest[0].createdAt <= s[0].createdAt;
    }
  }

  function SortNewestFirst(s: seq<Meeting>): (r: seq<Meeting>)
    ensures multiset(r) == multiset(s)
    ensures NewestFirst(r)
    decreases |s|
  {
    if s == [] then []
    else
      assert s == [s[0]] + s[1..];
      InsertKeepsOrder(s[0], SortNewestFirst(s[1..]));
      InsertNewestFirst(s[0], SortNewestFirst(s[1..]))
  }

  /** The meetings table. Row ids are the database's uuids: never two alike. */
  class MeetingStore {
    var rows: seq<Meeting>

    predicate Valid()
      reads this
    {
      forall i, j :: 0 <= i < j < |rows| ==> rows[i].id != rows[j].id
    }

    constructor(initial: seq<Meeting>)
      requires forall i, j :: 0 <= i < j < |initial| ==> initial[i].id != initial[j].id
      ensures rows == initial && Valid()
    {
      rows := initial;
    }

    /** `createMeeting`; `zakAsked` tells whether `getZakToken` ran. */
    method CreateMeeting(input: CreateMeetingInput, w: CreateWorld) returns (r: Result<MeetingWithZak, string>, zakAsked: bool)
      requires Valid()
      requires forall m :: m in rows ==> m.id != w.newId
      modifies this
      ensures Valid()
      ensures CreateMeetingStep(old(rows), input, w) == CreateOutcome(rows, r, zakAsked)
    {
      zakAsked := false;
      if w.bearer.Err? {
        return Err(w.bearer.error), zakAsked;
      }
      var zoomResp := w.zoomApi(w.bearer.value, ZoomBodyFor(input));
      if zoomResp.Err? {
        return Err(zoomResp.error), zakAsked;
      }
      if w.insertError.Some? {
        return Err("Failed to save meeting: " + w.insertError.value), zakAsked;
      }
      var meeting := NewRow(input, zoomResp.value, w.newId, w.now);
      rows := rows + [meeting];
      zakAsked := true;
      var zak := GetZakToken(w.zakBearer, w.env, w.zakApi);
      r := Ok(MeetingWithZak(meeting, zak));
    }

    /** `getMeetingsByHost`: exactly the host's rows, newest first; a query error throws. */
    function GetMeetingsByHost(host: string, dbError: Option<string>): (r: Result<seq<Meeting>, string>)
      reads this
      ensures dbError.Some? ==> r == Err("Failed to fetch meetings: " + dbError.value)
      ensures dbError.None? ==> (r.Ok?
                                 && NewestFirst(r.value)
                                 && forall m :: multiset(r.value)[m] == if m.hostUserId == host then multiset(rows)[m] else 0)
    {
      if dbError.Some? then Err("Failed to fetch meetings: " + dbError.value)
      else Ok(SortNewestFirst(FilterHost(rows, host)))
    }

    /** `getMeetingById` / `getMeetingByZoomId`: `.single()` over the matching rows. */
    function GetMeetingById(meetingId: string, dbError: Option<string>): (r: Result<Option<Meeting>, string>)
      reads this
      ensures dbError.Some? ==> r == Err("Failed to fetch meeting: " + dbError.value)
      ensures dbError.None? ==> (r.Ok? && (r.value.Some? <==> |MatchingId(rows, meetingId)| == 1))
      ensures r.Ok? && r.value.Some? ==> r.value.value in rows && r.value.value.id == meetingId
    {
      if dbError.Some? then Err("Failed to fetch meeting: " + dbError.value)
      else Ok(Single(MatchingId(rows, meetingId)))
    }

    function GetMeetingByZoomId(zoomMeetingId: string, dbError: Option<string>): (r: Result<Option<Meeting>, string>)
      reads this
      ensures dbError.Some? ==> r == Err("Failed to fetch meeting: " + dbError.value)
      ensures dbError.None? ==> (r.Ok? && (r.value.Some? <==> |MatchingZoomId(rows, zoomMeetingId)| == 1))
      ensures r.Ok? && r.value.Some? ==> r.value.value in rows && r.value.value.zoomMeetingId == zoomMeetingId
    {
      if dbError.Some? then Err("Failed to fetch meeting: " + dbError.value)
      else Ok(Single(MatchingZoomId(rows, zoomMeetingId)))
    }

    /** `updateMeetingStatus`: overwrite status and `updated_at` of the one row with that id. */
    method UpdateMeetingStatus(meetingId: string, status: Status, now: int, dbError: Option<string>) returns (r: Result<Meeting, string>)
      requires Valid()
      modifies this
      ensures Valid()
      ensures dbError.Some? ==> rows == old(rows) && r == Err("Failed to update meeting: " + dbError.value)
      ensures dbError.None? ==> rows == WithStatus(old(rows), meetingId, status, now)
      ensures dbError.None? ==> (r.Ok? <==> exists i :: 0 <= i < |old(rows)| && old(rows)[i].id == meetingId)
      ensures dbError.None? && r.Err? ==> r.error == "Failed to update meeting: " + SingleRowMessage
      ensures r.Ok? ==> r.value in rows && r.value.id == meetingId && r.value.status == status && r.value.updatedAt == now
    {
      if dbError.Some? {
        return Err("Failed to update meeting: " + dbError.value);
      }
      var after := WithStatus(rows, meetingId, status, now);
      UpdateMatches(rows, meetingId, status, now);
      var matched := MatchingId(after, meetingId);
      rows := after;
      if |matched| == 1 {
        r := Ok(matched[0]);
      } else {
        r := Err("Failed to update meeting: " + SingleRowMessage);
      }
    }
  }

  function MatchingId(rows: seq<Meeting>, id: string): (r: seq<Meeting>)
    ensures forall m :: m in r <==> m in rows && m.id == id
    ensures |r| <= |rows|
    decreases |rows|
  {
    if rows == [] then []
    else (if rows[0].id == id then [rows[0]] else []) + MatchingId(rows[1..], id)
  }

  function MatchingZoomId(rows: seq<Meeting>, zoomMeetingId: string): (r: seq<Meeting>)
    ensures forall m :: m in r <==> m in rows && m.zoomMeetingId == zoomMeetingId
    decreases |rows|
  {
    if rows == [] then []
    else (if rows[0].zoomMeetingId == zoomMeetingId then [rows[0]] else []) + MatchingZoomId(rows[1..], zoomMeetingId)
  }

  /** The table after the update: the matching rows get the new status and time, whatever they had. */
  function WithStatus(rows: seq<Meeting>, id: string, status: Status, now: int): (r: seq<Meeting>)
    ensures |r| == |rows|
    ensures forall i :: 0 <= i < |rows| && rows[i].id == id ==> r[i] == rows[i].(status := status, updatedAt := now)
    ensures forall i :: 0 <= i < |rows| && rows[i].id != id ==> r[i] == rows[i]
  {
    seq(|rows|, i requires 0 <= i < |rows| => if rows[i].id == id then rows[i].(status := status, updatedAt := now) else rows[i])
  }

  /**
   * After a status update over distinct ids, the rows matching the id are
   * one row exactly when some row had the id, and that row carries the new
   * status and time; the ids stay distinct.
   */
  lemma UpdateMatches(rows: seq<Meeting>, id: string, status: Status, now: int)
    requires forall i, j :: 0 <= i < j < |rows| ==> rows[i].id != rows[j].id
    ensures var after := WithStatus(rows, id, status, now);
            && (forall i, j :: 0 <= i < j < |after| ==> after[i].id != after[j].id)
            && (|MatchingId(after, id)| == 1 <==> exists i :: 0 <= i < |rows| && rows[i].id == id)
            && (|MatchingId(after, id)| == 1 ==>
                  var m := MatchingId(after, id)[0];
                  m in after && m.id == id && m.status == status && m.updatedAt == now)
  {
    var after := WithStatus(rows, id, status, now);
    assert forall i :: 0 <= i < |after| ==> after[i].id == rows[i].id;
    MatchingIdUnique(after, id);
    if exists i :: 0 <= i < |rows| && rows[i].id == id {
      var i :| 0 <= i < |rows| && rows[i].id == id;
      assert after[i].id == id;
    }
  }

  /** With distinct ids, the rows matching an id are that one row, or none. */
  lemma {:induction false} MatchingIdUnique(rows: seq<Meeting>, id: string)
    requires forall i, j :: 0 <= i < j < |rows| ==> rows[i].id != rows[j].id
    ensures (forall i :: 0 <= i < |rows| ==> rows[i].id != id) ==> MatchingId(rows, id) == []
    ensures forall i :: 0 <= i < |rows| && rows[i].id == id ==> MatchingId(rows, id) == [rows[i]]
    decreases |rows|
  {
    if rows != [] {
      MatchingIdUnique(rows[1..], id);
      forall i | 0 <= i < |rows| && rows[i].id == id
        ensures MatchingId(rows, id) == [rows[i]]
      {
        if i == 0 {
          assert forall k :: 0 <= k < |rows[1..]| ==> rows[1..][k].id == rows[k + 1].id;
        } else {
          assert rows[1..][i - 1] == rows[i];
        }
      }
      if forall i :: 0 <= i < |rows| ==> rows[i].id != id {
        assert forall k :: 0 <= k < |rows[1..]| ==> rows[1..][k].id == rows[k + 1].id;
      }
    }
  }

  /** A row inserted with a fresh id is what a later lookup by that id finds. */
  lemma InsertThenFind(rows: seq<Meeting>, row: Meeting)
    requires forall a, b :: 0 <= a < b < |rows| ==> rows[a].id != rows[b].id
    requires forall m :: m in rows ==> m.id != row.id
    ensures Single(MatchingId(rows + [row], row.id)) == Some(row)
  {
    var after := rows + [row];
    assert forall a :: 0 <= a < |rows| ==> after[a] == rows[a] && rows[a] in rows;
    MatchingIdUnique(after, row.id);
    assert after[|rows|] == row;
  }

  /** After a status update, a lookup by the updated id sees the new status and time. */
  lemma UpdateThenFind(rows: seq<Meeting>, id: string, status: Status, now: int, i: int)
    requires forall a, b :: 0 <= a < b < |rows| ==> rows[a].id != rows[b].id
    requires 0 <= i < |rows| && rows[i].id == id
    ensures Single(MatchingId(WithStatus(rows, id, status, now), id)) == Some(rows[i].(status := status, updatedAt := now))
  {
    var after := WithStatus(rows, id, status, now);
    assert forall k :: 0 <= k < |after| ==> after[k].id == rows[k].id;
    MatchingIdUnique(after, id);
  }

  /** A status update leaves what every other id finds exactly as it was. */
  lemma {:induction false} UpdateLeavesOthers(rows: seq<Meeting>, id: string, other: string, status: Status, now: int)
    requires other != id
    ensures MatchingId(WithStatus(rows, id, status, now), other) == MatchingId(rows, other)
    decreases |rows|
  {
    if rows != [] {
      UpdateLeavesOthers(rows[1..], id, other, status, now);
      assert WithStatus(rows, id, status, now)[1..] == WithStatus(rows[1..], id, status, now);
    }
  }
}
