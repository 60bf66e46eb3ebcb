/**
 * backend/src/routes/meeting.routes.ts: the /meetings router. Each handler
 * validates its request, calls the meeting store, and maps the outcome to a
 * status code; the webhook handler turns Zoom events into status updates.
 * The seller-role middleware runs before POST / and its outcome is `guard`.
 */
module MeetingRoutes {
  import opened Common
  import opened ZodRules
  import opened MeetingService
  import opened AuthMiddleware

  const NotFound := "Meeting not found"

  // ---- request schemas ---------------------------------------------------

  function ParseMeetingType(j: Json): (r: Option<MeetingType>)
    ensures r == Some(Instant) <==> j == JStr("instant")
    ensures r == Some(Scheduled) <==> j == JStr("scheduled")
    ensures r.None? <==> j !in {JStr("instant"), JStr("scheduled")}
  {
    if j == JStr("instant") then Some(Instant)
    else if j == JStr("scheduled") then Some(Scheduled)
    else None
  }

  /** The zod duration bounds: `z.number().min(1).max(480)`. */
  predicate DurationOk(j: Json) {
    j.JNum? && 1 <= j.n <= 480
  }

  predicate CreateMeetingValid(body: Body) {
    UuidField(body, "hostUserId")
    && ("title" !in body || body["title"].JStr?)
    && ("type" !in body || ParseMeetingType(body["type"]).Some?)
    && ("startTime" !in body || body["startTime"].JStr?)
    && ("duration" !in body || DurationOk(body["duration"]))
  }

  /** `createMeetingSchema`: the validated input, or None for a 400. */
  function ParseCreateMeeting(body: Body): (r: Option<CreateMeetingInput>)
    ensures r.Some? <==> CreateMeetingValid(body)
    ensures r.Some? ==> (JStr(r.value.hostUserId) == body["hostUserId"]
                         && (r.value.title.Some? <==> "title" in body)
                         && (r.value.title.Some? ==> JStr(r.value.title.value) == body["title"])
                         && (r.value.meetingType.Some? <==> "type" in body)
                         && (r.value.meetingType.Some? ==> r.value.meetingType == ParseMeetingType(body["type"]))
                         && (r.value.startTime.Some? <==> "startTime" in body)
                         && (r.value.startTime.Some? ==> JStr(r.value.startTime.value) == body["startTime"])
                         && (r.value.duration.Some? <==> "duration" in body)
                         && (r.value.duration.Some? ==> JNum(r.value.duration.value) == body["duration"])
                         && (r.value.duration.Some? ==> 1 <= r.value.duration.value <= 480))
  {
    if !CreateMeetingValid(body) then None
    else
      Some(CreateMeetingInput(
        body["hostUserId"].s,
        if "title" in body then Some(body["title"].s) else None,
        if "type" in body then ParseMeetingType(body["type"]) else None,
        if "startTime" in body then Some(body["startTime"].s) else None,
        if "duration" in body then Some(body["duration"].n) else None))
  }

  function ParseStatus(j: Json): (r: Option<Status>)
    ensures r.Some? <==> j in {JStr("created"), JStr("started"), JStr("ended"), JStr("cancelled")}
    ensures r == Some(Created) <==> j == JStr("created")
    ensures r == Some(Started) <==> j == JStr("started")
    ensures r == Some(Ended) <==> j == JStr("ended")
    ensures r == Some(Cancelled) <==> j == JStr("cancelled")
  {
    if j == JStr("created") then Some(Created)
    else if j == JStr("started") then Some(Started)
    else if j == JStr("ended") then Some(Ended)
    else if j == JStr("cancelled") then Some(Cancelled)
    else None
  }

  /** `updateStatusSchema` */
  function ParseStatusBody(body: Body): (r: Option<Status>)
    ensures r.Some? <==> "status" in body && ParseStatus(body["status"]).Some?
    ensures r.Some? ==> r == ParseStatus(body["status"])
  {
    if "status" in body then ParseStatus(body["status"]) else None
  }

  // ---- handlers ----------------------------------------------------------

  datatype ZakData = ZakData(success: bool, zakToken: string)

  /** GET /zak: a null or empty token is a 500. */
  function ZakRoute(zak: Option<string>): (r: Reply<ZakData>)
    ensures r.Json200? <==> Truthy(zak)
    ensures r.Json200? ==> r.body == ZakData(true, zak.value)
    ensures !Truthy(zak) ==> r == ErrorJson(500, "Failed to get ZAK token")
  {
    if Truthy(zak) then Json200(ZakData(true, zak.value)) else ErrorJson(500, "Failed to get ZAK token")
  }

  /** GET /: the host's meetings, newest first. */
  function ListMeetingsRoute(store: MeetingStore, query: Body, dbError: Option<string>): (r: Reply<seq<Meeting>>)
    reads store
    ensures !UuidField(query, "hostUserId") <==> r == BadRequest
    ensures r.Json200? ==> (dbError.None? && NewestFirst(r.body)
                            && forall m :: m in r.body <==> m in store.rows && JStr(m.hostUserId) == query["hostUserId"])
    ensures UuidField(query, "hostUserId") && dbError.None? ==> r.Json200?
    ensures UuidField(query, "hostUserId") && dbError.Some?
            ==> r == ErrorJson(500, "Failed to fetch meetings: " + dbError.value)
  {
    if !UuidField(query, "hostUserId") then BadRequest
    else
      match store.GetMeetingsByHost(query["hostUserId"].s, dbError)
      case Ok(ms) =>
        assert forall m :: m in ms <==> multiset(ms)[m] > 0;
        Json200(ms)
      case Err(e) => ErrorJson(500, OrElse(e, "Failed to fetch meetings"))
  }

  /** A lookup outcome as GET /:id and GET /zoom/:zoomMeetingId answer it. */
  function LookupReply(found: Result<Option<Meeting>, string>): (r: Reply<Meeting>)
    ensures found == Ok(None) <==> r == ErrorJson(404, NotFound)
    ensures found.Err? ==> r == ErrorJson(500, OrElse(found.error, "Failed to fetch meeting"))
    ensures found.Ok? && found.value.Some? <==> r.Json200?
    ensures r.Json200? ==> r.body == found.value.value
  {
    match found
    case Err(e) => ErrorJson(500, OrElse(e, "Failed to fetch meeting"))
    case Ok(None) => ErrorJson(404, NotFound)
    case Ok(Some(m)) => Json200(m)
  }

  function GetMeetingRoute(store: MeetingStore, id: string, dbError: Option<string>): (r: Reply<Meeting>)
    reads store
    ensures dbError.None? ==> (r == ErrorJson(404, NotFound) <==> |MatchingId(store.rows, id)| != 1)
    ensures dbError.None? && |MatchingId(store.rows, id)| == 1 ==> r == Json200(MatchingId(store.rows, id)[0])
    ensures r.Json200? ==> r.body in store.rows && r.body.id == id
    ensures dbError.Some? ==> r == ErrorJson(500, "Failed to fetch meeting: " + dbError.value)
  {
    LookupReply(store.GetMeetingById(id, dbError))
  }

  function GetMeetingByZoomIdRoute(store: MeetingStore, zoomMeetingId: string, dbError: Option<string>): (r: Reply<Meeting>)
    reads store
    ensures dbError.None? ==> (r == ErrorJson(404, NotFound) <==> |MatchingZoomId(store.rows, zoomMeetingId)| != 1)
    ensures dbError.None? && |MatchingZoomId(store.rows, zoomMeetingId)| == 1 ==> r == Json200(MatchingZoomId(store.rows, zoomMeetingId)[0])
    ensures r.Json200? ==> r.body in store.rows && r.body.zoomMeetingId == zoomMeetingId
    ensures dbError.Some? ==> r == ErrorJson(500, "Failed to fetch meeting: " + dbError.value)
  {
    LookupReply(store.GetMeetingByZoomId(zoomMeetingId, dbError))
  }

  /** POST /: the guard first, then the schema, then `createMeeting`. */
  method CreateMeetingRoute(store: MeetingStore, body: Body, guard: Guard, w: CreateWorld) returns (r: Reply<MeetingWithZak>)
    requires store.Valid()
    requires forall m :: m in store.rows ==> m.id != w.newId
    modifies store
    ensures store.Valid()
    ensures guard == Forbidden ==> r == ErrorJson(403, "Forbidden") && store.rows == old(store.rows)
    ensures guard == Next && ParseCreateMeeting(body).None? ==> r == BadRequest && store.rows == old(store.rows)
    ensures guard == Next && ParseCreateMeeting(body).Some?
            ==> var o := CreateMeetingStep(old(store.rows), ParseCreateMeeting(body).value, w);
                store.rows == o.rows
                && r == (if o.result.Ok? then Json200(o.result.value) else ErrorJson(500, OrElse(o.result.error, "Failed to create meeting")))
  {
    if guard == Forbidden {
      return ForbiddenReply();
    }
    var input := ParseCreateMeeting(body);
    if input.None? {
      return BadRequest;
    }
    var result, _ := store.CreateMeeting(input.value, w);
    if result.Ok? {
      r := Json200(result.value);
    } else {
      r := ErrorJson(500, OrElse(result.error, "Failed to create meeting"));
    }
  }

  /** PATCH /:id/status: any valid status overwrites the current one. */
  method PatchStatusRoute(store: MeetingStore, id: string, body: Body, now: int, dbError: Option<string>) returns (r: Reply<Meeting>)
    requires store.Valid()
    modifies store
    ensures store.Valid()
    ensures ParseStatusBody(body).None? ==> r == BadRequest && store.rows == old(store.rows)
    ensures ParseStatusBody(body).Some? && dbError.None?
            ==> store.rows == WithStatus(old(store.rows), id, ParseStatusBody(body).value, now)
    ensures ParseStatusBody(body).Some? && dbError.Some?
            ==> store.rows == old(store.rows) && r == ErrorJson(500, "Failed to update meeting: " + dbError.value)
    ensures ParseStatusBody(body).Some? && dbError.None?
            ==> (r.Json200? <==> exists i :: 0 <= i < |old(store.rows)| && old(store.rows)[i].id == id)
    ensures ParseStatusBody(body).Some? && dbError.None? && !r.Json200?
            ==> r == ErrorJson(500, "Failed to update meeting: " + SingleRowMessage)
    ensures r.Json200? ==> r.body.id == id && r.body.status == ParseStatusBody(body).value && r.body in store.rows
  {
    var status := ParseStatusBody(body);
    if status.None? {
      return BadRequest;
    }
    var result := store.UpdateMeetingStatus(id, status.value, now, dbError);
    if result.Ok? {
      r := Json200(result.value);
    } else {
      r := ErrorJson(500, OrElse(result.error, "Failed to update meeting"));
    }
  }

  // ---- the Zoom webhook --------------------------------------------------

  datatype ValidationAnswer = ValidationAnswer(plainToken: string, encryptedToken: string)

  /** HMAC-SHA256 of a message under a key, as lower-case hex. */
  type Hmac = (string, string) -> string

  function Get(body: Body, key: string): Option<Json> {
    if key in body then Some(body[key]) else None
  }

  predicate IsValidationEvent(body: Body) {
    Get(body, "event") == Some(JStr("endpoint.url_validation"))
  }

  /**
   * The CRC challenge. `req.body.payload.plainToken` throws when there is no
   * payload, and the HMAC throws on a token that is not a string; both escape
   * the handler (NoReply). A missing secret is checked between the two.
   */
  function ValidationReply(body: Body, env: Env, hmac: Hmac): (r: Reply<ValidationAnswer>)
    ensures (Get(body, "payload").None? || body["payload"].JNull?) ==> r == NoReply
    ensures Get(body, "payload").Some? && !body["payload"].JNull? && EnvGet(env, "ZOOM_WEBHOOK_SECRET_TOKEN").None?
            ==> r == ErrorJson(500, "Webhook secret not configured")
    ensures r.Json200? <==> (EnvGet(env, "ZOOM_WEBHOOK_SECRET_TOKEN").Some?
                             && Field(Get(body, "payload"), "plainToken").Some?
                             && Field(Get(body, "payload"), "plainToken").value.JStr?)
    ensures r.Json200? ==> var token := Field(Get(body, "payload"), "plainToken").value.s;
                           r.body == ValidationAnswer(token, hmac(env["ZOOM_WEBHOOK_SECRET_TOKEN"], token))
  {
    match Get(body, "payload")
    case None => NoReply
    case Some(payload) =>
      if payload.JNull? then NoReply
      else
        match EnvGet(env, "ZOOM_WEBHOOK_SECRET_TOKEN")
        case None => ErrorJson(500, "Webhook secret not configured")
        case Some(secret) =>
          match Field(Some(payload), "plainToken")
          case Some(JStr(token)) => Json200(ValidationAnswer(token, hmac(secret, token)))
          case _ => NoReply
  }

  /** The status an event sets: started and ended only. */
  function EventStatus(event: Option<Json>): (s: Option<Status>)
    ensures s == Some(Started) <==> event == Some(JStr("meeting.started"))
    ensures s == Some(Ended) <==> event == Some(JStr("meeting.ended"))
    ensures s.None? <==> event !in {Some(JStr("meeting.started")), Some(JStr("meeting.ended"))}
  {
    if event == Some(JStr("meeting.started")) then Some(Started)
    else if event == Some(JStr("meeting.ended")) then Some(Ended)
    else None
  }

  /** `String(payload?.object?.id)`: "undefined" when any step is missing. */
  function EventMeetingId(body: Body): (id: string)
    ensures Field(Field(Get(body, "payload"), "object"), "id").None? ==> id == "undefined"
  {
    JsString(Field(Field(Get(body, "payload"), "object"), "id"))
  }

  /**
   * A meeting event changes the table exactly when its id is not empty, the
   * lookup succeeds with one row, the event is `meeting.started` or
   * `meeting.ended`, and the update succeeds.
   */
  predicate EventApplies(rows: seq<Meeting>, body: Body, lookupError: Option<string>, updateError: Option<string>) {
    lookupError.None? && updateError.None? && EventMeetingId(body) != ""
    && |MatchingZoomId(rows, EventMeetingId(body))| == 1
    && EventStatus(Get(body, "event")).Some?
  }

  /**
   * The table after a meeting event: the one meeting with that Zoom id gets the
   * event's status; an empty id, a failed or empty lookup, another event and a
   * failed update leave it as it was.
   */
  function WebhookRows(rows: seq<Meeting>, body: Body, lookupError: Option<string>, updateError: Option<string>, now: int): (r: seq<Meeting>)
    ensures EventApplies(rows, body, lookupError, updateError)
            ==> r == WithStatus(rows, MatchingZoomId(rows, EventMeetingId(body))[0].id, EventStatus(Get(body, "event")).value, now)
    ensures !EventApplies(rows, body, lookupError, updateError) ==> r == rows
  {
    var id := EventMeetingId(body);
    if id == "" || lookupError.Some? then rows
    else
      match Single(MatchingZoomId(rows, id))
      case None => rows
      case Some(meeting) =>
        match EventStatus(Get(body, "event"))
        case None => rows
        case Some(status) => if updateError.Some? then rows else WithStatus(rows, meeting.id, status, now)
  }

  /** POST /webhook */
  method Webhook(store: MeetingStore, body: Body, env: Env, hmac: Hmac, lookupError: Option<string>, updateError: Option<string>, now: int)
    returns (r: Reply<ValidationAnswer>)
    requires store.Valid()
    modifies store
    ensures store.Valid()
    ensures IsValidationEvent(body) ==> r == ValidationReply(body, env, hmac) && store.rows == old(store.rows)
    // every meeting event is acknowledged with an empty 200, whatever happened
    ensures !IsValidationEvent(body) ==> r == Empty200 && store.rows == WebhookRows(old(store.rows), body, lookupError, updateError, now)
  {
    if IsValidationEvent(body) {
      return ValidationReply(body, env, hmac);
    }
    var zoomMeetingId := JsString(Field(Field(Get(body, "payload"), "object"), "id"));
    if zoomMeetingId == "" {
      return Empty200;
    }
    var found := store.GetMeetingByZoomId(zoomMeetingId, lookupError);
    if found.Err? || found.value.None? {
      return Empty200;
    }
    var meeting := found.value.value;
    var event := Get(body, "event");
    if event == Some(JStr("meeting.started")) {
      var _ := store.UpdateMeetingStatus(meeting.id, Started, now, updateError);
    } else if event == Some(JStr("meeting.ended")) {
      var _ := store.UpdateMeetingStatus(meeting.id, Ended, now, updateError);
    }
    r := Empty200;
  }

  /** A meeting event leaves every meeting but the one it names as it was. */
  lemma WebhookTouchesOnlyItsMeeting(rows: seq<Meeting>, body: Body, lookupError: Option<string>, updateError: Option<string>, now: int, other: string)
    requires forall m :: m in MatchingZoomId(rows, EventMeetingId(body)) ==> m.id != other
    ensures MatchingId(WebhookRows(rows, body, lookupError, updateError, now), other) == MatchingId(rows, other)
  {
    var r := WebhookRows(rows, body, lookupError, updateError, now);
    if r != rows {
      var target := MatchingZoomId(rows, EventMeetingId(body))[0];
      assert target in MatchingZoomId(rows, EventMeetingId(body));
      UpdateLeavesOthers(rows, target.id, other, EventStatus(Get(body, "event")).value, now);
    }
  }

  /**
   * For a known meeting, `meeting.started` marks it started and
   * `meeting.ended` marks it ended, whatever its status was, at the time of
   * the event.
   */
  lemma MeetingEventSetsStatus(rows: seq<Meeting>, body: Body, now: int)
    requires forall a, b :: 0 <= a < b < |rows| ==> rows[a].id != rows[b].id
    requires Get(body, "event") == Some(JStr("meeting.started")) || Get(body, "event") == Some(JStr("meeting.ended"))
    requires EventMeetingId(body) != "" && |MatchingZoomId(rows, EventMeetingId(body))| == 1
    ensures var target := MatchingZoomId(rows, EventMeetingId(body))[0];
            var after := Single(MatchingId(WebhookRows(rows, body, None, None, now), target.id));
            after.Some? && after.value.updatedAt == now
            && after.value.status == (if Get(body, "event") == Some(JStr("meeting.started")) then Started else Ended)
  {
    var matches := MatchingZoomId(rows, EventMeetingId(body));
    var target := matches[0];
    var status := if Get(body, "event") == Some(JStr("meeting.started")) then Started else Ended;
    assert EventStatus(Get(body, "event")) == Some(status);
    assert WebhookRows(rows, body, None, None, now) == WithStatus(rows, target.id, status, now);
    assert target in matches;
    var i :| 0 <= i < |rows| && rows[i] == target;
    UpdateThenFind(rows, target.id, status, now, i);
  }
}
