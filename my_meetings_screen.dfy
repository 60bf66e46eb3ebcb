/**
 * The seller's meeting list (MobileRN/src/screens/main/MyMeetingsScreen.tsx):
 * the status badge colour, which cards offer "Join Meeting", the state a
 * fetch leaves behind, and the parameters a join passes to the join screen.
 */
module MyMeetingsScreen {
  import opened Common
  import JoinMeeting

  /** A meeting as the app receives it; `status` is whatever text the backend sent. */
  datatype MobileMeeting = MobileMeeting(id: string, zoomMeetingId: string, title: string, password: Option<string>, status: string)

  /** The theme colours the badge uses, and one literal. */
  datatype Color = Primary | Secondary | TextSecondary | Hex(code: string)

  /** `getStatusColor`: every status has a colour; unknown ones look like "ended". */
  function StatusColor(status: string): (c: Color)
    ensures status == "created" <==> c == Primary
    ensures status == "started" <==> c == Secondary
    ensures status == "cancelled" <==> c == Hex("#E53935")
    ensures status !in {"created", "started", "cancelled"} <==> c == TextSecondary
  {
    match status
    case "created" => Primary
    case "started" => Secondary
    case "ended" => TextSecondary
    case "cancelled" => Hex("#E53935")
    case _ => TextSecondary
  }

  /** A card shows the join button only for a meeting not yet ended or cancelled. */
  predicate CanJoin(status: string) {
    status == "created" || status == "started"
  }

  lemma JoinableHaveActiveColors(status: string)
    ensures CanJoin(status) <==> StatusColor(status) in {Primary, Secondary}
  {
  }

  /** The `data` of a successful `getMeetings` answer. */
  datatype MeetingsPayload = MeetingsPayload(meetings: seq<MobileMeeting>, zakToken: Option<string>)

  /**
   * What `backendService.getMeetings` resolves to; it catches its own
   * failures, so it never throws.
   */
  datatype MeetingsResponse = MeetingsResponse(success: bool, data: Option<MeetingsPayload>, error: Option<string>)

  /** The value held in the `meetings` state: an array, or some other object. */
  datatype ListState = MeetingArray(items: seq<MobileMeeting>) | PayloadObject(payload: MeetingsPayload)

  /** The cards a `FlatList` over the state shows: none unless the state is an array. */
  function Rows(state: ListState): (rows: seq<MobileMeeting>)
    ensures state.MeetingArray? ==> rows == state.items
    ensures state.PayloadObject? ==> rows == []
  {
    match state
    case MeetingArray(items) => items
    case PayloadObject(_) => []
  }

  /** The `meetings` state after a fetch, as written: the whole `data` object is stored. */
  function ListAfterFetchAsWritten(current: ListState, response: MeetingsResponse): (next: ListState)
    ensures response.success && response.data.Some? ==> next == PayloadObject(response.data.value)
    ensures !(response.success && response.data.Some?) ==> next == current
  {
    if response.success && response.data.Some? then PayloadObject(response.data.value) else current
  }

  /** As written, a successful fetch of a non-empty list leaves no card on screen. */
  lemma FetchedMeetingsNotShown(current: ListState, response: MeetingsResponse)
    requires response.success && response.data.Some? && response.data.value.meetings != []
    ensures Rows(ListAfterFetchAsWritten(current, response)) != response.data.value.meetings
  {
  }

  /** The `meetings` state after a fetch, storing the fetched array. */
  function ListAfterFetch(current: ListState, response: MeetingsResponse): (next: ListState)
    ensures response.success && response.data.Some? ==> next.MeetingArray? && Rows(next) == response.data.value.meetings
    ensures !(response.success && response.data.Some?) ==> next == current
  {
    if response.success && response.data.Some? then MeetingArray(response.data.value.meetings) else current
  }

  class MyMeetings {
    var meetings: ListState
    var loading: bool
    var refreshing: bool
    var error: Option<string>

    constructor()
      ensures meetings == MeetingArray([]) && loading && !refreshing && error.None?
    {
      meetings := MeetingArray([]);
      loading := true;
      refreshing := false;
      error := None;
    }

    /**
     * `fetchMeetings`: without a user id nothing happens and `fetch` is not
     * called. Otherwise the state or the error is replaced and both spinners
     * stop. A successful answer stores the whole `data` object, so the list
     * then shows no card (`ListAfterFetch` is the intended state).
     */
    method FetchMeetings(userId: Option<string>, fetch: string -> MeetingsResponse)
      modifies this
      ensures !Truthy(userId) ==> meetings == old(meetings) && loading == old(loading)
                                  && refreshing == old(refreshing) && error == old(error)
      ensures Truthy(userId) ==> !loading && !refreshing
      ensures Truthy(userId) ==> meetings == ListAfterFetchAsWritten(old(meetings), fetch(userId.value))
      ensures Truthy(userId) && fetch(userId.value).success && fetch(userId.value).data.Some? ==> error.None? && Rows(meetings) == []
      ensures Truthy(userId) && !(fetch(userId.value).success && fetch(userId.value).data.Some?)
              ==> error == Some(OptionOr(fetch(userId.value).error, "Failed to fetch meetings"))
    {
      if !Truthy(userId) {
        return;
      }
      error := None;
      var response := fetch(userId.value);
      if response.success && response.data.Some? {
        meetings := PayloadObject(response.data.value);
      } else {
        error := Some(OptionOr(response.error, "Failed to fetch meetings"));
      }
      loading := false;
      refreshing := false;
    }

    /** `handleRefresh`: pull-to-refresh shows the spinner, then fetches. */
    method HandleRefresh(userId: Option<string>, fetch: string -> MeetingsResponse)
      modifies this
      ensures !Truthy(userId) ==> refreshing && meetings == old(meetings) && error == old(error) && loading == old(loading)
      ensures Truthy(userId) ==> !refreshing && !loading && meetings == ListAfterFetchAsWritten(old(meetings), fetch(userId.value))
    {
      refreshing := true;
      FetchMeetings(userId, fetch);
    }
  }

  /** What `getZakToken` resolves to. */
  datatype ZakResponse = ZakResponse(success: bool, zakToken: Option<string>)

  /**
   * `handleJoinMeeting`: the join screen opens as host of this meeting,
   * with the ZAK only when its fetch succeeded.
   */
  function JoinParamsFor(meeting: MobileMeeting, userName: Option<string>, zak: ZakResponse): (p: JoinMeeting.JoinParams)
    ensures p.isHost && p.meetingId == Some(meeting.zoomMeetingId) && p.dbMeetingId == Some(meeting.id)
    ensures p.password == meeting.password && p.displayName == userName
    ensures p.zakToken == (if zak.success then zak.zakToken else None)
  {
    JoinMeeting.JoinParams(Some(meeting.zoomMeetingId), meeting.password, userName, true,
                           if zak.success then zak.zakToken else None, Some(meeting.id))
  }

  /**
   * Joining from the list with a ZAK in hand starts the meeting and marks
   * this meeting's row started, once the join screen's checks pass.
   */
  lemma ListJoinStartsMeeting(meeting: MobileMeeting, userName: string, zak: string, password: string)
    requires Trim(meeting.zoomMeetingId) != "" && Trim(userName) != "" && zak != "" && meeting.id != ""
    ensures var p := JoinParamsFor(meeting, Some(userName), ZakResponse(true, Some(zak)));
            var o := JoinMeeting.JoinDecision(meeting.zoomMeetingId, password, userName, p.isHost, p.zakToken,
                                             p.dbMeetingId, true, JoinMeeting.Granted, false, None);
            o.call == Some(JoinMeeting.StartMeeting(Trim(userName), Trim(meeting.zoomMeetingId), zak))
            && o.markStarted == Some(meeting.id)
  {
  }
}
