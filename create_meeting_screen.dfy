/**
 * The seller's create-meeting screen
 * (MobileRN/src/screens/main/CreateMeetingScreen.tsx): the request it sends,
 * how the backend's answer becomes the meeting card, the form reset, and the
 * parameters a join passes to the join screen.
 */
module CreateMeetingScreen {
  import opened Common
  import JoinMeeting

  datatype MeetingKind = Instant | Scheduled

  function KindName(k: MeetingKind): string {
    match k
    case Instant => "instant"
    case Scheduled => "scheduled"
  }

  const DefaultTitle := "Contract Call"
  const DefaultDuration := 60

  /** The body `backendService.createMeeting` posts; `startTime` may be left out. */
  datatype CreateMeetingRequest = CreateMeetingRequest(
    hostUserId: string, title: string, kind: MeetingKind, startTime: Option<string>, duration: int)

  /**
   * The request `handleCreateMeeting` builds: the trimmed title or the
   * default, and a start time only for a scheduled meeting. The waiting-room
   * and join-before-host switches are not part of it.
   */
  function RequestFor(userId: string, meetingTitle: string, kind: MeetingKind, startTime: string, duration: int)
    : (r: CreateMeetingRequest)
    ensures r.hostUserId == userId && r.kind == kind && r.duration == duration
    ensures Trim(meetingTitle) != "" ==> r.title == Trim(meetingTitle)
    ensures Trim(meetingTitle) == "" ==> r.title == DefaultTitle
    ensures r.startTime.Some? <==> kind == Scheduled
    ensures r.startTime.Some? ==> r.startTime.value == startTime
  {
    CreateMeetingRequest(userId, OrElse(Trim(meetingTitle), DefaultTitle), kind,
                         if kind == Scheduled then Some(startTime) else None, duration)
  }

  /** `JSON.stringify` of the request: an absent start time is no key at all. */
  function RequestBody(r: CreateMeetingRequest): (b: Body)
    ensures b.Keys == {"hostUserId", "title", "type", "duration"} + (if r.startTime.Some? then {"startTime"} else {})
    ensures b["hostUserId"] == JStr(r.hostUserId) && b["title"] == JStr(r.title)
    ensures b["type"] == JStr(KindName(r.kind)) && b["duration"] == JNum(r.duration)
    ensures r.startTime.Some? ==> b["startTime"] == JStr(r.startTime.value)
  {
    var b := map["hostUserId" := JStr(r.hostUserId), "title" := JStr(r.title),
                 "type" := JStr(KindName(r.kind)), "duration" := JNum(r.duration)];
    if r.startTime.Some? then b["startTime" := JStr(r.startTime.value)] else b
  }

  /** The fields of the created meeting the screen reads. */
  datatype CreatedMeeting = CreatedMeeting(
    id: string, zoomMeetingId: string, password: Option<string>, joinUrl: Option<string>, zakToken: Option<string>)

  /** What `backendService.createMeeting` resolves to; it never throws. */
  datatype CreateResponse = CreateResponse(success: bool, data: Option<CreatedMeeting>, error: Option<string>)

  /** The meeting card's data. */
  datatype MeetingData = MeetingData(
    id: string, zoomMeetingId: string, password: string, joinUrl: string, host: bool, zakToken: Option<string>)

  /** The answer mapped to the card: missing or empty texts become "", a null ZAK undefined. */
  function MeetingDataOf(m: CreatedMeeting): (d: MeetingData)
    ensures d.id == m.id && d.zoomMeetingId == m.zoomMeetingId && d.host
    ensures d.password == OptionOr(m.password, "") && d.joinUrl == OptionOr(m.joinUrl, "")
    ensures d.zakToken.Some? <==> Truthy(m.zakToken)
    ensures d.zakToken.Some? ==> d.zakToken == m.zakToken
  {
    MeetingData(m.id, m.zoomMeetingId, OptionOr(m.password, ""), OptionOr(m.joinUrl, ""), true,
                if Truthy(m.zakToken) then m.zakToken else None)
  }

  datatype Alert = Alert(title: string, message: string)

  class CreateMeeting {
    var isCreating: bool
    var meetingData: Option<MeetingData>
    var meetingType: MeetingKind
    var meetingTitle: string
    var startTime: string
    var duration: int
    var waitingRoom: bool
    var joinBeforeHost: bool
    var showAdvanced: bool

    /** Every form value at its default. */
    predicate IsReset()
      reads this
    {
      meetingData.None? && meetingType == Instant && meetingTitle == "" && startTime == ""
      && duration == DefaultDuration && !waitingRoom && joinBeforeHost && !showAdvanced
    }

    constructor()
      ensures IsReset() && !isCreating
    {
      isCreating := false;
      meetingData := None;
      meetingType := Instant;
      meetingTitle := "";
      startTime := "";
      duration := DefaultDuration;
      waitingRoom := false;
      joinBeforeHost := true;
      showAdvanced := false;
    }

    /**
     * `handleCreateMeeting`: nothing is sent without a user id; otherwise the
     * request built from the form is sent, a successful answer becomes the
     * card, and `isCreating` ends false.
     */
    method HandleCreateMeeting(userId: Option<string>, create: CreateMeetingRequest -> CreateResponse)
      returns (sent: Option<CreateMeetingRequest>, alert: Alert)
      modifies this
      ensures !Truthy(userId) ==> sent.None? && alert == Alert("Error", "User not authenticated")
                                  && meetingData == old(meetingData) && isCreating == old(isCreating)
      ensures Truthy(userId) ==> sent == Some(RequestFor(userId.value, old(meetingTitle), old(meetingType), old(startTime), old(duration)))
                                 && !isCreating
      ensures sent.Some? && create(sent.value).success && create(sent.value).data.Some?
              ==> meetingData == Some(MeetingDataOf(create(sent.value).data.value))
                  && alert == Alert("Success", "Meeting created successfully!")
      ensures sent.Some? && !(create(sent.value).success && create(sent.value).data.Some?)
              ==> meetingData == old(meetingData)
                  && alert == Alert("Error", OptionOr(create(sent.value).error, "Failed to create meeting"))
      ensures meetingType == old(meetingType) && meetingTitle == old(meetingTitle) && startTime == old(startTime)
      ensures duration == old(duration) && waitingRoom == old(waitingRoom) && joinBeforeHost == old(joinBeforeHost)
      ensures showAdvanced == old(showAdvanced)
    {
      if !Truthy(userId) {
        return None, Alert("Error", "User not authenticated");
      }
      var request := RequestFor(userId.value, meetingTitle, meetingType, startTime, duration);
      sent := Some(request);
      isCreating := true;
      var response := create(request);
      if response.success && response.data.Some? {
        var card := MeetingDataOf(response.data.value);
        meetingData := Some(card);
        alert := Alert("Success", "Meeting created successfully!");
      } else {
        alert := Alert("Error", OptionOr(response.error, "Failed to create meeting"));
      }
      isCreating := false;
    }

    /** `resetForm`: back to the defaults, card dropped. */
    method ResetForm()
      modifies this
      ensures IsReset() && isCreating == old(isCreating)
    {
      meetingData := None;
      meetingType := Instant;
      meetingTitle := "";
      startTime := "";
      duration := DefaultDuration;
      waitingRoom := false;
      joinBeforeHost := true;
      showAdvanced := false;
    }
  }

  /** `handleJoinMeeting`: only with a card, as host of that meeting. */
  function JoinParamsFor(meetingData: Option<MeetingData>, userName: Option<string>): (p: Option<JoinMeeting.JoinParams>)
    ensures p.Some? <==> meetingData.Some?
    ensures p.Some? ==> p.value.isHost && p.value.dbMeetingId == Some(meetingData.value.id)
                        && p.value.meetingId == Some(meetingData.value.zoomMeetingId)
                        && p.value.password == Some(meetingData.value.password)
                        && p.value.zakToken == meetingData.value.zakToken && p.value.displayName == userName
  {
    match meetingData
    case None => None
    case Some(d) =>
      Some(JoinMeeting.JoinParams(Some(d.zoomMeetingId), Some(d.password), userName, true, d.zakToken, Some(d.id)))
  }

  /** The request the screen sends carries no `userId` field. */
  lemma RequestHasNoUserId(r: CreateMeetingRequest)
    ensures "userId" !in RequestBody(r)
  {
  }
}
