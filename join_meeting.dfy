/**
 * The join screen (MobileRN/src/screens/main/JoinMeeting.tsx): three
 * editable fields behind an edit modal, the decision to start or join a
 * Zoom meeting through the SDK, and the seller's send-contract form. The
 * screen's state variables are the fields of `JoinMeetingScreen`; the route
 * parameters and the signed-in user are fixed when it is constructed. The
 * SDK, the permission dialogs and the backend are injected answers.
 */
module JoinMeeting {
  import opened Common
  import SendContractSection

  datatype EditField = MeetingIdField | PasswordField | DisplayNameField

  /** The route parameters; `zakToken` may be null. */
  datatype JoinParams = JoinParams(
    meetingId: Option<string>, password: Option<string>, displayName: Option<string>,
    isHost: bool, zakToken: Option<string>, dbMeetingId: Option<string>)

  datatype Alert = Alert(title: string, message: string)

  /** The one Zoom SDK call a join attempt makes. */
  datatype SdkCall =
    | StartMeeting(userName: string, meetingNumber: string, zoomAccessToken: string)
    | JoinMeetingCall(userName: string, meetingNumber: string, password: Option<string>, userType: int)

  /** What `handleJoinMeeting` does: the SDK call, the status update, the alert. */
  datatype JoinOutcome = JoinOutcome(call: Option<SdkCall>, markStarted: Option<string>, alert: Option<Alert>)

  /** The body `backendService.sendContract` posts. */
  datatype ContractRequest = ContractRequest(
    clientEmail: string, sellerUserId: string, meetingId: Option<string>, contractUrl: Option<string>)

  /** `JSON.stringify` of the request: undefined fields are left out. */
  function ContractRequestBody(r: ContractRequest): (b: Body)
    ensures b.Keys == {"clientEmail", "sellerUserId"} + (if r.meetingId.Some? then {"meetingId"} else {})
                      + (if r.contractUrl.Some? then {"contractUrl"} else {})
    ensures b["clientEmail"] == JStr(r.clientEmail) && b["sellerUserId"] == JStr(r.sellerUserId)
    ensures r.meetingId.Some? ==> b["meetingId"] == JStr(r.meetingId.value)
    ensures r.contractUrl.Some? ==> b["contractUrl"] == JStr(r.contractUrl.value)
  {
    var b := map["clientEmail" := JStr(r.clientEmail), "sellerUserId" := JStr(r.sellerUserId)];
    var b := if r.meetingId.Some? then b["meetingId" := JStr(r.meetingId.value)] else b;
    if r.contractUrl.Some? then b["contractUrl" := JStr(r.contractUrl.value)] else b
  }

  /** The backend's answer, or the message of the exception the call threw. */
  datatype ContractResponse = Answered(success: bool, error: Option<string>) | Threw(message: Option<string>)

  /** `getFieldLabel`. */
  function FieldLabel(field: Option<EditField>): (text: string)
    ensures text == "" <==> field.None?
  {
    match field
    case None => ""
    case Some(MeetingIdField) => "Meeting ID"
    case Some(PasswordField) => "Password"
    case Some(DisplayNameField) => "Display Name"
  }

  /** How `requestPermissions` ends: granted, refused with an alert, or a request that threw. */
  datatype PermissionResult = Granted | Denied | RequestFailed

  /** The alert `requestPermissions` shows when the camera or the microphone is refused. */
  const PermissionsAlert := Alert("Permissions Required",
    "Camera and microphone permissions are required to join a meeting. Please grant them in your device settings.")

  /**
   * `requestPermissions`: outside Android nothing is asked; on Android the
   * camera and the microphone must both be granted. A refusal shows
   * `PermissionsAlert`; a request that throws is only logged.
   */
  function RequestPermissions(isAndroid: bool, requestThrows: bool, cameraGranted: bool, micGranted: bool): (p: PermissionResult)
    ensures p == Granted <==> !isAndroid || (!requestThrows && cameraGranted && micGranted)
    ensures p == Denied <==> isAndroid && !requestThrows && !(cameraGranted && micGranted)
    ensures p == RequestFailed <==> isAndroid && requestThrows
  {
    if !isAndroid then Granted
    else if requestThrows then RequestFailed
    else if cameraGranted && micGranted then Granted
    else Denied
  }

  /**
   * `handleJoinMeeting`. Blank meeting id, blank display name and an SDK
   * that is not ready are refused in that order, before any permission
   * request. Refused permissions end it with the permissions alert, a
   * permission request that threw ends it silently. A host holding a ZAK
   * starts the meeting and, if it has a database id, then marks it started;
   * anyone else joins as a participant. A throwing SDK call shows an alert
   * and skips the status update.
   */
  function JoinDecision(meetingId: string, password: string, displayName: string, isHost: bool,
                        zakToken: Option<string>, dbMeetingId: Option<string>, sdkReady: bool,
                        permissions: PermissionResult, sdkThrows: bool, sdkMessage: Option<string>): (o: JoinOutcome)
    ensures Trim(meetingId) == "" ==> o == JoinOutcome(None, None, Some(Alert("Error", "Please enter a meeting ID")))
    ensures Trim(meetingId) != "" && Trim(displayName) == ""
            ==> o == JoinOutcome(None, None, Some(Alert("Error", "Please enter your display name")))
    ensures Trim(meetingId) != "" && Trim(displayName) != "" && !sdkReady
            ==> o == JoinOutcome(None, None, Some(Alert("Error", "Zoom SDK is not ready yet. Please wait.")))
    ensures Trim(meetingId) != "" && Trim(displayName) != "" && sdkReady && permissions == Denied
            ==> o == JoinOutcome(None, None, Some(PermissionsAlert))
    ensures Trim(meetingId) != "" && Trim(displayName) != "" && sdkReady && permissions == RequestFailed
            ==> o == JoinOutcome(None, None, None)
    ensures o.call.Some? <==> Trim(meetingId) != "" && Trim(displayName) != "" && sdkReady && permissions == Granted
    ensures o.call.Some? && isHost && Truthy(zakToken)
            ==> o.call.value == StartMeeting(Trim(displayName), Trim(meetingId), zakToken.value)
    ensures o.call.Some? && !(isHost && Truthy(zakToken))
            ==> o.call.value == JoinMeetingCall(Trim(displayName), Trim(meetingId), NonEmpty(Trim(password)), 0)
    ensures o.markStarted.Some? <==> o.call.Some? && o.call.value.StartMeeting? && !sdkThrows && Truthy(dbMeetingId)
    ensures o.markStarted.Some? ==> o.markStarted == dbMeetingId
    ensures o.call.Some? && sdkThrows ==> o.alert == Some(Alert("Failed to Join", OptionOr(sdkMessage, "Please try again.")))
    ensures o.call.Some? && !sdkThrows ==> o.alert.None?
  {
    if Trim(meetingId) == "" then JoinOutcome(None, None, Some(Alert("Error", "Please enter a meeting ID")))
    else if Trim(displayName) == "" then JoinOutcome(None, None, Some(Alert("Error", "Please enter your display name")))
    else if !sdkReady then JoinOutcome(None, None, Some(Alert("Error", "Zoom SDK is not ready yet. Please wait.")))
    else match permissions
      case Denied => JoinOutcome(None, None, Some(PermissionsAlert))
      case RequestFailed => JoinOutcome(None, None, None)
      case Granted => SdkStep(Trim(displayName), Trim(meetingId), Trim(password), isHost, zakToken, dbMeetingId, sdkThrows, sdkMessage)
  }

  /**
   * The part of `handleJoinMeeting` after the checks, on the trimmed fields:
   * the one SDK call, the status update after a successful host start with
   * a database id, and the alert when the call throws.
   */
  function SdkStep(userName: string, meetingNumber: string, password: string, isHost: bool,
                   zakToken: Option<string>, dbMeetingId: Option<string>, sdkThrows: bool, sdkMessage: Option<string>): (o: JoinOutcome)
    ensures o.call.Some?
    ensures isHost && Truthy(zakToken) ==> o.call.value == StartMeeting(userName, meetingNumber, zakToken.value)
    ensures !(isHost && Truthy(zakToken)) ==> o.call.value == JoinMeetingCall(userName, meetingNumber, NonEmpty(password), 0)
    ensures o.markStarted.Some? <==> o.call.value.StartMeeting? && !sdkThrows && Truthy(dbMeetingId)
    ensures o.markStarted.Some? ==> o.markStarted == dbMeetingId
    ensures sdkThrows ==> o.alert == Some(Alert("Failed to Join", OptionOr(sdkMessage, "Please try again.")))
    ensures !sdkThrows ==> o.alert.None?
  {
    var failure := if sdkThrows then Some(Alert("Failed to Join", OptionOr(sdkMessage, "Please try again."))) else None;
    if isHost && Truthy(zakToken) then
      var started := if !sdkThrows && Truthy(dbMeetingId) then dbMeetingId else None;
      JoinOutcome(Some(StartMeeting(userName, meetingNumber, zakToken.value)), started, failure)
    else
      JoinOutcome(Some(JoinMeetingCall(userName, meetingNumber, NonEmpty(password), 0)), None, failure)
  }

  /**
   * The validation of `handleSendContract`: a blank email, an email the
   * pattern rejects, and a missing user id are refused in that order. A
   * blank contract URL is sent as undefined.
   */
  function ContractRequestFor(clientEmail: string, userId: Option<string>, dbMeetingId: Option<string>,
                              contractUrl: string): (r: Result<ContractRequest, Alert>)
    ensures Trim(clientEmail) == "" ==> r == Err(Alert("Error", "Please enter the client email address"))
    ensures Trim(clientEmail) != "" && !SendContractSection.IsValidEmail(clientEmail)
            ==> r == Err(Alert("Error", "Please enter a valid email address"))
    ensures SendContractSection.IsValidEmail(clientEmail) && !Truthy(userId)
            ==> r == Err(Alert("Error", "User not authenticated"))
    ensures r.Ok? <==> SendContractSection.IsValidEmail(clientEmail) && Truthy(userId)
    ensures r.Ok? ==> r.value == ContractRequest(Trim(clientEmail), userId.value, dbMeetingId, NonEmpty(Trim(contractUrl)))
  {
    if Trim(clientEmail) == "" then Err(Alert("Error", "Please enter the client email address"))
    else if !SendContractSection.IsValidEmail(clientEmail) then Err(Alert("Error", "Please enter a valid email address"))
    else if !Truthy(userId) then Err(Alert("Error", "User not authenticated"))
    else Ok(ContractRequest(Trim(clientEmail), userId.value, dbMeetingId, NonEmpty(Trim(contractUrl))))
  }

  /** The alert shown once the backend has answered or thrown. */
  function ContractAlert(clientEmail: string, response: ContractResponse): (a: Alert)
    ensures response.Answered? && response.success ==> a == Alert("Contract Sent!", "Contract has been sent to " + clientEmail)
    ensures response.Answered? && !response.success ==> a == Alert("Error", OptionOr(response.error, "Failed to send contract"))
    ensures response.Threw? ==> a == Alert("Error", OptionOr(response.message, "Failed to send contract"))
  {
    match response
    case Answered(success, error) =>
      if success then Alert("Contract Sent!", "Contract has been sent to " + clientEmail)
      else Alert("Error", OptionOr(error, "Failed to send contract"))
    case Threw(message) => Alert("Error", OptionOr(message, "Failed to send contract"))
  }

  class JoinMeetingScreen {
    const routeMeetingId: Option<string>
    const zakToken: Option<string>
    const dbMeetingId: Option<string>
    const userId: Option<string>

    var meetingId: string
    var password: string
    var displayName: string
    var isHost: bool
    var isJoining: bool
    var isModalVisible: bool
    var editingField: Option<EditField>
    var tempValue: string
    var clientEmail: string
    var contractUrl: string
    var isSendingContract: bool
    var contractSent: bool

    /** The initial state from the route parameters and the signed-in user. */
    constructor(params: JoinParams, userId: Option<string>, userName: Option<string>)
      ensures routeMeetingId == params.meetingId && zakToken == params.zakToken
      ensures dbMeetingId == params.dbMeetingId && this.userId == userId
      ensures meetingId == OptionOr(params.meetingId, "") && password == OptionOr(params.password, "")
      ensures displayName == OptionOr(params.displayName, OptionOr(userName, ""))
      ensures isHost == params.isHost && !isJoining
      ensures !isModalVisible && editingField.None? && tempValue == ""
      ensures clientEmail == "" && contractUrl == "" && !isSendingContract && !contractSent
    {
      routeMeetingId := params.meetingId;
      zakToken := params.zakToken;
      dbMeetingId := params.dbMeetingId;
      this.userId := userId;
      meetingId := OptionOr(params.meetingId, "");
      password := OptionOr(params.password, "");
      displayName := OptionOr(params.displayName, OptionOr(userName, ""));
      isHost := params.isHost;
      isJoining := false;
      isModalVisible := false;
      editingField := None;
      tempValue := "";
      clientEmail := "";
      contractUrl := "";
      isSendingContract := false;
      contractSent := false;
    }

    function FieldValue(field: EditField): string
      reads this
    {
      match field
      case MeetingIdField => meetingId
      case PasswordField => password
      case DisplayNameField => displayName
    }

    /** `openEditModal`: the field's current value is copied into the modal. */
    method OpenEditModal(field: EditField)
      modifies this
      ensures editingField == Some(field) && tempValue == old(FieldValue(field)) && isModalVisible
      ensures meetingId == old(meetingId) && password == old(password) && displayName == old(displayName)
      ensures isHost == old(isHost) && isJoining == old(isJoining)
      ensures clientEmail == old(clientEmail) && contractUrl == old(contractUrl)
      ensures isSendingContract == old(isSendingContract) && contractSent == old(contractSent)
    {
      editingField := Some(field);
      tempValue := FieldValue(field);
      isModalVisible := true;
    }

    /**
     * `handleSaveEdit`: the modal's text goes into the field being edited
     * and no other; a meeting id other than the route's drops host status.
     */
    method HandleSaveEdit()
      modifies this
      ensures !isModalVisible && editingField.None? && tempValue == ""
      ensures meetingId == (if old(editingField) == Some(MeetingIdField) then old(tempValue) else old(meetingId))
      ensures password == (if old(editingField) == Some(PasswordField) then old(tempValue) else old(password))
      ensures displayName == (if old(editingField) == Some(DisplayNameField) then old(tempValue) else old(displayName))
      ensures isHost == (old(isHost) && !(old(editingField) == Some(MeetingIdField) && Some(old(tempValue)) != routeMeetingId))
      ensures isJoining == old(isJoining)
      ensures clientEmail == old(clientEmail) && contractUrl == old(contractUrl)
      ensures isSendingContract == old(isSendingContract) && contractSent == old(contractSent)
    {
      if editingField == Some(MeetingIdField) {
        meetingId := tempValue;
        if Some(tempValue) != routeMeetingId {
          isHost := false;
        }
      } else if editingField == Some(PasswordField) {
        password := tempValue;
      } else if editingField == Some(DisplayNameField) {
        displayName := tempValue;
      }
      isModalVisible := false;
      editingField := None;
      tempValue := "";
    }

    /** `handleCancelEdit`: the modal closes and no field changes. */
    method HandleCancelEdit()
      modifies this
      ensures !isModalVisible && editingField.None? && tempValue == ""
      ensures meetingId == old(meetingId) && password == old(password) && displayName == old(displayName)
      ensures isHost == old(isHost) && isJoining == old(isJoining)
      ensures clientEmail == old(clientEmail) && contractUrl == old(contractUrl)
      ensures isSendingContract == old(isSendingContract) && contractSent == old(contractSent)
    {
      isModalVisible := false;
      editingField := None;
      tempValue := "";
    }

    /**
     * `handleJoinMeeting` on the current fields; `isJoining` is reset whenever
     * it was set, and it is the only field that may change.
     */
    method HandleJoinMeeting(sdkReady: bool, permissions: PermissionResult, sdkThrows: bool, sdkMessage: Option<string>)
      returns (o: JoinOutcome)
      modifies this`isJoining
      ensures o == JoinDecision(old(meetingId), old(password), old(displayName), old(isHost), zakToken, dbMeetingId,
                                sdkReady, permissions, sdkThrows, sdkMessage)
      ensures isJoining == (old(isJoining) && o.call.None?)
    {
      o := JoinDecision(meetingId, password, displayName, isHost, zakToken, dbMeetingId,
                        sdkReady, permissions, sdkThrows, sdkMessage);
      if o.call.Some? {
        isJoining := true;
        // the SDK call and the status update happen here
        isJoining := false;
      }
    }

    /**
     * `handleSendContract`: after a refusal nothing changes; otherwise the
     * request is sent, `contractSent` becomes true only on a successful
     * answer, and the sending flag ends false either way. Only those two
     * flags may change.
     */
    method HandleSendContract(answer: ContractResponse)
      returns (sent: Option<ContractRequest>, alert: Alert)
      modifies this`isSendingContract, this`contractSent
      ensures var v := ContractRequestFor(old(clientEmail), userId, dbMeetingId, old(contractUrl));
              (v.Err? ==> sent.None? && alert == v.error && contractSent == old(contractSent)
                          && isSendingContract == old(isSendingContract))
              && (v.Ok? ==> sent == Some(v.value) && alert == ContractAlert(old(clientEmail), answer)
                            && !isSendingContract
                            && contractSent == (old(contractSent) || (answer.Answered? && answer.success)))
    {
      var v := ContractRequestFor(clientEmail, userId, dbMeetingId, contractUrl);
      if v.Err? {
        return None, v.error;
      }
      isSendingContract := true;
      if answer.Answered? && answer.success {
        contractSent := true;
      }
      alert := ContractAlert(clientEmail, answer);
      isSendingContract := false;
      sent := Some(v.value);
    }
  }

  /**
   * Editing the meeting id away from the route's and back again leaves the
   * user a participant: host status is not restored.
   */
  method HostStatusNotRestored(params: JoinParams, other: string) returns (stillHost: bool, id: string)
    requires params.isHost && params.meetingId.Some? && params.meetingId.value != ""
    requires Some(other) != params.meetingId
    ensures !stillHost && id == params.meetingId.value
  {
    var screen := new JoinMeetingScreen(params, None, None);
    screen.OpenEditModal(MeetingIdField);
    screen.tempValue := other;
    screen.HandleSaveEdit();
    screen.OpenEditModal(MeetingIdField);
    screen.tempValue := params.meetingId.value;
    screen.HandleSaveEdit();
    stillHost := screen.isHost;
    id := screen.meetingId;
  }

  /** Opening the modal and cancelling it leaves every field as it was. */
  method CancelKeepsFields(params: JoinParams, field: EditField, typed: string)
    returns (before: (string, string, string, bool), after: (string, string, string, bool))
    ensures before == after
  {
    var screen := new JoinMeetingScreen(params, None, None);
    before := (screen.meetingId, screen.password, screen.displayName, screen.isHost);
    screen.OpenEditModal(field);
    screen.tempValue := typed;
    screen.HandleCancelEdit();
    after := (screen.meetingId, screen.password, screen.displayName, screen.isHost);
  }
}
