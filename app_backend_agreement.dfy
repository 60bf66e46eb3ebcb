/**
 * Whether the requests the mobile app builds get past the backend routes
 * that receive them: the create-meeting request against the seller guard
 * and schema of POST /meetings, and the send-contract request against the
 * schema of POST /contracts/send.
 */
module AppBackendAgreement {
  import opened Common
  import opened Users
  import ZodRules
  import AuthMiddleware
  import MeetingRoutes
  import ContractRoutes
  import CreateMeetingScreen
  import JoinMeeting

  /** Every user id in the table is a UUID, as the `users.id` column requires. */
  predicate UuidIds(users: seq<UserRow>) {
    forall u :: u in users ==> ZodRules.IsUuid(u.id)
  }

  /**
   * As written, the guard looks up `userId`, which the app's create request
   * does not have: every create request from the app is refused with 403,
   * whoever sends it.
   */
  lemma AppCreateRequestForbidden(r: CreateMeetingScreen.CreateMeetingRequest, users: seq<UserRow>, lookupError: bool)
    requires UuidIds(users)
    ensures AuthMiddleware.RequireSellerRole(CreateMeetingScreen.RequestBody(r), users, lookupError) == AuthMiddleware.Forbidden
  {
    CreateMeetingScreen.RequestHasNoUserId(r);
    forall u | u in users ensures u.id != "undefined" {
      ZodRules.UuidIsNotUndefined(u.id);
    }
    AuthMiddleware.NoUserIdForbidden(CreateMeetingScreen.RequestBody(r), users, lookupError);
  }

  /** With the guard reading `hostUserId`, a seller's request from the app passes it. */
  lemma AppCreateRequestAllowed(r: CreateMeetingScreen.CreateMeetingRequest, users: seq<UserRow>)
    requires |WithId(users, r.hostUserId)| == 1 && WithId(users, r.hostUserId)[0].role == "seller"
    ensures AuthMiddleware.RequireHostSellerRole(CreateMeetingScreen.RequestBody(r), users, false) == AuthMiddleware.Next
  {
    assert AuthMiddleware.HostUserId(CreateMeetingScreen.RequestBody(r)) == r.hostUserId;
  }

  /** ... and the request then passes `createMeetingSchema` when its duration is in range. */
  lemma AppCreateRequestParses(r: CreateMeetingScreen.CreateMeetingRequest)
    requires ZodRules.IsUuid(r.hostUserId) && 1 <= r.duration <= 480
    ensures var input := MeetingRoutes.ParseCreateMeeting(CreateMeetingScreen.RequestBody(r));
            input.Some? && input.value.hostUserId == r.hostUserId && input.value.title == Some(r.title)
            && input.value.duration == Some(r.duration) && input.value.startTime == r.startTime
  {
    var b := CreateMeetingScreen.RequestBody(r);
    assert MeetingRoutes.ParseMeetingType(b["type"]).Some? by {
      match r.kind
      case Instant => assert b["type"] == JStr("instant");
      case Scheduled => assert b["type"] == JStr("scheduled");
    }
    assert MeetingRoutes.CreateMeetingValid(b);
  }

  /**
   * As written, the contract route demands `clientUserId`, which the app's
   * send-contract request does not have: every one is answered 400.
   */
  lemma AppContractRequestRejected(r: JoinMeeting.ContractRequest, env: Env)
    ensures ContractRoutes.ContractSendRoute(JoinMeeting.ContractRequestBody(r), env) == BadRequest
  {
  }

  /**
   * With a schema that matches the app's body, every request the join
   * screen lets through is accepted, provided the meeting id it forwards is
   * absent or non-empty.
   */
  lemma AppContractRequestAccepted(clientEmail: string, userId: Option<string>, dbMeetingId: Option<string>,
                                   contractUrl: string, env: Env)
    requires JoinMeeting.ContractRequestFor(clientEmail, userId, dbMeetingId, contractUrl).Ok?
    requires dbMeetingId.None? || dbMeetingId.value != ""
    ensures var r := JoinMeeting.ContractRequestFor(clientEmail, userId, dbMeetingId, contractUrl).value;
            ContractRoutes.AppContractSendRoute(JoinMeeting.ContractRequestBody(r), env)
            == Json200(ContractRoutes.ContractSent(true, ContractRoutes.ContractUrl(env)))
  {
    var r := JoinMeeting.ContractRequestFor(clientEmail, userId, dbMeetingId, contractUrl).value;
    assert r.clientEmail == Trim(clientEmail) != "";
    assert r.sellerUserId == userId.value != "";
    assert r.meetingId == dbMeetingId;
    var b := JoinMeeting.ContractRequestBody(r);
    assert ZodRules.StringMin(b, "clientEmail", 1) && ZodRules.StringMin(b, "sellerUserId", 1);
    assert ZodRules.OptionalStringMin(b, "meetingId", 1) && ZodRules.OptionalStringMin(b, "contractUrl", 0);
  }
}
