/** backend/src/routes/user.routes.ts: POST /users/fcm-token. */
module UserRoutes {
  import opened Common
  import opened ZodRules
  import opened Users
  import opened FcmService

  datatype FcmTokenRequest = FcmTokenRequest(userId: string, fcmToken: string, platform: Platform)

  /** `registerFcmTokenSchema`: a UUID user id, a non-empty token, "ios" or "android". */
  function ParseFcmTokenRequest(body: Body): (r: Option<FcmTokenRequest>)
    ensures r.Some? <==> UuidField(body, "userId") && StringMin(body, "fcmToken", 1)
                         && EnumField(body, "platform", {"ios", "android"})
    ensures r.Some? ==> (body["userId"] == JStr(r.value.userId) && body["fcmToken"] == JStr(r.value.fcmToken)
                         && body["platform"] == JStr(if r.value.platform == Ios then "ios" else "android"))
  {
    if UuidField(body, "userId") && StringMin(body, "fcmToken", 1) && EnumField(body, "platform", {"ios", "android"}) then
      Some(FcmTokenRequest(body["userId"].s, body["fcmToken"].s, if body["platform"].s == "ios" then Ios else Android))
    else None
  }

  datatype Registered = Registered(success: bool, message: string)

  /**
   * The handler: 400 on a bad body; otherwise the service's `{ success: false, error }`
   * is a 500 with that error, success is `{ success: true, message }`, and a
   * thrown error is a 500 with its message or the fallback.
   */
  function FcmTokenRoute(body: Body, register: FcmTokenRequest -> Result<SendResult, string>): (r: Reply<Registered>)
    ensures ParseFcmTokenRequest(body).None? <==> r == BadRequest
    ensures r.Json200? <==> (ParseFcmTokenRequest(body).Some? && register(ParseFcmTokenRequest(body).value).Ok?
                             && register(ParseFcmTokenRequest(body).value).value.success)
    ensures r.Json200? ==> r.body == Registered(true, "FCM token registered")
    ensures ParseFcmTokenRequest(body).Some? && register(ParseFcmTokenRequest(body).value).Ok?
            && !register(ParseFcmTokenRequest(body).value).value.success
            ==> var e := register(ParseFcmTokenRequest(body).value).value.error;
                r == ErrorJson(500, if e.Some? then e.value else "")
    ensures ParseFcmTokenRequest(body).Some? && register(ParseFcmTokenRequest(body).value).Err?
            ==> r == ErrorJson(500, OrElse(register(ParseFcmTokenRequest(body).value).error, "Failed to register FCM token"))
  {
    match ParseFcmTokenRequest(body)
    case None => BadRequest
    case Some(req) =>
      match register(req)
      case Err(e) => ErrorJson(500, OrElse(e, "Failed to register FCM token"))
      case Ok(result) =>
        if !result.success then ErrorJson(500, if result.error.Some? then result.error.value else "")
        else Json200(Registered(true, "FCM token registered"))
  }
}
