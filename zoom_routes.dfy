/**
 * backend/src/routes/zoom.routes.ts: `/jwt`, `/meetings` and `/sdk-signature`.
 * Each handler is a function from the request and the outcomes of the
 * services it calls to the reply. backend/src/index.ts:25-27 mounts only
 * the meetings, contracts and users routers, so as written no request
 * reaches these handlers; they are modelled as the file defines them.
 */
module ZoomRoutes {
  import opened Common
  import opened SignedToken
  import opened ZoomSdkSignature
  import opened ZoomSdkJwt
  import opened ZoomMeetingService

  /** `{ success: true, data: { jwtToken, expiresIn } }` */
  datatype JwtData = JwtData(success: bool, jwtToken: SignedJwt, expiresIn: int)

  function JwtRoute(env: Env, nowMs: int): (r: Reply<JwtData>)
    ensures GenerateMeetingSdkJwt(env, nowMs).Ok?
            ==> r == Json200(JwtData(true, GenerateMeetingSdkJwt(env, nowMs).value.jwtToken, 172800))
    ensures GenerateMeetingSdkJwt(env, nowMs).Err?
            ==> r == ErrorJson(500, OrElse(GenerateMeetingSdkJwt(env, nowMs).error, "Failed to generate JWT"))
  {
    match GenerateMeetingSdkJwt(env, nowMs)
    case Ok(t) => Json200(JwtData(true, t.jwtToken, t.expiresIn))
    case Err(e) => ErrorJson(500, OrElse(e, "Failed to generate JWT"))
  }

  /** `z.object({ meetingId: z.string().min(3), role: z.union([z.literal(0), z.literal(1)]) })` */
  function ParseSignatureRequest(body: Body): (r: Option<(string, Role)>)
    ensures r.Some? <==> ("meetingId" in body && body["meetingId"].JStr? && |body["meetingId"].s| >= 3
                          && "role" in body && body["role"] in {JNum(0), JNum(1)})
    ensures r.Some? ==> body["meetingId"] == JStr(r.value.0) && body["role"] == JNum(RoleNumber(r.value.1))
  {
    match StringField(body, "meetingId")
    case None => None
    case Some(meetingId) =>
      if |meetingId| < 3 || "role" !in body then None
      else if body["role"] == JNum(0) then Some((meetingId, Participant))
      else if body["role"] == JNum(1) then Some((meetingId, Host))
      else None
  }

  /** `{ signature }` minted from exactly the parsed meeting id and role. */
  function SdkSignatureRoute(body: Body, env: Env, nowMs: int): (r: Reply<SignedJwt>)
    ensures ParseSignatureRequest(body).None? <==> r == BadRequest
    ensures r.Json200? ==> (r.body.claims.mn == Some(body["meetingId"].s)
                            && r.body.claims.role.Some? && JNum(r.body.claims.role.value) == body["role"])
    ensures ParseSignatureRequest(body).Some?
            ==> var p := ParseSignatureRequest(body).value;
                match CreateMeetingSdkSignature(env, nowMs, p.0, p.1)
                case Ok(sig) => r == Json200(sig)
                case Err(e) => r == ErrorJson(500, OrElse(e, "Failed to create signature"))
  {
    match ParseSignatureRequest(body)
    case None => BadRequest
    case Some((meetingId, role)) =>
      match CreateMeetingSdkSignature(env, nowMs, meetingId, role)
      case Ok(sig) => Json200(sig)
      case Err(e) => ErrorJson(500, OrElse(e, "Failed to create signature"))
  }

  /** The body goes to `createZoomMeeting` as it is: no schema, no role check. */
  function ZoomMeetingsRoute(body: Body, token: Result<string, string>, zoomApi: ZoomApi, encode: string -> string): (r: Reply<ZoomMeetingCreateResult>)
    ensures r != BadRequest && StatusOf(r) in {200, 500}
    ensures CreateZoomMeeting(body, token, zoomApi, encode).Ok? ==> r == Json200(CreateZoomMeeting(body, token, zoomApi, encode).value)
    ensures CreateZoomMeeting(body, token, zoomApi, encode).Err?
            ==> r == ErrorJson(500, OrElse(CreateZoomMeeting(body, token, zoomApi, encode).error, "Failed to create meeting"))
  {
    match CreateZoomMeeting(body, token, zoomApi, encode)
    case Ok(m) => Json200(m)
    case Err(e) => ErrorJson(500, OrElse(e, "Failed to create meeting"))
  }
}
