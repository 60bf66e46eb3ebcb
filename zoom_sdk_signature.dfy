/**
 * `createMeetingSdkSignature` (backend/src/services/zoomSdkSignature.service.ts):
 * the short-lived JWT the native Meeting SDK needs to join one meeting at a
 * given role. `nowMs` is `Date.now()`.
 */
module ZoomSdkSignature {
  import opened Common
  import opened SignedToken

  /** The `role: 0 | 1` argument. */
  datatype Role = Participant | Host

  function RoleNumber(role: Role): (n: int)
    ensures n == 0 <==> role.Participant?
    ensures n == 1 <==> role.Host?
  {
    match role
    case Participant => 0
    case Host => 1
  }

  /** The signature stays valid for two hours. */
  const ValiditySeconds := 60 * 60 * 2

  function CreateMeetingSdkSignature(env: Env, nowMs: int, meetingNumber: string, role: Role := Participant): (r: Result<SignedJwt, string>)
    // the SDK id is read first, then the secret; either missing throws before signing
    ensures MustEnv(env, "ZOOM_SDK_CLIENT_ID").Err? ==> r == Err(MissingEnv("ZOOM_SDK_CLIENT_ID"))
    ensures MustEnv(env, "ZOOM_SDK_CLIENT_ID").Ok? && MustEnv(env, "ZOOM_SDK_CLIENT_SECRET").Err?
            ==> r == Err(MissingEnv("ZOOM_SDK_CLIENT_SECRET"))
    ensures r.Ok? <==> MustEnv(env, "ZOOM_SDK_CLIENT_ID").Ok? && MustEnv(env, "ZOOM_SDK_CLIENT_SECRET").Ok?
    // signed with the secret; both key claims carry the SDK client id
    ensures r.Ok? ==> (r.value.secret == env["ZOOM_SDK_CLIENT_SECRET"]
                       && r.value.claims.sdkKey == env["ZOOM_SDK_CLIENT_ID"]
                       && r.value.claims.appKey == env["ZOOM_SDK_CLIENT_ID"])
    // the meeting and role claims are exactly the arguments
    ensures r.Ok? ==> r.value.claims.mn == Some(meetingNumber) && r.value.claims.role == Some(RoleNumber(role))
    // iat is the current second rounded down; the token expires two hours later
    ensures r.Ok? ==> var c := r.value.claims;
                      c.iat * 1000 <= nowMs < c.iat * 1000 + 1000
                      && c.exp == c.iat + 7200 && c.tokenExp == c.exp
  {
    match MustEnv(env, "ZOOM_SDK_CLIENT_ID")
    case Err(e) => Err(e)
    case Ok(sdkKey) =>
      match MustEnv(env, "ZOOM_SDK_CLIENT_SECRET")
      case Err(e) => Err(e)
      case Ok(sdkSecret) =>
        var iat := nowMs / 1000;
        var exp := iat + ValiditySeconds;
        Ok(HS256(Claims(sdkKey, sdkKey, Some(meetingNumber), Some(RoleNumber(role)), iat, exp, exp), sdkSecret))
  }

  /** Called without a role, the signature is minted for a participant, never a host. */
  lemma DefaultRoleIsParticipant(env: Env, nowMs: int, meetingNumber: string)
    ensures var r := CreateMeetingSdkSignature(env, nowMs, meetingNumber);
            r.Ok? ==> r.value.claims.role == Some(0)
  {
  }
}
