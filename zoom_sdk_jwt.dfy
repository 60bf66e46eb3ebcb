/**
 * `generateMeetingSdkJwt` (backend/src/services/zoomSdkJwt.service.ts): the
 * long-lived JWT the mobile SDK initialises with. `Math.round(ms / 1000)` on
 * an integer millisecond clock is `(ms + 500) / 1000` rounded down.
 */
module ZoomSdkJwt {
  import opened Common
  import opened SignedToken

  /** Backdated 30 seconds against clock skew; valid for 48 hours. */
  const BackdateSeconds := 30
  const ValiditySeconds := 60 * 60 * 48

  datatype SdkJwt = SdkJwt(jwtToken: SignedJwt, expiresIn: int)

  function GenerateMeetingSdkJwt(env: Env, nowMs: int): (r: Result<SdkJwt, string>)
    ensures MustEnv(env, "ZOOM_SDK_CLIENT_ID").Err? ==> r == Err(MissingEnv("ZOOM_SDK_CLIENT_ID"))
    ensures MustEnv(env, "ZOOM_SDK_CLIENT_ID").Ok? && MustEnv(env, "ZOOM_SDK_CLIENT_SECRET").Err?
            ==> r == Err(MissingEnv("ZOOM_SDK_CLIENT_SECRET"))
    ensures r.Ok? <==> MustEnv(env, "ZOOM_SDK_CLIENT_ID").Ok? && MustEnv(env, "ZOOM_SDK_CLIENT_SECRET").Ok?
    ensures r.Ok? ==> (r.value.jwtToken.secret == env["ZOOM_SDK_CLIENT_SECRET"]
                       && r.value.jwtToken.claims.sdkKey == env["ZOOM_SDK_CLIENT_ID"]
                       && r.value.jwtToken.claims.appKey == env["ZOOM_SDK_CLIENT_ID"])
    // an init token names no meeting and no role
    ensures r.Ok? ==> r.value.jwtToken.claims.mn.None? && r.value.jwtToken.claims.role.None?
    // iat is the current second, rounded half up, less 30 seconds
    ensures r.Ok? ==> var c := r.value.jwtToken.claims;
                      (c.iat + 30) * 1000 - 500 <= nowMs < (c.iat + 30) * 1000 + 500
                      && c.exp == c.iat + 172800 && c.tokenExp == c.exp
    // whatever the clock, the reported lifetime is 48 hours
    ensures r.Ok? ==> r.value.expiresIn == 172800
  {
    match MustEnv(env, "ZOOM_SDK_CLIENT_ID")
    case Err(e) => Err(e)
    case Ok(sdkKey) =>
      match MustEnv(env, "ZOOM_SDK_CLIENT_SECRET")
      case Err(e) => Err(e)
      case Ok(sdkSecret) =>
        var iat := (nowMs + 500) / 1000 - BackdateSeconds;
        var exp := iat + ValiditySeconds;
        Ok(SdkJwt(HS256(Claims(sdkKey, sdkKey, None, None, iat, exp, exp), sdkSecret), exp - iat))
  }
}
