/**
 * The claims of the Zoom Meeting SDK JSON Web Tokens. Signing with HS256 is a
 * library call (jsonwebtoken, jsrsasign); a signed token is kept here as the
 * symbolic term `HS256(claims, secret)`, so decoding it is reading its claims.
 */
module SignedToken {
  import opened Common

  datatype Claims = Claims(
    sdkKey: string,
    appKey: string,
    mn: Option<string>,   // meeting number, absent from the SDK init token
    role: Option<int>,    // 0 participant, 1 host; absent from the SDK init token
    iat: int,             // seconds
    exp: int,
    tokenExp: int)

  datatype SignedJwt = HS256(claims: Claims, secret: string)
}
