/**
 * backend/src/services/zoomMeeting.service.ts: creating a Zoom meeting from a
 * loosely typed request body, and fetching a host's ZAK token. The bearer
 * token is the outcome of the token cache; the Zoom REST calls are the
 * injected `zoomApi` and `zakApi`; `encode` is `encodeURIComponent`.
 */
module ZoomMeetingService {
  import opened Common

  const DefaultTopic := "Contract Call"
  const MissingHostEmail := "ZOOM_HOST_EMAIL environment variable is required for ZAK token"

  /** The JSON body POSTed to /v2/users/me/meetings. */
  datatype ZoomCreateBody = ZoomCreateBody(topic: Json, meetingType: Json, waitingRoom: Json, joinBeforeHost: Json)

  /** What Zoom answers: the numeric id, and `password` / `join_url` unless omitted. */
  datatype ZoomMeetingData = ZoomMeetingData(id: int, password: Option<string>, joinUrl: Option<string>)

  datatype ZoomMeetingCreateResult = ZoomMeetingCreateResult(meetingId: string, passcode: string, joinUrl: string, deeplinkUrl: string)

  type ZoomApi = (string, ZoomCreateBody) -> Result<ZoomMeetingData, string>

  /** `v ?? d`: the default only for `undefined` and `null`, so `false` and "" are kept. */
  function Nullish(v: Option<Json>, d: Json): (r: Json)
    ensures (v.None? || v.value.JNull?) ==> r == d
    ensures v.Some? && !v.value.JNull? ==> r == v.value
  {
    if v.None? || v.value.JNull? then d else v.value
  }

  function Get(body: Body, key: string): (r: Option<Json>)
    ensures r.Some? <==> key in body
    ensures r.Some? ==> r.value == body[key]
  {
    if key in body then Some(body[key]) else None
  }

  /** The request body with its defaults: topic "Contract Call", instant type 1, no waiting room, join before host. */
  function CreateBody(meeting: Body): (b: ZoomCreateBody)
    ensures b.topic == (if "topic" in meeting && !meeting["topic"].JNull? then meeting["topic"] else JStr(DefaultTopic))
    ensures b.meetingType == (if "type" in meeting && !meeting["type"].JNull? then meeting["type"] else JNum(1))
    ensures var wr := Field(Get(meeting, "settings"), "waiting_room");
            b.waitingRoom == (if wr.Some? && !wr.value.JNull? then wr.value else JBool(false))
    ensures var jbh := Field(Get(meeting, "settings"), "join_before_host");
            b.joinBeforeHost == (if jbh.Some? && !jbh.value.JNull? then jbh.value else JBool(true))
  {
    var settings := Get(meeting, "settings");
    ZoomCreateBody(
      Nullish(Get(meeting, "topic"), JStr(DefaultTopic)),
      Nullish(Get(meeting, "type"), JNum(1)),
      Nullish(Field(settings, "waiting_room"), JBool(false)),
      Nullish(Field(settings, "join_before_host"), JBool(true)))
  }

  /** An explicit `false` setting survives the defaults; only a missing or null one is replaced. */
  lemma ExplicitFalseKept(meeting: Body)
    requires "settings" in meeting && meeting["settings"].JObject?
    requires "waiting_room" in meeting["settings"].fields && "join_before_host" in meeting["settings"].fields
    requires meeting["settings"].fields["join_before_host"] == JBool(false)
    requires meeting["settings"].fields["waiting_room"] == JBool(true)
    ensures CreateBody(meeting).joinBeforeHost == JBool(false)
    ensures CreateBody(meeting).waitingRoom == JBool(true)
  {
  }

  /** The app link handed back to the seller: always carries the password parameter, even when empty. */
  function HostDeepLink(meetingId: string, passcode: string, encode: string -> string): string {
    "DealFlow:///join?meetingId=" + encode(meetingId) + "&password=" + encode(passcode)
  }

  function CreateZoomMeeting(meeting: Body, token: Result<string, string>, zoomApi: ZoomApi, encode: string -> string): (r: Result<ZoomMeetingCreateResult, string>)
    // no token, no request: its error propagates
    ensures token.Err? ==> r == Err(token.error)
    // the one request carries the bearer token and the defaulted body; its failure propagates
    ensures token.Ok? && zoomApi(token.value, CreateBody(meeting)).Err?
            ==> r == Err(zoomApi(token.value, CreateBody(meeting)).error)
    ensures token.Ok? && zoomApi(token.value, CreateBody(meeting)).Ok?
            ==> var d := zoomApi(token.value, CreateBody(meeting)).value;
                r.Ok?
                && r.value.meetingId == IntToString(d.id)
                && r.value.passcode == (if d.password.Some? then d.password.value else "")
                && r.value.joinUrl == (if d.joinUrl.Some? then d.joinUrl.value else "")
                && r.value.deeplinkUrl == HostDeepLink(r.value.meetingId, r.value.passcode, encode)
  {
    match token
    case Err(e) => Err(e)
    case Ok(bearer) =>
      match zoomApi(bearer, CreateBody(meeting))
      case Err(e) => Err(e)
      case Ok(data) =>
        var meetingId := IntToString(data.id);
        var passcode := if data.password.Some? then data.password.value else "";
        var joinUrl := if data.joinUrl.Some? then data.joinUrl.value else "";
        Ok(ZoomMeetingCreateResult(meetingId, passcode, joinUrl, HostDeepLink(meetingId, passcode, encode)))
  }

  /** The email a ZAK token is requested for: the caller's, else ZOOM_HOST_EMAIL. */
  function ZakEmail(userEmail: Option<string>, env: Env): (r: Option<string>)
    ensures Truthy(userEmail) ==> r == userEmail
    ensures !Truthy(userEmail) ==> r == EnvGet(env, "ZOOM_HOST_EMAIL")
  {
    if Truthy(userEmail) then userEmail else EnvGet(env, "ZOOM_HOST_EMAIL")
  }

  type ZakApi = (string, string) -> Result<string, string>

  function GetHostZakToken(userEmail: Option<string>, env: Env, token: Result<string, string>, zakApi: ZakApi): (r: Result<string, string>)
    // the bearer token is obtained first, so its failure wins
    ensures token.Err? ==> r == Err(token.error)
    // with neither email set, the call throws
    ensures token.Ok? && ZakEmail(userEmail, env).None? ==> r == Err(MissingHostEmail)
    // otherwise Zoom's answer, error included, is passed through unchanged
    ensures token.Ok? && ZakEmail(userEmail, env).Some?
            ==> r == zakApi(token.value, ZakEmail(userEmail, env).value)
  {
    match token
    case Err(e) => Err(e)
    case Ok(bearer) =>
      match ZakEmail(userEmail, env)
      case None => Err(MissingHostEmail)
      case Some(email) => zakApi(bearer, email)
  }
}
