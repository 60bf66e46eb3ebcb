/**
 * backend/src/services/fcm.service.ts: the push message sent through
 * Firebase Cloud Messaging, the contract notification built on it, and the
 * registration of a device token in the `users` table. Firebase and the
 * database are outcomes passed in: `firebaseError` is a failure of
 * `getFirebaseApp`, `sendError` one of `messaging.send`.
 */
module FcmService {
  import opened Common
  import opened Users

  const FallbackError := "Failed to send notification"
  const UserNotFound := "User not found or not registered in app"
  const PushDisabled := "User has not enabled push notifications"
  const ContractTitle := "New Contract Received"
  const ClickAction := "OPEN_FROM_NOTIFICATION"

  /**
   * The message handed to `messaging.send`. The Android priority "high",
   * the sounds "default" and the iOS badge 1 are fixed and not repeated here.
   */
  datatype PushMessage = PushMessage(
    token: string,
    title: string,
    body: string,
    data: map<string, string>,
    androidClickAction: Option<string>)

  datatype SendResult = SendResult(success: bool, error: Option<string>)

  function Failure(message: string): (r: SendResult)
    ensures !r.success && r.error == Some(OrElse(message, FallbackError))
  {
    SendResult(false, Some(OrElse(message, FallbackError)))
  }

  /** The message for a token, texts, data and optional deep link. */
  function MessageFor(fcmToken: string, title: string, body: string, data: Option<map<string, string>>, deeplink: Option<string>): (m: PushMessage)
    // the deep link and the click action travel together, and only for a non-empty link
    ensures "deeplink" in m.data <==> (Truthy(deeplink) || (data.Some? && "deeplink" in data.value))
    ensures Truthy(deeplink) ==> m.data["deeplink"] == deeplink.value
    ensures m.androidClickAction.Some? <==> Truthy(deeplink)
    ensures m.androidClickAction.Some? ==> m.androidClickAction.value == ClickAction
    // every other data entry is the caller's
    ensures forall k :: k != "deeplink" ==> ((k in m.data) <==> (data.Some? && k in data.value))
    ensures forall k :: k != "deeplink" && k in m.data ==> m.data[k] == data.value[k]
    ensures m.token == fcmToken && m.title == title && m.body == body
  {
    var base := if data.Some? then data.value else map[];
    PushMessage(fcmToken, title, body,
      if Truthy(deeplink) then base["deeplink" := deeplink.value] else base,
      if Truthy(deeplink) then Some(ClickAction) else None)
  }

  /**
   * `sendPushNotification`: builds the message, then adds `data.deeplink`
   * in place; any failure becomes `{ success: false, error }`, never a throw.
   */
  method SendPushNotification(fcmToken: string, title: string, body: string, data: Option<map<string, string>>, deeplink: Option<string>,
                              firebaseError: Option<string>, sendError: Option<string>)
    returns (sent: Option<PushMessage>, r: SendResult)
    ensures firebaseError.Some? ==> sent.None? && r == Failure(firebaseError.value)
    ensures firebaseError.None? ==> sent == Some(MessageFor(fcmToken, title, body, data, deeplink))
    ensures firebaseError.None? && sendError.Some? ==> r == Failure(sendError.value)
    ensures r.success <==> firebaseError.None? && sendError.None?
    ensures r.success ==> r.error.None?
  {
    if firebaseError.Some? {
      return None, Failure(firebaseError.value);
    }
    var message := PushMessage(fcmToken, title, body,
                               if data.Some? then data.value else map[],
                               if Truthy(deeplink) then Some(ClickAction) else None);
    if Truthy(deeplink) {
      message := message.(data := message.data["deeplink" := deeplink.value]);
    }
    sent := Some(message);
    if sendError.Some? {
      return sent, Failure(sendError.value);
    }
    r := SendResult(true, None);
  }

  /**
   * The `meetingDeeplink` of a contract notification: empty without a Zoom
   * meeting id; otherwise the raw id, plus the encoded password when there is one.
   */
  function ContractDeepLink(zoomMeetingId: Option<string>, zoomPassword: Option<string>, encode: string -> string): (link: string)
    ensures link == "" <==> !Truthy(zoomMeetingId)
    ensures Truthy(zoomMeetingId) && !Truthy(zoomPassword) ==> link == "dealflow://join?meetingId=" + zoomMeetingId.value
    ensures Truthy(zoomMeetingId) && Truthy(zoomPassword)
            ==> link == "dealflow://join?meetingId=" + zoomMeetingId.value + "&password=" + encode(zoomPassword.value)
  {
    if !Truthy(zoomMeetingId) then ""
    else if Truthy(zoomPassword) then "dealflow://join?meetingId=" + zoomMeetingId.value + "&password=" + encode(zoomPassword.value)
    else "dealflow://join?meetingId=" + zoomMeetingId.value
  }

  /** The notification data: type "contract", `meetingId` defaulting to "". */
  function ContractData(contractUrl: string, sellerName: string, meetingId: Option<string>, deeplink: string): (d: map<string, string>)
    ensures d.Keys == {"type", "contractUrl", "sellerName", "meetingId", "meetingDeeplink"}
    ensures d["type"] == "contract" && d["contractUrl"] == contractUrl && d["sellerName"] == sellerName
    ensures d["meetingId"] == (if Truthy(meetingId) then meetingId.value else "")
    ensures d["meetingDeeplink"] == deeplink
  {
    map["type" := "contract", "contractUrl" := contractUrl, "sellerName" := sellerName,
        "meetingId" := (if Truthy(meetingId) then meetingId.value else ""), "meetingDeeplink" := deeplink]
  }

  /** Who receives a contract notification, or why nobody does. */
  function Recipient(users: seq<UserRow>, lookupError: bool, clientEmail: string): (r: Result<string, string>)
    ensures r.Ok? <==> (!lookupError && |WithEmail(users, clientEmail)| == 1 && Truthy(WithEmail(users, clientEmail)[0].fcmToken))
    ensures r.Ok? ==> r.value == WithEmail(users, clientEmail)[0].fcmToken.value
    ensures (lookupError || |WithEmail(users, clientEmail)| != 1) ==> r == Err(UserNotFound)
    ensures !lookupError && |WithEmail(users, clientEmail)| == 1 && !Truthy(WithEmail(users, clientEmail)[0].fcmToken)
            ==> r == Err(PushDisabled)
  {
    if lookupError then Err(UserNotFound)
    else
      match Single(WithEmail(users, clientEmail))
      case None => Err(UserNotFound)
      case Some(user) => if Truthy(user.fcmToken) then Ok(user.fcmToken.value) else Err(PushDisabled)
  }

  /** `sendContractNotification`: look the client up, build the link with `+=`, send. */
  method SendContractNotification(users: seq<UserRow>, lookupError: bool, clientEmail: string, sellerName: string, contractUrl: string,
                                  meetingId: Option<string>, zoomMeetingId: Option<string>, zoomPassword: Option<string>,
                                  encode: string -> string, firebaseError: Option<string>, sendError: Option<string>)
    returns (sent: Option<PushMessage>, r: SendResult)
    // no recipient: the reason, and nothing is sent
    ensures Recipient(users, lookupError, clientEmail).Err?
            ==> sent.None? && r == SendResult(false, Some(Recipient(users, lookupError, clientEmail).error))
    // a recipient: the one message to their token carries the contract data and the link
    ensures Recipient(users, lookupError, clientEmail).Ok? && firebaseError.None?
            ==> var link := ContractDeepLink(zoomMeetingId, zoomPassword, encode);
                sent == Some(MessageFor(Recipient(users, lookupError, clientEmail).value, ContractTitle,
                                        sellerName + " has sent you a contract to review",
                                        Some(ContractData(contractUrl, sellerName, meetingId, link)), NonEmpty(link)))
    // a recipient, but Firebase is not set up or the send fails: that error, as `sendPushNotification` reports it
    ensures Recipient(users, lookupError, clientEmail).Ok? && firebaseError.Some?
            ==> sent.None? && r == Failure(firebaseError.value)
    ensures Recipient(users, lookupError, clientEmail).Ok? && firebaseError.None? && sendError.Some?
            ==> r == Failure(sendError.value)
    ensures r.success <==> Recipient(users, lookupError, clientEmail).Ok? && firebaseError.None? && sendError.None?
    ensures r.success ==> r.error.None?
  {
    var recipient := Recipient(users, lookupError, clientEmail);
    if recipient.Err? {
      return None, SendResult(false, Some(recipient.error));
    }
    var meetingDeeplink := "";
    if Truthy(zoomMeetingId) {
      meetingDeeplink := "dealflow://join?meetingId=" + zoomMeetingId.value;
      if Truthy(zoomPassword) {
        meetingDeeplink := meetingDeeplink + "&password=" + encode(zoomPassword.value);
      }
    }
    var data := ContractData(contractUrl, sellerName, meetingId, meetingDeeplink);
    sent, r := SendPushNotification(recipient.value, ContractTitle, sellerName + " has sent you a contract to review",
                                    Some(data), NonEmpty(meetingDeeplink), firebaseError, sendError);
  }

  /** A client with a deep link gets it both in the data and as the Android click action. */
  lemma ContractLinkDelivered(contractUrl: string, sellerName: string, meetingId: Option<string>,
                              zoomMeetingId: Option<string>, zoomPassword: Option<string>, encode: string -> string, token: string)
    requires Truthy(zoomMeetingId)
    ensures var link := ContractDeepLink(zoomMeetingId, zoomPassword, encode);
            var m := MessageFor(token, ContractTitle, sellerName + " has sent you a contract to review",
                                Some(ContractData(contractUrl, sellerName, meetingId, link)), NonEmpty(link));
            m.data["deeplink"] == link && m.data["meetingDeeplink"] == link && m.androidClickAction == Some(ClickAction)
  {
  }

  /** The `users` table, whose rows `registerFcmToken` updates. */
  class UserTable {
    var rows: seq<UserRow>

    constructor(initial: seq<UserRow>)
      ensures rows == initial
    {
      rows := initial;
    }

    /**
     * `registerFcmToken`: token, platform and time on every row with that id.
     * Matching no row is not an error.
     */
    method RegisterFcmToken(userId: string, fcmToken: string, platform: Platform, now: int, dbError: Option<string>)
      returns (r: SendResult)
      modifies this
      ensures dbError.Some? ==> rows == old(rows) && r == SendResult(false, dbError)
      ensures dbError.None? ==> rows == WithFcmToken(old(rows), userId, fcmToken, platform, now) && r == SendResult(true, None)
    {
      if dbError.Some? {
        return SendResult(false, dbError);
      }
      rows := WithFcmToken(rows, userId, fcmToken, platform, now);
      r := SendResult(true, None);
    }
  }

  /** One row after `update({fcm_token, fcm_platform, fcm_updated_at})`, if it is the user's. */
  function Touch(u: UserRow, userId: string, fcmToken: string, platform: Platform, now: int): UserRow {
    if u.id == userId then u.(fcmToken := Some(fcmToken), fcmPlatform := Some(platform), fcmUpdatedAt := Some(now)) else u
  }

  function WithFcmToken(users: seq<UserRow>, userId: string, fcmToken: string, platform: Platform, now: int): (r: seq<UserRow>)
    ensures |r| == |users|
    ensures forall i :: 0 <= i < |users| && users[i].id == userId
                        ==> r[i] == users[i].(fcmToken := Some(fcmToken), fcmPlatform := Some(platform), fcmUpdatedAt := Some(now))
    ensures forall i :: 0 <= i < |users| && users[i].id != userId ==> r[i] == users[i]
  {
    seq(|users|, i requires 0 <= i < |users| => Touch(users[i], userId, fcmToken, platform, now))
  }

  lemma {:induction false} WithEmailAfterRegister(users: seq<UserRow>, userId: string, fcmToken: string, platform: Platform, now: int, email: string)
    ensures var after := WithEmail(WithFcmToken(users, userId, fcmToken, platform, now), email);
            var before := WithEmail(users, email);
            |after| == |before|
            && forall i :: 0 <= i < |before| ==> after[i] == Touch(before[i], userId, fcmToken, platform, now)
    decreases |users|
  {
    if users != [] {
      var all := WithFcmToken(users, userId, fcmToken, platform, now);
      var rest := WithFcmToken(users[1..], userId, fcmToken, platform, now);
      FcmTail(users, userId, fcmToken, platform, now);
      WithEmailAfterRegister(users[1..], userId, fcmToken, platform, now, email);
      var hb := if users[0].email == email then [users[0]] else [];
      var ha := if all[0].email == email then [all[0]] else [];
      var tb := WithEmail(users[1..], email);
      var ta := WithEmail(rest, email);
      var before := WithEmail(users, email);
      var after := WithEmail(all, email);
      assert before == hb + tb;
      assert after == ha + ta;
      assert |ha| == |hb|;
      forall i | 0 <= i < |before| ensures after[i] == Touch(before[i], userId, fcmToken, platform, now) {
        if i >= |hb| {
          assert after[i] == ta[i - |hb|] && before[i] == tb[i - |hb|];
        }
      }
    }
  }

  lemma FcmTail(users: seq<UserRow>, userId: string, fcmToken: string, platform: Platform, now: int)
    requires users != []
    ensures WithFcmToken(users, userId, fcmToken, platform, now)[1..] == WithFcmToken(users[1..], userId, fcmToken, platform, now)
    ensures WithFcmToken(users, userId, fcmToken, platform, now)[0] == Touch(users[0], userId, fcmToken, platform, now)
    ensures WithFcmToken(users, userId, fcmToken, platform, now)[0].email == users[0].email
  {
  }

  /**
   * Registering a non-empty token for the one user with a given email makes
   * that user a recipient of contract notifications, at exactly that token.
   */
  lemma RegisterThenNotifiable(users: seq<UserRow>, userId: string, fcmToken: string, platform: Platform, now: int, email: string)
    requires fcmToken != ""
    requires |WithEmail(users, email)| == 1 && WithEmail(users, email)[0].id == userId
    ensures Recipient(WithFcmToken(users, userId, fcmToken, platform, now), false, email) == Ok(fcmToken)
  {
    WithEmailAfterRegister(users, userId, fcmToken, platform, now, email);
  }
}
