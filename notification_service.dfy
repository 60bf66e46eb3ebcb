/**
 * The mobile app's push-notification service
 * (MobileRN/src/services/notification.service.ts): one object holding the
 * device token, the registered contract handler and token-refresh callback,
 * whether Firebase listeners are attached, and a one-slot buffer for a
 * contract notification that arrived before any handler.
 *
 * Handlers and callbacks are closures in the app; here they are identified
 * by a number, and every call the service makes to one is appended to a log
 * (`deliveries`, `tokenCalls`) so the contracts can say what was called with
 * what. Firebase, the permission prompts and `Linking` are injected answers;
 * the `setTimeout` delays are taken as immediate.
 */
module NotificationService {
  import opened Common

  type HandlerId = nat
  type CallbackId = nat

  datatype Os = Ios | Android | OtherOs

  /** `messaging.AuthorizationStatus`. */
  datatype AuthStatus = NotDetermined | Denied | Authorized | Provisional | Ephemeral

  /** `PermissionsAndroid.RESULTS`. */
  datatype AndroidResult = Granted | AndroidDenied | NeverAskAgain

  /** The notification data handed to the app's contract handler. */
  datatype ContractNotificationData = ContractNotificationData(
    contractUrl: string, sellerName: Option<string>, meetingId: Option<string>, meetingDeeplink: Option<string>)

  datatype Delivery = Delivery(handler: HandlerId, data: ContractNotificationData)
  datatype TokenCall = TokenCall(callback: CallbackId, token: string)

  /** The `data` map of a remote message; `None` when the message has none. */
  type MessageData = Option<map<string, string>>

  /** Only Android from API level 33 and iOS show a prompt. */
  predicate Prompts(os: Os, apiLevel: int) {
    os == Ios || (os == Android && apiLevel >= 33)
  }

  /** `requestPermission`, given the answer each prompt would give. */
  function PermissionGranted(os: Os, apiLevel: int, iosStatus: AuthStatus, androidResult: AndroidResult): (granted: bool)
    ensures !Prompts(os, apiLevel) ==> granted
    ensures os == Ios ==> (granted <==> iosStatus == Authorized || iosStatus == Provisional)
    ensures os == Android && apiLevel >= 33 ==> (granted <==> androidResult == Granted)
  {
    if os == Ios then iosStatus == Authorized || iosStatus == Provisional
    else if os == Android && apiLevel >= 33 then androidResult == Granted
    else true
  }

  /** JavaScript `value || fallback` on an optional string field. */
  function FieldOr(data: map<string, string>, key: string): (v: Option<string>)
    ensures v.None? <==> key !in data || data[key] == ""
    ensures v.Some? ==> v.value == data[key]
  {
    if key in data && data[key] != "" then Some(data[key]) else None
  }

  predicate IsContractMessage(data: MessageData) {
    data.Some? && "type" in data.value && data.value["type"] == "contract"
  }

  /** The data of a contract message: `contractUrl` defaults to "", empty optional fields are dropped. */
  function ContractDataOf(data: map<string, string>): (d: ContractNotificationData)
    ensures d.contractUrl == (if "contractUrl" in data then data["contractUrl"] else "")
    ensures d.sellerName.None? <==> "sellerName" !in data || data["sellerName"] == ""
    ensures d.sellerName.Some? ==> "sellerName" in data && d.sellerName.value == data["sellerName"]
    ensures d.meetingId.None? <==> "meetingId" !in data || data["meetingId"] == ""
    ensures d.meetingId.Some? ==> "meetingId" in data && d.meetingId.value == data["meetingId"]
    ensures d.meetingDeeplink.None? <==> "meetingDeeplink" !in data || data["meetingDeeplink"] == ""
    ensures d.meetingDeeplink.Some? ==> "meetingDeeplink" in data && d.meetingDeeplink.value == data["meetingDeeplink"]
  {
    ContractNotificationData(
      if "contractUrl" in data then data["contractUrl"] else "",
      FieldOr(data, "sellerName"), FieldOr(data, "meetingId"), FieldOr(data, "meetingDeeplink"))
  }

  class Notifications {
    var fcmToken: Option<string>
    var contractHandler: Option<HandlerId>
    var tokenRefreshCallback: Option<CallbackId>
    var isInitialized: bool
    var pendingNotification: Option<ContractNotificationData>
    /** Every call the service made to a contract handler, in order. */
    var deliveries: seq<Delivery>
    /** Every call the service made to a token-refresh callback, in order. */
    var tokenCalls: seq<TokenCall>
    /** Every URL handed to `Linking.openURL`, in order. */
    var openedUrls: seq<string>

    /** Nothing is ever parked while a handler is installed. */
    predicate Valid()
      reads this
    {
      contractHandler.Some? ==> pendingNotification.None?
    }

    constructor()
      ensures fcmToken.None? && contractHandler.None? && tokenRefreshCallback.None?
      ensures !isInitialized && pendingNotification.None?
      ensures deliveries == [] && tokenCalls == [] && openedUrls == []
      ensures Valid()
    {
      fcmToken := None;
      contractHandler := None;
      tokenRefreshCallback := None;
      isInitialized := false;
      pendingNotification := None;
      deliveries := [];
      tokenCalls := [];
      openedUrls := [];
    }

    /**
     * `initialize`: once initialised it only returns the token it has.
     * Otherwise a prompt that throws, a refused permission or a failing
     * `getToken` return null and change nothing; success stores the token,
     * attaches the listeners and marks the service initialised.
     */
    method Initialize(os: Os, apiLevel: int, iosStatus: AuthStatus, androidResult: AndroidResult,
                      promptThrows: bool, tokenFetch: Option<string>) returns (token: Option<string>)
      requires Valid()
      modifies this
      ensures Valid()
      ensures old(isInitialized) ==> token == old(fcmToken) && unchanged(this)
      ensures !old(isInitialized) && ((Prompts(os, apiLevel) && promptThrows)
                                      || !PermissionGranted(os, apiLevel, iosStatus, androidResult)
                                      || tokenFetch.None?)
              ==> token.None? && unchanged(this)
      ensures !old(isInitialized) && !(Prompts(os, apiLevel) && promptThrows)
              && PermissionGranted(os, apiLevel, iosStatus, androidResult) && tokenFetch.Some?
              ==> token == tokenFetch && fcmToken == tokenFetch && isInitialized
                  && contractHandler == old(contractHandler) && tokenRefreshCallback == old(tokenRefreshCallback)
                  && pendingNotification == old(pendingNotification)
                  && deliveries == old(deliveries) && tokenCalls == old(tokenCalls) && openedUrls == old(openedUrls)
    {
      if isInitialized {
        return fcmToken;
      }
      if Prompts(os, apiLevel) && promptThrows {
        return None;
      }
      if !PermissionGranted(os, apiLevel, iosStatus, androidResult) {
        return None;
      }
      if tokenFetch.None? {
        return None;
      }
      fcmToken := tokenFetch;
      isInitialized := true;
      return fcmToken;
    }

    /**
     * `handleMessage`: a contract message goes to the installed handler, or
     * else replaces whatever was parked; any other message is ignored.
     */
    method HandleMessage(data: MessageData)
      requires Valid()
      modifies this
      ensures Valid()
      ensures !IsContractMessage(data) ==> unchanged(this)
      ensures IsContractMessage(data) && old(contractHandler).Some?
              ==> deliveries == old(deliveries) + [Delivery(old(contractHandler).value, ContractDataOf(data.value))]
                  && pendingNotification == old(pendingNotification)
      ensures IsContractMessage(data) && old(contractHandler).None?
              ==> pendingNotification == Some(ContractDataOf(data.value)) && deliveries == old(deliveries)
      ensures fcmToken == old(fcmToken) && contractHandler == old(contractHandler)
      ensures tokenRefreshCallback == old(tokenRefreshCallback) && isInitialized == old(isInitialized)
      ensures tokenCalls == old(tokenCalls) && openedUrls == old(openedUrls)
    {
      if IsContractMessage(data) {
        var contractData := ContractDataOf(data.value);
        if contractHandler.Some? {
          deliveries := deliveries + [Delivery(contractHandler.value, contractData)];
        } else {
          pendingNotification := Some(contractData);
        }
      }
    }

    /**
     * The `onMessage` listener (app in the foreground): a contract message is
     * handled only if the user presses "View" on the alert; any other message
     * goes straight to `handleMessage`, which ignores it. Before
     * `initialize` succeeds no listener exists.
     */
    method ForegroundMessage(data: MessageData, viewPressed: bool)
      requires Valid()
      modifies this
      ensures Valid()
      ensures !old(isInitialized) || !IsContractMessage(data) || !viewPressed ==> unchanged(this)
      ensures old(isInitialized) && IsContractMessage(data) && viewPressed && old(contractHandler).Some?
              ==> deliveries == old(deliveries) + [Delivery(old(contractHandler).value, ContractDataOf(data.value))]
                  && pendingNotification == old(pendingNotification)
      ensures old(isInitialized) && IsContractMessage(data) && viewPressed && old(contractHandler).None?
              ==> pendingNotification == Some(ContractDataOf(data.value)) && deliveries == old(deliveries)
      ensures contractHandler == old(contractHandler) && tokenCalls == old(tokenCalls) && openedUrls == old(openedUrls)
      ensures fcmToken == old(fcmToken) && tokenRefreshCallback == old(tokenRefreshCallback) && isInitialized == old(isInitialized)
    {
      if isInitialized {
        if IsContractMessage(data) {
          if viewPressed {
            HandleMessage(data);
          }
        } else {
          HandleMessage(data);
        }
      }
    }

    /**
     * The `onNotificationOpenedApp` and `getInitialNotification` listeners
     * (the user tapped a notification): a non-empty `deeplink` is opened,
     * then the message is handled.
     */
    method NotificationOpened(data: MessageData)
      requires Valid()
      modifies this
      ensures Valid()
      ensures !old(isInitialized) ==> unchanged(this)
      ensures old(isInitialized) && data.Some? && "deeplink" in data.value && data.value["deeplink"] != ""
              ==> openedUrls == old(openedUrls) + [data.value["deeplink"]]
      ensures !(data.Some? && "deeplink" in data.value && data.value["deeplink"] != "") ==> openedUrls == old(openedUrls)
      ensures old(isInitialized) && IsContractMessage(data) && old(contractHandler).Some?
              ==> deliveries == old(deliveries) + [Delivery(old(contractHandler).value, ContractDataOf(data.value))]
                  && pendingNotification == old(pendingNotification)
      ensures old(isInitialized) && IsContractMessage(data) && old(contractHandler).None?
              ==> pendingNotification == Some(ContractDataOf(data.value)) && deliveries == old(deliveries)
      ensures !IsContractMessage(data) ==> deliveries == old(deliveries) && pendingNotification == old(pendingNotification)
      ensures contractHandler == old(contractHandler) && tokenCalls == old(tokenCalls)
      ensures fcmToken == old(fcmToken) && tokenRefreshCallback == old(tokenRefreshCallback) && isInitialized == old(isInitialized)
    {
      if isInitialized {
        if data.Some? && "deeplink" in data.value && data.value["deeplink"] != "" {
          openedUrls := openedUrls + [data.value["deeplink"]];
        }
        HandleMessage(data);
      }
    }

    /**
     * `onContractReceived`: installs the handler and hands it the parked
     * notification, if any, emptying the slot.
     */
    method OnContractReceived(handler: HandlerId)
      requires Valid()
      modifies this
      ensures Valid()
      ensures contractHandler == Some(handler) && pendingNotification.None?
      ensures old(pendingNotification).Some? ==> deliveries == old(deliveries) + [Delivery(handler, old(pendingNotification).value)]
      ensures old(pendingNotification).None? ==> deliveries == old(deliveries)
      ensures fcmToken == old(fcmToken) && tokenRefreshCallback == old(tokenRefreshCallback) && isInitialized == old(isInitialized)
      ensures tokenCalls == old(tokenCalls) && openedUrls == old(openedUrls)
    {
      contractHandler := Some(handler);
      if pendingNotification.Some? {
        var pending := pendingNotification.value;
        pendingNotification := None;
        deliveries := deliveries + [Delivery(handler, pending)];
      }
    }

    /**
     * The function `onContractReceived` returns: it clears whatever handler is
     * installed, even one registered after it.
     */
    method UnsubscribeContract()
      modifies this
      ensures contractHandler.None? && Valid()
      ensures fcmToken == old(fcmToken) && tokenRefreshCallback == old(tokenRefreshCallback) && isInitialized == old(isInitialized)
      ensures pendingNotification == old(pendingNotification)
      ensures deliveries == old(deliveries) && tokenCalls == old(tokenCalls) && openedUrls == old(openedUrls)
    {
      contractHandler := None;
    }

    /** `getToken`. */
    function GetToken(): Option<string>
      reads this
    {
      fcmToken
    }

    method OnTokenRefresh(callback: CallbackId)
      modifies this
      requires Valid()
      ensures Valid() && tokenRefreshCallback == Some(callback)
      ensures fcmToken == old(fcmToken) && contractHandler == old(contractHandler) && isInitialized == old(isInitialized)
      ensures pendingNotification == old(pendingNotification)
      ensures deliveries == old(deliveries) && tokenCalls == old(tokenCalls) && openedUrls == old(openedUrls)
    {
      tokenRefreshCallback := Some(callback);
    }

    method UnsubscribeTokenRefresh()
      modifies this
      requires Valid()
      ensures Valid() && tokenRefreshCallback.None?
      ensures fcmToken == old(fcmToken) && contractHandler == old(contractHandler) && isInitialized == old(isInitialized)
      ensures pendingNotification == old(pendingNotification)
      ensures deliveries == old(deliveries) && tokenCalls == old(tokenCalls) && openedUrls == old(openedUrls)
    {
      tokenRefreshCallback := None;
    }

    /**
     * The `onTokenRefresh` listener attached by `initialize`: the new token
     * replaces the stored one and is passed to the callback, if any.
     */
    method TokenRefreshed(token: string)
      modifies this
      requires Valid()
      ensures Valid()
      ensures !old(isInitialized) ==> unchanged(this)
      ensures old(isInitialized) ==> GetToken() == Some(token)
      ensures old(isInitialized) && old(tokenRefreshCallback).Some?
              ==> tokenCalls == old(tokenCalls) + [TokenCall(old(tokenRefreshCallback).value, token)]
      ensures old(tokenRefreshCallback).None? ==> tokenCalls == old(tokenCalls)
      ensures contractHandler == old(contractHandler) && tokenRefreshCallback == old(tokenRefreshCallback)
      ensures isInitialized == old(isInitialized) && pendingNotification == old(pendingNotification)
      ensures deliveries == old(deliveries) && openedUrls == old(openedUrls)
    {
      if isInitialized {
        fcmToken := Some(token);
        if tokenRefreshCallback.Some? {
          tokenCalls := tokenCalls + [TokenCall(tokenRefreshCallback.value, token)];
        }
      }
    }
  }

  /**
   * Two contract messages arriving with no handler leave only the second
   * parked, and installing a handler then delivers exactly that one.
   */
  method NewestPendingWins(first: map<string, string>, second: map<string, string>, handler: HandlerId)
    returns (delivered: seq<Delivery>)
    requires IsContractMessage(Some(first)) && IsContractMessage(Some(second))
    ensures delivered == [Delivery(handler, ContractDataOf(second))]
  {
    var service := new Notifications();
    service.HandleMessage(Some(first));
    service.HandleMessage(Some(second));
    service.OnContractReceived(handler);
    delivered := service.deliveries;
  }

  /**
   * A parked notification is handed over once: a handler installed after the
   * first one has unsubscribed receives nothing.
   */
  method PendingDeliveredOnce(data: map<string, string>, first: HandlerId, second: HandlerId)
    returns (delivered: seq<Delivery>)
    requires IsContractMessage(Some(data))
    ensures delivered == [Delivery(first, ContractDataOf(data))]
  {
    var service := new Notifications();
    service.HandleMessage(Some(data));
    service.OnContractReceived(first);
    service.UnsubscribeContract();
    service.OnContractReceived(second);
    delivered := service.deliveries;
  }

  /**
   * A second `initialize` returns the first one's token whatever the
   * permission and token answers are this time.
   */
  method InitializeIdempotent(os: Os, apiLevel: int, iosStatus: AuthStatus, androidResult: AndroidResult, token: string,
                              os2: Os, apiLevel2: int, iosStatus2: AuthStatus, androidResult2: AndroidResult,
                              promptThrows2: bool, tokenFetch2: Option<string>)
    returns (firstToken: Option<string>, secondToken: Option<string>)
    requires PermissionGranted(os, apiLevel, iosStatus, androidResult)
    ensures firstToken == Some(token) && secondToken == firstToken
  {
    var service := new Notifications();
    firstToken := service.Initialize(os, apiLevel, iosStatus, androidResult, false, Some(token));
    secondToken := service.Initialize(os2, apiLevel2, iosStatus2, androidResult2, promptThrows2, tokenFetch2);
  }

  /**
   * A refresh after unsubscribing still replaces the token but calls no
   * callback.
   */
  method RefreshAfterUnsubscribe(token: string, callback: CallbackId, newToken: string)
    returns (current: Option<string>, calls: seq<TokenCall>)
    ensures current == Some(newToken) && calls == []
  {
    var service := new Notifications();
    var _ := service.Initialize(OtherOs, 0, NotDetermined, AndroidDenied, false, Some(token));
    service.OnTokenRefresh(callback);
    service.UnsubscribeTokenRefresh();
    service.TokenRefreshed(newToken);
    current := service.GetToken();
    calls := service.tokenCalls;
  }
}
