/**
 * The app's deep-link hook (MobileRN/src/hooks/useDeeplink.ts): which URLs
 * it accepts, how it gathers their query parameters, and when it navigates.
 * The WHATWG URL parser is injected: it yields the hostname, the pathname
 * and the decoded query pairs in order, or nothing when `new URL` throws.
 */
module UseDeeplink {
  import opened Common

  datatype ParsedUrl = ParsedUrl(protocol: string, hostname: string, pathname: string, query: seq<(string, string)>)

  type UrlParser = string -> Option<ParsedUrl>

  const WaitingScreen := "Waiting"

  /** A join link: host "join" (`scheme://join?…`) or path "/join" (`scheme:///join?…`); the scheme is not looked at. */
  predicate IsJoinLink(u: ParsedUrl) {
    u.hostname == "join" || u.pathname == "/join"
  }

  /** The `params` object after the `forEach`: each pair in turn overwrites its key. */
  function Collect(pairs: seq<(string, string)>): (params: map<string, string>)
    decreases |pairs|
  {
    if pairs == [] then map[]
    else Collect(pairs[..|pairs| - 1])[pairs[|pairs| - 1].0 := pairs[|pairs| - 1].1]
  }

  /**
   * A key is collected exactly when some pair has it, and its value is the
   * one of the last such pair.
   */
  lemma CollectLastWins(pairs: seq<(string, string)>, key: string)
    ensures key in Collect(pairs) <==> exists i :: 0 <= i < |pairs| && pairs[i].0 == key
    ensures key in Collect(pairs) ==>
              exists i :: 0 <= i < |pairs| && pairs[i].0 == key && Collect(pairs)[key] == pairs[i].1
                          && forall j :: i < j < |pairs| ==> pairs[j].0 != key
  {
    CollectKeys(pairs, key);
    if key in Collect(pairs) {
      var i := CollectValue(pairs, key);
    }
  }

  lemma {:induction false} CollectKeys(pairs: seq<(string, string)>, key: string)
    ensures key in Collect(pairs) <==> exists i :: 0 <= i < |pairs| && pairs[i].0 == key
    decreases |pairs|
  {
    if pairs != [] {
      var n := |pairs| - 1;
      var front := pairs[..n];
      CollectKeys(front, key);
      assert forall i :: 0 <= i < n ==> front[i] == pairs[i];
    }
  }

  /** The index of the last pair with the key, whose value is the collected one. */
  lemma {:induction false} CollectValue(pairs: seq<(string, string)>, key: string) returns (i: int)
    requires key in Collect(pairs)
    ensures 0 <= i < |pairs| && pairs[i].0 == key && Collect(pairs)[key] == pairs[i].1
    ensures forall j :: i < j < |pairs| ==> pairs[j].0 != key
    decreases |pairs|
  {
    var n := |pairs| - 1;
    if pairs[n].0 == key {
      i := n;
    } else {
      var front := pairs[..n];
      i := CollectValue(front, key);
      assert front[i] == pairs[i];
      assert forall j :: i < j < n ==> front[j] == pairs[j];
    }
  }

  /** The `forEach` over `searchParams`. */
  method CollectParams(pairs: seq<(string, string)>) returns (params: map<string, string>)
    ensures params == Collect(pairs)
  {
    params := map[];
    var i := 0;
    while i < |pairs|
      invariant 0 <= i <= |pairs|
      invariant params == Collect(pairs[..i])
    {
      assert pairs[..i + 1][..i] == pairs[..i];
      params := params[pairs[i].0 := pairs[i].1];
      i := i + 1;
    }
    assert pairs[..|pairs|] == pairs;
  }

  /**
   * `handleDeeplink`: a join link with a non-empty `meetingId` opens the
   * waiting screen, forwarding nothing; anything else, a URL that does not
   * parse included, does nothing.
   */
  method HandleDeeplink(url: string, parse: UrlParser) returns (target: Option<string>)
    ensures target.Some? ==> target.value == WaitingScreen
    ensures target.Some? <==> parse(url).Some? && IsJoinLink(parse(url).value)
                              && "meetingId" in Collect(parse(url).value.query)
                              && Collect(parse(url).value.query)["meetingId"] != ""
  {
    var parsed := parse(url);
    if parsed.None? {
      return None;
    }
    target := None;
    if IsJoinLink(parsed.value) {
      var params := CollectParams(parsed.value.query);
      if "meetingId" in params && params["meetingId"] != "" {
        target := Some(WaitingScreen);
      }
    }
  }

  /** The initial URL is handled only when there is one and it is not empty. */
  method HandleInitialUrl(url: Option<string>, parse: UrlParser) returns (target: Option<string>)
    ensures !Truthy(url) ==> target.None?
    ensures target.Some? ==> target.value == WaitingScreen
    ensures Truthy(url)
            ==> (target.Some? <==> parse(url.value).Some? && IsJoinLink(parse(url.value).value)
                                   && "meetingId" in Collect(parse(url.value).value.query)
                                   && Collect(parse(url.value).value.query)["meetingId"] != "")
  {
    if Truthy(url) {
      target := HandleDeeplink(url.value, parse);
    } else {
      target := None;
    }
  }

  /** With a repeated `meetingId`, only the last one decides: an empty last one blocks navigation. */
  lemma LastMeetingIdDecides(pairs: seq<(string, string)>, id: string)
    ensures Collect(pairs + [("meetingId", id)])["meetingId"] == id
  {
    assert (pairs + [("meetingId", id)])[..|pairs|] == pairs;
  }
}
