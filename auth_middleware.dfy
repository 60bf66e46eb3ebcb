/**
 * backend/src/middleware/auth.middleware.ts: `requireSellerRole` lets a
 * request through only when the user named by `req.body.userId` is a seller.
 */
module AuthMiddleware {
  import opened Common
  import opened Users

  datatype Guard = Next | Forbidden

  /**
   * The id the guard looks up: `req.body.userId` as PostgREST receives it in
   * the query string, i.e. converted with `String` ("undefined" when absent).
   */
  function GuardedUserId(body: Body): string {
    JsString(if "userId" in body then Some(body["userId"]) else None)
  }

  /**
   * `requireSellerRole`: a lookup error, a missing or ambiguous row
   * (`.single()` fails) and any role but "seller" all answer 403 "Forbidden".
   */
  function RequireSellerRole(body: Body, users: seq<UserRow>, lookupError: bool): (g: Guard)
    ensures g == Next <==> (!lookupError && |WithId(users, GuardedUserId(body))| == 1
                            && WithId(users, GuardedUserId(body))[0].role == "seller")
  {
    if lookupError then Forbidden
    else
      match Single(WithId(users, GuardedUserId(body)))
      case None => Forbidden
      case Some(user) => if user.role == "seller" then Next else Forbidden
  }

  /** What the guard sends when it refuses. */
  function ForbiddenReply<T>(): (r: Reply<T>)
    ensures StatusOf(r) == 403
  {
    ErrorJson(403, "Forbidden")
  }

  /** Passing the guard means exactly that the named user exists in the table as a seller. */
  lemma PassedMeansSeller(body: Body, users: seq<UserRow>, lookupError: bool)
    requires RequireSellerRole(body, users, lookupError) == Next
    ensures exists u :: u in users && u.id == GuardedUserId(body) && u.role == "seller"
  {
    var u := WithId(users, GuardedUserId(body))[0];
    assert u in WithId(users, GuardedUserId(body));
  }

  /** A body without `userId` is looked up as "undefined", so no user whose id differs from that text passes. */
  lemma NoUserIdForbidden(body: Body, users: seq<UserRow>, lookupError: bool)
    requires "userId" !in body
    requires forall u :: u in users ==> u.id != "undefined"
    ensures RequireSellerRole(body, users, lookupError) == Forbidden
  {
    if !lookupError && |WithId(users, "undefined")| == 1 {
      assert WithId(users, "undefined")[0] in WithId(users, "undefined");
    }
  }

  /** The id a guard for the create route should look up: the body's `hostUserId`. */
  function HostUserId(body: Body): string {
    JsString(if "hostUserId" in body then Some(body["hostUserId"]) else None)
  }

  /**
   * `requireSellerRole` reading `hostUserId`, the field the app's create
   * request carries: same lookup, same refusals.
   */
  function RequireHostSellerRole(body: Body, users: seq<UserRow>, lookupError: bool): (g: Guard)
    ensures g == Next <==> (!lookupError && |WithId(users, HostUserId(body))| == 1
                            && WithId(users, HostUserId(body))[0].role == "seller")
  {
    if lookupError then Forbidden
    else
      match Single(WithId(users, HostUserId(body)))
      case None => Forbidden
      case Some(user) => if user.role == "seller" then Next else Forbidden
  }
}
