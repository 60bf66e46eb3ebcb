/**
 * Values shared by the backend and the mobile client: optional and failing
 * results, JSON request bodies as Express hands them over, the process
 * environment, and the few JavaScript string operations the code relies on
 * (`trim`, `toLowerCase`, `String(n)`).
 */
module Common {

  datatype Option<+T> = None | Some(value: T)

  /** A computation that either yields a value or throws an error message. */
  datatype Result<+T, +E> = Ok(value: T) | Err(error: E)

  /**
   * A value of a parsed JSON body. A key missing from an object's map is
   * `undefined`. Non-integer numbers are not modelled.
   */
  datatype Json =
    | JNull
    | JBool(b: bool)
    | JNum(n: int)
    | JStr(s: string)
    | JArray(items: seq<Json>)
    | JObject(fields: map<string, Json>)

  type Body = map<string, Json>

  /** A body field that is present and a JSON string. */
  function StringField(body: Body, key: string): (r: Option<string>)
    ensures r.Some? <==> key in body && body[key].JStr?
    ensures r.Some? ==> body[key] == JStr(r.value)
  {
    if key in body && body[key].JStr? then Some(body[key].s) else None
  }

  /** `obj?.key`: the field of an object, `undefined` (None) for anything else. */
  function Field(v: Option<Json>, key: string): (r: Option<Json>)
    ensures r.Some? <==> v.Some? && v.value.JObject? && key in v.value.fields
  {
    if v.Some? && v.value.JObject? && key in v.value.fields then Some(v.value.fields[key]) else None
  }

  /** `String(v)` for a JSON value; `undefined` is the None case. */
  function JsString(v: Option<Json>): (r: string)
    ensures v.Some? && v.value.JStr? ==> r == v.value.s
    ensures v.None? ==> r == "undefined"
    ensures v.Some? && v.value.JNum? ==> r == IntToString(v.value.n)
  {
    match v
    case None => "undefined"
    case Some(j) => JsonString(j)
  }

  function JsonString(j: Json): string
    decreases j, 1
  {
    match j
    case JNull => "null"
    case JBool(b) => if b then "true" else "false"
    case JNum(n) => IntToString(n)
    case JStr(s) => s
    case JArray(items) => JoinItems(items)
    case JObject(_) => "[object Object]"
  }

  /** `Array.prototype.join(",")` as `String` applies it: null items print as "". */
  function JoinItems(items: seq<Json>): string
    decreases items, 0
  {
    if items == [] then ""
    else
      var head := if items[0].JNull? then "" else JsonString(items[0]);
      if |items| == 1 then head else head + "," + JoinItems(items[1..])
  }

  /** `process.env`; a variable that is unset and one set to "" are both falsy. */
  type Env = map<string, string>

  /** `process.env[name]` read through a truthiness test. */
  function EnvGet(env: Env, name: string): (r: Option<string>)
    ensures r.Some? <==> name in env && env[name] != ""
    ensures r.Some? ==> r.value == env[name] && r.value != ""
  {
    if name in env && env[name] != "" then Some(env[name]) else None
  }

  /** The message the three `mustEnv` helpers throw for an unset variable. */
  function MissingEnv(name: string): string {
    "Missing env: " + name
  }

  /** `mustEnv`: the variable's value, or the error naming it. */
  function MustEnv(env: Env, name: string): (r: Result<string, string>)
    ensures r.Ok? <==> name in env && env[name] != ""
    ensures r.Ok? ==> r.value == env[name]
    ensures r.Err? ==> r.error == MissingEnv(name)
  {
    match EnvGet(env, name)
    case Some(v) => Ok(v)
    case None => Err(MissingEnv(name))
  }

  /**
   * Supabase's `.single()`: the row when the query matched exactly one,
   * nothing (error PGRST116) when it matched none or several.
   */
  function Single<T>(matches: seq<T>): (r: Option<T>)
    ensures r.Some? <==> |matches| == 1
    ensures r.Some? ==> r.value == matches[0]
  {
    if |matches| == 1 then Some(matches[0]) else None
  }

  /** What an Express handler sends back. */
  datatype Reply<+T> =
    | Json200(body: T)                  // res.json(body)
    | Empty200                          // res.status(200).send()
    | ErrorJson(status: int, error: string)  // res.status(status).json({ error })
    | BadRequest                        // 400 with zod's flattened issues (not modelled)
    | NoReply                           // the handler threw outside its try block

  function StatusOf<T>(r: Reply<T>): int {
    match r
    case Json200(_) => 200
    case Empty200 => 200
    case ErrorJson(status, _) => status
    case BadRequest => 400
    case NoReply => 0
  }

  /** `a || b` on strings: the first one unless it is empty. */
  function OrElse(a: string, b: string): (r: string)
    ensures a != "" ==> r == a
    ensures a == "" ==> r == b
  {
    if a != "" then a else b
  }

  /** The optional string `s` as JavaScript's `s || undefined`. */
  function NonEmpty(s: string): (r: Option<string>)
    ensures r.Some? <==> s != ""
    ensures r.Some? ==> r.value == s
  {
    if s != "" then Some(s) else None
  }

  /** An optional string that is present and not empty (`if (s)`). */
  predicate Truthy(s: Option<string>) {
    s.Some? && s.value != ""
  }

  /** JavaScript `a || b` with `a` possibly null or undefined. */
  function OptionOr(a: Option<string>, b: string): (r: string)
    ensures Truthy(a) ==> r == a.value
    ensures !Truthy(a) ==> r == b
  {
    if Truthy(a) then a.value else b
  }

  /**
   * The ECMAScript WhiteSpace and LineTerminator characters: what `trim()`
   * removes and what the regular-expression class `\s` matches.
   */
  predicate IsSpace(c: char) {
    || c == '\t' || c == '\n' || c == '\U{B}' || c == '\U{C}' || c == '\r'
    || c == ' ' || c == '\U{A0}' || c == '\U{1680}'
    || ('\U{2000}' <= c <= '\U{200A}')
    || c == '\U{2028}' || c == '\U{2029}' || c == '\U{202F}' || c == '\U{205F}'
    || c == '\U{3000}' || c == '\U{FEFF}'
  }

  predicate NoSpace(s: string) {
    forall i :: 0 <= i < |s| ==> !IsSpace(s[i])
  }

  function TrimStart(s: string): (r: string)
    ensures |r| <= |s| && r == s[|s| - |r|..]
    ensures r == "" || !IsSpace(r[0])
    ensures forall i :: 0 <= i < |s| - |r| ==> IsSpace(s[i])
  {
    if |s| > 0 && IsSpace(s[0]) then TrimStart(s[1..]) else s
  }

  function TrimEnd(s: string): (r: string)
    ensures |r| <= |s| && r == s[..|r|]
    ensures r == "" || !IsSpace(r[|r| - 1])
    ensures forall i :: |r| <= i < |s| ==> IsSpace(s[i])
  {
    if |s| > 0 && IsSpace(s[|s| - 1]) then TrimEnd(s[..|s| - 1]) else s
  }

  /** `String.prototype.trim`. */
  function Trim(s: string): (r: string)
    ensures |r| <= |s|
    ensures r == "" || (!IsSpace(r[0]) && !IsSpace(r[|r| - 1]))
  {
    TrimEnd(TrimStart(s))
  }

  /** A string with no surrounding whitespace is its own trim. */
  lemma {:induction false} TrimOfTrimmed(s: string)
    requires s == "" || (!IsSpace(s[0]) && !IsSpace(s[|s| - 1]))
    ensures Trim(s) == s
  {
  }

  lemma Associative(a: string, b: string, c: string)
    ensures (a + b) + c == a + (b + c)
  {
  }

  lemma PrefixOfAppend(a: string, b: string, c: string)
    ensures StartsWith((a + b) + c, a)
  {
    assert ((a + b) + c)[..|a|] == a;
  }

  lemma PrefixOf(a: string, b: string)
    ensures StartsWith(a + b, a)
  {
    assert (a + b)[..|a|] == a;
  }

  lemma PrefixExtends(s: string, t: string, prefix: string)
    requires StartsWith(s, prefix)
    ensures StartsWith(s + t, prefix)
  {
    assert (s + t)[..|prefix|] == s[..|prefix|];
  }

  lemma SuffixOfAppend(a: string, b: string, c: string)
    ensures EndsWith(a + (b + c), b + c)
  {
    assert (a + (b + c))[|a|..] == b + c;
  }

  lemma EndsWithAppend(a: string, b: string)
    ensures EndsWith(a + b, b)
  {
    assert (a + b)[|a|..] == b;
  }

  lemma MiddleEmpty(a: string, b: string, c: string)
    ensures (a + b) + c == a + c <==> b == ""
  {
    if (a + b) + c == a + c {
      assert |(a + b) + c| == |a + c|;
    }
  }

  lemma EndsWithNested(a: string, b: string, c: string, d: string, e: string)
    ensures EndsWith((a + (b + (c + d))) + e, d + e)
  {
    var t := (a + (b + (c + d))) + e;
    assert t == (a + b + c) + (d + e);
    assert t[|a + b + c|..] == d + e;
  }

  /** Whitespace at the end of `s + t` is stripped from `t` first, reaching into `s` only when `t` is all whitespace. */
  lemma {:induction false} TrimEndAppend(s: string, t: string)
    ensures TrimEnd(s + t) == if TrimEnd(t) == "" then TrimEnd(s) else s + TrimEnd(t)
    decreases |t|
  {
    if t == "" {
      assert s + t == s;
    } else if IsSpace(t[|t| - 1]) {
      assert (s + t)[..|s + t| - 1] == s + t[..|t| - 1];
      TrimEndAppend(s, t[..|t| - 1]);
    } else {
      assert (s + t)[|s + t| - 1] == t[|t| - 1];
    }
  }

  /** A string that ends in a non-whitespace character has nothing to strip at the end. */
  lemma TrimEndOfNonSpaceEnd(s: string)
    requires s != "" && !IsSpace(s[|s| - 1])
    ensures TrimEnd(s) == s
  {
  }

  /** ASCII lower-casing, the part of `toLowerCase` this model keeps. */
  function LowerChar(c: char): (r: char)
    ensures IsSpace(r) <==> IsSpace(c)
    ensures r == c || ('A' <= c <= 'Z' && r != c)
  {
    if 'A' <= c <= 'Z' then (c as int - 'A' as int + 'a' as int) as char else c
  }

  lemma LowerCharIdempotent(c: char)
    ensures LowerChar(LowerChar(c)) == LowerChar(c)
  {
  }

  function ToLower(s: string): (r: string)
    ensures |r| == |s|
    ensures forall i :: 0 <= i < |s| ==> r[i] == LowerChar(s[i])
  {
    seq(|s|, i requires 0 <= i < |s| => LowerChar(s[i]))
  }

  predicate IsLower(s: string) {
    ToLower(s) == s
  }

  function DigitChar(d: nat): (c: char)
    requires d < 10
    ensures '0' <= c <= '9'
  {
    ('0' as int + d) as char
  }

  /** `String(n)` for an integer: its decimal digits, with a '-' sign. */
  function NatToString(n: nat): (r: string)
    ensures r != ""
    ensures forall i :: 0 <= i < |r| ==> '0' <= r[i] <= '9'
    decreases n
  {
    if n < 10 then [DigitChar(n)] else NatToString(n / 10) + [DigitChar(n % 10)]
  }

  function IntToString(n: int): (r: string)
    ensures r != ""
    ensures (r[0] == '-') <==> n < 0
  {
    if n < 0 then "-" + NatToString(-n) else NatToString(n)
  }

  predicate StartsWith(s: string, prefix: string) {
    |prefix| <= |s| && s[..|prefix|] == prefix
  }

  predicate EndsWith(s: string, suffix: string) {
    |suffix| <= |s| && s[|s| - |suffix|..] == suffix
  }
}
