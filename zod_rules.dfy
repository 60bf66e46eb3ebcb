/**
 * The zod checks the backend's request schemas are built from: UUID strings,
 * non-empty strings, enums and optional fields of a JSON body.
 */
module ZodRules {
  import opened Common

  predicate IsHexDigit(c: char) {
    ('0' <= c <= '9') || ('a' <= c <= 'f') || ('A' <= c <= 'F')
  }

  predicate AllHex(s: string) {
    forall i :: 0 <= i < |s| ==> IsHexDigit(s[i])
  }

  /** Positions of the four dashes in the 8-4-4-4-12 layout. */
  predicate IsDashPosition(i: int) {
    i == 8 || i == 13 || i == 18 || i == 23
  }

  /** `z.string().uuid()`: 36 characters, dashes at 8, 13, 18 and 23, hex digits elsewhere. */
  predicate IsUuid(s: string) {
    |s| == 36
    && forall i :: 0 <= i < |s| ==> (if IsDashPosition(i) then s[i] == '-' else IsHexDigit(s[i]))
  }

  /** The same shape read group by group: hex runs of the given lengths joined by single dashes. */
  predicate HexGroups(s: string, groups: seq<nat>)
    decreases |groups|
  {
    if groups == [] then false
    else if |groups| == 1 then |s| == groups[0] && AllHex(s)
    else
      |s| > groups[0] && AllHex(s[..groups[0]]) && s[groups[0]] == '-'
      && HexGroups(s[groups[0] + 1..], groups[1..])
  }

  /** The position-wise and the group-wise reading of the UUID layout agree. */
  lemma UuidAsGroups(s: string)
    ensures IsUuid(s) <==> HexGroups(s, [8, 4, 4, 4, 12])
  {
    if IsUuid(s) {
      UuidGivesGroups(s);
    }
    if HexGroups(s, [8, 4, 4, 4, 12]) {
      GroupsGiveUuid(s);
    }
  }

  /** A stretch of a UUID without dash positions is all hex. */
  lemma HexRun(s: string, lo: int, hi: int)
    requires IsUuid(s) && 0 <= lo <= hi <= |s|
    requires forall i :: lo <= i < hi ==> !IsDashPosition(i)
    ensures AllHex(s[lo..hi])
  {
    forall i | 0 <= i < hi - lo
      ensures IsHexDigit(s[lo..hi][i])
    {
      assert s[lo..hi][i] == s[lo + i];
    }
  }

  lemma UuidGivesGroups(s: string)
    requires IsUuid(s)
    ensures HexGroups(s, [8, 4, 4, 4, 12])
  {
    HexRun(s, 0, 8);
    HexRun(s, 9, 13);
    HexRun(s, 14, 18);
    HexRun(s, 19, 23);
    HexRun(s, 24, 36);
    assert s[..8] == s[0..8] && s[24..] == s[24..36];
    assert s[19..][..4] == s[19..23] && s[19..][5..] == s[24..];
    assert s[14..][..4] == s[14..18] && s[14..][5..] == s[19..];
    assert s[9..][..4] == s[9..13] && s[9..][5..] == s[14..];
    assert HexGroups(s[24..], [12]);
    assert HexGroups(s[19..], [4, 12]);
    assert HexGroups(s[14..], [4, 4, 12]);
    assert HexGroups(s[9..], [4, 4, 4, 12]);
    assert [8, 4, 4, 4, 12][1..] == [4, 4, 4, 12];
  }

  lemma GroupsGiveUuid(s: string)
    requires HexGroups(s, [8, 4, 4, 4, 12])
    ensures IsUuid(s)
  {
    assert [8, 4, 4, 4, 12][1..] == [4, 4, 4, 12];
    var s1 := s[9..];
    assert HexGroups(s1, [4, 4, 4, 12]);
    assert [4, 4, 4, 12][1..] == [4, 4, 12];
    var s2 := s1[5..];
    assert HexGroups(s2, [4, 4, 12]);
    assert [4, 4, 12][1..] == [4, 12];
    var s3 := s2[5..];
    assert HexGroups(s3, [4, 12]);
    assert [4, 12][1..] == [12];
    var s4 := s3[5..];
    assert HexGroups(s4, [12]);
    assert |s4| == 12 && |s| == 36;
    forall i | 0 <= i < |s|
      ensures if IsDashPosition(i) then s[i] == '-' else IsHexDigit(s[i])
    {
      if i < 8 { assert s[i] == s[..8][i]; }
      else if 9 <= i < 13 { assert s[i] == s1[..4][i - 9]; }
      else if 14 <= i < 18 { assert s[i] == s2[..4][i - 14]; }
      else if 19 <= i < 23 { assert s[i] == s3[..4][i - 19]; }
      else if 24 <= i { assert s[i] == s4[i - 24]; }
    }
  }

  /** A UUID can never be the text "undefined" that `String(undefined)` produces. */
  lemma UuidIsNotUndefined(s: string)
    requires IsUuid(s)
    ensures s != "undefined"
  {
  }

  /** A field that `z.string().min(n)` accepts. */
  predicate StringMin(body: Body, key: string, n: nat) {
    key in body && body[key].JStr? && |body[key].s| >= n
  }

  /** `.optional()` over a check: absent, or present and passing it. */
  predicate OptionalStringMin(body: Body, key: string, n: nat) {
    key !in body || StringMin(body, key, n)
  }

  predicate UuidField(body: Body, key: string) {
    key in body && body[key].JStr? && IsUuid(body[key].s)
  }

  /** `z.enum(values)` on a field. */
  predicate EnumField(body: Body, key: string, values: set<string>) {
    key in body && body[key].JStr? && body[key].s in values
  }
}
