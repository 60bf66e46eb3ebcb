/**
 * MobileRN/src/components/meeting/SendContractSection.tsx: the list of
 * client email "chips" and the text input they are typed into. The component
 * state (`clientEmails` from the parent, `inputValue` its own) is the class
 * `ContractRecipients`; each handler is a method.
 */
module SendContractSection {
  import opened Common

  predicate NoSpaceOrAt(s: string) {
    forall i :: 0 <= i < |s| ==> !IsSpace(s[i]) && s[i] != '@'
  }

  /**
   * What `/^[^\s@]+@[^\s@]+\.[^\s@]+$/` accepts: a run, '@', a run, '.', a
   * run, each run non-empty and free of whitespace and '@'.
   */
  predicate MatchesEmailRegex(t: string) {
    exists at, dot :: 0 < at && at + 1 < dot && dot + 1 < |t| && t[at] == '@' && t[dot] == '.'
                      && NoSpaceOrAt(t[..at]) && NoSpaceOrAt(t[at + 1..dot]) && NoSpaceOrAt(t[dot + 1..])
  }

  /** `isValidEmail`: the regex on the trimmed text, decided by a scan (`ScanIsRegex`). */
  predicate IsValidEmail(email: string) {
    ScanEmail(Trim(email))
  }

  /** Position of the first '@', or the length when there is none. */
  function FirstAt(t: string): (i: nat)
    ensures i <= |t|
    ensures i < |t| ==> t[i] == '@'
    ensures forall k :: 0 <= k < i ==> t[k] != '@'
    decreases |t|
  {
    if t == [] || t[0] == '@' then 0
    else
      var i := 1 + FirstAt(t[1..]);
      assert forall k :: 1 <= k < i ==> t[k] == t[1..][k - 1];
      i
  }

  predicate Contains(s: string, c: char)
    decreases |s|
  {
    s != [] && (s[0] == c || Contains(s[1..], c))
  }

  /**
   * The regex as a left-to-right scan: the text before the first '@' and
   * the text after it are non-empty and free of whitespace and '@', and the
   * part after it has a '.' that is neither its first nor its last character.
   */
  predicate ScanEmail(t: string) {
    var at := FirstAt(t);
    0 < at < |t| && NoSpaceOrAt(t[..at]) && NoSpaceOrAt(t[at + 1..])
    && |t| - at - 1 >= 3 && Contains(t[at + 2..|t| - 1], '.')
  }

  lemma {:induction false} ContainsMeans(s: string, c: char)
    ensures Contains(s, c) <==> exists k :: 0 <= k < |s| && s[k] == c
    decreases |s|
  {
    if s != [] {
      ContainsMeans(s[1..], c);
      if exists k :: 0 <= k < |s| && s[k] == c {
        var k :| 0 <= k < |s| && s[k] == c;
        if k > 0 {
          assert s[1..][k - 1] == c;
        }
      }
      if Contains(s[1..], c) {
        var k :| 0 <= k < |s[1..]| && s[1..][k] == c;
        assert s[k + 1] == c;
      }
    }
  }

  lemma ScanIsShape(t: string)
    ensures ScanEmail(t) <==> EmailShape(t)
  {
    if ScanEmail(t) {
      ScanGivesShape(t);
    }
    if EmailShape(t) {
      ShapeGivesScan(t);
    }
  }

  lemma ScanGivesShape(t: string)
    requires ScanEmail(t)
    ensures EmailShape(t)
  {
    var at := FirstAt(t);
    var d := t[at + 1..];
    var m := t[at + 2..|t| - 1];
    ContainsMeans(m, '.');
    var k :| 0 <= k < |m| && m[k] == '.';
    assert d[k + 1] == '.';
    assert HasInnerDot(d);
  }

  lemma ShapeGivesScan(t: string)
    requires EmailShape(t)
    ensures ScanEmail(t)
  {
    var a :| 0 < a < |t| && t[a] == '@' && NoSpaceOrAt(t[..a]) && NoSpaceOrAt(t[a + 1..]) && HasInnerDot(t[a + 1..]);
    FirstAtIs(t, a);
    var d := t[a + 1..];
    var k :| 0 < k < |d| - 1 && d[k] == '.';
    ContainsMeans(t[a + 2..|t| - 1], '.');
    assert t[a + 2..|t| - 1][k - 1] == '.';
  }

  lemma FirstAtIs(t: string, a: int)
    requires 0 <= a < |t| && t[a] == '@' && NoSpaceOrAt(t[..a])
    ensures FirstAt(t) == a
  {
    assert forall k :: 0 <= k < a ==> t[k] == t[..a][k];
  }

  /** The scan accepts exactly what `/^[^\s@]+@[^\s@]+\.[^\s@]+$/` accepts. */
  lemma ScanIsRegex(t: string)
    ensures ScanEmail(t) <==> MatchesEmailRegex(t)
  {
    ScanIsShape(t);
    EmailRegexShape(t);
  }

  /** A '.' that is neither the first nor the last character. */
  predicate HasInnerDot(s: string) {
    exists k :: 0 < k < |s| - 1 && s[k] == '.'
  }

  predicate EmailShape(t: string) {
    exists at :: 0 < at < |t| && t[at] == '@' && NoSpaceOrAt(t[..at])
                 && NoSpaceOrAt(t[at + 1..]) && HasInnerDot(t[at + 1..])
  }

  /**
   * The regex read as a shape: local part, '@', domain; neither part empty
   * or holding whitespace or '@', and the domain has an inner dot.
   */
  lemma EmailRegexShape(t: string)
    ensures MatchesEmailRegex(t) <==> EmailShape(t)
  {
    if MatchesEmailRegex(t) {
      var at, dot :| 0 < at && at + 1 < dot && dot + 1 < |t| && t[at] == '@' && t[dot] == '.'
                     && NoSpaceOrAt(t[..at]) && NoSpaceOrAt(t[at + 1..dot]) && NoSpaceOrAt(t[dot + 1..]);
      RegexGivesShape(t, at, dot);
    }
    if EmailShape(t) {
      var at :| 0 < at < |t| && t[at] == '@' && NoSpaceOrAt(t[..at]) && NoSpaceOrAt(t[at + 1..]) && HasInnerDot(t[at + 1..]);
      var k :| 0 < k < |t[at + 1..]| - 1 && t[at + 1..][k] == '.';
      ShapeGivesRegex(t, at, at + 1 + k);
    }
  }

  lemma RegexGivesShape(t: string, at: int, dot: int)
    requires 0 < at && at + 1 < dot && dot + 1 < |t| && t[at] == '@' && t[dot] == '.'
    requires NoSpaceOrAt(t[..at]) && NoSpaceOrAt(t[at + 1..dot]) && NoSpaceOrAt(t[dot + 1..])
    ensures EmailShape(t)
  {
    var d := t[at + 1..];
    assert d == t[at + 1..dot] + [t[dot]] + t[dot + 1..];
    assert d[dot - at - 1] == '.';
  }

  lemma ShapeGivesRegex(t: string, at: int, dot: int)
    requires 0 < at && at + 1 < dot && dot + 1 < |t| && t[at] == '@' && t[dot] == '.'
    requires NoSpaceOrAt(t[..at]) && NoSpaceOrAt(t[at + 1..])
    ensures MatchesEmailRegex(t)
  {
    assert t[at + 1..] == t[at + 1..dot] + [t[dot]] + t[dot + 1..];
  }

  /** The form an entry of the list takes: no whitespace around it, no upper-case letter in it. */
  function Normalize(email: string): (r: string)
    ensures NoOuterSpace(r) && LowerChars(r)
  {
    var t := Trim(email);
    LowerKeepsEnds(t);
    LowerGivesLowerChars(t);
    ToLower(t)
  }

  lemma LowerKeepsEnds(t: string)
    requires NoOuterSpace(t)
    ensures NoOuterSpace(ToLower(t))
  {
    var r := ToLower(t);
    assert r != "" ==> r[0] == LowerChar(t[0]) && r[|r| - 1] == LowerChar(t[|t| - 1]);
  }

  lemma LowerGivesLowerChars(t: string)
    ensures LowerChars(ToLower(t))
  {
    var r := ToLower(t);
    forall i | 0 <= i < |r| ensures LowerChar(r[i]) == r[i] {
      LowerCharIdempotent(t[i]);
    }
  }

  /** The normalized address is trimmed and lower-case in the sense of `trim()` and `toLowerCase()`. */
  lemma NormalizeIsNormal(email: string)
    ensures IsLower(Normalize(email)) && Trim(Normalize(email)) == Normalize(email)
  {
    var r := Normalize(email);
    assert ToLower(r) == r;
    TrimOfTrimmed(r);
  }

  /**
   * `isValidEmail` trims once more before matching; on a normalized address
   * that changes nothing, so the check is the scan of the address itself.
   */
  lemma NormalizedValidity(email: string)
    ensures IsValidEmail(Normalize(email)) <==> ScanEmail(Normalize(email))
  {
    NormalizeIsNormal(email);
  }

  /** Every entry trimmed, lower-case and valid, and no entry twice. */
  predicate WellFormed(emails: seq<string>) {
    Distinct(emails) && AllEntries(emails)
  }

  predicate Distinct(emails: seq<string>) {
    forall i, j :: 0 <= i < j < |emails| ==> emails[i] != emails[j]
  }

  predicate AllEntries(emails: seq<string>) {
    forall i :: 0 <= i < |emails| ==> Entry(emails[i])
  }

  /** An entry: no surrounding whitespace, no upper-case letter, a valid address (see `NormalizedValidity`). */
  predicate Entry(e: string) {
    NoOuterSpace(e) && LowerChars(e) && ScanEmail(e)
  }

  predicate NoOuterSpace(e: string) {
    e == "" || (!IsSpace(e[0]) && !IsSpace(e[|e| - 1]))
  }

  predicate LowerChars(e: string) {
    forall i :: 0 <= i < |e| ==> LowerChar(e[i]) == e[i]
  }

  /** `emails.filter(e => e !== x)`: the others, in their order. */
  function Without(emails: seq<string>, x: string): (r: seq<string>)
    ensures forall e :: e in r <==> e in emails && e != x
    ensures |r| <= |emails|
    decreases |emails|
  {
    if emails == [] then []
    else (if emails[0] == x then [] else [emails[0]]) + Without(emails[1..], x)
  }

  /** In a list without repeats, removing an entry cuts exactly its position out. */
  lemma {:induction false} WithoutCutsOne(emails: seq<string>, i: int)
    requires forall a, b :: 0 <= a < b < |emails| ==> emails[a] != emails[b]
    requires 0 <= i < |emails|
    ensures Without(emails, emails[i]) == emails[..i] + emails[i + 1..]
    decreases |emails|
  {
    if i == 0 {
      WithoutAbsent(emails[1..], emails[0]);
      assert emails[1..] == emails[..0] + emails[1..];
    } else {
      WithoutCutsOne(emails[1..], i - 1);
      assert emails[1..][i - 1] == emails[i];
      assert emails[..i] + emails[i + 1..] == [emails[0]] + (emails[1..][..i - 1] + emails[1..][i..]);
    }
  }

  lemma {:induction false} WithoutAbsent(emails: seq<string>, x: string)
    requires forall k :: 0 <= k < |emails| ==> emails[k] != x
    ensures Without(emails, x) == emails
    decreases |emails|
  {
    if emails != [] {
      WithoutAbsent(emails[1..], x);
      assert emails == [emails[0]] + emails[1..];
    }
  }

  lemma AppendKeepsWellFormed(emails: seq<string>, n: string)
    requires WellFormed(emails) && n !in emails && Entry(n)
    ensures WellFormed(emails + [n])
  {
    var r := emails + [n];
    forall k | 0 <= k < |r|
      ensures Entry(r[k])
    {
      if k < |emails| {
        assert r[k] == emails[k];
      }
    }
    forall a, b | 0 <= a < b < |r|
      ensures r[a] != r[b]
    {
      assert r[a] == emails[a];
      if b == |emails| {
        assert r[b] == n;
      } else {
        assert r[b] == emails[b];
      }
    }
  }

  lemma WithoutKeepsWellFormed(emails: seq<string>, x: string)
    requires WellFormed(emails)
    ensures WellFormed(Without(emails, x))
  {
    if x in emails {
      var i :| 0 <= i < |emails| && emails[i] == x;
      WithoutCutsOne(emails, i);
      CutKeepsWellFormed(emails, i);
    } else {
      WithoutAbsent(emails, x);
    }
  }

  lemma CutKeepsWellFormed(emails: seq<string>, i: int)
    requires Distinct(emails) && AllEntries(emails) && 0 <= i < |emails|
    ensures Distinct(emails[..i] + emails[i + 1..]) && AllEntries(emails[..i] + emails[i + 1..])
  {
    CutPositions(emails, i);
    CutKeepsAll(emails, i, emails[..i] + emails[i + 1..], Entry);
  }

  /** Cutting position `i` out maps each remaining position `k` to `Skip(k, i)`, in order. */
  lemma CutPositions(s: seq<string>, i: int)
    requires 0 <= i < |s|
    ensures var r := s[..i] + s[i + 1..];
            |r| == |s| - 1 && forall k :: 0 <= k < |r| ==> r[k] == s[Skip(k, i)]
    ensures Distinct(s) ==> Distinct(s[..i] + s[i + 1..])
  {
    var r := s[..i] + s[i + 1..];
    forall k | 0 <= k < |r| ensures r[k] == s[Skip(k, i)] {
      if k < i { assert r[k] == s[..i][k]; } else { assert r[k] == s[i + 1..][k - i]; }
    }
    assert forall a, b :: 0 <= a < b < |r| ==> Skip(a, i) < Skip(b, i);
  }

  lemma CutKeepsAll(s: seq<string>, i: int, r: seq<string>, P: string -> bool)
    requires 0 <= i < |s| && r == s[..i] + s[i + 1..] && forall k :: 0 <= k < |s| ==> P(s[k])
    ensures forall k :: 0 <= k < |r| ==> P(r[k])
  {
    CutPositions(s, i);
  }

  /** Position in the list of the entry at `k` once position `i` is cut out. */
  function Skip(k: int, i: int): int {
    if k < i then k else k + 1
  }

  /** Characters that end an email while typing. */
  predicate IsSeparator(c: char) {
    c == ',' || c == ';' || c == ' '
  }

  /** The send button's title: sent wins over sending. */
  function ButtonTitle(contractSent: bool, isSending: bool): (t: string)
    ensures contractSent ==> t == "CONTRACT SENT"
    ensures !contractSent && isSending ==> t == "SENDING..."
    ensures !contractSent && !isSending ==> t == "SEND CONTRACT"
  {
    if contractSent then "CONTRACT SENT" else if isSending then "SENDING..." else "SEND CONTRACT"
  }

  /** The send button is disabled while sending, once sent, and with nobody to send to. */
  function SendDisabled(isSending: bool, contractSent: bool, recipients: nat): (d: bool)
    ensures !d <==> !isSending && !contractSent && recipients > 0
  {
    isSending || contractSent || recipients == 0
  }

  /** `addEmail`'s test: the normalized address is accepted when valid and new, which keeps the list well formed. */
  method Admit(emails: seq<string>, email: string) returns (n: string, accepted: bool)
    requires WellFormed(emails)
    ensures n == Normalize(email)
    ensures accepted <==> n != "" && ScanEmail(n) && n !in emails
    ensures accepted ==> WellFormed(emails + [n])
  {
    n := Normalize(email);
    accepted := n != "" && ScanEmail(n) && n !in emails;
    if accepted {
      AppendKeepsWellFormed(emails, n);
    }
  }

  class ContractRecipients {
    var clientEmails: seq<string>
    var inputValue: string

    predicate Valid()
      reads this
    {
      WellFormed(clientEmails)
    }

    constructor()
      ensures clientEmails == [] && inputValue == "" && Valid()
    {
      clientEmails := [];
      inputValue := "";
    }

    /** `addEmail`: the normalized address is appended, and the input cleared, only if it is valid and new. */
    method AddEmail(email: string)
      requires Valid()
      modifies this
      ensures Valid()
      ensures var n := Normalize(email);
              if n != "" && ScanEmail(n) && n !in old(clientEmails)
              then clientEmails == old(clientEmails) + [n] && inputValue == ""
              else clientEmails == old(clientEmails) && inputValue == old(inputValue)
    {
      var trimmed, accepted := Admit(clientEmails, email);
      if accepted {
        clientEmails := clientEmails + [trimmed];
        inputValue := "";
      }
    }

    /** `removeEmail`: every other entry stays, in order. */
    method RemoveEmail(email: string)
      requires Valid()
      modifies this
      ensures Valid()
      ensures clientEmails == Without(old(clientEmails), email) && inputValue == old(inputValue)
    {
      WithoutKeepsWellFormed(clientEmails, email);
      clientEmails := Without(clientEmails, email);
    }

    /** `handleKeyPress`: Backspace in an empty input drops the last chip. */
    method HandleKeyPress(key: string)
      requires Valid()
      modifies this
      ensures Valid() && inputValue == old(inputValue)
      ensures if key == "Backspace" && old(inputValue) == "" && |old(clientEmails)| > 0
              then clientEmails == old(clientEmails)[..|old(clientEmails)| - 1]
              else clientEmails == old(clientEmails)
    {
      if key == "Backspace" && inputValue == "" && |clientEmails| > 0 {
        ghost var before := clientEmails;
        var last := |clientEmails| - 1;
        WithoutCutsOne(before, last);
        assert before[..last] + before[last + 1..] == before[..last];
        RemoveEmail(clientEmails[last]);
      }
    }

    /** `handleSubmitEditing`: only a non-blank input is offered to `addEmail`. */
    method HandleSubmitEditing()
      requires Valid()
      modifies this
      ensures Valid()
      ensures Trim(old(inputValue)) == "" ==> clientEmails == old(clientEmails) && inputValue == old(inputValue)
      ensures Trim(old(inputValue)) != "" ==>
              var n := Normalize(old(inputValue));
              if ScanEmail(n) && n !in old(clientEmails)
              then clientEmails == old(clientEmails) + [n] && inputValue == ""
              else clientEmails == old(clientEmails) && inputValue == old(inputValue)
    {
      if Trim(inputValue) != "" {
        AddEmail(inputValue);
      }
    }

    /**
     * `handleChangeText`: text ending in ',', ';' or ' ' offers the text before
     * that character to `addEmail` and is never stored as the input; any other
     * text becomes the input.
     */
    method HandleChangeText(text: string)
      requires Valid()
      modifies this
      ensures Valid()
      ensures (text == "" || !IsSeparator(text[|text| - 1])) ==> clientEmails == old(clientEmails) && inputValue == text
      ensures text != "" && IsSeparator(text[|text| - 1]) ==>
              var n := Normalize(text[..|text| - 1]);
              if Trim(text[..|text| - 1]) != "" && ScanEmail(n) && n !in old(clientEmails)
              then clientEmails == old(clientEmails) + [n] && inputValue == ""
              else clientEmails == old(clientEmails) && inputValue == old(inputValue)
    {
      if text != "" && IsSeparator(text[|text| - 1]) {
        var email := text[..|text| - 1];
        if Trim(email) != "" {
          AddEmail(email);
        }
      } else {
        inputValue := text;
      }
    }
  }

  /** A normalized address is empty exactly when the input was blank. */
  lemma NormalizeEmptyIffBlank(email: string)
    ensures Normalize(email) == "" <==> Trim(email) == ""
  {
  }
}
