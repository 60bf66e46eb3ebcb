/**
 * backend/src/services/email.service.ts: the contract email (subject, plain
 * text, HTML) and the decision to send it through SendGrid. `formEncode` is
 * the `application/x-www-form-urlencoded` byte serializer `URLSearchParams`
 * applies to a name or value; the HTML is kept as the sections it contains.
 */
module EmailService {
  import opened Common

  const AppName := "DealFlow"
  const Signature := "\n\n---\nSent via DealFlow"
  const JoinHeading := "\n\n---\nJOIN THE MEETING\n"

  datatype ContractEmail = ContractEmail(
    to: string,
    clientName: string,
    sellerName: string,
    contractUrl: string,
    meetingTitle: Option<string>,
    meetingId: Option<string>,
    zoomMeetingId: Option<string>,
    zoomPassword: Option<string>,
    zoomJoinUrl: Option<string>)

  /** `generateDeepLink`: the password parameter only for a non-empty password. */
  function GenerateDeepLink(zoomMeetingId: string, password: Option<string>, formEncode: string -> string): (link: string)
    ensures Truthy(password) ==> link == "dealflow://join?meetingId=" + formEncode(zoomMeetingId) + "&password=" + formEncode(password.value)
    ensures !Truthy(password) ==> link == "dealflow://join?meetingId=" + formEncode(zoomMeetingId)
  {
    "dealflow://join?" + "meetingId=" + formEncode(zoomMeetingId)
    + (if Truthy(password) then "&" + "password=" + formEncode(password.value) else "")
  }

  /** The email's deep link: only with a Zoom meeting id, an empty password counting as none. */
  function EmailDeepLink(p: ContractEmail, formEncode: string -> string): (link: Option<string>)
    ensures link.Some? <==> Truthy(p.zoomMeetingId)
    ensures link.Some? ==> link.value == GenerateDeepLink(p.zoomMeetingId.value, NonEmpty(if p.zoomPassword.Some? then p.zoomPassword.value else ""), formEncode)
    ensures link.Some? ==> link.value != ""
  {
    if Truthy(p.zoomMeetingId)
    then Some(GenerateDeepLink(p.zoomMeetingId.value, NonEmpty(if p.zoomPassword.Some? then p.zoomPassword.value else ""), formEncode))
    else None
  }

  function TitleSuffix(p: ContractEmail): string {
    if Truthy(p.meetingTitle) then " for \"" + p.meetingTitle.value + "\"" else ""
  }

  function Greeting(p: ContractEmail): string {
    "Hi " + p.clientName + ","
  }

  function Introduction(p: ContractEmail): string {
    IntroductionBody(p) + "\n"
  }

  /** The greeting paragraph before `.trim()`. */
  function HeaderTemplate(p: ContractEmail): string {
    "\n" + (Greeting(p) + (Introduction(p) + (p.contractUrl + "\n")))
  }

  function Header(p: ContractEmail): string {
    Trim(HeaderTemplate(p))
  }

  function AppLine(link: Option<string>): string {
    if link.Some? then "\nOpen in DealFlow App: " + link.value else ""
  }

  function ZoomLine(joinUrl: Option<string>): string {
    if Truthy(joinUrl) then "\nJoin via Zoom: " + joinUrl.value else ""
  }

  function PasswordLine(password: Option<string>): string {
    if Truthy(password) then "\nPassword: " + password.value else ""
  }

  function DetailLines(zoomMeetingId: Option<string>, password: Option<string>): string {
    if Truthy(zoomMeetingId) then "\n\nMeeting ID: " + zoomMeetingId.value + PasswordLine(password) else ""
  }

  /** The part `generatePlainText` appends when there is a deep link or a Zoom join URL. */
  function JoinBlock(p: ContractEmail, formEncode: string -> string): string {
    if EmailDeepLink(p, formEncode).None? && !Truthy(p.zoomJoinUrl) then ""
    else JoinHeading + AppLine(EmailDeepLink(p, formEncode)) + ZoomLine(p.zoomJoinUrl) + DetailLines(p.zoomMeetingId, p.zoomPassword)
  }

  /** The plain-text body: greeting, optional meeting block, signature. */
  function PlainText(p: ContractEmail, formEncode: string -> string): string {
    Header(p) + JoinBlock(p, formEncode) + Signature
  }

  /** `generatePlainText`: the trimmed greeting paragraph, the meeting block, the signature. */
  method GeneratePlainText(p: ContractEmail, formEncode: string -> string) returns (text: string)
    ensures text == PlainText(p, formEncode)
  {
    text := Header(p);
    var block := AppendJoinBlock(p, formEncode);
    text := text + block;
    text := text + Signature;
  }

  /** The meeting block of `generatePlainText`, built by successive appends. */
  method AppendJoinBlock(p: ContractEmail, formEncode: string -> string) returns (text: string)
    ensures text == JoinBlock(p, formEncode)
  {
    var deepLink := EmailDeepLink(p, formEncode);
    text := "";
    if deepLink.Some? || Truthy(p.zoomJoinUrl) {
      text := JoinHeading;
      if deepLink.Some? {
        text := text + ("\nOpen in DealFlow App: " + deepLink.value);
      }
      assert text == JoinHeading + AppLine(deepLink);
      if Truthy(p.zoomJoinUrl) {
        text := text + ("\nJoin via Zoom: " + p.zoomJoinUrl.value);
      }
      assert text == JoinHeading + AppLine(deepLink) + ZoomLine(p.zoomJoinUrl);
      ghost var links := text;
      if Truthy(p.zoomMeetingId) {
        text := text + ("\n\nMeeting ID: " + p.zoomMeetingId.value);
        if Truthy(p.zoomPassword) {
          text := text + ("\nPassword: " + p.zoomPassword.value);
        }
        Associative(links, "\n\nMeeting ID: " + p.zoomMeetingId.value, PasswordLine(p.zoomPassword));
      }
      assert text == links + DetailLines(p.zoomMeetingId, p.zoomPassword);
    }
  }

  /** Trimming a line break off the front of a string that starts with a visible character. */
  lemma TrimStartOneBreak(x: string)
    requires x != "" && !IsSpace(x[0])
    ensures TrimStart("\n" + x) == x
  {
    assert ("\n" + x)[1..] == x;
  }

  /** Trimming the end of greeting + introduction + URL line, for a greeting and an introduction ending visibly. */
  lemma {:induction false} TrimEndOfParagraph(g: string, i0: string, u: string)
    requires g != "" && !IsSpace(g[|g| - 1]) && i0 != "" && !IsSpace(i0[|i0| - 1])
    ensures TrimEnd(u) != "" ==> TrimEnd(g + ((i0 + "\n") + (u + "\n"))) == g + ((i0 + "\n") + TrimEnd(u))
    ensures TrimEnd(u) == "" ==> TrimEnd(g + ((i0 + "\n") + (u + "\n"))) == g + i0
  {
    TrimEndAppend(u, "\n");
    assert TrimEnd("\n") == "";
    TrimEndAppend(i0 + "\n", u + "\n");
    TrimEndAppend(i0, "\n");
    TrimEndOfNonSpaceEnd(i0);
    TrimEndAppend(g, (i0 + "\n") + (u + "\n"));
    TrimEndOfNonSpaceEnd(g);
  }

  function IntroductionBody(p: ContractEmail): string {
    "\n\n" + p.sellerName + " has sent you a contract to review" + TitleSuffix(p) + "."
    + "\n\nPlease click the link below to view and sign the contract:"
  }

  /** The `.trim()` of the template only drops its first line break and whitespace after the URL. */
  lemma HeaderShape(p: ContractEmail)
    ensures TrimEnd(p.contractUrl) != "" ==> Header(p) == Greeting(p) + (Introduction(p) + TrimEnd(p.contractUrl))
    ensures TrimEnd(p.contractUrl) == "" ==> Header(p) == Greeting(p) + IntroductionBody(p)
  {
    var g, i0, u := Greeting(p), IntroductionBody(p), p.contractUrl;
    assert Introduction(p) == i0 + "\n";
    assert g[0] == 'H' && g[|g| - 1] == ',';
    assert i0[|i0| - 1] == ':';
    var x := g + ((i0 + "\n") + (u + "\n"));
    assert x[0] == 'H';
    TrimStartOneBreak(x);
    TrimEndOfParagraph(g, i0, u);
  }

  lemma HeaderStartsWithGreeting(p: ContractEmail)
    ensures StartsWith(Header(p), Greeting(p))
  {
    HeaderShape(p);
    var rest := if TrimEnd(p.contractUrl) != "" then Introduction(p) + TrimEnd(p.contractUrl) else IntroductionBody(p);
    assert Header(p) == Greeting(p) + rest;
    PrefixOf(Greeting(p), rest);
  }

  /** The text opens with "Hi <clientName>,". */
  lemma PlainTextStartsWithGreeting(p: ContractEmail, formEncode: string -> string)
    ensures StartsWith(PlainText(p, formEncode), "Hi " + p.clientName + ",")
  {
    HeaderStartsWithGreeting(p);
    PrefixExtends(Header(p), JoinBlock(p, formEncode), Greeting(p));
    PrefixExtends(Header(p) + JoinBlock(p, formEncode), Signature, Greeting(p));
  }

  /** A contract URL with no trailing whitespace closes the greeting paragraph, right after the sign-the-contract prompt. */
  lemma HeaderEndsWithContractUrl(p: ContractEmail)
    requires p.contractUrl != "" && !IsSpace(p.contractUrl[|p.contractUrl| - 1])
    ensures EndsWith(Header(p), Introduction(p) + p.contractUrl)
  {
    HeaderShape(p);
    TrimEndOfNonSpaceEnd(p.contractUrl);
    SuffixOfAppend(Greeting(p), Introduction(p), p.contractUrl);
  }

  /** Every text ends with the DealFlow signature. */
  lemma PlainTextEndsWithSignature(p: ContractEmail, formEncode: string -> string)
    ensures EndsWith(PlainText(p, formEncode), Signature)
  {
    EndsWithAppend(Header(p) + JoinBlock(p, formEncode), Signature);
  }

  /** The meeting block is there exactly when there is a deep link or a Zoom join URL. */
  lemma JoinBlockIffMeeting(p: ContractEmail, formEncode: string -> string)
    ensures PlainText(p, formEncode) == Header(p) + Signature <==> !(Truthy(p.zoomMeetingId) || Truthy(p.zoomJoinUrl))
    ensures (Truthy(p.zoomMeetingId) || Truthy(p.zoomJoinUrl))
            ==> StartsWith(JoinBlock(p, formEncode), JoinHeading)
  {
    var jb := JoinBlock(p, formEncode);
    MiddleEmpty(Header(p), jb, Signature);
    if Truthy(p.zoomMeetingId) || Truthy(p.zoomJoinUrl) {
      var rest := AppLine(EmailDeepLink(p, formEncode)) + ZoomLine(p.zoomJoinUrl) + DetailLines(p.zoomMeetingId, p.zoomPassword);
      assert jb == JoinHeading + rest by {
        Associative(JoinHeading + AppLine(EmailDeepLink(p, formEncode)), ZoomLine(p.zoomJoinUrl), DetailLines(p.zoomMeetingId, p.zoomPassword));
        Associative(JoinHeading, AppLine(EmailDeepLink(p, formEncode)), ZoomLine(p.zoomJoinUrl) + DetailLines(p.zoomMeetingId, p.zoomPassword));
        Associative(AppLine(EmailDeepLink(p, formEncode)), ZoomLine(p.zoomJoinUrl), DetailLines(p.zoomMeetingId, p.zoomPassword));
      }
      assert JoinHeading[0] == '\n';
      PrefixOfAppend(JoinHeading, rest, "");
      assert JoinHeading + rest + "" == jb;
    }
  }

  /** Without a Zoom meeting id the password leaves no trace in the text: no deep link, no Password line. */
  lemma PasswordNeedsMeetingId(p: ContractEmail, formEncode: string -> string)
    requires !Truthy(p.zoomMeetingId)
    ensures PlainText(p, formEncode) == PlainText(p.(zoomPassword := None), formEncode)
  {
    var q := p.(zoomPassword := None);
    assert TitleSuffix(q) == TitleSuffix(p);
    assert HeaderTemplate(q) == HeaderTemplate(p);
    assert EmailDeepLink(p, formEncode) == None == EmailDeepLink(q, formEncode);
    assert JoinBlock(q, formEncode) == JoinBlock(p, formEncode);
  }

  /** With both an id and a password, the Password line is the last line before the signature. */
  lemma PasswordLineShown(p: ContractEmail, formEncode: string -> string)
    requires Truthy(p.zoomMeetingId) && Truthy(p.zoomPassword)
    ensures EndsWith(PlainText(p, formEncode), PasswordLine(p.zoomPassword) + Signature)
    ensures PasswordLine(p.zoomPassword) == "\nPassword: " + p.zoomPassword.value
  {
    var q := JoinHeading + AppLine(EmailDeepLink(p, formEncode)) + ZoomLine(p.zoomJoinUrl);
    var m := "\n\nMeeting ID: " + p.zoomMeetingId.value;
    assert JoinBlock(p, formEncode) == q + (m + PasswordLine(p.zoomPassword));
    EndsWithNested(Header(p), q, m, PasswordLine(p.zoomPassword), Signature);
  }

  // ---- HTML ---------------------------------------------------------------

  datatype ZoomButton = ZoomButton(joinUrl: string, width: string, paddingLeft: bool)
  datatype MeetingDetails = MeetingDetails(zoomMeetingId: string, password: Option<string>)

  /** The "Join the Meeting" block of the HTML body. */
  datatype MeetingSection = MeetingSection(appButton: Option<string>, zoomButton: Option<ZoomButton>, details: Option<MeetingDetails>)

  /** The HTML body as the sections and values it shows. */
  datatype EmailHtml = EmailHtml(
    pageTitle: string,
    clientName: string,
    sellerName: string,
    meetingTitle: Option<string>,
    contractUrl: string,
    meeting: Option<MeetingSection>)

  function GenerateEmailHtml(p: ContractEmail, formEncode: string -> string): (h: EmailHtml)
    ensures h.pageTitle == "Contract from " + p.sellerName && h.contractUrl == p.contractUrl
    ensures h.meetingTitle == NonEmpty(if p.meetingTitle.Some? then p.meetingTitle.value else "")
    // the meeting section appears iff there is a Zoom meeting id or join URL
    ensures h.meeting.Some? <==> Truthy(p.zoomMeetingId) || Truthy(p.zoomJoinUrl)
    ensures h.meeting.Some? ==> (h.meeting.value.appButton == EmailDeepLink(p, formEncode)
                                 && (h.meeting.value.zoomButton.Some? <==> Truthy(p.zoomJoinUrl))
                                 && (h.meeting.value.details.Some? <==> Truthy(p.zoomMeetingId)))
    // the Zoom button takes half the row beside the app button, the whole row alone
    ensures h.meeting.Some? && h.meeting.value.zoomButton.Some?
            ==> (h.meeting.value.zoomButton.value.width == (if Truthy(p.zoomMeetingId) then "50%" else "100%")
                 && h.meeting.value.zoomButton.value.paddingLeft == Truthy(p.zoomMeetingId))
    ensures h.meeting.Some? && h.meeting.value.details.Some?
            ==> h.meeting.value.details.value.password == NonEmpty(if p.zoomPassword.Some? then p.zoomPassword.value else "")
  {
    var deepLink := EmailDeepLink(p, formEncode);
    var hasMeeting := deepLink.Some? || Truthy(p.zoomJoinUrl);
    EmailHtml(
      "Contract from " + p.sellerName, p.clientName, p.sellerName,
      NonEmpty(if p.meetingTitle.Some? then p.meetingTitle.value else ""),
      p.contractUrl,
      if !hasMeeting then None
      else Some(MeetingSection(
        deepLink,
        if Truthy(p.zoomJoinUrl) then Some(ZoomButton(p.zoomJoinUrl.value, if deepLink.Some? then "50%" else "100%", deepLink.Some?)) else None,
        if Truthy(p.zoomMeetingId) then Some(MeetingDetails(p.zoomMeetingId.value, NonEmpty(if p.zoomPassword.Some? then p.zoomPassword.value else ""))) else None)))
  }

  // ---- sending ------------------------------------------------------------

  function Subject(p: ContractEmail): (s: string)
    ensures Truthy(p.meetingTitle) ==> s == "Contract from " + p.sellerName + " - " + p.meetingTitle.value
    ensures !Truthy(p.meetingTitle) ==> s == "Contract from " + p.sellerName
  {
    "Contract from " + p.sellerName + (if Truthy(p.meetingTitle) then " - " + p.meetingTitle.value else "")
  }

  datatype EmailMessage = EmailMessage(to: string, fromEmail: string, fromName: string, subject: string, text: string, html: EmailHtml)

  /**
   * `sendContractEmail`: false without SENDGRID_API_KEY or SENDGRID_FROM_EMAIL
   * (nothing handed to SendGrid), false when SendGrid fails, never a throw.
   * Returns the message handed to SendGrid, if any, and the boolean.
   */
  function SendContractEmail(p: ContractEmail, env: Env, formEncode: string -> string, sendFails: bool): (r: (Option<EmailMessage>, bool))
    ensures EnvGet(env, "SENDGRID_API_KEY").None? || EnvGet(env, "SENDGRID_FROM_EMAIL").None? ==> r == (None, false)
    ensures r.0.Some? <==> EnvGet(env, "SENDGRID_API_KEY").Some? && EnvGet(env, "SENDGRID_FROM_EMAIL").Some?
    ensures r.1 <==> r.0.Some? && !sendFails
    ensures r.0.Some? ==> r.0.value == EmailMessage(p.to, env["SENDGRID_FROM_EMAIL"], AppName, Subject(p),
                                                     PlainText(p, formEncode), GenerateEmailHtml(p, formEncode))
  {
    if EnvGet(env, "SENDGRID_API_KEY").None? then (None, false)
    else
      match EnvGet(env, "SENDGRID_FROM_EMAIL")
      case None => (None, false)
      case Some(from) =>
        var msg := EmailMessage(p.to, from, AppName, Subject(p), PlainText(p, formEncode), GenerateEmailHtml(p, formEncode));
        (Some(msg), !sendFails)
  }
}
