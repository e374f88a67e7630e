/** The verification e-mails (src/utils/emailTemplates.ts). Each template is a
    sequence of literal text and slots for the five inputs; rendering puts
    the inputs in verbatim, with no escaping. Style sheets and the layout
    white space of the template literals are reduced to short constants. */
module EmailTemplates {
  import opened Text

  datatype TemplateData = TemplateData(
    appName: string,
    appUrl: string,
    userEmail: string,
    verificationUrl: string,
    supportEmail: string)

  datatype Field = AppName | AppUrl | UserEmail | VerificationUrl | SupportEmail

  /** Literal text, an input, or one of the templates' long passages of fixed
      copy (kept apart so that reasoning about where the inputs go never has to
      look at the copy itself). */
  datatype Piece = Lit(text: string) | Slot(field: Field) | Fixed(passage: Passage)

  function Value(d: TemplateData, f: Field): string {
    match f
    case AppName => d.appName
    case AppUrl => d.appUrl
    case UserEmail => d.userEmail
    case VerificationUrl => d.verificationUrl
    case SupportEmail => d.supportEmail
  }

  /** The text of one piece; `copy` gives the text of the fixed passages. */
  function PieceText(p: Piece, d: TemplateData, copy: Passage -> string): string {
    match p
    case Lit(t) => t
    case Slot(f) => Value(d, f)
    case Fixed(c) => copy(c)
  }

  /** Template-literal interpolation. */
  function Render(ps: seq<Piece>, d: TemplateData, copy: Passage -> string): string
    decreases |ps|
  {
    if |ps| == 0 then "" else PieceText(ps[0], d, copy) + Render(ps[1..], d, copy)
  }

  lemma {:induction false} RenderSplit(ps: seq<Piece>, i: nat, d: TemplateData, copy: Passage -> string)
    requires i <= |ps|
    ensures Render(ps, d, copy) == Render(ps[..i], d, copy) + Render(ps[i..], d, copy)
    decreases i
  {
    if i > 0 {
      RenderSplit(ps[1..], i - 1, d, copy);
      assert ps[1..][..i - 1] == ps[..i][1..];
      assert ps[1..][i - 1..] == ps[i..];
    }
  }

  /** Whatever a run of consecutive pieces renders to occurs in the output. */
  lemma RenderContainsRun(ps: seq<Piece>, i: nat, k: nat, d: TemplateData, copy: Passage -> string)
    requires i <= k <= |ps|
    ensures Contains(Render(ps, d, copy), Render(ps[i..k], d, copy))
  {
    RenderSplit(ps, k, d, copy);
    RenderSplit(ps[..k], i, d, copy);
    assert ps[..k][i..] == ps[i..k];
    assert ps[..k][..i] == ps[..i];
    ContainsInfix(Render(ps[..i], d, copy), Render(ps[i..k], d, copy), Render(ps[k..], d, copy));
  }

  /** A slot between two literals renders as the literals around the input,
      character for character. */
  lemma RenderAround(a: string, f: Field, b: string, d: TemplateData, copy: Passage -> string)
    ensures Render([Lit(a), Slot(f), Lit(b)], d, copy) == a + Value(d, f) + b
  {
    var ps := [Lit(a), Slot(f), Lit(b)];
    assert ps[1..] == [Slot(f), Lit(b)];
    assert ps[1..][1..] == [Lit(b)];
    assert ps[1..][1..][1..] == [];
    assert Render(ps[1..][1..], d, copy) == b + "";
    assert Render(ps[1..], d, copy) == Value(d, f) + b;
  }

  /** Every input with a slot in the template occurs verbatim in the output. */
  lemma SlotAppears(ps: seq<Piece>, k: nat, d: TemplateData, copy: Passage -> string)
    requires k < |ps| && ps[k].Slot?
    ensures Contains(Render(ps, d, copy), Value(d, ps[k].field))
  {
    RenderContainsRun(ps, k, k + 1, d, copy);
    assert ps[k..k + 1] == [ps[k]];
    assert ps[k..k + 1][1..] == [];
  }

  /** `literal a, slot f, literal b` starting at position `i`. */
  predicate RunAt(ps: seq<Piece>, i: nat, a: string, f: Field, b: string) {
    i + 3 <= |ps| && ps[i] == Lit(a) && ps[i + 1] == Slot(f) && ps[i + 2] == Lit(b)
  }

  lemma RunAppears(ps: seq<Piece>, i: nat, a: string, f: Field, b: string, d: TemplateData, copy: Passage -> string)
    requires RunAt(ps, i, a, f, b)
    ensures Contains(Render(ps, d, copy), a + Value(d, f) + b)
  {
    RenderContainsRun(ps, i, i + 3, d, copy);
    assert ps[i..i + 3] == [Lit(a), Slot(f), Lit(b)];
    RenderAround(a, f, b, d, copy);
  }

  datatype Email = Email(subject: string, html: string, text: string)

  const HtmlHead: string :=
    "\n<!DOCTYPE html>\n<html lang=\"en\">\n<head>\n<meta charset=\"UTF-8\">\n"
    + "<meta name=\"viewport\" content=\"width=device-width, initial-scale=1.0\">\n"
  /** The style sheets are kept as opaque constants. */
  const VerificationStyle: string := "<style>/* verification layout */</style>\n"
  const ResendStyle: string := "<style>/* resend layout */</style>\n"

  const HrefOpen: string := "href=\""
  const AttrClose: string := "\""
  const TagClose: string := "\">"
  const ParaClose: string := "</p>"
  const Mailto: string := "href=\"mailto:"

  /** The fixed copy of the four bodies, in the order it appears. */
  datatype Passage =
    | VerifyHead | VerifyWelcome | VerifyThanks | VerifyEmailBox | VerifyButtonIntro | VerifyButtonTail
    | VerifyWarning | VerifyIgnore | VerifyContact | VerifyMailStyle | VerifySafeSender | VerifyEnd
    | VerifyTextWelcome | VerifyTextEmail | VerifyTextLink | VerifyTextExpiry | VerifyTextIgnore
    | VerifyTextSupport | VerifyTextSafeSender | VerifyTextEnd
    | ResendHead | ResendSubtitle | ResendGreeting | ResendEmailBox | ResendButtonIntro | ResendButtonTail
    | ResendIgnore | ResendContact | ResendMailStyle | ResendEnd
    | ResendTextHeading | ResendTextRequested | ResendTextEmail | ResendTextLink | ResendTextIgnore
    | ResendTextSupport

  function PassageText(c: Passage): string {
    match c
    case VerifyHead => HtmlHead + "<title>Verify your "
    case VerifyWelcome => " account</title>\n" + VerificationStyle
      + "</head>\n<body>\n<div class=\"container\">\n<div class=\"header\">\n<div class=\"logo\">\U{1F916}</div>\n"
      + "<h1 class=\"title\">Welcome to "
    case VerifyThanks => "!</h1>\n<p class=\"subtitle\">Please verify your email address to get started</p>\n</div>\n"
      + "<div class=\"content\">\n<p>Hi there!</p>\n<p>Thank you for signing up for "
    case VerifyEmailBox => ". To complete your registration and start using our AI chatbot, please verify your email address.</p>\n"
      + "<div class=\"email-box\">\n<p class=\"email-text\">"
    case VerifyButtonIntro => "</p>\n</div>\n<p>Click the button below to verify your email address:</p>\n<a "
    case VerifyButtonTail => " class=\"button\">Verify Email Address</a>\n"
      + "<p>If the button doesn't work, you can copy and paste this link into your browser:</p>\n"
      + "<p style=\"word-break: break-all; color: #3b82f6;"
    case VerifyWarning => "\n<div class=\"warning\">\n<div class=\"warning-title\">\U{26A0}\U{FE0F} Important:</div>\n"
      + "<p>This verification link will expire in 24 hours. If you don't verify your email within this time, "
      + "you'll need to request a new verification email.</p>\n</div>\n"
      + "<p>If you didn't create an account with "
    case VerifyIgnore => ", you can safely ignore this email.</p>\n</div>\n<div class=\"footer\">\n<p>This email was sent from "
    case VerifyContact => ")</p>\n<p>If you have any questions, please contact us at <a "
    case VerifyMailStyle => " style=\"color: #3b82f6;\">"
    case VerifySafeSender => "</a></p>\n<p style=\"margin-top: 20px; font-size: 12px; color: #9ca3af;\">\n"
      + "To ensure delivery, please add "
    case VerifyEnd => " to your address book or safe sender list.\n</p>\n</div>\n</div>\n</body>\n</html>\n"
    case VerifyTextWelcome => "\nWelcome to "
    case VerifyTextEmail => "!\n\nPlease verify your email address to complete your registration and start using our AI chatbot.\n\n"
      + "Your email: "
    case VerifyTextLink => "\n\nVerify your email by clicking this link:\n"
    case VerifyTextExpiry => "\n\nIf the link doesn't work, copy and paste it into your browser.\n\n"
      + "IMPORTANT: This verification link will expire in 24 hours.\n\n"
      + "If you didn't create an account with "
    case VerifyTextIgnore => ", you can safely ignore this email.\n\nThis email was sent from "
    case VerifyTextSupport => ")\nFor support, contact: "
    case VerifyTextSafeSender => "\n\nTo ensure delivery, please add "
    case VerifyTextEnd => " to your address book.\n"
    case ResendHead => HtmlHead + "<title>New verification email for "
    case ResendSubtitle => "</title>\n" + ResendStyle
      + "</head>\n<body>\n<div class=\"container\">\n<div class=\"header\">\n<div class=\"logo\">\U{1F4E7}</div>\n"
      + "<h1 class=\"title\">New Verification Email</h1>\n"
      + "<p class=\"subtitle\">Here's your new verification link for "
    case ResendGreeting => "</p>\n</div>\n<div class=\"content\">\n<p>Hi there!</p>\n"
      + "<p>You requested a new verification email for your "
    case ResendEmailBox => " account. Here's your new verification link:</p>\n<div class=\"email-box\">\n<p class=\"email-text\">"
    case ResendButtonIntro => "</p>\n</div>\n<p>Click the button below to verify your email address:</p>\n<a "
    case ResendButtonTail => " class=\"button\">Verify Email Address</a>\n"
      + "<p>If the button doesn't work, you can copy and paste this link into your browser:</p>\n"
      + "<p style=\"word-break: break-all; color: #059669;"
    case ResendIgnore => "\n<p>This new verification link will expire in 24 hours.</p>\n"
      + "<p>If you didn't request this email, you can safely ignore it.</p>\n</div>\n"
      + "<div class=\"footer\">\n<p>This email was sent from "
    case ResendContact => ")</p>\n<p>For support, contact: <a "
    case ResendMailStyle => " style=\"color: #059669;\">"
    case ResendEnd => "</a></p>\n</div>\n</div>\n</body>\n</html>\n"
    case ResendTextHeading => "\nNew Verification Email for "
    case ResendTextRequested => "\n\nYou requested a new verification email for your "
    case ResendTextEmail => " account. Here's your new verification link:\n\nYour email: "
    case ResendTextLink => "\n\nVerify your email by clicking this link:\n"
    case ResendTextIgnore => "\n\nIf the link doesn't work, copy and paste it into your browser.\n\n"
      + "This new verification link will expire in 24 hours.\n\n"
      + "If you didn't request this email, you can safely ignore it.\n\nThis email was sent from "
    case ResendTextSupport => ")\nFor support, contact: "
  }

  const VerificationSubject: seq<Piece> := [Lit("Verify your "), Slot(AppName), Lit(" account")]

  const VerificationHtml: seq<Piece> := [
    Fixed(VerifyHead), Slot(AppName), Fixed(VerifyWelcome), Slot(AppName),
    Fixed(VerifyThanks), Slot(AppName), Fixed(VerifyEmailBox), Slot(UserEmail),
    Fixed(VerifyButtonIntro), Lit(HrefOpen), Slot(VerificationUrl), Lit(AttrClose),
    Fixed(VerifyButtonTail), Lit(TagClose), Slot(VerificationUrl), Lit(ParaClose),
    Fixed(VerifyWarning), Slot(AppName), Fixed(VerifyIgnore),
    Slot(AppName), Lit(" ("), Slot(AppUrl), Fixed(VerifyContact),
    Lit(Mailto), Slot(SupportEmail), Lit(AttrClose), Fixed(VerifyMailStyle), Slot(SupportEmail),
    Fixed(VerifySafeSender), Slot(SupportEmail), Fixed(VerifyEnd)
  ]

  const VerificationText: seq<Piece> := [
    Fixed(VerifyTextWelcome), Slot(AppName), Fixed(VerifyTextEmail), Slot(UserEmail),
    Fixed(VerifyTextLink), Slot(VerificationUrl), Fixed(VerifyTextExpiry), Slot(AppName),
    Fixed(VerifyTextIgnore), Slot(AppName), Lit(" ("), Slot(AppUrl), Fixed(VerifyTextSupport), Slot(SupportEmail),
    Fixed(VerifyTextSafeSender), Slot(SupportEmail), Fixed(VerifyTextEnd)
  ]

  const ResendSubject: seq<Piece> := [Lit("New verification email for "), Slot(AppName), Lit("")]

  const ResendHtml: seq<Piece> := [
    Fixed(ResendHead), Slot(AppName), Fixed(ResendSubtitle), Slot(AppName),
    Fixed(ResendGreeting), Slot(AppName), Fixed(ResendEmailBox), Slot(UserEmail),
    Fixed(ResendButtonIntro), Lit(HrefOpen), Slot(VerificationUrl), Lit(AttrClose),
    Fixed(ResendButtonTail), Lit(TagClose), Slot(VerificationUrl), Lit(ParaClose),
    Fixed(ResendIgnore), Slot(AppName), Lit(" ("), Slot(AppUrl), Fixed(ResendContact),
    Lit(Mailto), Slot(SupportEmail), Lit(AttrClose), Fixed(ResendMailStyle), Slot(SupportEmail),
    Fixed(ResendEnd)
  ]

  const ResendText: seq<Piece> := [
    Fixed(ResendTextHeading), Slot(AppName), Fixed(ResendTextRequested), Slot(AppName),
    Fixed(ResendTextEmail), Slot(UserEmail), Fixed(ResendTextLink), Slot(VerificationUrl),
    Fixed(ResendTextIgnore), Slot(AppName), Lit(" ("), Slot(AppUrl), Fixed(ResendTextSupport), Slot(SupportEmail),
    Lit("\n")
  ]

  /** `generateVerificationEmailContent`. */
  function VerificationEmail(d: TemplateData): (e: Email)
    ensures e.subject == "Verify your " + d.appName + " account"
  {
    RenderAround("Verify your ", AppName, " account", d, PassageText);
    Email(Render(VerificationSubject, d, PassageText), Render(VerificationHtml, d, PassageText),
          Render(VerificationText, d, PassageText))
  }

  /** `generateResendVerificationEmailContent`. */
  function ResendEmail(d: TemplateData): (e: Email)
    ensures e.subject == "New verification email for " + d.appName
  {
    RenderAround("New verification email for ", AppName, "", d, PassageText);
    Email(Render(ResendSubject, d, PassageText), Render(ResendHtml, d, PassageText), Render(ResendText, d, PassageText))
  }

  /** What both e-mails promise about their inputs: the link appears as a link
      target and as visible text, the support address as a mailto target, and
      every one of the five inputs occurs verbatim in the HTML and in the
      plain-text body. */
  predicate CarriesInputs(e: Email, d: TemplateData) {
    && Contains(e.html, HrefOpen + d.verificationUrl + AttrClose)
    && Contains(e.html, TagClose + d.verificationUrl + ParaClose)
    && Contains(e.html, Mailto + d.supportEmail + AttrClose)
    && (forall f: Field :: Contains(e.html, Value(d, f)))
    && (forall f: Field :: Contains(e.text, Value(d, f)))
  }

  /** Each field has a slot in a template. */
  predicate HasAllSlots(ps: seq<Piece>) {
    && Slot(AppName) in ps && Slot(AppUrl) in ps && Slot(UserEmail) in ps
    && Slot(VerificationUrl) in ps && Slot(SupportEmail) in ps
  }

  lemma AllSlotsAppear(ps: seq<Piece>, d: TemplateData, copy: Passage -> string)
    requires HasAllSlots(ps)
    ensures forall f: Field :: Contains(Render(ps, d, copy), Value(d, f))
  {
    forall f: Field ensures Contains(Render(ps, d, copy), Value(d, f)) {
      assert Slot(f) in ps by {
        match f
        case AppName =>
        case AppUrl =>
        case UserEmail =>
        case VerificationUrl =>
        case SupportEmail =>
      }
      var k :| 0 <= k < |ps| && ps[k] == Slot(f);
      SlotAppears(ps, k, d, copy);
    }
  }

  /** The three links of an HTML body, each a run of literal, slot, literal. */
  predicate LinkRuns(ps: seq<Piece>, href: nat, visible: nat, mailto: nat) {
    && RunAt(ps, href, HrefOpen, VerificationUrl, AttrClose)
    && RunAt(ps, visible, TagClose, VerificationUrl, ParaClose)
    && RunAt(ps, mailto, Mailto, SupportEmail, AttrClose)
  }

  lemma HtmlCarriesInputs(ps: seq<Piece>, href: nat, visible: nat, mailto: nat, d: TemplateData, copy: Passage -> string)
    requires LinkRuns(ps, href, visible, mailto) && HasAllSlots(ps)
    ensures var html := Render(ps, d, copy);
      && Contains(html, HrefOpen + d.verificationUrl + AttrClose)
      && Contains(html, TagClose + d.verificationUrl + ParaClose)
      && Contains(html, Mailto + d.supportEmail + AttrClose)
      && forall f: Field :: Contains(html, Value(d, f))
  {
    RunAppears(ps, href, HrefOpen, VerificationUrl, AttrClose, d, copy);
    RunAppears(ps, visible, TagClose, VerificationUrl, ParaClose, d, copy);
    RunAppears(ps, mailto, Mailto, SupportEmail, AttrClose, d, copy);
    AllSlotsAppear(ps, d, copy);
  }

  lemma VerificationHtmlShape()
    ensures LinkRuns(VerificationHtml, 9, 13, 23) && HasAllSlots(VerificationHtml)
  {
    var h := VerificationHtml;
    assert h[1] == Slot(AppName) && h[7] == Slot(UserEmail) && h[10] == Slot(VerificationUrl);
    assert h[21] == Slot(AppUrl) && h[24] == Slot(SupportEmail);
  }

  lemma ResendHtmlShape()
    ensures LinkRuns(ResendHtml, 9, 13, 21) && HasAllSlots(ResendHtml)
  {
    var h := ResendHtml;
    assert h[1] == Slot(AppName) && h[7] == Slot(UserEmail) && h[10] == Slot(VerificationUrl);
    assert h[19] == Slot(AppUrl) && h[22] == Slot(SupportEmail);
  }

  lemma VerificationTextCarriesInputs(d: TemplateData)
    ensures forall f: Field :: Contains(Render(VerificationText, d, PassageText), Value(d, f))
  {
    var t := VerificationText;
    assert t[1] == Slot(AppName) && t[3] == Slot(UserEmail) && t[5] == Slot(VerificationUrl);
    assert t[11] == Slot(AppUrl) && t[13] == Slot(SupportEmail);
    AllSlotsAppear(t, d, PassageText);
  }

  lemma ResendTextCarriesInputs(d: TemplateData)
    ensures forall f: Field :: Contains(Render(ResendText, d, PassageText), Value(d, f))
  {
    var t := ResendText;
    assert t[1] == Slot(AppName) && t[5] == Slot(UserEmail) && t[7] == Slot(VerificationUrl);
    assert t[11] == Slot(AppUrl) && t[13] == Slot(SupportEmail);
    AllSlotsAppear(t, d, PassageText);
  }

  lemma VerificationEmailCarriesInputs(d: TemplateData)
    ensures CarriesInputs(VerificationEmail(d), d)
  {
    VerificationHtmlShape();
    HtmlCarriesInputs(VerificationHtml, 9, 13, 23, d, PassageText);
    VerificationTextCarriesInputs(d);
  }

  lemma ResendEmailCarriesInputs(d: TemplateData)
    ensures CarriesInputs(ResendEmail(d), d)
  {
    ResendHtmlShape();
    HtmlCarriesInputs(ResendHtml, 9, 13, 21, d, PassageText);
    ResendTextCarriesInputs(d);
  }
}
