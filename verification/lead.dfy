// The lead-intake endpoint (`POST /api/lead`) as a pure function: the
// environment, the request and the outcomes of the three outside services
// go in; the HTTP response and the calls made, in order, come out.

module Lead {
  import opened Wrappers
  import opened Text

  /** A JavaScript value read from the environment or the JSON body, as far
      as the handler looks at it: missing (`undefined`) or a string. */
  type Value = Option<string>

  /** Truthiness: present and not the empty string. */
  predicate Truthy(v: Value) {
    v.Some? && v.value != ""
  }

  /** `a || b` on such values. */
  function Or(a: Value, b: Value): (r: Value)
    ensures Truthy(a) ==> r == a
    ensures !Truthy(a) ==> r == b
  {
    if Truthy(a) then a else b
  }

  /** `v || fallback` with a string fallback. */
  function OrElse(v: Value, fallback: string): (r: string)
    ensures Truthy(v) ==> r == v.value
    ensures !Truthy(v) ==> r == fallback
  {
    if Truthy(v) then v.value else fallback
  }

  /** `${v}` in a template literal: a missing value prints as "undefined". */
  function Interp(v: Value): string {
    if v.Some? then v.value else "undefined"
  }

  /** The environment variables the handler reads. */
  datatype Config = Config(
    turnstileSecret: Value,
    sendgridKey: Value,
    sendgridTo: Value,
    sendgridFrom: Value,
    webhookUrl: Value)

  /** The fields destructured from the JSON body. */
  datatype LeadFields = LeadFields(
    name: Value, email: Value, phone: Value, company: Value, service: Value,
    timeline: Value, message: Value, details: Value, turnstileToken: Value)

  /** The body: not JSON at all, the JSON `null` (destructuring it throws),
      or an object (a JSON primitive reads as an object with no fields). */
  datatype Body = Malformed | NullBody | Fields(fields: LeadFields)

  datatype Request = Request(body: Body, forwardedFor: Value, realIp: Value)

  /** What the verification service does: answers with JSON whose `success`
      is or is not `true`, or fails (network error, non-JSON answer). */
  datatype VerifyOutcome = Answered(successIsTrue: bool) | VerifyFailed
  datatype EmailOutcome = EmailSent | EmailThrew
  datatype WebhookOutcome = WebhookDelivered | WebhookThrew

  datatype Outcomes = Outcomes(verify: VerifyOutcome, email: EmailOutcome, webhook: WebhookOutcome)

  /** The message handed to the mail service. Its text and HTML bodies are
      rendered from the lead by `EmailText` and `EmailHtml`. */
  datatype Email = Email(to: string, from: string, subject: string, lead: LeadFields)

  /** The webhook's JSON payload; `JSON.stringify` leaves out the missing
      name, email and phone. */
  datatype Payload = Payload(
    name: Value, email: Value, phone: Value, company: string, projectType: string,
    timeline: string, details: string, timestamp: string)

  /** An outside call, with what was sent. */
  datatype Call =
    | VerifyCall(secret: string, token: string, ip: string)
    | EmailCall(email: Email)
    | WebhookCall(url: string, payload: Payload)

  datatype ResponseBody = ErrorBody(error: string) | SuccessBody
  datatype Response = Response(status: nat, body: ResponseBody)

  const TokenRequired := "Turnstile token is required"
  const VerificationFailed := "Turnstile verification failed"
  const SubmitFailed := "Failed to submit lead"
  const DefaultSender := "noreply@1031exchangedenver.com"
  const SubjectPrefix := "New 1031 Exchange Lead: "
  const NotSpecified := "Not specified"
  const ProjectTypeLabel := "Project Type: "

  /** `verifyTurnstile`: accepted without a secret; otherwise accepted
      only when the service answered with `success === true`. */
  function VerifyTurnstile(secret: Value, outcome: VerifyOutcome): (r: bool)
    ensures !Truthy(secret) ==> r
    ensures Truthy(secret) ==> (r <==> outcome == Answered(true))
  {
    if !Truthy(secret) then true
    else match outcome
      case Answered(ok) => ok
      case VerifyFailed => false
  }

  /** The client address: `x-forwarded-for`, else `x-real-ip`, else "". */
  function ClientIp(req: Request): (r: string)
    ensures Truthy(req.forwardedFor) ==> r == req.forwardedFor.value
    ensures !Truthy(req.forwardedFor) && Truthy(req.realIp) ==> r == req.realIp.value
    ensures r == "" <==> !Truthy(req.forwardedFor) && !Truthy(req.realIp)
  {
    OrElse(Or(req.forwardedFor, req.realIp), "")
  }

  /** `details || message`. */
  function DetailsOrMessage(f: LeadFields): Value {
    Or(f.details, f.message)
  }

  /** The "Project Type" line of the text email: the service when it is
      given, "Not specified" when it is missing or empty. */
  function ProjectTypeLine(service: Value): (r: string)
    ensures Truthy(service) ==> r == ProjectTypeLabel + service.value
    ensures !Truthy(service) ==> r == ProjectTypeLabel + NotSpecified
  {
    ProjectTypeLabel + OrElse(service, NotSpecified)
  }

  const Title := "New 1031 Exchange Lead\n\n"

  /** The company line: the company when it is given, empty otherwise. */
  function CompanyLine(f: LeadFields): string {
    if Truthy(f.company) then "Company: " + f.company.value else ""
  }

  /** The contact lines of the text email, from the name to the phone. */
  function ContactLines(f: LeadFields): string {
    "Name: " + Interp(f.name) + "\n" + CompanyLine(f) + "\nEmail: " + Interp(f.email) + "\nPhone: " + Interp(f.phone)
  }

  /** The text email before the project-type line. */
  function TextHead(f: LeadFields): string {
    "\n" + Title + ContactLines(f) + "\n"
  }

  /** The timeline line: the timeline when it is given, empty otherwise. */
  function TimelineLine(f: LeadFields): string {
    if Truthy(f.timeline) then "Timeline: " + f.timeline.value else ""
  }

  /** The details block: `details || message` under a heading, when there
      is one. */
  function DetailsBlock(f: LeadFields): string {
    if Truthy(DetailsOrMessage(f)) then "Details:\n" + DetailsOrMessage(f).value else ""
  }

  /** The text email after the project-type line. */
  function TextTail(f: LeadFields): string {
    "\n" + TimelineLine(f) + "\n\n" + DetailsBlock(f) + "\n    "
  }

  /** `emailContent`: the template, trimmed. */
  function EmailText(f: LeadFields): (r: string)
    ensures IsTrimmed(r)
  {
    Trim(TextHead(f) + ProjectTypeLine(f.service) + TextTail(f))
  }

  /** `s.replace(/\n/g, "<br>")`. */
  function BreakLines(s: string): (r: string)
    ensures '\n' !in r
  {
    if s == [] then []
    else (if s[0] == '\n' then "<br>" else [s[0]]) + BreakLines(s[1..])
  }

  /** Characters other than line breaks pass through in order: dropping the
      `<br>` markers' positions, the text is unchanged. */
  lemma {:induction false} BreakLinesKeepsPlainText(s: string)
    requires '\n' !in s
    ensures BreakLines(s) == s
  {
    if s != [] {
      BreakLinesKeepsPlainText(s[1..]);
      assert s == [s[0]] + s[1..];
    }
  }

  /** Each line break becomes the four characters of `<br>`. */
  lemma {:induction false} BreakLinesLength(s: string)
    ensures |BreakLines(s)| == |s| + 3 * multiset(s)['\n']
  {
    if s != [] {
      BreakLinesLength(s[1..]);
      assert s == [s[0]] + s[1..];
      assert multiset(s) == multiset{s[0]} + multiset(s[1..]);
    }
  }

  /** One `<p><strong>name:</strong> value</p>` paragraph. */
  function Para(name: string, v: string): string {
    "<p><strong>" + name + ":</strong> " + v + "</p>"
  }

  const HtmlIndent := "\n      "

  /** Each line preceded by the template's line break and indentation. */
  function Indented(lines: seq<string>): string {
    if lines == [] then "" else HtmlIndent + lines[0] + Indented(lines[1..])
  }

  /** Every line of the list shows, indented, in the joined text. */
  lemma {:induction false} IndentedShowsLine(lines: seq<string>, i: int)
    requires 0 <= i < |lines|
    ensures Contains(Indented(lines), HtmlIndent + lines[i])
  {
    var rest := Indented(lines[1..]);
    if i == 0 {
      assert OccursAt(Indented(lines), HtmlIndent + lines[0], 0);
    } else {
      IndentedShowsLine(lines[1..], i - 1);
      ContainsInTail(HtmlIndent + lines[0], rest, HtmlIndent + lines[i]);
    }
  }

  /** The lines of `emailHtml`: the heading, then one paragraph per field,
      where the company, timeline and details paragraphs are empty when
      the field is not given. The details keep their line breaks as
      `<br>`. */
  function HtmlLines(f: LeadFields): (r: seq<string>)
    ensures |r| == 8
    ensures r[1] == Para("Name", Interp(f.name))
    ensures r[2] == (if Truthy(f.company) then Para("Company", f.company.value) else "")
    ensures r[3] == Para("Email", Interp(f.email)) && r[4] == Para("Phone", Interp(f.phone))
    ensures r[5] == Para("Project Type", OrElse(f.service, NotSpecified))
    ensures Truthy(f.timeline) <==> r[6] != ""
    ensures Truthy(f.timeline) ==> r[6] == Para("Timeline", f.timeline.value)
    ensures Truthy(DetailsOrMessage(f)) <==> r[7] != ""
    ensures Truthy(DetailsOrMessage(f)) ==>
      r[7] == "<p><strong>Details:</strong></p><p>" + BreakLines(DetailsOrMessage(f).value) + "</p>"
  {
    ["<h2>New 1031 Exchange Lead</h2>",
     Para("Name", Interp(f.name)),
     if Truthy(f.company) then Para("Company", f.company.value) else "",
     Para("Email", Interp(f.email)),
     Para("Phone", Interp(f.phone)),
     Para("Project Type", OrElse(f.service, NotSpecified)),
     if Truthy(f.timeline) then Para("Timeline", f.timeline.value) else "",
     if Truthy(DetailsOrMessage(f))
     then "<p><strong>Details:</strong></p><p>" + BreakLines(OrElse(DetailsOrMessage(f), "")) + "</p>"
     else ""]
  }

  /** `emailHtml`: the lines, indented, then the closing indentation. */
  function EmailHtml(f: LeadFields): string {
    Indented(HtmlLines(f)) + "\n    "
  }

  /** The HTML email shows every paragraph of the lead: name, email,
      phone and project type always, the company, timeline and details
      when they are given. */
  lemma EmailHtmlShowsFields(f: LeadFields)
    ensures forall i | 0 <= i < 8 :: Contains(EmailHtml(f), HtmlIndent + HtmlLines(f)[i])
    ensures Contains(EmailHtml(f), Para("Project Type", OrElse(f.service, NotSpecified)))
    ensures Truthy(f.company) ==> Contains(EmailHtml(f), Para("Company", f.company.value))
    ensures Truthy(f.timeline) ==> Contains(EmailHtml(f), Para("Timeline", f.timeline.value))
    ensures Truthy(DetailsOrMessage(f)) ==>
      Contains(EmailHtml(f), "<p><strong>Details:</strong></p><p>" + BreakLines(DetailsOrMessage(f).value) + "</p>")
  {
    var lines := HtmlLines(f);
    var body := Indented(lines);
    assert EmailHtml(f) == [] + body + "\n    ";
    ContainsMiddle([], body, "\n    ");
    forall i | 0 <= i < 8
      ensures Contains(EmailHtml(f), HtmlIndent + lines[i])
      ensures Contains(EmailHtml(f), lines[i])
    {
      IndentedShowsLine(lines, i);
      ContainsTransitive(EmailHtml(f), body, HtmlIndent + lines[i]);
      ContainsMiddle(HtmlIndent, lines[i], []);
      assert HtmlIndent + lines[i] + [] == HtmlIndent + lines[i];
      ContainsTransitive(EmailHtml(f), HtmlIndent + lines[i], lines[i]);
    }
  }

  /** The message for a lead: to the configured inbox, from the configured
      sender or the default one, with the lead's name in the subject. */
  function BuildEmail(cfg: Config, f: LeadFields): (r: Email)
    requires Truthy(cfg.sendgridTo)
    ensures r.to == cfg.sendgridTo.value
    ensures r.from == OrElse(cfg.sendgridFrom, DefaultSender)
    ensures r.subject == SubjectPrefix + Interp(f.name)
    ensures r.lead == f
  {
    Email(cfg.sendgridTo.value, OrElse(cfg.sendgridFrom, DefaultSender), SubjectPrefix + Interp(f.name), f)
  }

  /** The webhook payload: missing optional fields become "", the project
      type is the `service` field and the details prefer `details` over
      `message`. */
  function BuildPayload(f: LeadFields, timestamp: string): (r: Payload)
    ensures r.name == f.name && r.email == f.email && r.phone == f.phone
    ensures r.company == OrElse(f.company, "")
    ensures r.projectType == OrElse(f.service, "")
    ensures r.timeline == OrElse(f.timeline, "")
    ensures Truthy(f.details) ==> r.details == f.details.value
    ensures !Truthy(f.details) ==> r.details == OrElse(f.message, "")
  {
    Payload(f.name, f.email, f.phone, OrElse(f.company, ""), OrElse(f.service, ""),
      OrElse(f.timeline, ""), OrElse(DetailsOrMessage(f), ""), timestamp)
  }

  predicate EmailConfigured(cfg: Config) {
    Truthy(cfg.sendgridKey) && Truthy(cfg.sendgridTo)
  }

  /** The part after the spam gate: send the email when configured (an
      exception escapes to the outer handler), post to the webhook when
      configured (an exception is logged and dropped), answer success. */
  function Deliver(cfg: Config, f: LeadFields, out: Outcomes, timestamp: string): (r: (Response, seq<Call>))
    ensures r.0.status == 200 <==> !(EmailConfigured(cfg) && out.email == EmailThrew)
    ensures r.0.status == 200 ==> r.0.body == SuccessBody
    ensures r.0.status != 200 ==> r.0 == Response(500, ErrorBody(SubmitFailed))
    ensures |r.1| == (if EmailConfigured(cfg) then 1 else 0)
                   + (if r.0.status == 200 && Truthy(cfg.webhookUrl) then 1 else 0)
    ensures EmailConfigured(cfg) ==> r.1[0] == EmailCall(BuildEmail(cfg, f))
    ensures r.0.status == 200 && Truthy(cfg.webhookUrl) ==>
      r.1[|r.1| - 1] == WebhookCall(cfg.webhookUrl.value, BuildPayload(f, timestamp))
  {
    var emailCalls := if EmailConfigured(cfg) then [EmailCall(BuildEmail(cfg, f))] else [];
    if EmailConfigured(cfg) && out.email == EmailThrew then
      (Response(500, ErrorBody(SubmitFailed)), emailCalls)
    else
      var webhookCalls := if Truthy(cfg.webhookUrl) then [WebhookCall(cfg.webhookUrl.value, BuildPayload(f, timestamp))] else [];
      (Response(200, SuccessBody), emailCalls + webhookCalls)
  }

  /** `POST`: the response and the outside calls made, in order. The
      timestamp is the clock reading the payload carries. */
  function Post(cfg: Config, req: Request, out: Outcomes, timestamp: string): (r: (Response, seq<Call>))
    ensures r.0.status in {200, 400, 500}
    ensures r.0.status == 200 <==> r.0.body == SuccessBody
  {
    match req.body
    case Malformed => (Response(500, ErrorBody(SubmitFailed)), [])
    case NullBody => (Response(500, ErrorBody(SubmitFailed)), [])
    case Fields(f) =>
      if Truthy(cfg.turnstileSecret) then
        if !Truthy(f.turnstileToken) then
          (Response(400, ErrorBody(TokenRequired)), [])
        else
          var check := VerifyCall(cfg.turnstileSecret.value, f.turnstileToken.value, ClientIp(req));
          if !VerifyTurnstile(cfg.turnstileSecret, out.verify) then
            (Response(400, ErrorBody(VerificationFailed)), [check])
          else
            var d := Deliver(cfg, f, out, timestamp);
            (d.0, [check] + d.1)
      else
        Deliver(cfg, f, out, timestamp)
  }

  /** The order calls are made in. */
  function Rank(c: Call): nat {
    match c
    case VerifyCall(_, _, _) => 0
    case EmailCall(_) => 1
    case WebhookCall(_, _) => 2
  }

  /** Verification, then email, then webhook, each at most once. */
  predicate InOrder(calls: seq<Call>) {
    forall i, j | 0 <= i < j < |calls| :: Rank(calls[i]) < Rank(calls[j])
  }

  /** The request passes the spam gate: no secret, or a token that the
      service accepts. */
  predicate PassesGate(cfg: Config, f: LeadFields, out: Outcomes) {
    !Truthy(cfg.turnstileSecret) || (Truthy(f.turnstileToken) && out.verify == Answered(true))
  }

  /** After the gate: email before webhook, and no verification. */
  lemma DeliverInOrder(cfg: Config, f: LeadFields, out: Outcomes, timestamp: string)
    ensures InOrder(Deliver(cfg, f, out, timestamp).1)
    ensures forall c | c in Deliver(cfg, f, out, timestamp).1 :: Rank(c) > 0
  {
  }

  /** The calls are always made in the gate, email, webhook order. */
  lemma CallsInOrder(cfg: Config, req: Request, out: Outcomes, timestamp: string)
    ensures InOrder(Post(cfg, req, out, timestamp).1)
  {
    if req.body.Fields? {
      var f := req.body.fields;
      DeliverInOrder(cfg, f, out, timestamp);
      if Truthy(cfg.turnstileSecret) && Truthy(f.turnstileToken) && VerifyTurnstile(cfg.turnstileSecret, out.verify) {
        var check := VerifyCall(cfg.turnstileSecret.value, f.turnstileToken.value, ClientIp(req));
        var d := Deliver(cfg, f, out, timestamp).1;
        var calls := [check] + d;
        assert Post(cfg, req, out, timestamp).1 == calls;
        forall i, j | 0 <= i < j < |calls|
          ensures Rank(calls[i]) < Rank(calls[j])
        {
          assert calls[j] == d[j - 1];
          assert calls[j] in d;
          if i > 0 {
            assert calls[i] == d[i - 1];
          }
        }
      }
    }
  }

  /** A body that is not JSON, or is `null`, gives 500 without any call. */
  lemma BadBodyFails(cfg: Config, req: Request, out: Outcomes, timestamp: string)
    requires req.body.Malformed? || req.body.NullBody?
    ensures Post(cfg, req, out, timestamp) == (Response(500, ErrorBody(SubmitFailed)), [])
  {
  }

  /** Without a secret the gate is skipped: no verification call and never
      a 400, whatever the token. */
  lemma NoSecretSkipsGate(cfg: Config, req: Request, out: Outcomes, timestamp: string)
    requires !Truthy(cfg.turnstileSecret)
    ensures Post(cfg, req, out, timestamp).0.status != 400
    ensures forall c | c in Post(cfg, req, out, timestamp).1 :: !c.VerifyCall?
  {
  }

  /** With a secret, a missing or empty token is refused before any call. */
  lemma MissingTokenRefused(cfg: Config, f: LeadFields, fwd: Value, realIp: Value, out: Outcomes, timestamp: string)
    requires Truthy(cfg.turnstileSecret) && !Truthy(f.turnstileToken)
    ensures Post(cfg, Request(Fields(f), fwd, realIp), out, timestamp) == (Response(400, ErrorBody(TokenRequired)), [])
  {
  }

  /** With a secret and a token that the service does not accept, the
      only call is the verification itself. */
  lemma FailedVerificationRefused(cfg: Config, f: LeadFields, fwd: Value, realIp: Value, out: Outcomes, timestamp: string)
    requires Truthy(cfg.turnstileSecret) && Truthy(f.turnstileToken) && out.verify != Answered(true)
    ensures var r := Post(cfg, Request(Fields(f), fwd, realIp), out, timestamp);
      && r.0 == Response(400, ErrorBody(VerificationFailed))
      && r.1 == [VerifyCall(cfg.turnstileSecret.value, f.turnstileToken.value, OrElse(Or(fwd, realIp), ""))]
  {
  }

  /** A failed email send gives 500, and the webhook is never called. */
  lemma EmailFailureStopsWebhook(cfg: Config, f: LeadFields, fwd: Value, realIp: Value, out: Outcomes, timestamp: string)
    requires PassesGate(cfg, f, out) && EmailConfigured(cfg) && out.email == EmailThrew
    ensures var r := Post(cfg, Request(Fields(f), fwd, realIp), out, timestamp);
      && r.0 == Response(500, ErrorBody(SubmitFailed))
      && (forall c | c in r.1 :: !c.WebhookCall?)
      && EmailCall(BuildEmail(cfg, f)) in r.1
  {
  }

  /** A webhook failure is swallowed: the response and the calls are the
      same as when it succeeds. */
  lemma WebhookFailureSwallowed(cfg: Config, req: Request, out: Outcomes, timestamp: string)
    ensures Post(cfg, req, out.(webhook := WebhookThrew), timestamp)
         == Post(cfg, req, out.(webhook := WebhookDelivered), timestamp)
  {
  }

  /** Success exactly when the body is an object, the gate passes and the
      email (when configured) is sent. */
  lemma SuccessIff(cfg: Config, req: Request, out: Outcomes, timestamp: string)
    ensures Post(cfg, req, out, timestamp).0.status == 200 <==>
      && req.body.Fields?
      && PassesGate(cfg, req.body.fields, out)
      && !(EmailConfigured(cfg) && out.email == EmailThrew)
  {
  }

  /** On success the email went out exactly when it is configured and the
      webhook was called exactly when its URL is set. */
  lemma SuccessCalls(cfg: Config, f: LeadFields, fwd: Value, realIp: Value, out: Outcomes, timestamp: string)
    requires Post(cfg, Request(Fields(f), fwd, realIp), out, timestamp).0.status == 200
    ensures var calls := Post(cfg, Request(Fields(f), fwd, realIp), out, timestamp).1;
      && ((exists c | c in calls :: c.EmailCall?) <==> EmailConfigured(cfg))
      && ((exists c | c in calls :: c.WebhookCall?) <==> Truthy(cfg.webhookUrl))
      && ((exists c | c in calls :: c.VerifyCall?) <==> Truthy(cfg.turnstileSecret))
  {
    var req := Request(Fields(f), fwd, realIp);
    var calls := Post(cfg, req, out, timestamp).1;
    var d := Deliver(cfg, f, out, timestamp).1;
    if EmailConfigured(cfg) {
      assert EmailCall(BuildEmail(cfg, f)) in d;
    }
    if Truthy(cfg.webhookUrl) {
      assert WebhookCall(cfg.webhookUrl.value, BuildPayload(f, timestamp)) in d;
    }
    DeliverInOrder(cfg, f, out, timestamp);
    if Truthy(cfg.turnstileSecret) {
      var check := VerifyCall(cfg.turnstileSecret.value, f.turnstileToken.value, ClientIp(req));
      assert calls == [check] + d;
      assert check in calls;
      forall c | c in d ensures c in calls { }
    } else {
      assert calls == d;
    }
  }

  /** The text email shows "Not specified" for a missing or empty
      service, and the service itself otherwise, unless it ends in white
      space that the final trim can reach. */
  lemma EmailShowsProjectType(f: LeadFields)
    ensures var v := OrElse(f.service, NotSpecified);
      !IsJsSpace(v[|v| - 1]) ==> Contains(EmailText(f), ProjectTypeLabel + v)
    ensures !Truthy(f.service) ==> Contains(EmailText(f), ProjectTypeLabel + NotSpecified)
  {
    var v := OrElse(f.service, NotSpecified);
    var b := ProjectTypeLine(f.service);
    if !IsJsSpace(v[|v| - 1]) {
      TrimKeepsInner(TextHead(f), b, TextTail(f));
    }
    if !Truthy(f.service) {
      assert NotSpecified[|NotSpecified| - 1] == 'd';
    }
  }

  /** The title and the contact lines, up to the project-type label, are
      never touched by the final trim. */
  lemma EmailKeepsHead(f: LeadFields)
    ensures Contains(EmailText(f), Title + ContactLines(f) + "\nProject Type:")
  {
    var v := OrElse(f.service, NotSpecified);
    var mid := Title + ContactLines(f) + "\nProject Type:";
    var rest := " " + v + TextTail(f);
    HeadRegroup(ContactLines(f), v, TextTail(f));
    assert ProjectTypeLine(f.service) == ProjectTypeLabel + v;
    TrimKeepsInner("\n", mid, rest);
  }

  lemma HeadRegroup(c: string, v: string, t: string)
    ensures var mid := Title + c + "\nProject Type:";
      && ("\n" + Title + c + "\n") + (ProjectTypeLabel + v) + t == "\n" + mid + (" " + v + t)
      && mid != [] && mid[0] == 'N' && mid[|mid| - 1] == ':'
  {
    assert ProjectTypeLabel == "Project Type:" + " ";
  }

  /** The head of the text email: the title and name line, then the
      company line only when a company is given (an empty line otherwise),
      then the email and phone lines. */
  lemma EmailShowsContact(f: LeadFields)
    ensures Contains(EmailText(f), Title + "Name: " + Interp(f.name) + "\n")
    ensures Truthy(f.company) ==>
      Contains(EmailText(f), "\nCompany: " + f.company.value + "\nEmail: " + Interp(f.email) + "\nPhone: ")
    ensures !Truthy(f.company) ==>
      Contains(EmailText(f), "Name: " + Interp(f.name) + "\n\nEmail: " + Interp(f.email) + "\nPhone: ")
    ensures Contains(EmailText(f), "\nPhone: " + Interp(f.phone) + "\nProject Type:")
  {
    var n, e, p := Interp(f.name), Interp(f.email), Interp(f.phone);
    var head := Title + ContactLines(f) + "\nProject Type:";
    EmailKeepsHead(f);
    var company := if Truthy(f.company) then f.company.value else "";
    assert CompanyLine(f) == if Truthy(f.company) then "Company: " + company else "";
    assert head == Head(n, CompanyLine(f), e, p);
    HeadSplitName(n, CompanyLine(f), e, p);
    HeadSplitPhone(n, CompanyLine(f), e, p);
    var needle := Title + "Name: " + n + "\n";
    ContainsMiddle([], needle, CompanyLine(f) + "\nEmail: " + e + "\nPhone: " + p + "\nProject Type:");
    ContainsTransitive(EmailText(f), head, needle);
    needle := "\nPhone: " + p + "\nProject Type:";
    ContainsMiddle(Title + "Name: " + n + "\n" + CompanyLine(f) + "\nEmail: " + e, needle, []);
    ContainsTransitive(EmailText(f), head, needle);
    if Truthy(f.company) {
      HeadSplitCompany(n, company, e, p);
      needle := "\nCompany: " + company + "\nEmail: " + e + "\nPhone: ";
      ContainsMiddle(Title + "Name: " + n, needle, p + "\nProject Type:");
      ContainsTransitive(EmailText(f), head, needle);
    } else {
      HeadSplitNoCompany(n, e, p);
      needle := "Name: " + n + "\n\nEmail: " + e + "\nPhone: ";
      ContainsMiddle(Title, needle, p + "\nProject Type:");
      ContainsTransitive(EmailText(f), head, needle);
    }
  }

  /** The head as it is written: the title, the contact lines and the
      project-type label. */
  function Head(n: string, cl: string, e: string, p: string): string {
    Title + ("Name: " + n + "\n" + cl + "\nEmail: " + e + "\nPhone: " + p) + "\nProject Type:"
  }

  /** The regroupings of the head that the lemma above needs, one per
      needle: each is associativity of concatenation. */
  lemma HeadSplitName(n: string, cl: string, e: string, p: string)
    ensures Head(n, cl, e, p) == [] + (Title + "Name: " + n + "\n") + (cl + "\nEmail: " + e + "\nPhone: " + p + "\nProject Type:")
  {
  }

  lemma HeadSplitPhone(n: string, cl: string, e: string, p: string)
    ensures Head(n, cl, e, p) == (Title + "Name: " + n + "\n" + cl + "\nEmail: " + e) + ("\nPhone: " + p + "\nProject Type:") + []
  {
  }

  lemma HeadSplitCompany(n: string, company: string, e: string, p: string)
    ensures Head(n, "Company: " + company, e, p)
         == (Title + "Name: " + n) + ("\nCompany: " + company + "\nEmail: " + e + "\nPhone: ") + (p + "\nProject Type:")
  {
    assert "\nCompany: " == "\n" + "Company: ";
  }

  lemma HeadSplitNoCompany(n: string, e: string, p: string)
    ensures Head(n, "", e, p) == Title + ("Name: " + n + "\n\nEmail: " + e + "\nPhone: ") + (p + "\nProject Type:")
  {
    assert "\n\nEmail: " == "\n" + "\nEmail: ";
  }

  /** The trimmed text email when it has a details block that ends in a
      visible character. */
  function WithDetails(c: string, ptl: string, tl: string, d: string): string {
    Title + c + "\n" + ptl + "\n" + tl + "\n\nDetails:\n" + d
  }

  lemma EmailTextWithDetails(f: LeadFields)
    requires Truthy(DetailsOrMessage(f))
    requires var d := DetailsOrMessage(f).value; !IsJsSpace(d[|d| - 1])
    ensures EmailText(f)
         == WithDetails(ContactLines(f), ProjectTypeLine(f.service), TimelineLine(f), DetailsOrMessage(f).value)
  {
    var d := DetailsOrMessage(f).value;
    var c, ptl, tl := ContactLines(f), ProjectTypeLine(f.service), TimelineLine(f);
    TailSplitDetails(c, ptl, tl, d);
    assert DetailsBlock(f) == "Details:\n" + d;
    TrimFramed("\n", WithDetails(c, ptl, tl, d), "\n    ");
  }

  /** With details (or, failing them, a message) the text email ends with
      the "Details:" block; the timeline line before it is filled in only
      when a timeline is given. A trailing space of the details themselves
      would be trimmed, hence the last-character condition. */
  lemma EmailShowsDetails(f: LeadFields)
    requires Truthy(DetailsOrMessage(f))
    ensures var d := DetailsOrMessage(f).value;
      !IsJsSpace(d[|d| - 1]) ==> EndsWith(EmailText(f), "\n\nDetails:\n" + d)
    ensures var d := DetailsOrMessage(f).value;
      !IsJsSpace(d[|d| - 1]) && Truthy(f.timeline) ==>
        Contains(EmailText(f), "\nTimeline: " + f.timeline.value + "\n\nDetails:\n")
    ensures var d := DetailsOrMessage(f).value;
      !IsJsSpace(d[|d| - 1]) && !Truthy(f.timeline) ==>
        Contains(EmailText(f), ProjectTypeLabel + OrElse(f.service, NotSpecified) + "\n\n\nDetails:\n")
  {
    var d := DetailsOrMessage(f).value;
    if !IsJsSpace(d[|d| - 1]) {
      var c, ptl, tl := ContactLines(f), ProjectTypeLine(f.service), TimelineLine(f);
      EmailTextWithDetails(f);
      DetailsClose(c, ptl, tl, d);
      if Truthy(f.timeline) {
        DetailsAfterTimeline(c, ptl, f.timeline.value, d);
      } else {
        DetailsAfterProjectType(c, OrElse(f.service, NotSpecified), d);
      }
    }
  }

  lemma TailSplitDetails(c: string, ptl: string, tl: string, d: string)
    requires d != []
    ensures ("\n" + Title + c + "\n") + ptl + ("\n" + tl + "\n\n" + ("Details:\n" + d) + "\n    ")
         == "\n" + WithDetails(c, ptl, tl, d) + "\n    "
    ensures var x := WithDetails(c, ptl, tl, d);
      x[0] == 'N' && x[|x| - 1] == d[|d| - 1]
  {
    assert "\n\nDetails:\n" == "\n\n" + "Details:\n";
  }

  lemma DetailsClose(c: string, ptl: string, tl: string, d: string)
    ensures EndsWith(WithDetails(c, ptl, tl, d), "\n\nDetails:\n" + d)
  {
    var x := WithDetails(c, ptl, tl, d);
    assert x == (Title + c + "\n" + ptl + "\n" + tl) + ("\n\nDetails:\n" + d);
  }

  lemma DetailsAfterTimeline(c: string, ptl: string, t: string, d: string)
    ensures Contains(WithDetails(c, ptl, "Timeline: " + t, d), "\nTimeline: " + t + "\n\nDetails:\n")
  {
    assert "\nTimeline: " == "\n" + "Timeline: ";
    assert WithDetails(c, ptl, "Timeline: " + t, d)
        == (Title + c + "\n" + ptl) + ("\nTimeline: " + t + "\n\nDetails:\n") + d;
    ContainsMiddle(Title + c + "\n" + ptl, "\nTimeline: " + t + "\n\nDetails:\n", d);
  }

  lemma DetailsAfterProjectType(c: string, v: string, d: string)
    ensures Contains(WithDetails(c, ProjectTypeLabel + v, "", d), ProjectTypeLabel + v + "\n\n\nDetails:\n")
  {
    assert "\n\n\nDetails:\n" == "\n" + "\n\nDetails:\n";
    assert WithDetails(c, ProjectTypeLabel + v, "", d)
        == (Title + c + "\n") + (ProjectTypeLabel + v + "\n\n\nDetails:\n") + d;
    ContainsMiddle(Title + c + "\n", ProjectTypeLabel + v + "\n\n\nDetails:\n", d);
  }

  /** The trimmed text email when its last line is the timeline. */
  function WithTimeline(c: string, ptl: string, t: string): string {
    Title + c + "\n" + ptl + "\nTimeline: " + t
  }

  /** The trimmed text email when its last line is the project type. */
  function WithProjectType(c: string, v: string): string {
    Title + c + "\n" + ProjectTypeLabel + v
  }

  lemma EmailTextWithTimeline(f: LeadFields)
    requires !Truthy(DetailsOrMessage(f)) && Truthy(f.timeline)
    requires var t := f.timeline.value; !IsJsSpace(t[|t| - 1])
    ensures EmailText(f) == WithTimeline(ContactLines(f), ProjectTypeLine(f.service), f.timeline.value)
  {
    var c, ptl, t := ContactLines(f), ProjectTypeLine(f.service), f.timeline.value;
    assert DetailsBlock(f) == "" && TimelineLine(f) == "Timeline: " + t;
    TailSplitTimeline(c, ptl, t);
    TrimFramed("\n", WithTimeline(c, ptl, t), "\n\n" + "" + "\n    ");
  }

  lemma TailSplitTimeline(c: string, ptl: string, t: string)
    requires t != []
    ensures ("\n" + Title + c + "\n") + ptl + ("\n" + ("Timeline: " + t) + "\n\n" + "" + "\n    ")
         == "\n" + WithTimeline(c, ptl, t) + ("\n\n" + "" + "\n    ")
    ensures var x := WithTimeline(c, ptl, t);
      x[0] == 'N' && x[|x| - 1] == t[|t| - 1]
  {
    assert "\nTimeline: " == "\n" + "Timeline: ";
  }

  lemma EmailTextWithProjectType(f: LeadFields)
    requires !Truthy(DetailsOrMessage(f)) && !Truthy(f.timeline)
    requires var v := OrElse(f.service, NotSpecified); !IsJsSpace(v[|v| - 1])
    ensures EmailText(f) == WithProjectType(ContactLines(f), OrElse(f.service, NotSpecified))
  {
    var c, v := ContactLines(f), OrElse(f.service, NotSpecified);
    assert DetailsBlock(f) == "" && TimelineLine(f) == "";
    assert ProjectTypeLine(f.service) == ProjectTypeLabel + v;
    TailSplitProjectType(c, v);
    TrimFramed("\n", WithProjectType(c, v), "\n" + "" + "\n\n" + "" + "\n    ");
  }

  lemma TailSplitProjectType(c: string, v: string)
    requires v != []
    ensures ("\n" + Title + c + "\n") + (ProjectTypeLabel + v) + ("\n" + "" + "\n\n" + "" + "\n    ")
         == "\n" + WithProjectType(c, v) + ("\n" + "" + "\n\n" + "" + "\n    ")
    ensures var x := WithProjectType(c, v);
      x[0] == 'N' && x[|x| - 1] == v[|v| - 1]
  {
  }

  /** Without details or message there is no "Details:" block: the text
      email ends with the timeline line when a timeline is given (unless
      the timeline itself ends in white space, which the trim removes). */
  lemma EmailEndsWithTimeline(f: LeadFields)
    ensures var t := OrElse(f.timeline, "");
      !Truthy(DetailsOrMessage(f)) && Truthy(f.timeline) && !IsJsSpace(t[|t| - 1]) ==>
        EndsWith(EmailText(f), "\nTimeline: " + t)
  {
    var t := OrElse(f.timeline, "");
    if !Truthy(DetailsOrMessage(f)) && Truthy(f.timeline) && !IsJsSpace(t[|t| - 1]) {
      var c, ptl := ContactLines(f), ProjectTypeLine(f.service);
      EmailTextWithTimeline(f);
      TimelineClose(c, ptl, t);
    }
  }

  lemma TimelineClose(c: string, ptl: string, t: string)
    ensures EndsWith(WithTimeline(c, ptl, t), "\nTimeline: " + t)
  {
    assert WithTimeline(c, ptl, t) == (Title + c + "\n" + ptl) + ("\nTimeline: " + t);
    EndsWithLast(Title + c + "\n" + ptl, "\nTimeline: " + t);
  }

  /** With neither details, message nor timeline, the text email ends with
      the project-type line (unless the service ends in white space). */
  lemma EmailEndsWithProjectType(f: LeadFields)
    ensures var v := OrElse(f.service, NotSpecified);
      !Truthy(DetailsOrMessage(f)) && !Truthy(f.timeline) && !IsJsSpace(v[|v| - 1]) ==>
        EndsWith(EmailText(f), "\n" + ProjectTypeLabel + v)
  {
    var v := OrElse(f.service, NotSpecified);
    if !Truthy(DetailsOrMessage(f)) && !Truthy(f.timeline) && !IsJsSpace(v[|v| - 1]) {
      var c := ContactLines(f);
      EmailTextWithProjectType(f);
      ProjectTypeClose(c, v);
    }
  }

  lemma ProjectTypeClose(c: string, v: string)
    ensures EndsWith(WithProjectType(c, v), "\n" + ProjectTypeLabel + v)
  {
    assert WithProjectType(c, v) == (Title + c) + ("\n" + ProjectTypeLabel + v);
    EndsWithLast(Title + c, "\n" + ProjectTypeLabel + v);
  }
}
