/**
 * The contact-form endpoint (app/api/contact/route.ts): `POST` checks the
 * server configuration, the required fields and the e-mail format, builds the
 * mail payload and hands it to the mail service; `GET` reports which settings
 * are present. The mail service's answer is an input.
 */
module ContactRoute {
  import opened Wrappers

  /** The four environment settings the endpoint reads. */
  datatype ServerEnv = ServerEnv(
    mjApiKeyPublic: Option<string>,
    mjApiKeyPrivate: Option<string>,
    fromEmail: Option<string>,
    toEmail: Option<string>)

  /** A JavaScript truthy string: present and non-empty. */
  predicate IsSet(v: Option<string>) {
    v.Some? && v.value != ""
  }

  /** The fields of the JSON request body; `None` is a missing or `null` field. */
  datatype ContactRequest = ContactRequest(name: Option<string>, email: Option<string>, message: Option<string>)

  datatype ResponseBody = MessageBody(message: string) | Submitted
  datatype Response = Response(status: int, body: ResponseBody)

  /** The one message of the mail-service request. */
  datatype MailMessage = MailMessage(
    fromEmail: string,
    fromName: string,
    to: seq<string>,
    subject: string,
    textPart: string,
    htmlPart: string,
    replyTo: string)

  /** What the awaited send did: resolved, or threw. */
  datatype SendOutcome = Delivered | Threw

  /** The response, and the payload handed to the mail service if the handler got that far. */
  datatype PostResult = PostResult(response: Response, attempted: Option<MailMessage>)

  // ---------------------------------------------------------------------------
  // The e-mail format `/^[^\s@]+@[^\s@]+\.[^\s@]+$/`

  /** JavaScript's `\s`: the ECMAScript white-space and line-terminator characters. */
  predicate IsWhitespace(c: char) {
    c == '\t' || c == '\n' || c == '\U{0B}' || c == '\U{0C}' || c == '\r' || c == ' '
    || c == '\U{A0}' || c == '\U{1680}' || ('\U{2000}' <= c <= '\U{200A}')
    || c == '\U{2028}' || c == '\U{2029}' || c == '\U{202F}' || c == '\U{205F}'
    || c == '\U{3000}' || c == '\U{FEFF}'
  }

  /** The class `[^\s@]`. */
  predicate IsAddressChar(c: char) {
    !IsWhitespace(c) && c != '@'
  }

  predicate AllAddressChars(s: string) {
    forall k :: 0 <= k < |s| ==> IsAddressChar(s[k])
  }

  /** `s` splits as `local @ domain . tld` at the `@` index `i` and the `.` index `j`, each part matching `[^\s@]+`. */
  predicate SplitsAt(s: string, i: int, j: int) {
    0 < i && i + 1 < j && j + 1 < |s|
    && s[i] == '@' && s[j] == '.'
    && AllAddressChars(s[..i]) && AllAddressChars(s[i + 1..j]) && AllAddressChars(s[j + 1..])
  }

  /** The language of the regular expression. */
  ghost predicate MatchesEmailPattern(s: string) {
    exists i, j :: SplitsAt(s, i, j)
  }

  /** The index of the first `c` in `s`. */
  function FirstIndexOf(s: string, c: char): (r: Option<nat>)
    ensures r.Some? ==> r.value < |s| && s[r.value] == c && c !in s[..r.value]
    ensures r.None? ==> c !in s
    decreases |s|
  {
    if s == [] then None
    else if s[0] == c then Some(0)
    else match FirstIndexOf(s[1..], c)
      case Some(k) => assert s[..k + 1] == [s[0]] + s[1..][..k]; Some(k + 1)
      case None => assert s == [s[0]] + s[1..]; None
  }

  /** `emailRegex.test(email)`: the local part runs to the first `@`; the domain holds a `.` with text on both sides. */
  predicate IsValidEmail(s: string): (valid: bool)
    ensures valid ==> |s| >= 5 && IsAddressChar(s[0]) && IsAddressChar(s[|s| - 1])
  {
    var at := FirstIndexOf(s, '@');
    if at.None? || at.value == 0 then false
    else
      var local := s[..at.value];
      var domain := s[at.value + 1..];
      assert local[0] == s[0];
      assert domain != [] ==> domain[|domain| - 1] == s[|s| - 1];
      && AllAddressChars(local)
      && AllAddressChars(domain)
      && |domain| >= 3 && '.' in domain[1..|domain| - 1]
  }

  /** The check agrees with the regular expression on every string. */
  lemma IsValidEmailMatchesPattern(s: string)
    ensures IsValidEmail(s) <==> MatchesEmailPattern(s)
  {
    if IsValidEmail(s) {
      var i := FirstIndexOf(s, '@').value;
      var domain := s[i + 1..];
      var k :| 0 <= k < |domain[1..|domain| - 1]| && domain[1..|domain| - 1][k] == '.';
      var j := i + 2 + k;
      assert s[j] == '.';
      assert s[i + 1..j] == domain[..k + 1];
      assert s[j + 1..] == domain[k + 2..];
      assert SplitsAt(s, i, j);
    }
    if MatchesEmailPattern(s) {
      var i, j :| SplitsAt(s, i, j);
      assert '@' !in s[..i];
      var at := FirstIndexOf(s, '@');
      assert at == Some(i);
      var domain := s[i + 1..];
      assert domain == s[i + 1..j] + ['.'] + s[j + 1..];
      forall k | 0 <= k < |domain|
        ensures IsAddressChar(domain[k])
      {
        if k < j - i - 1 {
          assert domain[k] == s[i + 1..j][k];
        } else if k > j - i - 1 {
          assert domain[k] == s[j + 1..][k - (j - i)];
        }
      }
      assert domain[1..|domain| - 1][j - i - 2] == '.';
    }
  }

  /** Every accepted address has exactly one `@`, no white space, and non-empty parts around it. */
  lemma ValidEmailShape(s: string)
    requires IsValidEmail(s)
    ensures exists i :: (0 < i < |s| - 1 && s[i] == '@'
      && (forall k :: 0 <= k < |s| && k != i ==> s[k] != '@'))
    ensures forall k :: 0 <= k < |s| ==> !IsWhitespace(s[k])
  {
    var i := FirstIndexOf(s, '@').value;
    var domain := s[i + 1..];
    forall k | 0 <= k < |s|
      ensures !IsWhitespace(s[k]) && (k != i ==> s[k] != '@')
    {
      if k < i {
        assert s[k] == s[..i][k];
      } else if k > i {
        assert s[k] == domain[k - i - 1];
      }
    }
  }

  /** Addresses the format accepts: a dot in the domain, and more than one. */
  lemma AcceptedEmailExamples()
    ensures IsValidEmail("a@b.c")
    ensures IsValidEmail("a@b.c.d")
  {
    IsValidEmailMatchesPattern("a@b.c");
    assert SplitsAt("a@b.c", 1, 3);
    IsValidEmailMatchesPattern("a@b.c.d");
    assert SplitsAt("a@b.c.d", 1, 3);
  }

  /** Addresses the format rejects: an empty part, a second `@`, white space. */
  lemma RejectedEmailExamples()
    ensures !IsValidEmail("a@b.")
    ensures !IsValidEmail("@b.c")
    ensures !IsValidEmail("a@@b.c")
    ensures !IsValidEmail("a b@c.d")
  {
    assert FirstIndexOf("a@@b.c", '@') == Some(1);
    assert "a@@b.c"[2..][0] == '@';
    assert "a b@c.d"[..3][1] == ' ';
  }

  // ---------------------------------------------------------------------------
  // The mail payload

  /** `message.replace(/\n/g, '<br>')`. */
  function NewlinesToBr(m: string): (r: string)
    ensures '\n' !in r
    ensures '\n' !in m ==> r == m
    decreases |m|
  {
    if m == [] then []
    else if m[0] == '\n' then "<br>" + NewlinesToBr(m[1..])
    else [m[0]] + NewlinesToBr(m[1..])
  }

  /** The number of line breaks in `m`. */
  function CountNewlines(m: string): nat
    decreases |m|
  {
    if m == [] then 0 else (if m[0] == '\n' then 1 else 0) + CountNewlines(m[1..])
  }

  /** The result is three characters longer per line break. */
  lemma {:induction false} NewlinesToBrLength(m: string)
    ensures |NewlinesToBr(m)| == |m| + 3 * CountNewlines(m)
    decreases |m|
  {
    if m != [] {
      NewlinesToBrLength(m[1..]);
    }
  }

  /** Converting a concatenation converts each part. */
  lemma {:induction false} NewlinesToBrAppend(a: string, b: string)
    ensures NewlinesToBr(a + b) == NewlinesToBr(a) + NewlinesToBr(b)
    decreases |a|
  {
    if a == [] {
      assert a + b == b;
    } else {
      assert (a + b)[0] == a[0] && (a + b)[1..] == a[1..] + b;
      NewlinesToBrAppend(a[1..], b);
      var head := if a[0] == '\n' then "<br>" else [a[0]];
      calc {
        NewlinesToBr(a + b);
        head + NewlinesToBr(a[1..] + b);
        head + (NewlinesToBr(a[1..]) + NewlinesToBr(b));
        (head + NewlinesToBr(a[1..])) + NewlinesToBr(b);
      }
    }
  }

  /** A line break becomes `<br>`; every other character is kept. */
  lemma NewlinesToBrChar(c: char)
    ensures NewlinesToBr([c]) == if c == '\n' then "<br>" else [c]
  {
  }

  /** The subject line: a fixed lead followed by the sender's name. */
  function Subject(name: string): (subject: string)
    ensures |subject| == |name| + 18 && subject[18..] == name
    ensures subject[..18] == "New Contact Form: "
  {
    "New Contact Form: " + name
  }

  /** The plain-text body: a greeting naming the sender, then the message verbatim. */
  function TextPart(name: string, email: string, message: string): (text: string)
    ensures |text| >= 6 && text[..6] == "Hello,"
    ensures |text| >= |message| && text[|text| - |message|..] == message
  {
    var greeting := "Hello,";
    var intro := greeting + "\n\nYou have a new form entry from: " + name + " <" + email + ">.\n\n";
    var text := intro + message;
    assert text[..6] == intro[..6] == greeting;
    assert text[|intro|..] == message;
    text
  }

  /** The HTML prefix before the message section. */
  function HtmlHead(name: string, email: string): (head: string)
    ensures |head| >= 4 && head[..4] == "<h3>" && head[|head| - 3..] == "<p>"
  {
    var open := "<h3>";
    var body := "New Contact Form Submission</h3>\n<p><strong>From:</strong> " + name + " &lt;" + email
      + "&gt;</p>\n<p><strong>Message:</strong></p>\n";
    var head := open + body + "<p>";
    assert head[..4] == open;
    assert head[|head| - 3..] == "<p>";
    head
  }

  /** The HTML body: the message section is the message with its line breaks as `<br>`. */
  function HtmlPart(name: string, email: string, message: string): (html: string)
    ensures html == HtmlHead(name, email) + NewlinesToBr(message) + "</p>"
    ensures '\n' !in html[|HtmlHead(name, email)|..|html| - 4]
  {
    var html := HtmlHead(name, email) + NewlinesToBr(message) + "</p>";
    assert html[|HtmlHead(name, email)|..|html| - 4] == NewlinesToBr(message);
    html
  }

  /** The mail-service message built from the configured addresses and the form. */
  function BuildMessage(fromEmail: string, toEmail: string, name: string, email: string, message: string)
    : (m: MailMessage)
    ensures m.fromEmail == fromEmail && m.to == [toEmail]
    ensures m.subject == "New Contact Form: " + name
    ensures m.replyTo == email
    ensures m.fromName == "Plusplus Contact Form"
    ensures m.textPart == TextPart(name, email, message)
    ensures m.htmlPart == HtmlPart(name, email, message)
  {
    MailMessage(fromEmail, "Plusplus Contact Form", [toEmail], Subject(name),
                TextPart(name, email, message), HtmlPart(name, email, message), email)
  }

  // ---------------------------------------------------------------------------
  // The handlers

  const ConfigError: Response := Response(500, MessageBody("Server configuration error"))
  const SendFailed: Response := Response(500, MessageBody("Failed to send email"))
  const MissingFields: Response := Response(400, MessageBody("Missing required fields"))
  const InvalidEmail: Response := Response(400, MessageBody("Invalid email address"))
  const Accepted: Response := Response(200, Submitted)

  /** Both Mailjet keys and both addresses are set. */
  predicate IsConfigured(env: ServerEnv): (configured: bool)
    ensures configured <==> Get(env).environment == EnvironmentReport("Set", "Set", "Set", "Set")
  {
    IsSet(env.mjApiKeyPublic) && IsSet(env.mjApiKeyPrivate) && IsSet(env.fromEmail) && IsSet(env.toEmail)
  }

  /** The request passes every check the handler makes before sending. */
  predicate IsAcceptable(req: ContactRequest) {
    IsSet(req.name) && IsSet(req.email) && IsSet(req.message) && IsValidEmail(req.email.value)
  }

  /**
   * `POST(request)`. `body` is `None` when `request.json()` throws; `outcome`
   * is what the mail service does with the payload.
   */
  function Post(env: ServerEnv, body: Option<ContactRequest>, outcome: SendOutcome): (r: PostResult)
    // a payload goes out exactly when configuration, body and fields all pass
    ensures r.attempted.Some? <==> IsConfigured(env) && body.Some? && IsAcceptable(body.value)
    ensures r.attempted.Some? ==>
      r.attempted.value == BuildMessage(env.fromEmail.value, env.toEmail.value,
                                        body.value.name.value, body.value.email.value, body.value.message.value)
    // success is reported only for a payload the service accepted
    ensures r.response.status == 200 <==> r.attempted.Some? && outcome == Delivered
    ensures r.response.status == 200 ==> r.response == Accepted
    ensures !IsConfigured(env) ==> r.response == ConfigError
    ensures IsConfigured(env) && body.None? ==> r.response == SendFailed
    ensures IsConfigured(env) && body.Some? && r.attempted.None? ==>
      r.response == (if IsSet(body.value.name) && IsSet(body.value.email) && IsSet(body.value.message)
                     then InvalidEmail else MissingFields)
    ensures r.attempted.Some? && outcome == Threw ==> r.response == SendFailed
  {
    if !IsSet(env.mjApiKeyPublic) || !IsSet(env.mjApiKeyPrivate) then PostResult(ConfigError, None)
    else if !IsSet(env.fromEmail) || !IsSet(env.toEmail) then PostResult(ConfigError, None)
    else if body.None? then PostResult(SendFailed, None)
    else
      var req := body.value;
      if !IsSet(req.name) || !IsSet(req.email) || !IsSet(req.message) then PostResult(MissingFields, None)
      else if !IsValidEmail(req.email.value) then PostResult(InvalidEmail, None)
      else
        var m := BuildMessage(env.fromEmail.value, env.toEmail.value,
                              req.name.value, req.email.value, req.message.value);
        match outcome
        case Delivered => PostResult(Accepted, Some(m))
        case Threw => PostResult(SendFailed, Some(m))
  }

  /** The configuration check comes first: without it the body is never looked at. */
  lemma ConfigCheckPrecedesBody(env: ServerEnv, b1: Option<ContactRequest>, b2: Option<ContactRequest>,
                                o1: SendOutcome, o2: SendOutcome)
    requires !IsConfigured(env)
    ensures Post(env, b1, o1) == Post(env, b2, o2)
  {
  }

  /** A missing field is reported as such even when the e-mail is malformed too. */
  lemma RequiredFieldsCheckedBeforeFormat(env: ServerEnv, email: string, message: Option<string>, o: SendOutcome)
    requires IsConfigured(env)
    ensures Post(env, Some(ContactRequest(None, Some(email), message)), o).response == MissingFields
    ensures Post(env, Some(ContactRequest(Some(""), Some(email), message)), o).response == MissingFields
  {
  }

  /** The environment report of `GET`. */
  datatype EnvironmentReport = EnvironmentReport(mjPublic: string, mjPrivate: string, fromEmail: string, toEmail: string)
  datatype StatusReport = StatusReport(status: string, message: string, environment: EnvironmentReport)

  function SetOrNot(v: Option<string>): (r: string)
    ensures r == "Set" <==> IsSet(v)
    ensures r == "Set" || r == "Not set"
  {
    if IsSet(v) then "Set" else "Not set"
  }

  /** `GET()`: reports each setting as `Set` exactly when it is present and non-empty, never its value. */
  function Get(env: ServerEnv): (r: StatusReport)
    ensures r.status == "online" && r.message == "Contact API is working"
    ensures r.environment.mjPublic == "Set" <==> IsSet(env.mjApiKeyPublic)
    ensures r.environment.mjPrivate == "Set" <==> IsSet(env.mjApiKeyPrivate)
    ensures r.environment.fromEmail == "Set" <==> IsSet(env.fromEmail)
    ensures r.environment.toEmail == "Set" <==> IsSet(env.toEmail)
    ensures var e := r.environment;
      forall v :: v in [e.mjPublic, e.mjPrivate, e.fromEmail, e.toEmail] ==> v == "Set" || v == "Not set"
  {
    StatusReport("online", "Contact API is working",
                 EnvironmentReport(SetOrNot(env.mjApiKeyPublic), SetOrNot(env.mjApiKeyPrivate),
                                   SetOrNot(env.fromEmail), SetOrNot(env.toEmail)))
  }
}
