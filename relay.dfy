/** The contact-mail relay endpoint: a stateless HTTP handler that answers a
    CORS preflight, rejects every method but POST, validates the three
    contact-form fields, composes a plain-text notification mail and hands it
    to an external mail provider, mapping the provider's verdict to a JSON
    response.

    The provider call is not executed here: its verdict is an input of the
    handler (`Delivery`), and the mail the handler would hand over is part of
    its result (`Outcome.attempted`), so "no mail is attempted" is a statement
    about that result. */
module ContactRelay {
  import opened Optional

  /** A field of the JSON request body; an absent or `null` field is None. */
  type Field = Option<string>

  datatype Request = Request(verb: string, name: Field, email: Field, message: Field)

  /** Which required fields were missing. */
  datatype Details = Details(name: bool, email: bool, message: bool)

  /** The JSON body of a response (or its absence). */
  datatype Body =
    | NoBody
    | Succeeded(success: bool)
    | Failure(message: string, error: Option<string>, details: Option<Details>)

  datatype Response = Response(status: nat, body: Body)

  /** The plain-text part of the outbound mail (the HTML part is a
      presentational template and is not modelled). `to` is the configured
      account, which may be unset. */
  datatype MailOptions = MailOptions(from: string, to: Option<string>, subject: string, text: string)

  /** What the provider threw: an `Error` object carries a message; any other
      thrown value does not. */
  datatype Thrown = ErrorObject(message: string) | OtherValue

  /** The provider's verdict on one `sendMail` call. */
  datatype Delivery = Delivered | Rejected(thrown: Thrown)

  /** The response, and the mail handed to the provider if the handler got
      that far. */
  datatype Outcome = Outcome(response: Response, attempted: Option<MailOptions>)

  const SubjectPrefix: string := "New message from "
  const NameLabel: string := "Name: "
  const EmailLabel: string := "\nEmail: "
  const MessageLabel: string := "\nMessage: "

  // ---------------------------------------------------------------------
  // Field presence: JavaScript's `!field`
  // ---------------------------------------------------------------------

  /** A string field is truthy when it is present and not empty. */
  predicate Truthy(f: Field)
    ensures !Truthy(f) <==> f == None || f == Some("")
  {
    f.Some? && f.value != ""
  }

  /** The negation of `!name || !email || !message`. */
  predicate AllPresent(req: Request)
    ensures AllPresent(req) ==> req.name.Some? && req.email.Some? && req.message.Some?
    ensures !AllPresent(req) <==> !Truthy(req.name) || !Truthy(req.email) || !Truthy(req.message)
  {
    Truthy(req.name) && Truthy(req.email) && Truthy(req.message)
  }

  // ---------------------------------------------------------------------
  // The email check
  // ---------------------------------------------------------------------

  /** The characters matched by `\s` in an ECMAScript regular expression:
      the ASCII controls TAB, LF, VT, FF, CR, the space, and the Unicode
      space separators, line and paragraph separators and the BOM. */
  predicate IsWhitespace(c: char) {
    var n := c as int;
    (0x09 <= n <= 0x0D) || n == 0x20 || n == 0xA0 || n == 0x1680 ||
    (0x2000 <= n <= 0x200A) || n == 0x2028 || n == 0x2029 || n == 0x202F ||
    n == 0x205F || n == 0x3000 || n == 0xFEFF
  }

  predicate NoWhitespace(s: string) {
    forall k :: 0 <= k < |s| ==> !IsWhitespace(s[k])
  }

  predicate NoAt(s: string) {
    forall k :: 0 <= k < |s| ==> s[k] != '@'
  }

  /** The index of the first '@' in `s`, or |s| when there is none. */
  function FirstAt(s: string): (k: nat)
    ensures k <= |s|
    ensures k < |s| ==> s[k] == '@'
    ensures NoAt(s[..k])
  {
    if s == [] then 0
    else if s[0] == '@' then 0
    else
      var k := 1 + FirstAt(s[1..]);
      assert s[..k] == [s[0]] + s[1..][..k - 1];
      k
  }

  /** `d` holds a '.' that is neither its first nor its last character. */
  predicate HasInnerDot(d: string) {
    exists k :: 0 < k < |d| - 1 && d[k] == '.'
  }

  /** The relay's email check: no whitespace, exactly one '@', something
      before it, and a domain after it with an inner '.'. */
  predicate IsEmailAddress(s: string)
    ensures IsEmailAddress(s) ==> 5 <= |s| && s[0] != '@' && s[|s| - 1] != '@'
  {
    var at := FirstAt(s);
    NoWhitespace(s) && 0 < at < |s| && NoAt(s[at + 1..]) && HasInnerDot(s[at + 1..])
  }

  /** A character of the class `[^\s@]`. */
  predicate TokenChar(c: char) {
    c != '@' && !IsWhitespace(c)
  }

  predicate AllToken(s: string) {
    forall k :: 0 <= k < |s| ==> TokenChar(s[k])
  }

  /** `s` splits as local '@' host '.' tld at indices i and j, each part a
      non-empty run of `[^\s@]`. */
  ghost predicate SplitsAt(s: string, i: int, j: int) {
    0 < i && i + 1 < j && j + 1 < |s| && s[i] == '@' && s[j] == '.' &&
    AllToken(s[..i]) && AllToken(s[i + 1..j]) && AllToken(s[j + 1..])
  }

  /** The regular expression `^[^\s@]+@[^\s@]+\.[^\s@]+$`, read literally. */
  ghost predicate MatchesEmailPattern(s: string)
    ensures MatchesEmailPattern(s) ==> 5 <= |s| && s[0] != '@' && s[|s| - 1] != '@'
  {
    exists i, j :: SplitsAt(s, i, j)
  }

  /** The relay's email check accepts exactly the strings the regular
      expression matches. */
  lemma EmailCheckMatchesPattern(s: string)
    ensures IsEmailAddress(s) <==> MatchesEmailPattern(s)
  {
    if IsEmailAddress(s) {
      var at := FirstAt(s);
      var d := s[at + 1..];
      var k :| 0 < k < |d| - 1 && d[k] == '.';
      var j := at + 1 + k;
      assert s[j] == d[k];
      assert s[at + 1..j] == d[..k];
      assert s[j + 1..] == d[k + 1..];
      assert AllToken(s[..at]) by {
        forall m | 0 <= m < at ensures TokenChar(s[..at][m]) {
          assert s[..at][m] == s[m];
        }
      }
      assert SplitsAt(s, at, j);
    }
    if MatchesEmailPattern(s) {
      var i, j :| SplitsAt(s, i, j);
      FirstAtIs(s, i);
      forall m | 0 <= m < |s| ensures !IsWhitespace(s[m]) {
        if m < i {
          assert s[m] == s[..i][m];
        } else if i < m < j {
          assert s[m] == s[i + 1..j][m - i - 1];
        } else if j < m {
          assert s[m] == s[j + 1..][m - j - 1];
        }
      }
      var d := s[i + 1..];
      forall m | 0 <= m < |d| ensures d[m] != '@' {
        if m < j - i - 1 {
          assert d[m] == s[i + 1..j][m];
        } else if m > j - i - 1 {
          assert d[m] == s[j + 1..][m - (j - i)];
        }
      }
      assert d[j - i - 1] == '.';
    }
  }

  /** The first '@' is at `i` when `s[i]` is one and none comes earlier. */
  lemma FirstAtIs(s: string, i: nat)
    requires i < |s| && s[i] == '@' && NoAt(s[..i])
    ensures FirstAt(s) == i
  {
  }

  // ---------------------------------------------------------------------
  // The outbound mail and the response to the provider's verdict
  // ---------------------------------------------------------------------

  /** How a possibly unset configuration value renders inside a template
      literal. */
  function Interpolated(v: Option<string>): (r: string)
    ensures v.Some? ==> r == v.value
    ensures v.None? ==> r == "undefined"
  {
    if v.Some? then v.value else "undefined"
  }

  /** The mail handed to the provider: sent from and to the configured
      account, with a subject naming the sender and a plain-text body made
      of three labelled segments holding name, email and message verbatim. */
  function ComposeMail(name: string, email: string, message: string, account: Option<string>): (m: MailOptions)
    ensures m.to == account
    ensures m.from == "\"Contact Form\" <" + Interpolated(account) + ">"
    ensures |m.subject| == |SubjectPrefix| + |name|
    ensures m.subject[..|SubjectPrefix|] == SubjectPrefix && m.subject[|SubjectPrefix|..] == name
    ensures var a := |NameLabel| + |name|;
      var b := a + |EmailLabel| + |email|;
      |m.text| == b + |MessageLabel| + |message| &&
      m.text[..a] == NameLabel + name &&
      m.text[a..b] == EmailLabel + email &&
      m.text[b..] == MessageLabel + message
  {
    var text := NameLabel + name + EmailLabel + email + MessageLabel + message;
    var a := |NameLabel| + |name|;
    var b := a + |EmailLabel| + |email|;
    assert text[..a] == NameLabel + name;
    assert text[a..b] == EmailLabel + email;
    assert text[b..] == MessageLabel + message;
    MailOptions("\"Contact Form\" <" + Interpolated(account) + ">", account, SubjectPrefix + name, text)
  }

  /** The error text reported for a provider failure. */
  function ErrorText(t: Thrown): (e: string)
    ensures t.ErrorObject? ==> e == t.message
    ensures t.OtherValue? ==> e == "Unknown error"
  {
    match t
    case ErrorObject(m) => m
    case OtherValue => "Unknown error"
  }

  /** The response to the provider's verdict: 200 with `success: true`
      exactly when it delivered, otherwise 500 with the provider's text. */
  function DeliveryResponse(d: Delivery): (r: Response)
    ensures r.status == 200 <==> d.Delivered?
    ensures d.Delivered? ==> r.body == Succeeded(true)
    ensures d.Rejected? ==> r.status == 500 && r.body == Failure("Error sending email", Some(ErrorText(d.thrown)), None)
  {
    match d
    case Delivered => Response(200, Succeeded(true))
    case Rejected(t) => Response(500, Failure("Error sending email", Some(ErrorText(t)), None))
  }

  // ---------------------------------------------------------------------
  // The handler
  // ---------------------------------------------------------------------

  /** The request handler: a cascade of early returns. `account` is the
      configured mail account (possibly unset); `delivery` is what the
      provider does with the mail, consulted only if the mail is handed
      over. */
  function Handle(req: Request, account: Option<string>, delivery: Delivery): (r: Outcome)
    ensures r.attempted.Some? <==>
              req.verb == "POST" && AllPresent(req) && IsEmailAddress(req.email.value)
    ensures r.response.status in {200, 400, 405, 500}
    ensures r.response.status == 500 ==> r.attempted.Some? && delivery.Rejected?
  {
    if req.verb == "OPTIONS" then
      Outcome(Response(200, NoBody), None)
    else if req.verb != "POST" then
      Outcome(Response(405, Failure("Method not allowed", None, None)), None)
    else if !Truthy(req.name) || !Truthy(req.email) || !Truthy(req.message) then
      var details := Details(!Truthy(req.name), !Truthy(req.email), !Truthy(req.message));
      Outcome(Response(400, Failure("Missing required fields", None, Some(details))), None)
    else if !IsEmailAddress(req.email.value) then
      Outcome(Response(400, Failure("Invalid email format", None, None)), None)
    else
      var mail := ComposeMail(req.name.value, req.email.value, req.message.value, account);
      Outcome(DeliveryResponse(delivery), Some(mail))
  }

  // ---------------------------------------------------------------------
  // Properties of the handler
  // ---------------------------------------------------------------------

  /** A preflight request is answered 200 with no body, whatever it carries
      and whatever the provider would do. */
  lemma PreflightAnsweredFirst(req: Request, account: Option<string>, delivery: Delivery)
    requires req.verb == "OPTIONS"
    ensures Handle(req, account, delivery) == Outcome(Response(200, NoBody), None)
  {
  }

  /** Every method but POST and OPTIONS is refused with 405 before any
      field is looked at. */
  lemma OtherMethodsRefused(req: Request, account: Option<string>, delivery: Delivery)
    requires req.verb != "OPTIONS" && req.verb != "POST"
    ensures Handle(req, account, delivery) ==
              Outcome(Response(405, Failure("Method not allowed", None, None)), None)
  {
  }

  /** A POST with a missing field gets 400 "Missing required fields" whose
      flags are exactly the missing fields. The conjunct about "Invalid
      email format" is implied by the message above it; it spells out that
      the presence check runs before the format check. */
  lemma MissingFieldsReported(req: Request, account: Option<string>, delivery: Delivery)
    requires req.verb == "POST" && !AllPresent(req)
    ensures var r := Handle(req, account, delivery);
      r.response.status == 400 && r.attempted.None? &&
      r.response.body.Failure? &&
      r.response.body.message == "Missing required fields" &&
      r.response.body.message != "Invalid email format" &&
      r.response.body.details.Some? &&
      (r.response.body.details.value.name <==> !Truthy(req.name)) &&
      (r.response.body.details.value.email <==> !Truthy(req.email)) &&
      (r.response.body.details.value.message <==> !Truthy(req.message))
  {
  }

  /** A POST with all fields present but a malformed email gets 400
      "Invalid email format" without details. */
  lemma MalformedEmailRejected(req: Request, account: Option<string>, delivery: Delivery)
    requires req.verb == "POST" && AllPresent(req) && !MatchesEmailPattern(req.email.value)
    ensures Handle(req, account, delivery) ==
              Outcome(Response(400, Failure("Invalid email format", None, None)), None)
  {
    EmailCheckMatchesPattern(req.email.value);
  }

  /** A well-formed POST hands over the composed mail, and the response
      follows the provider: 200 `success: true` on delivery, 500 with the
      provider's error text otherwise. */
  lemma WellFormedPostDelivers(req: Request, account: Option<string>, delivery: Delivery)
    requires req.verb == "POST" && AllPresent(req) && MatchesEmailPattern(req.email.value)
    ensures var r := Handle(req, account, delivery);
      r.attempted == Some(ComposeMail(req.name.value, req.email.value, req.message.value, account)) &&
      (delivery.Delivered? ==> r.response == Response(200, Succeeded(true))) &&
      (delivery.Rejected? ==>
         r.response == Response(500, Failure("Error sending email", Some(ErrorText(delivery.thrown)), None)))
  {
    EmailCheckMatchesPattern(req.email.value);
  }

  /** Two addresses the check accepts. */
  lemma EmailAccepted()
    ensures IsEmailAddress("a@b.c")
    ensures IsEmailAddress("ann@example.com")
  {
    FirstAtIs("a@b.c", 1);
    assert "a@b.c"[2..][1] == '.';
    FirstAtIs("ann@example.com", 3);
    assert "ann@example.com"[4..][7] == '.';
  }

  /** Strings the check refuses: no '.' in the domain, an empty local part,
      no '@', a space, two '@' and a leading '.' in a two-part domain. */
  lemma EmailRefused()
    ensures !IsEmailAddress("a@b")
    ensures !IsEmailAddress("@b.com")
    ensures !IsEmailAddress("no-at-sign")
    ensures !IsEmailAddress("a b@c.d")
    ensures !IsEmailAddress("a@b@c.d")
    ensures !IsEmailAddress("a@.b")
  {
    FirstAtIs("a@b", 1);
    FirstAtIs("@b.com", 0);
    assert FirstAt("no-at-sign") == 10 by { assert NoAt("no-at-sign"); }
    assert IsWhitespace("a b@c.d"[1]);
    FirstAtIs("a@b@c.d", 1);
    assert "a@b@c.d"[2..][1] == '@';
    FirstAtIs("a@.b", 1);
  }

  /** Four example requests: a good POST (name "Ann", email
      "ann@example.com", message "Hi") that is delivered, the same POST with
      an empty name, the good POST rejected by the provider with "SMTP
      timeout", and a GET. */
  lemma SubmissionExamples(account: Option<string>)
    ensures Handle(Request("POST", Some("Ann"), Some("ann@example.com"), Some("Hi")), account, Delivered).response
              == Response(200, Succeeded(true))
    ensures Handle(Request("POST", Some(""), Some("ann@example.com"), Some("Hi")), account, Delivered).response
              == Response(400, Failure("Missing required fields", None, Some(Details(true, false, false))))
    ensures Handle(Request("POST", Some("Ann"), Some("ann@example.com"), Some("Hi")), account,
                   Rejected(ErrorObject("SMTP timeout"))).response
              == Response(500, Failure("Error sending email", Some("SMTP timeout"), None))
    ensures Handle(Request("GET", None, None, None), account, Delivered).response
              == Response(405, Failure("Method not allowed", None, None))
  {
    EmailAccepted();
  }
}
