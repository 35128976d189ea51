/** src/services/contactService.ts: the four field validators of the contact
    form and `submitContactForm`, which validates, builds the `contact`
    envelope and interprets the response. */
module ContactService {
  import opened Wrappers
  import opened Json
  import opened Text
  import opened Patterns
  import opened Http
  import Query

  datatype ValidationResult = ValidationResult(isValid: bool, message: string)

  datatype ContactFormData = ContactFormData(name: string, email: string, phone: string, message: string)

  /** What the submit reads from `window.location`: the full `href` and the
      decoded `search` parameters. */
  datatype PageLocation = PageLocation(href: string, search: Query.Query)

  datatype SubmitResult = SubmitResult(success: bool, message: string)

  /** The result of `submitContactForm` and the request it sent, if any. */
  datatype Submission = Submission(result: SubmitResult, request: Option<Envelope>)

  const Valid := ValidationResult(true, "")

  const NAME_REQUIRED := "Full name is required"
  const NAME_TOO_SHORT := "Name must be at least 2 characters long"
  const NAME_CHARS := "Name can only contain letters, spaces, hyphens and apostrophes"
  const EMAIL_REQUIRED := "Email is required"
  const EMAIL_INVALID := "Please enter a valid email address"
  const PHONE_REQUIRED := "Phone number is required"
  const PHONE_INVALID := "Please enter a valid 10-digit phone number"
  const MESSAGE_REQUIRED := "Message is required"
  const MESSAGE_TOO_SHORT := "Message must be at least 10 characters long"
  const FIX_ERRORS := "Please fix validation errors before submitting"
  const SUBMIT_FAILED := "Failed to submit contact form"
  const THANK_YOU := "Thank you for your message. We will contact you soon!"

  /** The five attribution keys the submit copies from the page query. */
  const UTM_KEYS: seq<string> := ["utm_source", "utm_medium", "utm_campaign", "utm_term", "utm_content"]

  /** `validateName`: blank, then too short after trimming, then a character
      outside letters, white space, `'` and `-`. The length is JavaScript's,
      in UTF-16 code units. */
  function ValidateName(name: string): (r: ValidationResult)
    ensures r.isValid <==> Utf16Length(Trim(name)) >= 2 && (forall k :: 0 <= k < |name| ==> NameChar(name[k]))
    ensures r.isValid ==> r == Valid
    ensures AllSpace(name) ==> r.message == NAME_REQUIRED
    ensures !AllSpace(name) && Utf16Length(Trim(name)) < 2 ==> r.message == NAME_TOO_SHORT
    ensures Utf16Length(Trim(name)) >= 2 && !r.isValid ==> r.message == NAME_CHARS
  {
    TrimEmptyIff(name);
    if Trim(name) == [] then ValidationResult(false, NAME_REQUIRED)
    else if Utf16Length(Trim(name)) < 2 then ValidationResult(false, NAME_TOO_SHORT)
    else if !NamePattern(name) then ValidationResult(false, NAME_CHARS)
    else Valid
  }

  /** `validateEmail`: blank, then the email regular expression. A blank input
      never matches, so validity is the regular expression alone. */
  function ValidateEmail(email: string): (r: ValidationResult)
    ensures r.isValid <==> EmailRegex(email)
    ensures r.isValid ==> r == Valid
    ensures AllSpace(email) ==> r.message == EMAIL_REQUIRED
    ensures !AllSpace(email) && !r.isValid ==> r.message == EMAIL_INVALID
  {
    TrimEmptyIff(email);
    EmailIff(email);
    if Trim(email) == [] then ValidationResult(false, EMAIL_REQUIRED)
    else if !IsEmail(email) then ValidationResult(false, EMAIL_INVALID)
    else Valid
  }

  /** Blank text has no digits. */
  lemma {:induction false} BlankHasNoDigits(s: string)
    ensures AllSpace(s) ==> DigitsOf(s) == []
    decreases |s|
  {
    if s != [] && AllSpace(s) {
      assert !IsDigit(s[0]);
      assert AllSpace(s[1..]) by {
        assert forall k :: 0 <= k < |s| - 1 ==> s[1..][k] == s[k + 1];
      }
      BlankHasNoDigits(s[1..]);
    }
  }

  /** `validatePhone`: blank, then exactly ten digits once every non-digit is
      removed. A blank input has no digits, so validity is the digit count alone. */
  function ValidatePhone(phone: string): (r: ValidationResult)
    ensures r.isValid <==> |DigitsOf(phone)| == 10
    ensures r.isValid ==> r == Valid
    ensures AllSpace(phone) ==> r.message == PHONE_REQUIRED
    ensures !AllSpace(phone) && !r.isValid ==> r.message == PHONE_INVALID
  {
    TrimEmptyIff(phone);
    BlankHasNoDigits(phone);
    if Trim(phone) == [] then ValidationResult(false, PHONE_REQUIRED)
    else if |DigitsOf(phone)| != 10 then ValidationResult(false, PHONE_INVALID)
    else Valid
  }

  /** `validateMessage`: blank, then fewer than ten UTF-16 code units after
      trimming. */
  function ValidateMessage(message: string): (r: ValidationResult)
    ensures r.isValid <==> Utf16Length(Trim(message)) >= 10
    ensures r.isValid ==> r == Valid
    ensures AllSpace(message) ==> r.message == MESSAGE_REQUIRED
    ensures !AllSpace(message) && !r.isValid ==> r.message == MESSAGE_TOO_SHORT
  {
    TrimEmptyIff(message);
    if Trim(message) == [] then ValidationResult(false, MESSAGE_REQUIRED)
    else if Utf16Length(Trim(message)) < 10 then ValidationResult(false, MESSAGE_TOO_SHORT)
    else Valid
  }

  /** A string of characters outside the Basic Multilingual Plane (none of
      which is white space) is its own trim and is two UTF-16 code units per
      character long. */
  lemma AstralTrim(s: string)
    requires forall k :: 0 <= k < |s| ==> Utf16Units(s[k]) == 2
    ensures Trim(s) == s && Utf16Length(s) == 2 * |s|
  {
    forall k | 0 <= k < |s|
      ensures !IsSpace(s[k])
    {
      AstralNotNameChar(s[k]);
    }
    TrimNoSpace(s);
    Utf16LengthAstral(s);
  }

  /** Five or more such characters make a valid message, though five of them
      are fewer than ten characters. */
  lemma Utf16MessageLength(message: string)
    requires |message| >= 5 && forall k :: 0 <= k < |message| ==> Utf16Units(message[k]) == 2
    ensures ValidateMessage(message).isValid
  {
    AstralTrim(message);
  }

  /** A name made of such characters passes the length rule even when it is
      one character long, and fails the character rule. */
  lemma Utf16NameLength(name: string)
    requires |name| >= 1 && forall k :: 0 <= k < |name| ==> Utf16Units(name[k]) == 2
    ensures ValidateName(name).message == NAME_CHARS
  {
    AstralNotNameChar(name[0]);
    assert !(forall k :: 0 <= k < |name| ==> NameChar(name[k]));
    AstralTrim(name);
    assert 2 <= Utf16Length(Trim(name));
  }

  /** No character outside the Basic Multilingual Plane is allowed in a name. */
  lemma AstralNotNameChar(c: char)
    requires Utf16Units(c) == 2
    ensures !NameChar(c)
  {
  }

  /** For instance, the five-emoji message and the one-emoji name. */
  lemma Utf16Examples()
    ensures ValidateMessage("\U{1F600}\U{1F600}\U{1F600}\U{1F600}\U{1F600}").isValid
    ensures ValidateName("\U{1F600}").message == NAME_CHARS
  {
    var m := "\U{1F600}\U{1F600}\U{1F600}\U{1F600}\U{1F600}";
    assert forall k :: 0 <= k < |m| ==> m[k] == '\U{1F600}';
    Utf16MessageLength(m);
    Utf16NameLength("\U{1F600}");
  }

  /** All four validators pass. */
  predicate FormValid(form: ContactFormData)
  {
    && ValidateName(form.name).isValid
    && ValidateEmail(form.email).isValid
    && ValidatePhone(form.phone).isValid
    && ValidateMessage(form.message).isValid
  }

  /** `new URLSearchParams(window.location.search).get(k) || ''`. */
  function QueryValueOrEmpty(q: Query.Query, k: string): string
  {
    Query.Get(q, k).GetOr("")
  }

  /** The payload of the `contact` envelope: the form fields, then the
      submission time, the page address and the five attribution values of
      the page query. */
  function ContactPayload(form: ContactFormData, page: PageLocation, submittedAt: string): Json
  {
    JObj(map[
      "name" := JStr(form.name),
      "email" := JStr(form.email),
      "phone" := JStr(form.phone),
      "message" := JStr(form.message),
      "submitted_at" := JStr(submittedAt),
      "source" := JStr(page.href),
      "utm_source" := JStr(QueryValueOrEmpty(page.search, "utm_source")),
      "utm_medium" := JStr(QueryValueOrEmpty(page.search, "utm_medium")),
      "utm_campaign" := JStr(QueryValueOrEmpty(page.search, "utm_campaign")),
      "utm_term" := JStr(QueryValueOrEmpty(page.search, "utm_term")),
      "utm_content" := JStr(QueryValueOrEmpty(page.search, "utm_content"))
    ])
  }

  /** `submitContactForm`: with the moment `submittedAt` of the call and the
      outcome `response` of its `fetch`. */
  function SubmitContactForm(form: ContactFormData, page: PageLocation, submittedAt: string,
                             response: FetchOutcome): (s: Submission)
    ensures !FormValid(form) ==> s == Submission(SubmitResult(false, FIX_ERRORS), None)
    ensures FormValid(form) ==> s.request == Some(Envelope("contact", ContactPayload(form, page, submittedAt)))
    ensures s.result.success <==> FormValid(form) && response.FetchResponse? && response.ok && response.body.Parsed?
    ensures s.result.success ==> s.result.message == THANK_YOU
    ensures FormValid(form) && response.FetchResponse? && !response.ok ==> s.result.message == SUBMIT_FAILED
  {
    if !FormValid(form) then Submission(SubmitResult(false, FIX_ERRORS), None)
    else
      var request := Envelope("contact", ContactPayload(form, page, submittedAt));
      var result :=
        match response
        case FetchRejected(e) => SubmitResult(false, e)
        case FetchResponse(ok, body) =>
          if !ok then SubmitResult(false, SUBMIT_FAILED)
          else if body.Unparsable? then SubmitResult(false, body.error)
          else SubmitResult(true, THANK_YOU);
      Submission(result, Some(request))
  }

  /** Each attribution value sent is the first value of that key in the page
      query, or empty when the query lacks the key. */
  lemma ContactPayloadUtm(form: ContactFormData, page: PageLocation, submittedAt: string, k: string)
    requires k in UTM_KEYS
    ensures var p := ContactPayload(form, page, submittedAt).fields;
            k in p && p[k] == JStr(if Query.Has(page.search, k) then Query.Get(page.search, k).value else "")
  {
  }
}
