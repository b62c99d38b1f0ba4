/** The contact-form submission pipeline of src/pages/Contact.jsx as pure functions
    over the component's state: the three gates of handleSubmit, the request it hands
    to the delivery client, the two completion handlers, and the failure reason. The
    class in module ContactPage performs these steps in place; the lemmas below state
    what the steps promise. */
module ContactForm {

  import opened Wrappers
  import opened JsText
  import EmailShape
  import JsNumber

  // ----- Data -----

  /** The `name` attribute of each input of the form. */
  datatype Field = Name | Contact | Subject | Message

  /** The draft held in the `form` state variable. */
  datatype Form = Form(name: string, contact: string, subject: string, message: string)

  const EmptyForm := Form("", "", "", "")

  function Get(f: Form, field: Field): string {
    match field
    case Name => f.name
    case Contact => f.contact
    case Subject => f.subject
    case Message => f.message
  }

  /** `{ ...form, [field]: value }`: the named field takes the new value and the
      other three keep theirs. */
  function With(f: Form, field: Field, value: string): (r: Form)
    ensures Get(r, field) == value
    ensures forall g :: g != field ==> Get(r, g) == Get(f, g)
  {
    match field
    case Name => f.(name := value)
    case Contact => f.(contact := value)
    case Subject => f.(subject := value)
    case Message => f.(message := value)
  }

  /** The three environment values; each may be undefined. */
  datatype Credentials = Credentials(serviceId: Option<string>, templateId: Option<string>, publicKey: Option<string>)

  /** JavaScript truthiness of an optional string: defined and not "". */
  predicate Truthy(v: Option<string>) {
    v.Some? && v.value != ""
  }

  /** `isEmailJsConfigured` (src/pages/Contact.jsx:24-26): none of the three values is
      undefined or the empty string. */
  function IsConfigured(c: Credentials): (b: bool)
    ensures var all := [c.serviceId, c.templateId, c.publicKey];
            b <==> None !in all && Some("") !in all
  {
    var all := [c.serviceId, c.templateId, c.publicKey];
    assert forall v :: v in all <==> v == c.serviceId || v == c.templateId || v == c.publicKey;
    Truthy(c.serviceId) && Truthy(c.templateId) && Truthy(c.publicKey)
  }

  /** The template variables sent with a message. */
  datatype TemplateParams = TemplateParams(fromName: string, contactInfo: string, subject: string, message: string)

  /** One `emailjs.send(serviceId, templateId, params, publicKey)` call. */
  datatype SendRequest = SendRequest(serviceId: string, templateId: string, params: TemplateParams, publicKey: string)

  /** The template variables built from the draft (src/pages/Contact.jsx:64-69). */
  function Params(f: Form): TemplateParams {
    TemplateParams(f.name, f.contact, f.subject, f.message)
  }

  /** The draft a set of template variables was built from. */
  function FormOf(p: TemplateParams): Form {
    Form(p.fromName, p.contactInfo, p.subject, p.message)
  }

  /** What the delivery client reports on failure. A null or undefined error is one
      whose three properties are all absent. */
  datatype DeliveryError = DeliveryError(text: Option<string>, message: Option<string>, status: Option<int>)

  /** How a delivery attempt settles. */
  datatype Outcome = Success | Failure(error: DeliveryError)

  /** The state the page displays. */
  datatype UiState = UiState(form: Form, status: string, errorDetail: string)

  const Initial := UiState(EmptyForm, "", "")

  // ----- Messages -----

  const FillInAllFields := "⚠️ Please fill in all fields."
  const InvalidContactStatus := "⚠️ Please enter a valid email or phone number."
  const NotConfiguredStatus := "⚠️ Email service not configured. Add VITE_EMAILJS_SERVICE_ID, VITE_EMAILJS_TEMPLATE_ID, and VITE_EMAILJS_PUBLIC_KEY in .env.local and restart the dev server."
  const TemplateTip := "Tip: In your EmailJS template, use variables: from_name, contact_info, subject, message."
  const SendingStatus := "Sending..."
  const SentStatus := "✅ Message sent successfully!"
  const FailedStatus := "❌ Failed to send."
  const ReasonPrefix := "Reason: "
  const Remediation := ". If this persists, verify service/template/public key and template variables match."
  const UnknownError := "Unknown error"
  const StatusOpen := " (status "

  // ----- The gates of handleSubmit -----

  /** `!form.name || !form.contact || !form.subject || !form.message` is false. */
  predicate AllFilled(f: Form) {
    f.name != "" && f.contact != "" && f.subject != "" && f.message != ""
  }

  /** The contact passes unless it fails the email shape and `isNaN` holds of it. */
  predicate ContactAccepted(contact: string) {
    EmailShape.IsEmailShape(contact) || JsNumber.IsNumericString(contact)
  }

  /** Where handleSubmit leaves off: at one of its three early returns, or at the send. */
  datatype Verdict = Incomplete | InvalidContact | NotConfigured | Dispatch(request: SendRequest)

  /** The gates in the order handleSubmit runs them (src/pages/Contact.jsx:35-70). */
  function Gate(f: Form, c: Credentials): (v: Verdict)
    ensures v == Incomplete <==> !AllFilled(f)
    ensures v == InvalidContact <==> AllFilled(f) && !ContactAccepted(f.contact)
    ensures v == NotConfigured <==> AllFilled(f) && ContactAccepted(f.contact) && !IsConfigured(c)
    ensures v.Dispatch? <==> AllFilled(f) && ContactAccepted(f.contact) && IsConfigured(c)
    ensures v.Dispatch? ==> && v.request.serviceId == c.serviceId.value != ""
                            && v.request.templateId == c.templateId.value != ""
                            && v.request.publicKey == c.publicKey.value != ""
                            && FormOf(v.request.params) == f
  {
    if !AllFilled(f) then Incomplete
    else if !EmailShape.IsEmailShape(f.contact) && JsNumber.IsNaN(f.contact) then InvalidContact
    else if !IsConfigured(c) then NotConfigured
    else Dispatch(SendRequest(c.serviceId.value, c.templateId.value, Params(f), c.publicKey.value))
  }

  // ----- The failure reason -----

  /** `error?.text || error?.message || "Unknown error"`. */
  function Headline(e: DeliveryError): (h: string)
    ensures h != ""
    ensures Truthy(e.text) ==> h == e.text.value
    ensures !Truthy(e.text) && Truthy(e.message) ==> h == e.message.value
    ensures !Truthy(e.text) && !Truthy(e.message) ==> h == UnknownError
  {
    if Truthy(e.text) then e.text.value
    else if Truthy(e.message) then e.message.value
    else UnknownError
  }

  /** `error?.status ? ` (status ${error.status})` : ""`: present only for a status that
      is defined and not 0; the status is written without leading zeros and can be
      read back from it. */
  function StatusSuffix(status: Option<int>): (r: string)
    ensures r == "" <==> status.None? || status.value == 0
    ensures r != "" ==> && |r| > |StatusOpen| + 1
                        && r[..|StatusOpen|] == StatusOpen && r[|r| - 1] == ')'
                        && Canonical(r[|StatusOpen|..|r| - 1])
                        && ParseDecimal(r[|StatusOpen|..|r| - 1]) == status
  {
    if status.Some? && status.value != 0 then
      var digits := DecimalString(status.value);
      DecimalRoundTrip(status.value);
      assert (StatusOpen + digits + ")")[|StatusOpen|..|StatusOpen| + |digits|] == digits;
      StatusOpen + digits + ")"
    else ""
  }

  /** `msg` in the rejection handler (src/pages/Contact.jsx:79-81): the headline, then
      the status only when there is one to show. */
  function FailureReason(e: DeliveryError): (r: string)
    ensures StartsWith(r, Headline(e))
    ensures r == Headline(e) <==> e.status.None? || e.status.value == 0
    ensures e.status.Some? && e.status.value != 0 ==> r == Headline(e) + StatusOpen + DecimalString(e.status.value) + ")"
  {
    Headline(e) + StatusSuffix(e.status)
  }

  /** The `errorDetail` set by the rejection handler (src/pages/Contact.jsx:83-85). */
  function FailureDetail(e: DeliveryError): string {
    ReasonPrefix + FailureReason(e) + Remediation
  }

  // ----- The steps -----

  /** handleChange (src/pages/Contact.jsx:28-30): the named field takes the typed value;
      the other fields, the status and the detail are kept. */
  function Change(s: UiState, field: Field, value: string): (r: UiState)
    ensures Get(r.form, field) == value
    ensures forall g :: g != field ==> Get(r.form, g) == Get(s.form, g)
    ensures r.status == s.status && r.errorDetail == s.errorDetail
  {
    s.(form := With(s.form, field, value))
  }

  /** The state handleSubmit leaves and the send it issues, if any. */
  datatype Submission = Submission(next: UiState, request: Option<SendRequest>)

  /** handleSubmit up to the point where it hands the request to the delivery client
      (src/pages/Contact.jsx:32-71): the draft is never touched, a request goes out
      exactly when every gate passes, and the first two refusals leave the detail as
      it was. */
  function Submit(s: UiState, c: Credentials): (r: Submission)
    ensures r.next.form == s.form
    ensures r.request.Some? <==> AllFilled(s.form) && ContactAccepted(s.form.contact) && IsConfigured(c)
    ensures r.request.Some? ==> FormOf(r.request.value.params) == s.form
    ensures !(AllFilled(s.form) && ContactAccepted(s.form.contact)) ==> r.next.errorDetail == s.errorDetail
  {
    match Gate(s.form, c)
    case Incomplete => Submission(s.(status := FillInAllFields), None)
    case InvalidContact => Submission(s.(status := InvalidContactStatus), None)
    case NotConfigured => Submission(s.(status := NotConfiguredStatus, errorDetail := TemplateTip), None)
    case Dispatch(request) => Submission(s.(status := SendingStatus, errorDetail := ""), Some(request))
  }

  /** The fulfilment handler (src/pages/Contact.jsx:73-76): the sent status and an
      empty draft; the detail is kept. */
  function Delivered(s: UiState): (r: UiState)
    ensures r.status == SentStatus && r.form == EmptyForm && r.errorDetail == s.errorDetail
  {
    s.(status := SentStatus, form := EmptyForm)
  }

  /** The rejection handler (src/pages/Contact.jsx:77-86): the failed status and the
      reason; the draft is kept for another try. */
  function DeliveryFailed(s: UiState, e: DeliveryError): (r: UiState)
    ensures r.status == FailedStatus && r.form == s.form && r.errorDetail == FailureDetail(e)
  {
    s.(status := FailedStatus, errorDetail := FailureDetail(e))
  }

  /** One submission attempt, with the delivery client settling as `o` when a request
      was issued. An attempt always ends in one of the five final messages, never in
      "Sending...", and in the sent message exactly when a request went out and
      succeeded. */
  function Attempt(s: UiState, c: Credentials, o: Outcome): (r: UiState)
    ensures r.status in [FillInAllFields, InvalidContactStatus, NotConfiguredStatus, SentStatus, FailedStatus]
    ensures r.status == SentStatus <==> Gate(s.form, c).Dispatch? && o.Success?
  {
    var sub := Submit(s, c);
    if sub.request.None? then sub.next
    else match o
      case Success => Delivered(sub.next)
      case Failure(e) => DeliveryFailed(sub.next, e)
  }

  // ----- What the steps promise -----

  /** A draft with an empty field is refused with the fill-in message; nothing is sent
      and neither the form nor errorDetail changes. */
  lemma IncompleteFormRejected(s: UiState, c: Credentials)
    requires s.form.name == "" || s.form.contact == "" || s.form.subject == "" || s.form.message == ""
    ensures Submit(s, c).request == None
    ensures Submit(s, c).next == UiState(s.form, FillInAllFields, s.errorDetail)
  {
  }

  /** An earlier gate's refusal is final: an incomplete draft is refused whatever its
      contact and the credentials, and a refused contact whatever the credentials. */
  lemma EarlierGateDecides(f: Form, contact: string, c1: Credentials, c2: Credentials)
    ensures f.name == "" || f.subject == "" || f.message == ""
            ==> Gate(f.(contact := contact), c1) == Gate(f, c2) == Incomplete
    ensures AllFilled(f) && !ContactAccepted(f.contact) ==> Gate(f, c1) == Gate(f, c2) == InvalidContact
  {
  }

  /** An email-shaped contact is never a number (it holds an `@`), so the numeric
      fallback only ever decides contacts that are not email-shaped. */
  lemma EmailShapedIsNaN(contact: string)
    requires EmailShape.MatchesPattern(contact)
    ensures JsNumber.IsNaN(contact)
  {
    var i, j :| EmailShape.SplitsAt(contact, i, j);
    JsNumber.ForeignCharIsNaN(contact, i);
  }

  /** A complete draft is refused for its contact exactly when the contact does not
      match /^[^@\s]+@[^@\s]+\.[^@\s]+$/ and `isNaN` holds of it. */
  lemma ContactRefusedIffBothChecksFail(s: UiState, c: Credentials)
    requires AllFilled(s.form)
    ensures Submit(s, c).next.status == InvalidContactStatus
            <==> !EmailShape.MatchesPattern(s.form.contact) && JsNumber.IsNaN(s.form.contact)
  {
    EmailShape.EmailShapeMeaning(s.form.contact);
    assert InvalidContactStatus != NotConfiguredStatus;
    assert InvalidContactStatus != SendingStatus;
  }

  /** Phone numbers written as digits, with or without a leading `+`, pass the contact
      gate; so does a blank contact, since `Number("  ")` is 0. */
  lemma NumericContactsAccepted(digits: string, blank: string)
    requires JsNumber.DecimalDigits(digits)
    requires blank != [] && JsNumber.AllWhitespace(blank)
    ensures ContactAccepted(digits) && ContactAccepted("+" + digits)
    ensures ContactAccepted(blank) && !EmailShape.IsEmailShape(blank)
  {
    JsNumber.DigitStringIsNumeric(digits);
    JsNumber.BlankIsNumeric(blank);
    if EmailShape.IsEmailShape(blank) {
      EmailShape.EmailShapeMeaning(blank);
      EmailShapedIsNaN(blank);
    }
  }

  /** A complete draft with an acceptable contact and incomplete credentials gets the
      not-configured message and the template hint; nothing is sent. */
  lemma NotConfiguredNoSend(s: UiState, c: Credentials)
    requires AllFilled(s.form) && ContactAccepted(s.form.contact)
    requires !Truthy(c.serviceId) || !Truthy(c.templateId) || !Truthy(c.publicKey)
    ensures Submit(s, c) == Submission(UiState(s.form, NotConfiguredStatus, TemplateTip), None)
  {
  }

  /** When every gate passes, the page shows "Sending...", clears errorDetail, keeps
      the draft, and sends the draft field for field under the template's names. */
  lemma DispatchSendsDraft(s: UiState, c: Credentials)
    requires AllFilled(s.form) && ContactAccepted(s.form.contact) && IsConfigured(c)
    ensures Submit(s, c).next == UiState(s.form, SendingStatus, "")
    ensures Submit(s, c).request.Some?
    ensures var p := Submit(s, c).request.value.params;
            p.fromName == s.form.name && p.contactInfo == s.form.contact
            && p.subject == s.form.subject && p.message == s.form.message
  {
  }

  /** The form is emptied only by a delivered message: after an attempt the draft is
      all-empty when a request went out and succeeded, and untouched otherwise. */
  lemma FormResetOnlyOnSuccess(s: UiState, c: Credentials, o: Outcome)
    ensures Attempt(s, c, o).form == (if Gate(s.form, c).Dispatch? && o.Success? then EmptyForm else s.form)
    ensures Attempt(s, c, o).form != s.form ==> Gate(s.form, c).Dispatch? && o.Success?
  {
  }

  predicate StartsWith(s: string, p: string) {
    |p| <= |s| && s[..|p|] == p
  }

  predicate EndsWith(s: string, q: string) {
    |q| <= |s| && s[|s| - |q|..] == q
  }

  lemma Framed(p: string, h: string, m: string, q: string)
    ensures StartsWith(p + (h + m) + q, p + h) && EndsWith(p + (h + m) + q, q)
  {
    assert p + (h + m) + q == (p + h) + (m + q);
  }

  /** The rejection handler shows the failed status and a detail that starts with
      "Reason: " and the reason's headline and ends with the fixed remediation
      sentence; the form is kept. */
  lemma FailureReported(s: UiState, e: DeliveryError)
    ensures DeliveryFailed(s, e).form == s.form
    ensures DeliveryFailed(s, e).status == FailedStatus
    ensures StartsWith(DeliveryFailed(s, e).errorDetail, ReasonPrefix + Headline(e))
    ensures EndsWith(DeliveryFailed(s, e).errorDetail, Remediation)
  {
    Framed(ReasonPrefix, Headline(e), StatusSuffix(e.status), Remediation);
  }

  /** A failure with status 422 and text "template error" explains itself as
      "template error (status 422)". */
  lemma TemplateErrorReason()
    ensures FailureReason(DeliveryError(Some("template error"), None, Some(422))) == "template error (status 422)"
  {
    var e := DeliveryError(Some("template error"), None, Some(422));
    assert Headline(e) == "template error";
    Suffix422();
  }

  lemma Suffix422()
    ensures StatusSuffix(Some(422)) == " (status 422)"
  {
    Renders422();
  }

  lemma Renders422()
    ensures DecimalString(422) == "422"
  {
    assert NatDigits(4) == "4";
    assert NatDigits(42) == "42";
  }

  /** A failure without text but with a message uses the message; a status of 0 is
      not shown; with neither, the reason is "Unknown error". */
  lemma FallbackReasons(m: string)
    requires m != ""
    ensures FailureReason(DeliveryError(Some(""), Some(m), Some(0))) == m
    ensures FailureReason(DeliveryError(None, None, None)) == UnknownError
  {
  }

  /** A complete draft with a typical address, configured credentials and a client
      that succeeds end in "✅ Message sent successfully!" and an empty form. */
  lemma CompleteDraftDelivered(c: Credentials)
    requires IsConfigured(c)
    ensures var s := UiState(Form("Alex", "alex@example.com", "Hi", "Hello there"), "", "");
            Attempt(s, c, Success) == UiState(EmptyForm, SentStatus, "")
  {
    EmailShape.ExampleAddressAccepted();
  }

  // ----- What the page can display -----

  /** The pairs of status and errorDetail the page can show: "Sending..." never with a
      leftover detail, the not-configured message always with the template hint, and
      the failure message always with a reason. */
  predicate Consistent(s: UiState) {
    && (s.status == SendingStatus ==> s.errorDetail == "")
    && (s.status == NotConfiguredStatus ==> s.errorDetail == TemplateTip)
    && (s.status == FailedStatus ==> StartsWith(s.errorDetail, ReasonPrefix))
  }

  /** Every step of the page keeps the display consistent. */
  lemma StepsKeepConsistent(s: UiState, c: Credentials, field: Field, value: string, e: DeliveryError)
    requires Consistent(s)
    ensures Consistent(Initial)
    ensures Consistent(Change(s, field, value))
    ensures Consistent(Submit(s, c).next)
    ensures Consistent(Delivered(s))
    ensures Consistent(DeliveryFailed(s, e))
  {
    assert FillInAllFields != SendingStatus && FillInAllFields != NotConfiguredStatus;
    assert FillInAllFields != FailedStatus;
    assert InvalidContactStatus != SendingStatus && InvalidContactStatus != NotConfiguredStatus;
    assert InvalidContactStatus != FailedStatus;
    assert SentStatus != SendingStatus && SentStatus != NotConfiguredStatus && SentStatus != FailedStatus;
  }
}
