/** The Contact component of src/pages/Contact.jsx as an object: its three state
    variables become fields that the handlers update in place, and the environment
    values it reads become a constant given at construction. Each handler is proved to
    move the state as the matching step of module ContactForm does. */
module ContactPage {

  import opened Wrappers
  import opened ContactForm
  import EmailShape
  import JsNumber

  class Contact {
    var form: Form
    var status: string
    var errorDetail: string
    const credentials: Credentials

    /** What the page displays. */
    function State(): UiState
      reads this
    {
      UiState(form, status, errorDetail)
    }

    /** The first render: an empty draft and no messages (src/pages/Contact.jsx:11-26). */
    constructor (credentials: Credentials)
      ensures State() == Initial && this.credentials == credentials
    {
      form := EmptyForm;
      status := "";
      errorDetail := "";
      this.credentials := credentials;
    }

    /** handleChange: one input changed (src/pages/Contact.jsx:28-30). */
    method HandleChange(field: Field, value: string)
      modifies this
      ensures State() == Change(old(State()), field, value)
    {
      form := With(form, field, value);
    }

    /** handleSubmit up to the send: the three gates with their early returns, then
        "Sending..." and the request handed to the delivery client
        (src/pages/Contact.jsx:32-71). */
    method HandleSubmit() returns (request: Option<SendRequest>)
      modifies this
      ensures Submission(State(), request) == Submit(old(State()), credentials)
    {
      if form.name == "" || form.contact == "" || form.subject == "" || form.message == "" {
        status := FillInAllFields;
        return None;
      }
      var isEmail := EmailShape.IsEmailShape(form.contact);
      if !isEmail && JsNumber.IsNaN(form.contact) {
        status := InvalidContactStatus;
        return None;
      }
      if !IsConfigured(credentials) {
        status := NotConfiguredStatus;
        errorDetail := TemplateTip;
        return None;
      }
      status := SendingStatus;
      errorDetail := "";
      var params := TemplateParams(form.name, form.contact, form.subject, form.message);
      request := Some(SendRequest(credentials.serviceId.value, credentials.templateId.value, params, credentials.publicKey.value));
    }

    /** The fulfilment handler (src/pages/Contact.jsx:73-76). */
    method OnSent()
      modifies this
      ensures State() == Delivered(old(State()))
    {
      status := SentStatus;
      form := EmptyForm;
    }

    /** The rejection handler (src/pages/Contact.jsx:77-86). */
    method OnSendFailed(error: DeliveryError)
      modifies this
      ensures State() == DeliveryFailed(old(State()), error)
    {
      var msg := Headline(error) + StatusSuffix(error.status);
      status := FailedStatus;
      errorDetail := ReasonPrefix + msg + Remediation;
    }

    /** One whole attempt: handleSubmit, then, if it sent a request, the handler for
        the way the delivery client settled. */
    method SubmitAndSettle(outcome: Outcome)
      modifies this
      ensures State() == Attempt(old(State()), credentials, outcome)
    {
      var request := HandleSubmit();
      if request.Some? {
        match outcome
        case Success => OnSent();
        case Failure(e) => OnSendFailed(e);
      }
    }
  }
}
