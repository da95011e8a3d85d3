/** What both HTTP functions do before they look at a submission: the audit copy of the request body,
    the alert to the operator when that or the parsing fails, and the results a function can end with. */
module Intake {
  import opened Runtime
  import opened Strings
  import opened Submissions
  import opened Store
  import opened Mail

  /** How an HTTP function ends: a status code, a BadRequestErrorMessageResult, an OkObjectResult, or an
      exception that escapes the function (which the host answers with 500). */
  datatype HttpResult<+T> =
    | StatusCode(code: int)
    | BadRequestError(message: string)
    | OkObject(value: T)
    | Unhandled(e: Exception)

  const LogFailureSubject := "submission unable to be logged to database"
  const ParseFailureSubject := "Failure to process submission or send email"
  const ProcessFailureSubject := "Failure to send to database or process submission"
  const AlertFailurePrefix := "failed to send email to notify of failure do to following exception:"

  /** What string interpolation makes of a List<string> and of a submission object: their type names. */
  const ListTypeName := "System.Collections.Generic.List`1[System.String]"
  const SubmissionTypeName := "Company.Models.InterestFormSubmission"

  const DistrictNotFound := "District not found by zip code"
  const CountryNotFound := "country not found"

  /** The body of an alert to the operator. */
  function AlertBody(message: string, submission: string): string {
    "error message: " + message + ".  Submission: " + submission
  }

  /** The message of the BadRequest result; the error list shows as its type name, not its contents. */
  function BadRequestText(id: string): string {
    "Error during submission.  Submission ID: " + id + ".  Error message: " + ListTypeName
  }

  /** The handler of a failed audit write or parse: log the exception, alert the operator (whose address
      is the sending address) and answer 500. Either of the first two can throw instead. */
  function FrontFailure<T>(w: World, sender: string, subject: string, e: Exception, body: string)
    : (s: Step<HttpResult<T>>)
    ensures s.world.docs == w.docs && Follows(w, s.world)
    ensures s.value.StatusCode? || s.value.Unhandled?
    ensures s.value.StatusCode? ==> s.value.code == 500
    ensures s.value.Unhandled? ==> s.value.e == NullReference
    ensures InnerDepth(e) < 5 ==> s == Step(w, Unhandled(NullReference))
    ensures InnerDepth(e) >= 5 ==>
      s.world.events == w.events + [Event(SendSmtp(Email(sender, [sender], subject, AlertBody(e.message, body))), NextFault(w))]
    ensures InnerDepth(e) >= 5 && Quiet(w) ==> s.value == StatusCode(500)
  {
    match LogException(e)
    case Some(x) => Step(w, Unhandled(x))
    case None =>
      var a := SendEmailStep(w, sender, [sender], subject, AlertBody(e.message, body));
      match a.value
      case Threw(x) => Step(a.world, Unhandled(x))
      case Returned(_) => Step(a.world, StatusCode(500))
  }

  /** The audit copy of the raw request body; its id is the Guid RequestBodyLog draws. */
  function AuditDocument(body: string, logId: string): Document {
    LogDocument(RequestBodyLog(logId, body))
  }

  /** The audit write and its handler: None when the function goes on, or how it ends. */
  function AuditStep<T>(w: World, sender: string, body: string, logId: string): (s: Step<Option<HttpResult<T>>>)
    ensures Follows(w, s.world)
    ensures |s.world.events| > |w.events| && s.world.events[|w.events|].op == CreateItem(AuditDocument(body, logId))
    ensures s.value.None? <==> NextFault(w).None?
    ensures s.value.None? ==> s.world == CreateStep(w, AuditDocument(body, logId)).world
    ensures s.value.Some? ==> s.world.docs == w.docs && (s.value.value.StatusCode? || s.value.value.Unhandled?)
    ensures Quiet(w) ==> Quiet(s.world)
  {
    var c := CreateStep(w, AuditDocument(body, logId));
    match c.value
    case None => Step(c.world, None)
    case Some(e) =>
      var f := FrontFailure<T>(c.world, sender, LogFailureSubject, e, body);
      FollowsTransitive(w, c.world, f.world);
      assert f.world.events[|w.events|] == c.world.events[|w.events|];
      Step(f.world, Some(f.value))
  }

  /** The form as JsonSerializer hands it over: every string property may be null. */
  datatype RawForm = RawForm(
    isInterestedOutboundStudent: bool,
    isInterestedInHosting: bool,
    submissionQuestion: Option<string>,
    name: Option<string>,
    age: Option<string>,
    gender: Option<string>,
    email: Option<string>,
    phone: Option<string>,
    countryOfResidence: Option<string>,
    state: Option<string>,
    city: Option<string>,
    zipcode: Option<string>,
    countryChoiceOne: Option<string>,
    countryChoiceTwo: Option<string>,
    countryChoiceThree: Option<string>,
    countryChoiceFour: Option<string>)

  /** No string property is null. */
  predicate AllPresent(raw: RawForm) {
    raw.submissionQuestion.Some? && raw.name.Some? && raw.age.Some? && raw.gender.Some? &&
    raw.email.Some? && raw.phone.Some? && raw.countryOfResidence.Some? && raw.state.Some? &&
    raw.city.Some? && raw.zipcode.Some? && raw.countryChoiceOne.Some? && raw.countryChoiceTwo.Some? &&
    raw.countryChoiceThree.Some? && raw.countryChoiceFour.Some?
  }

  /** The fourteen string properties, in the order of the constructor's parameters; all are present
      exactly when none of them is null. */
  function StringFields(raw: RawForm): (r: seq<Option<string>>)
    ensures |r| == 14
    ensures AllPresent(raw) <==> forall k :: 0 <= k < 14 ==> r[k].Some?
  {
    var r := [raw.submissionQuestion, raw.name, raw.age, raw.gender, raw.email, raw.phone,
      raw.countryOfResidence, raw.state, raw.city, raw.zipcode, raw.countryChoiceOne, raw.countryChoiceTwo,
      raw.countryChoiceThree, raw.countryChoiceFour];
    assert !AllPresent(raw) ==> exists k :: 0 <= k < 14 && r[k].None? by {
      if !AllPresent(raw) {
        var k :=
          if raw.submissionQuestion.None? then 0 else if raw.name.None? then 1 else if raw.age.None? then 2
          else if raw.gender.None? then 3 else if raw.email.None? then 4 else if raw.phone.None? then 5
          else if raw.countryOfResidence.None? then 6 else if raw.state.None? then 7
          else if raw.city.None? then 8 else if raw.zipcode.None? then 9
          else if raw.countryChoiceOne.None? then 10 else if raw.countryChoiceTwo.None? then 11
          else if raw.countryChoiceThree.None? then 12 else 13;
        assert r[k].None?;
      }
    }
    r
  }

  function Filled(raw: RawForm): (f: Form)
    requires AllPresent(raw)
    ensures forall k :: 0 <= k < 14 ==> StringFields(raw)[k] == Some(FormStrings(f)[k])
  {
    Form(raw.isInterestedOutboundStudent, raw.isInterestedInHosting,
      raw.submissionQuestion.value, raw.name.value, raw.age.value, raw.gender.value, raw.email.value,
      raw.phone.value, raw.countryOfResidence.value, raw.state.value, raw.city.value, raw.zipcode.value,
      raw.countryChoiceOne.value, raw.countryChoiceTwo.value, raw.countryChoiceThree.value,
      raw.countryChoiceFour.value)
  }

  /** The string fields of a form, in the same order. */
  function FormStrings(f: Form): seq<string> {
    [f.submissionQuestion, f.name, f.age, f.gender, f.email, f.phone, f.countryOfResidence,
     f.state, f.city, f.zipcode, f.countryChoiceOne, f.countryChoiceTwo, f.countryChoiceThree,
     f.countryChoiceFour]
  }

  /** The sixteen-argument constructor on the deserialised properties: it calls Trim on every string,
      so a null one raises a NullReferenceException. */
  function Construct(raw: RawForm, guid: string): (r: Call<SubmissionRecord>)
    ensures r.Returned? <==> AllPresent(raw)
    ensures r.Threw? ==> r.e == NullReference
    ensures r.Returned? ==> (
      r.value.id == guid && r.value.errors == [] &&
      FieldsTrimmedFrom(r.value.form, Filled(raw)) &&
      r.value.form.countryOfResidence == CanonicalCountry(Filled(raw).countryOfResidence) &&
      r.value.form.isInterestedOutboundStudent == raw.isInterestedOutboundStudent &&
      r.value.form.isInterestedInHosting == raw.isInterestedInHosting)
  {
    if AllPresent(raw) then Returned(SubmissionRecord(guid, Normalize(Filled(raw)), []))
    else Threw(NullReference)
  }

  /** The parsing block of the single-submission function: the deserialiser's own outcome (an
      exception, a JSON null, or an object), then the constructor. A JSON null makes the first property
      read raise a NullReferenceException. */
  function ParseSubmission(parsed: Call<Option<RawForm>>, guid: string): (r: Call<SubmissionRecord>)
    ensures parsed.Threw? ==> r == Threw(parsed.e)
    ensures parsed == Returned(None) ==> r == Threw(NullReference)
    ensures r.Returned? <==> parsed.Returned? && parsed.value.Some? && AllPresent(parsed.value.value)
    ensures r.Returned? ==> r == Construct(parsed.value.value, guid)
  {
    match parsed
    case Threw(e) => Threw(e)
    case Returned(None) => Threw(NullReference)
    case Returned(Some(raw)) => Construct(raw, guid)
  }

  /** A missing string property makes the parse fail with a NullReferenceException, which the logger
      cannot log: the single-submission function then ends with an exception, not with 500. */
  lemma NullPropertyEscapes(w: World, sender: string, raw: RawForm, guid: string, k: nat, body: string)
    requires k < 14 && StringFields(raw)[k].None?
    ensures ParseSubmission(Returned(Some(raw)), guid) == Threw(NullReference)
    ensures FrontFailure<SubmissionRecord>(w, sender, ParseFailureSubject, NullReference, body) == Step(w, Unhandled(NullReference))
  {
  }

  /** The catch blocks of the audit write and of the parsing, on the sender's relay. */
  method HandleFrontFailure<T>(emailSender: EmailSender, subject: string, e: Exception, body: string)
    returns (r: HttpResult<T>)
    modifies emailSender.relay
    ensures Step(emailSender.relay.State(), r) ==
      FrontFailure<T>(old(emailSender.relay.State()), emailSender.sendingAccountAddress, subject, e, body)
  {
    var logged := LogException(e);
    if logged.Some? {
      return Unhandled(logged.value);
    }
    var sent := emailSender.SendEmailAsync([emailSender.sendingAccountAddress], subject, AlertBody(e.message, body));
    if sent.Threw? {
      return Unhandled(sent.e);
    }
    r := StatusCode(500);
  }
}
