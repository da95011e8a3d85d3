/** CreateInterestFormEntry: one submission per request. The raw body is logged, the form parsed and
    normalised, the submission created and routed, and the function answers with the submission, a
    BadRequest naming its id, or 500; an exception the logger raises in a catch block escapes instead. */
module SingleEntry {
  import opened Runtime
  import opened Strings
  import opened Submissions
  import opened Store
  import opened Mail
  import opened Intake
  import opened Routing

  /** How a run ends: the world, the result, and the submission as it stands at the end (none when the
      run stopped before one was built). */
  datatype Conclusion = Conclusion(world: World, result: HttpResult<SubmissionRecord>, submission: Option<SubmissionRecord>)

  /** The catch block of the try: the message is added to the errors, the exception logged, the operator
      alerted; an exception of the alert is recorded and logged in turn. Every logging can throw. */
  function CatchBlock(w: World, sender: Sender, rec: SubmissionRecord, e: Exception): (c: Conclusion)
    ensures c.world.docs == w.docs && Follows(w, c.world)
    ensures c.submission.Some? && c.submission.value.id == rec.id && c.submission.value.form == rec.form
    ensures rec.errors + [e.message] <= c.submission.value.errors
    ensures c.result.BadRequestError? || c.result == Unhandled(NullReference)
    ensures c.result.BadRequestError? ==> c.result.message == BadRequestText(rec.id)
    ensures InnerDepth(e) < 5 ==> c == Conclusion(w, Unhandled(NullReference), Some(WithErrors(rec, [e.message])))
    ensures InnerDepth(e) >= 5 ==>
      c.world.events == w.events +
        [Event(SendSmtp(Email(sender.address, [sender.address], ProcessFailureSubject, AlertBody(e.message, SubmissionTypeName))), NextFault(w))]
  {
    var rec1 := WithErrors(rec, [e.message]);
    match LogException(e)
    case Some(x) => Conclusion(w, Unhandled(x), Some(rec1))
    case None =>
      var s := SendEmailStep(w, sender.address, [sender.address], ProcessFailureSubject, AlertBody(e.message, SubmissionTypeName));
      match s.value
      case Returned(_) => Conclusion(s.world, BadRequestError(BadRequestText(rec.id)), Some(rec1))
      case Threw(e2) =>
        var rec2 := WithErrors(rec1, [AlertFailurePrefix + e2.message]);
        match LogException(e2)
        case Some(x) => Conclusion(s.world, Unhandled(x), Some(rec2))
        case None => Conclusion(s.world, BadRequestError(BadRequestText(rec.id)), Some(rec2))
  }

  /** The catch block answers BadRequest exactly when the exception can be logged and the alert does not
      meet a fault too shallow to log; otherwise the logger's exception escapes. */
  lemma CatchBadRequestIff(w: World, sender: Sender, rec: SubmissionRecord, e: Exception)
    ensures CatchBlock(w, sender, rec, e).result.BadRequestError? <==>
      InnerDepth(e) >= 5 && (NextFault(w).None? || InnerDepth(NextFault(w).value) >= 5)
  {
  }

  /** The inner catch (of a failed alert) never lets the function answer: the alert can only throw the
      logger's NullReferenceException, and logging that one throws again. Both messages are recorded. */
  lemma AlertFailureEscapes(w: World, sender: Sender, rec: SubmissionRecord, e: Exception)
    requires InnerDepth(e) >= 5 && NextFault(w).Some? && InnerDepth(NextFault(w).value) < 5
    ensures var c := CatchBlock(w, sender, rec, e);
      c.result == Unhandled(NullReference) &&
      c.submission.value.errors == rec.errors + [e.message, AlertFailurePrefix + NullReferenceMessage]
  {
    LoggingNullReferenceThrows();
  }

  /** The end of the try block, after the routing: a submission with errors is upserted and answered with
      BadRequest, one without is answered with itself; an exception goes to the catch block. */
  function Conclude(p: Progress, sender: Sender): (c: Conclusion)
    ensures Follows(p.world, c.world) && c.submission.Some?
    ensures c.submission.value.id == p.submission.id && c.submission.value.form == p.submission.form
    ensures p.submission.errors <= c.submission.value.errors
    ensures c.result.OkObject? <==> p.raised.None? && p.submission.errors == []
    ensures c.result.OkObject? ==> c == Conclusion(p.world, OkObject(p.submission), Some(p.submission))
    ensures c.result.BadRequestError? ==> c.result.message == BadRequestText(p.submission.id) && c.submission.value.errors != []
    ensures c.result.OkObject? || c.result.BadRequestError? || c.result == Unhandled(NullReference)
    ensures p.raised.None? && p.submission.errors != [] && NextFault(p.world).None? ==>
      c.result == BadRequestError(BadRequestText(p.submission.id)) && c.submission == Some(p.submission) &&
      c.world.docs == Upserted(p.world.docs, SubmissionDocument(p.submission), p.world.clock)
    ensures p.raised.Some? || (p.submission.errors != [] && NextFault(p.world).Some?) ==> c.world.docs == p.world.docs
  {
    match p.raised
    case Some(e) => CatchBlock(p.world, sender, p.submission, e)
    case None =>
      if p.submission.errors != [] then
        var u := UpsertStep(p.world, SubmissionDocument(p.submission));
        match u.value
        case None => Conclusion(u.world, BadRequestError(BadRequestText(p.submission.id)), Some(p.submission))
        case Some(e) =>
          var c := CatchBlock(u.world, sender, p.submission, e);
          FollowsTransitive(p.world, u.world, c.world);
          c
      else Conclusion(p.world, OkObject(p.submission), Some(p.submission))
  }

  /** What CreateInterestFormEntry does from state `w`, given the request body, the Guid of the audit copy,
      what the deserialiser makes of the body, and the Guid of the submission. */
  function SingleRun(w: World, sender: Sender, body: string, logId: string, parsed: Call<Option<RawForm>>, guid: string)
    : (c: Conclusion)
    ensures Follows(w, c.world)
    ensures |c.world.events| > |w.events| && c.world.events[|w.events|].op == CreateItem(AuditDocument(body, logId))
    ensures c.submission.None? <==> NextFault(w).Some? || ParseSubmission(parsed, guid).Threw?
    ensures c.result.StatusCode? ==> c.result.code == 500 && c.submission.None?
    ensures c.submission.None? ==> c.result.StatusCode? || c.result == Unhandled(NullReference)
    ensures c.result.OkObject? ==> c.submission == Some(c.result.value) && c.result.value.errors == []
    ensures c.result.BadRequestError? ==>
      c.submission.Some? && c.result.message == BadRequestText(guid) && c.submission.value.errors != []
    ensures c.submission.Some? ==> c.submission.value.id == guid
  {
    var a := AuditStep<SubmissionRecord>(w, sender.address, body, logId);
    match a.value
    case Some(r) => Conclusion(a.world, r, None)
    case None =>
      match ParseSubmission(parsed, guid)
      case Threw(e) =>
        var f := FrontFailure<SubmissionRecord>(a.world, sender.address, ParseFailureSubject, e, body);
        FollowsTransitive(w, a.world, f.world);
        assert f.world.events[|w.events|] == a.world.events[|w.events|];
        Conclusion(f.world, f.value, None)
      case Returned(rec) =>
        var p := MainBlock(a.world, sender, rec, true);
        var c := Conclude(p, sender);
        FollowsTransitive(w, a.world, p.world);
        FollowsTransitive(w, p.world, c.world);
        assert c.world.events[|w.events|] == a.world.events[|w.events|];
        c
  }

  /** A failed audit write ends the run before anything is stored: with 500 exactly when both its fault
      and any fault of the alert can be logged, and with the logger's exception otherwise. */
  lemma AuditFailureStoresNothing(w: World, sender: Sender, body: string, logId: string, parsed: Call<Option<RawForm>>, guid: string)
    requires NextFault(w).Some?
    ensures var c := SingleRun(w, sender, body, logId, parsed, guid);
      var w1 := CreateStep(w, AuditDocument(body, logId)).world;
      c.world.docs == w.docs && c.submission.None? &&
      (c.result == StatusCode(500) <==>
        InnerDepth(NextFault(w).value) >= 5 && (NextFault(w1).None? || InnerDepth(NextFault(w1).value) >= 5))
  {
    var e := NextFault(w).value;
    var w1 := CreateStep(w, AuditDocument(body, logId)).world;
    var f := FrontFailure<SubmissionRecord>(w1, sender.address, LogFailureSubject, e, body);
    assert AuditStep<SubmissionRecord>(w, sender.address, body, logId) == Step(f.world, Some(f.value));
    assert SingleRun(w, sender, body, logId, parsed, guid) == Conclusion(f.world, f.value, None);
  }

  /** A body that does not parse leaves only its audit copy behind. */
  lemma ParseFailureStoresOnlyAudit(w: World, sender: Sender, body: string, logId: string, parsed: Call<Option<RawForm>>, guid: string)
    requires NextFault(w).None? && ParseSubmission(parsed, guid).Threw?
    ensures var c := SingleRun(w, sender, body, logId, parsed, guid);
      c.world.docs == w.docs + [Stored(AuditDocument(body, logId), w.clock)] && c.submission.None?
  {
  }

  /** A parsed submission is created right after the audit copy, before any query or mail, and the
      routing then starts with the district lookup for "usa" and "canada" and the country query otherwise. */
  lemma CreateBeforeRouting(w: World, sender: Sender, body: string, logId: string, raw: RawForm, guid: string)
    requires NextFault(w).None? && AllPresent(raw)
    ensures var c := SingleRun(w, sender, body, logId, Returned(Some(raw)), guid);
      var rec := Construct(raw, guid).value;
      |c.world.events| > |w.events| + 1 && c.world.events[|w.events| + 1].op == CreateItem(SubmissionDocument(rec)) &&
      (NextFault(CreateStep(w, AuditDocument(body, logId)).world).None? ==>
        |c.world.events| > |w.events| + 2 && c.world.events[|w.events| + 2].op == RouteQuery(rec))
  {
    var a := CreateStep(w, AuditDocument(body, logId));
    var rec := Construct(raw, guid).value;
    var p := MainBlock(a.world, sender, rec, true);
    var c := Conclude(p, sender);
    assert c.world.events[|w.events| + 1] == p.world.events[|a.world.events|];
    if NextFault(a.world).None? {
      assert c.world.events[|w.events| + 2] == p.world.events[|a.world.events| + 1];
    }
  }

  /** With no fault anywhere, a parsed submission ends stored in the container as it is answered: unchanged
      and answered with Ok when the routing recorded no error, upserted with its errors and answered
      with BadRequest otherwise. */
  lemma QuietRunStoresSubmission(w: World, sender: Sender, body: string, logId: string, raw: RawForm, guid: string)
    requires Quiet(w) && AllPresent(raw)
    ensures var c := SingleRun(w, sender, body, logId, Returned(Some(raw)), guid);
      (c.result.OkObject? || c.result == BadRequestError(BadRequestText(guid))) &&
      exists ts :: Stored(SubmissionDocument(c.submission.value), ts) in c.world.docs
  {
    var a := CreateStep(w, AuditDocument(body, logId));
    var rec := Construct(raw, guid).value;
    var p := MainBlock(a.world, sender, rec, true);
    var c := Conclude(p, sender);
    assert Quiet(a.world);
    if p.submission.errors == [] {
      assert p.submission == rec;
      assert Stored(SubmissionDocument(rec), a.world.clock) in c.world.docs;
    } else {
      assert NextFault(p.world).None?;
      assert Stored(SubmissionDocument(c.submission.value), p.world.clock) in c.world.docs;
    }
  }

  /** The catch block, on the submission object and the sender's relay. */
  method CatchAsync(emailSender: EmailSender, sub: InterestFormSubmission, e: Exception)
    returns (result: HttpResult<SubmissionRecord>)
    modifies emailSender.relay, sub.errors
    ensures Conclusion(emailSender.relay.State(), result, Some(sub.Record())) ==
      CatchBlock(old(emailSender.relay.State()), emailSender.Config(), old(sub.Record()), e)
  {
    sub.AddError(e.message);
    var logged := LogException(e);
    if logged.Some? {
      return Unhandled(logged.value);
    }
    var sent := emailSender.SendEmailAsync([emailSender.sendingAccountAddress], ProcessFailureSubject,
      AlertBody(e.message, SubmissionTypeName));
    if sent.Threw? {
      sub.AddError(AlertFailurePrefix + sent.e.message);
      var logged2 := LogException(sent.e);
      if logged2.Some? {
        return Unhandled(logged2.value);
      }
    }
    result := BadRequestError(BadRequestText(sub.id));
  }

  /** The try block of the function, from the create on, for a freshly built submission. */
  method Proceed(container: Cloud, emailSender: EmailSender, sub: InterestFormSubmission)
    returns (result: HttpResult<SubmissionRecord>, submission: Option<SubmissionRecord>)
    requires emailSender.relay == container
    modifies container, sub.errors
    ensures Conclusion(container.State(), result, submission) ==
      Conclude(MainBlock(old(container.State()), emailSender.Config(), old(sub.Record()), true), emailSender.Config())
  {
    var raised := MainBlockAsync(container, emailSender, sub, true);
    if raised.None? {
      if sub.errors.elems == [] {
        return OkObject(sub.Record()), Some(sub.Record());
      }
      raised := container.UpsertItemAsync(SubmissionDocument(sub.Record()));
      if raised.None? {
        return BadRequestError(BadRequestText(sub.id)), Some(sub.Record());
      }
    }
    result := CatchAsync(emailSender, sub, raised.value);
    submission := Some(sub.Record());
  }

  /** CreateInterestFormEntry.Run on the container the sender relays through. */
  method Run(container: Cloud, emailSender: EmailSender, requestBody: string, logId: string,
             parsed: Call<Option<RawForm>>, guid: string)
    returns (result: HttpResult<SubmissionRecord>, submission: Option<SubmissionRecord>)
    requires emailSender.relay == container
    modifies container
    ensures Conclusion(container.State(), result, submission) ==
      SingleRun(old(container.State()), emailSender.Config(), requestBody, logId, parsed, guid)
  {
    var fault := container.CreateItemAsync(AuditDocument(requestBody, logId));
    if fault.Some? {
      result := HandleFrontFailure(emailSender, LogFailureSubject, fault.value, requestBody);
      return result, None;
    }
    var raw: RawForm;
    match parsed {
      case Threw(e) =>
        result := HandleFrontFailure(emailSender, ParseFailureSubject, e, requestBody);
        return result, None;
      case Returned(None) =>
        result := HandleFrontFailure(emailSender, ParseFailureSubject, NullReference, requestBody);
        return result, None;
      case Returned(Some(r)) =>
        raw := r;
    }
    if !AllPresent(raw) {
      result := HandleFrontFailure(emailSender, ParseFailureSubject, NullReference, requestBody);
      return result, None;
    }
    var sub := new InterestFormSubmission(Filled(raw), guid);
    result, submission := Proceed(container, emailSender, sub);
  }
}
