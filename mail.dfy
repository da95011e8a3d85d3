/** EmailSender: the HTML bodies of the mails to district and country representatives and of the reply to
    the person who filled in the form, and the sending of a mail through the SMTP relay. */
module Mail {
  import opened Runtime
  import opened Strings
  import opened Submissions
  import opened Store

  const SubjectLine := "Rotary Youth Exchange Form Submission"

  /** How a greeting naming several districts starts. */
  const GreetingStart := "<h4>Hello RYE District "

  /** What DistrictEmailBodyGenerator appends after each district of a greeting naming several. */
  const GreetingFragment :=
    "Representatives,</h4>\n        <p>We are not sure what districts this student is a part of, so this email is going to all districts present in this zip code.</p>"

  const DistrictClosing :=
    "<p> They have also been informed of your district number and been told to expect a follow up within a couple of weeks.</p>\n        <h4> If you have any questions, advice for the process, to add or remove email addresses for your district, or to get a list of previous submissions, please reach out to StudyAbroadScholarshipsWebsite@outlook.com.</h4>\n        "

  const CountryClosing :=
    "<p> They have also been informed that their submission was forwarded and been told to expect a follow up within a couple of weeks.</p>\n        <h4> If you have any questions, advice for the process, to add or remove email addresses for your country, or to get a list of previous submissions, please reach out to StudyAbroadScholarshipsWebsite@outlook.com.</h4>\n        "

  const ThankYou :=
    " <p>Thank you for your support of <a href=\"https://studyabroadscholarships.org/\">studyabroadscholarships.org</a>!</p>"

  const InformationHeader := "<h3>Here is the information from the form submission:</h3>"

  const ReplyMiddle :=
    ",</h4>\n            <div>Thank you for your interest in StudyAbroadScholarships.org.  A representative from rotary youth exchange in "

  const ReplyEnd :=
    " should follow up with you within 2 weeks.</div>\n            <div>There is a lot of detail on the website to answer any questions that you may have.  And if you do not hear back from a rotarian within 2 weeks, please reach out to StudyAbroadScholarshipsWebsite@outlook.com.</div>\n            <p>We look forward to hearing from you!</p>\n            "

  function YesNo(b: bool): string {
    if b then "yes" else "no"
  }

  /** One labelled line of the form summary. */
  function Row(caption: string, value: string): string {
    "\n        <div><b>" + caption + ":</b> " + value + "</div>"
  }

  /** The lines of the form summary, in order; the submission question is not among them. */
  function StudentRows(f: Form): (rows: seq<string>)
    ensures |rows| == 15
  {
    [ Row("Name", f.name),
      Row("Interested in going on exchange", YesNo(f.isInterestedOutboundStudent)),
      Row("Interested in hosting", YesNo(f.isInterestedInHosting)),
      Row("Age", f.age),
      Row("Gender", f.gender),
      Row("Email", f.email),
      Row("Phone", f.phone),
      Row("CountryOfResidence", f.countryOfResidence),
      Row("State", f.state),
      Row("City", f.city),
      Row("Zipcode", f.zipcode),
      Row("CountryChoiceOne", f.countryChoiceOne),
      Row("CountryChoiceTwo", f.countryChoiceTwo),
      Row("CountryChoiceThree", f.countryChoiceThree),
      Row("CountryChoiceFour", f.countryChoiceFour) ]
  }

  /** StudentInformationToHtml. */
  function StudentInformationToHtml(f: Form): string {
    InformationHeader + Concat(StudentRows(f))
  }

  /** The form summary shows every field the student filled in, under its label. */
  lemma StudentInformationShowsEveryRow(f: Form, k: nat)
    requires k < 15
    ensures Contains(StudentInformationToHtml(f), StudentRows(f)[k])
  {
    ConcatContainsPart(StudentRows(f), k);
    ContainsAppend(Concat(StudentRows(f)), InformationHeader, StudentRows(f)[k]);
  }

  /** What one pass of the greeting loop appends for district number `i`: the district, then the
      closing of the greeting and the note about several districts. */
  function GreetingItem(ds: seq<string>, i: nat): string
    requires i < |ds|
  {
    (if i == |ds| - 1 then "and " + ds[i] + " " else ds[i] + ", ") + GreetingFragment
  }

  /** What the first `n` passes of the greeting loop append. */
  function GreetingItems(ds: seq<string>, n: nat): string
    requires n <= |ds|
  {
    if n == 0 then "" else GreetingItems(ds, n - 1) + GreetingItem(ds, n - 1)
  }

  /** The greeting of the mail to the district representatives. */
  function DistrictGreeting(ds: seq<string>): string {
    if |ds| == 1 then "<h4>Hello RYE District " + ds[0] + " Representatives,</h4>"
    else GreetingStart + GreetingItems(ds, |ds|)
  }

  /** The body DistrictEmailBodyGenerator builds. */
  function DistrictEmailBody(ds: seq<string>, f: Form): string {
    DistrictGreeting(ds) + StudentInformationToHtml(f) + DistrictClosing + ThankYou
  }

  /** The body CountryEmailBodyGenerator builds; `titleCase` stands for TextInfo.ToTitleCase of the
      current culture. */
  function CountryEmailBody(f: Form, titleCase: string -> string): string {
    "<h4>Hello RYE " + titleCase(f.countryOfResidence) + " Representatives,</h4>" +
    StudentInformationToHtml(f) + CountryClosing + ThankYou
  }

  /** Who the reply says will follow up. */
  function Responder(isDistrict: bool, ds: seq<string>, country: string, titleCase: string -> string): string {
    if isDistrict then
      if |ds| == 1 then "Rotary District " + ds[0] else "Rotary Districts " + Join(", ", ds)
    else titleCase(country)
  }

  /** The body ReturnEmailBodyGenerator builds. */
  function ReturnEmailBody(isDistrict: bool, ds: seq<string>, f: Form, titleCase: string -> string): string {
    "<h4>Hello " + f.name + ReplyMiddle + Responder(isDistrict, ds, f.countryOfResidence, titleCase) + ReplyEnd
  }

  lemma {:induction false} GreetingItemsContain(ds: seq<string>, n: nat, i: nat)
    requires i < n <= |ds|
    ensures Contains(GreetingItems(ds, n), GreetingItem(ds, i))
    decreases n
  {
    if i == n - 1 {
      ContainsMiddle(GreetingItems(ds, n - 1), GreetingItem(ds, i), "");
      assert GreetingItems(ds, n - 1) + GreetingItem(ds, i) + "" == GreetingItems(ds, n);
    } else {
      GreetingItemsContain(ds, n - 1, i);
      ContainsExtend("", GreetingItems(ds, n - 1), GreetingItem(ds, n - 1), GreetingItem(ds, i));
      assert "" + GreetingItems(ds, n - 1) + GreetingItem(ds, n - 1) == GreetingItems(ds, n);
    }
  }

  /** Every district of a greeting naming several is followed by the whole closing fragment: the
      closing of the greeting and the note about several districts are repeated once per district. */
  lemma GreetingRepeatsFragment(ds: seq<string>, i: nat)
    requires |ds| != 1 && i < |ds|
    ensures i < |ds| - 1 ==> Contains(DistrictGreeting(ds), ds[i] + ", " + GreetingFragment)
    ensures i == |ds| - 1 ==> Contains(DistrictGreeting(ds), "and " + ds[i] + " " + GreetingFragment)
  {
    GreetingItemsContain(ds, |ds|, i);
    ContainsExtend(GreetingStart, GreetingItems(ds, |ds|), "", GreetingItem(ds, i));
    assert GreetingStart + GreetingItems(ds, |ds|) + "" == DistrictGreeting(ds);
  }

  /** Regrouping the two items of a two-district greeting. */
  lemma RegroupTwoItems(start: string, a: string, comma: string, fragment: string, and: string, b: string, space: string)
    ensures start + ((a + comma + fragment) + (and + b + space + fragment)) ==
      start + a + comma + fragment + and + b + space + fragment
  {
  }

  /** Two districts: the greeting closes twice and carries the note twice. */
  lemma TwoDistrictGreeting(a: string, b: string)
    ensures DistrictGreeting([a, b]) ==
      GreetingStart + a + ", " + GreetingFragment + "and " + b + " " + GreetingFragment
  {
    var ds := [a, b];
    var first := GreetingItem(ds, 0);
    var second := GreetingItem(ds, 1);
    assert GreetingItems(ds, 1) == "" + first;
    assert "" + first == first;
    assert DistrictGreeting(ds) == GreetingStart + (first + second);
    RegroupTwoItems(GreetingStart, a, ", ", GreetingFragment, "and ", b, " ");
  }

  /** No district at all: the greeting is an opening that never names a district nor closes. */
  lemma EmptyDistrictGreeting()
    ensures DistrictGreeting([]) == GreetingStart
  {
  }

  lemma ItemNamesDistrict(ds: seq<string>, i: nat)
    requires i < |ds|
    ensures Contains(GreetingItem(ds, i), ds[i])
  {
    ContainsSelf(ds[i]);
    if i == |ds| - 1 {
      ContainsAppend(ds[i], "and ", ds[i]);
      ContainsAppend("and " + ds[i], " ", ds[i]);
      ContainsAppend("and " + ds[i] + " ", GreetingFragment, ds[i]);
    } else {
      ContainsAppend(ds[i], ", ", ds[i]);
      ContainsAppend(ds[i] + ", ", GreetingFragment, ds[i]);
    }
  }

  /** The greeting names every district. */
  lemma GreetingNamesDistricts(ds: seq<string>, i: nat)
    requires i < |ds|
    ensures Contains(DistrictGreeting(ds), ds[i])
  {
    ContainsSelf(ds[i]);
    if |ds| == 1 {
      ContainsAppend(ds[0], "<h4>Hello RYE District ", ds[0]);
      ContainsAppend("<h4>Hello RYE District " + ds[0], " Representatives,</h4>", ds[0]);
    } else {
      GreetingItemsContain(ds, |ds|, i);
      ContainsAppend(GreetingItems(ds, |ds|), GreetingStart, GreetingItem(ds, i));
      ItemNamesDistrict(ds, i);
      ContainsTrans(DistrictGreeting(ds), GreetingItem(ds, i), ds[i]);
    }
  }

  /** The mail to the district representatives names every district, and carries every line of the form summary. */
  lemma DistrictEmailShowsDistrictsAndForm(ds: seq<string>, f: Form, i: nat, k: nat)
    requires i < |ds| && k < 15
    ensures Contains(DistrictEmailBody(ds, f), ds[i])
    ensures Contains(DistrictEmailBody(ds, f), StudentRows(f)[k])
  {
    var g := DistrictGreeting(ds);
    var info := StudentInformationToHtml(f);
    GreetingNamesDistricts(ds, i);
    ContainsAppend(g, info, ds[i]);
    ContainsAppend(g + info, DistrictClosing, ds[i]);
    ContainsAppend(g + info + DistrictClosing, ThankYou, ds[i]);
    StudentInformationShowsEveryRow(f, k);
    ContainsAppend(info, g, StudentRows(f)[k]);
    ContainsAppend(g + info, DistrictClosing, StudentRows(f)[k]);
    ContainsAppend(g + info + DistrictClosing, ThankYou, StudentRows(f)[k]);
  }

  /** The mail to the country representatives greets the country and carries every line of the form summary. */
  lemma CountryEmailShowsCountryAndForm(f: Form, titleCase: string -> string, k: nat)
    requires k < 15
    ensures Contains(CountryEmailBody(f, titleCase), titleCase(f.countryOfResidence))
    ensures Contains(CountryEmailBody(f, titleCase), StudentRows(f)[k])
  {
    var c := titleCase(f.countryOfResidence);
    var head := "<h4>Hello RYE " + c + " Representatives,</h4>";
    var info := StudentInformationToHtml(f);
    ContainsSelf(c);
    ContainsAppend(c, "<h4>Hello RYE ", c);
    ContainsAppend("<h4>Hello RYE " + c, " Representatives,</h4>", c);
    ContainsAppend(head, info, c);
    ContainsAppend(head + info, CountryClosing, c);
    ContainsAppend(head + info + CountryClosing, ThankYou, c);
    StudentInformationShowsEveryRow(f, k);
    ContainsAppend(info, head, StudentRows(f)[k]);
    ContainsAppend(head + info, CountryClosing, StudentRows(f)[k]);
    ContainsAppend(head + info + CountryClosing, ThankYou, StudentRows(f)[k]);
  }

  /** The reply greets the student by name and names who will follow up. */
  lemma ReplyNamesStudentAndResponder(isDistrict: bool, ds: seq<string>, f: Form, titleCase: string -> string)
    ensures Contains(ReturnEmailBody(isDistrict, ds, f, titleCase), f.name)
    ensures Contains(ReturnEmailBody(isDistrict, ds, f, titleCase), Responder(isDistrict, ds, f.countryOfResidence, titleCase))
  {
    var r := Responder(isDistrict, ds, f.countryOfResidence, titleCase);
    var n := f.name;
    ContainsSelf(n);
    ContainsAppend(n, "<h4>Hello ", n);
    ContainsAppend("<h4>Hello " + n, ReplyMiddle, n);
    ContainsAppend("<h4>Hello " + n + ReplyMiddle, r, n);
    ContainsAppend("<h4>Hello " + n + ReplyMiddle + r, ReplyEnd, n);
    ContainsSelf(r);
    ContainsAppend(r, "<h4>Hello " + n + ReplyMiddle, r);
    ContainsAppend("<h4>Hello " + n + ReplyMiddle + r, ReplyEnd, r);
  }

  /** A district responder names every district. */
  lemma ResponderNamesDistricts(ds: seq<string>, country: string, titleCase: string -> string, i: nat)
    requires i < |ds|
    ensures Contains(Responder(true, ds, country, titleCase), ds[i])
  {
    if |ds| == 1 {
      ContainsSelf(ds[0]);
      ContainsAppend(ds[0], "Rotary District ", ds[0]);
    } else {
      JoinContains(", ", ds, i);
      ContainsAppend(Join(", ", ds), "Rotary Districts ", ds[i]);
    }
  }

  /** The country sender asks for a district responder with no district: the reply names
      "Rotary Districts " and no country. */
  lemma CountryReplyNamesNoCountry(f: Form, titleCase: string -> string)
    ensures Responder(true, [], f.countryOfResidence, titleCase) == "Rotary Districts "
  {
  }

  /** SendEmailAsync from state `w`: one hand-over to the relay. A failure is logged with
      LogException; when that throws, its NullReferenceException escapes, and otherwise the failure's
      message is the one error returned. */
  function SendEmailStep(w: World, sender: string, recipients: seq<string>, subject: string, body: string)
    : (s: Step<Call<seq<string>>>)
    ensures s.world.docs == w.docs && Follows(w, s.world)
    ensures s.world.events == w.events + [Event(SendSmtp(Email(sender, recipients, subject, body)), NextFault(w))]
    ensures |s.world.faults| == if w.faults == [] then 0 else |w.faults| - 1
    ensures Quiet(w) ==> Quiet(s.world)
    ensures s.value == Returned([]) <==> NextFault(w).None?
    ensures NextFault(w).Some? && InnerDepth(NextFault(w).value) >= 5 ==>
      s.value == Returned([NextFault(w).value.message])
    ensures NextFault(w).Some? && InnerDepth(NextFault(w).value) < 5 ==> s.value == Threw(NullReference)
  {
    var a := Attempt(w, SendSmtp(Email(sender, recipients, subject, body)));
    match a.value
    case None => Step(a.world, Returned([]))
    case Some(e) =>
      match LogException(e)
      case None => Step(a.world, Returned([e.message]))
      case Some(x) => Step(a.world, Threw(x))
  }

  /** SendEmailAsync only ever lets the NullReferenceException of the logger escape. */
  lemma SendEmailThrowsOnlyNullReference(w: World, sender: string, recipients: seq<string>, subject: string, body: string)
    ensures SendEmailStep(w, sender, recipients, subject, body).value.Threw? ==>
      SendEmailStep(w, sender, recipients, subject, body).value.e == NullReference
  {
  }

  /** The "send two mails" pattern shared by SendDistrictEmailAsync and SendCountryEmailAsync: the mail to
      the representatives, then the reply to the student; an exception of either ends it with that
      exception's message as the only error. */
  function SendPairStep(w: World, sender: string, toReps: seq<string>, repsBody: string, student: string, replyBody: string)
    : (s: Step<seq<string>>)
    ensures s.world.docs == w.docs && Follows(w, s.world)
    ensures Quiet(w) ==> Quiet(s.world)
    ensures |w.events| < |s.world.events| <= |w.events| + 2
    ensures s.world.events[|w.events|] == Event(SendSmtp(Email(sender, toReps, SubjectLine, repsBody)), NextFault(w))
    ensures |s.world.events| == |w.events| + 2 ==>
      s.world.events[|w.events| + 1].op == SendSmtp(Email(sender, [student], SubjectLine, replyBody))
    ensures s.value == [] <==> forall k :: |w.events| <= k < |s.world.events| ==> s.world.events[k].fault.None?
    ensures Quiet(w) ==> s.value == [] && |s.world.events| == |w.events| + 2
  {
    var s1 := SendEmailStep(w, sender, toReps, SubjectLine, repsBody);
    match s1.value
    case Threw(e) => Step(s1.world, [e.message])
    case Returned(errs1) =>
      var s2 := SendEmailStep(s1.world, sender, [student], SubjectLine, replyBody);
      FollowsTransitive(w, s1.world, s2.world);
      assert s2.world.events[|w.events|] == s1.world.events[|w.events|];
      match s2.value
      case Threw(e) => Step(s2.world, [e.message])
      case Returned(errs2) => Step(s2.world, errs1 + errs2)
  }

  /** The errors of the pair are those of the mail to the representatives followed by those of the
      reply; an exception of the first send skips the reply and leaves its message as the only error. */
  lemma SendPairMergesErrors(w: World, sender: string, toReps: seq<string>, repsBody: string, student: string, replyBody: string)
    ensures var s := SendPairStep(w, sender, toReps, repsBody, student, replyBody);
      var s1 := SendEmailStep(w, sender, toReps, SubjectLine, repsBody);
      var s2 := SendEmailStep(s1.world, sender, [student], SubjectLine, replyBody);
      (s1.value.Threw? ==> s == Step(s1.world, [NullReferenceMessage])) &&
      (s1.value.Returned? && s2.value.Threw? ==> s == Step(s2.world, [NullReferenceMessage])) &&
      (s1.value.Returned? && s2.value.Returned? ==> s == Step(s2.world, s1.value.value + s2.value.value)) &&
      |s.value| <= 2
  {
  }

  /** SendDistrictEmailAsync. The reply is generated with isDistrict false. */
  function SendDistrictEmailStep(w: World, sender: string, titleCase: string -> string,
                                 emails: seq<string>, ds: seq<string>, f: Form): Step<seq<string>>
  {
    SendPairStep(w, sender, emails, DistrictEmailBody(ds, f), f.email, ReturnEmailBody(false, ds, f, titleCase))
  }

  /** SendCountryEmailAsync. The reply is generated with isDistrict true and no district. */
  function SendCountryEmailStep(w: World, sender: string, titleCase: string -> string,
                                emails: seq<string>, f: Form): Step<seq<string>>
  {
    SendPairStep(w, sender, emails, CountryEmailBody(f, titleCase), f.email, ReturnEmailBody(true, [], f, titleCase))
  }

  /** The reply that follows a district mail names the title-cased country of residence, not the districts. */
  lemma DistrictReplyNamesCountry(w: World, sender: string, titleCase: string -> string,
                                  emails: seq<string>, ds: seq<string>, f: Form)
    ensures var s := SendDistrictEmailStep(w, sender, titleCase, emails, ds, f);
      |s.world.events| == |w.events| + 2 ==>
        exists body :: s.world.events[|w.events| + 1].op == SendSmtp(Email(sender, [f.email], SubjectLine, body)) &&
          Contains(body, titleCase(f.countryOfResidence))
  {
    var body := ReturnEmailBody(false, ds, f, titleCase);
    ReplyNamesStudentAndResponder(false, ds, f, titleCase);
  }

  /** One call to a notice sender (SendCountryOrDistrictNotFoundEmailAsync or
      SendDistrictNotCertifiedEmailAsync), taken as one call that reports its failure as its only error. */
  function NoticeStep(w: World, op: Op): (s: Step<seq<string>>)
    requires op.SendNotFoundNotice? || op.SendNotCertifiedNotice?
    ensures s.world.docs == w.docs && Follows(w, s.world)
    ensures s.world.events == w.events + [Event(op, NextFault(w))]
    ensures Quiet(w) ==> Quiet(s.world)
    ensures s.value == [] <==> NextFault(w).None?
    ensures NextFault(w).Some? ==> s.value == [NextFault(w).value.message]
  {
    var a := Attempt(w, op);
    match a.value
    case None => Step(a.world, [])
    case Some(e) => Step(a.world, [e.message])
  }

  /** What the mail a sender composes depends on: its account address and the culture's title casing. */
  datatype Sender = Sender(address: string, titleCase: string -> string)

  /** The sender: its account address, the culture's title casing, and the relay it hands mail to. */
  class EmailSender {
    const sendingAccountAddress: string
    const toTitleCase: string -> string
    const relay: Cloud

    function Config(): Sender {
      Sender(sendingAccountAddress, toTitleCase)
    }

    constructor (sendingAccountAddress: string, toTitleCase: string -> string, relay: Cloud)
      ensures this.sendingAccountAddress == sendingAccountAddress
      ensures this.toTitleCase == toTitleCase && this.relay == relay
    {
      this.sendingAccountAddress := sendingAccountAddress;
      this.toTitleCase := toTitleCase;
      this.relay := relay;
    }

    method SendEmailAsync(recipients: seq<string>, subject: string, body: string) returns (r: Call<seq<string>>)
      modifies relay
      ensures Step(relay.State(), r) ==
        SendEmailStep(old(relay.State()), sendingAccountAddress, recipients, subject, body)
    {
      var fault := relay.Perform(SendSmtp(Email(sendingAccountAddress, recipients, subject, body)));
      if fault.None? {
        return Returned([]);
      }
      var e := fault.value;
      var logged := LogException(e);
      if logged.Some? {
        return Threw(logged.value);
      }
      r := Returned([e.message]);
    }

    /** DistrictEmailBodyGenerator, with its loop over the districts. */
    method DistrictEmailBodyGenerator(ds: seq<string>, f: Form) returns (newBody: string)
      ensures newBody == DistrictEmailBody(ds, f)
    {
      newBody := "";
      if |ds| == 1 {
        var greeting := "<h4>Hello RYE District " + ds[0] + " Representatives,</h4>";
        newBody := newBody + greeting;
        assert "" + greeting == greeting;
      } else {
        newBody := newBody + GreetingStart;
        assert "" + GreetingStart == GreetingStart;
        for i := 0 to |ds|
          invariant newBody == GreetingStart + GreetingItems(ds, i)
        {
          ghost var before := GreetingItems(ds, i);
          var piece := if i == |ds| - 1 then "and " + ds[i] + " " else ds[i] + ", ";
          newBody := newBody + piece;
          newBody := newBody + GreetingFragment;
          AppendAssoc(GreetingStart + before, piece, GreetingFragment);
          AppendAssoc(GreetingStart, before, GreetingItem(ds, i));
        }
      }
      newBody := newBody + StudentInformationToHtml(f);
      newBody := newBody + DistrictClosing;
      newBody := newBody + ThankYou;
    }

    /** The two sends of SendDistrictEmailAsync and SendCountryEmailAsync. */
    method SendPair(toReps: seq<string>, repsBody: string, student: string, replyBody: string)
      returns (errors: seq<string>)
      modifies relay
      ensures Step(relay.State(), errors) ==
        SendPairStep(old(relay.State()), sendingAccountAddress, toReps, repsBody, student, replyBody)
    {
      var first := SendEmailAsync(toReps, SubjectLine, repsBody);
      if first.Threw? {
        return [first.e.message];
      }
      errors := first.value;
      var second := SendEmailAsync([student], SubjectLine, replyBody);
      if second.Threw? {
        return [second.e.message];
      }
      errors := errors + second.value;
    }

    method SendDistrictEmailAsync(emails: seq<string>, ds: seq<string>, submission: InterestFormSubmission)
      returns (errors: seq<string>)
      modifies relay
      ensures Step(relay.State(), errors) ==
        SendDistrictEmailStep(old(relay.State()), sendingAccountAddress, toTitleCase, emails, ds, submission.form)
    {
      var body := DistrictEmailBodyGenerator(ds, submission.form);
      var reply := ReturnEmailBody(false, ds, submission.form, toTitleCase);
      errors := SendPair(emails, body, submission.form.email, reply);
    }

    method SendCountryEmailAsync(emails: seq<string>, submission: InterestFormSubmission)
      returns (errors: seq<string>)
      modifies relay
      ensures Step(relay.State(), errors) ==
        SendCountryEmailStep(old(relay.State()), sendingAccountAddress, toTitleCase, emails, submission.form)
    {
      var body := CountryEmailBody(submission.form, toTitleCase);
      var reply := ReturnEmailBody(true, [], submission.form, toTitleCase);
      errors := SendPair(emails, body, submission.form.email, reply);
    }

    method SendCountryOrDistrictNotFoundEmailAsync(submission: InterestFormSubmission) returns (errors: seq<string>)
      modifies relay
      ensures Step(relay.State(), errors) == NoticeStep(old(relay.State()), SendNotFoundNotice(submission.Record()))
    {
      var fault := relay.Perform(SendNotFoundNotice(submission.Record()));
      errors := if fault.None? then [] else [fault.value.message];
    }

    method SendDistrictNotCertifiedEmailAsync(submission: InterestFormSubmission) returns (errors: seq<string>)
      modifies relay
      ensures Step(relay.State(), errors) == NoticeStep(old(relay.State()), SendNotCertifiedNotice(submission.Record()))
    {
      var fault := relay.Perform(SendNotCertifiedNotice(submission.Record()));
      errors := if fault.None? then [] else [fault.value.message];
    }
  }
}
