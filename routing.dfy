/** The part of the try block both HTTP functions share: the submission is created in the container, then
    routed by its country of residence, to the districts of its zip code (for "usa" and "canada") or to
    its country, and the errors of the sends are appended to it. */
module Routing {
  import opened Runtime
  import opened Strings
  import opened Submissions
  import opened Store
  import opened ZipCodes
  import opened Mail
  import opened Intake

  /** How far a submission got inside the try block: the world, the submission with the errors appended
      so far, and the exception that left the block, if any. */
  datatype Progress = Progress(world: World, submission: SubmissionRecord, raised: Option<Exception>)

  function WithErrors(rec: SubmissionRecord, more: seq<string>): SubmissionRecord {
    rec.(errors := rec.errors + more)
  }

  /** `p` only moved the world forward without touching the documents, kept the submission's id and
      fields, appended to its errors, and any exception it carries is a fault of the script. */
  ghost predicate Advances(w: World, rec: SubmissionRecord, p: Progress) {
    p.world.docs == w.docs && Follows(w, p.world) &&
    p.submission.id == rec.id && p.submission.form == rec.form && rec.errors <= p.submission.errors &&
    (p.raised.Some? ==> Scripted(w, p.raised.value)) &&
    (Quiet(w) ==> Quiet(p.world) && p.raised.None?)
  }

  /** Whether the country of residence takes the district path. */
  predicate ByDistrict(rec: SubmissionRecord) {
    rec.form.countryOfResidence == "usa" || rec.form.countryOfResidence == "canada"
  }

  /** The addresses the foreach over a TOP 1 result adds: those of the one record, if there is one. */
  function AddressesOf(top: Option<ContactsForDistrict>): seq<string> {
    if top.Some? then top.value.emailAddresses else []
  }

  /** The addresses of the most recent record of each district, district after district. */
  function TopAddresses(docs: seq<Stored>, ds: seq<string>): seq<string> {
    if ds == [] then [] else AddressesOf(TopDistrict(docs, ds[0])) + TopAddresses(docs, ds[1..])
  }

  /** An address is a representative's exactly when the most recent record of one of the districts lists it. */
  lemma {:induction false} TopAddressesMembers(docs: seq<Stored>, ds: seq<string>, a: string)
    ensures a in TopAddresses(docs, ds) <==>
      exists i :: 0 <= i < |ds| && TopDistrict(docs, ds[i]).Some? && a in TopDistrict(docs, ds[i]).value.emailAddresses
    decreases |ds|
  {
    if ds != [] {
      TopAddressesMembers(docs, ds[1..], a);
      if a in TopAddresses(docs, ds[1..]) {
        var i :| 0 <= i < |ds[1..]| && TopDistrict(docs, ds[1..][i]).Some? &&
          a in TopDistrict(docs, ds[1..][i]).value.emailAddresses;
        assert ds[1..][i] == ds[i + 1];
      }
      if exists i :: 0 <= i < |ds| && TopDistrict(docs, ds[i]).Some? && a in TopDistrict(docs, ds[i]).value.emailAddresses {
        var i :| 0 <= i < |ds| && TopDistrict(docs, ds[i]).Some? && a in TopDistrict(docs, ds[i]).value.emailAddresses;
        if i > 0 {
          assert ds[1..][i - 1] == ds[i];
        }
      }
    }
  }

  /** Addresses are not merged: two districts whose most recent records list the same address make it
      appear twice. */
  lemma TopAddressesKeepDuplicates(docs: seq<Stored>, d1: string, d2: string, a: string)
    requires TopDistrict(docs, d1).Some? && TopDistrict(docs, d1).value.emailAddresses == [a]
    requires TopDistrict(docs, d2).Some? && TopDistrict(docs, d2).value.emailAddresses == [a]
    ensures TopAddresses(docs, [d1, d2]) == [a, a]
  {
    assert [d1, d2][1..] == [d2];
    assert [d2][1..] == [];
    assert TopAddresses(docs, [d2]) == AddressesOf(TopDistrict(docs, d2)) + TopAddresses(docs, []);
    assert TopAddresses(docs, [d1, d2]) == AddressesOf(TopDistrict(docs, d1)) + TopAddresses(docs, [d2]);
  }

  /** The foreach over the districts: one TOP 1 query per district, in the order of the districts,
      having gathered `acc` so far. */
  function GatherAddresses(w: World, ds: seq<string>, acc: seq<string>): (s: Step<Call<seq<string>>>)
    ensures s.world.docs == w.docs && Follows(w, s.world)
    ensures s.value.Returned? ==> s.value.value == acc + TopAddresses(w.docs, ds)
    ensures Quiet(w) ==> Quiet(s.world) && s.value.Returned?
    ensures s.value.Threw? ==> Scripted(w, s.value.e)
    decreases |ds|
  {
    if ds == [] then Step(w, Returned(acc))
    else
      var q := TopDistrictStep(w, ds[0]);
      match q.value
      case Threw(e) => Step(q.world, Threw(e))
      case Returned(top) =>
        var s := GatherAddresses(q.world, ds[1..], acc + AddressesOf(top));
        GatherStepJoins(w, q.world, s, ds, acc);
        s
  }

  /** One turn of the foreach: what the rest of the districts gathers after the query of the first one
      is what all of them gather. */
  lemma GatherStepJoins(w: World, w1: World, s: Step<Call<seq<string>>>, ds: seq<string>, acc: seq<string>)
    requires ds != [] && w1.docs == w.docs && Follows(w, w1) && (Quiet(w) ==> Quiet(w1))
    requires s.world.docs == w1.docs && Follows(w1, s.world)
    requires s.value.Returned? ==>
      s.value.value == acc + AddressesOf(TopDistrict(w.docs, ds[0])) + TopAddresses(w1.docs, ds[1..])
    requires Quiet(w1) ==> Quiet(s.world) && s.value.Returned?
    requires s.value.Threw? ==> Scripted(w1, s.value.e)
    ensures s.world.docs == w.docs && Follows(w, s.world)
    ensures s.value.Returned? ==> s.value.value == acc + TopAddresses(w.docs, ds)
    ensures Quiet(w) ==> Quiet(s.world) && s.value.Returned?
    ensures s.value.Threw? ==> Scripted(w, s.value.e)
  {
    FollowsTransitive(w, w1, s.world);
    TopAddressesUnfold(w.docs, ds, acc);
    if s.value.Threw? {
      ScriptedFollows(w, w1, s.value.e);
    }
  }

  lemma TopAddressesUnfold(docs: seq<Stored>, ds: seq<string>, acc: seq<string>)
    requires ds != []
    ensures acc + AddressesOf(TopDistrict(docs, ds[0])) + TopAddresses(docs, ds[1..]) == acc + TopAddresses(docs, ds)
  {
    var here := AddressesOf(TopDistrict(docs, ds[0]));
    assert TopAddresses(docs, ds) == here + TopAddresses(docs, ds[1..]);
    AppendAssoc(acc, here, TopAddresses(docs, ds[1..]));
  }

  /** The district path. The single-submission function follows a failed lookup with the not-found
      notice (`notices`); the batch function only records the error. */
  function DistrictRoute(w: World, sender: Sender, rec: SubmissionRecord, notices: bool): (p: Progress)
    ensures Advances(w, rec, p)
    ensures |p.world.events| > |w.events| && p.world.events[|w.events|].op == ReadDistrictsByZip(rec.form.zipcode, 0)
  {
    var look := DistrictLookup(w, rec.form.zipcode);
    DistrictLookupCorrect(w, rec.form.zipcode);
    match look.value
    case Threw(e) => Progress(look.world, rec, Some(e))
    case Returned(ds) =>
      var p := if ds != [] then DistrictMail(look.world, sender, rec, ds) else DistrictMissing(look.world, rec, notices);
      AdvancesAfter(w, look.world, rec, p);
      assert p.world.events[|w.events|] == look.world.events[|w.events|];
      p
  }

  /** The districts found: the foreach gathers their addresses, then the pair of district mails is sent
      and its errors appended. */
  function DistrictMail(w: World, sender: Sender, rec: SubmissionRecord, ds: seq<string>): (p: Progress)
    ensures Advances(w, rec, p)
  {
    var g := GatherAddresses(w, ds, []);
    match g.value
    case Threw(e) => Progress(g.world, rec, Some(e))
    case Returned(emails) =>
      var s := SendDistrictEmailStep(g.world, sender.address, sender.titleCase, emails, ds, rec.form);
      FollowsTransitive(w, g.world, s.world);
      Progress(s.world, WithErrors(rec, s.value), None)
  }

  /** No district found: the error is recorded, and the single-submission function sends the not-found
      notice for the submission so recorded. */
  function DistrictMissing(w: World, rec: SubmissionRecord, notices: bool): (p: Progress)
    ensures Advances(w, rec, p)
  {
    var rec1 := WithErrors(rec, [DistrictNotFound]);
    if notices then
      var s := NoticeStep(w, SendNotFoundNotice(rec1));
      Progress(s.world, WithErrors(rec1, s.value), None)
    else
      Progress(w, rec1, None)
  }

  /** What advances from a later world, reached without touching the documents, advances from the
      earlier one. */
  lemma AdvancesAfter(w: World, w1: World, rec: SubmissionRecord, p: Progress)
    requires w1.docs == w.docs && Follows(w, w1) && (Quiet(w) ==> Quiet(w1))
    requires Advances(w1, rec, p)
    ensures Advances(w, rec, p) && w1.events <= p.world.events
  {
    FollowsTransitive(w, w1, p.world);
    if p.raised.Some? {
      ScriptedFollows(w, w1, p.raised.value);
    }
  }

  /** The country path of the single-submission function: a certified country gets the country mail, an
      uncertified one only the not-certified notice, and a missing one the error and the not-found notice. */
  function CertifiedCountryRoute(w: World, sender: Sender, rec: SubmissionRecord): (p: Progress)
    ensures Advances(w, rec, p)
    ensures |p.world.events| > |w.events| && p.world.events[|w.events|].op == ReadTopCountry(rec.form.countryOfResidence)
  {
    var q := TopCountryStep(w, rec.form.countryOfResidence);
    match q.value
    case Threw(e) => Progress(q.world, rec, Some(e))
    case Returned(None) =>
      var rec1 := WithErrors(rec, [CountryNotFound]);
      var s := NoticeStep(q.world, SendNotFoundNotice(rec1));
      FollowsTransitive(w, q.world, s.world);
      assert s.world.events[|w.events|] == q.world.events[|w.events|];
      Progress(s.world, WithErrors(rec1, s.value), None)
    case Returned(Some(c)) =>
      if c.isCertified then
        var s := SendCountryEmailStep(q.world, sender.address, sender.titleCase, c.emailAddresses, rec.form);
        FollowsTransitive(w, q.world, s.world);
        assert s.world.events[|w.events|] == q.world.events[|w.events|];
        Progress(s.world, WithErrors(rec, s.value), None)
      else
        var s := NoticeStep(q.world, SendNotCertifiedNotice(rec));
        FollowsTransitive(w, q.world, s.world);
        assert s.world.events[|w.events|] == q.world.events[|w.events|];
        Progress(s.world, WithErrors(rec, s.value), None)
  }

  /** The country path of the batch function: no certification check, and a missing country only
      records the error. */
  function BatchCountryRoute(w: World, sender: Sender, rec: SubmissionRecord): (p: Progress)
    ensures Advances(w, rec, p)
    ensures |p.world.events| > |w.events| && p.world.events[|w.events|].op == ReadTopCountry(rec.form.countryOfResidence)
  {
    var q := TopCountryStep(w, rec.form.countryOfResidence);
    match q.value
    case Threw(e) => Progress(q.world, rec, Some(e))
    case Returned(None) => Progress(q.world, WithErrors(rec, [CountryNotFound]), None)
    case Returned(Some(c)) =>
      var s := SendCountryEmailStep(q.world, sender.address, sender.titleCase, c.emailAddresses, rec.form);
      FollowsTransitive(w, q.world, s.world);
      assert s.world.events[|w.events|] == q.world.events[|w.events|];
      Progress(s.world, WithErrors(rec, s.value), None)
  }

  /** With no fault, a zip code some district lists gets the district mail, addressed to the
      representatives of the most recent record of each of those districts, and no error. */
  lemma DistrictFoundMails(w: World, sender: Sender, rec: SubmissionRecord, notices: bool)
    requires Quiet(w) && DistrictsWithZip(w.docs, rec.form.zipcode) != []
    ensures var ds := DistrictsWithZip(w.docs, rec.form.zipcode);
      var p := DistrictRoute(w, sender, rec, notices);
      p.submission == rec &&
      exists k :: |w.events| <= k < |p.world.events| &&
        p.world.events[k].op == SendSmtp(Email(sender.address, TopAddresses(w.docs, ds), SubjectLine, DistrictEmailBody(ds, rec.form)))
  {
    var ds := DistrictsWithZip(w.docs, rec.form.zipcode);
    var look := DistrictLookup(w, rec.form.zipcode);
    DistrictLookupCorrect(w, rec.form.zipcode);
    QuietFollows(w, look.world);
    var g := GatherAddresses(look.world, ds, []);
    var s := SendDistrictEmailStep(g.world, sender.address, sender.titleCase, g.value.value, ds, rec.form);
    var p := DistrictRoute(w, sender, rec, notices);
    assert p == Progress(s.world, WithErrors(rec, s.value), None);
    assert s.value == [];
    assert rec.errors + [] == rec.errors;
    var emails := g.value.value;
    assert emails == TopAddresses(w.docs, ds);
    var body := DistrictEmailBody(ds, rec.form);
    assert s.world.events[|g.world.events|].op == SendSmtp(Email(sender.address, emails, SubjectLine, body));
  }

  /** When the lookup finds districts and the foreach gathers their addresses, the district path ends with
      the pair of district mails: the mail to the representatives of the most recent record of each
      district comes first, whatever the two sends report is appended to the errors, and nothing is
      raised. (The reply's address and body are those of `SendPairStep`, as `DistrictMailSends` spells
      out.) */
  lemma DistrictFoundErrors(w: World, sender: Sender, rec: SubmissionRecord, notices: bool)
    requires var look := DistrictLookup(w, rec.form.zipcode);
      look.value.Returned? && look.value.value != [] &&
      GatherAddresses(look.world, look.value.value, []).value.Returned?
    ensures var look := DistrictLookup(w, rec.form.zipcode);
      var ds := look.value.value;
      var g := GatherAddresses(look.world, ds, []);
      var emails := g.value.value;
      var s := SendDistrictEmailStep(g.world, sender.address, sender.titleCase, emails, ds, rec.form);
      var p := DistrictRoute(w, sender, rec, notices);
      ds == DistrictsWithZip(w.docs, rec.form.zipcode) && emails == TopAddresses(w.docs, ds) &&
      p == Progress(s.world, WithErrors(rec, s.value), None) &&
      |p.world.events| > |g.world.events| &&
      p.world.events[|g.world.events|].op == SendSmtp(Email(sender.address, emails, SubjectLine, DistrictEmailBody(ds, rec.form)))
  {
    var look := DistrictLookup(w, rec.form.zipcode);
    DistrictFoundAddresses(w, rec.form.zipcode);
    DistrictRouteSends(w, sender, rec, notices);
    DistrictMailSends(look.world, sender, rec, look.value.value);
  }

  /** The districts the lookup finds are those listing the zip code, and the foreach gathers the
      addresses of their most recent records. */
  lemma DistrictFoundAddresses(w: World, zip: string)
    requires var look := DistrictLookup(w, zip);
      look.value.Returned? && GatherAddresses(look.world, look.value.value, []).value.Returned?
    ensures var look := DistrictLookup(w, zip);
      var ds := look.value.value;
      ds == DistrictsWithZip(w.docs, zip) && GatherAddresses(look.world, ds, []).value.value == TopAddresses(w.docs, ds)
  {
    var look := DistrictLookup(w, zip);
    DistrictLookupCorrect(w, zip);
    var ds := look.value.value;
    assert [] + TopAddresses(look.world.docs, ds) == TopAddresses(w.docs, ds);
  }

  /** With districts found, the district path goes on as the district mail from the lookup's world. */
  lemma DistrictRouteSends(w: World, sender: Sender, rec: SubmissionRecord, notices: bool)
    requires var look := DistrictLookup(w, rec.form.zipcode); look.value.Returned? && look.value.value != []
    ensures var look := DistrictLookup(w, rec.form.zipcode);
      DistrictRoute(w, sender, rec, notices) == DistrictMail(look.world, sender, rec, look.value.value)
  {
  }

  /** With the addresses gathered, the district mail sends the pair of mails and appends their errors. */
  lemma DistrictMailSends(w: World, sender: Sender, rec: SubmissionRecord, ds: seq<string>)
    requires GatherAddresses(w, ds, []).value.Returned?
    ensures var g := GatherAddresses(w, ds, []);
      var emails := g.value.value;
      var p := DistrictMail(w, sender, rec, ds);
      var n := |g.world.events|;
      p.raised.None? &&
      p.submission.errors == rec.errors + SendDistrictEmailStep(g.world, sender.address, sender.titleCase, emails, ds, rec.form).value &&
      |p.world.events| > n &&
      p.world.events[n].op == SendSmtp(Email(sender.address, emails, SubjectLine, DistrictEmailBody(ds, rec.form))) &&
      (|p.world.events| == n + 2 ==>
        p.world.events[n + 1].op == SendSmtp(Email(sender.address, [rec.form.email], SubjectLine, ReturnEmailBody(false, ds, rec.form, sender.titleCase))))
  {
  }

  /** A zip code no district lists is recorded as an error; the single-submission function then sends
      the not-found notice, the batch function nothing more. */
  lemma DistrictMissingRecorded(w: World, sender: Sender, rec: SubmissionRecord, notices: bool)
    requires DistrictLookup(w, rec.form.zipcode).value == Returned([])
    ensures var look := DistrictLookup(w, rec.form.zipcode);
      var p := DistrictRoute(w, sender, rec, notices);
      var rec1 := WithErrors(rec, [DistrictNotFound]);
      p.raised.None? && p.submission.errors[..|rec.errors| + 1] == rec1.errors &&
      (notices ==>
        p.world.events == look.world.events + [Event(SendNotFoundNotice(rec1), NextFault(look.world))] &&
        |p.submission.errors| <= |rec1.errors| + 1) &&
      (!notices ==> p == Progress(look.world, rec1, None))
  {
    var p := DistrictRoute(w, sender, rec, notices);
    assert p.submission.errors[..|rec.errors| + 1] == (rec.errors + [DistrictNotFound]);
  }

  /** A country whose most recent record is not certified gets the not-certified notice and no mail. */
  lemma UncertifiedGetsOnlyNotice(w: World, sender: Sender, rec: SubmissionRecord)
    requires var q := TopCountryStep(w, rec.form.countryOfResidence);
      q.value.Returned? && q.value.value.Some? && !q.value.value.value.isCertified
    ensures var q := TopCountryStep(w, rec.form.countryOfResidence);
      var p := CertifiedCountryRoute(w, sender, rec);
      p.raised.None? && p.world.events == q.world.events + [Event(SendNotCertifiedNotice(rec), NextFault(q.world))] &&
      rec.errors <= p.submission.errors && |p.submission.errors| <= |rec.errors| + 1
  {
  }

  /** A certified country gets the country mail, addressed to the representatives of its most recent
      record, and then the reply to the student; the errors of the two sends are appended in that order.
      With no fault both mails go out and no error is added. */
  lemma CertifiedCountryMails(w: World, sender: Sender, rec: SubmissionRecord)
    requires var q := TopCountryStep(w, rec.form.countryOfResidence);
      q.value.Returned? && q.value.value.Some? && q.value.value.value.isCertified
    ensures var q := TopCountryStep(w, rec.form.countryOfResidence);
      var c := q.value.value.value;
      var p := CertifiedCountryRoute(w, sender, rec);
      var n := |q.world.events|;
      p.raised.None? && c == TopCountry(w.docs, rec.form.countryOfResidence).value &&
      p.submission.errors == rec.errors + SendCountryEmailStep(q.world, sender.address, sender.titleCase, c.emailAddresses, rec.form).value &&
      |p.world.events| > n &&
      p.world.events[n].op == SendSmtp(Email(sender.address, c.emailAddresses, SubjectLine, CountryEmailBody(rec.form, sender.titleCase))) &&
      (|p.world.events| == n + 2 ==>
        p.world.events[n + 1].op == SendSmtp(Email(sender.address, [rec.form.email], SubjectLine, ReturnEmailBody(true, [], rec.form, sender.titleCase)))) &&
      (Quiet(w) ==> |p.world.events| == n + 2 && p.submission == rec)
  {
    var q := TopCountryStep(w, rec.form.countryOfResidence);
    if Quiet(w) {
      assert Quiet(q.world);
      assert rec.errors + [] == rec.errors;
    }
  }

  /** A country with no record is recorded as "country not found", and the not-found notice for the
      submission so recorded follows the query as the only other call; at most its one error is added. */
  lemma CountryMissingRecorded(w: World, sender: Sender, rec: SubmissionRecord)
    requires TopCountryStep(w, rec.form.countryOfResidence).value == Returned(None)
    ensures var q := TopCountryStep(w, rec.form.countryOfResidence);
      var p := CertifiedCountryRoute(w, sender, rec);
      var rec1 := WithErrors(rec, [CountryNotFound]);
      p.raised.None? && TopCountry(w.docs, rec.form.countryOfResidence).None? &&
      p.world.events == q.world.events + [Event(SendNotFoundNotice(rec1), NextFault(q.world))] &&
      rec1.errors <= p.submission.errors && |p.submission.errors| <= |rec1.errors| + 1
  {
  }

  /** In the batch function a country with no record is only recorded as "country not found": no call
      follows the query. */
  lemma BatchCountryMissingRecorded(w: World, sender: Sender, rec: SubmissionRecord)
    requires TopCountryStep(w, rec.form.countryOfResidence).value == Returned(None)
    ensures var q := TopCountryStep(w, rec.form.countryOfResidence);
      BatchCountryRoute(w, sender, rec) == Progress(q.world, WithErrors(rec, [CountryNotFound]), None) &&
      TopCountry(w.docs, rec.form.countryOfResidence).None?
  {
  }

  /** The batch function mails any country it finds, certified or not: the country mail, then the reply
      to the student; whatever the two sends report is appended to the errors, in that order, and nothing
      is raised. */
  lemma BatchMailsAnyCountry(w: World, sender: Sender, rec: SubmissionRecord)
    requires var q := TopCountryStep(w, rec.form.countryOfResidence); q.value.Returned? && q.value.value.Some?
    ensures var q := TopCountryStep(w, rec.form.countryOfResidence);
      var c := q.value.value.value;
      var p := BatchCountryRoute(w, sender, rec);
      var n := |q.world.events|;
      p.raised.None? && c == TopCountry(w.docs, rec.form.countryOfResidence).value &&
      p.submission.errors == rec.errors + SendCountryEmailStep(q.world, sender.address, sender.titleCase, c.emailAddresses, rec.form).value &&
      |p.world.events| > n &&
      p.world.events[n].op == SendSmtp(Email(sender.address, c.emailAddresses, SubjectLine, CountryEmailBody(rec.form, sender.titleCase))) &&
      (|p.world.events| == n + 2 ==>
        p.world.events[n + 1].op == SendSmtp(Email(sender.address, [rec.form.email], SubjectLine, ReturnEmailBody(true, [], rec.form, sender.titleCase))))
  {
  }

  /** The first query of the routing. */
  function RouteQuery(rec: SubmissionRecord): Op {
    if ByDistrict(rec) then ReadDistrictsByZip(rec.form.zipcode, 0) else ReadTopCountry(rec.form.countryOfResidence)
  }

  /** The try block up to the result: the create, then the routing of the single-submission function
      (`single`) or of the batch function. */
  function MainBlock(w: World, sender: Sender, rec: SubmissionRecord, single: bool): (p: Progress)
    ensures p.submission.id == rec.id && p.submission.form == rec.form && rec.errors <= p.submission.errors
    ensures Follows(w, p.world) && (p.raised.Some? ==> Scripted(w, p.raised.value))
    ensures Quiet(w) ==> Quiet(p.world) && p.raised.None?
    ensures |p.world.events| > |w.events| && p.world.events[|w.events|].op == CreateItem(SubmissionDocument(rec))
    ensures NextFault(w).None? ==>
      |p.world.events| > |w.events| + 1 && p.world.events[|w.events| + 1].op == RouteQuery(rec) &&
      p.world.docs == w.docs + [Stored(SubmissionDocument(rec), w.clock)]
    ensures NextFault(w).Some? ==> p == Progress(CreateStep(w, SubmissionDocument(rec)).world, rec, NextFault(w))
  {
    var c := CreateStep(w, SubmissionDocument(rec));
    match c.value
    case Some(e) => Progress(c.world, rec, Some(e))
    case None =>
      var p :=
        if ByDistrict(rec) then DistrictRoute(c.world, sender, rec, single)
        else if single then CertifiedCountryRoute(c.world, sender, rec)
        else BatchCountryRoute(c.world, sender, rec);
      FollowsTransitive(w, c.world, p.world);
      assert p.world.events[|w.events|] == c.world.events[|w.events|];
      p
  }

  /** The foreach over the districts, on the container. */
  method GatherAddressesAsync(container: Cloud, districts: seq<string>) returns (r: Call<seq<string>>)
    modifies container
    ensures Step(container.State(), r) == GatherAddresses(old(container.State()), districts, [])
  {
    var emails: seq<string> := [];
    for i := 0 to |districts|
      invariant GatherAddresses(old(container.State()), districts, []) ==
        GatherAddresses(container.State(), districts[i..], emails)
    {
      assert districts[i..][1..] == districts[i + 1..];
      var top := container.ReadTopDistrict(districts[i]);
      if top.Threw? {
        return Threw(top.e);
      }
      emails := emails + AddressesOf(top.value);
    }
    r := Returned(emails);
  }

  method DistrictRouteAsync(container: Cloud, emailSender: EmailSender, sub: InterestFormSubmission, notices: bool)
    returns (raised: Option<Exception>)
    requires emailSender.relay == container
    modifies container, sub.errors
    ensures Progress(container.State(), sub.Record(), raised) ==
      DistrictRoute(old(container.State()), emailSender.Config(), old(sub.Record()), notices)
  {
    var zipCodeService := new ZipCodeService(container);
    var found := zipCodeService.GetDistrictsByZipCode(sub.form.zipcode);
    if found.Threw? {
      return Some(found.e);
    }
    var districts := found.value;
    if districts != [] {
      var emails := GatherAddressesAsync(container, districts);
      if emails.Threw? {
        return Some(emails.e);
      }
      var errors := emailSender.SendDistrictEmailAsync(emails.value, districts, sub);
      if errors != [] {
        sub.AddErrors(errors);
      }
    } else {
      sub.AddError(DistrictNotFound);
      if notices {
        var errors := emailSender.SendCountryOrDistrictNotFoundEmailAsync(sub);
        if errors != [] {
          sub.AddErrors(errors);
        }
      }
    }
    raised := None;
  }

  method CertifiedCountryRouteAsync(container: Cloud, emailSender: EmailSender, sub: InterestFormSubmission)
    returns (raised: Option<Exception>)
    requires emailSender.relay == container
    modifies container, sub.errors
    ensures Progress(container.State(), sub.Record(), raised) ==
      CertifiedCountryRoute(old(container.State()), emailSender.Config(), old(sub.Record()))
  {
    var top := container.ReadTopCountry(sub.form.countryOfResidence);
    if top.Threw? {
      return Some(top.e);
    }
    if top.value.Some? {
      var contacts := top.value.value;
      var errors: seq<string>;
      if contacts.isCertified {
        errors := emailSender.SendCountryEmailAsync(contacts.emailAddresses, sub);
      } else {
        errors := emailSender.SendDistrictNotCertifiedEmailAsync(sub);
      }
      if errors != [] {
        sub.AddErrors(errors);
      }
    } else {
      sub.AddError(CountryNotFound);
      var errors := emailSender.SendCountryOrDistrictNotFoundEmailAsync(sub);
      if errors != [] {
        sub.AddErrors(errors);
      }
    }
    raised := None;
  }

  method BatchCountryRouteAsync(container: Cloud, emailSender: EmailSender, sub: InterestFormSubmission)
    returns (raised: Option<Exception>)
    requires emailSender.relay == container
    modifies container, sub.errors
    ensures Progress(container.State(), sub.Record(), raised) ==
      BatchCountryRoute(old(container.State()), emailSender.Config(), old(sub.Record()))
  {
    var top := container.ReadTopCountry(sub.form.countryOfResidence);
    if top.Threw? {
      return Some(top.e);
    }
    if top.value.Some? {
      var errors := emailSender.SendCountryEmailAsync(top.value.value.emailAddresses, sub);
      if errors != [] {
        sub.AddErrors(errors);
      }
    } else {
      sub.AddError(CountryNotFound);
    }
    raised := None;
  }

  method MainBlockAsync(container: Cloud, emailSender: EmailSender, sub: InterestFormSubmission, single: bool)
    returns (raised: Option<Exception>)
    requires emailSender.relay == container
    modifies container, sub.errors
    ensures Progress(container.State(), sub.Record(), raised) ==
      MainBlock(old(container.State()), emailSender.Config(), old(sub.Record()), single)
  {
    raised := container.CreateItemAsync(SubmissionDocument(sub.Record()));
    if raised.Some? {
      return;
    }
    if sub.form.countryOfResidence == "usa" || sub.form.countryOfResidence == "canada" {
      raised := DistrictRouteAsync(container, emailSender, sub, single);
    } else if single {
      raised := CertifiedCountryRouteAsync(container, emailSender, sub);
    } else {
      raised := BatchCountryRouteAsync(container, emailSender, sub);
    }
  }
}
