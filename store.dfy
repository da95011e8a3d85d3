/** The collaborators the pipeline talks to, as one in-memory model: the Cosmos container
    "ContactInfoAndRequests" (documents with a _ts timestamp), the SMTP relay, and the two notice senders
    whose implementation is not part of this model. Every call to a collaborator takes the next entry of
    a fault script (an exception it throws, or none) and is recorded in an event log. */
module Store {
  import opened Runtime
  import opened Strings
  import opened Submissions

  /** ContactsForDistrict (Type = "ContactsForDistrict"). */
  datatype ContactsForDistrict = ContactsForDistrict(
    id: string, country: string, district: string, emailAddresses: seq<string>, zipCodes: seq<string>)

  /** ContactsForCountry (Type = "ContactsForCountry"), with the IsCertified flag the single-submission
      function reads. */
  datatype ContactsForCountry = ContactsForCountry(
    id: string, country: string, emailAddresses: seq<string>, isCertified: bool)

  /** RequestBodyLog (Type = "RequestBodyLog"): an audit copy of a raw request body. */
  datatype RequestBodyLog = RequestBodyLog(id: string, requestBody: string)

  /** A document of the container; the variant stands for its Type property. A submission document has
      no Type (InterestFormSubmission never sets it). */
  datatype Document =
    | LogDocument(log: RequestBodyLog)
    | SubmissionDocument(submission: SubmissionRecord)
    | DistrictDocument(districtContacts: ContactsForDistrict)
    | CountryDocument(countryContacts: ContactsForCountry)
  {
    function Id(): string {
      match this
      case LogDocument(l) => l.id
      case SubmissionDocument(s) => s.id
      case DistrictDocument(d) => d.id
      case CountryDocument(c) => c.id
    }
  }

  /** A stored document with its _ts. */
  datatype Stored = Stored(doc: Document, ts: nat)

  /** An e-mail handed to the SMTP relay. */
  datatype Email = Email(sender: string, recipients: seq<string>, subject: string, body: string)

  /** A call to a collaborator. */
  datatype Op =
    | CreateItem(doc: Document)
    | UpsertItem(doc: Document)
    | ReadDistrictsByZip(zip: string, offset: nat)
    | ReadTopDistrict(district: string)
    | ReadTopCountry(country: string)
    | SendSmtp(email: Email)
    | SendNotFoundNotice(submission: SubmissionRecord)
    | SendNotCertifiedNotice(submission: SubmissionRecord)

  datatype Event = Event(op: Op, fault: Option<Exception>)

  /** The number of rows a query page holds at most. */
  type PageSize = n: nat | 0 < n witness 1

  /** The state of all collaborators: the documents, the clock that stamps _ts, the page size, the fault
      script still to be played and the calls made so far. */
  datatype World = World(
    docs: seq<Stored>, clock: nat, pageSize: PageSize, faults: seq<Option<Exception>>, events: seq<Event>)

  /** A value together with the state it leaves behind. */
  datatype Step<+T> = Step(world: World, value: T)

  /** `w2` comes after `w1`: the same page size, the calls of `w1` are the first calls of `w2`, and the
      faults still to come were already to come in `w1`. */
  ghost predicate Follows(w1: World, w2: World) {
    w2.pageSize == w1.pageSize && w1.events <= w2.events &&
    forall f :: f in w2.faults ==> f in w1.faults
  }

  lemma FollowsTransitive(w1: World, w2: World, w3: World)
    requires Follows(w1, w2) && Follows(w2, w3)
    ensures Follows(w1, w3)
  {
    assert w1.events == w2.events[..|w1.events|];
    assert w2.events[..|w1.events|] == w3.events[..|w1.events|];
  }

  /** No call made from `w` on meets a fault. */
  ghost predicate Quiet(w: World) {
    forall f :: f in w.faults ==> f.None?
  }

  /** Every fault still to come has at least five nested inner exceptions, so LoggingService.LogException
      can log it. */
  ghost predicate Deep(w: World) {
    forall f :: f in w.faults ==> f.None? || InnerDepth(f.value) >= 5
  }

  /** `e` is one of the faults still to come. */
  ghost predicate Scripted(w: World, e: Exception) {
    Some(e) in w.faults
  }

  lemma DeepFollows(w1: World, w2: World)
    requires Follows(w1, w2) && Deep(w1)
    ensures Deep(w2)
  {
  }

  lemma QuietFollows(w1: World, w2: World)
    requires Follows(w1, w2) && Quiet(w1)
    ensures Quiet(w2)
  {
  }

  lemma ScriptedFollows(w1: World, w2: World, e: Exception)
    requires Follows(w1, w2) && Scripted(w2, e)
    ensures Scripted(w1, e)
  {
  }

  /** The fault the next call meets: the head of the script, or none once the script is used up. */
  function NextFault(w: World): (f: Option<Exception>)
    ensures f.Some? ==> Scripted(w, f.value)
  {
    if w.faults == [] then None else w.faults[0]
  }

  /** One call to a collaborator: it meets the next fault of the script and is logged. The
      documents are left to the caller. */
  function Attempt(w: World, op: Op): (s: Step<Option<Exception>>)
    ensures s.value == NextFault(w)
    ensures s.world.events == w.events + [Event(op, s.value)]
    ensures s.world.docs == w.docs && s.world.clock == w.clock && Follows(w, s.world)
    ensures |s.world.faults| == if w.faults == [] then 0 else |w.faults| - 1
    ensures Quiet(w) ==> Quiet(s.world) && s.value.None?
  {
    var f := NextFault(w);
    Step(w.(faults := if w.faults == [] then [] else w.faults[1..], events := w.events + [Event(op, f)]), f)
  }

  /** Container.CreateItemAsync: the document is appended with the current _ts unless the call fails. */
  function CreateStep(w: World, doc: Document): (s: Step<Option<Exception>>)
    ensures s.value == NextFault(w) && Follows(w, s.world)
    ensures s.world.events == w.events + [Event(CreateItem(doc), s.value)]
    ensures Quiet(w) ==> Quiet(s.world)
    ensures s.value.None? ==> s.world.docs == w.docs + [Stored(doc, w.clock)]
    ensures s.value.Some? ==> s.world.docs == w.docs
  {
    var a := Attempt(w, CreateItem(doc));
    if a.value.None? then
      Step(a.world.(docs := w.docs + [Stored(doc, w.clock)], clock := w.clock + 1), a.value)
    else a
  }

  /** The documents after an upsert of `doc` stamped `ts`: the first document with the same id is
      replaced, or `doc` is appended when there is none. */
  function Upserted(docs: seq<Stored>, doc: Document, ts: nat): (r: seq<Stored>)
    ensures Stored(doc, ts) in r
    ensures forall x :: x in docs && x.doc.Id() != doc.Id() ==> x in r
    ensures forall x :: x in r ==> x == Stored(doc, ts) || x in docs
    ensures |r| == |docs| || |r| == |docs| + 1
    ensures |r| == |docs| <==> exists x :: x in docs && x.doc.Id() == doc.Id()
    ensures UniqueIds(docs) ==> UniqueIds(r) && forall x :: x in r && x.doc.Id() == doc.Id() ==> x == Stored(doc, ts)
  {
    if docs == [] then [Stored(doc, ts)]
    else if docs[0].doc.Id() == doc.Id() then
      var r := [Stored(doc, ts)] + docs[1..];
      assert UniqueIds(docs) ==> forall x :: x in docs[1..] ==> x.doc.Id() != doc.Id() by {
        if UniqueIds(docs) {
          forall x | x in docs[1..] ensures x.doc.Id() != doc.Id() {
            var j :| 0 <= j < |docs[1..]| && docs[1..][j] == x;
            assert docs[j + 1] == x;
          }
        }
      }
      r
    else
      var rest := Upserted(docs[1..], doc, ts);
      var r := [docs[0]] + rest;
      assert (exists x :: x in docs && x.doc.Id() == doc.Id()) <==> (exists x :: x in docs[1..] && x.doc.Id() == doc.Id()) by {
        assert docs == [docs[0]] + docs[1..];
      }
      assert UniqueIds(docs) ==> UniqueIds(docs[1..]) && forall x :: x in rest ==> x.doc.Id() != docs[0].doc.Id() by {
        if UniqueIds(docs) {
          forall x | x in docs[1..] ensures x.doc.Id() != docs[0].doc.Id() {
            var j :| 0 <= j < |docs[1..]| && docs[1..][j] == x;
            assert docs[j + 1] == x;
          }
        }
      }
      r
  }

  /** No two documents share an id, as the container guarantees. */
  predicate UniqueIds(docs: seq<Stored>) {
    forall i, j :: 0 <= i < j < |docs| ==> docs[i].doc.Id() != docs[j].doc.Id()
  }

  /** Container.UpsertItemAsync. */
  function UpsertStep(w: World, doc: Document): (s: Step<Option<Exception>>)
    ensures s.value == NextFault(w) && Follows(w, s.world)
    ensures s.world.events == w.events + [Event(UpsertItem(doc), s.value)]
    ensures Quiet(w) ==> Quiet(s.world)
    ensures s.value.None? ==> s.world.docs == Upserted(w.docs, doc, w.clock)
    ensures s.value.Some? ==> s.world.docs == w.docs
  {
    var a := Attempt(w, UpsertItem(doc));
    if a.value.None? then
      Step(a.world.(docs := Upserted(w.docs, doc, w.clock), clock := w.clock + 1), a.value)
    else a
  }

  /** `st` is a ContactsForDistrict record of district `d` whose ZipCodes hold `zip` exactly. */
  predicate ListsZip(st: Stored, zip: string, d: string) {
    st.doc.DistrictDocument? && zip in st.doc.districtContacts.zipCodes && st.doc.districtContacts.district == d
  }

  /** The rows of "SELECT c.District ... WHERE c.Type='ContactsForDistrict' and ARRAY_CONTAINS(c.ZipCodes,
      @ZipCode) GROUP BY c.District": one row per district, in order of first appearance. */
  function DistrictsWithZip(docs: seq<Stored>, zip: string): (r: seq<string>)
    ensures NoDuplicates(r)
    ensures forall d :: d in r <==> exists i :: 0 <= i < |docs| && ListsZip(docs[i], zip, d)
  {
    if docs == [] then []
    else
      var n := |docs| - 1;
      var r0 := DistrictsWithZip(docs[..n], zip);
      var last := docs[n];
      assert forall i :: 0 <= i < n ==> docs[..n][i] == docs[i];
      if last.doc.DistrictDocument? && zip in last.doc.districtContacts.zipCodes
         && last.doc.districtContacts.district !in r0
      then
        var d := last.doc.districtContacts.district;
        assert ListsZip(docs[n], zip, d);
        r0 + [d]
      else r0
  }

  /** A TOP 1 query: the district contacts of one district, or the country contacts of one country. */
  datatype Query = DistrictQuery(district: string) | CountryQuery(country: string)

  predicate Answers(st: Stored, q: Query) {
    match q
    case DistrictQuery(d) => st.doc.DistrictDocument? && st.doc.districtContacts.district == d
    case CountryQuery(c) => st.doc.CountryDocument? && st.doc.countryContacts.country == c
  }

  /** "SELECT TOP 1 * ... ORDER BY c._ts desc": a matching document with the greatest _ts; of several
      with that _ts, the one stored last. */
  function Newest(docs: seq<Stored>, q: Query): (r: Option<Stored>)
    ensures r.Some? ==> r.value in docs && Answers(r.value, q)
    ensures r.Some? ==> forall x :: x in docs && Answers(x, q) ==> x.ts <= r.value.ts
    ensures r.None? <==> forall x :: x in docs ==> !Answers(x, q)
  {
    if docs == [] then None
    else
      var n := |docs| - 1;
      var r0 := Newest(docs[..n], q);
      assert docs == docs[..n] + [docs[n]];
      if Answers(docs[n], q) && (r0.None? || r0.value.ts <= docs[n].ts) then Some(docs[n]) else r0
  }

  function TopDistrict(docs: seq<Stored>, d: string): Option<ContactsForDistrict> {
    match Newest(docs, DistrictQuery(d))
    case None => None
    case Some(st) => Some(st.doc.districtContacts)
  }

  function TopCountry(docs: seq<Stored>, c: string): Option<ContactsForCountry> {
    match Newest(docs, CountryQuery(c))
    case None => None
    case Some(st) => Some(st.doc.countryContacts)
  }

  /** The most recent district record of a district is one of that district's records, and no other
      record of it is newer. */
  lemma TopDistrictIsNewest(docs: seq<Stored>, d: string)
    ensures TopDistrict(docs, d).Some? ==>
      exists st :: st in docs && st.doc == DistrictDocument(TopDistrict(docs, d).value) &&
        TopDistrict(docs, d).value.district == d &&
        forall x :: x in docs && Answers(x, DistrictQuery(d)) ==> x.ts <= st.ts
    ensures TopDistrict(docs, d).None? <==> forall x :: x in docs ==> !Answers(x, DistrictQuery(d))
  {
    var r := Newest(docs, DistrictQuery(d));
    if r.Some? {
      assert r.value.doc == DistrictDocument(r.value.doc.districtContacts);
    }
  }

  /** One page of the zip-code query, starting at row `offset`. */
  function ZipPageStep(w: World, zip: string, offset: nat): (s: Step<Call<seq<string>>>)
    requires offset <= |DistrictsWithZip(w.docs, zip)|
    ensures s.world.docs == w.docs && Follows(w, s.world)
    ensures s.value.Threw? ==> NextFault(w) == Some(s.value.e)
    ensures s.value.Threw? <==> NextFault(w).Some?
    ensures Quiet(w) ==> Quiet(s.world)
    ensures s.value.Returned? ==> offset + |s.value.value| <= |DistrictsWithZip(w.docs, zip)|
    ensures s.value.Returned? ==>
      s.value.value == DistrictsWithZip(w.docs, zip)[offset..offset + |s.value.value|] &&
      (offset < |DistrictsWithZip(w.docs, zip)| ==> |s.value.value| > 0)
  {
    var a := Attempt(w, ReadDistrictsByZip(zip, offset));
    var rows := DistrictsWithZip(w.docs, zip);
    var end := if offset + w.pageSize <= |rows| then offset + w.pageSize else |rows|;
    match a.value
    case Some(e) => Step(a.world, Threw(e))
    case None => Step(a.world, Returned(rows[offset..end]))
  }

  /** One TOP 1 district query. */
  function TopDistrictStep(w: World, d: string): (s: Step<Call<Option<ContactsForDistrict>>>)
    ensures s.world.docs == w.docs && Follows(w, s.world)
    ensures s.value.Returned? ==> s.value.value == TopDistrict(w.docs, d)
    ensures s.value.Threw? ==> NextFault(w) == Some(s.value.e)
    ensures s.value.Threw? <==> NextFault(w).Some?
    ensures Quiet(w) ==> Quiet(s.world)
  {
    var a := Attempt(w, ReadTopDistrict(d));
    match a.value
    case Some(e) => Step(a.world, Threw(e))
    case None => Step(a.world, Returned(TopDistrict(w.docs, d)))
  }

  /** One TOP 1 country query. */
  function TopCountryStep(w: World, c: string): (s: Step<Call<Option<ContactsForCountry>>>)
    ensures s.world.docs == w.docs && Follows(w, s.world)
    ensures s.value.Returned? ==> s.value.value == TopCountry(w.docs, c)
    ensures s.value.Threw? ==> NextFault(w) == Some(s.value.e)
    ensures s.value.Threw? <==> NextFault(w).Some?
    ensures Quiet(w) ==> Quiet(s.world)
  {
    var a := Attempt(w, ReadTopCountry(c));
    match a.value
    case Some(e) => Step(a.world, Threw(e))
    case None => Step(a.world, Returned(TopCountry(w.docs, c)))
  }

  /** The in-memory container, relay and notice senders, changed in place by each call. */
  class Cloud {
    var docs: seq<Stored>
    var clock: nat
    const pageSize: PageSize
    var faults: seq<Option<Exception>>
    var events: seq<Event>

    function State(): World
      reads this
    {
      World(docs, clock, pageSize, faults, events)
    }

    constructor (w: World)
      ensures State() == w
    {
      docs, clock, pageSize, faults, events := w.docs, w.clock, w.pageSize, w.faults, w.events;
    }

    /** Takes the next fault of the script and logs the call. */
    method Perform(op: Op) returns (fault: Option<Exception>)
      modifies this
      ensures Step(State(), fault) == Attempt(old(State()), op)
    {
      if faults == [] {
        fault := None;
      } else {
        fault := faults[0];
        faults := faults[1..];
      }
      events := events + [Event(op, fault)];
    }

    method CreateItemAsync(doc: Document) returns (fault: Option<Exception>)
      modifies this
      ensures Step(State(), fault) == CreateStep(old(State()), doc)
    {
      fault := Perform(CreateItem(doc));
      if fault.None? {
        docs := docs + [Stored(doc, clock)];
        clock := clock + 1;
      }
    }

    method UpsertItemAsync(doc: Document) returns (fault: Option<Exception>)
      modifies this
      ensures Step(State(), fault) == UpsertStep(old(State()), doc)
    {
      fault := Perform(UpsertItem(doc));
      if fault.None? {
        docs := Upserted(docs, doc, clock);
        clock := clock + 1;
      }
    }

    method ReadZipPage(zip: string, offset: nat) returns (r: Call<seq<string>>)
      requires offset <= |DistrictsWithZip(docs, zip)|
      modifies this
      ensures Step(State(), r) == ZipPageStep(old(State()), zip, offset)
    {
      var rows := DistrictsWithZip(docs, zip);
      var fault := Perform(ReadDistrictsByZip(zip, offset));
      if fault.Some? {
        r := Threw(fault.value);
      } else {
        var end := if offset + pageSize <= |rows| then offset + pageSize else |rows|;
        r := Returned(rows[offset..end]);
      }
    }

    method ReadTopDistrict(d: string) returns (r: Call<Option<ContactsForDistrict>>)
      modifies this
      ensures Step(State(), r) == TopDistrictStep(old(State()), d)
    {
      var fault := Perform(Op.ReadTopDistrict(d));
      r := if fault.Some? then Threw(fault.value) else Returned(TopDistrict(docs, d));
    }

    method ReadTopCountry(c: string) returns (r: Call<Option<ContactsForCountry>>)
      modifies this
      ensures Step(State(), r) == TopCountryStep(old(State()), c)
    {
      var fault := Perform(Op.ReadTopCountry(c));
      r := if fault.Some? then Threw(fault.value) else Returned(TopCountry(docs, c));
    }
  }
}
