/** CreateInterestFormEntries: a list of submissions per request. The raw body is logged and the list
    parsed; then each submission, as the deserialiser built it, is created, routed and counted, and the
    function answers with the counts and the failed submissions. */
module BatchEntries {
  import opened Runtime
  import opened Strings
  import opened Submissions
  import opened Store
  import opened Mail
  import opened Intake
  import opened Routing
  import opened Responses

  /** How one turn of the foreach ends: the world, the submission with its errors, what the turn added
      to CountSuccess and to CountError, how many ErrorSubmissions it listed, and the exception that
      escapes the function, if any. */
  datatype ItemEnd = ItemEnd(
    world: World, submission: SubmissionRecord, successes: nat, failures: nat, listings: nat,
    escaped: Option<Exception>)

  /** The catch block of one turn: count, record the message, log, alert; a failed alert is recorded
      and logged too; then list the submission. */
  function CatchItem(w: World, sender: Sender, rec: SubmissionRecord, e: Exception): (t: ItemEnd)
    ensures t.world.docs == w.docs && Follows(w, t.world)
    ensures t.submission.id == rec.id && t.submission.form == rec.form
    ensures rec.errors + [e.message] <= t.submission.errors
    ensures t.successes == 0 && t.failures == 1
    ensures t.listings == if t.escaped.None? then 1 else 0
    ensures t.escaped.Some? ==> t.escaped.value == NullReference
    ensures t.escaped.None? <==> InnerDepth(e) >= 5 && (NextFault(w).None? || InnerDepth(NextFault(w).value) >= 5)
    ensures InnerDepth(e) < 5 ==> t.world == w && t.escaped == Some(NullReference)
    ensures InnerDepth(e) >= 5 ==>
      t.world.events == w.events +
        [Event(SendSmtp(Email(sender.address, [sender.address], ProcessFailureSubject, AlertBody(e.message, SubmissionTypeName))), NextFault(w))]
  {
    var rec1 := WithErrors(rec, [e.message]);
    match LogException(e)
    case Some(x) => ItemEnd(w, rec1, 0, 1, 0, Some(x))
    case None =>
      var s := SendEmailStep(w, sender.address, [sender.address], ProcessFailureSubject, AlertBody(e.message, SubmissionTypeName));
      match s.value
      case Returned(_) => ItemEnd(s.world, rec1, 0, 1, 1, None)
      case Threw(e2) =>
        var rec2 := WithErrors(rec1, [AlertFailurePrefix + e2.message]);
        var logged := LogException(e2);
        ItemEnd(s.world, rec2, 0, 1, if logged.None? then 1 else 0, logged)
  }

  /** One turn of the foreach. */
  function ItemSpec(w: World, sender: Sender, rec: SubmissionRecord): (t: ItemEnd)
    ensures Follows(w, t.world)
    ensures t.submission.id == rec.id && t.submission.form == rec.form && rec.errors <= t.submission.errors
    ensures t.successes <= 1 && t.failures <= 2 && t.successes + t.failures >= 1
    ensures t.successes == 1 ==> t.failures == 0 && t.listings == 0 && t.submission.errors == []
    ensures t.escaped.None? ==> t.listings == t.failures
    ensures t.listings > 0 ==> t.submission.errors != []
    ensures t.escaped.Some? ==> t.escaped.value == NullReference
  {
    var p := MainBlock(w, sender, rec, false);
    match p.raised
    case Some(e) =>
      var t := CatchItem(p.world, sender, p.submission, e);
      FollowsTransitive(w, p.world, t.world);
      t
    case None =>
      if p.submission.errors != [] then
        var u := UpsertStep(p.world, SubmissionDocument(p.submission));
        FollowsTransitive(w, p.world, u.world);
        match u.value
        case None => ItemEnd(u.world, p.submission, 0, 1, 1, None)
        case Some(e) =>
          var t := CatchItem(u.world, sender, p.submission, e);
          FollowsTransitive(w, u.world, t.world);
          t.(failures := 2, listings := t.listings + 1)
      else ItemEnd(p.world, p.submission, 1, 0, 0, None)
  }

  /** Each submission is created in the container before anything else of its turn, and, when that
      succeeds, routed right after. */
  lemma ItemCreatedBeforeRouting(w: World, sender: Sender, rec: SubmissionRecord)
    ensures var t := ItemSpec(w, sender, rec);
      |t.world.events| > |w.events| && t.world.events[|w.events|].op == CreateItem(SubmissionDocument(rec)) &&
      (NextFault(w).None? ==> |t.world.events| > |w.events| + 1 && t.world.events[|w.events| + 1].op == RouteQuery(rec))
  {
    var p := MainBlock(w, sender, rec, false);
    var t := ItemSpec(w, sender, rec);
    if p.raised.Some? {
      var c := CatchItem(p.world, sender, p.submission, p.raised.value);
      assert t == c;
      assert p.world.events <= t.world.events;
    } else if p.submission.errors != [] {
      var u := UpsertStep(p.world, SubmissionDocument(p.submission));
      if u.value.Some? {
        var c := CatchItem(u.world, sender, p.submission, u.value.value);
        FollowsTransitive(p.world, u.world, c.world);
        assert p.world.events <= t.world.events;
      } else {
        assert p.world.events <= t.world.events;
      }
    }
  }

  /** A submission that arrives with errors in its JSON is never counted as a success. */
  lemma ArrivingErrorsCount(w: World, sender: Sender, rec: SubmissionRecord)
    requires rec.errors != []
    ensures ItemSpec(w, sender, rec).successes == 0
  {
    var t := ItemSpec(w, sender, rec);
    assert t.submission.errors[0] == rec.errors[0];
  }

  /** A turn is counted twice, and its submission listed twice, exactly when the upsert of a submission
      with errors fails and the catch block completes. */
  lemma UpsertFaultCountsTwice(w: World, sender: Sender, rec: SubmissionRecord)
    ensures var t := ItemSpec(w, sender, rec);
      var p := MainBlock(w, sender, rec, false);
      t.failures == 2 <==> p.raised.None? && p.submission.errors != [] && NextFault(p.world).Some?
    ensures var t := ItemSpec(w, sender, rec);
      t.failures == 2 && t.escaped.None? ==> t.listings == 2
  {
  }

  /** When every fault can be logged, no turn lets an exception escape. */
  lemma DeepItemCompletes(w: World, sender: Sender, rec: SubmissionRecord)
    requires Deep(w)
    ensures ItemSpec(w, sender, rec).escaped.None?
  {
    var p := MainBlock(w, sender, rec, false);
    DeepFollows(w, p.world);
    if p.raised.None? && p.submission.errors != [] {
      var u := UpsertStep(p.world, SubmissionDocument(p.submission));
      DeepFollows(p.world, u.world);
    }
  }

  /** With no fault, a turn counts once: a success exactly when routing left the submission without errors. */
  lemma QuietItemCountsOnce(w: World, sender: Sender, rec: SubmissionRecord)
    requires Quiet(w)
    ensures var t := ItemSpec(w, sender, rec);
      t.escaped.None? && t.successes + t.failures == 1 && Quiet(t.world) &&
      (t.successes == 1 <==> MainBlock(w, sender, rec, false).submission.errors == [])
  {
    var p := MainBlock(w, sender, rec, false);
    if p.submission.errors != [] {
      assert NextFault(p.world).None?;
    }
  }

  /** The response after a turn: the counts added, and the turn's listings, each showing the submission's
      error list as it stands at the end of the turn (the list object is shared). */
  function Apply(r: Report, t: ItemEnd): (r2: Report)
    ensures r2.countSuccess == r.countSuccess + t.successes && r2.countError == r.countError + t.failures
    ensures |r2.entries| == |r.entries| + t.listings && r2.entries[..|r.entries|] == r.entries
    ensures forall i :: |r.entries| <= i < |r2.entries| ==> r2.entries[i] == ErrorEntry(t.submission.id, t.submission.errors)
  {
    Report(r.countSuccess + t.successes, r.countError + t.failures,
      r.entries + Copies(ErrorEntry(t.submission.id, t.submission.errors), t.listings))
  }

  /** The response keeps one listing per error counted, and every listing shows at least one error. */
  ghost predicate Consistent(r: Report) {
    |r.entries| == r.countError && r.countSuccess >= 0 &&
    forall i :: 0 <= i < |r.entries| ==> r.entries[i].errors != []
  }

  /** The foreach from item `items[0]` on, with response `r` so far: the response, or the exception that
      escaped a turn. */
  function BatchLoop(w: World, sender: Sender, items: seq<SubmissionRecord>, r: Report): (s: Step<Call<Report>>)
    ensures Follows(w, s.world)
    ensures s.value.Threw? ==> s.value.e == NullReference
    ensures s.value.Returned? && Consistent(r) ==> Consistent(s.value.value)
    ensures s.value.Returned? ==>
      s.value.value.countSuccess + s.value.value.countError >= r.countSuccess + r.countError + |items|
    ensures s.value.Returned? ==>
      s.value.value.countSuccess + s.value.value.countError <= r.countSuccess + r.countError + 2 * |items|
    decreases |items|
  {
    if items == [] then Step(w, Returned(r))
    else
      var t := ItemSpec(w, sender, items[0]);
      if t.escaped.Some? then
        Step(t.world, Threw(t.escaped.value))
      else
        var s := BatchLoop(t.world, sender, items[1..], Apply(r, t));
        FollowsTransitive(w, t.world, s.world);
        s
  }

  /** The turns of the foreach from `items[0]` on, one per item, up to and including a turn that lets an
      exception escape. A turn keeps its item's id; a listed turn counted a failure and no success. */
  function Turns(w: World, sender: Sender, items: seq<SubmissionRecord>): (ts: seq<ItemEnd>)
    ensures |ts| <= |items|
    ensures forall j :: 0 <= j < |ts| ==> ts[j].submission.id == items[j].id
    ensures forall j :: 0 <= j < |ts| && ts[j].listings > 0 ==>
      ts[j].successes == 0 && ts[j].failures > 0 && ts[j].submission.errors != []
    ensures forall j :: 0 <= j < |ts| && ts[j].escaped.None? ==> ts[j].listings == ts[j].failures
    decreases |items|
  {
    if items == [] then []
    else
      var t := ItemSpec(w, sender, items[0]);
      if t.escaped.Some? then [t]
      else
        var rest := Turns(t.world, sender, items[1..]);
        TurnIdsCons(t, rest, items);
        [t] + rest
  }

  /** Putting the first item's turn before the turns of the others keeps every turn at its item's id. */
  lemma TurnIdsCons(t: ItemEnd, rest: seq<ItemEnd>, items: seq<SubmissionRecord>)
    requires items != [] && t.submission.id == items[0].id && |rest| <= |items| - 1
    requires forall j :: 0 <= j < |rest| ==> rest[j].submission.id == items[1..][j].id
    ensures forall j :: 0 <= j < |[t] + rest| ==> ([t] + rest)[j].submission.id == items[j].id
  {
    forall j | 1 <= j < |[t] + rest|
      ensures ([t] + rest)[j].submission.id == items[j].id
    {
      assert ([t] + rest)[j] == rest[j - 1] && items[1..][j - 1] == items[j];
    }
  }

  /** The ErrorSubmissions the turns add to the response, turn after turn. */
  function Listings(ts: seq<ItemEnd>): (es: seq<ErrorEntry>)
    ensures |es| == if ts == [] then 0 else ts[0].listings + |Listings(ts[1..])|
  {
    if ts == [] then []
    else Copies(ErrorEntry(ts[0].submission.id, ts[0].submission.errors), ts[0].listings) + Listings(ts[1..])
  }

  /** The turn that listed entry `k`: a turn with a listing, whose submission and errors the entry shows. */
  function Owner(ts: seq<ItemEnd>, k: nat): (j: nat)
    requires k < |Listings(ts)|
    ensures j < |ts| && ts[j].listings > 0
    ensures Listings(ts)[k] == ErrorEntry(ts[j].submission.id, ts[j].submission.errors)
    decreases |ts|
  {
    var n := ts[0].listings;
    var head := Copies(ErrorEntry(ts[0].submission.id, ts[0].submission.errors), n);
    assert Listings(ts) == head + Listings(ts[1..]);
    if k < n then 0
    else
      var j := Owner(ts[1..], k - n);
      assert Listings(ts)[k] == Listings(ts[1..])[k - n];
      1 + j
  }

  /** Entries appear in the order of their turns. */
  lemma {:induction false} OwnerOrdered(ts: seq<ItemEnd>, k1: nat, k2: nat)
    requires k1 <= k2 < |Listings(ts)|
    ensures Owner(ts, k1) <= Owner(ts, k2)
    decreases |ts|
  {
    var n := ts[0].listings;
    if k1 < n {
      assert Owner(ts, k1) == 0;
    } else {
      OwnerOrdered(ts[1..], k1 - n, k2 - n);
      assert Owner(ts, k1) == 1 + Owner(ts[1..], k1 - n);
      assert Owner(ts, k2) == 1 + Owner(ts[1..], k2 - n);
    }
  }

  /** Every turn with a listing is the owner of some entry. */
  lemma {:induction false} OwnerCovers(ts: seq<ItemEnd>, j: nat)
    requires j < |ts| && ts[j].listings > 0
    ensures exists k :: 0 <= k < |Listings(ts)| && Owner(ts, k) == j
    decreases |ts|
  {
    var n := ts[0].listings;
    if j == 0 {
      assert Owner(ts, 0) == 0;
    } else {
      assert ts[1..][j - 1] == ts[j];
      OwnerCovers(ts[1..], j - 1);
      var k :| 0 <= k < |Listings(ts[1..])| && Owner(ts[1..], k) == j - 1;
      assert k + n < |Listings(ts)|;
      assert Owner(ts, k + n) == 1 + Owner(ts[1..], k);
    }
  }

  /** The foreach answers exactly when no turn lets an exception escape, and its response lists what the
      turns list, in their order. */
  lemma {:induction false} BatchLoopTurns(w: World, sender: Sender, items: seq<SubmissionRecord>, r: Report)
    ensures var s := BatchLoop(w, sender, items, r);
      var ts := Turns(w, sender, items);
      (s.value.Returned? <==> |ts| == |items| && NoneEscaped(ts)) &&
      (s.value.Returned? ==> s.value.value.entries == r.entries + Listings(ts))
    decreases |items|
  {
    if items != [] {
      var t := ItemSpec(w, sender, items[0]);
      BatchLoopTurn(w, sender, items, r);
      TurnsUnfold(w, sender, items);
      if t.escaped.None? {
        var rest := Turns(t.world, sender, items[1..]);
        BatchLoopTurns(t.world, sender, items[1..], Apply(r, t));
        ListingsCons(t, rest, r);
      }
    }
  }

  /** No turn lets an exception escape. */
  predicate NoneEscaped(ts: seq<ItemEnd>) {
    forall j :: 0 <= j < |ts| ==> ts[j].escaped.None?
  }

  lemma TurnsUnfold(w: World, sender: Sender, items: seq<SubmissionRecord>)
    requires items != []
    ensures var t := ItemSpec(w, sender, items[0]);
      Turns(w, sender, items) == if t.escaped.Some? then [t] else [t] + Turns(t.world, sender, items[1..])
  {
  }

  /** Prepending a turn that lets nothing escape: its listings come first. */
  lemma ListingsCons(t: ItemEnd, rest: seq<ItemEnd>, r: Report)
    requires t.escaped.None?
    ensures NoneEscaped([t] + rest) <==> NoneEscaped(rest)
    ensures Apply(r, t).entries + Listings(rest) == r.entries + Listings([t] + rest)
  {
    var ts := [t] + rest;
    assert ts[1..] == rest;
    assert forall j :: 0 <= j < |rest| ==> rest[j] == ts[j + 1];
  }

  /** With no fault, the foreach runs to the end and counts each submission exactly once. */
  lemma {:induction false} QuietLoopCountsEach(w: World, sender: Sender, items: seq<SubmissionRecord>, r: Report)
    requires Quiet(w)
    ensures var s := BatchLoop(w, sender, items, r);
      s.value.Returned? &&
      s.value.value.countSuccess + s.value.value.countError == r.countSuccess + r.countError + |items|
    decreases |items|
  {
    if items != [] {
      var t := ItemSpec(w, sender, items[0]);
      QuietItemCountsOnce(w, sender, items[0]);
      QuietLoopCountsEach(t.world, sender, items[1..], Apply(r, t));
    }
  }

  /** How many turns counted their submission twice: a failure before the upsert of its errors, and
      another in the catch block when that upsert faulted. */
  function DoubleCounted(ts: seq<ItemEnd>): (n: nat)
    ensures n <= |ts|
    ensures n == 0 <==> forall j :: 0 <= j < |ts| ==> ts[j].failures != 2
  {
    if ts == [] then 0
    else
      var rest := DoubleCounted(ts[1..]);
      assert forall j :: 1 <= j < |ts| ==> ts[j] == ts[1..][j - 1];
      (if ts[0].failures == 2 then 1 else 0) + rest
  }

  /** When the foreach runs to the end, the counts grow by one per item plus one per item counted twice. */
  lemma {:induction false} BatchLoopCountsTotal(w: World, sender: Sender, items: seq<SubmissionRecord>, r: Report)
    ensures var s := BatchLoop(w, sender, items, r);
      s.value.Returned? ==>
        s.value.value.countSuccess + s.value.value.countError ==
          r.countSuccess + r.countError + |items| + DoubleCounted(Turns(w, sender, items))
    decreases |items|
  {
    if items != [] {
      var t := ItemSpec(w, sender, items[0]);
      BatchLoopTurn(w, sender, items, r);
      TurnsUnfold(w, sender, items);
      if t.escaped.None? {
        var rest := Turns(t.world, sender, items[1..]);
        BatchLoopCountsTotal(t.world, sender, items[1..], Apply(r, t));
        assert ([t] + rest)[1..] == rest;
      }
    }
  }

  /** When every fault can be logged, the foreach runs to the end. */
  lemma {:induction false} DeepLoopCompletes(w: World, sender: Sender, items: seq<SubmissionRecord>, r: Report)
    requires Deep(w)
    ensures BatchLoop(w, sender, items, r).value.Returned?
    decreases |items|
  {
    if items != [] {
      var t := ItemSpec(w, sender, items[0]);
      DeepItemCompletes(w, sender, items[0]);
      DeepFollows(w, t.world);
      DeepLoopCompletes(t.world, sender, items[1..], Apply(r, t));
    }
  }

  /** What CreateInterestFormEntries does from state `w`, given the request body, the Guid of the audit
      copy, and what the deserialiser makes of the body (an exception, a JSON null, or the list). */
  function BatchRun(w: World, sender: Sender, body: string, logId: string, parsed: Call<Option<seq<SubmissionRecord>>>)
    : (s: Step<HttpResult<Report>>)
    ensures Follows(w, s.world)
    ensures |s.world.events| > |w.events| && s.world.events[|w.events|].op == CreateItem(AuditDocument(body, logId))
    ensures s.value.StatusCode? ==> s.value.code == 500 && (NextFault(w).Some? || parsed.Threw?)
    ensures !s.value.BadRequestError?
    ensures s.value.OkObject? ==> Consistent(s.value.value)
    ensures s.value.Unhandled? ==> s.value.e == NullReference
  {
    var a := AuditStep<Report>(w, sender.address, body, logId);
    match a.value
    case Some(r) => Step(a.world, r)
    case None =>
      match parsed
      case Threw(e) =>
        var f := FrontFailure<Report>(a.world, sender.address, ParseFailureSubject, e, body);
        FollowsTransitive(w, a.world, f.world);
        assert f.world.events[|w.events|] == a.world.events[|w.events|];
        f
      case Returned(None) => Step(a.world, Unhandled(NullReference))
      case Returned(Some(items)) =>
        var s := BatchLoop(a.world, sender, items, EmptyReport());
        FollowsTransitive(w, a.world, s.world);
        assert s.world.events[|w.events|] == a.world.events[|w.events|];
        match s.value
        case Threw(e) => Step(s.world, Unhandled(e))
        case Returned(r) => Step(s.world, OkObject(r))
  }

  /** When the function answers with the response, its ErrorSubmissions are those of the item turns, in
      the order of the items (`Listings`): every entry shows an item whose turn failed, and every item whose
      turn counted a failure is listed. */
  lemma BatchRunListsFailures(w: World, sender: Sender, body: string, logId: string, items: seq<SubmissionRecord>)
    ensures var s := BatchRun(w, sender, body, logId, Returned(Some(items)));
      var ts := Turns(CreateStep(w, AuditDocument(body, logId)).world, sender, items);
      s.value.OkObject? ==>
        NextFault(w).None? && |ts| == |items| && s.value.value.entries == Listings(ts) && ListsFailedItems(ts, items)
  {
    var s := BatchRun(w, sender, body, logId, Returned(Some(items)));
    if s.value.OkObject? {
      var a := CreateStep(w, AuditDocument(body, logId));
      var ts := Turns(a.world, sender, items);
      BatchRunLoops(w, sender, body, logId, items);
      BatchLoopTurns(a.world, sender, items, EmptyReport());
      TurnsOwned(ts, items);
    }
  }

  /** When the function answers with the response, CountSuccess + CountError is the number of items plus
      the number counted twice; so it equals the number of items exactly when no turn counted twice,
      which by `UpsertFaultCountsTwice` is when no upsert of a submission with errors faulted. */
  lemma BatchRunCountsTotal(w: World, sender: Sender, body: string, logId: string, items: seq<SubmissionRecord>)
    ensures var s := BatchRun(w, sender, body, logId, Returned(Some(items)));
      var ts := Turns(CreateStep(w, AuditDocument(body, logId)).world, sender, items);
      s.value.OkObject? ==>
        s.value.value.countSuccess + s.value.value.countError == |items| + DoubleCounted(ts) &&
        (s.value.value.countSuccess + s.value.value.countError == |items| <==>
          forall j :: 0 <= j < |ts| ==> ts[j].failures != 2)
  {
    var s := BatchRun(w, sender, body, logId, Returned(Some(items)));
    if s.value.OkObject? {
      var a := CreateStep(w, AuditDocument(body, logId));
      BatchRunLoops(w, sender, body, logId, items);
      BatchLoopCountsTotal(a.world, sender, items, EmptyReport());
    }
  }

  /** The response the function answers with is the one the foreach built, after the audit write. */
  lemma BatchRunLoops(w: World, sender: Sender, body: string, logId: string, items: seq<SubmissionRecord>)
    ensures var s := BatchRun(w, sender, body, logId, Returned(Some(items)));
      var l := BatchLoop(CreateStep(w, AuditDocument(body, logId)).world, sender, items, EmptyReport());
      s.value.OkObject? ==> NextFault(w).None? && l.value.Returned? && s.value.value == l.value.value
  {
  }

  /** Entry `k` of the listings belongs to item `Owner(ts, k)`, which failed; every failed item owns an
      entry. */
  predicate ListsFailedItems(ts: seq<ItemEnd>, items: seq<SubmissionRecord>) {
    (forall k :: 0 <= k < |Listings(ts)| ==>
      Owner(ts, k) < |items| && Listings(ts)[k].id == items[Owner(ts, k)].id &&
      ts[Owner(ts, k)].failures > 0 && ts[Owner(ts, k)].successes == 0) &&
    forall j :: 0 <= j < |items| && j < |ts| && ts[j].failures > 0 ==>
      exists k :: 0 <= k < |Listings(ts)| && Owner(ts, k) == j
  }

  /** Every entry the turns list belongs to a failed item, and every failed item has an entry. */
  lemma TurnsOwned(ts: seq<ItemEnd>, items: seq<SubmissionRecord>)
    requires |ts| == |items| && forall j :: 0 <= j < |ts| ==> ts[j].submission.id == items[j].id
    requires forall j :: 0 <= j < |ts| && ts[j].listings > 0 ==> ts[j].successes == 0 && ts[j].failures > 0
    requires forall j :: 0 <= j < |ts| && ts[j].escaped.None? ==> ts[j].listings == ts[j].failures
    requires NoneEscaped(ts)
    ensures ListsFailedItems(ts, items)
  {
    forall j | 0 <= j < |items| && j < |ts| && ts[j].failures > 0
      ensures exists k :: 0 <= k < |Listings(ts)| && Owner(ts, k) == j
    {
      OwnerCovers(ts, j);
    }
  }

  /** A JSON null in place of the list makes the foreach throw outside every try block. */
  lemma NullListEscapes(w: World, sender: Sender, body: string, logId: string)
    requires NextFault(w).None?
    ensures BatchRun(w, sender, body, logId, Returned(None)).value == Unhandled(NullReference)
  {
  }

  /** With no fault, every submission of the list is counted exactly once. */
  lemma QuietBatchCountsEach(w: World, sender: Sender, body: string, logId: string, items: seq<SubmissionRecord>)
    requires Quiet(w)
    ensures var s := BatchRun(w, sender, body, logId, Returned(Some(items)));
      s.value.OkObject? && s.value.value.countSuccess + s.value.value.countError == |items| &&
      |s.value.value.entries| == s.value.value.countError
  {
    var a := CreateStep(w, AuditDocument(body, logId));
    QuietLoopCountsEach(a.world, sender, items, EmptyReport());
  }

  /** When every fault can be logged and the list parses, the function answers with the response. */
  lemma DeepBatchAnswers(w: World, sender: Sender, body: string, logId: string, items: seq<SubmissionRecord>)
    requires Deep(w) && NextFault(w).None?
    ensures BatchRun(w, sender, body, logId, Returned(Some(items))).value.OkObject?
  {
    var a := CreateStep(w, AuditDocument(body, logId));
    DeepFollows(w, a.world);
    DeepLoopCompletes(a.world, sender, items, EmptyReport());
  }

  /** `es` is `es0` followed by `k` ErrorSubmissions of the submission with id `id` and error list `errors`. */
  predicate Listed(es0: seq<ErrorSubmission>, es: seq<ErrorSubmission>, id: string, errors: StringList, k: nat) {
    |es| == |es0| + k && (forall i :: 0 <= i < |es0| ==> es[i] == es0[i]) &&
    forall i :: |es0| <= i < |es| ==> es[i].id == id && es[i].errors == errors
  }

  lemma ListedTrans(es0: seq<ErrorSubmission>, es1: seq<ErrorSubmission>, es2: seq<ErrorSubmission>,
                    id: string, errors: StringList, k1: nat, k2: nat)
    requires Listed(es0, es1, id, errors, k1) && Listed(es1, es2, id, errors, k2)
    ensures Listed(es0, es2, id, errors, k1 + k2)
  {
  }

  /** After `k` listings of one submission, the response shows the earlier entries unchanged and `k`
      copies of that submission's current errors. */
  lemma EntriesListed(es0: seq<ErrorSubmission>, es: seq<ErrorSubmission>, id: string, errors: StringList, k: nat,
                      prior: seq<ErrorEntry>)
    requires Listed(es0, es, id, errors, k) && |prior| == |es0|
    requires forall j :: 0 <= j < |es0| ==> ErrorEntry(es0[j].id, es0[j].errors.elems) == prior[j]
    ensures Entries(es) == prior + Copies(ErrorEntry(id, errors.elems), k)
  {
    var r := prior + Copies(ErrorEntry(id, errors.elems), k);
    forall j | 0 <= j < |es|
      ensures Entries(es)[j] == r[j]
    {
      if j < |es0| {
        assert es[j] == es0[j];
      }
    }
  }

  /** The catch block of one turn, on the submission object, the response and the sender's relay. */
  method CatchItemAsync(emailSender: EmailSender, sub: InterestFormSubmission, response: InterestFormsResponse, e: Exception)
    returns (escaped: Option<Exception>)
    modifies emailSender.relay, sub.errors, response
    ensures var t := CatchItem(old(emailSender.relay.State()), emailSender.Config(), old(sub.Record()), e);
      emailSender.relay.State() == t.world && sub.Record() == t.submission && escaped == t.escaped
    ensures response.countSuccess == old(response.countSuccess) && response.countError == old(response.countError) + 1
    ensures escaped.None? ==> Listed(old(response.errorSubmissions), response.errorSubmissions, sub.id, sub.errors, 1)
  {
    response.countError := response.countError + 1;
    sub.AddError(e.message);
    escaped := LogException(e);
    if escaped.Some? {
      return;
    }
    var sent := emailSender.SendEmailAsync([emailSender.sendingAccountAddress], ProcessFailureSubject,
      AlertBody(e.message, SubmissionTypeName));
    if sent.Threw? {
      sub.AddError(AlertFailurePrefix + sent.e.message);
      escaped := LogException(sent.e);
      if escaped.Some? {
        return;
      }
    }
    var entry := new ErrorSubmission(sub.id, sub.errors);
    response.errorSubmissions := response.errorSubmissions + [entry];
  }

  /** One turn of the foreach, on the submission object, the response and the container. */
  method ProcessItem(container: Cloud, emailSender: EmailSender, sub: InterestFormSubmission, response: InterestFormsResponse)
    returns (escaped: Option<Exception>)
    requires emailSender.relay == container
    modifies container, sub.errors, response
    ensures var t := ItemSpec(old(container.State()), emailSender.Config(), old(sub.Record()));
      container.State() == t.world && sub.Record() == t.submission && escaped == t.escaped &&
      response.countSuccess == old(response.countSuccess) + t.successes &&
      response.countError == old(response.countError) + t.failures &&
      (escaped.None? ==> Listed(old(response.errorSubmissions), response.errorSubmissions, sub.id, sub.errors, t.listings))
  {
    ghost var es0 := response.errorSubmissions;
    var raised := MainBlockAsync(container, emailSender, sub, false);
    if raised.None? {
      if sub.errors.elems != [] {
        response.countError := response.countError + 1;
        var entry := new ErrorSubmission(sub.id, sub.errors);
        response.errorSubmissions := response.errorSubmissions + [entry];
        ghost var es1 := response.errorSubmissions;
        assert Listed(es0, es1, sub.id, sub.errors, 1);
        raised := container.UpsertItemAsync(SubmissionDocument(sub.Record()));
        if raised.None? {
          return None;
        }
        escaped := CatchItemAsync(emailSender, sub, response, raised.value);
        if escaped.None? {
          ListedTrans(es0, es1, response.errorSubmissions, sub.id, sub.errors, 1, 1);
        }
        return;
      } else {
        response.countSuccess := response.countSuccess + 1;
        assert Listed(es0, response.errorSubmissions, sub.id, sub.errors, 0);
        return None;
      }
    }
    escaped := CatchItemAsync(emailSender, sub, response, raised.value);
  }

  /** The response, once a turn that let nothing escape has counted and listed its submission. */
  lemma ValueAfterTurn(response: InterestFormsResponse, es: seq<ErrorSubmission>, before: Report,
                       sub: InterestFormSubmission, t: ItemEnd)
    requires Listed(es, response.errorSubmissions, sub.id, sub.errors, t.listings) && |before.entries| == |es|
    requires forall j :: 0 <= j < |es| ==> ErrorEntry(es[j].id, es[j].errors.elems) == before.entries[j]
    requires response.countSuccess == before.countSuccess + t.successes
    requires response.countError == before.countError + t.failures
    requires sub.Record() == t.submission
    ensures response.Value() == Apply(before, t)
  {
    EntriesListed(es, response.errorSubmissions, sub.id, sub.errors, t.listings, before.entries);
  }

  /** One turn of the foreach for item `item`: the submission object the deserialiser built for it,
      then its processing; when nothing escapes, the response has taken the turn in. */
  method Turn(container: Cloud, emailSender: EmailSender, item: SubmissionRecord, response: InterestFormsResponse)
    returns (escaped: Option<Exception>, ghost t: ItemEnd)
    requires emailSender.relay == container
    modifies container, response
    ensures t == ItemSpec(old(container.State()), emailSender.Config(), item)
    ensures container.State() == t.world && escaped == t.escaped
    ensures escaped.None? ==> response.Value() == Apply(old(response.Value()), t)
  {
    ghost var before := response.Value();
    ghost var es := response.errorSubmissions;
    var sub := new InterestFormSubmission.Deserialized(item.id, item.form, item.errors);
    t := ItemSpec(container.State(), emailSender.Config(), item);
    escaped := ProcessItem(container, emailSender, sub, response);
    if escaped.None? {
      assert forall j :: 0 <= j < |es| ==> ErrorEntry(es[j].id, es[j].errors.elems) == before.entries[j];
      ValueAfterTurn(response, es, before, sub, t);
    }
  }

  /** One turn of the foreach, unfolded. */
  lemma BatchLoopTurn(w: World, sender: Sender, items: seq<SubmissionRecord>, r: Report)
    requires items != []
    ensures var t := ItemSpec(w, sender, items[0]);
      BatchLoop(w, sender, items, r) ==
        if t.escaped.Some? then Step(t.world, Threw(t.escaped.value))
        else BatchLoop(t.world, sender, items[1..], Apply(r, t))
  {
  }

  /** CreateInterestFormEntries.Run on the container the sender relays through. */
  method Run(container: Cloud, emailSender: EmailSender, requestBody: string, logId: string,
             parsed: Call<Option<seq<SubmissionRecord>>>)
    returns (result: HttpResult<Report>)
    requires emailSender.relay == container
    modifies container
    ensures Step(container.State(), result) ==
      BatchRun(old(container.State()), emailSender.Config(), requestBody, logId, parsed)
  {
    var fault := container.CreateItemAsync(AuditDocument(requestBody, logId));
    if fault.Some? {
      result := HandleFrontFailure(emailSender, LogFailureSubject, fault.value, requestBody);
      return;
    }
    var items: seq<SubmissionRecord>;
    match parsed {
      case Threw(e) =>
        result := HandleFrontFailure(emailSender, ParseFailureSubject, e, requestBody);
        return;
      case Returned(None) =>
        return Unhandled(NullReference);
      case Returned(Some(list)) =>
        items := list;
    }
    ghost var start := container.State();
    ghost var sender := emailSender.Config();
    var response := new InterestFormsResponse();
    for i := 0 to |items|
      invariant BatchLoop(start, sender, items, EmptyReport()) ==
        BatchLoop(container.State(), sender, items[i..], response.Value())
    {
      BatchLoopTurn(container.State(), sender, items[i..], response.Value());
      assert items[i..][1..] == items[i + 1..];
      var escaped, t := Turn(container, emailSender, items[i], response);
      if escaped.Some? {
        return Unhandled(escaped.value);
      }
    }
    result := OkObject(response.Value());
  }
}
