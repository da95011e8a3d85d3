/** ZipCodeService.GetDistrictsByZipCode: the districts whose contact records list a zip code, read page
    by page from the container. */
module ZipCodes {
  import opened Runtime
  import opened Strings
  import opened Store

  /** The page loop from row `offset` on, having gathered `acc` so far; it stops after the page that
      reaches the last row (an empty result still takes one read). */
  function ZipLoop(w: World, zip: string, offset: nat, acc: seq<string>): (s: Step<Call<seq<string>>>)
    requires offset <= |DistrictsWithZip(w.docs, zip)|
    ensures s.world.docs == w.docs && Follows(w, s.world)
    ensures s.value.Returned? ==> s.value.value == acc + DistrictsWithZip(w.docs, zip)[offset..]
    decreases |DistrictsWithZip(w.docs, zip)| - offset
  {
    var rows := DistrictsWithZip(w.docs, zip);
    var p := ZipPageStep(w, zip, offset);
    match p.value
    case Threw(e) => Step(p.world, Threw(e))
    case Returned(page) =>
      var next := offset + |page|;
      assert rows[offset..] == page + rows[next..];
      if next < |rows| then
        var s := ZipLoop(p.world, zip, next, acc + page);
        FollowsTransitive(w, p.world, s.world);
        assert s.value.Returned? ==> s.value.value == acc + rows[offset..] by {
          assert DistrictsWithZip(p.world.docs, zip) == rows;
          AppendAssoc(acc, page, rows[next..]);
        }
        s
      else
        Step(p.world, Returned(acc + page))
  }

  /** The page loop's first call is the read at `offset`; it returns when no call meets a fault, and
      an exception it ends with is one of the faults to come. */
  lemma {:induction false} ZipLoopOutcome(w: World, zip: string, offset: nat, acc: seq<string>)
    requires offset <= |DistrictsWithZip(w.docs, zip)|
    ensures var s := ZipLoop(w, zip, offset, acc);
      |s.world.events| > |w.events| && s.world.events[|w.events|].op == ReadDistrictsByZip(zip, offset) &&
      (Quiet(w) ==> s.value.Returned?) &&
      (s.value.Threw? ==> Scripted(w, s.value.e))
    decreases |DistrictsWithZip(w.docs, zip)| - offset
  {
    var rows := DistrictsWithZip(w.docs, zip);
    var p := ZipPageStep(w, zip, offset);
    if p.value.Returned? && offset + |p.value.value| < |rows| {
      var next := offset + |p.value.value|;
      var s := ZipLoop(p.world, zip, next, acc + p.value.value);
      ZipLoopOutcome(p.world, zip, next, acc + p.value.value);
      ZipLoopGoesOn(w, zip, offset, acc, p.value.value, p.world);
      assert s.world.events[|w.events|] == p.world.events[|w.events|];
      if Quiet(w) {
        QuietFollows(w, p.world);
      }
      if s.value.Threw? {
        ScriptedFollows(w, p.world, s.value.e);
      }
    }
  }

  /** A turn of the page loop whose read throws ends the loop with that exception. */
  lemma ZipLoopThrows(w: World, zip: string, offset: nat, acc: seq<string>)
    requires offset <= |DistrictsWithZip(w.docs, zip)|
    ensures var p := ZipPageStep(w, zip, offset);
      p.value.Threw? ==> ZipLoop(w, zip, offset, acc) == Step(p.world, Threw(p.value.e))
  {
  }

  /** Where the page loop of a lookup started in `w0` stands: in state `w`, `offset` rows read and
      gathered in `acc`; while `more`, the rest of the lookup is the loop from `offset`, otherwise the
      lookup has returned `acc`. */
  ghost predicate Gathered(w0: World, zip: string, w: World, offset: nat, more: bool, acc: seq<string>) {
    w.docs == w0.docs && offset <= |DistrictsWithZip(w0.docs, zip)| &&
    acc == DistrictsWithZip(w0.docs, zip)[..offset] &&
    (more ==> DistrictLookup(w0, zip) == ZipLoop(w, zip, offset, acc)) &&
    (!more ==> DistrictLookup(w0, zip) == Step(w, Returned(acc)))
  }

  /** A turn of the page loop whose read returns `page` goes on from the next row with the page
      gathered, or ends with it after the last row; a turn that goes on has read at least one row. */
  lemma ZipLoopAdvances(w0: World, zip: string, w: World, offset: nat, acc: seq<string>, page: seq<string>,
                        w1: World, next: nat, more: bool, acc1: seq<string>)
    requires Gathered(w0, zip, w, offset, true, acc)
    requires ZipPageStep(w, zip, offset) == Step(w1, Returned(page))
    requires next == offset + |page| && more == (next < |DistrictsWithZip(w1.docs, zip)|) && acc1 == acc + page
    ensures Gathered(w0, zip, w1, next, more, acc1)
    ensures more ==> offset < next
  {
    if more {
      ZipLoopAdvancesOn(w0, zip, w, offset, acc, page, w1);
    } else {
      ZipLoopAdvancesLast(w0, zip, w, offset, acc, page, w1);
    }
  }

  /** A turn of the page loop whose read returns `page` short of the last row goes on from the next
      row with the page gathered, having read at least one row. */
  lemma ZipLoopAdvancesOn(w0: World, zip: string, w: World, offset: nat, acc: seq<string>, page: seq<string>, w1: World)
    requires Gathered(w0, zip, w, offset, true, acc)
    requires ZipPageStep(w, zip, offset) == Step(w1, Returned(page))
    requires offset + |page| < |DistrictsWithZip(w1.docs, zip)|
    ensures Gathered(w0, zip, w1, offset + |page|, true, acc + page)
    ensures |page| > 0
  {
    ZipPageFacts(w, zip, offset, page, w1);
    PrefixGrows(DistrictsWithZip(w0.docs, zip), offset, acc, page);
    ZipLoopGoesOn(w, zip, offset, acc, page, w1);
  }

  /** A turn of the page loop whose read returns `page` up to the last row ends the lookup with what
      was gathered. */
  lemma ZipLoopAdvancesLast(w0: World, zip: string, w: World, offset: nat, acc: seq<string>, page: seq<string>, w1: World)
    requires Gathered(w0, zip, w, offset, true, acc)
    requires ZipPageStep(w, zip, offset) == Step(w1, Returned(page))
    requires offset + |page| >= |DistrictsWithZip(w1.docs, zip)|
    ensures Gathered(w0, zip, w1, offset + |page|, false, acc + page)
  {
    ZipPageFacts(w, zip, offset, page, w1);
    PrefixGrows(DistrictsWithZip(w0.docs, zip), offset, acc, page);
    ZipLoopEnds(w, zip, offset, acc, page, w1);
  }

  /** A page read that returns leaves the documents as they were and returns the next rows, at least
      one while rows remain. */
  lemma ZipPageFacts(w: World, zip: string, offset: nat, page: seq<string>, w1: World)
    requires offset <= |DistrictsWithZip(w.docs, zip)|
    requires ZipPageStep(w, zip, offset) == Step(w1, Returned(page))
    ensures var rows := DistrictsWithZip(w.docs, zip);
      w1.docs == w.docs && offset + |page| <= |rows| && page == rows[offset..offset + |page|] &&
      (offset < |rows| ==> |page| > 0)
  {
  }

  /** A turn of the page loop whose read returns `page` short of the last row goes on after it. */
  lemma ZipLoopGoesOn(w: World, zip: string, offset: nat, acc: seq<string>, page: seq<string>, w1: World)
    requires offset <= |DistrictsWithZip(w.docs, zip)|
    requires ZipPageStep(w, zip, offset) == Step(w1, Returned(page))
    requires offset + |page| < |DistrictsWithZip(w1.docs, zip)| && w1.docs == w.docs
    ensures ZipLoop(w, zip, offset, acc) == ZipLoop(w1, zip, offset + |page|, acc + page)
  {
    var p := ZipPageStep(w, zip, offset);
    assert p.world == w1 && p.value.Returned? && p.value.value == page;
  }

  /** A turn of the page loop whose read returns `page` up to the last row ends with what it gathered. */
  lemma ZipLoopEnds(w: World, zip: string, offset: nat, acc: seq<string>, page: seq<string>, w1: World)
    requires offset <= |DistrictsWithZip(w.docs, zip)|
    requires ZipPageStep(w, zip, offset) == Step(w1, Returned(page))
    requires offset + |page| >= |DistrictsWithZip(w.docs, zip)|
    ensures ZipLoop(w, zip, offset, acc) == Step(w1, Returned(acc + page))
  {
  }

  lemma PrefixGrows(rows: seq<string>, offset: nat, acc: seq<string>, page: seq<string>)
    requires offset + |page| <= |rows| && acc == rows[..offset] && page == rows[offset..offset + |page|]
    ensures acc + page == rows[..offset + |page|]
  {
  }

  /** What GetDistrictsByZipCode does from state `w`. */
  function DistrictLookup(w: World, zip: string): (s: Step<Call<seq<string>>>)
    ensures |s.world.events| > |w.events| && s.world.events[|w.events|].op == ReadDistrictsByZip(zip, 0)
  {
    ZipLoopOutcome(w, zip, 0, []);
    ZipLoop(w, zip, 0, [])
  }

  /** The lookup reads only: the documents are as they were. When it returns, it returns every
      district listing the zip exactly once, and nothing else; when no call meets a fault, it returns. */
  lemma DistrictLookupCorrect(w: World, zip: string)
    ensures DistrictLookup(w, zip).world.docs == w.docs
    ensures DistrictLookup(w, zip).value.Returned? ==>
      var r := DistrictLookup(w, zip).value.value;
      r == DistrictsWithZip(w.docs, zip) && NoDuplicates(r) &&
      forall d :: d in r <==> exists i :: 0 <= i < |w.docs| && ListsZip(w.docs[i], zip, d)
    ensures Quiet(w) ==> DistrictLookup(w, zip).value.Returned?
    ensures DistrictLookup(w, zip).value.Threw? ==> Scripted(w, DistrictLookup(w, zip).value.e)
  {
    ZipLoopOutcome(w, zip, 0, []);
    assert DistrictsWithZip(w.docs, zip)[0..] == DistrictsWithZip(w.docs, zip);
  }

  /** With no district record listing the zip, the lookup yields an empty list. */
  lemma DistrictLookupEmpty(w: World, zip: string)
    requires forall i :: 0 <= i < |w.docs| ==> !w.docs[i].doc.DistrictDocument? || zip !in w.docs[i].doc.districtContacts.zipCodes
    ensures DistrictLookup(w, zip).value.Returned? ==> DistrictLookup(w, zip).value.value == []
  {
    DistrictLookupCorrect(w, zip);
    var r := DistrictsWithZip(w.docs, zip);
    if r != [] {
      assert r[0] in r;
    }
  }

  /** The query feed (FeedIterator) of the zip-code query: where the next page starts and whether
      there is one. */
  class DistrictFeed {
    const container: Cloud
    const zip: string
    var offset: nat
    var hasMoreResults: bool

    constructor (container: Cloud, zip: string)
      ensures this.container == container && this.zip == zip
      ensures offset == 0 && hasMoreResults
    {
      this.container := container;
      this.zip := zip;
      offset := 0;
      hasMoreResults := true;
    }

    /** ReadNextAsync: the next page; afterwards there are more results while rows remain. */
    method ReadNextAsync() returns (r: Call<seq<string>>)
      requires offset <= |DistrictsWithZip(container.docs, zip)|
      modifies this, container
      ensures Step(container.State(), r) == ZipPageStep(old(container.State()), zip, old(offset))
      ensures r.Returned? ==> offset == old(offset) + |r.value|
      ensures r.Returned? ==> hasMoreResults == (offset < |DistrictsWithZip(container.docs, zip)|)
    {
      r := container.ReadZipPage(zip, offset);
      if r.Returned? {
        offset := offset + |r.value|;
        hasMoreResults := offset < |DistrictsWithZip(container.docs, zip)|;
      }
    }
  }

  /** The foreach over one page: each row's District is added to the list. */
  method AddDistricts(districts: seq<string>, page: seq<string>) returns (r: seq<string>)
    ensures r == districts + page
  {
    r := districts;
    for k := 0 to |page|
      invariant r == districts + page[..k]
    {
      r := r + [page[k]];
    }
    assert page[..|page|] == page;
  }

  class ZipCodeService {
    const container: Cloud

    constructor (container: Cloud)
      ensures this.container == container
    {
      this.container := container;
    }

    /** Every district of a record listing `zipCode`, gathered over all pages; an exception of a page
        read propagates. */
    method GetDistrictsByZipCode(zipCode: string) returns (r: Call<seq<string>>)
      modifies container
      ensures Step(container.State(), r) == DistrictLookup(old(container.State()), zipCode)
    {
      ghost var w0 := container.State();
      var districts: seq<string> := [];
      var feed := new DistrictFeed(container, zipCode);
      while feed.hasMoreResults
        invariant Gathered(w0, zipCode, container.State(), feed.offset, feed.hasMoreResults, districts)
        decreases |DistrictsWithZip(w0.docs, zipCode)| - feed.offset + (if feed.hasMoreResults then 1 else 0)
      {
        ghost var before := container.State();
        ghost var start := feed.offset;
        ZipLoopThrows(before, zipCode, start, districts);
        var result := feed.ReadNextAsync();
        if result.Threw? {
          return result;
        }
        var page := result.value;
        ghost var gathered := districts;
        districts := AddDistricts(districts, page);
        ZipLoopAdvances(w0, zipCode, before, start, gathered, page, container.State(), feed.offset, feed.hasMoreResults, districts);
      }
      r := Returned(districts);
    }
  }
}
