/**
 * The loader's pending-work queue, as a specification: a max-heap of queries
 * tagged with their submission index, and the pop rule that discards stale
 * entries. The heap is modelled as an unordered sequence; popping takes the
 * greatest entry under the heap's order.
 */
module Scheduler {
  import opened Wrappers
  import opened Queries

  /** A queued query and its submission index (`(Query, Reverse(idx))`). */
  datatype Entry = Entry(query: Query, idx: nat)

  /** The heap's order, greatest first: higher priority, then the older index. */
  predicate Before(a: Entry, b: Entry) {
    Priority(a.query) > Priority(b.query) || (Priority(a.query) == Priority(b.query) && a.idx < b.idx)
  }

  /** The order is strict, and total on entries with distinct indices. */
  lemma BeforeIsStrictOrder(a: Entry, b: Entry, c: Entry)
    ensures !Before(a, a)
    ensures Before(a, b) ==> !Before(b, a)
    ensures Before(a, b) && Before(b, c) ==> Before(a, c)
    ensures a.idx != b.idx ==> Before(a, b) || Before(b, a)
  {
  }

  /** The position of the entry `BinaryHeap::pop` returns: one no entry precedes. */
  function TopIndex(h: seq<Entry>): (i: nat)
    requires |h| > 0
    ensures i < |h|
    ensures forall j :: 0 <= j < |h| ==> !Before(h[j], h[i])
    decreases |h|
  {
    if |h| == 1 then 0
    else
      var k := TopIndex(h[..|h| - 1]);
      if Before(h[|h| - 1], h[k]) then |h| - 1 else k
  }

  /** The heap without position `i`. */
  function Remove(h: seq<Entry>, i: nat): (r: seq<Entry>)
    requires i < |h|
    ensures |r| == |h| - 1
    ensures multiset(r) + multiset{h[i]} == multiset(h)
    ensures forall j :: 0 <= j < |r| ==> r[j] == if j < i then h[j] else h[j + 1]
  {
    assert h == h[..i] + [h[i]] + h[i + 1..];
    h[..i] + h[i + 1..]
  }

  /**
   * The pop-time staleness rule against marker `marker` (the index of the
   * latest search-class query): a search-class query other than the latest,
   * or an artwork fetch made for an older search.
   */
  predicate Stale(e: Entry, marker: nat) {
    || (IsSearch(e.query) && e.idx != marker)
    || (e.query.ImageFetch? && e.query.associatedQuery.Some? && e.query.associatedQuery.value < marker)
  }

  datatype PopResult = PopResult(popped: Option<Entry>, rest: seq<Entry>)

  /** `pop`: take the greatest entry; discard it and go on while it is stale. */
  function PopSpec(h: seq<Entry>, marker: nat): PopResult
    decreases |h|
  {
    if |h| == 0 then PopResult(None, [])
    else
      var i := TopIndex(h);
      if Stale(h[i], marker) then PopSpec(Remove(h, i), marker)
      else PopResult(Some(h[i]), Remove(h, i))
  }

  /** One round of pop: a stale top entry is dropped and popping goes on;
      a live one is returned. */
  lemma PopStep(h: seq<Entry>, marker: nat)
    requires |h| > 0
    ensures var i := TopIndex(h);
      && (Stale(h[i], marker) ==> PopSpec(h, marker) == PopSpec(Remove(h, i), marker))
      && (!Stale(h[i], marker) ==> PopSpec(h, marker) == PopResult(Some(h[i]), Remove(h, i)))
  {
  }

  /** What pop returns is a live entry of the heap, and nothing live in the
      heap precedes it; nothing left in the heap precedes it either, so every
      stale entry skipped on the way is gone for good. */
  lemma {:induction false} PopReturnsBestLive(h: seq<Entry>, marker: nat)
    ensures var r := PopSpec(h, marker);
      r.popped.Some? ==>
        && r.popped.value in h
        && !Stale(r.popped.value, marker)
        && (forall e :: e in h && !Stale(e, marker) ==> !Before(e, r.popped.value))
        && (forall e :: e in r.rest ==> !Before(e, r.popped.value))
    decreases |h|
  {
    if |h| > 0 {
      var i := TopIndex(h);
      if Stale(h[i], marker) {
        var rest := Remove(h, i);
        PopReturnsBestLive(rest, marker);
        forall e | e in h && !Stale(e, marker)
          ensures e in rest
        {
          assert e in multiset(h);
          assert e != h[i];
        }
        var r := PopSpec(rest, marker);
        if r.popped.Some? {
          assert r.popped.value in multiset(rest);
        }
      }
    }
  }

  /** Pop finds nothing exactly when every entry is stale, and then it has
      emptied the heap. */
  lemma {:induction false} PopNoneIffAllStale(h: seq<Entry>, marker: nat)
    ensures var r := PopSpec(h, marker);
      && (r.popped.None? <==> forall e :: e in h ==> Stale(e, marker))
      && (r.popped.None? ==> r.rest == [])
    decreases |h|
  {
    if |h| > 0 {
      var i := TopIndex(h);
      var rest := Remove(h, i);
      if Stale(h[i], marker) {
        PopNoneIffAllStale(rest, marker);
        forall e | e in rest
          ensures e in h
        {
          assert e in multiset(rest);
        }
        forall e | e in h && e != h[i]
          ensures e in rest
        {
          assert e in multiset(h);
        }
      }
    }
  }

  /** Only stale entries are discarded: every live entry stays queued, as many
      times as before, except the one returned. */
  lemma {:induction false} PopDropsOnlyStale(h: seq<Entry>, marker: nat, e: Entry)
    requires !Stale(e, marker)
    ensures var r := PopSpec(h, marker);
      multiset(r.rest)[e] + (if r.popped == Some(e) then 1 else 0) == multiset(h)[e]
    decreases |h|
  {
    if |h| > 0 {
      var i := TopIndex(h);
      if Stale(h[i], marker) {
        PopDropsOnlyStale(Remove(h, i), marker, e);
      }
    }
  }

  /** The heap only shrinks. */
  lemma {:induction false} PopShrinks(h: seq<Entry>, marker: nat)
    ensures var r := PopSpec(h, marker);
      && multiset(r.rest) <= multiset(h)
      && (r.popped.Some? ==> multiset(r.rest) + multiset{r.popped.value} <= multiset(h))
    decreases |h|
  {
    if |h| > 0 {
      var i := TopIndex(h);
      if Stale(h[i], marker) {
        PopShrinks(Remove(h, i), marker);
      }
    }
  }

  /** An artwork fetch not tied to a search is never discarded: while one is
      queued, pop returns something. */
  lemma UntaggedImageKeepsPopBusy(h: seq<Entry>, marker: nat, e: Entry)
    requires e in h && e.query.ImageFetch? && e.query.associatedQuery.None?
    ensures PopSpec(h, marker).popped.Some?
  {
    PopNoneIffAllStale(h, marker);
  }

  /**
   * Priority order regardless of submission order: an unloaded image, a
   * lookup and a chart queued in that order (the chart being the latest
   * search) come out as lookup, chart, image.
   */
  lemma PopsInPriorityOrder(img: Images.Image)
    requires !img.Loaded()
    ensures var image, lookup, chart := Entry(ImageFetch(img, None), 0), Entry(ItunesLookup("1"), 1), Entry(ItunesChart, 2);
      var r1 := PopSpec([image, lookup, chart], 2);
      var r2 := PopSpec(r1.rest, 2);
      var r3 := PopSpec(r2.rest, 2);
      && r1.popped == Some(lookup) && r2.popped == Some(chart) && r3.popped == Some(image)
      && r3.rest == []
  {
    var image, lookup, chart := Entry(ImageFetch(img, None), 0), Entry(ItunesLookup("1"), 1), Entry(ItunesChart, 2);
    var h := [image, lookup, chart];
    assert TopIndex(h[..2]) == 1;
    assert TopIndex(h) == 1;
    assert Remove(h, 1) == [image, chart];
    var h2 := [image, chart];
    assert TopIndex(h2[..1]) == 0;
    assert TopIndex(h2) == 1;
    assert Remove(h2, 1) == [image];
    assert Remove([image], 0) == [];
  }

  /**
   * Search staleness at pop: after a search (index 1) and a chart (index 2),
   * the marker is 2; the search is discarded, the chart returned, and an
   * image fetched for the search is discarded afterwards.
   */
  lemma StaleSearchSkippedAtPop(img: Images.Image)
    ensures var search, chart, image := Entry(ItunesSearch("x"), 1), Entry(ItunesChart, 2), Entry(ImageFetch(img, Some(1)), 3);
      var r1 := PopSpec([search, chart, image], 2);
      && r1.popped == Some(chart)
      && PopSpec(r1.rest, 2) == PopResult(None, [])
  {
    var search, chart, image := Entry(ItunesSearch("x"), 1), Entry(ItunesChart, 2), Entry(ImageFetch(img, Some(1)), 3);
    assert Stale(search, 2) && !Stale(chart, 2) && Stale(image, 2);
    var h := [search, chart, image];
    assert TopIndex(h[..2]) == 0;
    assert TopIndex(h) == 0;
    assert Remove(h, 0) == [chart, image];
    var h2 := [chart, image];
    assert TopIndex(h2[..1]) == 0;
    assert TopIndex(h2) == 0;
    assert Remove(h2, 0) == [image];
    assert Remove([image], 0) == [];
  }
}
