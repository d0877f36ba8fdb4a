/**
 * The fetch scheduler: the shared bookkeeping behind the loader's lock
 * (queue, pop, worker exit, re-queueing of follow-ups) and what running one
 * query submits to the store and queues next, given what the network
 * answered.
 */
module Loader {
  import opened Wrappers
  import opened Decimal
  import opened StateErrors
  import opened Images
  import opened ChannelCores
  import opened Snapshot
  import opened Queries
  import opened Scheduler
  import opened ItunesChannels
  import ItunesCharts
  import ItunesSearches
  import ItunesLookups
  import RssFeeds

  /** The entries `qs` become when queued one by one from index `base`. */
  function Entries(qs: seq<Query>, base: nat): (r: seq<Entry>)
    ensures |r| == |qs| && forall i :: 0 <= i < |qs| ==> r[i] == Entry(qs[i], base + i)
  {
    seq(|qs|, i requires 0 <= i < |qs| => Entry(qs[i], base + i))
  }

  /** The staleness marker after queueing `qs` from index `base`, starting
      from `marker`. */
  function LatestSearch(qs: seq<Query>, base: nat, marker: nat): nat
    decreases |qs|
  {
    if |qs| == 0 then marker
    else if IsSearch(qs[|qs| - 1]) then base + |qs| - 1
    else LatestSearch(qs[..|qs| - 1], base, marker)
  }

  /** The marker is the index of the last search-class query among `qs`, and
      is left alone when there is none. */
  lemma {:induction false} LatestSearchIsLast(qs: seq<Query>, base: nat, marker: nat)
    ensures (forall i :: 0 <= i < |qs| ==> !IsSearch(qs[i])) ==> LatestSearch(qs, base, marker) == marker
    ensures forall i :: 0 <= i < |qs| && IsSearch(qs[i]) ==>
      var m := LatestSearch(qs, base, marker);
      base + i <= m < base + |qs| && IsSearch(qs[m - base])
    decreases |qs|
  {
    if |qs| > 0 && !IsSearch(qs[|qs| - 1]) {
      var init := qs[..|qs| - 1];
      LatestSearchIsLast(init, base, marker);
      assert forall i :: 0 <= i < |init| ==> init[i] == qs[i];
    }
  }

  /** Every entry of `h` has an index below `n`. */
  predicate IndicesBelow(h: seq<Entry>, n: nat) {
    forall i :: 0 <= i < |h| ==> h[i].idx < n
  }

  /** Indices strictly increase along `h`: entries are kept in submission order. */
  predicate IndicesIncreasing(h: seq<Entry>) {
    forall i, j :: 0 <= i < j < |h| ==> h[i].idx < h[j].idx
  }

  lemma RemoveKeepsIndices(h: seq<Entry>, i: nat, n: nat)
    requires i < |h| && IndicesBelow(h, n) && IndicesIncreasing(h)
    ensures IndicesBelow(Remove(h, i), n) && IndicesIncreasing(Remove(h, i))
  {
  }

  /** With distinct indices the heap's order is total, so the entry pop takes
      precedes every other one: the top is unique. */
  lemma IncreasingTopIsUnique(h: seq<Entry>)
    requires |h| > 0 && IndicesIncreasing(h)
    ensures forall j :: 0 <= j < |h| && j != TopIndex(h) ==> Before(h[TopIndex(h)], h[j])
  {
    var t := TopIndex(h);
    forall j | 0 <= j < |h| && j != t
      ensures Before(h[t], h[j])
    {
      assert h[t].idx != h[j].idx by {
        if t < j {} else {}
      }
      BeforeIsStrictOrder(h[t], h[j], h[j]);
    }
  }

  /** Queueing one more of `qs` extends the entries by one and moves the
      marker only for a search-class query. */
  lemma QueueOneMore(qs: seq<Query>, i: nat, base: nat, marker: nat)
    requires i < |qs|
    ensures Entries(qs[..i + 1], base) == Entries(qs[..i], base) + [Entry(qs[i], base + i)]
    ensures LatestSearch(qs[..i + 1], base, marker) ==
      if IsSearch(qs[i]) then base + i else LatestSearch(qs[..i], base, marker)
  {
    assert qs[..i + 1][..i] == qs[..i];
  }

  class LoaderPriv {
    /** The heap of pending queries. */
    var queries: seq<Entry>
    var inFlight: nat
    var maxInFlight: nat
    /** The index the next query gets. */
    var totalQueries: nat
    /** The index of the latest search-class query: the staleness marker. */
    var maxSearchIndex: nat

    /** Worker count within bounds; indices and marker already handed out,
        and the pending entries in submission order. */
    ghost predicate Valid()
      reads this
    {
      && inFlight <= maxInFlight
      && maxSearchIndex <= totalQueries
      && IndicesBelow(queries, totalQueries)
      && IndicesIncreasing(queries)
    }

    /** `Loader::new`. */
    constructor(maxInFlight: nat)
      ensures Valid()
      ensures queries == [] && inFlight == 0 && this.maxInFlight == maxInFlight
      ensures totalQueries == 0 && maxSearchIndex == 0
    {
      queries := [];
      inFlight := 0;
      this.maxInFlight := maxInFlight;
      totalQueries := 0;
      maxSearchIndex := 0;
    }

    /**
     * `_queue`: push the query with the next index; a search-class query
     * becomes the staleness marker. When below the worker limit, count one
     * more worker and ask for it to be spawned; the first one turns the
     * loading flag on.
     */
    method Queue(q: Query) returns (submitted: seq<StateAction>, spawn: bool)
      requires Valid()
      modifies this
      ensures Valid()
      ensures queries == old(queries) + [Entry(q, old(totalQueries))]
      ensures totalQueries == old(totalQueries) + 1
      ensures maxSearchIndex == if IsSearch(q) then old(totalQueries) else old(maxSearchIndex)
      ensures maxInFlight == old(maxInFlight)
      ensures spawn <==> old(inFlight) < maxInFlight
      ensures inFlight == old(inFlight) + (if spawn then 1 else 0)
      ensures submitted == if spawn && old(inFlight) == 0 then [SetLoading(true)] else []
      ensures maxInFlight > 0 ==> NoStrandedWork()
    {
      if IsSearch(q) {
        maxSearchIndex := totalQueries;
      }
      queries := queries + [Entry(q, totalQueries)];
      totalQueries := totalQueries + 1;
      submitted := [];
      spawn := false;
      if inFlight < maxInFlight {
        inFlight := inFlight + 1;
        if inFlight == 1 {
          submitted := [SetLoading(true)];
        }
        spawn := true;
      }
    }

    /** `pop`: take entries off the heap until one is not stale. */
    method Pop() returns (r: Option<Entry>)
      requires Valid()
      modifies this
      ensures Valid()
      ensures PopResult(r, queries) == PopSpec(old(queries), maxSearchIndex)
      ensures inFlight == old(inFlight) && maxInFlight == old(maxInFlight)
      ensures totalQueries == old(totalQueries) && maxSearchIndex == old(maxSearchIndex)
    {
      ghost var spec := PopSpec(queries, maxSearchIndex);
      while |queries| > 0
        invariant Valid()
        invariant PopSpec(queries, maxSearchIndex) == spec
        invariant inFlight == old(inFlight) && maxInFlight == old(maxInFlight)
        invariant totalQueries == old(totalQueries) && maxSearchIndex == old(maxSearchIndex)
        decreases |queries|
      {
        var i := TopIndex(queries);
        var e := queries[i];
        PopStep(queries, maxSearchIndex);
        RemoveKeepsIndices(queries, i, totalQueries);
        queries := Remove(queries, i);
        if IsSearch(e.query) && e.idx != maxSearchIndex {
          continue;
        }
        if e.query.ImageFetch? && e.query.associatedQuery.Some? && e.query.associatedQuery.value < maxSearchIndex {
          continue;
        }
        return Some(e);
      }
      return None;
    }

    /** The end of a worker: one worker fewer; the last one turns the loading flag off. */
    method WorkerExit() returns (submitted: seq<StateAction>)
      requires Valid() && inFlight > 0
      modifies this
      ensures Valid()
      ensures inFlight == old(inFlight) - 1
      ensures queries == old(queries) && maxInFlight == old(maxInFlight)
      ensures totalQueries == old(totalQueries) && maxSearchIndex == old(maxSearchIndex)
      ensures submitted == if inFlight == 0 then [SetLoading(false)] else []
    {
      inFlight := inFlight - 1;
      submitted := [];
      if inFlight == 0 {
        submitted := [SetLoading(false)];
      }
    }

    /** The worker's re-queueing of follow-ups: `_queue` for each, in order. */
    method QueueAll(qs: seq<Query>) returns (submitted: seq<StateAction>, spawned: nat)
      requires Valid()
      modifies this
      ensures Valid()
      ensures queries == old(queries) + Entries(qs, old(totalQueries))
      ensures totalQueries == old(totalQueries) + |qs|
      ensures maxSearchIndex == LatestSearch(qs, old(totalQueries), old(maxSearchIndex))
      ensures maxInFlight == old(maxInFlight)
      ensures spawned == Min(|qs|, old(maxInFlight) - old(inFlight))
      ensures inFlight == old(inFlight) + spawned
      ensures submitted == if old(inFlight) == 0 && spawned > 0 then [SetLoading(true)] else []
    {
      submitted := [];
      spawned := 0;
      for i := 0 to |qs|
        invariant Valid()
        invariant queries == old(queries) + Entries(qs[..i], old(totalQueries))
        invariant totalQueries == old(totalQueries) + i
        invariant maxSearchIndex == LatestSearch(qs[..i], old(totalQueries), old(maxSearchIndex))
        invariant maxInFlight == old(maxInFlight)
        invariant spawned == Min(i, old(maxInFlight) - old(inFlight))
        invariant inFlight == old(inFlight) + spawned
        invariant submitted == if old(inFlight) == 0 && spawned > 0 then [SetLoading(true)] else []
      {
        QueueOneMore(qs, i, old(totalQueries), old(maxSearchIndex));
        ghost var before := queries;
        var s, spawn := Queue(qs[i]);
        assert queries == old(queries) + (Entries(qs[..i], old(totalQueries)) + [Entry(qs[i], old(totalQueries) + i)]) by {
          assert queries == before + [Entry(qs[i], old(totalQueries) + i)];
        }
        submitted := submitted + s;
        if spawn {
          spawned := spawned + 1;
        }
      }
      assert qs[..|qs|] == qs;
    }

    /** No query waits in the heap without a worker to take it. */
    ghost predicate NoStrandedWork()
      reads this
    {
      |queries| > 0 ==> inFlight > 0
    }

    /**
     * The worker's pop and its exit as ONE critical section: when nothing
     * live is left, the worker is uncounted under the same lock, so a query
     * queued afterwards sees the free slot and spawns a worker.
     */
    method PopOrExit() returns (r: Option<Entry>, submitted: seq<StateAction>)
      requires Valid() && NoStrandedWork() && inFlight > 0
      modifies this
      ensures Valid() && NoStrandedWork()
      ensures PopResult(r, queries) == PopSpec(old(queries), maxSearchIndex)
      ensures r.Some? ==> inFlight == old(inFlight) && submitted == []
      ensures r.None? ==> inFlight == old(inFlight) - 1 && submitted == (if inFlight == 0 then [SetLoading(false)] else [])
      ensures maxInFlight == old(maxInFlight) && totalQueries == old(totalQueries) && maxSearchIndex == old(maxSearchIndex)
    {
      r := Pop();
      submitted := [];
      if r.None? {
        PopNoneIffAllStale(old(queries), maxSearchIndex);
        submitted := WorkerExit();
      }
    }
  }

  // ---------------------------------------------------------------------------
  // Running one query.
  // ---------------------------------------------------------------------------

  /** How an artwork request ended. */
  datatype ImageResponse =
    | RequestFailed(message: string)
    | NotModified
    | BodyFailed(message: string)
    | Body(mime: Option<string>, etag: Option<string>, lastModified: Option<string>, bytes: seq<bv8>)

  /** What the network answered for a query, decoded. */
  datatype Outcome =
    | ChartFetched(chart: Result<seq<ItunesCharts.ChartItem>, StateError>)
    | SearchFetched(search: Result<seq<ItunesChannel>, StateError>)
    | LookupFetched(lookup: Result<ItunesLookups.ItunesLookup, StateError>)
    | RssFetched(feed: Result<RssFeeds.RssChannel, StateError>)
    | ImageFetched(response: ImageResponse)

  /** The outcome answers the query's kind of request. */
  predicate Fits(q: Query, o: Outcome) {
    match q
    case ItunesChart => o.ChartFetched?
    case ItunesSearch(_) => o.SearchFetched?
    case ItunesLookup(_) => o.LookupFetched?
    case Rss(_, _) => o.RssFetched?
    case ImageFetch(_, _) => o.ImageFetched?
  }

  /** One artwork fetch per URL, tagged with `tag`. */
  function ImageFollowUps(urls: seq<string>, tag: Option<nat>): (r: seq<Query>)
    ensures |r| == |urls|
    ensures forall i :: 0 <= i < |r| ==> r[i] == ImageFetch(NewImage(urls[i]), tag)
  {
    seq(|urls|, i requires 0 <= i < |urls| => ImageFetch(NewImage(urls[i]), tag))
  }

  function ChartArtwork(items: seq<ItunesCharts.ChartItem>): (urls: seq<string>)
    ensures |urls| == |items| && forall i :: 0 <= i < |items| ==> urls[i] == items[i].image200
  {
    seq(|items|, i requires 0 <= i < |items| => items[i].image200)
  }

  function SearchArtwork(results: seq<ItunesChannel>): (urls: seq<string>)
    ensures |urls| == |results| && forall i :: 0 <= i < |results| ==> urls[i] == results[i].image600
  {
    seq(|results|, i requires 0 <= i < |results| => results[i].image600)
  }

  /** The lookup's follow-ups: a feed fetch for each core that has a feed URL. */
  function FeedFollowUps(cores: seq<ChannelCore>): (r: seq<Query>)
    ensures |r| <= |cores|
    ensures forall i :: 0 <= i < |r| ==> r[i].Rss?
    decreases |cores|
  {
    if |cores| == 0 then []
    else
      var head := if cores[0].rss.Some? then [Rss(cores[0].pk, cores[0].rss.value)] else [];
      head + FeedFollowUps(cores[1..])
  }

  /** Cores translated from iTunes records always name a feed: one feed fetch per core, in order. */
  lemma {:induction false} FeedFollowUpsOfLookup(cores: seq<ChannelCore>)
    requires forall i :: 0 <= i < |cores| ==> cores[i].rss.Some?
    ensures var r := FeedFollowUps(cores);
      |r| == |cores| && forall i :: 0 <= i < |cores| ==> r[i] == Rss(cores[i].pk, cores[i].rss.value)
    decreases |cores|
  {
    if |cores| > 0 {
      FeedFollowUpsOfLookup(cores[1..]);
    }
  }

  /** The error a lookup key that is not an integer gets. */
  function NotAnIdError(pk: string): StateError {
    From(StdIoError(pk + " is not an iTunes id (integer)"))
  }

  /** The image stored after a successful download; absent headers become "". */
  function Downloaded(pk: string, mime: Option<string>, etag: Option<string>, lastModified: Option<string>, bytes: seq<bv8>): (img: Image)
    ensures img.pk == pk && img.Loaded() && img.data == Some(bytes)
    ensures img.mimetype == Some(mime.GetOr("*/*"))
    ensures img.etag == Some(etag.GetOr("")) && img.lastModified == Some(lastModified.GetOr(""))
  {
    Image(pk, Some(mime.GetOr("*/*")), Some(etag.GetOr("")), Some(lastModified.GetOr("")), Some(bytes))
  }

  /** The chart and search follow-ups: one artwork fetch per result, tagged
      with the request's index, pushed in order. */
  method ArtworkRequests(urls: seq<string>, idx: nat) returns (next: seq<Query>)
    ensures next == ImageFollowUps(urls, Some(idx))
  {
    next := [];
    for i := 0 to |urls|
      invariant next == ImageFollowUps(urls[..i], Some(idx))
    {
      next := next + [ImageFetch(NewImage(urls[i]), Some(idx))];
    }
    assert urls[..|urls|] == urls;
  }

  /** The artwork branch: a failed request or body stores the error; 304 Not
      Modified submits nothing; a body replaces the stored image. */
  method HandleImage(image: Image, response: ImageResponse) returns (batch: Option<seq<StateAction>>)
    ensures response.NotModified? <==> batch.None?
    ensures response.RequestFailed? || response.BodyFailed? ==>
      batch == Some([SetImage(image.pk, Err(From(SurfError(response.message))))])
    ensures response.Body? ==>
      batch == Some([SetImage(image.pk, Ok(Downloaded(image.pk, response.mime, response.etag, response.lastModified, response.bytes)))])
  {
    match response {
      case RequestFailed(m) =>
        batch := Some([SetImage(image.pk, Err(From(SurfError(m))))]);
      case NotModified =>
        batch := None;
      case BodyFailed(m) =>
        batch := Some([SetImage(image.pk, Err(From(SurfError(m))))]);
      case Body(mime, etag, lastModified, bytes) =>
        batch := Some([SetImage(image.pk, Ok(Downloaded(image.pk, mime, etag, lastModified, bytes)))]);
    }
  }

  /**
   * `handle_query` for query `q` popped with index `idx`, with `s` the
   * store's snapshot and `o` what the network answered: the batch submitted
   * to the store (None when nothing is submitted) and the follow-up queries.
   */
  method HandleQuery(q: Query, idx: nat, s: State, o: Outcome) returns (batch: Option<seq<StateAction>>, next: seq<Query>)
    requires Fits(q, o)
    ensures q.ItunesChart? && o.chart.Ok? ==>
      batch == Some(ItunesCharts.ChartActions(o.chart.value, s)) && next == ImageFollowUps(ChartArtwork(o.chart.value), Some(idx))
    ensures q.ItunesChart? && o.chart.Err? ==>
      batch == Some([SetSearchFeed("", Err(o.chart.error))]) && next == []
    ensures q.ItunesSearch? && o.search.Ok? ==>
      var search := ItunesSearches.Fetched(o.search.value, q.query);
      batch == Some(ItunesSearches.SearchActions(search, s)) && next == ImageFollowUps(SearchArtwork(search.results), Some(idx))
    ensures q.ItunesSearch? && o.search.Err? ==>
      batch == Some([SetSearchFeed(q.query, Err(o.search.error))]) && next == []
    ensures q.ItunesLookup? && ParseIsize(q.pk).None? ==>
      batch == Some([SetChannelCore(q.pk, Err(NotAnIdError(q.pk))), SetChannelDetail(q.pk, Err(NotAnIdError(q.pk)))]) && next == []
    ensures q.ItunesLookup? && ParseIsize(q.pk).Some? && o.lookup.Ok? ==>
      var cores := ItunesLookups.Cores(o.lookup.value, s);
      batch == Some(CoreWrites(cores)) && next == FeedFollowUps(cores)
    ensures q.ItunesLookup? && ParseIsize(q.pk).Some? && o.lookup.Err? ==>
      batch == Some([SetChannelCore(q.pk, Err(o.lookup.error)), SetChannelDetail(q.pk, Err(o.lookup.error))]) && next == []
    ensures q.Rss? && o.feed.Ok? ==>
      var feed := RssFeeds.Fetched(o.feed.value, q.pk, q.url);
      batch == Some(RssFeeds.RssActions(feed, s)) && next == [ImageFetch(NewImage(RssFeeds.ImageRss(feed)), None)]
    ensures q.Rss? && o.feed.Err? ==>
      batch == Some([SetChannelCore(q.pk, Err(o.feed.error)), SetChannelDetail(q.pk, Err(o.feed.error))]) && next == []
    ensures q.ImageFetch? ==> next == []
    ensures q.ImageFetch? && o.response.NotModified? <==> batch.None?
    ensures q.ImageFetch? && (o.response.RequestFailed? || o.response.BodyFailed?) ==>
      batch == Some([SetImage(q.image.pk, Err(From(SurfError(o.response.message))))])
    ensures q.ImageFetch? && o.response.Body? ==>
      var rsp := o.response;
      batch == Some([SetImage(q.image.pk, Ok(Downloaded(q.image.pk, rsp.mime, rsp.etag, rsp.lastModified, rsp.bytes)))])
  {
    next := [];
    match q {
      case ItunesChart =>
        match o.chart {
          case Ok(items) =>
            var actions := ItunesCharts.ToActions(items, s);
            batch := Some(actions);
            next := ArtworkRequests(ChartArtwork(items), idx);
          case Err(err) =>
            batch := Some([SetSearchFeed("", Err(err))]);
        }
      case ItunesSearch(query) =>
        match o.search {
          case Ok(raw) =>
            var search := ItunesSearches.Fetched(raw, query);
            var actions := ItunesSearches.ToActions(search, s);
            batch := Some(actions);
            next := ArtworkRequests(SearchArtwork(search.results), idx);
          case Err(err) =>
            batch := Some([SetSearchFeed(query, Err(err))]);
        }
      case ItunesLookup(pk) =>
        match ParseIsize(pk) {
          case Some(_) =>
            match o.lookup {
              case Ok(lookup) =>
                var actions := ItunesLookups.ToActions(lookup, s);
                batch := Some(actions);
                next := FeedFollowUps(ItunesLookups.Cores(lookup, s));
              case Err(err) =>
                batch := Some([SetChannelCore(pk, Err(err)), SetChannelDetail(pk, Err(err))]);
            }
          case None =>
            var err := NotAnIdError(pk);
            batch := Some([SetChannelCore(pk, Err(err)), SetChannelDetail(pk, Err(err))]);
        }
      case Rss(pk, url) =>
        match o.feed {
          case Ok(decoded) =>
            var feed := RssFeeds.Fetched(decoded, pk, url);
            var actions := RssFeeds.ToActions(feed, s);
            batch := Some(actions);
            next := [ImageFetch(NewImage(RssFeeds.ImageRss(feed)), None)];
          case Err(err) =>
            batch := Some([SetChannelCore(pk, Err(err)), SetChannelDetail(pk, Err(err))]);
        }
      case ImageFetch(image, _) =>
        batch := HandleImage(image, o.response);
    }
  }
}

/** Scenarios and properties of the scheduler and of `handle_query`. */
module LoaderScenarios {
  import opened Wrappers
  import opened Decimal
  import opened Images
  import opened ChannelCores
  import opened Snapshot
  import opened Queries
  import opened Scheduler
  import opened ItunesChannels
  import ItunesLookups
  import opened Loader

  /** A query in an empty loader with one worker turns loading on; the worker
      takes it, finds nothing more, exits and turns loading off. */
  method LoadingFlagEdges() returns (first: seq<StateAction>, popped: Option<Entry>, last: seq<StateAction>)
    ensures first == [SetLoading(true)]
    ensures popped == Some(Entry(ItunesChart, 0))
    ensures last == [SetLoading(false)]
  {
    var l := new LoaderPriv(1);
    var spawn;
    first, spawn := l.Queue(ItunesChart);
    assert TopIndex(l.queries) == 0;
    popped := l.Pop();
    var none := l.Pop();
    last := l.WorkerExit();
  }

  /**
   * Queueing a lookup, a search, a chart and an image for the search: the
   * chart supersedes the search, so the lookup and the chart are fetched and
   * the search and its image are dropped.
   */
  method SupersededSearchDropped(img: Image) returns (first: Option<Entry>, second: Option<Entry>, third: Option<Entry>)
    ensures first == Some(Entry(ItunesLookup("1"), 0))
    ensures second == Some(Entry(ItunesChart, 2))
    ensures third.None?
  {
    var l := new LoaderPriv(4);
    var lookup, search, chart, image := Entry(ItunesLookup("1"), 0), Entry(ItunesSearch("x"), 1), Entry(ItunesChart, 2), Entry(ImageFetch(img, Some(1)), 3);
    var s, spawn := l.Queue(lookup.query);
    s, spawn := l.Queue(search.query);
    s, spawn := l.Queue(chart.query);
    s, spawn := l.Queue(image.query);
    assert l.queries == [lookup, search, chart, image] && l.maxSearchIndex == 2;
    LookupPoppedFirst(img);
    first := l.Pop();
    StaleSearchSkippedAtPop(img);
    second := l.Pop();
    third := l.Pop();
  }

  lemma LookupPoppedFirst(img: Image)
    ensures var lookup, search, chart, image := Entry(ItunesLookup("1"), 0), Entry(ItunesSearch("x"), 1), Entry(ItunesChart, 2), Entry(ImageFetch(img, Some(1)), 3);
      PopSpec([lookup, search, chart, image], 2) == PopResult(Some(lookup), [search, chart, image])
  {
    var lookup, search, chart, image := Entry(ItunesLookup("1"), 0), Entry(ItunesSearch("x"), 1), Entry(ItunesChart, 2), Entry(ImageFetch(img, Some(1)), 3);
    var h := [lookup, search, chart, image];
    assert TopIndex(h[..1]) == 0;
    assert TopIndex(h[..2]) == 0;
    assert TopIndex(h[..3]) == 0;
    assert TopIndex(h) == 0;
    assert Remove(h, 0) == [search, chart, image];
  }

  /**
   * The lost wakeup, as written: a worker finds the heap empty and releases
   * the lock; a query is queued while that worker still counts against the
   * limit, so no worker is spawned; the worker then exits. The query is left
   * in the heap with no worker, and loading is reported finished.
   */
  method LostWakeupAsWritten() returns (l: LoaderPriv, exit: seq<StateAction>)
    ensures l.queries == [Entry(ItunesLookup("1"), 1)] && l.inFlight == 0
    ensures exit == [SetLoading(false)]
  {
    l := new LoaderPriv(1);
    var s, spawn := l.Queue(ItunesChart);
    assert TopIndex(l.queries) == 0;
    var took := l.Pop();
    var none := l.Pop();
    s, spawn := l.Queue(ItunesLookup("1"));
    exit := l.WorkerExit();
  }

  /** The same interleaving with the worker's final pop and exit under one
      lock: the later query finds the slot free and spawns a worker. */
  method LostWakeupAvoided() returns (l: LoaderPriv, spawn: bool)
    ensures spawn && l.inFlight == 1
    ensures l.queries == [Entry(ItunesLookup("1"), 1)]
  {
    l := new LoaderPriv(1);
    var s;
    s, spawn := l.Queue(ItunesChart);
    assert TopIndex(l.queries) == 0;
    var took := l.Pop();
    var none, exit := l.PopOrExit();
    s, spawn := l.Queue(ItunesLookup("1"));
  }

  /** Artwork requested for a chart or search at index `idx` is dropped at pop,
      all of it, once a later search-class query has been queued. */
  lemma FollowUpsOfSupersededSearchDropped(urls: seq<string>, idx: nat, base: nat, marker: nat)
    requires idx < marker
    ensures PopSpec(Entries(ImageFollowUps(urls, Some(idx)), base), marker) == PopResult(None, [])
  {
    var h := Entries(ImageFollowUps(urls, Some(idx)), base);
    forall e | e in h
      ensures Stale(e, marker)
    {
      var k :| 0 <= k < |h| && h[k] == e;
    }
    PopNoneIffAllStale(h, marker);
  }

  /** A lookup asks for the feed of every channel it found, in order. */
  lemma LookupFetchesEveryFeed(lookup: ItunesLookups.ItunesLookup, s: State)
    ensures var next := FeedFollowUps(ItunesLookups.Cores(lookup, s));
      && |next| == |lookup.results|
      && forall i :: 0 <= i < |next| ==>
           next[i] == Rss(IntToString(lookup.results[i].pk), lookup.results[i].rss)
  {
    var cores := ItunesLookups.Cores(lookup, s);
    FeedFollowUpsOfLookup(cores);
  }
}
