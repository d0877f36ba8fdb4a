/** The iTunes search response and the batch it becomes. */
module ItunesSearches {
  import opened Wrappers
  import opened Decimal
  import opened Refs
  import opened ChannelCores
  import opened Snapshot
  import opened Apply
  import opened ItunesChannels

  /** The decoded response; `searchQuery` is filled in by `fetch`. */
  datatype ItunesSearch = ItunesSearch(results: seq<ItunesChannel>, searchQuery: string)

  /** The filter `fetch` applies: keep the results that name a feed. */
  function FilterRss(raw: seq<ItunesChannel>): (r: seq<ItunesChannel>)
    ensures |r| <= |raw|
    ensures forall i :: 0 <= i < |r| ==> r[i].rss != "" && r[i] in raw
    decreases |raw|
  {
    if |raw| == 0 then []
    else if raw[0].rss != "" then [raw[0]] + FilterRss(raw[1..])
    else FilterRss(raw[1..])
  }

  /** Filtering a concatenation filters each part: the kept results stay in response order. */
  lemma {:induction false} FilterRssAppend(a: seq<ItunesChannel>, b: seq<ItunesChannel>)
    ensures FilterRss(a + b) == FilterRss(a) + FilterRss(b)
    decreases |a|
  {
    if |a| == 0 {
      assert a + b == b;
    } else {
      assert (a + b)[0] == a[0] && (a + b)[1..] == a[1..] + b;
      FilterRssAppend(a[1..], b);
    }
  }

  /** A result is kept exactly when it names a feed. */
  lemma {:induction false} FilterRssKeepsFeeds(raw: seq<ItunesChannel>, ch: ItunesChannel)
    ensures ch in FilterRss(raw) <==> ch in raw && ch.rss != ""
    decreases |raw|
  {
    if |raw| > 0 {
      FilterRssKeepsFeeds(raw[1..], ch);
      assert raw == [raw[0]] + raw[1..];
    }
  }

  /** A response whose results all name a feed passes unchanged. */
  lemma {:induction false} FilterRssKeepsFeedOnly(raw: seq<ItunesChannel>)
    requires forall i :: 0 <= i < |raw| ==> raw[i].rss != ""
    ensures FilterRss(raw) == raw
    decreases |raw|
  {
    if |raw| > 0 {
      FilterRssKeepsFeedOnly(raw[1..]);
    }
  }

  /** The end of `fetch`: drop results without a feed, stamp the query asked. */
  function Fetched(raw: seq<ItunesChannel>, query: string): (r: ItunesSearch)
    ensures r.searchQuery == query
    ensures forall i :: 0 <= i < |r.results| ==> r.results[i].rss != ""
  {
    ItunesSearch(FilterRss(raw), query)
  }

  /** The query pairs of the request URL, in order. */
  function SearchParams(country: string, explicit: bool, count: nat, query: string): seq<(string, string)> {
    [("term", query), ("country", country), ("count", NatToString(Min(count, 200))),
     ("media", "podcast"), ("explicit", if explicit then "Yes" else "No")]
  }

  /** The requested count reads back as the caller's count, capped at 200. */
  lemma SearchCountCapped(country: string, explicit: bool, count: nat, query: string)
    ensures var p := SearchParams(country, explicit, count, query);
      && p[2].0 == "count"
      && DigitsValue(p[2].1) <= 200
      && (count <= 200 ==> DigitsValue(p[2].1) == count)
  {
    DigitsValueOfNatToString(Min(count, 200));
  }

  /** `results`: each result's id in decimal, in order. */
  function Results(search: ItunesSearch): (r: seq<string>)
    ensures |r| == |search.results| && forall i :: 0 <= i < |r| ==> r[i] == IntToString(search.results[i].pk)
  {
    seq(|search.results|, i requires 0 <= i < |search.results| => IntToString(search.results[i].pk))
  }

  /** `cores`: one core per result, in order. */
  function Cores(search: ItunesSearch, s: State): (r: seq<ChannelCore>)
    ensures |r| == |search.results| && forall i :: 0 <= i < |r| ==> r[i] == ToChannelCore(search.results[i], s)
  {
    seq(|search.results|, i requires 0 <= i < |search.results| => ToChannelCore(search.results[i], s))
  }

  /** The batch `to_actions` builds: the feed for the stamped query, then each core. */
  function SearchActions(search: ItunesSearch, s: State): seq<StateAction> {
    [SetSearchFeed(search.searchQuery, Ok(Results(search)))] + CoreWrites(Cores(search, s))
  }

  /** `to_actions`: push the feed, then one core write per result. */
  method ToActions(search: ItunesSearch, s: State) returns (actions: seq<StateAction>)
    ensures actions == SearchActions(search, s)
  {
    actions := [SetSearchFeed(search.searchQuery, Ok(Results(search)))];
    var cores := Cores(search, s);
    for i := 0 to |cores|
      invariant actions == [SetSearchFeed(search.searchQuery, Ok(Results(search)))] + CoreWrites(cores[..i])
    {
      assert CoreWrites(cores[..i + 1]) == CoreWrites(cores[..i]) + [BuildCore(cores[i])];
      actions := actions + [SetChannelCore(cores[i].pk, Ok(cores[i]))];
    }
    assert cores[..|cores|] == cores;
  }

  /** The batch is the feed for the stamped query, then one Ok core write per
      result in order, each keyed by the result's decimal id. */
  lemma SearchActionsShape(search: ItunesSearch, s: State)
    ensures var r := SearchActions(search, s);
      && |r| == |search.results| + 1
      && r[0] == SetSearchFeed(search.searchQuery, Ok(Results(search)))
      && forall i :: 0 <= i < |search.results| ==>
           r[i + 1].SetChannelCore? && r[i + 1].core == Ok(ToChannelCore(search.results[i], s))
           && r[i + 1].corePk == IntToString(search.results[i].pk)
  {
    var cores := Cores(search, s);
    var w := CoreWrites(cores);
    var r := SearchActions(search, s);
    forall i | 0 <= i < |search.results|
      ensures r[i + 1] == w[i] && w[i] == BuildCore(ToChannelCore(search.results[i], s))
    {
      assert cores[i] == ToChannelCore(search.results[i], s);
    }
  }

  /** A search answered for the query still shown becomes the search results,
      and every result's core is stored. */
  lemma CurrentSearchStoresEveryResult(s: State, raw: seq<ItunesChannel>)
    ensures var search := Fetched(raw, s.searchQuery);
      var r := ApplySpec(s, SearchActions(search, s));
      && r.searchResults == ToRefs(Ok(Results(search)), s.current)
      && forall i :: 0 <= i < |search.results| ==>
           IntToString(search.results[i].pk) in r.channelCore && r.channelCore[IntToString(search.results[i].pk)].Ok?
  {
    var search := Fetched(raw, s.searchQuery);
    var cores := Cores(search, s);
    forall i | 0 <= i < |cores|
      ensures cores[i].pk in Results(search)
    {
      assert Results(search)[i] == cores[i].pk;
    }
    FeedBatchStoresListedCores(s, s.searchQuery, Results(search), cores);
  }

  /** A search answered after the query moved on leaves the search results as
      they were: the feed is dropped as stale. */
  lemma StaleSearchLeavesResults(s: State, raw: seq<ItunesChannel>, asked: string)
    requires asked != s.searchQuery
    ensures ApplySpec(s, SearchActions(Fetched(raw, asked), s)).searchResults == s.searchResults
  {
    var search := Fetched(raw, asked);
    StaleFeedBatchKeepsResults(s, asked, Results(search), Cores(search, s));
  }
}
