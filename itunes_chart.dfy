/** The iTunes top-podcasts chart and the batch it becomes. */
module ItunesCharts {
  import opened Wrappers
  import opened Decimal
  import opened Refs
  import opened ChannelCores
  import opened Snapshot
  import opened Apply

  /** One chart entry. Missing JSON fields default to "". */
  datatype ChartItem = ChartItem(pk: string, title: string, author: string, image200: string)

  /** `ItunesChartItem::to_channel_core`: key, title, author and the small artwork only. */
  function ItemCore(item: ChartItem, s: State): (c: ChannelCore)
    ensures c.store == s.current && c.pk == item.pk && c.title == item.title && c.author == item.author
    ensures c.image200 == Some(item.image200)
    ensures c.image600.None? && c.imageRss.None? && c.rss.None?
  {
    ChannelCores.WithImage200(ChannelCores.WithAuthor(ChannelCores.WithTitle(ChannelCores.WithPk(
      NewChannelCore(s), item.pk), item.title), item.author), item.image200)
  }

  /** `results`: the entries' keys in chart order. */
  function Results(items: seq<ChartItem>): (r: seq<string>)
    ensures |r| == |items| && forall i :: 0 <= i < |items| ==> r[i] == items[i].pk
  {
    seq(|items|, i requires 0 <= i < |items| => items[i].pk)
  }

  /** `cores`: one core per entry, in chart order. */
  function Cores(items: seq<ChartItem>, s: State): (r: seq<ChannelCore>)
    ensures |r| == |items| && forall i :: 0 <= i < |items| ==> r[i] == ItemCore(items[i], s)
  {
    seq(|items|, i requires 0 <= i < |items| => ItemCore(items[i], s))
  }

  /** The batch `to_actions` builds: the feed for the empty query, then each core. */
  function ChartActions(items: seq<ChartItem>, s: State): seq<StateAction> {
    [SetSearchFeed("", Ok(Results(items)))] + CoreWrites(Cores(items, s))
  }

  /** `to_actions`: push the feed, then one core write per entry. */
  method ToActions(items: seq<ChartItem>, s: State) returns (actions: seq<StateAction>)
    ensures actions == ChartActions(items, s)
  {
    actions := [SetSearchFeed("", Ok(Results(items)))];
    var cores := Cores(items, s);
    for i := 0 to |cores|
      invariant actions == [SetSearchFeed("", Ok(Results(items)))] + CoreWrites(cores[..i])
    {
      assert CoreWrites(cores[..i + 1]) == CoreWrites(cores[..i]) + [BuildCore(cores[i])];
      actions := actions + [SetChannelCore(cores[i].pk, Ok(cores[i]))];
    }
    assert cores[..|cores|] == cores;
  }

  /** The batch has one action more than the chart: the feed first, then one
      core write per entry in chart order, each keyed by its core's key. */
  lemma ChartActionsShape(items: seq<ChartItem>, s: State)
    ensures var r := ChartActions(items, s);
      && |r| == |items| + 1
      && r[0] == SetSearchFeed("", Ok(Results(items)))
      && forall i :: 0 <= i < |items| ==>
           r[i + 1].SetChannelCore? && r[i + 1].core == Ok(ItemCore(items[i], s))
           && r[i + 1].corePk == items[i].pk == r[i + 1].core.value.pk
  {
    var cores := Cores(items, s);
    var w := CoreWrites(cores);
    var r := ChartActions(items, s);
    forall i | 0 <= i < |items|
      ensures r[i + 1] == w[i] && w[i] == BuildCore(ItemCore(items[i], s))
    {
      assert cores[i] == ItemCore(items[i], s);
    }
  }

  /** Applied while the search query is empty, the chart batch becomes the
      search results and every entry's core is stored. */
  lemma ChartBatchStoresEveryEntry(s: State, items: seq<ChartItem>)
    requires s.searchQuery == ""
    ensures var r := ApplySpec(s, ChartActions(items, s));
      && r.searchResults == ToRefs(Ok(Results(items)), s.current)
      && forall i :: 0 <= i < |items| ==> items[i].pk in r.channelCore && r.channelCore[items[i].pk].Ok?
  {
    var cores := Cores(items, s);
    forall i | 0 <= i < |cores|
      ensures cores[i].pk in Results(items)
    {
      assert Results(items)[i] == cores[i].pk;
    }
    FeedBatchStoresListedCores(s, "", Results(items), cores);
  }

  /** The request path of `fetch`: country, count capped at 100, explicitness. */
  function ChartPath(country: string, explicit: bool, count: nat): string {
    "/api/v1/" + country + "/podcasts/top-podcasts/all/" + NatToString(Min(count, 100)) + "/"
    + (if explicit then "explicit" else "non-explicit") + ".json"
  }

  /** The count segment of the path reads back as the requested count, capped at 100. */
  lemma ChartPathCountCapped(country: string, explicit: bool, count: nat)
    ensures var prefix := "/api/v1/" + country + "/podcasts/top-podcasts/all/";
      var digits := NatToString(Min(count, 100));
      && ChartPath(country, explicit, count)[..|prefix| + |digits|] == prefix + digits
      && DigitsValue(digits) <= 100
      && (count <= 100 ==> DigitsValue(digits) == count)
  {
    DigitsValueOfNatToString(Min(count, 100));
  }
}
