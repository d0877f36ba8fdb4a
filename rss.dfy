/**
 * An RSS 2.0 feed, as decoded, and the batch it becomes: the channel's core,
 * its detail page listing the episodes, and one write per episode.
 */
module RssFeeds {
  import opened Wrappers
  import opened StateErrors
  import opened Refs
  import opened ChannelCores
  import opened Episodes
  import opened ChannelDetails
  import opened Snapshot
  import opened Apply

  /** An `<item>`. `image` is the href of its iTunes image, if any;
      `enclosureUrl` is "" when the item has no enclosure. */
  datatype RssEpisode = RssEpisode(
    guid: Option<string>,
    itunesTitle: Option<string>,
    title: string,
    link: string,
    pubDate: string,
    itunesSummary: Option<string>,
    description: string,
    itunesDuration: string,
    image: Option<string>,
    enclosureUrl: string)

  /** A `<channel>`. `itunesImage` is the href of its iTunes image and
      `image` the url of its plain `<image>`; `pk` and `selfUrl` are set by `fetch`. */
  datatype RssChannel = RssChannel(
    title: string,
    itunesSummary: Option<string>,
    description: string,
    link: string,
    itunesAuthor: string,
    itunesImage: Option<string>,
    image: Option<string>,
    items: seq<RssEpisode>,
    pk: string,
    selfUrl: string)

  /** `RssEpisode::pk`: the guid, else the enclosure URL. */
  function EpisodePk(ep: RssEpisode): (pk: string)
    ensures ep.guid.Some? ==> pk == ep.guid.value
    ensures ep.guid.None? ==> pk == ep.enclosureUrl
  {
    ep.guid.GetOr(ep.enclosureUrl)
  }

  /** `RssEpisode::title`: the iTunes title, else the plain title. */
  function EpisodeTitle(ep: RssEpisode): (t: string)
    ensures ep.itunesTitle.Some? ==> t == ep.itunesTitle.value
    ensures ep.itunesTitle.None? ==> t == ep.title
  {
    ep.itunesTitle.GetOr(ep.title)
  }

  /** `RssEpisode::description`: the iTunes summary, else the plain description. */
  function EpisodeDescription(ep: RssEpisode): (d: string)
    ensures ep.itunesSummary.Some? ==> d == ep.itunesSummary.value
    ensures ep.itunesSummary.None? ==> d == ep.description
  {
    ep.itunesSummary.GetOr(ep.description)
  }

  /** `to_episode`: an episode of channel `channel`, on the store of snapshot `s`. */
  function ToEpisode(ep: RssEpisode, channel: string, s: State): (e: Episode)
    ensures e.store == s.current && e.pk == EpisodePk(ep) && e.channel == channel
    ensures e.title == EpisodeTitle(ep) && e.description == EpisodeDescription(ep)
    ensures e.url == ep.link && e.date == ep.pubDate && e.duration == ep.itunesDuration
    ensures e.image == ep.image && e.audio == ep.enclosureUrl
  {
    Episodes.WithAudio(
      Episodes.WithDuration(Episodes.WithDescription(Episodes.WithDate(Episodes.WithUrl(Episodes.WithTitle(
        Episodes.WithChannel(Episodes.WithPk(NewEpisode(s), EpisodePk(ep)), channel),
        EpisodeTitle(ep)), ep.link), ep.pubDate), EpisodeDescription(ep)), ep.itunesDuration)
      .(image := ep.image),
      ep.enclosureUrl)
  }

  /** `image_rss`: the iTunes image, else the plain image, else "". */
  function ImageRss(ch: RssChannel): (url: string)
    ensures ch.itunesImage.Some? ==> url == ch.itunesImage.value
    ensures ch.itunesImage.None? && ch.image.Some? ==> url == ch.image.value
    ensures ch.itunesImage.None? && ch.image.None? ==> url == ""
  {
    ch.itunesImage.GetOr(ch.image.GetOr(""))
  }

  /** `to_channel_core`: the feed's own artwork and URL; no iTunes artwork. */
  function ToChannelCore(ch: RssChannel, s: State): (c: ChannelCore)
    ensures c.store == s.current && c.pk == ch.pk && c.title == ch.title && c.author == ch.itunesAuthor
    ensures c.imageRss == Some(ImageRss(ch)) && c.rss == Some(ch.selfUrl)
    ensures c.image200.None? && c.image600.None?
  {
    ChannelCores.WithRss(ChannelCores.WithImageRss(ChannelCores.WithAuthor(ChannelCores.WithTitle(ChannelCores.WithPk(
      NewChannelCore(s), ch.pk), ch.title), ch.itunesAuthor), ImageRss(ch)), ch.selfUrl)
  }

  /** The keys of the feed's items, in feed order. */
  function ItemPks(ch: RssChannel): (pks: seq<string>)
    ensures |pks| == |ch.items| && forall i :: 0 <= i < |pks| ==> pks[i] == EpisodePk(ch.items[i])
  {
    seq(|ch.items|, i requires 0 <= i < |ch.items| => EpisodePk(ch.items[i]))
  }

  /** `to_channel_detail`: summary-else-description, the link, and the items' keys. */
  function ToChannelDetail(ch: RssChannel, s: State): (d: ChannelDetail)
    ensures d.store == s.current && d.pk == ch.pk && d.link == ch.link
    ensures ch.itunesSummary.Some? ==> d.description == ch.itunesSummary.value
    ensures ch.itunesSummary.None? ==> d.description == ch.description
    ensures RefKeys(d.episodes) == ItemPks(ch)
  {
    ChannelDetails.WithEpisodeKeys(
      ChannelDetails.WithLink(ChannelDetails.WithDescription(ChannelDetails.WithPk(NewChannelDetail(s), ch.pk), ch.itunesSummary.GetOr(ch.description)), ch.link),
      ItemPks(ch))
  }

  /** The feed's items as episodes of the feed's channel, in order. */
  function FeedEpisodes(ch: RssChannel, s: State): (r: seq<Episode>)
    ensures |r| == |ch.items| && forall i :: 0 <= i < |r| ==> r[i] == ToEpisode(ch.items[i], ch.pk, s)
  {
    seq(|ch.items|, i requires 0 <= i < |ch.items| => ToEpisode(ch.items[i], ch.pk, s))
  }

  /** The batch `to_actions` builds. */
  function RssActions(ch: RssChannel, s: State): seq<StateAction> {
    [SetChannelCore(ch.pk, Ok(ToChannelCore(ch, s))), SetChannelDetail(ch.pk, Ok(ToChannelDetail(ch, s)))]
    + EpisodeWrites(FeedEpisodes(ch, s))
  }

  /** `to_actions`: the core, the detail, then one write per item. */
  method ToActions(ch: RssChannel, s: State) returns (actions: seq<StateAction>)
    ensures actions == RssActions(ch, s)
  {
    actions := [SetChannelCore(ch.pk, Ok(ToChannelCore(ch, s))), SetChannelDetail(ch.pk, Ok(ToChannelDetail(ch, s)))];
    ghost var head := actions;
    var eps := FeedEpisodes(ch, s);
    for i := 0 to |ch.items|
      invariant actions == head + EpisodeWrites(eps[..i])
    {
      assert EpisodeWrites(eps[..i + 1]) == EpisodeWrites(eps[..i]) + [BuildEpisode(eps[i])];
      actions := actions + [SetEpisode(EpisodePk(ch.items[i]), Ok(ToEpisode(ch.items[i], ch.pk, s)))];
    }
    assert eps[..|eps|] == eps;
  }

  /** The batch has two actions more than the feed has items: the core and the
      detail under the channel's key, then each item under its own key, every
      one of them an episode of this channel. */
  lemma RssActionsShape(ch: RssChannel, s: State)
    ensures var r := RssActions(ch, s);
      && |r| == |ch.items| + 2
      && r[0] == BuildCore(ToChannelCore(ch, s))
      && r[1] == BuildDetail(ToChannelDetail(ch, s))
      && forall i :: 0 <= i < |ch.items| ==>
           r[i + 2].SetEpisode? && r[i + 2].episodePk == EpisodePk(ch.items[i])
           && r[i + 2].episode.Ok? && r[i + 2].episode.value.pk == EpisodePk(ch.items[i])
           && OwningChannel(r[i + 2].episode.value).pk == ch.pk
  {
    var eps := FeedEpisodes(ch, s);
    var w := EpisodeWrites(eps);
    var r := RssActions(ch, s);
    forall i | 0 <= i < |ch.items|
      ensures r[i + 2] == w[i] && w[i] == BuildEpisode(ToEpisode(ch.items[i], ch.pk, s))
    {
      assert eps[i] == ToEpisode(ch.items[i], ch.pk, s);
    }
  }

  /** The end of `fetch`: the feed is keyed by the requested key and remembers its URL. */
  function Fetched(ch: RssChannel, pk: string, url: string): (r: RssChannel)
    ensures r.pk == pk && r.selfUrl == url && r.(pk := ch.pk, selfUrl := ch.selfUrl) == ch
  {
    ch.(pk := pk, selfUrl := url)
  }

  /** A fetched feed's core names the fetched URL as its feed. */
  lemma FetchedCoreKeepsUrl(ch: RssChannel, pk: string, url: string, s: State)
    ensures ToChannelCore(Fetched(ch, pk, url), s).pk == pk
    ensures ToChannelCore(Fetched(ch, pk, url), s).rss == Some(url)
  {
  }

  /**
   * Applied while the channel is referenced, the batch stores the core and
   * the detail, and every episode the detail lists is stored: its handles
   * all resolve.
   */
  lemma ReferencedFeedResolves(s: State, ch: RssChannel)
    requires ReferencesChannel(s, ch.pk)
    ensures var r := ApplySpec(s, RssActions(ch, s));
      && ch.pk in r.channelCore && r.channelCore[ch.pk].Ok?
      && ch.pk in r.channelDetail && r.channelDetail[ch.pk] == Ok(ToChannelDetail(ch, s))
      && forall i :: 0 <= i < |ToChannelDetail(ch, s).episodes| ==>
           ToChannelDetail(ch, s).episodes[i].pk in r.episodes
  {
    var core, detail := BuildCore(ToChannelCore(ch, s)), BuildDetail(ToChannelDetail(ch, s));
    ApplyEmpty(s);
    ChannelCoreKeptIffReferenced(s, [], ch.pk, Ok(ToChannelCore(ch, s)));
    assert [] + [core] == [core];
    var t1 := ApplySpec(s, [core]);
    assert ReferencesChannel(t1, ch.pk) && ch.pk in t1.channelCore && t1.channelCore[ch.pk].Ok?;
    ChannelDetailKeptIffReferenced(s, [core], ch.pk, Ok(ToChannelDetail(ch, s)));
    assert [core] + [detail] == [core, detail];
    var t2 := ApplySpec(s, [core, detail]);
    assert t2 == t1.(channelDetail := t1.channelDetail[ch.pk := Ok(ToChannelDetail(ch, s))]);
    assert RssActions(ch, s) == [core, detail] + EpisodeWrites(FeedEpisodes(ch, s));
    var eps := FeedEpisodes(ch, s);
    EpisodeWritesStoreEach(s, [core, detail], eps);
    var d := ToChannelDetail(ch, s);
    forall i | 0 <= i < |d.episodes|
      ensures d.episodes[i].pk == eps[i].pk
    {
      assert RefKeys(d.episodes)[i] == ItemPks(ch)[i];
    }
  }
}
