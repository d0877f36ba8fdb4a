/** A channel as the iTunes search and lookup APIs describe it. */
module ItunesChannels {
  import opened Wrappers
  import opened Decimal
  import opened Refs
  import opened ChannelCores
  import opened Snapshot

  /** Missing JSON fields default to 0 and "". The id is a 64-bit integer. */
  datatype ItunesChannel = ItunesChannel(pk: int, title: string, author: string, image600: string, rss: string)

  /** `to_channel_core`, building on the store of snapshot `s`: the decimal id
      as key, the 600px artwork and the feed URL, even when they are empty. */
  function ToChannelCore(ch: ItunesChannel, s: State): (c: ChannelCore)
    ensures c.store == s.current && c.pk == IntToString(ch.pk)
    ensures c.title == ch.title && c.author == ch.author
    ensures c.image600 == Some(ch.image600) && c.rss == Some(ch.rss)
    ensures c.image200.None? && c.imageRss.None?
  {
    ChannelCores.WithRss(ChannelCores.WithImage600(ChannelCores.WithAuthor(ChannelCores.WithTitle(ChannelCores.WithPk(
      NewChannelCore(s), IntToString(ch.pk)), ch.title), ch.author), ch.image600), ch.rss)
  }

  /** The key of a translated core reads back as the channel's id. */
  lemma KeyParsesBack(ch: ItunesChannel, s: State)
    requires ISIZE_MIN <= ch.pk <= ISIZE_MAX
    ensures ParseIsize(ToChannelCore(ch, s).pk) == Some(ch.pk)
  {
    ParseIsizeOfIntToString(ch.pk);
  }

  /** Distinct ids give distinct keys. */
  lemma KeysDistinct(a: ItunesChannel, b: ItunesChannel, s: State)
    requires ISIZE_MIN <= a.pk <= ISIZE_MAX && ISIZE_MIN <= b.pk <= ISIZE_MAX
    requires a.pk != b.pk
    ensures ToChannelCore(a, s).pk != ToChannelCore(b, s).pk
  {
    KeyParsesBack(a, s);
    KeyParsesBack(b, s);
  }

  /** The only artwork a translated core references is its 600px URL. */
  lemma ReferencesOnly600(ch: ItunesChannel, s: State, url: string)
    ensures ChannelCores.ReferencesImage(ToChannelCore(ch, s), url) <==> url == ch.image600
  {
  }
}
