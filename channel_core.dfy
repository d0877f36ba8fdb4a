/**
 * The summary of one podcast channel: its key, title, author, up to three
 * artwork URLs and the URL of its feed.
 */
module ChannelCores {
  import opened Wrappers
  import opened Refs

  datatype ChannelCore = ChannelCore(
    store: StoreHandle,
    /** Generally the iTunes id; can also be the feed URL. */
    pk: string,
    title: string,
    author: string,
    image200: Option<string>,
    image600: Option<string>,
    imageRss: Option<string>,
    rss: Option<string>)

  /** `ChannelCore::default()`. */
  function Default(): ChannelCore {
    ChannelCore(Detached, "", "", "", None, None, None, None)
  }

  function WithPk(c: ChannelCore, pk: string): ChannelCore { c.(pk := pk) }
  function WithTitle(c: ChannelCore, title: string): ChannelCore { c.(title := title) }
  function WithAuthor(c: ChannelCore, author: string): ChannelCore { c.(author := author) }
  function WithImage200(c: ChannelCore, url: string): ChannelCore { c.(image200 := Some(url)) }
  function WithImage600(c: ChannelCore, url: string): ChannelCore { c.(image600 := Some(url)) }
  function WithImageRss(c: ChannelCore, url: string): ChannelCore { c.(imageRss := Some(url)) }
  /** `with_rss`: called by the loader but not defined in state/src/channel_core.rs; taken to set the feed URL. */
  function WithRss(c: ChannelCore, url: string): ChannelCore { c.(rss := Some(url)) }
  function WithCurrent(c: ChannelCore, store: StoreHandle): ChannelCore { c.(store := store) }

  /** Each builder sets its own field and leaves every other field as it was. */
  lemma BuildersChangeOneField(c: ChannelCore, s: string, h: StoreHandle)
    ensures WithPk(c, s).pk == s && WithPk(c, s).(pk := c.pk) == c
    ensures WithTitle(c, s).title == s && WithTitle(c, s).(title := c.title) == c
    ensures WithAuthor(c, s).author == s && WithAuthor(c, s).(author := c.author) == c
    ensures WithImage200(c, s).image200 == Some(s) && WithImage200(c, s).(image200 := c.image200) == c
    ensures WithImage600(c, s).image600 == Some(s) && WithImage600(c, s).(image600 := c.image600) == c
    ensures WithImageRss(c, s).imageRss == Some(s) && WithImageRss(c, s).(imageRss := c.imageRss) == c
    ensures WithRss(c, s).rss == Some(s) && WithRss(c, s).(rss := c.rss) == c
    ensures WithCurrent(c, h).store == h && WithCurrent(c, h).(store := c.store) == c
  {
  }

  /** `mine` if present, otherwise `theirs`. */
  function Fill(mine: Option<string>, theirs: Option<string>): Option<string> {
    if mine.None? then theirs else mine
  }

  /** Every optional field that is present in `c` is present and equal in `r`. */
  predicate KeepsPresentFields(c: ChannelCore, r: ChannelCore) {
    && (c.image200.Some? ==> r.image200 == c.image200)
    && (c.image600.Some? ==> r.image600 == c.image600)
    && (c.imageRss.Some? ==> r.imageRss == c.imageRss)
    && (c.rss.Some? ==> r.rss == c.rss)
  }

  /**
   * `update`: backfill the optional fields `c` lacks from an older core of the
   * same channel. Key, title, author and store link stay those of `c`.
   */
  function Update(c: ChannelCore, other: ChannelCore): (r: ChannelCore)
    ensures r.store == c.store && r.pk == c.pk && r.title == c.title && r.author == c.author
    ensures KeepsPresentFields(c, r)
    ensures c.image200.None? ==> r.image200 == other.image200
    ensures c.image600.None? ==> r.image600 == other.image600
    ensures c.imageRss.None? ==> r.imageRss == other.imageRss
    ensures c.rss.None? ==> r.rss == other.rss
  {
    c.(image200 := Fill(c.image200, other.image200),
       image600 := Fill(c.image600, other.image600),
       imageRss := Fill(c.imageRss, other.imageRss),
       rss := Fill(c.rss, other.rss))
  }

  /** `update` as the source runs it: each missing field is filled in turn on a working copy. */
  method Backfill(c: ChannelCore, other: ChannelCore) returns (r: ChannelCore)
    ensures r == Update(c, other)
  {
    r := c;
    if r.image200.None? {
      r := r.(image200 := other.image200);
    }
    if r.image600.None? {
      r := r.(image600 := other.image600);
    }
    if r.imageRss.None? {
      r := r.(imageRss := other.imageRss);
    }
    if r.rss.None? {
      r := r.(rss := other.rss);
    }
  }

  /** Backfilling twice from the same core is backfilling once. */
  lemma UpdateIdempotent(c: ChannelCore, other: ChannelCore)
    ensures Update(Update(c, other), other) == Update(c, other)
  {
  }

  /** A core with every optional field present is left unchanged by backfill. */
  lemma UpdateOfCompleteCore(c: ChannelCore, other: ChannelCore)
    requires c.image200.Some? && c.image600.Some? && c.imageRss.Some? && c.rss.Some?
    ensures Update(c, other) == c
  {
  }

  /** `references_image`: one of the three artwork URLs is `url` (the feed URL is not artwork). */
  predicate ReferencesImage(c: ChannelCore, url: string) {
    c.image200 == Some(url) || c.image600 == Some(url) || c.imageRss == Some(url)
  }

  /** The artwork URLs of a core, as a set. */
  function ImageUrls(c: ChannelCore): set<string> {
    (if c.image200.Some? then {c.image200.value} else {})
    + (if c.image600.Some? then {c.image600.value} else {})
    + (if c.imageRss.Some? then {c.imageRss.value} else {})
  }

  /** A core references exactly its artwork URLs; its feed URL does not count. */
  lemma ReferencesImageIffArtwork(c: ChannelCore, url: string, feed: Option<string>)
    ensures ReferencesImage(c, url) <==> url in ImageUrls(c)
    ensures ReferencesImage(c.(rss := feed), url) == ReferencesImage(c, url)
  {
  }

  /** Backfill never loses an artwork reference and only adds the older core's. */
  lemma UpdateReferences(c: ChannelCore, other: ChannelCore, url: string)
    ensures ReferencesImage(c, url) ==> ReferencesImage(Update(c, other), url)
    ensures ReferencesImage(Update(c, other), url) ==> ReferencesImage(c, url) || ReferencesImage(other, url)
  {
  }
}
