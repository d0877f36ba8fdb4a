/**
 * Lookups through handles. Every entity and handle carries a weak link to
 * the store; a lookup upgrades the link and reads the store's CURRENT
 * snapshot, which is whatever the last applied batch produced, not the
 * snapshot the handle was created in. The set of live stores is passed in
 * explicitly: a detached link, or a link to a store that was dropped, makes
 * every lookup answer None.
 */
module Lookups {
  import opened Wrappers
  import opened StateErrors
  import opened Images
  import opened Refs
  import opened ChannelCores
  import opened Episodes
  import opened ChannelDetails
  import opened Snapshot
  import opened Apply

  /** The stores still alive, by id, each with the snapshot it currently holds. */
  type Stores = map<nat, State>

  /** `Weak::upgrade` followed by `CurrentState::get`. */
  function Live(h: StoreHandle, stores: Stores): (r: Option<State>)
    ensures r.Some? <==> h.Attached? && h.id in stores
    ensures r.Some? ==> r.value == stores[h.id]
  {
    if h.Attached? && h.id in stores then Some(stores[h.id]) else None
  }

  /** A map lookup in the live snapshot, if there is one. */
  function Entry<V>(m: map<string, V>, key: string): Option<V> {
    if key in m then Some(m[key]) else None
  }

  /** `ChannelRef::core`. */
  function CoreOf(r: ChannelRef, stores: Stores): Option<Result<ChannelCore, StateError>> {
    match Live(r.store, stores)
    case None => None
    case Some(s) => Entry(s.channelCore, r.pk)
  }

  /** `ChannelRef::details`. */
  function DetailsOf(r: ChannelRef, stores: Stores): Option<Result<ChannelDetail, StateError>> {
    match Live(r.store, stores)
    case None => None
    case Some(s) => Entry(s.channelDetail, r.pk)
  }

  /** `EpisodeRef::get`. */
  function EpisodeOf(r: EpisodeRef, stores: Stores): Option<Result<Episode, StateError>> {
    match Live(r.store, stores)
    case None => None
    case Some(s) => Entry(s.episodes, r.pk)
  }

  /** `ChannelCore::details`: the detail stored under the core's own key. */
  function CoreDetails(c: ChannelCore, stores: Stores): Option<Result<ChannelDetail, StateError>> {
    match Live(c.store, stores)
    case None => None
    case Some(s) => Entry(s.channelDetail, c.pk)
  }

  /** `ChannelDetail::core`: the core stored under the detail's own key. */
  function DetailCore(d: ChannelDetail, stores: Stores): Option<Result<ChannelCore, StateError>> {
    match Live(d.store, stores)
    case None => None
    case Some(s) => Entry(s.channelCore, d.pk)
  }

  /** The stored image for an optional artwork URL. */
  function ImageAt(url: Option<string>, s: State): Option<Result<Image, StateError>> {
    if url.Some? then Entry(s.images, url.value) else None
  }

  /** Whether a lookup found an Ok entry. */
  predicate FoundOk<T>(x: Option<Result<T, StateError>>) {
    x.Some? && x.value.Ok?
  }

  /**
   * The fallback rule shared by the artwork lookups: an Ok first choice
   * wins; otherwise any second choice that was found; otherwise the first
   * choice's error, if it had one.
   */
  function PreferOk<T>(first: Option<Result<T, StateError>>, second: Option<Result<T, StateError>>): (r: Option<Result<T, StateError>>)
    ensures r == first || r == second
    ensures FoundOk(first) ==> r == first
    ensures !FoundOk(first) && second.Some? ==> r == second
    ensures r.Some? <==> first.Some? || second.Some?
    ensures FoundOk(r) <==> FoundOk(first) || FoundOk(second)
  {
    if FoundOk(first) then first
    else if second.Some? then second
    else first
  }

  /** `ChannelCore::small_image`: the 200px artwork, else the 600px one. */
  function SmallImage(c: ChannelCore, stores: Stores): Option<Result<Image, StateError>> {
    match Live(c.store, stores)
    case None => None
    case Some(s) => PreferOk(ImageAt(c.image200, s), ImageAt(c.image600, s))
  }

  /** `ChannelCore::big_image`: the 600px artwork, else the feed's own. */
  function BigImage(c: ChannelCore, stores: Stores): Option<Result<Image, StateError>> {
    match Live(c.store, stores)
    case None => None
    case Some(s) => PreferOk(ImageAt(c.image600, s), ImageAt(c.imageRss, s))
  }

  /** The channel artwork an episode falls back to, looked up through `ch`. */
  function ChannelArtwork(ch: ChannelRef, stores: Stores): Option<Result<Image, StateError>> {
    match CoreOf(ch, stores)
    case Some(Ok(core)) => BigImage(core, stores)
    case _ => None
  }

  /**
   * `Episode::image` as written: the episode's own artwork, else the big
   * image of the core that `channel()` finds, which is the core stored
   * under the EPISODE's key.
   */
  function EpisodeImage(e: Episode, stores: Stores): Option<Result<Image, StateError>> {
    match Live(e.store, stores)
    case None => None
    case Some(s) => PreferOk(ImageAt(e.image, s), ChannelArtwork(Episodes.Channel(e), stores))
  }

  /** `Episode::image` as evidently intended: the fallback is the owning channel's big image. */
  function EpisodeImageViaOwner(e: Episode, stores: Stores): Option<Result<Image, StateError>> {
    match Live(e.store, stores)
    case None => None
    case Some(s) => PreferOk(ImageAt(e.image, s), ChannelArtwork(OwningChannel(e), stores))
  }

  // ---------------------------------------------------------------------------
  // Properties.
  // ---------------------------------------------------------------------------

  /** A lookup answers exactly when the link upgrades and the key is stored,
      and then answers the stored entry. */
  lemma LookupsReadLiveSnapshot(r: ChannelRef, e: EpisodeRef, stores: Stores)
    ensures CoreOf(r, stores).Some? <==> r.store.Attached? && r.store.id in stores && r.pk in stores[r.store.id].channelCore
    ensures CoreOf(r, stores).Some? ==> CoreOf(r, stores).value == stores[r.store.id].channelCore[r.pk]
    ensures DetailsOf(r, stores).Some? <==> r.store.Attached? && r.store.id in stores && r.pk in stores[r.store.id].channelDetail
    ensures DetailsOf(r, stores).Some? ==> DetailsOf(r, stores).value == stores[r.store.id].channelDetail[r.pk]
    ensures EpisodeOf(e, stores).Some? <==> e.store.Attached? && e.store.id in stores && e.pk in stores[e.store.id].episodes
    ensures EpisodeOf(e, stores).Some? ==> EpisodeOf(e, stores).value == stores[e.store.id].episodes[e.pk]
  {
  }

  /** Entities and handles built from `Default()` are detached: every lookup answers None. */
  lemma DetachedFindsNothing(pk: string, stores: Stores)
    ensures CoreOf(ChannelRef(Detached, pk), stores).None?
    ensures DetailsOf(ChannelRef(Detached, pk), stores).None?
    ensures EpisodeOf(EpisodeRef(Detached, pk), stores).None?
    ensures SmallImage(ChannelCores.Default(), stores).None? && BigImage(ChannelCores.Default(), stores).None?
    ensures CoreDetails(ChannelCores.Default(), stores).None? && DetailCore(ChannelDetails.Default(), stores).None?
    ensures EpisodeImage(Episodes.Default(), stores).None?
  {
  }

  /** Handles that are equal and share a store link resolve to the same entries. */
  lemma EqualRefsResolveAlike(a: ChannelRef, b: ChannelRef, x: EpisodeRef, y: EpisodeRef, stores: Stores)
    requires SameChannel(a, b) && a.store == b.store
    requires SameEpisode(x, y) && x.store == y.store
    ensures CoreOf(a, stores) == CoreOf(b, stores) && DetailsOf(a, stores) == DetailsOf(b, stores)
    ensures EpisodeOf(x, stores) == EpisodeOf(y, stores)
  {
  }

  /** Equality ignores the store link, so two equal handles can still resolve
      differently: one detached, one attached to a store holding the key. */
  lemma EqualRefsMayResolveDifferently(s: State, core: Result<ChannelCore, StateError>)
    ensures var stores: Stores := map[0 := s.(channelCore := s.channelCore["k" := core])];
      && SameChannel(ChannelRef(Detached, "k"), ChannelRef(Attached(0), "k"))
      && CoreOf(ChannelRef(Detached, "k"), stores).None?
      && CoreOf(ChannelRef(Attached(0), "k"), stores) == Some(core)
  {
  }

  /** A core, its handle and the detail stored under its key all lead to one another. */
  lemma CoreAndDetailLinked(c: ChannelCore, d: ChannelDetail, stores: Stores)
    ensures CoreDetails(c, stores) == DetailsOf(ChannelRef(c.store, c.pk), stores)
    ensures DetailCore(d, stores) == CoreOf(ChannelRef(d.store, d.pk), stores)
  {
  }

  /** Artwork lookups fall back in the source's order. */
  lemma ArtworkFallbackOrder(c: ChannelCore, e: Episode, s: State, id: nat)
    requires c.store == Attached(id) && e.store == Attached(id)
    ensures var stores: Stores := map[id := s];
      && (FoundOk(ImageAt(c.image200, s)) ==> SmallImage(c, stores) == ImageAt(c.image200, s))
      && (!FoundOk(ImageAt(c.image200, s)) && ImageAt(c.image600, s).Some? ==> SmallImage(c, stores) == ImageAt(c.image600, s))
      && (ImageAt(c.image200, s).None? && ImageAt(c.image600, s).None? ==> SmallImage(c, stores).None?)
      && (FoundOk(SmallImage(c, stores)) <==> FoundOk(ImageAt(c.image200, s)) || FoundOk(ImageAt(c.image600, s)))
      && (FoundOk(ImageAt(c.image600, s)) ==> BigImage(c, stores) == ImageAt(c.image600, s))
      && (!FoundOk(ImageAt(c.image600, s)) && ImageAt(c.imageRss, s).Some? ==> BigImage(c, stores) == ImageAt(c.imageRss, s))
      && (ImageAt(c.image600, s).None? && ImageAt(c.imageRss, s).None? ==> BigImage(c, stores).None?)
      && (FoundOk(BigImage(c, stores)) <==> FoundOk(ImageAt(c.image600, s)) || FoundOk(ImageAt(c.imageRss, s)))
      && (FoundOk(ImageAt(e.image, s)) ==> EpisodeImage(e, stores) == ImageAt(e.image, s))
  {
  }

  /** A handle created before a batch sees the batch's writes once the store
      holds the new snapshot. */
  lemma HandleSeesLaterWrites(s: State, id: nat, actions: seq<StateAction>, r: ChannelRef)
    requires r.store == Attached(id)
    ensures var stores: Stores := map[id := ApplySpec(s, actions)];
      CoreOf(r, stores) == Entry(ApplySpec(s, actions).channelCore, r.pk)
  {
  }

  /**
   * The store's smoke test end to end: in a store attached as `id`, after the
   * query batch and the feed batch, the first search result resolves to the
   * core titled "This American Life", and nothing is stored for "invalid".
   */
  lemma SmokeTestThroughHandles(id: nat, c: ChannelCore, d: ChannelCore)
    requires c.pk == "tal" && c.title == "This American Life"
    requires d.pk == "invalid" && d.title == "Not present"
    ensures var s0 := Snapshot.WithCurrent(New(), Attached(id));
      var s1 := ApplySpec(s0, [SetSearchQuery("This American Life")]);
      var s2 := ApplySpec(s1, [SetSearchFeed("This American Life", Ok(["tal"])), BuildCore(c), BuildCore(d)]);
      && s2.searchResults.Ok? && |s2.searchResults.value| == 1
      && var found := CoreOf(s2.searchResults.value[0], map[id := s2]);
      && found.Some? && found.value.Ok? && found.value.value.title == "This American Life"
      && "invalid" !in s2.channelCore
  {
    var s0 := Snapshot.WithCurrent(New(), Attached(id));
    var q := SetSearchQuery("This American Life");
    ApplySnoc(s0, [], q);
    var s1 := ApplySpec(s0, [q]);
    ApplyKeepsStoreLink(s0, [q]);
    var f, a, b := SetSearchFeed("This American Life", Ok(["tal"])), BuildCore(c), BuildCore(d);
    ApplySnoc(s1, [], f);
    ApplySnoc(s1, [f], a);
    ApplySnoc(s1, [f, a], b);
    assert [f] + [a] == [f, a];
    assert [f, a] + [b] == [f, a, b];
    var t1 := ApplySpec(s1, [f]);
    assert t1.searchResults.value[0].pk == "tal";
    assert t1.searchResults.value[0].store == Attached(id);
    assert InSearchResults(t1, "tal");
    var t2 := ApplySpec(s1, [f, a]);
    assert !InSearchResults(t2, "invalid");
  }

  /**
   * The episode artwork fallback as written misses the channel's artwork: an
   * episode "e1" of channel "c1", with no artwork of its own, in a store
   * whose core for "c1" has a loaded 600px image, gets no image; through its
   * owning channel it gets that image.
   */
  lemma EpisodeImageMissesChannelArtwork(img: Image)
    ensures var core := ChannelCores.Default().(store := Attached(0), pk := "c1", image600 := Some("u"));
      var e := Episodes.Default().(store := Attached(0), pk := "e1", channel := "c1");
      var s := New().(channelCore := map["c1" := Ok(core)], episodes := map["e1" := Ok(e)], images := map["u" := Ok(img)]);
      var stores: Stores := map[0 := s];
      && EpisodeImage(e, stores).None?
      && EpisodeImageViaOwner(e, stores) == Some(Ok(img))
  {
  }

  /** With the owning channel, an episode without artwork of its own shows the
      channel's big image whenever that core is stored Ok in the same store. */
  lemma EpisodeImageFallsBackToOwner(e: Episode, stores: Stores)
    requires Live(e.store, stores).Some?
    requires ImageAt(e.image, Live(e.store, stores).value).None?
    ensures var owner := CoreOf(OwningChannel(e), stores);
      owner.Some? && owner.value.Ok? ==> EpisodeImageViaOwner(e, stores) == BigImage(owner.value.value, stores)
    ensures FoundOk(EpisodeImageViaOwner(e, stores)) <==> FoundOk(ChannelArtwork(OwningChannel(e), stores))
  {
  }
}
