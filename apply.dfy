/**
 * `State::apply`: fold a batch of commands into a new snapshot.
 *
 * The source clones the snapshot into `next`, updates its scalar fields
 * action by action, and collects writes to the four entity maps in lazily
 * cloned copies that replace `next`'s maps only after the whole batch. So the
 * image-retention check and the core backfill read the maps as they were
 * before the batch, while the channel-retention check reads the focus, search
 * results and player fields as earlier commands of the same batch left them.
 */
module Apply {
  import opened Wrappers
  import opened StateErrors
  import opened Images
  import opened Refs
  import opened ChannelCores
  import opened Episodes
  import opened ChannelDetails
  import opened Snapshot

  /** The working copy: `next` plus the four lazily cloned maps. */
  datatype Pending = Pending(
    next: State,
    core: Option<CoreMap>,
    detail: Option<DetailMap>,
    episodes: Option<EpisodeMap>,
    images: Option<ImageMap>)

  function Start(self: State): Pending {
    Pending(self, None, None, None, None)
  }

  /** The search-feed keys as handles on the store of the snapshot being updated. */
  function ToRefs(res: Result<seq<string>, StateError>, store: StoreHandle): (r: Result<seq<ChannelRef>, StateError>)
    ensures res.Err? ==> r == Err(res.error)
    ensures res.Ok? ==> r.Ok? && |r.value| == |res.value|
    ensures res.Ok? ==> forall i :: 0 <= i < |res.value| ==> r.value[i].pk == res.value[i] && r.value[i].store == store
  {
    match res
    case Err(e) => Err(e)
    case Ok(pks) => Ok(seq(|pks|, i requires 0 <= i < |pks| => ChannelRef(store, pks[i])))
  }

  /** The core to store: an Ok write is backfilled from an Ok core stored before the batch. */
  function Backfilled(pre: CoreMap, pk: string, core: Result<ChannelCore, StateError>): Result<ChannelCore, StateError> {
    if core.Ok? && pk in pre && pre[pk].Ok? then Ok(Update(core.value, pre[pk].value)) else core
  }

  /** One iteration of the loop over the batch. */
  function Step(self: State, p: Pending, a: StateAction): Pending {
    match a
    case SetCountry(country) => p.(next := p.next.(country := country))
    case SetAllowExplicit(allow) => p.(next := p.next.(allowExplicit := allow))
    case SetSearchQuery(query) =>
      if p.next.searchQuery != query then p.(next := p.next.(searchQuery := query, searchResults := Err(Loading))) else p
    case SetSearchFocus(focus) => p.(next := p.next.(searchFocus := focus))
    case SetSearchFeed(query, results) =>
      if p.next.searchQuery == query then p.(next := p.next.(searchResults := ToRefs(results, self.current))) else p
    case SetHomeFocus(focus) => p.(next := p.next.(homeFocus := focus))
    case SetChannelCore(pk, core) =>
      if ReferencesChannel(p.next, pk)
      then p.(core := Some(p.core.GetOr(self.channelCore)[pk := Backfilled(self.channelCore, pk, core)]))
      else p
    case SetChannelDetail(pk, detail) =>
      if ReferencesChannel(p.next, pk) then p.(detail := Some(p.detail.GetOr(self.channelDetail)[pk := detail])) else p
    case SetEpisode(pk, episode) => p.(episodes := Some(p.episodes.GetOr(self.episodes)[pk := episode]))
    case SetImage(pk, image) =>
      if Snapshot.ReferencesImage(p.next, pk) then p.(images := Some(p.images.GetOr(self.images)[pk := image])) else p
    case SetLoading(loading) => p.(next := p.next.(loading := loading))
    case SetPlayerState(player) => p.(next := p.next.(playerState := player))
    case SetSubscriptions(subs) => p.(next := p.next.(subscriptions := subs))
  }

  /** The working copy after the first `|actions|` iterations. */
  function Fold(self: State, actions: seq<StateAction>): Pending
    decreases |actions|
  {
    if |actions| == 0 then Start(self)
    else Step(self, Fold(self, actions[..|actions| - 1]), actions[|actions| - 1])
  }

  /** After the loop: every map that was written replaces `next`'s. */
  function Finish(p: Pending): State {
    p.next.(channelCore := p.core.GetOr(p.next.channelCore),
            channelDetail := p.detail.GetOr(p.next.channelDetail),
            episodes := p.episodes.GetOr(p.next.episodes),
            images := p.images.GetOr(p.next.images))
  }

  function ApplySpec(self: State, actions: seq<StateAction>): State {
    Finish(Fold(self, actions))
  }

  /** `State::apply`, step by step as the source runs it. */
  method Apply(self: State, actions: seq<StateAction>) returns (next: State)
    ensures next == ApplySpec(self, actions)
  {
    next := self;
    var nextCore: Option<CoreMap> := None;
    var nextDetail: Option<DetailMap> := None;
    var nextEpisodes: Option<EpisodeMap> := None;
    var nextImages: Option<ImageMap> := None;
    for i := 0 to |actions|
      invariant Pending(next, nextCore, nextDetail, nextEpisodes, nextImages) == Fold(self, actions[..i])
    {
      assert actions[..i + 1][..i] == actions[..i];
      match actions[i]
      case SetCountry(country) =>
        next := next.(country := country);
      case SetAllowExplicit(allow) =>
        next := next.(allowExplicit := allow);
      case SetSearchQuery(query) =>
        if next.searchQuery != query {
          next := next.(searchQuery := query, searchResults := Err(Loading));
        }
      case SetSearchFocus(focus) =>
        next := next.(searchFocus := focus);
      case SetSearchFeed(query, results) =>
        if next.searchQuery == query {
          next := next.(searchResults := ToRefs(results, self.current));
        }
      case SetHomeFocus(focus) =>
        next := next.(homeFocus := focus);
      case SetChannelCore(pk, core) =>
        if ReferencesChannel(next, pk) {
          var merged := core;
          if core.Ok? && pk in self.channelCore && self.channelCore[pk].Ok? {
            var filled := Backfill(core.value, self.channelCore[pk].value);
            merged := Ok(filled);
          }
          nextCore := Some(nextCore.GetOr(self.channelCore)[pk := merged]);
        }
      case SetChannelDetail(pk, detail) =>
        if ReferencesChannel(next, pk) {
          nextDetail := Some(nextDetail.GetOr(self.channelDetail)[pk := detail]);
        }
      case SetEpisode(pk, episode) =>
        nextEpisodes := Some(nextEpisodes.GetOr(self.episodes)[pk := episode]);
      case SetImage(pk, image) =>
        if Snapshot.ReferencesImage(next, pk) {
          nextImages := Some(nextImages.GetOr(self.images)[pk := image]);
        }
      case SetLoading(loading) =>
        next := next.(loading := loading);
      case SetPlayerState(player) =>
        next := next.(playerState := player);
      case SetSubscriptions(subs) =>
        next := next.(subscriptions := subs);
    }
    assert actions[..|actions|] == actions;
    if nextCore.Some? {
      next := next.(channelCore := nextCore.value);
    }
    if nextDetail.Some? {
      next := next.(channelDetail := nextDetail.value);
    }
    if nextEpisodes.Some? {
      next := next.(episodes := nextEpisodes.value);
    }
    if nextImages.Some? {
      next := next.(images := nextImages.value);
    }
  }

  // ---------------------------------------------------------------------------
  // Reference semantics: each command applied to a whole snapshot in turn.
  // ---------------------------------------------------------------------------

  /**
   * What one command does to snapshot `t`, inside a batch that started from
   * snapshot `pre`: it sets a scalar field, or writes one entry of one map.
   * Channel writes are gated on `t`; image writes and the core backfill on `pre`.
   */
  function Effect(pre: State, t: State, a: StateAction): State {
    ScalarEffect(pre, t, a).(
      channelCore := CoreEffect(pre, t, a),
      channelDetail := DetailEffect(t, a),
      episodes := EpisodeEffect(t, a),
      images := ImageEffect(pre, t, a))
  }

  /** The scalar fields after one command. */
  function ScalarEffect(pre: State, t: State, a: StateAction): State {
    match a
    case SetCountry(country) => t.(country := country)
    case SetAllowExplicit(allow) => t.(allowExplicit := allow)
    case SetSearchQuery(query) =>
      if t.searchQuery != query then t.(searchQuery := query, searchResults := Err(Loading)) else t
    case SetSearchFocus(focus) => t.(searchFocus := focus)
    case SetSearchFeed(query, results) =>
      if t.searchQuery == query then t.(searchResults := ToRefs(results, pre.current)) else t
    case SetHomeFocus(focus) => t.(homeFocus := focus)
    case SetLoading(loading) => t.(loading := loading)
    case SetPlayerState(player) => t.(playerState := player)
    case SetSubscriptions(subs) => t.(subscriptions := subs)
    case _ => t
  }

  /** The core map after one command. */
  function CoreEffect(pre: State, t: State, a: StateAction): CoreMap {
    match a
    case SetChannelCore(pk, core) =>
      if ReferencesChannel(t, pk) then t.channelCore[pk := Backfilled(pre.channelCore, pk, core)] else t.channelCore
    case _ => t.channelCore
  }

  /** The detail map after one command. */
  function DetailEffect(t: State, a: StateAction): DetailMap {
    match a
    case SetChannelDetail(pk, detail) =>
      if ReferencesChannel(t, pk) then t.channelDetail[pk := detail] else t.channelDetail
    case _ => t.channelDetail
  }

  /** The episode map after one command. */
  function EpisodeEffect(t: State, a: StateAction): EpisodeMap {
    match a
    case SetEpisode(pk, episode) => t.episodes[pk := episode]
    case _ => t.episodes
  }

  /** The image map after one command. */
  function ImageEffect(pre: State, t: State, a: StateAction): ImageMap {
    match a
    case SetImage(pk, image) =>
      if Snapshot.ReferencesImage(pre, pk) then t.images[pk := image] else t.images
    case _ => t.images
  }

  function Replay(pre: State, actions: seq<StateAction>): State
    decreases |actions|
  {
    if |actions| == 0 then pre
    else Effect(pre, Replay(pre, actions[..|actions| - 1]), actions[|actions| - 1])
  }

  /** The working copy never touches `next`'s maps or store link. */
  predicate MapsUntouched(self: State, p: Pending) {
    && p.next.current == self.current
    && p.next.channelCore == self.channelCore
    && p.next.channelDetail == self.channelDetail
    && p.next.episodes == self.episodes
    && p.next.images == self.images
  }

  predicate WritesScalar(a: StateAction) {
    !(a.SetChannelCore? || a.SetChannelDetail? || a.SetEpisode? || a.SetImage?)
  }

  lemma StepThenFinishScalar(self: State, p: Pending, a: StateAction)
    requires MapsUntouched(self, p) && WritesScalar(a) && !a.SetSearchQuery? && !a.SetSearchFeed?
    ensures MapsUntouched(self, Step(self, p, a))
    ensures Finish(Step(self, p, a)) == Effect(self, Finish(p), a)
  {
  }

  lemma StepThenFinishSearch(self: State, p: Pending, a: StateAction)
    requires MapsUntouched(self, p) && (a.SetSearchQuery? || a.SetSearchFeed?)
    ensures MapsUntouched(self, Step(self, p, a))
    ensures Finish(Step(self, p, a)) == Effect(self, Finish(p), a)
  {
  }

  lemma StepThenFinishCore(self: State, p: Pending, pk: string, core: Result<ChannelCore, StateError>)
    requires MapsUntouched(self, p)
    ensures MapsUntouched(self, Step(self, p, SetChannelCore(pk, core)))
    ensures Finish(Step(self, p, SetChannelCore(pk, core))) == Effect(self, Finish(p), SetChannelCore(pk, core))
  {
  }

  lemma StepThenFinishDetailOrEpisode(self: State, p: Pending, a: StateAction)
    requires MapsUntouched(self, p) && (a.SetChannelDetail? || a.SetEpisode?)
    ensures MapsUntouched(self, Step(self, p, a))
    ensures Finish(Step(self, p, a)) == Effect(self, Finish(p), a)
  {
  }

  lemma StepThenFinishImage(self: State, p: Pending, url: string, image: Result<Image, StateError>)
    requires MapsUntouched(self, p)
    ensures MapsUntouched(self, Step(self, p, SetImage(url, image)))
    ensures Finish(Step(self, p, SetImage(url, image))) == Effect(self, Finish(p), SetImage(url, image))
  {
  }

  /** One loop iteration, then the swap, is one command on the swapped snapshot. */
  lemma StepThenFinish(self: State, p: Pending, a: StateAction)
    requires MapsUntouched(self, p)
    ensures MapsUntouched(self, Step(self, p, a))
    ensures Finish(Step(self, p, a)) == Effect(self, Finish(p), a)
  {
    match a
    case SetChannelCore(pk, core) => StepThenFinishCore(self, p, pk, core);
    case SetChannelDetail(_, _) => StepThenFinishDetailOrEpisode(self, p, a);
    case SetEpisode(_, _) => StepThenFinishDetailOrEpisode(self, p, a);
    case SetImage(url, image) => StepThenFinishImage(self, p, url, image);
    case SetSearchQuery(_) => StepThenFinishSearch(self, p, a);
    case SetSearchFeed(_, _) => StepThenFinishSearch(self, p, a);
    case _ => StepThenFinishScalar(self, p, a);
  }

  lemma {:induction false} FoldFacts(self: State, actions: seq<StateAction>)
    ensures MapsUntouched(self, Fold(self, actions))
    ensures Finish(Fold(self, actions)) == Replay(self, actions)
    decreases |actions|
  {
    if |actions| > 0 {
      var init := actions[..|actions| - 1];
      FoldFacts(self, init);
      StepThenFinish(self, Fold(self, init), actions[|actions| - 1]);
    }
  }

  /** The deferred map swap and the lazy clones change nothing: `apply` is the
      commands replayed one by one on the whole snapshot. */
  lemma ApplyIsReplay(s: State, actions: seq<StateAction>)
    ensures ApplySpec(s, actions) == Replay(s, actions)
  {
    FoldFacts(s, actions);
  }

  /** Appending a command to a batch applies that command's effect to the
      batch's result, with `s` as the snapshot the batch started from. */
  lemma ApplySnoc(s: State, actions: seq<StateAction>, a: StateAction)
    ensures ApplySpec(s, actions + [a]) == Effect(s, ApplySpec(s, actions), a)
  {
    ApplyIsReplay(s, actions + [a]);
    ApplyIsReplay(s, actions);
    assert (actions + [a])[..|actions|] == actions;
  }

  /** A batch never re-attaches the snapshot: handles it creates point at the same store. */
  lemma ApplyKeepsStoreLink(s: State, actions: seq<StateAction>)
    ensures ApplySpec(s, actions).current == s.current
  {
    FoldFacts(s, actions);
  }

  lemma ApplyEmpty(s: State)
    ensures ApplySpec(s, []) == s
  {
  }

  // ---------------------------------------------------------------------------
  // Properties of single commands within a batch.
  // ---------------------------------------------------------------------------

  /** A new search query resets the results to Loading; the same query changes nothing. */
  lemma SearchQueryResetsResults(s: State, actions: seq<StateAction>, query: string)
    ensures var t := ApplySpec(s, actions);
      ApplySpec(s, actions + [SetSearchQuery(query)])
        == if query != t.searchQuery then t.(searchQuery := query, searchResults := Err(Loading)) else t
  {
    ApplySnoc(s, actions, SetSearchQuery(query));
  }

  /** A search feed is stored only under the query current at that point of the
      batch; its keys keep their order and an error is stored as it is. */
  lemma SearchFeedNeedsCurrentQuery(s: State, actions: seq<StateAction>, query: string, results: Result<seq<string>, StateError>)
    ensures var t := ApplySpec(s, actions);
      var r := ApplySpec(s, actions + [SetSearchFeed(query, results)]);
      && (query != t.searchQuery ==> r == t)
      && (query == t.searchQuery ==> r == t.(searchResults := ToRefs(results, s.current)))
      && (query == t.searchQuery && results.Err? ==> r.searchResults == Err(results.error))
      && (query == t.searchQuery && results.Ok? ==>
            r.searchResults.Ok? && |r.searchResults.value| == |results.value|
            && forall i :: 0 <= i < |results.value| ==> r.searchResults.value[i].pk == results.value[i])
  {
    ApplySnoc(s, actions, SetSearchFeed(query, results));
  }

  /** A channel core is stored exactly when its key is referenced by the
      snapshot the earlier commands of the batch produce; an Ok core is
      backfilled from the Ok core stored before the batch. */
  lemma ChannelCoreKeptIffReferenced(s: State, actions: seq<StateAction>, pk: string, core: Result<ChannelCore, StateError>)
    ensures var t := ApplySpec(s, actions);
      var r := ApplySpec(s, actions + [SetChannelCore(pk, core)]);
      && (!ReferencesChannel(t, pk) ==> r == t)
      && (ReferencesChannel(t, pk) ==> r == t.(channelCore := t.channelCore[pk := Backfilled(s.channelCore, pk, core)]))
      && (ReferencesChannel(t, pk) && core.Err? ==> r.channelCore[pk] == core)
  {
    ApplySnoc(s, actions, SetChannelCore(pk, core));
  }

  /** A channel detail is stored exactly when its key is referenced at that point of the batch. */
  lemma ChannelDetailKeptIffReferenced(s: State, actions: seq<StateAction>, pk: string, detail: Result<ChannelDetail, StateError>)
    ensures var t := ApplySpec(s, actions);
      ApplySpec(s, actions + [SetChannelDetail(pk, detail)])
        == if ReferencesChannel(t, pk) then t.(channelDetail := t.channelDetail[pk := detail]) else t
  {
    ApplySnoc(s, actions, SetChannelDetail(pk, detail));
  }

  /** Episodes are stored whatever references them. */
  lemma EpisodeAlwaysStored(s: State, actions: seq<StateAction>, pk: string, episode: Result<Episode, StateError>)
    ensures var t := ApplySpec(s, actions);
      ApplySpec(s, actions + [SetEpisode(pk, episode)]) == t.(episodes := t.episodes[pk := episode])
  {
    ApplySnoc(s, actions, SetEpisode(pk, episode));
  }

  /** An image is stored exactly when a core or episode stored BEFORE the
      batch references its URL; cores and episodes of the same batch do not count. */
  lemma ImageKeptIffReferencedBeforeBatch(s: State, actions: seq<StateAction>, url: string, image: Result<Image, StateError>)
    ensures var t := ApplySpec(s, actions);
      ApplySpec(s, actions + [SetImage(url, image)])
        == if Snapshot.ReferencesImage(s, url) then t.(images := t.images[url := image]) else t
  {
    ApplySnoc(s, actions, SetImage(url, image));
  }

  /** Core backfill is monotonic: a referenced Ok core that omits an artwork or
      feed URL keeps the one of the Ok core stored before the batch. */
  lemma BackfillKeepsOlderFields(s: State, actions: seq<StateAction>, pk: string, newer: ChannelCore)
    requires pk in s.channelCore && s.channelCore[pk].Ok?
    requires ReferencesChannel(ApplySpec(s, actions), pk)
    ensures var older := s.channelCore[pk].value;
      var r := ApplySpec(s, actions + [SetChannelCore(pk, Ok(newer))]);
      && pk in r.channelCore && r.channelCore[pk].Ok?
      && r.channelCore[pk].value == Update(newer, older)
      && (newer.image200.None? ==> r.channelCore[pk].value.image200 == older.image200)
      && (newer.image600.None? ==> r.channelCore[pk].value.image600 == older.image600)
      && (newer.imageRss.None? ==> r.channelCore[pk].value.imageRss == older.imageRss)
      && (newer.rss.None? ==> r.channelCore[pk].value.rss == older.rss)
  {
    ChannelCoreKeptIffReferenced(s, actions, pk, Ok(newer));
  }

  // ---------------------------------------------------------------------------
  // Properties of whole batches.
  // ---------------------------------------------------------------------------

  /** Every key of `m` is a key of `m'`. */
  predicate KeysKept<V>(m: map<string, V>, m': map<string, V>) {
    forall k :: k in m ==> k in m'
  }

  /** One command keeps every key of every map. */
  lemma EffectKeepsKeys(pre: State, t: State, a: StateAction)
    ensures var r := Effect(pre, t, a);
      KeysKept(t.channelCore, r.channelCore) && KeysKept(t.channelDetail, r.channelDetail)
      && KeysKept(t.episodes, r.episodes) && KeysKept(t.images, r.images)
  {
  }

  /** One command leaves alone every map it does not write. */
  lemma EffectFrame(pre: State, t: State, a: StateAction)
    ensures !WritesCore(a) ==> Effect(pre, t, a).channelCore == t.channelCore
    ensures !WritesDetail(a) ==> Effect(pre, t, a).channelDetail == t.channelDetail
    ensures !WritesEpisode(a) ==> Effect(pre, t, a).episodes == t.episodes
    ensures !WritesImage(a) ==> Effect(pre, t, a).images == t.images
  {
  }

  /** One command that does not move references keeps an unreferenced channel unreferenced and its entries unchanged. */
  lemma EffectUnreferenced(pre: State, t: State, a: StateAction, pk: string)
    requires !ReferencesChannel(t, pk) && !ChangesReferences(a)
    ensures var r := Effect(pre, t, a);
      && (pk in r.channelCore <==> pk in t.channelCore)
      && (pk in t.channelCore ==> r.channelCore[pk] == t.channelCore[pk])
      && (pk in r.channelDetail <==> pk in t.channelDetail)
      && (pk in t.channelDetail ==> r.channelDetail[pk] == t.channelDetail[pk])
      && !ReferencesChannel(r, pk)
  {
    var r := Effect(pre, t, a);
    assert r.searchFocus == t.searchFocus && r.homeFocus == t.homeFocus;
    assert r.searchResults == t.searchResults && r.playerState == t.playerState;
  }

  /** `apply` only inserts or overwrites entries; it never removes one. */
  lemma {:induction false} ApplyNeverRemoves(s: State, actions: seq<StateAction>)
    ensures var r := ApplySpec(s, actions);
      KeysKept(s.channelCore, r.channelCore) && KeysKept(s.channelDetail, r.channelDetail)
      && KeysKept(s.episodes, r.episodes) && KeysKept(s.images, r.images)
    decreases |actions|
  {
    if |actions| > 0 {
      var init := actions[..|actions| - 1];
      ApplyNeverRemoves(s, init);
      ApplySnoc(s, init, actions[|actions| - 1]);
      EffectKeepsKeys(s, ApplySpec(s, init), actions[|actions| - 1]);
      assert init + [actions[|actions| - 1]] == actions;
    }
  }

  predicate WritesCore(a: StateAction) { a.SetChannelCore? }
  predicate WritesDetail(a: StateAction) { a.SetChannelDetail? }
  predicate WritesEpisode(a: StateAction) { a.SetEpisode? }
  predicate WritesImage(a: StateAction) { a.SetImage? }

  /** A map that no command of the batch writes is the same map afterwards. */
  lemma {:induction false} UntouchedMapsShared(s: State, actions: seq<StateAction>)
    ensures (forall i :: 0 <= i < |actions| ==> !WritesCore(actions[i])) ==> ApplySpec(s, actions).channelCore == s.channelCore
    ensures (forall i :: 0 <= i < |actions| ==> !WritesDetail(actions[i])) ==> ApplySpec(s, actions).channelDetail == s.channelDetail
    ensures (forall i :: 0 <= i < |actions| ==> !WritesEpisode(actions[i])) ==> ApplySpec(s, actions).episodes == s.episodes
    ensures (forall i :: 0 <= i < |actions| ==> !WritesImage(actions[i])) ==> ApplySpec(s, actions).images == s.images
    decreases |actions|
  {
    if |actions| > 0 {
      var init := actions[..|actions| - 1];
      UntouchedMapsShared(s, init);
      ApplySnoc(s, init, actions[|actions| - 1]);
      EffectFrame(s, ApplySpec(s, init), actions[|actions| - 1]);
      assert init + [actions[|actions| - 1]] == actions;
    }
  }

  /** Commands that can change which channels are referenced. */
  predicate ChangesReferences(a: StateAction) {
    a.SetSearchQuery? || a.SetSearchFocus? || a.SetSearchFeed? || a.SetHomeFocus? || a.SetPlayerState?
  }

  /** Reference retention: in a batch that does not move the focus, the search
      results or the player, writes for a channel the snapshot does not
      reference leave its core and detail entries as they were. */
  lemma {:induction false} UnreferencedChannelUnchanged(s: State, actions: seq<StateAction>, pk: string)
    requires !ReferencesChannel(s, pk)
    requires forall i :: 0 <= i < |actions| ==> !ChangesReferences(actions[i])
    ensures var r := ApplySpec(s, actions);
      && (pk in r.channelCore <==> pk in s.channelCore)
      && (pk in s.channelCore ==> r.channelCore[pk] == s.channelCore[pk])
      && (pk in r.channelDetail <==> pk in s.channelDetail)
      && (pk in s.channelDetail ==> r.channelDetail[pk] == s.channelDetail[pk])
      && !ReferencesChannel(r, pk)
    decreases |actions|
  {
    if |actions| > 0 {
      var init := actions[..|actions| - 1];
      UnreferencedChannelUnchanged(s, init, pk);
      ApplySnoc(s, init, actions[|actions| - 1]);
      EffectUnreferenced(s, ApplySpec(s, init), actions[|actions| - 1], pk);
      assert init + [actions[|actions| - 1]] == actions;
    }
  }

  /** The keys a search feed lists are all referenced once it is stored. */
  lemma FeedReferencesListed(t: State, pks: seq<string>, pk: string)
    requires t.searchResults.Ok? && |t.searchResults.value| == |pks|
    requires forall i :: 0 <= i < |pks| ==> t.searchResults.value[i].pk == pks[i]
    requires pk in pks
    ensures ReferencesChannel(t, pk)
  {
    var j :| 0 <= j < |pks| && pks[j] == pk;
    assert t.searchResults.value[j].pk == pk;
  }

  /**
   * A translator batch -- a feed for the current query, then one core per
   * listed key -- stores the feed and an Ok core under every listed key.
   */
  lemma {:induction false} FeedBatchStoresListedCores(s: State, query: string, pks: seq<string>, cores: seq<ChannelCore>)
    requires s.searchQuery == query
    requires forall i :: 0 <= i < |cores| ==> cores[i].pk in pks
    ensures var r := ApplySpec(s, [SetSearchFeed(query, Ok(pks))] + CoreWrites(cores));
      && r.searchQuery == query
      && r.searchResults == ToRefs(Ok(pks), s.current)
      && forall i :: 0 <= i < |cores| ==> cores[i].pk in r.channelCore && r.channelCore[cores[i].pk].Ok?
    decreases |cores|
  {
    var feed := SetSearchFeed(query, Ok(pks));
    if |cores| == 0 {
      SearchFeedNeedsCurrentQuery(s, [], query, Ok(pks));
      assert [feed] + CoreWrites(cores) == [] + [feed];
    } else {
      var init := cores[..|cores| - 1];
      var last := cores[|cores| - 1];
      FeedBatchStoresListedCores(s, query, pks, init);
      var acts := [feed] + CoreWrites(init);
      assert [feed] + CoreWrites(cores) == acts + [BuildCore(last)];
      var t := ApplySpec(s, acts);
      FeedReferencesListed(t, pks, last.pk);
      ChannelCoreKeptIffReferenced(s, acts, last.pk, Ok(last));
      forall i | 0 <= i < |cores|
        ensures cores[i].pk in ApplySpec(s, acts + [BuildCore(last)]).channelCore
        ensures ApplySpec(s, acts + [BuildCore(last)]).channelCore[cores[i].pk].Ok?
      {
        if i < |cores| - 1 {
          assert cores[i] == init[i];
        }
      }
    }
  }

  /** A translator batch for a query that is no longer current changes neither
      the query nor the search results. */
  lemma {:induction false} StaleFeedBatchKeepsResults(s: State, query: string, pks: seq<string>, cores: seq<ChannelCore>)
    requires s.searchQuery != query
    ensures var r := ApplySpec(s, [SetSearchFeed(query, Ok(pks))] + CoreWrites(cores));
      r.searchQuery == s.searchQuery && r.searchResults == s.searchResults
    decreases |cores|
  {
    var feed := SetSearchFeed(query, Ok(pks));
    if |cores| == 0 {
      SearchFeedNeedsCurrentQuery(s, [], query, Ok(pks));
      assert [feed] + CoreWrites(cores) == [] + [feed];
    } else {
      var init := cores[..|cores| - 1];
      var last := cores[|cores| - 1];
      StaleFeedBatchKeepsResults(s, query, pks, init);
      var acts := [feed] + CoreWrites(init);
      assert [feed] + CoreWrites(cores) == acts + [BuildCore(last)];
      ChannelCoreKeptIffReferenced(s, acts, last.pk, Ok(last));
    }
  }

  /** Appending episode writes to a batch stores every one of them and changes
      nothing but the episode map, which only gains or overwrites entries. */
  lemma {:induction false} EpisodeWritesStoreEach(s: State, actions: seq<StateAction>, eps: seq<Episode>)
    ensures var t := ApplySpec(s, actions);
      var r := ApplySpec(s, actions + EpisodeWrites(eps));
      && r.(episodes := t.episodes) == t
      && KeysKept(t.episodes, r.episodes)
      && forall i :: 0 <= i < |eps| ==> eps[i].pk in r.episodes && r.episodes[eps[i].pk].Ok?
    decreases |eps|
  {
    if |eps| == 0 {
      assert actions + EpisodeWrites(eps) == actions;
    } else {
      var init := eps[..|eps| - 1];
      var last := eps[|eps| - 1];
      EpisodeWritesStoreEach(s, actions, init);
      var acts := actions + EpisodeWrites(init);
      assert actions + EpisodeWrites(eps) == acts + [BuildEpisode(last)];
      EpisodeAlwaysStored(s, acts, last.pk, Ok(last));
      forall i | 0 <= i < |eps|
        ensures eps[i].pk in ApplySpec(s, acts + [BuildEpisode(last)]).episodes
        ensures ApplySpec(s, acts + [BuildEpisode(last)]).episodes[eps[i].pk].Ok?
      {
        if i < |eps| - 1 {
          assert eps[i] == init[i];
        }
      }
    }
  }

  // ---------------------------------------------------------------------------
  // Scenarios.
  // ---------------------------------------------------------------------------

  /** Stale search discard: after the query moves from "A" to "B", a feed for
      "A" leaves the results Loading, in one batch or in three. */
  lemma StaleSearchFeedDiscarded(s: State, results: Result<seq<string>, StateError>)
    ensures ApplySpec(s, [SetSearchQuery("A"), SetSearchQuery("B"), SetSearchFeed("A", results)]).searchResults == Err(Loading)
  {
    var a, b, f := SetSearchQuery("A"), SetSearchQuery("B"), SetSearchFeed("A", results);
    assert [] + [a] == [a] && [a] + [b] == [a, b] && [a, b] + [f] == [a, b, f];
    ApplyEmpty(s);
    SearchQueryResetsResults(s, [], "A");
    SearchQueryResetsResults(s, [a], "B");
    var t := ApplySpec(s, [a, b]);
    assert t.searchQuery == "B" && t.searchResults == Err(Loading);
    SearchFeedNeedsCurrentQuery(s, [a, b], "A", results);
  }

  /** The same race spread over three batches. */
  lemma StaleSearchFeedDiscardedAcrossBatches(s: State, results: Result<seq<string>, StateError>)
    ensures ApplySpec(ApplySpec(ApplySpec(s, [SetSearchQuery("A")]), [SetSearchQuery("B")]), [SetSearchFeed("A", results)]).searchResults == Err(Loading)
  {
    var a, b, f := SetSearchQuery("A"), SetSearchQuery("B"), SetSearchFeed("A", results);
    assert [] + [a] == [a] && [] + [b] == [b] && [] + [f] == [f];
    ApplyEmpty(s);
    SearchQueryResetsResults(s, [], "A");
    var s1 := ApplySpec(s, [a]);
    ApplyEmpty(s1);
    SearchQueryResetsResults(s1, [], "B");
    var s2 := ApplySpec(s1, [b]);
    assert s2.searchQuery == "B" && s2.searchResults == Err(Loading);
    ApplyEmpty(s2);
    SearchFeedNeedsCurrentQuery(s2, [], "A", results);
  }

  /** Image retention reads the maps as they were before the batch: artwork of
      a core stored in the same batch is dropped, and kept once that core is
      stored by an earlier batch. */
  lemma ImageCheckSeesPreBatchMaps(focus: ChannelRef, core: ChannelCore, image: Result<Image, StateError>)
    requires core.pk == focus.pk && core.image200 == Some("u")
    ensures var s := New().(searchFocus := Some(focus));
      && "u" !in ApplySpec(s, [BuildCore(core), SetImage("u", image)]).images
      && "u" in ApplySpec(ApplySpec(s, [BuildCore(core)]), [SetImage("u", image)]).images
  {
    var s := New().(searchFocus := Some(focus));
    var a, b := BuildCore(core), SetImage("u", image);
    assert [a] + [b] == [a, b];
    assert !Snapshot.ReferencesImage(s, "u");
    ImageKeptIffReferencedBeforeBatch(s, [a], "u", image);
    var s1 := ApplySpec(s, [a]);
    assert s1 == s.(channelCore := map[core.pk := Ok(core)]) by {
      ChannelCoreKeptIffReferenced(s, [], core.pk, Ok(core));
      ApplyEmpty(s);
      assert [] + [a] == [a];
    }
    assert Snapshot.ReferencesImage(s1, "u");
    ImageKeptIffReferencedBeforeBatch(s1, [], "u", image);
    ApplyEmpty(s1);
    assert [] + [b] == [b];
  }
}
