/**
 * The immutable snapshot of everything the interface renders, and the
 * commands that change it.
 */
module Snapshot {
  import opened Wrappers
  import opened StateErrors
  import opened Images
  import opened Refs
  import opened ChannelCores
  import opened Episodes
  import opened ChannelDetails

  /** The two fields of the player's status that the store consults. */
  datatype PlayerState = PlayerState(episodePk: string, channelPk: string)

  type CoreMap = map<string, Result<ChannelCore, StateError>>
  type DetailMap = map<string, Result<ChannelDetail, StateError>>
  type EpisodeMap = map<string, Result<Episode, StateError>>
  type ImageMap = map<string, Result<Image, StateError>>

  datatype StateAction =
    | SetCountry(country: string)
    | SetAllowExplicit(allowExplicit: bool)
    | SetSearchQuery(query: string)
    | SetSearchFocus(searchFocus: Option<ChannelRef>)
    | SetSearchFeed(feedQuery: string, results: Result<seq<string>, StateError>)
    | SetHomeFocus(homeFocus: Option<ChannelRef>)
    | SetChannelCore(corePk: string, core: Result<ChannelCore, StateError>)
    | SetChannelDetail(detailPk: string, detail: Result<ChannelDetail, StateError>)
    | SetEpisode(episodePk: string, episode: Result<Episode, StateError>)
    | SetImage(imagePk: string, image: Result<Image, StateError>)
    | SetLoading(loading: bool)
    | SetPlayerState(playerState: Option<PlayerState>)
    | SetSubscriptions(subscriptions: Result<seq<ChannelRef>, StateError>)

  datatype State = State(
    current: StoreHandle,
    country: string,
    allowExplicit: bool,
    searchQuery: string,
    searchFocus: Option<ChannelRef>,
    homeFocus: Option<ChannelRef>,
    searchResults: Result<seq<ChannelRef>, StateError>,
    channelCore: CoreMap,
    channelDetail: DetailMap,
    episodes: EpisodeMap,
    images: ImageMap,
    playerState: Option<PlayerState>,
    subscriptions: Result<seq<ChannelRef>, StateError>,
    loading: bool)

  /** `State::new`: the snapshot before anything is known. */
  function New(): (s: State)
    ensures s.current.Detached?
    ensures s.country == "CA" && !s.allowExplicit && s.loading
    ensures s.searchQuery == "" && s.searchFocus.None? && s.homeFocus.None? && s.playerState.None?
    ensures s.searchResults == Err(Loading) && s.subscriptions == Err(Loading)
    ensures s.channelCore == map[] && s.channelDetail == map[] && s.episodes == map[] && s.images == map[]
  {
    State(Detached, "CA", false, "", None, None, Err(Loading), map[], map[], map[], map[], None, Err(Loading), true)
  }

  /** `with_current`: the same snapshot, attached to a store. */
  function WithCurrent(s: State, current: StoreHandle): (r: State)
    ensures r.current == current && r.(current := s.current) == s
  {
    s.(current := current)
  }

  /** `channel_ref`: a handle on `pk` attached to this snapshot's store. */
  function ChannelRefOf(s: State, pk: string): (r: ChannelRef)
    ensures r.pk == pk && r.store == s.current
  {
    ChannelRef(s.current, pk)
  }

  function NewChannelCore(s: State): ChannelCore { ChannelCores.WithCurrent(ChannelCores.Default(), s.current) }
  function NewChannelDetail(s: State): ChannelDetail { ChannelDetails.WithCurrent(ChannelDetails.Default(), s.current) }
  function NewEpisode(s: State): Episode { Episodes.WithCurrent(Episodes.Default(), s.current) }

  /** `ChannelCore::build`: a write of the core under its own key. */
  function BuildCore(c: ChannelCore): (a: StateAction)
    ensures a.SetChannelCore? && a.corePk == c.pk && a.core == Ok(c)
  {
    SetChannelCore(c.pk, Ok(c))
  }

  /** `ChannelDetail::build`: a write of the detail under its own key. */
  function BuildDetail(d: ChannelDetail): (a: StateAction)
    ensures a.SetChannelDetail? && a.detailPk == d.pk && a.detail == Ok(d)
  {
    SetChannelDetail(d.pk, Ok(d))
  }

  /** `Episode::build`: a write of the episode under its own key. */
  function BuildEpisode(e: Episode): (a: StateAction)
    ensures a.SetEpisode? && a.episodePk == e.pk && a.episode == Ok(e)
  {
    SetEpisode(e.pk, Ok(e))
  }

  /** One `build` per core, in order: the write list the loader's translators emit. */
  function CoreWrites(cores: seq<ChannelCore>): (r: seq<StateAction>)
    ensures |r| == |cores|
    ensures forall i :: 0 <= i < |cores| ==> r[i].SetChannelCore? && r[i].corePk == cores[i].pk && r[i].core == Ok(cores[i])
  {
    seq(|cores|, i requires 0 <= i < |cores| => BuildCore(cores[i]))
  }

  /** One `build` per episode, in order. */
  function EpisodeWrites(eps: seq<Episode>): (r: seq<StateAction>)
    ensures |r| == |eps|
    ensures forall i :: 0 <= i < |eps| ==> r[i].SetEpisode? && r[i].episodePk == eps[i].pk && r[i].episode == Ok(eps[i])
  {
    seq(|eps|, i requires 0 <= i < |eps| => BuildEpisode(eps[i]))
  }

  /** Some handle in the successful search results has key `pk`. */
  predicate InSearchResults(s: State, pk: string) {
    s.searchResults.Ok? && exists i :: 0 <= i < |s.searchResults.value| && s.searchResults.value[i].pk == pk
  }

  /**
   * `references_channel`: the channel is the search focus, the home focus,
   * one of the search results, or the channel of the player.
   */
  predicate ReferencesChannel(s: State, pk: string) {
    || (s.searchFocus.Some? && s.searchFocus.value.pk == pk)
    || (s.homeFocus.Some? && s.homeFocus.value.pk == pk)
    || InSearchResults(s, pk)
    || (s.playerState.Some? && s.playerState.value.channelPk == pk)
  }

  /** `references_image`: some stored core or episode names `url` as its artwork. */
  predicate ReferencesImage(s: State, url: string) {
    || (exists k :: k in s.channelCore && s.channelCore[k].Ok? && ChannelCores.ReferencesImage(s.channelCore[k].value, url))
    || (exists k :: k in s.episodes && s.episodes[k].Ok? && Episodes.ReferencesImage(s.episodes[k].value, url))
  }

  /** `playing_episode`: the stored entry of the episode the player names. */
  function PlayingEpisode(s: State): (r: Option<Result<Episode, StateError>>)
    ensures r.Some? <==> s.playerState.Some? && s.playerState.value.episodePk in s.episodes
    ensures r.Some? ==> r.value == s.episodes[s.playerState.value.episodePk]
  {
    if s.playerState.Some? && s.playerState.value.episodePk in s.episodes
    then Some(s.episodes[s.playerState.value.episodePk])
    else None
  }

  /** The fresh snapshot references no channel and no image. */
  lemma NewReferencesNothing(pk: string, url: string)
    ensures !ReferencesChannel(New(), pk)
    ensures !ReferencesImage(New(), url)
    ensures PlayingEpisode(New()).None?
  {
  }
}
