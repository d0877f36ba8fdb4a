/** One episode of a channel, as read from its feed. */
module Episodes {
  import opened Wrappers
  import opened Refs

  datatype Episode = Episode(
    store: StoreHandle,
    pk: string,
    /** Key of the channel the episode belongs to. */
    channel: string,
    title: string,
    url: string,
    date: string,
    description: string,
    duration: string,
    image: Option<string>,
    audio: string)

  /** `Episode::default()`. */
  function Default(): Episode {
    Episode(Detached, "", "", "", "", "", "", "", None, "")
  }

  function WithPk(e: Episode, pk: string): Episode { e.(pk := pk) }
  /** `with_channel`: called by the loader but not defined in state/src/episode.rs; taken to set the channel key. */
  function WithChannel(e: Episode, channel: string): Episode { e.(channel := channel) }
  function WithTitle(e: Episode, title: string): Episode { e.(title := title) }
  function WithUrl(e: Episode, url: string): Episode { e.(url := url) }
  function WithDate(e: Episode, date: string): Episode { e.(date := date) }
  function WithDescription(e: Episode, description: string): Episode { e.(description := description) }
  function WithDuration(e: Episode, duration: string): Episode { e.(duration := duration) }
  function WithAudio(e: Episode, audio: string): Episode { e.(audio := audio) }
  function WithImage(e: Episode, image: string): Episode { e.(image := Some(image)) }
  function WithCurrent(e: Episode, store: StoreHandle): Episode { e.(store := store) }

  /** Each builder sets its own field and leaves every other field as it was. */
  lemma BuildersChangeOneField(e: Episode, s: string, h: StoreHandle)
    ensures WithPk(e, s).pk == s && WithPk(e, s).(pk := e.pk) == e
    ensures WithChannel(e, s).channel == s && WithChannel(e, s).(channel := e.channel) == e
    ensures WithTitle(e, s).title == s && WithTitle(e, s).(title := e.title) == e
    ensures WithUrl(e, s).url == s && WithUrl(e, s).(url := e.url) == e
    ensures WithDate(e, s).date == s && WithDate(e, s).(date := e.date) == e
    ensures WithDescription(e, s).description == s && WithDescription(e, s).(description := e.description) == e
    ensures WithDuration(e, s).duration == s && WithDuration(e, s).(duration := e.duration) == e
    ensures WithAudio(e, s).audio == s && WithAudio(e, s).(audio := e.audio) == e
    ensures WithImage(e, s).image == Some(s) && WithImage(e, s).(image := e.image) == e
    ensures WithCurrent(e, h).store == h && WithCurrent(e, h).(store := e.store) == e
  {
  }

  /** `references_image`: the episode's own artwork is `url`. */
  predicate ReferencesImage(e: Episode, url: string) {
    e.image == Some(url)
  }

  /**
   * `channel()` as written: the handle is built from the episode's OWN key,
   * not from its `channel` field.
   */
  function Channel(e: Episode): (r: ChannelRef)
    ensures r.store == e.store
  {
    ChannelRef(e.store, e.pk)
  }

  /** `channel()` as evidently intended: a handle on the owning channel. */
  function OwningChannel(e: Episode): (r: ChannelRef)
    ensures r.store == e.store
  {
    ChannelRef(e.store, e.channel)
  }

  /** The as-written handle names the episode, so it names the owning channel
      only when the two keys happen to coincide. */
  lemma ChannelUsesEpisodeKey(e: Episode)
    ensures Channel(e).pk == e.pk
    ensures SameChannel(Channel(e), OwningChannel(e)) <==> e.pk == e.channel
  {
  }

  /** The intended handle follows the `channel` field and ignores the episode key. */
  lemma OwningChannelFollowsChannelField(e: Episode, pk: string, channel: string)
    ensures OwningChannel(WithPk(WithChannel(e, channel), pk)).pk == channel
  {
  }
}
