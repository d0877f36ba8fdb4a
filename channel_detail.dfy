/** The detail page of a channel: description, link and the keys of its episodes. */
module ChannelDetails {
  import opened Wrappers
  import opened Refs
  import Episodes

  datatype ChannelDetail = ChannelDetail(
    store: StoreHandle,
    pk: string,
    description: string,
    /** Set by `with_link`, which the loader calls but state/src/channel_detail.rs does not define. */
    link: string,
    episodes: seq<EpisodeRef>)

  /** `ChannelDetail::default()`. */
  function Default(): ChannelDetail {
    ChannelDetail(Detached, "", "", "", [])
  }

  function WithPk(d: ChannelDetail, pk: string): ChannelDetail { d.(pk := pk) }
  function WithDescription(d: ChannelDetail, description: string): ChannelDetail { d.(description := description) }
  function WithLink(d: ChannelDetail, link: string): ChannelDetail { d.(link := link) }
  function WithCurrent(d: ChannelDetail, store: StoreHandle): ChannelDetail { d.(store := store) }

  /** The keys of a list of episodes, in order. */
  function EpisodeKeys(eps: seq<Episodes.Episode>): (keys: seq<string>)
    ensures |keys| == |eps|
    ensures forall i :: 0 <= i < |eps| ==> keys[i] == eps[i].pk
  {
    seq(|eps|, i requires 0 <= i < |eps| => eps[i].pk)
  }

  /** The keys held by a list of episode handles, in order. */
  function RefKeys(refs: seq<EpisodeRef>): (keys: seq<string>)
    ensures |keys| == |refs|
    ensures forall i :: 0 <= i < |refs| ==> keys[i] == refs[i].pk
  {
    seq(|refs|, i requires 0 <= i < |refs| => refs[i].pk)
  }

  /**
   * `with_episodes`: one handle per episode, on the detail's own store,
   * keyed by the episode's key, in order.
   */
  function WithEpisodes(d: ChannelDetail, eps: seq<Episodes.Episode>): (r: ChannelDetail)
    ensures r.(episodes := d.episodes) == d
    ensures RefKeys(r.episodes) == EpisodeKeys(eps)
    ensures forall i :: 0 <= i < |r.episodes| ==> r.episodes[i].store == d.store
  {
    d.(episodes := seq(|eps|, i requires 0 <= i < |eps| => EpisodeRef(d.store, eps[i].pk)))
  }

  /**
   * The form of `with_episodes` the loader calls with the episode keys
   * themselves; state/src/channel_detail.rs defines only the form taking episodes.
   */
  function WithEpisodeKeys(d: ChannelDetail, keys: seq<string>): (r: ChannelDetail)
    ensures r.(episodes := d.episodes) == d
    ensures RefKeys(r.episodes) == keys
  {
    d.(episodes := seq(|keys|, i requires 0 <= i < |keys| => EpisodeRef(d.store, keys[i])))
  }

  /** Both forms agree: listing episodes is listing their keys. */
  lemma WithEpisodesIsWithKeys(d: ChannelDetail, eps: seq<Episodes.Episode>)
    ensures WithEpisodes(d, eps) == WithEpisodeKeys(d, EpisodeKeys(eps))
  {
  }

  /** `episodes()` returns exactly the list the last `with_episodes` set. */
  lemma EpisodesAfterWithEpisodes(d: ChannelDetail, first: seq<Episodes.Episode>, eps: seq<Episodes.Episode>)
    ensures WithEpisodes(WithEpisodes(d, first), eps).episodes == WithEpisodes(d, eps).episodes
  {
  }

  /** Each builder sets its own field and leaves every other field as it was. */
  lemma BuildersChangeOneField(d: ChannelDetail, s: string, h: StoreHandle)
    ensures WithPk(d, s).pk == s && WithPk(d, s).(pk := d.pk) == d
    ensures WithDescription(d, s).description == s && WithDescription(d, s).(description := d.description) == d
    ensures WithLink(d, s).link == s && WithLink(d, s).(link := d.link) == d
    ensures WithCurrent(d, h).store == h && WithCurrent(d, h).(store := d.store) == d
  {
  }
}
