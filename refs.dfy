/**
 * Handles that carry an entity key and a weak link to the store. The store
 * link is modelled as a `StoreHandle`; resolving a handle is done by the
 * lookups module against an explicit snapshot.
 */
module Refs {

  /** A `Weak<CurrentState>`: detached (`Weak::new()`) or attached to store `id`. */
  datatype StoreHandle = Detached | Attached(id: nat)

  datatype ChannelRef = ChannelRef(store: StoreHandle, pk: string)

  datatype EpisodeRef = EpisodeRef(store: StoreHandle, pk: string)

  /** `impl PartialEq for ChannelRef`: equal keys, whatever the store link. */
  predicate SameChannel(a: ChannelRef, b: ChannelRef) {
    a.pk == b.pk
  }

  /** `impl PartialEq for EpisodeRef`: equal keys, whatever the store link. */
  predicate SameEpisode(a: EpisodeRef, b: EpisodeRef) {
    a.pk == b.pk
  }

  /** Two channel handles on different stores are equal when their keys are. */
  lemma SameChannelIgnoresStore(h1: StoreHandle, h2: StoreHandle, pk1: string, pk2: string)
    ensures SameChannel(ChannelRef(h1, pk1), ChannelRef(h2, pk2)) <==> pk1 == pk2
  {
  }

  /** Two episode handles on different stores are equal when their keys are. */
  lemma SameEpisodeIgnoresStore(h1: StoreHandle, h2: StoreHandle, pk1: string, pk2: string)
    ensures SameEpisode(EpisodeRef(h1, pk1), EpisodeRef(h2, pk2)) <==> pk1 == pk2
  {
  }

  lemma SameChannelIsEquivalence(a: ChannelRef, b: ChannelRef, c: ChannelRef)
    ensures SameChannel(a, a)
    ensures SameChannel(a, b) ==> SameChannel(b, a)
    ensures SameChannel(a, b) && SameChannel(b, c) ==> SameChannel(a, c)
  {
  }

  lemma SameEpisodeIsEquivalence(a: EpisodeRef, b: EpisodeRef, c: EpisodeRef)
    ensures SameEpisode(a, a)
    ensures SameEpisode(a, b) ==> SameEpisode(b, a)
    ensures SameEpisode(a, b) && SameEpisode(b, c) ==> SameEpisode(a, c)
  {
  }
}
