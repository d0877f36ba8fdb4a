/**
 * The subscription list kept by the database thread: an ordered list of
 * channel keys without repeats, published to the store after every change,
 * with a lookup queued for each channel that joins it. The SQL statements
 * that persist it are taken to succeed and are not modelled.
 */
module Subscriptions {
  import opened Wrappers
  import opened Refs
  import opened Snapshot
  import opened Queries
  import Apply

  /** The list as the store receives it: one reference per key, in order. */
  function Published(subs: seq<string>, s: State): (a: StateAction)
    ensures a.SetSubscriptions? && a.subscriptions.Ok?
    ensures |a.subscriptions.value| == |subs|
    ensures forall i :: 0 <= i < |subs| ==> a.subscriptions.value[i] == ChannelRefOf(s, subs[i])
  {
    SetSubscriptions(Ok(seq(|subs|, i requires 0 <= i < |subs| => ChannelRefOf(s, subs[i]))))
  }

  /** One lookup per key, in order. */
  function Lookups(subs: seq<string>): (qs: seq<Query>)
    ensures |qs| == |subs| && forall i :: 0 <= i < |subs| ==> qs[i] == ItunesLookup(subs[i])
  {
    seq(|subs|, i requires 0 <= i < |subs| => ItunesLookup(subs[i]))
  }

  predicate NoDuplicates(subs: seq<string>) {
    forall i, j :: 0 <= i < j < |subs| ==> subs[i] != subs[j]
  }

  /** `position`: the first index holding `pk`, if any. */
  function Position(subs: seq<string>, pk: string): (r: Option<nat>)
    ensures r.None? <==> pk !in subs
    ensures r.Some? ==> r.value < |subs| && subs[r.value] == pk && pk !in subs[..r.value]
    decreases |subs|
  {
    if |subs| == 0 then None
    else if subs[0] == pk then Some(0)
    else match Position(subs[1..], pk)
      case None => None
      case Some(p) => Some(p + 1)
  }

  /** The list after subscribing to `pk`: appended unless already there. */
  function SubscribeSpec(subs: seq<string>, pk: string): seq<string> {
    if pk in subs then subs else subs + [pk]
  }

  /** The list after unsubscribing from `pk`: its first occurrence removed. */
  function UnsubscribeSpec(subs: seq<string>, pk: string): seq<string> {
    match Position(subs, pk)
    case None => subs
    case Some(p) => subs[..p] + subs[p + 1..]
  }

  class SubscriptionList {
    var subscriptions: seq<string>

    /** The list read back from the stored rows, one push per row. */
    constructor(rows: seq<string>)
      ensures subscriptions == rows
    {
      subscriptions := [];
      new;
      for i := 0 to |rows|
        invariant subscriptions == rows[..i]
      {
        subscriptions := subscriptions + [rows[i]];
      }
    }

    /** Startup: publish the list once, then queue a lookup per key in order. */
    method Startup(s: State) returns (published: StateAction, lookups: seq<Query>)
      ensures published == Published(subscriptions, s)
      ensures lookups == Lookups(subscriptions)
    {
      published := Published(subscriptions, s);
      lookups := [];
      for i := 0 to |subscriptions|
        invariant lookups == Lookups(subscriptions[..i])
      {
        lookups := lookups + [ItunesLookup(subscriptions[i])];
      }
      assert subscriptions[..|subscriptions|] == subscriptions;
    }

    /** `Subscribe`: a new key is appended, the list published and a lookup
        queued for it; a known key changes nothing. */
    method Subscribe(channel: ChannelRef, s: State) returns (published: seq<StateAction>, lookups: seq<Query>)
      modifies this
      ensures subscriptions == SubscribeSpec(old(subscriptions), channel.pk)
      ensures channel.pk in old(subscriptions) ==> published == [] && lookups == []
      ensures channel.pk !in old(subscriptions) ==>
        published == [Published(subscriptions, s)] && lookups == [ItunesLookup(channel.pk)]
    {
      var pk := channel.pk;
      published, lookups := [], [];
      if pk !in subscriptions {
        subscriptions := subscriptions + [pk];
        published := [Published(subscriptions, s)];
        lookups := [ItunesLookup(pk)];
      }
    }

    /** `Unsubscribe`: the first occurrence of the key is found by a scan,
        removed, and the list published; an absent key changes nothing. */
    method Unsubscribe(channel: ChannelRef, s: State) returns (published: seq<StateAction>)
      modifies this
      ensures subscriptions == UnsubscribeSpec(old(subscriptions), channel.pk)
      ensures channel.pk in old(subscriptions) ==> published == [Published(subscriptions, s)]
      ensures channel.pk !in old(subscriptions) ==> published == []
    {
      var pk := channel.pk;
      var pos := 0;
      while pos < |subscriptions| && subscriptions[pos] != pk
        invariant pos <= |subscriptions|
        invariant pk !in subscriptions[..pos]
      {
        pos := pos + 1;
      }
      published := [];
      if pos < |subscriptions| {
        assert Position(subscriptions, pk) == Some(pos) by {
          PositionIsFirst(subscriptions, pk, pos);
        }
        subscriptions := subscriptions[..pos] + subscriptions[pos + 1..];
        published := [Published(subscriptions, s)];
      } else {
        assert subscriptions[..pos] == subscriptions;
      }
    }
  }

  /** The first index holding the key is the position. */
  lemma PositionIsFirst(subs: seq<string>, pk: string, p: nat)
    requires p < |subs| && subs[p] == pk && pk !in subs[..p]
    ensures Position(subs, pk) == Some(p)
  {
    assert pk in subs;
    var r := Position(subs, pk).value;
    assert forall k :: 0 <= k < p ==> subs[..p][k] == subs[k];
    assert forall k :: 0 <= k < r ==> subs[..r][k] == subs[k];
  }

  /** Membership after subscribing: the old keys and the new one. */
  lemma SubscribeMembers(subs: seq<string>, pk: string, x: string)
    ensures x in SubscribeSpec(subs, pk) <==> x in subs || x == pk
  {
  }

  /** Subscribing twice is subscribing once. */
  lemma SubscribeIdempotent(subs: seq<string>, pk: string)
    ensures SubscribeSpec(SubscribeSpec(subs, pk), pk) == SubscribeSpec(subs, pk)
  {
  }

  /** Subscribing keeps the list free of repeats. */
  lemma SubscribeKeepsNoDuplicates(subs: seq<string>, pk: string)
    requires NoDuplicates(subs)
    ensures NoDuplicates(SubscribeSpec(subs, pk))
  {
  }

  /** Unsubscribing keeps the list free of repeats and the other keys in order. */
  lemma UnsubscribeKeepsNoDuplicates(subs: seq<string>, pk: string)
    requires NoDuplicates(subs)
    ensures NoDuplicates(UnsubscribeSpec(subs, pk))
  {
    var r := UnsubscribeSpec(subs, pk);
    match Position(subs, pk)
    case None =>
    case Some(p) =>
      forall i, j | 0 <= i < j < |r|
        ensures r[i] != r[j]
      {
        var i', j' := if i < p then i else i + 1, if j < p then j else j + 1;
        assert r[i] == subs[i'] && r[j] == subs[j'];
      }
  }

  /** On a list without repeats, unsubscribing removes the key entirely and
      keeps every other key. */
  lemma UnsubscribeMembers(subs: seq<string>, pk: string, x: string)
    requires NoDuplicates(subs)
    ensures x in UnsubscribeSpec(subs, pk) <==> x in subs && x != pk
  {
    match Position(subs, pk)
    case None =>
    case Some(p) =>
      var r := UnsubscribeSpec(subs, pk);
      if x in r {
        var k :| 0 <= k < |r| && r[k] == x;
        var k' := if k < p then k else k + 1;
        assert subs[k'] == x && k' != p;
      }
      if x in subs && x != pk {
        var k :| 0 <= k < |subs| && subs[k] == x;
        assert k != p;
        if k < p {
          assert r[k] == x;
        } else {
          assert r[k - 1] == x;
        }
      }
  }

  /** Unsubscribing from a key just subscribed to restores the list. */
  lemma SubscribeThenUnsubscribe(subs: seq<string>, pk: string)
    requires pk !in subs
    ensures UnsubscribeSpec(SubscribeSpec(subs, pk), pk) == subs
  {
    var t := subs + [pk];
    PositionIsFirst(t, pk, |subs|);
    assert t[..|subs|] == subs;
  }

  /** Subscribing to a key just unsubscribed from moves it to the end. */
  lemma UnsubscribeThenSubscribe(subs: seq<string>, pk: string)
    requires NoDuplicates(subs) && pk in subs
    ensures var p := Position(subs, pk).value;
      SubscribeSpec(UnsubscribeSpec(subs, pk), pk) == subs[..p] + subs[p + 1..] + [pk]
  {
    UnsubscribeMembers(subs, pk, pk);
  }

  /** A subscription list published to the store is its subscription list:
      the keys of the stored references are the list, in order. */
  lemma PublishedListIsStored(subs: seq<string>, s: State, t: State)
    ensures var r := Apply.ApplySpec(t, [Published(subs, s)]).subscriptions;
      && r.Ok? && |r.value| == |subs|
      && forall i :: 0 <= i < |subs| ==> r.value[i].pk == subs[i]
  {
    var a := Published(subs, s);
    Apply.ApplySnoc(t, [], a);
    Apply.ApplyEmpty(t);
    assert [] + [a] == [a];
  }
}
