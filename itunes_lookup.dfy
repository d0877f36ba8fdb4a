/** The iTunes lookup-by-id response and the batch it becomes. */
module ItunesLookups {
  import opened Wrappers
  import opened ChannelCores
  import opened Snapshot
  import opened ItunesChannels

  datatype ItunesLookup = ItunesLookup(results: seq<ItunesChannel>)

  /** `cores`: one core per result, in order. */
  function Cores(l: ItunesLookup, s: State): (r: seq<ChannelCore>)
    ensures |r| == |l.results| && forall i :: 0 <= i < |r| ==> r[i] == ToChannelCore(l.results[i], s)
  {
    seq(|l.results|, i requires 0 <= i < |l.results| => ToChannelCore(l.results[i], s))
  }

  /** `to_actions`: one core write per result. */
  method ToActions(l: ItunesLookup, s: State) returns (actions: seq<StateAction>)
    ensures actions == CoreWrites(Cores(l, s))
  {
    actions := [];
    var cores := Cores(l, s);
    for i := 0 to |cores|
      invariant actions == CoreWrites(cores[..i])
    {
      assert CoreWrites(cores[..i + 1]) == CoreWrites(cores[..i]) + [BuildCore(cores[i])];
      actions := actions + [SetChannelCore(cores[i].pk, Ok(cores[i]))];
    }
    assert cores[..|cores|] == cores;
  }

  /** The lookup batch is one Ok core write per result, in order, keyed by the
      core's key, with no search feed. */
  lemma LookupActionsShape(l: ItunesLookup, s: State)
    ensures var r := CoreWrites(Cores(l, s));
      && |r| == |l.results|
      && (forall i :: 0 <= i < |r| ==> !r[i].SetSearchFeed?)
      && forall i :: 0 <= i < |r| ==>
           r[i].SetChannelCore? && r[i].core.Ok? && r[i].core.value == ToChannelCore(l.results[i], s)
           && r[i].corePk == r[i].core.value.pk
  {
  }
}
