/**
 * The loader's unit of work and its scheduling order: queries compare by a
 * fixed priority per kind, and nothing else.
 */
module Queries {
  import opened Wrappers
  import opened Images

  datatype Query =
    | ItunesChart
    | ItunesSearch(query: string)
    | ItunesLookup(pk: string)
    | Rss(pk: string, url: string)
    /** An artwork download; `associatedQuery` is the index of the chart or
        search request that asked for it, if any. */
    | ImageFetch(image: Image, associatedQuery: Option<nat>)

  /** `priority`. */
  function Priority(q: Query): nat {
    match q
    case Rss(_, _) => 3000
    case ItunesLookup(_) => 2000
    case ItunesSearch(_) => 1001
    case ItunesChart => 1000
    case ImageFetch(image, _) => if !image.Loaded() then 500 else 1
  }

  /** `is_search`: the queries whose results replace the search feed. */
  predicate IsSearch(q: Query) {
    q.ItunesSearch? || q.ItunesChart?
  }

  /** `impl PartialEq for Query`: equal priorities. */
  predicate SameQuery(a: Query, b: Query) {
    Priority(a) == Priority(b)
  }

  datatype Ordering = Less | Equal | Greater

  /** `impl Ord for Query`: the comparison of the priorities. */
  function Cmp(a: Query, b: Query): (o: Ordering)
    ensures o == Less <==> Priority(a) < Priority(b)
    ensures o == Equal <==> Priority(a) == Priority(b)
    ensures o == Greater <==> Priority(a) > Priority(b)
  {
    if Priority(a) < Priority(b) then Less
    else if Priority(a) == Priority(b) then Equal
    else Greater
  }

  /** `impl PartialOrd for Query`: always comparable. */
  function PartialCmp(a: Query, b: Query): (o: Option<Ordering>)
    ensures o.Some? && o.value == Cmp(a, b)
  {
    Some(Cmp(a, b))
  }

  /** The kinds in strictly decreasing priority: feed, lookup, search, chart,
      missing artwork, cached artwork. */
  lemma PriorityStrictOrder(pk: string, url: string, query: string, pk2: string, missing: Image, cached: Image, tag: Option<nat>, tag2: Option<nat>)
    requires !missing.Loaded() && cached.Loaded()
    ensures Priority(Rss(pk, url)) > Priority(ItunesLookup(pk2))
    ensures Priority(ItunesLookup(pk2)) > Priority(ItunesSearch(query))
    ensures Priority(ItunesSearch(query)) > Priority(ItunesChart)
    ensures Priority(ItunesChart) > Priority(ImageFetch(missing, tag))
    ensures Priority(ImageFetch(missing, tag)) > Priority(ImageFetch(cached, tag2))
    ensures Priority(ImageFetch(cached, tag2)) > 0
  {
  }

  /** Equality is by kind only (images also by whether they are loaded):
      two searches for different strings are equal. */
  lemma SameQueryIsSameKind(a: Query, b: Query)
    ensures SameQuery(a, b) <==>
      || (a.Rss? && b.Rss?)
      || (a.ItunesLookup? && b.ItunesLookup?)
      || (a.ItunesSearch? && b.ItunesSearch?)
      || (a.ItunesChart? && b.ItunesChart?)
      || (a.ImageFetch? && b.ImageFetch? && a.image.Loaded() == b.image.Loaded())
  {
  }

  /** The search kinds are exactly the priorities 1000 and 1001. */
  lemma IsSearchIsPriorityBand(q: Query)
    ensures IsSearch(q) <==> 1000 <= Priority(q) <= 1001
  {
  }

  /** `cmp` is a total preorder whose equivalence is `SameQuery`. */
  lemma CmpIsTotalPreorder(a: Query, b: Query, c: Query)
    ensures Cmp(a, a) == Equal
    ensures Cmp(a, b) == Less <==> Cmp(b, a) == Greater
    ensures Cmp(a, b) == Equal <==> SameQuery(a, b)
    ensures Cmp(a, b) != Greater && Cmp(b, c) != Greater ==> Cmp(a, c) != Greater
  {
  }
}
