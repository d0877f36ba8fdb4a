# pyrocast core in Dafny

This project models the ingestion and caching engine of pyrocast, a podcast
client, and proves properties of that model. The model covers five parts.

- **The state store's reducer.** `State::apply` folds a batch of `StateAction`
  commands into a new immutable snapshot. The model has the imperative loop
  with its lazily cloned maps (`Apply.Apply`) and a pure specification
  (`Apply.ApplySpec`), which is proved equal to a one-command-at-a-time
  reference semantics (`Apply.Replay`). Lemmas about the specification state
  the store's rules:
  - the stale-search guard;
  - reference retention for channel cores and details;
  - unconditional storage of episodes;
  - image retention against the maps as they were before the batch;
  - core backfill;
  - the fact that a batch never removes an entry.
- **Entity handles and artwork selection.** `ChannelRef`, `EpisodeRef`,
  `ChannelCore::small_image`/`big_image` and `Episode::image` are lookups.
  They are resolved against a map from store ids to the snapshot each store
  currently holds. A `Weak` that no longer upgrades is a handle whose id is
  not in that map.
- **The fetch scheduler.** `LoaderPriv` is a class with the pending-query heap,
  the submission counter, the staleness marker and the worker counters. It has
  `Queue`, `Pop`, `WorkerExit` and the follow-up re-queueing. `Pop` is proved
  against `Scheduler.PopSpec`. The query order comes from `Query::priority`.
  `handle_query` is modelled with the network's answer as an input
  (`Loader.Outcome`): the model gives the batch submitted to the store and the
  follow-up queries.
- **The translators.** These turn iTunes chart, search and lookup records and
  RSS feeds into ordered batches of commands.
- **The subscription list** kept by the database thread. It is a class with
  `Subscribe`/`Unsubscribe`, the startup publish and the lookups queued for
  new entries.

Facts about the source that shape the model:

- The error variants are those of `state/src/state_error.rs`, including
  `XmlError`.
- Image retention consults the cores and episodes stored in the snapshot
  before the batch (`state/src/lib.rs:150-162`, `258-264`).
- The store's smoke test (`tal` / `invalid`, `state/src/lib.rs:370-419`) is
  a proved scenario.

Inputs that the source obtains from its surroundings are parameters of the
model:
- the snapshot that `CurrentState::get` returns (`s: State`);
- the live stores behind `Weak` handles (`stores`);
- what the network answered (`Outcome`, `ImageResponse`);
- the rows read from the database (the `SubscriptionList` constructor's
  `rows`).

## Model

| member | source | states |
|---|---|---|
| StateErrors.Default | state/src/state_error.rs:20-24 | the default error is Loading, which has no source |
| StateErrors.From | state/src/state_error.rs:68-90 | each foreign error becomes its own variant, never Loading or DbError, and `source` gives it back |
| StateErrors.SourceMissingExactlyForOwnErrors | state/src/state_error.rs:55-66 | only Loading and DbError lack a source; every other error is the conversion of its source |
| StateErrors.SameErrorIgnoresPayload | state/src/state_error.rs:26-38 | converted errors are equal exactly when they come from the same library, whatever the messages |
| StateErrors.SameErrorIsEquivalence | state/src/state_error.rs:26-38 | error equality is reflexive, symmetric and transitive |
| StateErrors.DisplayEndsWithSourceMessage | state/src/state_error.rs:40-53 | a converted error is shown as a prefix followed by its foreign error's own message; Loading and DbError show fixed texts |
| StateErrors.SameError | state/src/state_error.rs:26-38 | defines error equality: same variant, payload ignored |
| StateErrors.Source | state/src/state_error.rs:55-66 | defines `source`: the wrapped foreign error, none for Loading and DbError |
| StateErrors.Display | state/src/state_error.rs:40-53 | defines the message of each variant, the foreign message appended |
| Images.NewImage | loader/src/lib.rs:34-37 | an image built from a URL has that key, no metadata and is not loaded |
| Images.Loaded | loader/src/query.rs:31 | defines `Image::loaded` as used by the query priority: the image holds data |
| Images.SameImageIgnoresContent | state/src/image.rs:10-14 | mime type, last-modified stamp and bytes play no part in image equality |
| Images.SameImageNeedsKeyAndEtag | state/src/image.rs:10-14 | images with different keys or different etags are unequal |
| Images.SameImageIsEquivalence | state/src/image.rs:10-16 | image equality is an equivalence relation |
| Images.SameImage | state/src/image.rs:10-14 | defines image equality: same key and same etag |
| Refs.SameChannelIgnoresStore | state/src/channel_ref.rs:10-14 | channel handles are equal exactly when their keys are, whatever store they point at |
| Refs.SameEpisodeIgnoresStore | state/src/episode_ref.rs:10-14 | episode handles are equal exactly when their keys are, whatever store they point at |
| Refs.SameChannelIsEquivalence | state/src/channel_ref.rs:10-16 | channel-handle equality is an equivalence relation |
| Refs.SameEpisodeIsEquivalence | state/src/episode_ref.rs:10-16 | episode-handle equality is an equivalence relation |
| Refs.SameChannel | state/src/channel_ref.rs:10-14 | defines channel-handle equality: same key |
| Refs.SameEpisode | state/src/episode_ref.rs:10-14 | defines episode-handle equality: same key |
| Decimal.NatToString | loader/src/itunes_channel.rs:27 | the rendering of an id is a non-empty digit string with no leading zero |
| Decimal.IntToString | loader/src/itunes_channel.rs:27 | defines `i64::to_string`: a leading minus for negative values, then the shortest digits |
| Decimal.ParseIsize | loader/src/lib.rs:79 | `parse::<isize>`: the empty key, a lone sign and any character other than a leading sign and digits are rejected; an accepted key is its digits' value with the sign applied, within the 64-bit range; every unsigned digit string that fits is accepted |
| Decimal.ParseIsizeExamples | loader/src/lib.rs:79 | "", "+", "-", "1a" and " 1" are rejected; "+5", "007" and "-0" parse to 5, 7 and 0 |
| Decimal.ParseIsizeOfIntToString | loader/src/lib.rs:79 | rendering an isize in decimal and parsing it back gives the same value |
| Decimal.NatToStringInjective | loader/src/itunes_search.rs:43-48 | distinct ids render to distinct strings |
| ChannelCores.BuildersChangeOneField | state/src/channel_core.rs:26-62 | each `with_*` builder sets its own field and leaves every other field unchanged |
| ChannelCores.Default | state/src/channel_core.rs:4-19 | defines the derived `ChannelCore::default()`: detached, empty key, title and author, no artwork and no feed URL |
| ChannelCores.WithPk | state/src/channel_core.rs:26-29 | defines `with_pk`: sets the key |
| ChannelCores.WithTitle | state/src/channel_core.rs:35-38 | defines `with_title`: sets the title |
| ChannelCores.WithAuthor | state/src/channel_core.rs:44-47 | defines `with_author`: sets the author |
| ChannelCores.WithImage200 | state/src/channel_core.rs:49-52 | defines `with_image_200`: sets the 200px artwork URL |
| ChannelCores.WithImage600 | state/src/channel_core.rs:54-57 | defines `with_image_600`: sets the 600px artwork URL |
| ChannelCores.WithImageRss | state/src/channel_core.rs:59-62 | defines `with_image_rss`: sets the feed's artwork URL |
| ChannelCores.WithRss | loader/src/rss.rs:153 | `with_rss` as its callers use it: sets the feed URL |
| ChannelCores.WithCurrent | state/src/channel_core.rs:130-133 | defines `with_current`: sets the store link |
| ChannelCores.ReferencesImage | state/src/channel_core.rs:150-154 | defines `references_image`: the URL is one of the three artwork fields |
| ChannelCores.Update | state/src/channel_core.rs:135-148 | backfill fills exactly the optional fields the newer core lacks, from the older core; key, title, author and store link stay |
| ChannelCores.Backfill | state/src/channel_core.rs:135-148 | the field-by-field in-place backfill computes `Update` |
| ChannelCores.UpdateIdempotent | state/src/channel_core.rs:135-148 | backfilling twice from the same core is backfilling once |
| ChannelCores.UpdateOfCompleteCore | state/src/channel_core.rs:135-148 | a core with every optional field present is left unchanged |
| ChannelCores.ReferencesImageIffArtwork | state/src/channel_core.rs:150-154 | a core references exactly its three artwork URLs; the feed URL never counts |
| ChannelCores.UpdateReferences | state/src/channel_core.rs:135-154 | backfill keeps every artwork reference and adds only the older core's |
| Episodes.BuildersChangeOneField | state/src/episode.rs:26-83 | each `with_*` builder (also `with_image`, `with_current`) sets its own field only |
| Episodes.Default | state/src/episode.rs:4-19 | defines the derived `Episode::default()`: detached, empty strings, no artwork |
| Episodes.WithPk | state/src/episode.rs:26-29 | defines `with_pk`: sets the key |
| Episodes.WithChannel | loader/src/rss.rs:87 | `with_channel` as its caller uses it: sets the owning channel's key |
| Episodes.WithTitle | state/src/episode.rs:35-38 | defines `with_title`: sets the title |
| Episodes.WithUrl | state/src/episode.rs:44-47 | defines `with_url`: sets the page URL |
| Episodes.WithDate | state/src/episode.rs:53-56 | defines `with_date`: sets the date |
| Episodes.WithDescription | state/src/episode.rs:62-65 | defines `with_description`: sets the description |
| Episodes.WithDuration | state/src/episode.rs:71-74 | defines `with_duration`: sets the duration |
| Episodes.WithAudio | state/src/episode.rs:80-83 | defines `with_audio`: sets the audio URL |
| Episodes.WithImage | state/src/episode.rs:116-119 | defines `with_image`: sets the artwork URL |
| Episodes.WithCurrent | state/src/episode.rs:125-128 | defines `with_current`: sets the store link |
| Episodes.ReferencesImage | state/src/episode.rs:130-132 | defines `references_image`: the episode's own artwork URL is the one asked for |
| Episodes.Channel | state/src/episode.rs:85-90 | as written: the handle keeps the episode's store link (and uses the episode's key, see Findings) |
| Episodes.OwningChannel | state/src/episode.rs:85-90 | as intended: a handle on the owning channel, on the episode's store |
| Episodes.ChannelUsesEpisodeKey | state/src/episode.rs:85-90 | the as-written handle carries the episode key and names the owner only when the two keys coincide |
| Episodes.OwningChannelFollowsChannelField | state/src/episode.rs:85-90 | the intended handle follows the channel field whatever the episode key |
| ChannelDetails.WithEpisodes | state/src/channel_detail.rs:37-47 | one handle per episode, on the detail's store, with the episode keys in order; nothing else changes |
| ChannelDetails.WithEpisodeKeys | loader/src/rss.rs:167 | the key-taking form lists exactly the given keys, in order; nothing else changes |
| ChannelDetails.WithEpisodesIsWithKeys | state/src/channel_detail.rs:37-47 | listing episodes is listing their keys |
| ChannelDetails.EpisodesAfterWithEpisodes | state/src/channel_detail.rs:33-47 | `episodes()` is exactly the list the last `with_episodes` set |
| ChannelDetails.BuildersChangeOneField | state/src/channel_detail.rs:19-31 | each builder sets its own field and leaves the others unchanged |
| ChannelDetails.Default | state/src/channel_detail.rs:4-12 | defines the derived `ChannelDetail::default()`: detached, empty strings, no episodes |
| ChannelDetails.WithPk | state/src/channel_detail.rs:19-22 | defines `with_pk`: sets the key |
| ChannelDetails.WithDescription | state/src/channel_detail.rs:28-31 | defines `with_description`: sets the description |
| ChannelDetails.WithLink | loader/src/rss.rs:166 | `with_link` as its caller uses it: sets the link |
| ChannelDetails.WithCurrent | state/src/channel_detail.rs:59-62 | defines `with_current`: sets the store link |
| Snapshot.New | state/src/lib.rs:164-181 | a fresh snapshot: country CA, no explicit content, loading, empty query, maps, foci and player, results and subscriptions Loading |
| Snapshot.WithCurrent | state/src/lib.rs:183-188 | attaching to a store changes the store link only |
| Snapshot.ChannelRefOf | state/src/lib.rs:121-126 | a handle on the given key, on this snapshot's store |
| Snapshot.NewChannelCore | state/src/lib.rs:105-107 | defines `new_channel_core`: a default core linked to this snapshot's store |
| Snapshot.NewChannelDetail | state/src/lib.rs:109-111 | defines `new_channel_detail`: a default detail linked to this snapshot's store |
| Snapshot.NewEpisode | state/src/lib.rs:113-115 | defines `new_episode`: a default episode linked to this snapshot's store |
| Snapshot.BuildCore | state/src/channel_core.rs:126-128 | `build` writes the core under its own key |
| Snapshot.BuildDetail | state/src/channel_detail.rs:49-51 | `build` writes the detail under its own key |
| Snapshot.BuildEpisode | state/src/episode.rs:121-123 | `build` writes the episode under its own key |
| Snapshot.CoreWrites | loader/src/itunes_lookup.rs:27-35 | one Ok core write per core, keyed by the core's key, in order |
| Snapshot.EpisodeWrites | loader/src/rss.rs:183-188 | one Ok episode write per episode, keyed by the episode's key, in order |
| Snapshot.PlayingEpisode | state/src/lib.rs:132-138 | the stored entry of the episode the player names, None when there is no player or no entry |
| Snapshot.NewReferencesNothing | state/src/lib.rs:140-181 | a fresh snapshot references no channel and no image and plays nothing |
| Snapshot.ReferencesChannel | state/src/lib.rs:140-148 | defines `references_channel`: the key is the search or home focus, one of the Ok search results, or the player's channel |
| Snapshot.ReferencesImage | state/src/lib.rs:150-162 | defines `references_image`: some Ok core or Ok episode stored in the snapshot references the URL |
| Apply.ToRefs | state/src/lib.rs:214-226 | an error feed is stored as it is; an Ok feed becomes handles with the same keys in the same order, on the pre-batch store |
| Apply.Step | state/src/lib.rs:197-275 | defines one iteration of the loop: scalar writes to `next`, guarded map writes into the lazily cloned maps |
| Apply.Fold | state/src/lib.rs:191-275 | defines the working copy after the loop has run over a prefix of the batch |
| Apply.Finish | state/src/lib.rs:277-290 | defines the swap after the loop: each written map replaces `next`'s |
| Apply.ApplySpec | state/src/lib.rs:190-291 | defines `apply` as the loop followed by the swap |
| Apply.Apply | state/src/lib.rs:190-291 | the loop over the batch with lazily cloned maps swapped in at the end computes `ApplySpec` |
| Apply.ApplyIsReplay | state/src/lib.rs:190-291 | the deferred map swap changes nothing: `apply` equals applying the commands one at a time against the pre-batch snapshot |
| Apply.ApplySnoc | state/src/lib.rs:197-274 | one more command in a batch applies its effect to the snapshot the earlier commands produce |
| Apply.ApplyEmpty | state/src/lib.rs:190-291 | the empty batch returns the same snapshot |
| Apply.ApplyKeepsStoreLink | state/src/lib.rs:190-291 | a batch never changes the snapshot's store link |
| Apply.SearchQueryResetsResults | state/src/lib.rs:205-210 | a different query is set and resets the results to Loading; the same query changes nothing |
| Apply.SearchFeedNeedsCurrentQuery | state/src/lib.rs:214-226 | a feed is stored only under the query current at that point of the batch, with keys in order and errors as they are; otherwise nothing changes |
| Apply.ChannelCoreKeptIffReferenced | state/src/lib.rs:231-245 | a core write is stored exactly when the key is referenced by the batch-so-far snapshot; Ok cores are backfilled from the pre-batch Ok core, errors are stored unmerged |
| Apply.ChannelDetailKeptIffReferenced | state/src/lib.rs:246-252 | a detail write is stored exactly when the key is referenced by the batch-so-far snapshot, and changes nothing else |
| Apply.EpisodeAlwaysStored | state/src/lib.rs:253-257 | an episode write is always stored and changes nothing else |
| Apply.ImageKeptIffReferencedBeforeBatch | state/src/lib.rs:258-264 | an image write is stored exactly when a pre-batch core or episode names the URL |
| Apply.BackfillKeepsOlderFields | state/src/lib.rs:231-244 | a referenced Ok core missing an artwork or feed URL keeps the one of the pre-batch Ok core |
| Apply.EffectKeepsKeys | state/src/lib.rs:197-274 | no single command removes a key from any map |
| Apply.EffectFrame | state/src/lib.rs:197-274 | a command leaves alone every map it does not write |
| Apply.EffectUnreferenced | state/src/lib.rs:231-252 | a command that does not move references leaves an unreferenced channel's entries as they were |
| Apply.ApplyNeverRemoves | state/src/lib.rs:190-291 | a batch only inserts or overwrites entries, in every map |
| Apply.UntouchedMapsShared | state/src/lib.rs:277-288 | a map no command of the batch writes is the same map afterwards |
| Apply.UnreferencedChannelUnchanged | state/src/lib.rs:231-252 | in a batch that moves no reference, writes for an unreferenced channel leave its core and detail entries as they were |
| Apply.FeedReferencesListed | state/src/lib.rs:140-148 | every key of the stored search results is referenced |
| Apply.FeedBatchStoresListedCores | state/src/lib.rs:214-245 | a feed for the current query followed by cores for listed keys stores the feed and an Ok core under every key |
| Apply.StaleFeedBatchKeepsResults | state/src/lib.rs:214-226 | a feed batch for a query no longer current leaves the query and the results unchanged |
| Apply.EpisodeWritesStoreEach | state/src/lib.rs:253-257 | appended episode writes store every episode and change nothing but the episode map, which only grows |
| Apply.StaleSearchFeedDiscarded | state/src/lib.rs:205-226 | query A, then B, then a feed for A leaves the results Loading |
| Apply.StaleSearchFeedDiscardedAcrossBatches | state/src/lib.rs:205-226 | the same race over three batches also leaves the results Loading |
| Apply.ImageCheckSeesPreBatchMaps | state/src/lib.rs:258-264 | artwork of a core stored in the same batch is dropped, and kept once that core was stored by an earlier batch |
| Lookups.Live | state/src/channel_ref.rs:23-26 | `Weak::upgrade` then `get`: the snapshot the store holds, if the handle is attached to a live store |
| Lookups.PreferOk | state/src/channel_core.rs:64-90 | the fallback pattern: the first lookup if it found an Ok value, else the second if present, else the first; Ok is found iff either finds it |
| Lookups.CoreOf | state/src/channel_ref.rs:23-26 | defines `ChannelRef::core`: the key's entry in the live snapshot of the handle's store |
| Lookups.DetailsOf | state/src/channel_ref.rs:28-31 | defines `ChannelRef::details` likewise for the detail map |
| Lookups.EpisodeOf | state/src/episode_ref.rs:23-26 | defines `EpisodeRef::get` likewise for the episode map |
| Lookups.CoreDetails | state/src/channel_core.rs:120-124 | defines `ChannelCore::details`: the detail under the core's own key in its store's live snapshot |
| Lookups.DetailCore | state/src/channel_detail.rs:53-57 | defines `ChannelDetail::core`: the core under the detail's own key in its store's live snapshot |
| Lookups.SmallImage | state/src/channel_core.rs:64-90 | defines `small_image`: the 200px entry preferred, the 600px as fallback |
| Lookups.BigImage | state/src/channel_core.rs:92-118 | defines `big_image`: the 600px entry preferred, the feed's own artwork (`image_rss`) as fallback |
| Lookups.EpisodeImage | state/src/episode.rs:92-114 | defines `image` as written: the episode's own artwork, else the big image of the handle `channel()` builds |
| Lookups.ChannelArtwork | state/src/episode.rs:106-112 | defines the fallback block of `image`: the big image of the Ok core the channel handle resolves to, else nothing |
| Lookups.EpisodeImageViaOwner | state/src/episode.rs:92-114 | defines `image` as evidently intended: the same fallback, through the handle on the episode's owning channel |
| Lookups.LookupsReadLiveSnapshot | state/src/channel_ref.rs:23-31 | `core`, `details` and `get` answer exactly when the handle's store is live and holds the key, and return that entry |
| Lookups.DetachedFindsNothing | state/src/channel_ref.rs:23-31 | entities and handles built from defaults are detached and every lookup answers None |
| Lookups.EqualRefsResolveAlike | state/src/channel_ref.rs:10-31 | equal handles on the same store resolve to the same entries |
| Lookups.EqualRefsMayResolveDifferently | state/src/channel_ref.rs:10-26 | equal handles on different stores can resolve differently, because equality ignores the store link |
| Lookups.CoreAndDetailLinked | state/src/channel_detail.rs:53-57 | a core's `details` and a detail's `core` are the lookups of their own key on their own store |
| Lookups.ArtworkFallbackOrder | state/src/channel_core.rs:64-118 | small image: the 200px entry if Ok, else the 600px if present, else the 200px error, else None; big image likewise with 600px then the feed's own; an episode's own Ok image wins |
| Lookups.HandleSeesLaterWrites | state/src/channel_ref.rs:23-26 | a handle created before a batch sees the batch's writes once the store holds the new snapshot |
| Lookups.SmokeTestThroughHandles | state/src/lib.rs:370-419 | the store's smoke test: the first search result resolves to the core titled "This American Life", and "invalid" is not stored |
| Lookups.EpisodeImageMissesChannelArtwork | state/src/episode.rs:92-114 | as written, an episode without artwork misses its channel's loaded 600px image; through the owning channel it gets it |
| Lookups.EpisodeImageFallsBackToOwner | state/src/episode.rs:92-114 | as intended, an episode without artwork of its own shows the owning channel's big image |
| Queries.Cmp | loader/src/query.rs:49-53 | `cmp` is Less, Equal or Greater exactly as the priorities compare |
| Queries.Priority | loader/src/query.rs:25-34 | defines `priority`: 3000, 2000, 1001, 1000, 500 or 1 by kind and loadedness |
| Queries.IsSearch | loader/src/query.rs:36-38 | defines `is_search`: a search or a chart |
| Queries.SameQuery | loader/src/query.rs:41-45 | defines query equality: same priority |
| Queries.PartialCmp | loader/src/query.rs:56-60 | `partial_cmp` is always `Some(cmp)` |
| Queries.PriorityStrictOrder | loader/src/query.rs:25-34 | feed > lookup > search > chart > missing artwork > cached artwork > 0 |
| Queries.SameQueryIsSameKind | loader/src/query.rs:41-45 | queries are equal exactly when they are of the same kind (artwork also by loadedness), whatever their payload |
| Queries.IsSearchIsPriorityBand | loader/src/query.rs:25-39 | search-class queries are exactly the priorities 1000 and 1001 |
| Queries.CmpIsTotalPreorder | loader/src/query.rs:41-60 | `cmp` is a total preorder whose equivalence is query equality |
| ItunesChannels.ToChannelCore | loader/src/itunes_channel.rs:23-32 | key is the decimal id; title and author copied; 600px artwork and feed URL always present, even empty; no 200px or feed artwork |
| ItunesChannels.KeyParsesBack | loader/src/itunes_channel.rs:27 | the core's key parses back as the channel's id |
| ItunesChannels.KeysDistinct | loader/src/itunes_channel.rs:27 | distinct ids give distinct keys |
| ItunesChannels.ReferencesOnly600 | loader/src/itunes_channel.rs:30-31 | the only artwork the core references is its 600px URL |
| ItunesCharts.ItemCore | loader/src/itunes_chart.rs:25-33 | key, title and author copied, the 200px artwork set; no 600px, feed artwork or feed URL |
| ItunesCharts.Results | loader/src/itunes_chart.rs:64-70 | the entries' keys in chart order |
| ItunesCharts.Cores | loader/src/itunes_chart.rs:72-78 | one core per entry, in chart order |
| ItunesCharts.ToActions | loader/src/itunes_chart.rs:80-92 | the pushing loop builds the feed for the empty query followed by one write per core |
| ItunesCharts.ChartActionsShape | loader/src/itunes_chart.rs:80-92 | the batch has n+1 commands: the feed first, then one Ok core write per entry in order, keyed by the core's key |
| ItunesCharts.ChartActions | loader/src/itunes_chart.rs:80-92 | defines the chart's batch: the feed for the empty query, then the cores |
| ItunesCharts.ChartBatchStoresEveryEntry | loader/src/itunes_chart.rs:80-92 | applied while the query is empty, the chart becomes the search results and every entry's core is stored |
| ItunesCharts.ChartPathCountCapped | loader/src/itunes_chart.rs:52-58 | the count segment of the request path reads back as the count capped at 100 |
| ItunesCharts.ChartPath | loader/src/itunes_chart.rs:52-58 | defines the request path: country, the count capped at 100, and the explicit flag |
| ItunesLookups.Cores | loader/src/itunes_lookup.rs:20-25 | one core per result, same length and order |
| ItunesLookups.ToActions | loader/src/itunes_lookup.rs:27-35 | the pushing loop builds one core write per core |
| ItunesLookups.LookupActionsShape | loader/src/itunes_lookup.rs:27-35 | one Ok core write per result, in order, keyed by the core's key, and no search feed |
| ItunesSearches.FilterRss | loader/src/itunes_search.rs:32-36 | the kept results all name a feed and come from the response |
| ItunesSearches.FilterRssAppend | loader/src/itunes_search.rs:32-36 | filtering keeps response order: it distributes over concatenation |
| ItunesSearches.FilterRssKeepsFeeds | loader/src/itunes_search.rs:32-36 | a result is kept exactly when it names a feed |
| ItunesSearches.FilterRssKeepsFeedOnly | loader/src/itunes_search.rs:32-36 | a response whose results all name a feed passes unchanged |
| ItunesSearches.Fetched | loader/src/itunes_search.rs:31-40 | the fetched search is stamped with the query asked and holds only results that name a feed |
| ItunesSearches.SearchCountCapped | loader/src/itunes_search.rs:22-27 | the count parameter reads back as the requested count, capped at 200 |
| ItunesSearches.SearchParams | loader/src/itunes_search.rs:22-27 | defines the query parameters: term, country, the count capped at 200, media and the explicit flag |
| ItunesSearches.Results | loader/src/itunes_search.rs:43-48 | each result's id in decimal, in order |
| ItunesSearches.Cores | loader/src/itunes_search.rs:50-55 | one core per result, in order |
| ItunesSearches.ToActions | loader/src/itunes_search.rs:57-69 | the pushing loop builds the feed for the stamped query followed by one write per core |
| ItunesSearches.SearchActionsShape | loader/src/itunes_search.rs:57-69 | n+1 commands: the feed for the stamped query, then one Ok core write per result keyed by its decimal id |
| ItunesSearches.SearchActions | loader/src/itunes_search.rs:57-69 | defines the search's batch: the feed for the stamped query, then the cores |
| ItunesSearches.CurrentSearchStoresEveryResult | loader/src/itunes_search.rs:57-69 | a search answered for the query still shown becomes the results and stores every result's core |
| ItunesSearches.StaleSearchLeavesResults | loader/src/itunes_search.rs:57-69 | a search answered after the query moved on leaves the results as they were |
| RssFeeds.EpisodePk | loader/src/rss.rs:64-68 | the guid if present, else the enclosure URL |
| RssFeeds.EpisodeTitle | loader/src/rss.rs:70-74 | the iTunes title if present, else the plain title |
| RssFeeds.EpisodeDescription | loader/src/rss.rs:76-80 | the iTunes summary if present, else the plain description |
| RssFeeds.ToEpisode | loader/src/rss.rs:82-95 | every episode field comes from the item by the fallback rules; the channel is the feed's key and the audio the enclosure URL |
| RssFeeds.ImageRss | loader/src/rss.rs:133-143 | the iTunes image href, else the plain image URL, else "" |
| RssFeeds.ToChannelCore | loader/src/rss.rs:145-154 | key, title, author, feed artwork and the feed's own URL; no iTunes artwork |
| RssFeeds.ItemPks | loader/src/rss.rs:167 | the items' keys in feed order |
| RssFeeds.ToChannelDetail | loader/src/rss.rs:156-168 | summary-else-description, the link, and the item keys in feed order |
| RssFeeds.FeedEpisodes | loader/src/rss.rs:183-188 | one episode per item, in order, all of this channel |
| RssFeeds.ToActions | loader/src/rss.rs:170-191 | the pushing loop builds core, detail, then one write per item |
| RssFeeds.RssActionsShape | loader/src/rss.rs:170-191 | n+2 commands: the core and the detail under the feed's key, then each item under its own key, owned by this channel |
| RssFeeds.RssActions | loader/src/rss.rs:170-191 | defines the feed's batch: core, detail, then the episodes |
| RssFeeds.Fetched | loader/src/rss.rs:236-239 | the fetched feed carries the requested key and URL and nothing else changes |
| RssFeeds.FetchedCoreKeepsUrl | loader/src/rss.rs:145-154 | a fetched feed's core has the requested key and the fetched URL as its feed |
| RssFeeds.ReferencedFeedResolves | loader/src/rss.rs:170-191 | applied while the channel is referenced, the batch stores core and detail and every episode the detail lists |
| Scheduler.BeforeIsStrictOrder | loader/src/lib.rs:197 | the heap order (priority, then older index) is strict, and total on distinct indices |
| Scheduler.TopIndex | loader/src/lib.rs:254 | the heap's top: an entry no other entry precedes |
| Scheduler.Remove | loader/src/lib.rs:254 | removing one entry keeps the others, in order, as a multiset minus that entry |
| Scheduler.Before | loader/src/lib.rs:197 | defines the heap's order on `(Query, Reverse(idx))`: higher priority first, then the older index |
| Scheduler.Stale | loader/src/lib.rs:255-263 | defines the skip rule: a search-class query other than the latest, or artwork tagged with an older search |
| Scheduler.PopSpec | loader/src/lib.rs:251-269 | defines `pop`: take the top, drop it and go on while it is stale, return the first live one |
| Scheduler.PopStep | loader/src/lib.rs:254-265 | one round of pop: a stale top is dropped and popping goes on, a live one is returned |
| Scheduler.PopReturnsBestLive | loader/src/lib.rs:254-268 | pop returns a live entry of the heap that no live entry precedes, and no entry left in the heap precedes it, so the stale entries skipped on the way are gone |
| Scheduler.PopNoneIffAllStale | loader/src/lib.rs:254-268 | pop returns None exactly when every entry is stale, and then the heap is empty |
| Scheduler.PopDropsOnlyStale | loader/src/lib.rs:254-265 | every live entry stays queued as often as before, except the one returned |
| Scheduler.PopShrinks | loader/src/lib.rs:254-268 | pop only removes entries |
| Scheduler.UntaggedImageKeepsPopBusy | loader/src/lib.rs:260-263 | an artwork fetch not tied to a search is never discarded, so pop returns something while one is queued |
| Scheduler.PopsInPriorityOrder | loader/src/lib.rs:251-269 | an unloaded image, a lookup and a chart queued in that order come out lookup, chart, image |
| Scheduler.StaleSearchSkippedAtPop | loader/src/lib.rs:254-265 | a superseded search and an image fetched for it are discarded; the latest chart is returned |
| Loader.Entries | loader/src/lib.rs:234-235 | queries queued one by one get consecutive indices from the counter |
| Loader.IncreasingTopIsUnique | loader/src/lib.rs:197-201 | with indices increasing along the heap, as every loader operation keeps them, the entry pop takes precedes every other entry: ties are broken by the older index |
| Loader.LatestSearchIsLast | loader/src/lib.rs:230-232 | the marker is the index of the last search-class query queued, unchanged when there is none |
| Loader.LatestSearch | loader/src/lib.rs:229-232 | defines the marker after queueing a sequence: each search-class query moves it to its own index |
| Loader.LoaderPriv.constructor | loader/src/lib.rs:212-223 | an empty heap, no workers, counter and marker at 0, the given limit |
| Loader.LoaderPriv.Queue | loader/src/lib.rs:229-249 | push with the next index, marker moved for search-class queries, a worker spawned exactly when below the limit, loading turned on exactly by the first worker; the worker bound is kept |
| Loader.LoaderPriv.Pop | loader/src/lib.rs:251-269 | the popping loop computes `PopSpec` of the old heap; counters unchanged |
| Loader.LoaderPriv.WorkerExit | loader/src/lib.rs:285-293 | one worker fewer; loading turned off exactly when none is left |
| Loader.LoaderPriv.QueueAll | loader/src/lib.rs:279-282 | follow-ups are queued in order with consecutive indices; spawns fill the free worker slots; loading turned on only from zero workers |
| Loader.LoaderPriv.PopOrExit | loader/src/lib.rs:274-293 | the corrected worker step: pop and, on None, exit under one lock; no query is ever left queued without a worker |
| Loader.ImageFollowUps | loader/src/lib.rs:32-38 | one artwork fetch per URL, each with the same tag |
| Loader.ChartArtwork | loader/src/lib.rs:33-38 | the 200px artwork of every chart entry, in order |
| Loader.SearchArtwork | loader/src/lib.rs:60-65 | the 600px artwork of every search result, in order |
| Loader.FeedFollowUps | loader/src/lib.rs:83-92 | at most one feed fetch per core, all feed fetches |
| Loader.FeedFollowUpsOfLookup | loader/src/lib.rs:83-92 | when every core names a feed, one feed fetch per core with its key and URL, in order |
| Loader.Downloaded | loader/src/lib.rs:151-170 | a downloaded image is loaded with its bytes, mime type defaulting to */*, absent headers as "" |
| Loader.NotAnIdError | loader/src/lib.rs:102-111 | defines the error for a lookup key that is not an integer: an I/O error whose message is the key followed by " is not an iTunes id (integer)" |
| Loader.ArtworkRequests | loader/src/lib.rs:32-40 | the follow-up loop builds one artwork fetch per URL tagged with the request index |
| Loader.HandleImage | loader/src/lib.rs:137-191 | 304 submits nothing; a failed request or body stores the error under the URL; a body stores the downloaded image |
| Loader.HandleQuery | loader/src/lib.rs:22-193 | per query kind and outcome: the batch submitted and the follow-ups, including the errors written to core and detail for a failed lookup or feed and for a non-integer key |
| LoaderScenarios.LoadingFlagEdges | loader/src/lib.rs:229-293 | with one worker slot, queueing one query turns loading on, the worker pops it, and its exit turns loading off |
| LoaderScenarios.SupersededSearchDropped | loader/src/lib.rs:229-269 | lookup, search, chart and an image for the search: the lookup and the chart are fetched, the search and its image dropped |
| LoaderScenarios.LookupPoppedFirst | loader/src/lib.rs:251-269 | the lookup is the top of that heap and is returned first |
| LoaderScenarios.LostWakeupAsWritten | loader/src/lib.rs:274-293 | as written: a query queued between a worker's empty pop and its exit is left queued with no worker, and loading is reported finished |
| LoaderScenarios.LostWakeupAvoided | loader/src/lib.rs:274-293 | with pop and exit under one lock, the same query spawns a worker |
| LoaderScenarios.FollowUpsOfSupersededSearchDropped | loader/src/lib.rs:254-265 | artwork requested by a superseded chart or search is all dropped at pop |
| LoaderScenarios.LookupFetchesEveryFeed | loader/src/lib.rs:83-92 | a lookup asks for the feed of every channel it found, keyed by the decimal id, in order |
| Subscriptions.Published | database/src/lib.rs:65-70 | the published list has one handle per key, in order, on the snapshot's store |
| Subscriptions.Lookups | database/src/lib.rs:74-76 | one lookup per key, in order |
| Subscriptions.Position | database/src/lib.rs:101 | None exactly when the key is absent; otherwise the first index holding it |
| Subscriptions.SubscriptionList.constructor | database/src/lib.rs:55-63 | the list is the stored rows, in order |
| Subscriptions.SubscriptionList.Startup | database/src/lib.rs:72-76 | the list is published once, then one lookup per key is queued in order |
| Subscriptions.SubscriptionList.Subscribe | database/src/lib.rs:88-99 | a new key is appended, the list published and one lookup queued; a known key changes and publishes nothing |
| Subscriptions.SubscriptionList.Unsubscribe | database/src/lib.rs:100-110 | the first occurrence is removed by the scan and the list published; an absent key changes nothing |
| Subscriptions.SubscribeSpec | database/src/lib.rs:92-99 | defines the list after `Subscribe`: the key appended unless already present |
| Subscriptions.UnsubscribeSpec | database/src/lib.rs:101-108 | defines the list after `Unsubscribe`: the first occurrence of the key removed |
| Subscriptions.PositionIsFirst | database/src/lib.rs:101 | the first index holding the key is its position |
| Subscriptions.SubscribeMembers | database/src/lib.rs:88-99 | after subscribing, the members are the old ones plus the key |
| Subscriptions.SubscribeIdempotent | database/src/lib.rs:88-99 | subscribing twice is subscribing once |
| Subscriptions.SubscribeKeepsNoDuplicates | database/src/lib.rs:88-99 | a list without repeats stays without repeats |
| Subscriptions.UnsubscribeKeepsNoDuplicates | database/src/lib.rs:100-110 | a list without repeats stays without repeats |
| Subscriptions.UnsubscribeMembers | database/src/lib.rs:100-110 | on a list without repeats, the key is gone and every other key stays |
| Subscriptions.SubscribeThenUnsubscribe | database/src/lib.rs:88-110 | unsubscribing from a key just subscribed to restores the list |
| Subscriptions.UnsubscribeThenSubscribe | database/src/lib.rs:88-110 | resubscribing moves the key to the end and keeps the others in order |
| Subscriptions.PublishedListIsStored | database/src/lib.rs:65-70 | the published list, once applied, is stored with the same keys in the same order |

## Left out

- The `CurrentState` writer thread, its `RwLock`, the action channel and the update notifier (state/src/lib.rs:300-364) are concurrency. Only `apply` is modelled. `get` is the snapshot parameter, and `update` is the batch the model returns.
- Worker tasks, `task::spawn` and the `Mutex` around `LoaderPriv` are concurrency. `LoaderPriv` is a class whose methods are the critical sections. A spawn is a returned flag, and the worker loop is the sequence `Pop`, `HandleQuery`, `QueueAll`, `WorkerExit`.
- Loader.LoaderPriv.Queue: does not model the `usize` wrap-around of `total_queries`, because the counter is unbounded here.
- Loader.HandleQuery: the network (surf requests, JSON and XML bodies, URL building, conditional-request headers) is replaced by the `Outcome` input. The lookup's follow-ups are read from the snapshot given, since key and feed URL do not depend on it.
- Each `fetch` is left out as I/O. Only its pure final steps are modelled: the search filter and stamp (`ItunesSearches.Fetched`), the request path and count (`ChartPathCountCapped`, `SearchCountCapped`) and the feed's key and URL (`RssFeeds.Fetched`).
- The namespace-rename and HTML-detag regex passes over RSS bodies (loader/src/rss.rs:208-234) and serde deserialisation are foreign calls. Decoded records are inputs, and descriptions are taken as already detagged.
- Subscriptions.Published: builds all handles from one snapshot, whereas the source calls `get` once per key. Only the store link comes from the snapshot, and it is the same for every call.
- SQLite persistence, the schema and the project directories are I/O. Every statement is taken to succeed.
- The GTK application, the audio player and the command-line tool are outside the core. Of the player state, only the episode and channel keys are kept.
- `Display` of foreign errors is reduced to the message string each error carries.
- Assumptions about code that the source calls but does not define (in state/src/image.rs, channel_core.rs, channel_detail.rs and episode.rs):
  - `Image` has optional fields, and "loaded" means its bytes are present.
  - `Image::new(url)` has only the key.
  - `with_rss`, `with_channel`, `with_link` and the key-taking `with_episodes` set their field.
  - `ChannelDetail` has a `link` field.
  - `with_image` is called with an option and stores it as is.
  - `isize` is 64 bits wide.

## Findings

| source | as written | input that shows it | evidently intended | confidence | as-written member | corrected member |
|---|---|---|---|---|---|---|
| state/src/episode.rs:85-114 | `channel()` builds the channel handle from the episode's own key, so `image()` looks up the wrong core for its fallback | episode "e1" of channel "c1", no artwork of its own, core "c1" with a loaded 600px image: `image()` gives None | the handle names the owning channel (`channel` field), and the fallback shows that channel's big image | high; not executed | Lookups.EpisodeImageMissesChannelArtwork | Lookups.EpisodeImageFallsBackToOwner |
| loader/src/lib.rs:274-293 | the worker's final empty `pop` and its exit take the lock separately | one worker slot; the worker pops None; a lookup is queued before it exits, so no worker is spawned; the exit then leaves in-flight 0 with the lookup queued and loading off | the last pop and the exit happen under one lock, so a later queue sees the free slot and spawns a worker | medium; not executed | LoaderScenarios.LostWakeupAsWritten | Loader.LoaderPriv.PopOrExit |
