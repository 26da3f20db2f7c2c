# Fermata media library: identity cache, id dispatch and last-played policy

A Dafny model of the core of `DefaultMediaLib`, the media library of the
Fermata player. It covers three parts:

- **Identity cache** (`item_cache.dfy`, module `ItemCache`). Items are kept in a map from item id to a
  weak reference, together with the reference queue the garbage collector
  posts cleared references to. `Cache` holds that map (`entries`) and queue (`queue`). `Drain`, `Add`,
  `Remove` and `Get` are `clearRefs`, `addToCache`, `removeFromCache` and
  `getFromCache`. The collector is two explicit steps. `Collect` clears a
  reference. `Enqueue` posts it to the queue, which Java's reference handler
  may do later. The drain is specified by the function `Purge`, which is proved
  to remove exactly the entries whose own reference is queued.
- **Identifier dispatch** (`resolver.dfy`, module `Resolver`). `Resolve` is
  `getItem(CharSequence)` given the cache's answer. A hit is returned as is.
  A bare id names a root container (Folders, Favorites, Playlists) or nothing.
  A `scheme:payload` id is routed by its scheme to an item class's `create`, or to
  the favorites or playlists container's own lookup. Anything else is null.
  Constructor calls are returned as tags (`Create`, `Delegate`).
- **Last-played policy** (`playback.dfy`, module `Playback`). `Decide` is the
  decision of `setLastPlayed`, taken from the duration and the position. `SetLastPlayed`
  performs its writes on the preference objects of the library root, a
  container and the item. It is proved to leave exactly the state `Decide`
  prescribes. `ResumePosition` is `getLastPlayedPosition`. A `PlayableItem` is
  the cache's `Item` together with its video flag, duration and preferences,
  so both parts use the same item id.
- **Composition** (`media_lib.dfy`, module `MediaLib`). `GetItem` is the cache
  lookup followed by dispatch. `RootChildren` is the root branch of
  `getChildren`. `LastPlayedItem` is `getLastPlayedItem`. A few client methods
  show what the cache contracts give a caller: interning, eviction after collection,
  and the debug/release behaviour on duplicate ids.

Java `long` positions are the subset type `Playback.Long`. The subtraction
`dur - position` wraps around as in Java (`LongSub`). A one-second item is
always within the 1000 ms finishing window for any non-negative position. So the
90% watched rule never applies to it, and position 950 of a 1000 ms video
snaps forward to the next item rather than marking the video watched
(`Playback.ShortItemAlwaysNearEnd`). The model follows the code here.

## Model

| member | source | states |
|---|---|---|
| ItemCache.Cache.constructor | fermata/src/main/java/me/aap/fermata/media/lib/DefaultMediaLib.java:49-50 | a new library starts with an empty map and an empty reference queue |
| ItemCache.Cache.Drain | fermata/src/main/java/me/aap/fermata/media/lib/DefaultMediaLib.java:327-332 | the queue ends empty and the map is the old map purged by the old queue, polled in order; the cache invariant is kept |
| ItemCache.Unlink | fermata/src/main/java/me/aap/fermata/media/lib/DefaultMediaLib.java:330 | one polled reference removes its key only while the map holds that very reference; no other entry changes and the reference is never left under its key |
| ItemCache.Purge | fermata/src/main/java/me/aap/fermata/media/lib/DefaultMediaLib.java:329-331 | polling a whole queue only removes entries, and only entries whose reference is in the queue |
| ItemCache.PurgeExact | fermata/src/main/java/me/aap/fermata/media/lib/DefaultMediaLib.java:328-332 | a drain removes exactly the keys whose current reference is in the queue, and no other entry changes |
| ItemCache.PurgeIdempotent | fermata/src/main/java/me/aap/fermata/media/lib/DefaultMediaLib.java:328-332 | draining again with the same queue removes nothing more |
| ItemCache.PurgeKeepsLive | fermata/src/main/java/me/aap/fermata/media/lib/DefaultMediaLib.java:328-332 | since only cleared references are queued, a drain never removes an entry whose item is still live |
| ItemCache.Cache.Add | fermata/src/main/java/me/aap/fermata/media/lib/DefaultMediaLib.java:292-297 | after the drain, the id maps to a fresh reference to the item and nothing else changes; in a debug build an id still mapped is an assertion failure that stores nothing, otherwise it is overwritten |
| ItemCache.Cache.Remove | fermata/src/main/java/me/aap/fermata/media/lib/DefaultMediaLib.java:300-310 | after the drain, a null item changes nothing; otherwise the entry for its id goes only if it is cleared or refers to that very item, so an entry replaced by another live item survives |
| ItemCache.Cache.Get | fermata/src/main/java/me/aap/fermata/media/lib/DefaultMediaLib.java:312-325 | returns the live item stored under the id, which has that id; a cleared entry is evicted and a miss leaves no entry for the id; an entry live before the call is always returned |
| ItemCache.Cache.Collect | fermata/src/main/java/me/aap/fermata/media/lib/DefaultMediaLib.java:342-348 | the collector clearing a weak reference keeps the cache invariant |
| ItemCache.Cache.Enqueue | fermata/src/main/java/me/aap/fermata/media/lib/DefaultMediaLib.java:345-348 | a cleared reference is appended to the queue, the map untouched |
| Resolver.IndexOf | fermata/src/main/java/me/aap/fermata/media/lib/DefaultMediaLib.java:92 | the result is -1 exactly when the character is absent, else the index of its first occurrence |
| Resolver.SchemeOf | fermata/src/main/java/me/aap/fermata/media/lib/DefaultMediaLib.java:107-128 | a prefix selects the one scheme of that name, or none when no scheme has that name |
| Resolver.SchemeOfName | fermata/src/main/java/me/aap/fermata/media/lib/DefaultMediaLib.java:108-125 | the case labels of the scheme switch are distinct: each scheme's name selects that scheme |
| Resolver.RootOf | fermata/src/main/java/me/aap/fermata/media/lib/DefaultMediaLib.java:95-104 | a bare id selects the root container with that id, or none |
| Resolver.Resolve | fermata/src/main/java/me/aap/fermata/media/lib/DefaultMediaLib.java:87-129 | a hit happens exactly when the cache answered, and it returns that item; constructor and container calls receive the whole id, which contains ':'; a container result is the one whose id was given |
| Resolver.Dispatch | fermata/src/main/java/me/aap/fermata/media/lib/DefaultMediaLib.java:107-128 | the scheme switch: null exactly when no scheme has the prefix's name; a constructor or container call names the scheme of that prefix and receives the whole id |
| Resolver.Route | fermata/src/main/java/me/aap/fermata/media/lib/DefaultMediaLib.java:108-125 | every scheme reaches a call with the whole id: the favorites and playlists schemes go to their own container, every other scheme to its own constructor |
| Resolver.IndexOfAfterPlainPrefix | fermata/src/main/java/me/aap/fermata/media/lib/DefaultMediaLib.java:92 | the first ':' of `p:rest` is the one after a colon-free `p` |
| Resolver.HitShortCircuits | fermata/src/main/java/me/aap/fermata/media/lib/DefaultMediaLib.java:88-90 | a cache hit returns the cached item whatever the id, with no dispatch |
| Resolver.BareIdResolution | fermata/src/main/java/me/aap/fermata/media/lib/DefaultMediaLib.java:92-104 | an id without ':' resolves to a root container exactly when it equals that container's id, and to null otherwise |
| Resolver.RootIdResolves | fermata/src/main/java/me/aap/fermata/media/lib/DefaultMediaLib.java:94-101 | each root container's id resolves to that container |
| Resolver.SchemeResolves | fermata/src/main/java/me/aap/fermata/media/lib/DefaultMediaLib.java:107-125 | every `scheme:payload` reaches its own scheme's constructor or container with the whole id |
| Resolver.ContainerSchemesDelegate | fermata/src/main/java/me/aap/fermata/media/lib/DefaultMediaLib.java:122-125 | the favorites and playlists schemes go to that container's getItem |
| Resolver.UnknownSchemeIsNull | fermata/src/main/java/me/aap/fermata/media/lib/DefaultMediaLib.java:126-127 | a prefix naming no scheme yields null, not an error |
| Resolver.DispatchDependsOnlyOnPrefix | fermata/src/main/java/me/aap/fermata/media/lib/DefaultMediaLib.java:107-128 | two prefixed ids with the same text before their first ':' take the same route |
| Playback.LongSub | fermata/src/main/java/me/aap/fermata/media/lib/DefaultMediaLib.java:214 | `dur - position` on longs: the exact difference when it fits, else that difference shifted by 2^64 |
| Playback.NearEnd | fermata/src/main/java/me/aap/fermata/media/lib/DefaultMediaLib.java:214 | near the end means `dur - position <= 1000` when the difference fits a long; a difference over the range wraps negative and counts as near, one under it counts only if the wrapped value is at most 1000 |
| Playback.PastWatchedMark | fermata/src/main/java/me/aap/fermata/media/lib/DefaultMediaLib.java:233 | the integer approximation `10*position > 9*dur` of `position > dur * 0.9f`, i.e. position > ⌊9·dur/10⌋ (floor division) |
| Playback.Decide | fermata/src/main/java/me/aap/fermata/media/lib/DefaultMediaLib.java:199-244 | the memo goes to the next item's parent exactly when the duration is positive, the position is near the end and a next item exists, and then names that item, otherwise the item itself; in mid-playback the memo records the position, otherwise 0; the item's prefs are written exactly for a video in mid-playback, marked watched exactly past 90% and otherwise given the position |
| Playback.ResumePosition | fermata/src/main/java/me/aap/fermata/media/lib/DefaultMediaLib.java:190-196 | a video resumes at its own position; a non-video resumes at its parent's memo position when the memo names it, and at a nonzero position only then |
| Playback.NearEndWithoutWrap | fermata/src/main/java/me/aap/fermata/media/lib/DefaultMediaLib.java:214 | for non-negative values the finishing test is `dur - position <= 1000` with no wrap-around |
| Playback.ResumeAfterRecord | fermata/src/main/java/me/aap/fermata/media/lib/DefaultMediaLib.java:191-244 | recording then resuming agree: mid-playback below the watched mark resumes at the recorded position; an unbounded non-video, or a finished one with no next item, resumes at 0 |
| Playback.NearEndSnapsToNext | fermata/src/main/java/me/aap/fermata/media/lib/DefaultMediaLib.java:214-224 | duration 10000 at position 9200 records the next item at 0 in the next item's parent, leaving the item's prefs alone |
| Playback.UnboundedRecordsZero | fermata/src/main/java/me/aap/fermata/media/lib/DefaultMediaLib.java:204-212 | a duration of 0 or less records the item itself at 0 in its own parent, whatever the position, and leaves the item's prefs alone |
| Playback.ShortItemAlwaysNearEnd | fermata/src/main/java/me/aap/fermata/media/lib/DefaultMediaLib.java:214-238 | a 1000 ms video is never marked watched and always recorded at 0 for non-negative positions |
| Playback.WatchedMark | fermata/src/main/java/me/aap/fermata/media/lib/DefaultMediaLib.java:232-243 | a 100 s video at 95 s is marked watched and at 80 s gets its position saved; both record the item at that position |
| Playback.SetLastPlayed | fermata/src/main/java/me/aap/fermata/media/lib/DefaultMediaLib.java:199-244 | the root and the chosen container end holding the memo of `Decide`, the other container is untouched, the item's watched and position prefs change exactly as `Decide` says; afterwards the item resumes at the recorded position in mid-playback and at 0 for a non-video once another item is recorded |
| MediaLib.GetItem | fermata/src/main/java/me/aap/fermata/media/lib/DefaultMediaLib.java:87-129 | a live cached entry is returned, with its own id, and no dispatch happens; otherwise the id is dispatched and any stale entry for it is gone |
| MediaLib.Present | fermata/src/main/java/me/aap/fermata/media/lib/DefaultMediaLib.java:139-143 | the kept values are exactly the non-null results, no more than there were |
| MediaLib.PresentAppend | fermata/src/main/java/me/aap/fermata/media/lib/DefaultMediaLib.java:139-143 | dropping nulls distributes over concatenation, so order is kept by position |
| MediaLib.PresentByPosition | fermata/src/main/java/me/aap/fermata/media/lib/DefaultMediaLib.java:139-147 | the four results contribute, in their fixed positions, each its value or nothing |
| MediaLib.RootChildren | fermata/src/main/java/me/aap/fermata/media/lib/DefaultMediaLib.java:136-148 | the root lists the non-null of last played, Folders, Favorites, Playlists in that order |
| MediaLib.RootChildrenComplete | fermata/src/main/java/me/aap/fermata/media/lib/DefaultMediaLib.java:136-148 | with all four present the root lists exactly those four in that order |
| MediaLib.RootChildrenWithoutLastPlayed | fermata/src/main/java/me/aap/fermata/media/lib/DefaultMediaLib.java:136-148 | without a last-played item the root lists the three containers |
| MediaLib.LastPlayedItem | fermata/src/main/java/me/aap/fermata/media/lib/DefaultMediaLib.java:178-188 | no memo gives no item; a playable item is returned itself; a browsable item gives its first playable; any result is one of those two |
| MediaLib.LastPlayedLeadsRootListing | fermata/src/main/java/me/aap/fermata/media/lib/DefaultMediaLib.java:136-148 | the last-played item, when there is one, comes first in the root listing, ahead of the three containers; without a memo the listing is the three containers |
| MediaLib.AddThenGet | fermata/src/main/java/me/aap/fermata/media/lib/DefaultMediaLib.java:292-319 | in any cache, after an item is added, getItem on its id returns that same instance |
| MediaLib.CollectThenGet | fermata/src/main/java/me/aap/fermata/media/lib/DefaultMediaLib.java:292-332 | in any cache, once the added item's reference is cleared and queued, getItem on its id dispatches afresh, and a debug-build add under the id succeeds again |
| MediaLib.CollectedUnqueuedIsEvicted | fermata/src/main/java/me/aap/fermata/media/lib/DefaultMediaLib.java:312-325 | in any cache, a cleared reference not yet queued is found by the lookup, which returns null and evicts it |
| MediaLib.DuplicateAdd | fermata/src/main/java/me/aap/fermata/media/lib/DefaultMediaLib.java:292-325 | in any cache, a second live item under an id fails in a debug build and replaces the first in a release build; removing the replaced item leaves the newer one cached |

## Left out

- Android `Context`, `SharedPreferences` storage, bitmaps, `MediaEngineManager`, `MetadataRetriever` and the VFS manager are platform I/O. The preference store appears only as the fields of `LastPlayedPrefs` and `ItemPrefs`.
- Event broadcasting to preference listeners (`BasicEventBroadcaster`) is not modelled.
- The bodies of `FileItem.create`, `FolderItem.create`, `CueItem.create`, `CueTrackItem.create`, `M3uItem.create`, `M3uGroupItem.create`, `M3uTrackItem.create`, `DefaultFavorites.getItem`, `DefaultPlaylists.getItem` and `getFirstPlayable` are not part of this model. Their calls are returned as tags, or their results are taken as parameters.
- Those item classes and containers define the literal values of the scheme and root-id constants in files that are not part of this model. `file`, `folder`, `cue`, `cuetrack`, `m3u`, `m3ugroup` and `m3utrack` are the id prefixes the item classes are known by. `favorite`, `playlist`, `Folders`, `Favorites` and `Playlists` stand in for the rest. The proofs rely only on the values being distinct and free of ':'.
- The non-root branch of `getChildren`, `getItem(String, MediaLibResult)`, the `asMediaItem` projection and logging are left out because they are UI-facing async composition. `search` is left out because it is unimplemented.
- Futures, callbacks and `synchronized` are not modelled. Each cache operation is one atomic method. The completion of `getNextPlayable` is taken as already delivered in `SetLastPlayed`'s `next` parameter, with `None` for null or failure. So races between concurrent `getItem` calls, or between that callback and other writes, are not modelled.
- Collection timing is not modelled: `Collect` and `Enqueue` are explicit steps. `Collect` clears one reference at a time, where the Java collector clears all weak references to an unreachable item at once.
- `getDuration().getOrThrow()` failing is not modelled. The duration is a field of `PlayableItem`.
- A failed lookup or projection among the four results of the root listing is not modelled: `RootChildren` takes each position's outcome as already delivered, null or not. How `Async.forEach` treats a failing future is not part of this model.
- Playback.PastWatchedMark: the watched mark `position > dur * 0.9f` is approximated by the integer test `10 * position > 9 * dur`. The float product is rounded to 24 significant bits, so once 0.9 · dur reaches 2^22 (durations from about 4,660,000 ms, some 78 minutes) the two tests can disagree at the boundary position. For example, at duration 4,660,341 and position 4,194,307 Java does not mark the video watched and the model does.
- Playback.Decide: its choice between marking a video watched and saving its position uses that approximation, so it can differ from the Java decision at the same boundary positions.
