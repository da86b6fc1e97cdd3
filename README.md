# Jellyfin Rich Presence — a Dafny model

This project models the core of a Vencord plugin that shows what a Jellyfin
user is playing as a Discord activity. The plugin does three things:

- **Session selection.** It polls the server's `/Sessions` list and keeps the
  sessions of the configured user that are not paused, have an item playing,
  and whose item type is enabled. The first survivor is used.
- **Activity assembly.** It dispatches on the item type through a handler
  table (`Audio`, `Movie`). It memoizes the handler's metadata per item id in
  `metadataCache`, merges progress fields over metadata fields, resolves an
  image asset, and builds the activity object.
- **Connection-policy pre-flight.** Before polling starts, it checks the
  hosts of the `overrides` table in order and prompts for each host not yet
  allowed. The first refused prompt ends the walk with a failure alert.
  Otherwise it offers a relaunch if any prompt was needed, and runs the
  callback if none was.

Modules:

- `Seqs` holds the JavaScript built-ins the code relies on: `filter`,
  `join`, and a find-first search.
- `Js` holds the JavaScript semantics the code relies on: missing property
  reads as `undefined`, truthiness, `??`, and object spread.
- `Handlers` models `handlers.ts`. It is pure.
- `Csp` models `csp.ts`. The `overrides` object becomes class `Overrides`:
  a map plus its insertion-ordered key list. `ensureAllOverrides` becomes a
  loop proved against the recursive `Decide`.
- `Presence` models `index.ts`. The plugin object becomes class `Plugin`,
  with `metadataCache` and `updateInterval` as fields. `buildActivity` and
  `update` are methods proved against the pure `Build` and `Poll`.

Everything outside the plugin is an input:

- the server's answer to the sessions request;
- the Cover Art Archive and TMDB answers;
- the asset resolver;
- `getMetadata` and `getProgress`;
- the native answers of the pre-flight (one `Reply` per table entry).

Dispatching an event is modelled as returning the `LOCAL_ACTIVITY_UPDATE`
value. Setting a timer is modelled as storing a `Timer` with its period.

The model follows the code:

- The cache holds the handler's whole metadata object.
- The movie handler has no director or country enrichment.
- There is no episode handler.
- `index.ts:83,89` calls `handler.getMetadata` and `handler.getProgress`.
  Neither exists in `handlers.ts`, which defines only `getActivity` and
  `getImage`. As written, both calls would throw a `TypeError` for every
  handled item. The model takes the two functions as parameters of
  `buildActivity`, with no interpretation.

Behaviour of the code that the model keeps:

- **`poster_path` is `null` or missing.** `movieHandler.getImage` then returns
  `"http://image.tmdb.org/t/p/w500null"` or `"http://image.tmdb.org/t/p/w500undefined"`,
  because JavaScript's `+` turns `null` into `"null"` and `undefined` into
  `"undefined"` (`Handlers.PathText`).
- **Cached `undefined`.** A metadata value of `undefined` is stored in the
  cache but treated as a miss on the next call (`Presence.Cached`).
- **`stop()`.** It clears the timer but does not reset the
  `updateInterval` field.
- **`shows` and `books`.** They are read but never declared as settings, so
  with nothing stored Episode and Book items are always dropped.

## Model

| member | source | states |
|---|---|---|
| `Seqs.Filter` | index.ts:60-72 | Every element of the result is an input element that satisfies the predicate; every input element that satisfies it occurs in the result; the result is no longer than the input. |
| `Seqs.FilterMultiset` | index.ts:60-72 | Each element that satisfies the predicate occurs in the result exactly as often as in the input, and every other element occurs zero times. |
| `Seqs.FilterIsSubsequence` | index.ts:60 | The filtered list is an order-preserving subsequence of the input. |
| `Seqs.FindFirst` | handlers.ts:29-33 | Returns the index of an element satisfying the predicate with none before it, or None exactly when no element satisfies it. |
| `Seqs.FilterHeadIsFirst` | index.ts:60-128 | The first survivor of a filter is the element at the first index that satisfies the predicate. |
| `Seqs.JoinAppend` | handlers.ts:15 | Joining two non-empty lists puts exactly one separator between the two joined halves. |
| `Seqs.JoinLength` | handlers.ts:15 | A join has the length of all elements plus one separator per gap. |
| `Js.Merge` | index.ts:87-90 | `{...metadata, ...progress}` holds the union of both key sets; a progress field overrides a metadata field of the same name; other metadata fields are kept. Spreading `undefined` or `null` adds nothing. |
| `Handlers.HandlerFor` | handlers.ts:70-73 | The handler table maps `Audio` to the audio handler and `Movie` to the movie handler; every other type has no handler. |
| `Handlers.ProviderLink` | handlers.ts:14-16 | The link is `undefined` exactly when the provider id is missing or empty. Otherwise it is the prefix followed by the id, so the id can be recovered from the link. |
| `Handlers.AudioActivity` | handlers.ts:7-19 | The record has exactly seven fields. `details` is the name and `state` is the artists joined with `", "`. `detailsURL` and `stateURL` are MusicBrainz recording and artist links, or `undefined`. `image` is the album. Type is listening and status type is state. |
| `Handlers.MovieActivity` | handlers.ts:44-52 | The record has exactly five fields. `details` is the name. `detailsURL` is the first external URL, `undefined` exactly when there is none. `state` is the production year, `undefined` exactly when it is absent. Type is watching and status type is details. |
| `Handlers.AudioImage` | handlers.ts:21-38 | `null` without a truthy release id. Otherwise the release page is requested, and the result is non-null exactly when the answer is ok and has a front image. It is then the small thumbnail of the first front image. |
| `Handlers.AudioImageIgnoresLaterImages` | handlers.ts:29-33 | Images after the first front image do not affect the result. |
| `Handlers.MovieImage` | handlers.ts:54-67 | The result is non-null exactly when the TMDB key is set, the item has a TMDB id, and the details request (`/3/movie/<id>?api_key=<key>`) answers ok. It is then the poster base URL followed by `poster_path`, with `null` rendered as "null" and a missing field as "undefined". |
| `Handlers.NoProviderIdsNoEnrichment` | handlers.ts:14-57 | An item without provider ids gets no MusicBrainz links and no image from either handler, whatever the services answer. |
| `Csp.KeySetMember` | csp.ts:4-9 | A host is in the key set of the table exactly when it is in the ordered key list. |
| `Csp.KeySetAppend` | csp.ts:12 | Appending a host to the key list adds exactly that host to the key set. |
| `Csp.DistinctAppend` | csp.ts:12 | Appending a host not yet present keeps the key list free of duplicates. |
| `Csp.DistinctAt` | csp.ts:4-9 | A duplicate-free key list has no host at two positions. |
| `Csp.EntriesAt` | csp.ts:18 | Entry `i` of the iteration is host `i` of the key order, paired with its directives. |
| `Csp.DecideCharacterized` | csp.ts:16-50 | The loop's outcome equals a loop-free description. The first refused entry (not allowed, answer not "ok") gives the failure alert, recorded with the host at which the walk stopped (the alert's text names no host). Without a refusal, any prompt gives the relaunch alert. Otherwise the callback runs. |
| `Csp.ChecksUpToAt` | csp.ts:18-22 | Check `j` is of entry `j`, and it prompts exactly when that entry was not allowed. |
| `Csp.StopAtRefusal` | csp.ts:26-35 | With a first refusal at entry `i`, iteration stops after checking `i + 1` entries. |
| `Csp.StopAtEnd` | csp.ts:18-38 | Without a refusal, every entry is checked. |
| `Csp.CallbackIffAllAllowed` | csp.ts:16-50 | The callback runs if and only if every entry was already allowed, so no prompt was issued. |
| `Csp.RefusalStops` | csp.ts:21-35 | The first refusal ends the pre-flight with the failure alert (recorded with the refused host, which the alert itself does not show), and no later entry is checked. |
| `Csp.AcceptedPromptMeansRelaunch` | csp.ts:24-47 | With no refusal and at least one prompt, the relaunch alert is shown (not the callback), after every entry was checked. |
| `Csp.Overrides.constructor` | csp.ts:4-9 | The initial table is the four listed hosts in declaration order, each mapped to `["connect-src"]`. |
| `Csp.Overrides.AddOverride` | csp.ts:11-13 | Sets the host's directives and leaves every other entry unchanged; a new host goes last, an existing host keeps its place. |
| `Csp.Overrides.EnsureAllOverrides` | csp.ts:15-51 | Walks the entries in table order. The outcome is the one `Decide` gives for the host's answers. The checks issued are those of the entries up to the stopping point, with a prompt exactly for entries not allowed. |
| `Presence.GetSessions` | index.ts:60-72 | Every survivor is a server session of the configured user, not paused, with an item whose type is enabled. Every server session meeting all of that survives. |
| `Presence.GetSessionsKeepsOrder` | index.ts:60 | The survivors are an order-preserving subsequence of the server's list. |
| `Presence.FirstSurvivorIsFirstEligible` | index.ts:60-128 | The first survivor is the first eligible session in server order. |
| `Presence.DefaultTypeGate` | index.ts:66-71 | With the default settings, Episode and Book items are dropped and every other type passes. |
| `Presence.AssetKey` | index.ts:92 | The asset key is `activity.imageURL` unless it is `undefined`/`null`, and the handler's icon otherwise. |
| `Presence.Assemble` | index.ts:94-112 | The activity carries the application id and name, the instance flag, and the merged record's fields. `large_image` is the resolved asset. `large_text` is `imageCaption`, or `null` when it is nullish. `small_image` and `small_text` are always `null`. |
| `Presence.Build` | index.ts:76-116 | With no handler, the result is `null` and the cache is unchanged. The metadata function is called exactly when the item's cache entry is missing or `undefined`, and its result is then stored under the item id. No other cache key changes. The activity uses the cached or new metadata merged with progress. |
| `Presence.MemoizedRebuild` | index.ts:81-85 | Once an item's metadata is cached (and is not `undefined`), a later build for the same session makes no lookup. It leaves the cache alone and yields the same activity, even if the metadata function now answers differently. |
| `Presence.PollPeriodMs` | index.ts:36 | The polling period is at least 10000 ms and at least `updateTime` seconds, and is one of the two. |
| `Presence.Poll` | index.ts:118-130 | Nothing is dispatched unless URL, API key and username are all set, or when the sessions request fails. Otherwise the update dispatches `null` for no surviving session, or the activity of the first survivor, with the cache that build leaves. |
| `Presence.PublishedActivityIsFirstEligible` | index.ts:60-130 | A published activity is built from the first session in the server's list that belongs to the configured user, is not paused, and passes the type gate. |
| `Presence.Plugin.constructor` | index.ts:75 | The cache starts empty and no timer is set. |
| `Presence.Plugin.BuildActivity` | index.ts:76-116 | The returned activity, the new `metadataCache` and the lookup flag are those `Build` gives for the old cache. |
| `Presence.Plugin.Update` | index.ts:118-130 | The dispatched event and the new `metadataCache` are those `Poll` gives for the old cache. |
| `Presence.Plugin.Start` | index.ts:32-40 | Without a server URL nothing changes. Otherwise the URL is added with `connect-src` and the pre-flight runs. Only when the pre-flight calls back is a timer of `max(updateTime, 10) * 1000` ms set and a first update run. |
| `Presence.Plugin.Stop` | index.ts:42-49 | Clears the timer the plugin holds, if any, and dispatches the empty activity on the `Jellyfin` socket. |

## Left out

- `settings.ts` is a declarative option schema with no behaviour. The model keeps its defaults as `Presence.DefaultSettings`.
- Network requests and JSON decoding are left out. The sessions, Cover Art Archive and TMDB answers are inputs. A failed sessions request or an undecodable answer is `None`, which rejects `update` before anything is dispatched. Failures inside the image functions are not modelled: a missing `images` list, or a rejected request, makes them throw.
- `FluxDispatcher.dispatch` is modelled as the returned `Dispatch` value.
- `ApplicationAssetUtils.fetchAssetIds` is a function parameter that returns the first id. A rejection of that call is not modelled.
- `setInterval` and `clearInterval` are modelled as the stored and the returned `Timer`. The timer's later firings are not modelled.
- `VencordNative.csp.isDomainAllowed` and `requestAddOverride` are modelled as a sequence of replies, one per table entry.
- `Alerts.show` and `relaunch` are modelled as the `Outcome`.
- The Retry button of the failure alert, which re-enters `ensureAllOverrides` (csp.ts:32), is left out. It is driven by the user interface.
- Asynchronous interleaving is left out: overlapping poll cycles, and a pre-flight that `start` does not wait for. Every call runs to completion in order.
- `handler.getMetadata` and `handler.getProgress` are parameters, because `handlers.ts` does not define them. The `TypeError` that calling them would raise is not modelled.
- Their results are typed as `undefined`, `null` or an object. Spreading a string, which would add index-named fields, is not modelled.
- `handlers.getActivity` and `handlers.getImage` are modelled on their own, because `index.ts` never calls them.
- The handler-table lookup `handlers[item.Type]` can return an inherited prototype property (for a type such as `"toString"`). The model treats every type other than `Audio` and `Movie` as having no handler.
- The `Object.entries` order puts integer-like keys first. The model uses plain insertion order, which is what host URLs get.
- A `poster_path` of another JSON type (a number, an object) is not modelled; `Handlers.PosterPath` covers a string, `null` and a missing field.
- A numeric `updateTime` is modelled as an integer. Fractional values and `NaN` are left out.
- Discord's enumeration values are written as constants: listening 2, watching 3, status display state 1 and details 2, instance flag 1.
- The logger import (index.ts:25) is unused.
- The code has no episode handler, no director or country-flag enrichment and no tick-to-millisecond conversion; neither does the model.
- `Presence.Build`: a call of the metadata function cannot be observed on pure inputs. The contract reports it as the `lookedUp` flag.
