# Ferment API core, modelled in Dafny

Ferment's renderer-side API is built by `api/index.js`. It exports a
function of `(ssbClient, config)` that returns an object. That object:

- lazily constructs the profile store and exposes its readiness proxy;
- derives the discovery, following, profile and liked feeds from the store;
- builds the social-graph messages for follow, unfollow, like, unlike,
  repost, unrepost and display-name changes, and hands them to the log client;
- correlates blob requests with their asynchronous responses.

The model replaces the reactive runtime with plain values. The store's data
is a snapshot value, `Store.StoreData`. Each derived feed is a function of
that snapshot. The closure's mutable state is the class `Api.Ferment`.

Modules:

- `Basics`: `Option`, the opaque string ids, caller callbacks as tokens.
- `Store`: post handles, profiles and the store snapshot. `profiles.get` and
  `profiles.getPost` are the store's own total lookups, so the snapshot holds
  them as functions. `lookup` and `postLookup` are maps.
- `Reversal`: `reverse`. A reference function `Reversed`, and the method
  `Reverse` that fills a buffer by index as the source does.
- `Recency`: `sortedPostIds`. The engine sort is stable, so the model sorts
  by stable insertion. `StableNewestFirstUnique` proves that there is only
  one stable newest-first arrangement, so any stable sort gives this result.
- `Following`: the union inside `getFollowingFeed`. A reference function
  `FollowedPosts`, and the nested-loop method `FollowingPostIds`.
- `ItemLookup`: `lookupItems`, one slot per id plus the sync flag.
- `Messages`: the message builders, a reading of messages back into user
  actions, and how a submission outcome reaches the caller.
- `Blobs`: decimal rendering, `${windowId}-${seq}` ids, the module-level
  `callbacks` dictionary with its `response` handler, and `getBlobUrl`.
- `Api`: the log client, the profile store object, and `Ferment`, the
  returned object with its closure state.

Modelling choices:

- Calling a callback is recorded in `Ferment.events` or
  `CallbackRegistry.replies`. Throwing is recorded as the event `Raised`.
- The log client's outcome comes from the network. `LogClient.respond(n, m)`
  is a parameter: it is the answer to the n-th submission, message `m`.
- `Date.now()` is the constructor parameter `windowId`.
- `config.blobsPort` is a natural number, printed in decimal.
- A freshly constructed store has not synced yet (see "## Left out"). So
  the first `checkProfilesLoaded(cb)` always defers `cb`.
- Only that first call registers a deferred callback, so at most one
  continuation is ever waiting (`Ferment.deferred`).
- In the source, the only callback passed to `checkProfilesLoaded` is the
  one `follow` passes.

Where the code and the intended design differ, the model follows the code:

- `follow` does not always wait for the store to be ready. Only the first
  access defers its callback. On a later call the callback runs at once, so
  `isPub()` can be read from a store that has not synced yet. This is the
  `old(profiles) != null` case of `Ferment.CheckProfilesLoaded` and
  `Ferment.Follow`. `Api.EarlyFollowScenario` shows it: after one feed
  access, a follow is submitted while the readiness proxy still reads false.
  The model gives only this behaviour as written, not a variant that waits.
- Not every action treats a missing callback plus an error as fatal.
  `setOwnDisplayName` calls the log client directly through
  `(err) => cb && cb(err)`. Without a callback it drops the error, and with
  one it passes only the error (`Messages.DisplayNameDelivery`, contrasted
  with `publish` in `Messages.DisplayNameDropsWhatPublishThrows`).
- `following` is walked in its own order, so the model keeps it as a
  sequence, not a set.

## Model

| member | source | states |
|---|---|---|
| Reversal.Reverse | api/index.js:173-181 | the buffer filled at `length - 1 - i` with element i is exactly the reversal of the input |
| Reversal.ReversedAt | api/index.js:173-181 | reversal keeps the length and moves input index k to output index len-1-k |
| Reversal.ReversedPositions | api/index.js:173-181 | the same positional fact for every index at once |
| Reversal.ReversedTwice | api/index.js:173-181 | reversing twice gives the input back |
| Reversal.ReversedPermutes | api/index.js:173-181 | reversal is a permutation of the ids |
| Recency.InsertPermutes | api/index.js:169 | inserting one handle adds exactly that handle |
| Recency.InsertNewestFirst | api/index.js:169 | inserting into a newest-first list keeps it newest first |
| Recency.InsertStable | api/index.js:169 | an inserted handle comes before every later handle with its timestamp |
| Recency.SortPermutes | api/index.js:169 | the sort is a permutation of the resolved handles |
| Recency.SortNewestFirst | api/index.js:169 | timestamps never increase along the sorted list (comparator `b - a`) |
| Recency.SortStable | api/index.js:169 | for each timestamp, its handles keep their input order |
| Recency.SortByRecencyCorrect | api/index.js:169 | permutation, same length, newest first and stable, together |
| Recency.StableNewestFirstUnique | api/index.js:169 | two newest-first lists with the same order within each timestamp are equal |
| Recency.SortByRecencyIsTheStableSort | api/index.js:169 | any stable newest-first rearrangement of the handles is the model's sort |
| Recency.SortedPostIds | api/index.js:167-171 | for any store, one id comes out per id that goes in |
| Recency.SortedPostIdsCorrect | api/index.js:167-171 | when each handle carries its id, the output ids are a permutation of the input, newest first, equal timestamps in input order |
| Following.FollowingPostIds | api/index.js:36-45 | the nested push loops compute exactly the reference union |
| Following.FollowedPostsAppend | api/index.js:38-43 | the union over two follow lists is the concatenation of the two unions |
| Following.FollowedPostsBlock | api/index.js:38-43 | each followed profile's posts form one block in their own order, after those of earlier identities |
| Following.FollowedPostsMembership | api/index.js:36-45 | a post appears iff some followed identity with a profile has it; other profiles' posts never appear; identities without a profile add nothing |
| Following.FollowedPostsLength | api/index.js:36-45 | the union's length is the sum of the known followed profiles' post counts |
| ItemLookup.Resolve | api/index.js:203-205 | one slot per id, slot i is `postLookup.get(ids[i])`, absent for an unknown id |
| ItemLookup.LookupItems | api/index.js:202-209 | same length, slot i present iff its id is known and then holding that post, `sync` equal to the store's |
| ItemLookup.ResolveAppend | api/index.js:202-209 | looking up a concatenation is concatenating the lookups |
| ItemLookup.ResolveReversed | api/index.js:202-209 | looking up the reversed ids gives the reversed slots (the profile feed) |
| Messages.FollowMessage | api/index.js:94-101 | the message reads back, for any publisher, as a follow of the target |
| Messages.UnfollowMessage | api/index.js:105-107 | the message reads back as an unfollow of the target |
| Messages.LikeMessage | api/index.js:109-116 | a `ferment/like` message that reads back as a like of the id |
| Messages.UnlikeMessage | api/index.js:118-125 | a `ferment/like` message that reads back as an unlike of the id |
| Messages.RepostMessage | api/index.js:127-134 | a `ferment/repost` message that reads back as a repost of the id |
| Messages.UnrepostMessage | api/index.js:136-143 | a `ferment/repost` message that reads back as an unrepost of the id |
| Messages.AboutMessage | api/index.js:55-59 | an `about` message that reads back as a display-name change of its own author only |
| Messages.InterpretBuild | api/index.js:55-143 | every built message reads back as exactly the action it was built for |
| Messages.BuildInjective | api/index.js:55-143 | different actions never build the same message |
| Messages.FollowMessageShape | api/index.js:93-103 | the follow message targets the id, carries the configured scope, and has `pub` iff the target is a pub |
| Messages.LikeToggle | api/index.js:109-125 | like and unlike are both `ferment/like` links to the id, with value true and false |
| Messages.RepostToggle | api/index.js:127-143 | repost and unrepost are both `ferment/repost` links to the id, with value true and false |
| Messages.PublishDelivery | api/index.js:195-200 | a given callback receives the outcome verbatim; without one an error is thrown, never dropped, and a success is dropped |
| Messages.DisplayNameDelivery | api/index.js:55-61 | at most one event, present exactly when there is a callback; never a throw and never a message id; the error reaches the callback exactly when the submission failed |
| Messages.DisplayNameDropsWhatPublishThrows | api/index.js:55-61 | an error without a callback is thrown by `publish` but dropped here; a success gives `publish`'s callback the message id and this one nothing |
| Blobs.Decimal | api/index.js:151 | a number prints as one or more digits, at least two from 10 on |
| Blobs.DecimalInjective | api/index.js:151 | two numbers print the same iff they are equal |
| Blobs.BlobId | api/index.js:151 | the id is the window's digits, one dash, then the counter's digits; that dash is its only non-digit |
| Blobs.BlobIdInjective | api/index.js:151 | `${windowId}-${seq}` ids are equal iff window and counter are equal |
| Blobs.NextIdIsFresh | api/index.js:150-154 | the id for the current counter is none of the ids issued before |
| Blobs.CallbackRegistry.constructor | api/index.js:10 | the dictionary starts empty |
| Blobs.CallbackRegistry.Register | api/index.js:152 | `callbacks[id] = cb` overwrites that one key and nothing else |
| Blobs.CallbackRegistry.Respond | api/index.js:11-17 | a response for an id holding a callback removes only that entry and invokes only that callback, once; any other response changes nothing |
| Blobs.GetBlobUrl | api/index.js:156-162 | the URL starts with the blob server address; what follows is the id with one leading `blobstore:` removed |
| Blobs.PrefixedAndBareAgree | api/index.js:156-162 | `blobstore:k` and `k` give the same URL when `k` is not itself prefixed |
| Blobs.PrefixStrippedOnce | api/index.js:156-162 | only one leading `blobstore:` is removed |
| Api.LogClient.Publish | api/index.js:196 | a submission is appended and answered with that submission's outcome |
| Api.ProfileStore.constructor | api/index.js:185 | a freshly constructed store has not synced |
| Api.Ferment.constructor | api/index.js:19-27 | no store, an unset readiness proxy, counter 0, the scope of `config.friends` or none without that entry (`ScopeOf`), and the exported `id` is the log client's |
| Api.Ferment.Ready | api/index.js:186 | the exported proxy is unset exactly while there is no store, and then shows the store's own sync flag |
| Api.Ferment.Publish | api/index.js:195-200 | the message is submitted once and its outcome delivered by the callback-or-throw policy |
| Api.Ferment.Resume | api/index.js:94-102 | the follow continuation reads the target's `isPub` when it runs, then publishes the follow message |
| Api.Ferment.CheckProfilesLoaded | api/index.js:183-193 | the store is constructed on the first call only; the proxy then shows its sync flag; a readiness seen true stays true; the first call defers the callback, a later call runs it at once |
| Api.Ferment.StoreSynced | api/index.js:188 | when the store first syncs, the deferred continuation runs once and is cleared |
| Api.Ferment.GetDiscoveryFeed | api/index.js:28-31 | forces construction (a first access sees an unsynced store, so its result has `sync` false); the result is the looked-up, newest-first pub-friend posts; the blob counter is left unchanged |
| Api.Ferment.GetFollowingFeed | api/index.js:33-48 | forces construction (a first access sees an unsynced store, so its result has `sync` false); the result is the looked-up, newest-first union of followed posts; the blob counter is left unchanged |
| Api.Ferment.GetProfileFeed | api/index.js:50-53 | forces construction (a first access sees an unsynced store, so its result has `sync` false); the result is the looked-up reversal of the profile's posts; the blob counter is left unchanged |
| Api.Ferment.GetLikedFeedFor | api/index.js:63-67 | forces construction (a first access sees an unsynced store, so its result has `sync` false); the result is the looked-up likes in store order; the blob counter is left unchanged |
| Api.Ferment.SetOwnDisplayName | api/index.js:55-61 | submits an about message on the own id and delivers only the error, if there is a callback |
| Api.Ferment.Follow | api/index.js:93-103 | on first access nothing is published until the store syncs; later, the scoped follow message is published at once; the blob counter is left unchanged |
| Api.Ferment.Unfollow | api/index.js:105-107 | publishes the schema's unfollow message for the id |
| Api.Ferment.Like | api/index.js:109-116 | publishes the like link with value true |
| Api.Ferment.Unlike | api/index.js:118-125 | publishes the like link with value false |
| Api.Ferment.Repost | api/index.js:127-134 | publishes the repost link with value true |
| Api.Ferment.Unrepost | api/index.js:136-143 | publishes the repost link with value false |
| Api.Ferment.AddBlob | api/index.js:150-154 | the id is built from the window id and the counter, differs from every earlier id, and its callback is registered under it |

## Left out

- The reactive runtime (`computed` with `nextTick`, `MutantMap`, `Proxy`): each feed is computed once from a snapshot. Recomputation, subscriptions and their timing are not modelled.
- The IPC plumbing (`electron.ipcRenderer.send` and `on`): only the callback dictionary and the counter are modelled.
- Api.Ferment.AddBlob: has no `dataOrPath` parameter, because the payload only goes over IPC. It returns the id it sends, while the source returns nothing.
- The internals of `./profiles`, `ssb-msg-schemas` and `ssb-msgs` are foreign code. `Profiles(...)` is an object with a sync flag. The schema's follow and unfollow messages are kept only up to their target. `mlib.link(id)` is a link to the id.
- Signing, replication and the network behind `ssbClient.publish`: the outcome is a parameter of the log client. The asynchronous reply is delivered in the same step as the submission, so replies are not reordered against other events.
- The pass-through accessors `getProfile`, `getOwnProfile`, `rankProfileIds`, `getSuggestedProfiles` and `getPost`: they only forward to the store.
- Api.ProfileStore.constructor: `Profiles(...)` is foreign; the model fixes that a new store has not synced, so the immediate path of `onceTrue` (a store already synced when constructed) does not occur.
- Api.Ferment.StoreSynced: the store's sync flag is foreign; the model's store only ever turns it true, once. So the readiness proxy is monotone here, which holds in the source only if `./profiles` never clears it.
- Recency.SortedPostIdsCorrect: assumes that the store's `getPost(id)` handle carries `id`. Without that, the output is the handles' ids, and the lemma does not speak about it.
- Blobs.GetBlobUrl: takes a string id. The `id &&` guard matters only for `undefined` or `null`, which are not modelled. For the empty string it picks the same branch as the prefix test.
- Blobs.CallbackRegistry.Respond: JavaScript object keys inherited from the prototype (such as `constructor`) are not modelled.
- Blobs.BlobId: the counter is unbounded. JavaScript numbers lose precision past 2^53, which is not modelled.
- Api.Ferment: if two API objects are created in the same millisecond, they share a window id and both start their counters at 0, so their ids collide. The model does not rule this out.
- `models/torrent-status.js`: a status record with no invariants of interest.
