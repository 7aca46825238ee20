/** The object `module.exports(ssbClient, config)` returns, with the closure
    state it keeps: the lazily constructed profile store, the readiness
    proxy, the blob counter. The profile store's data is foreign and
    reactive; each accessor reads it as a `StoreData` snapshot given by the
    caller, and each derived feed is computed once from that snapshot. */
module Api {
  import opened Basics
  import opened Store
  import opened Messages
  import Reversal
  import Recency
  import Following
  import ItemLookup
  import Blobs

  /** The log client (`ssbClient`): its own id, and a publish step that
      appends a message and reports an outcome. The outcome is the
      network's business; `respond(n, m)` is what the log answers to the
      n-th submission, message `m`. */
  class LogClient {
    const id: Identity
    const respond: (nat, Message) -> SubmitResult
    var submitted: seq<Message>

    constructor (id: Identity, respond: (nat, Message) -> SubmitResult)
      ensures this.id == id && this.respond == respond && submitted == []
    {
      this.id := id;
      this.respond := respond;
      submitted := [];
    }

    method Publish(m: Message) returns (r: SubmitResult)
      modifies this
      ensures submitted == old(submitted) + [m]
      ensures r == respond(|old(submitted)|, m)
    {
      r := respond(|submitted|, m);
      submitted := submitted + [m];
    }
  }

  /** The object `Profiles(ssbClient, config)` constructs; the core reads
      only its `sync` signal, which is false until the initial sync is done. */
  class ProfileStore {
    var sync: bool

    constructor ()
      ensures !sync
    {
      sync := false;
    }
  }

  /** The configuration the core reads: `config.friends` and `config.blobsPort`. */
  datatype Friends = Friends(scope: Option<Scope>)
  datatype Config = Config(friends: Option<Friends>, blobsPort: nat)

  /** `(config.friends || {}).scope`. */
  function ScopeOf(config: Config): (s: Option<Scope>)
    ensures config.friends.None? ==> s.None?
    ensures config.friends.Some? ==> s == config.friends.value.scope
  {
    match config.friends
    case Some(f) => f.scope
    case None => None
  }

  /** The callback `follow` hands to `checkProfilesLoaded`. */
  datatype Continuation = FollowThen(target: Identity, cb: Option<Callback>)

  class Ferment {
    const client: LogClient
    const registry: Blobs.CallbackRegistry
    const scope: Option<Scope>
    const blobsPort: nat
    const windowId: nat
    /** The exported `id`. */
    const id: Identity
    var blobSeq: nat
    var profiles: ProfileStore?
    var profilesLoaded: ProfileStore?
    var deferred: Option<Continuation>
    var events: seq<Event>
    ghost var constructions: nat
    ghost var issued: set<string>

    /** The closure's invariant: the store exists exactly when it has been
        constructed, and then once; the readiness proxy points at it; a
        continuation waits only while the store has not synced; `issued`
        holds the blob ids handed out so far. */
    ghost predicate Valid()
      reads this, profiles
    {
      && constructions <= 1
      && (profiles == null <==> constructions == 0)
      && profilesLoaded == profiles
      && (deferred.Some? ==> profiles != null && !profiles.sync)
      && issued == Blobs.IssuedIds(windowId, blobSeq)
    }

    /** The value of the exported `profilesLoaded` proxy: unset until the
        store exists, then whatever the store's own sync flag says. */
    function Ready(): (r: Option<bool>)
      reads this, profilesLoaded, profiles
      ensures Valid() ==> (r.None? <==> profiles == null)
      ensures Valid() && profiles != null ==> r == Some(profiles.sync)
    {
      if profilesLoaded == null then None else Some(profilesLoaded.sync)
    }

    constructor (client: LogClient, registry: Blobs.CallbackRegistry, config: Config, windowId: nat)
      ensures Valid()
      ensures this.client == client && this.registry == registry
      ensures scope == ScopeOf(config) && blobsPort == config.blobsPort && this.windowId == windowId
      ensures id == client.id
      ensures profiles == null && Ready() == None && deferred == None
      ensures blobSeq == 0 && events == [] && constructions == 0
    {
      this.client := client;
      this.registry := registry;
      scope := ScopeOf(config);
      blobsPort := config.blobsPort;
      this.windowId := windowId;
      id := client.id;
      blobSeq := 0;
      profiles := null;
      profilesLoaded := null;
      deferred := None;
      events := [];
      constructions := 0;
      issued := {};
    }

    /** `publish(message, cb)`: submit, then deliver the outcome by the
        callback-or-throw policy. */
    method Publish(m: Message, cb: Option<Callback>)
      requires Valid()
      modifies this, client
      ensures Valid()
      ensures client.submitted == old(client.submitted) + [m]
      ensures events == old(events) + PublishDelivery(cb, client.respond(|old(client.submitted)|, m))
      ensures profiles == old(profiles) && profilesLoaded == old(profilesLoaded) && deferred == old(deferred)
      ensures blobSeq == old(blobSeq) && constructions == old(constructions) && issued == old(issued)
    {
      var r := client.Publish(m);
      events := events + PublishDelivery(cb, r);
    }

    /** Running the follow continuation: read the target's profile now,
        build the follow message and publish it. */
    method Resume(c: Continuation, data: StoreData)
      requires Valid()
      modifies this, client
      ensures Valid()
      ensures client.submitted == old(client.submitted) + [FollowMessage(c.target, scope, data.get(c.target).isPub)]
      ensures events == old(events) + PublishDelivery(c.cb,
        client.respond(|old(client.submitted)|, FollowMessage(c.target, scope, data.get(c.target).isPub)))
      ensures profiles == old(profiles) && profilesLoaded == old(profilesLoaded) && deferred == old(deferred)
      ensures blobSeq == old(blobSeq) && constructions == old(constructions) && issued == old(issued)
    {
      var profile := data.get(c.target);
      var msg := FollowMessage(c.target, scope, profile.isPub);
      Publish(msg, c.cb);
    }

    /** `checkProfilesLoaded(cb)`. On the first call: construct the store,
        point the readiness proxy at its sync flag and, given a callback,
        register it to run when the store first syncs (a fresh store has not
        synced). On a later call: run a given callback at once. The store is
        constructed on the first call and never again. */
    method CheckProfilesLoaded(cb: Option<Continuation>, data: StoreData)
      requires Valid()
      modifies this, client
      ensures Valid()
      ensures profiles != null && constructions == 1
      ensures Ready() == Some(profiles.sync)
      ensures old(Ready()) == Some(true) ==> Ready() == Some(true)
      ensures old(profiles) == null ==>
        && fresh(profiles) && !profiles.sync && deferred == cb
        && client.submitted == old(client.submitted) && events == old(events)
      ensures old(profiles) != null ==> profiles == old(profiles) && deferred == old(deferred)
      ensures old(profiles) != null && cb.None? ==>
        client.submitted == old(client.submitted) && events == old(events)
      ensures old(profiles) != null && cb.Some? ==>
        var msg := FollowMessage(cb.value.target, scope, data.get(cb.value.target).isPub);
        && client.submitted == old(client.submitted) + [msg]
        && events == old(events) + PublishDelivery(cb.value.cb, client.respond(|old(client.submitted)|, msg))
      ensures blobSeq == old(blobSeq) && issued == old(issued)
    {
      if profiles == null {
        profiles := new ProfileStore();
        constructions := constructions + 1;
        profilesLoaded := profiles;
        if cb.Some? {
          deferred := cb;
        }
      } else if cb.Some? {
        Resume(cb.value, data);
      }
    }

    /** The store's sync signal turns true: the continuation registered by
        the first `checkProfilesLoaded` call, if any, runs once against the
        store's data at that moment. */
    method StoreSynced(data: StoreData)
      requires Valid() && profiles != null
      modifies this, profiles, client
      ensures Valid()
      ensures profiles == old(profiles) && profiles.sync && Ready() == Some(true)
      ensures deferred == None
      ensures old(deferred).None? ==> client.submitted == old(client.submitted) && events == old(events)
      ensures old(deferred).Some? ==>
        var c := old(deferred).value;
        var msg := FollowMessage(c.target, scope, data.get(c.target).isPub);
        && client.submitted == old(client.submitted) + [msg]
        && events == old(events) + PublishDelivery(c.cb, client.respond(|old(client.submitted)|, msg))
      ensures constructions == old(constructions) && blobSeq == old(blobSeq) && issued == old(issued)
    {
      profiles.sync := true;
      if deferred.Some? {
        var c := deferred.value;
        deferred := None;
        Resume(c, data);
      }
    }

    // ----- feed accessors -----

    /** `getDiscoveryFeed`: the store's pub-friend posts, newest first, looked up. */
    method GetDiscoveryFeed(data: StoreData) returns (r: ItemLookup.LookupResult)
      requires Valid()
      modifies this, client
      ensures Valid() && profiles != null && constructions == 1
      ensures old(profiles) == null ==> fresh(profiles) && !profiles.sync
      ensures old(profiles) != null ==> profiles == old(profiles)
      ensures deferred == old(deferred) && events == old(events) && client.submitted == old(client.submitted)
      ensures blobSeq == old(blobSeq) && issued == old(issued)
      ensures r == ItemLookup.LookupItems(
        Recency.SortedPostIds(data.pubFriendPostIds, data.getPost), data.postLookup, profiles.sync)
    {
      CheckProfilesLoaded(None, data);
      var ids := Recency.SortedPostIds(data.pubFriendPostIds, data.getPost);
      r := ItemLookup.LookupItems(ids, data.postLookup, profiles.sync);
    }

    /** `getFollowingFeed`: the posts of every followed identity the store
        knows, newest first, looked up. */
    method GetFollowingFeed(data: StoreData) returns (r: ItemLookup.LookupResult)
      requires Valid()
      modifies this, client
      ensures Valid() && profiles != null && constructions == 1
      ensures old(profiles) == null ==> fresh(profiles) && !profiles.sync
      ensures old(profiles) != null ==> profiles == old(profiles)
      ensures deferred == old(deferred) && events == old(events) && client.submitted == old(client.submitted)
      ensures blobSeq == old(blobSeq) && issued == old(issued)
      ensures r == ItemLookup.LookupItems(
        Recency.SortedPostIds(Following.FollowedPosts(data.get(client.id).following, data.lookup), data.getPost),
        data.postLookup, profiles.sync)
    {
      CheckProfilesLoaded(None, data);
      var profile := data.get(client.id);
      var postIds := Following.FollowingPostIds(profile.following, data.lookup);
      var ids := Recency.SortedPostIds(postIds, data.getPost);
      r := ItemLookup.LookupItems(ids, data.postLookup, profiles.sync);
    }

    /** `getProfileFeed(id)`: the profile's posts in reverse order, looked up. */
    method GetProfileFeed(id: Identity, data: StoreData) returns (r: ItemLookup.LookupResult)
      requires Valid()
      modifies this, client
      ensures Valid() && profiles != null && constructions == 1
      ensures old(profiles) == null ==> fresh(profiles) && !profiles.sync
      ensures old(profiles) != null ==> profiles == old(profiles)
      ensures deferred == old(deferred) && events == old(events) && client.submitted == old(client.submitted)
      ensures blobSeq == old(blobSeq) && issued == old(issued)
      ensures r == ItemLookup.LookupItems(Reversal.Reversed(data.get(id).posts), data.postLookup, profiles.sync)
    {
      CheckProfilesLoaded(None, data);
      var ids := Reversal.Reverse(data.get(id).posts);
      r := ItemLookup.LookupItems(ids, data.postLookup, profiles.sync);
    }

    /** `getLikedFeedFor(id)`: the profile's likes in store order, looked up. */
    method GetLikedFeedFor(id: Identity, data: StoreData) returns (r: ItemLookup.LookupResult)
      requires Valid()
      modifies this, client
      ensures Valid() && profiles != null && constructions == 1
      ensures old(profiles) == null ==> fresh(profiles) && !profiles.sync
      ensures old(profiles) != null ==> profiles == old(profiles)
      ensures deferred == old(deferred) && events == old(events) && client.submitted == old(client.submitted)
      ensures blobSeq == old(blobSeq) && issued == old(issued)
      ensures r == ItemLookup.LookupItems(data.get(id).likes, data.postLookup, profiles.sync)
    {
      CheckProfilesLoaded(None, data);
      r := ItemLookup.LookupItems(data.get(id).likes, data.postLookup, profiles.sync);
    }

    // ----- actions -----

    /** `setOwnDisplayName(name, cb)`. */
    method SetOwnDisplayName(name: string, cb: Option<Callback>)
      requires Valid()
      modifies this, client
      ensures Valid()
      ensures client.submitted == old(client.submitted) + [AboutMessage(client.id, name)]
      ensures events == old(events)
        + DisplayNameDelivery(cb, client.respond(|old(client.submitted)|, AboutMessage(client.id, name)))
      ensures profiles == old(profiles) && deferred == old(deferred) && blobSeq == old(blobSeq)
    {
      var r := client.Publish(AboutMessage(client.id, name));
      events := events + DisplayNameDelivery(cb, r);
    }

    /** `follow(id, cb)`: the follow message is built inside the
        continuation given to `checkProfilesLoaded`, so on the first access
        nothing is published until the store syncs. */
    method Follow(id: Identity, cb: Option<Callback>, data: StoreData)
      requires Valid()
      modifies this, client
      ensures Valid() && profiles != null && constructions == 1
      ensures old(profiles) == null ==>
        && fresh(profiles) && !profiles.sync && deferred == Some(FollowThen(id, cb))
        && client.submitted == old(client.submitted) && events == old(events)
      ensures old(profiles) != null ==>
        var msg := FollowMessage(id, scope, data.get(id).isPub);
        && profiles == old(profiles) && deferred == old(deferred)
        && client.submitted == old(client.submitted) + [msg]
        && events == old(events) + PublishDelivery(cb, client.respond(|old(client.submitted)|, msg))
      ensures blobSeq == old(blobSeq) && issued == old(issued)
    {
      CheckProfilesLoaded(Some(FollowThen(id, cb)), data);
    }

    method Unfollow(id: Identity, cb: Option<Callback>)
      requires Valid()
      modifies this, client
      ensures Valid()
      ensures client.submitted == old(client.submitted) + [UnfollowMessage(id)]
      ensures events == old(events) + PublishDelivery(cb, client.respond(|old(client.submitted)|, UnfollowMessage(id)))
      ensures profiles == old(profiles) && deferred == old(deferred) && blobSeq == old(blobSeq)
    {
      Publish(UnfollowMessage(id), cb);
    }

    method Like(id: string, cb: Option<Callback>)
      requires Valid()
      modifies this, client
      ensures Valid()
      ensures client.submitted == old(client.submitted) + [LikeMessage(id)]
      ensures events == old(events) + PublishDelivery(cb, client.respond(|old(client.submitted)|, LikeMessage(id)))
      ensures profiles == old(profiles) && deferred == old(deferred) && blobSeq == old(blobSeq)
    {
      Publish(LikeMessage(id), cb);
    }

    method Unlike(id: string, cb: Option<Callback>)
      requires Valid()
      modifies this, client
      ensures Valid()
      ensures client.submitted == old(client.submitted) + [UnlikeMessage(id)]
      ensures events == old(events) + PublishDelivery(cb, client.respond(|old(client.submitted)|, UnlikeMessage(id)))
      ensures profiles == old(profiles) && deferred == old(deferred) && blobSeq == old(blobSeq)
    {
      Publish(UnlikeMessage(id), cb);
    }

    method Repost(id: string, cb: Option<Callback>)
      requires Valid()
      modifies this, client
      ensures Valid()
      ensures client.submitted == old(client.submitted) + [RepostMessage(id)]
      ensures events == old(events) + PublishDelivery(cb, client.respond(|old(client.submitted)|, RepostMessage(id)))
      ensures profiles == old(profiles) && deferred == old(deferred) && blobSeq == old(blobSeq)
    {
      Publish(RepostMessage(id), cb);
    }

    method Unrepost(id: string, cb: Option<Callback>)
      requires Valid()
      modifies this, client
      ensures Valid()
      ensures client.submitted == old(client.submitted) + [UnrepostMessage(id)]
      ensures events == old(events) + PublishDelivery(cb, client.respond(|old(client.submitted)|, UnrepostMessage(id)))
      ensures profiles == old(profiles) && deferred == old(deferred) && blobSeq == old(blobSeq)
    {
      Publish(UnrepostMessage(id), cb);
    }

    // ----- blobs -----

    /** `addBlob(dataOrPath, cb)`: take the next correlation id, register the
        callback under it and (not modelled) send the request; the id is
        returned here so that callers can name it. */
    method AddBlob(cb: Option<Callback>) returns (id: string)
      requires Valid()
      modifies this, registry
      ensures Valid()
      ensures id == Blobs.BlobId(windowId, old(blobSeq))
      ensures id !in old(issued) && issued == old(issued) + {id}
      ensures blobSeq == old(blobSeq) + 1
      ensures registry.callbacks == old(registry.callbacks)[id := cb]
      ensures registry.replies == old(registry.replies)
      ensures profiles == old(profiles) && deferred == old(deferred) && events == old(events)
    {
      id := Blobs.BlobId(windowId, blobSeq);
      Blobs.NextIdIsFresh(windowId, blobSeq);
      blobSeq := blobSeq + 1;
      issued := issued + {id};
      assert issued == Blobs.IssuedIds(windowId, blobSeq);
      registry.Register(id, cb);
    }
  }

  // ----- clients of the contracts above -----

  /** Two blob requests from one window get different ids; answering the
      first invokes only its callback, once, and leaves the second pending. */
  method BlobScenario() {
    var registry := new Blobs.CallbackRegistry();
    var client := new LogClient("@me", (n: nat, m: Message) => Published("%msg"));
    var api := new Ferment(client, registry, Config(None, 7777), 1500000000000);
    var first := api.AddBlob(Some(Callback(1)));
    var second := api.AddBlob(Some(Callback(2)));
    assert first != second;
    registry.Respond(first, ["blobstore:abc"]);
    assert registry.replies == [Blobs.BlobReply(Callback(1), ["blobstore:abc"])];
    assert first !in registry.callbacks && registry.callbacks[second] == Some(Callback(2));
    registry.Respond(first, ["late"]);
    assert registry.replies == [Blobs.BlobReply(Callback(1), ["blobstore:abc"])];
  }

  /** Feed accesses and follows between two blob requests leave the
      counter alone, so the two ids still differ. */
  method InterleavedBlobScenario(data: StoreData) {
    var registry := new Blobs.CallbackRegistry();
    var client := new LogClient("@me", (n: nat, m: Message) => Published("%msg"));
    var api := new Ferment(client, registry, Config(None, 7777), 0);
    var first := api.AddBlob(Some(Callback(1)));
    var feed := api.GetDiscoveryFeed(data);
    api.Follow("@pub", None, data);
    var posts := api.GetProfileFeed("@pub", data);
    var second := api.AddBlob(Some(Callback(2)));
    assert first != second;
  }

  /** A follow issued as the very first access waits for the store's
      initial sync, and then publishes a scoped, pub-marked message. */
  method FollowScenario(data: StoreData)
    requires data.get("@pub").isPub
  {
    var registry := new Blobs.CallbackRegistry();
    var client := new LogClient("@me", (n: nat, m: Message) => Published("%msg"));
    var api := new Ferment(client, registry, Config(Some(Friends(Some("public"))), 7777), 0);
    api.Follow("@pub", Some(Callback(7)), data);
    assert client.submitted == [] && api.Ready() == Some(false);
    api.StoreSynced(data);
    assert client.submitted == [Follow("@pub", Some("public"), true)];
    assert api.events == [Replied(Callback(7), Published("%msg"))];
  }

  /** A follow issued after some other access is published at once, even
      though the store has not synced: `isPub` is read from an unsynced
      store. */
  method EarlyFollowScenario(data: StoreData) {
    var registry := new Blobs.CallbackRegistry();
    var client := new LogClient("@me", (n: nat, m: Message) => Published("%msg"));
    var api := new Ferment(client, registry, Config(None, 7777), 0);
    var feed := api.GetDiscoveryFeed(data);
    assert !feed.sync && api.Ready() == Some(false);
    api.Follow("@pub", Some(Callback(7)), data);
    assert client.submitted == [FollowMessage("@pub", None, data.get("@pub").isPub)];
    assert api.Ready() == Some(false) && api.deferred == None;
  }

  /** Without a callback a failed like is thrown, while a failed display
      name change is dropped. */
  method ErrorScenario() {
    var registry := new Blobs.CallbackRegistry();
    var client := new LogClient("@me", (n: nat, m: Message) => Failed("offline"));
    var api := new Ferment(client, registry, Config(None, 7777), 0);
    api.Like("%post", None);
    assert api.events == [Raised("offline")];
    api.SetOwnDisplayName("me", None);
    assert api.events == [Raised("offline")];
    assert client.submitted == [LikeMessage("%post"), AboutMessage("@me", "me")];
  }
}
