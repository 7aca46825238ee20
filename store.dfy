/** The read side of the external profile store, as one snapshot of its
    state. The store itself (loading, replication, its reactive values) is
    foreign code; the core only reads these values. */
module Store {
  import opened Basics

  /** A post handle: its id and its (recoverable) timestamp. */
  datatype Post = Post(id: PostId, timestamp: int)

  /** The per-identity aggregate the store keeps. */
  datatype Profile = Profile(
    following: seq<Identity>,
    posts: seq<PostId>,
    likes: seq<PostId>,
    isPub: bool)

  /** What the store exposes at one moment:
      - `get`: `profiles.get(id)`, total (the store hands out a profile for any id);
      - `lookup`: `profiles.lookup`, the profiles the store actually knows;
      - `getPost`: `profiles.getPost(id)`, total (a handle for any id);
      - `postLookup`: `profiles.postLookup`, the posts the store actually knows;
      - `pubFriendPostIds`: the ids behind the discovery feed. */
  datatype StoreData = StoreData(
    get: Identity -> Profile,
    lookup: map<Identity, Profile>,
    getPost: PostId -> Post,
    postLookup: map<PostId, Post>,
    pubFriendPostIds: seq<PostId>)
}
