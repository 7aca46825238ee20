/** `sortedPostIds(ids)`: resolve every id to its post handle, sort the
    handles newest first by timestamp, and emit their ids. The engine's
    `Array.prototype.sort` is stable (ECMAScript 2019), so posts with equal
    timestamps keep their input order; the model sorts by insertion, and
    `StableNewestFirstUnique` shows that every stable sort gives the same
    answer. */
module Recency {
  import opened Basics
  import opened Store

  /** Timestamps never increase along the sequence. */
  ghost predicate NewestFirst(ps: seq<Post>) {
    forall i, j :: 0 <= i < j < |ps| ==> ps[i].timestamp >= ps[j].timestamp
  }

  /** The posts of `ps` that carry timestamp `t`, in their order in `ps`. */
  function WithTimestamp(ps: seq<Post>, t: int): seq<Post>
    decreases |ps|
  {
    if ps == [] then []
    else (if ps[0].timestamp == t then [ps[0]] else []) + WithTimestamp(ps[1..], t)
  }

  /** `r` is a stable rearrangement of `ps`: for every timestamp, the posts
      with that timestamp come in the same order in both. */
  ghost predicate Stable(r: seq<Post>, ps: seq<Post>) {
    forall t :: WithTimestamp(r, t) == WithTimestamp(ps, t)
  }

  /** Places `p` before the first post of `s` that is not newer than it. */
  function Insert(p: Post, s: seq<Post>): seq<Post>
    decreases |s|
  {
    if s == [] || s[0].timestamp <= p.timestamp then [p] + s
    else [s[0]] + Insert(p, s[1..])
  }

  /** The comparator `(a, b) => b.timestamp() - a.timestamp()` under a stable sort. */
  function SortByRecency(ps: seq<Post>): seq<Post>
    decreases |ps|
  {
    if ps == [] then [] else Insert(ps[0], SortByRecency(ps[1..]))
  }

  /** `ids.map(id => getPost(id))`. */
  function Handles(ids: seq<PostId>, getPost: PostId -> Post): seq<Post> {
    seq(|ids|, i requires 0 <= i < |ids| => getPost(ids[i]))
  }

  /** `posts.map(x => x.id)`. */
  function Ids(ps: seq<Post>): seq<PostId> {
    seq(|ps|, i requires 0 <= i < |ps| => ps[i].id)
  }

  /** `sortedPostIds` over one snapshot of its input and of the store's `getPost`. */
  function SortedPostIds(ids: seq<PostId>, getPost: PostId -> Post): (r: seq<PostId>)
    ensures |r| == |ids|
  {
    var hs := Handles(ids, getPost);
    SortPermutes(hs);
    assert |SortByRecency(hs)| == |multiset(SortByRecency(hs))| == |multiset(hs)| == |hs|;
    Ids(SortByRecency(hs))
  }

  // ----- Insert -----

  lemma {:induction false} InsertPermutes(p: Post, s: seq<Post>)
    ensures multiset(Insert(p, s)) == multiset(s) + multiset{p}
    decreases |s|
  {
    if s == [] || s[0].timestamp <= p.timestamp {
    } else {
      InsertPermutes(p, s[1..]);
      assert s == [s[0]] + s[1..];
    }
  }

  lemma {:induction false} InsertNewestFirst(p: Post, s: seq<Post>)
    requires NewestFirst(s)
    ensures NewestFirst(Insert(p, s))
    decreases |s|
  {
    if s == [] || s[0].timestamp <= p.timestamp {
    } else {
      var rest := Insert(p, s[1..]);
      InsertNewestFirst(p, s[1..]);
      InsertPermutes(p, s[1..]);
      forall j | 0 <= j < |rest|
        ensures s[0].timestamp >= rest[j].timestamp
      {
        assert rest[j] in multiset(rest);
        assert rest[j] == p || rest[j] in s[1..];
      }
      assert Insert(p, s) == [s[0]] + rest;
    }
  }

  /** Among the posts with one timestamp, the inserted post comes first. */
  lemma {:induction false} InsertStable(p: Post, s: seq<Post>, t: int)
    ensures WithTimestamp(Insert(p, s), t)
         == (if p.timestamp == t then [p] else []) + WithTimestamp(s, t)
    decreases |s|
  {
    var mine := if p.timestamp == t then [p] else [];
    if s == [] || s[0].timestamp <= p.timestamp {
      WithTimestampTail([p] + s, t);
      assert ([p] + s)[1..] == s;
    } else {
      var rest := Insert(p, s[1..]);
      var head := if s[0].timestamp == t then [s[0]] else [];
      InsertStable(p, s[1..], t);
      WithTimestampTail([s[0]] + rest, t);
      assert ([s[0]] + rest)[1..] == rest;
      WithTimestampTail(s, t);
      assert head == [] || mine == [];
      calc {
        WithTimestamp(Insert(p, s), t);
        head + (mine + WithTimestamp(s[1..], t));
        mine + (head + WithTimestamp(s[1..], t));
      }
    }
  }

  // ----- SortByRecency -----

  /** The sort is a permutation of its input. */
  lemma {:induction false} SortPermutes(ps: seq<Post>)
    ensures multiset(SortByRecency(ps)) == multiset(ps)
    decreases |ps|
  {
    if ps != [] {
      SortPermutes(ps[1..]);
      InsertPermutes(ps[0], SortByRecency(ps[1..]));
      assert ps == [ps[0]] + ps[1..];
    }
  }

  /** The sort puts newer posts first. */
  lemma {:induction false} SortNewestFirst(ps: seq<Post>)
    ensures NewestFirst(SortByRecency(ps))
    decreases |ps|
  {
    if ps != [] {
      SortNewestFirst(ps[1..]);
      InsertNewestFirst(ps[0], SortByRecency(ps[1..]));
    }
  }

  /** The sort is stable: equal timestamps keep their input order. */
  lemma {:induction false} SortStable(ps: seq<Post>, t: int)
    ensures WithTimestamp(SortByRecency(ps), t) == WithTimestamp(ps, t)
    decreases |ps|
  {
    if ps != [] {
      SortStable(ps[1..], t);
      InsertStable(ps[0], SortByRecency(ps[1..]), t);
    }
  }

  /** All three facts together. */
  lemma SortByRecencyCorrect(ps: seq<Post>)
    ensures multiset(SortByRecency(ps)) == multiset(ps)
    ensures |SortByRecency(ps)| == |ps|
    ensures NewestFirst(SortByRecency(ps))
    ensures Stable(SortByRecency(ps), ps)
  {
    SortPermutes(ps);
    assert |multiset(SortByRecency(ps))| == |multiset(ps)|;
    SortNewestFirst(ps);
    forall t ensures WithTimestamp(SortByRecency(ps), t) == WithTimestamp(ps, t) {
      SortStable(ps, t);
    }
  }

  // ----- uniqueness of the stable newest-first arrangement -----

  lemma {:induction false} HeadLeadsItsTimestamp(s: seq<Post>)
    requires s != []
    ensures WithTimestamp(s, s[0].timestamp) != []
    ensures WithTimestamp(s, s[0].timestamp)[0] == s[0]
  {
  }

  /** In a newest-first sequence no post is newer than the head. */
  lemma {:induction false} NoneNewerThanHead(s: seq<Post>, t: int)
    requires NewestFirst(s)
    requires WithTimestamp(s, t) != []
    ensures s != [] && s[0].timestamp >= t
    decreases |s|
  {
    if s[0].timestamp != t {
      NoneNewerThanHead(s[1..], t);
      assert s[1..][0] == s[1];
    }
  }

  lemma {:induction false} WithTimestampTail(s: seq<Post>, t: int)
    requires s != []
    ensures WithTimestamp(s, t) == (if s[0].timestamp == t then [s[0]] else []) + WithTimestamp(s[1..], t)
  {
  }

  /** Two newest-first sequences with the same per-timestamp order are equal:
      the stable newest-first arrangement of a collection of posts is unique. */
  lemma {:induction false} StableNewestFirstUnique(a: seq<Post>, b: seq<Post>)
    requires NewestFirst(a) && NewestFirst(b)
    requires Stable(a, b)
    ensures a == b
    decreases |a|
  {
    if a != [] && b != [] {
      HeadLeadsItsTimestamp(a);
      HeadLeadsItsTimestamp(b);
      assert WithTimestamp(b, a[0].timestamp) == WithTimestamp(a, a[0].timestamp);
      NoneNewerThanHead(b, a[0].timestamp);
      assert WithTimestamp(a, b[0].timestamp) == WithTimestamp(b, b[0].timestamp);
      NoneNewerThanHead(a, b[0].timestamp);
      var t0 := a[0].timestamp;
      assert a[0] == WithTimestamp(a, t0)[0] == WithTimestamp(b, t0)[0] == b[0];
      forall t
        ensures WithTimestamp(a[1..], t) == WithTimestamp(b[1..], t)
      {
        WithTimestampTail(a, t);
        WithTimestampTail(b, t);
        var head := if a[0].timestamp == t then [a[0]] else [];
        assert head + WithTimestamp(a[1..], t) == head + WithTimestamp(b[1..], t);
        assert (head + WithTimestamp(a[1..], t))[|head|..] == WithTimestamp(a[1..], t);
        assert (head + WithTimestamp(b[1..], t))[|head|..] == WithTimestamp(b[1..], t);
      }
      StableNewestFirstUnique(a[1..], b[1..]);
      assert a == [a[0]] + a[1..];
      assert b == [b[0]] + b[1..];
    } else {
      // the head of a non-empty sequence shows in its timestamp class,
      // which the empty other one lacks
      assert a != [] ==> WithTimestamp(a, a[0].timestamp) != [];
      assert b != [] ==> WithTimestamp(b, b[0].timestamp) != [];
    }
  }

  /** Any stable newest-first rearrangement of the handles is the model's sort. */
  lemma SortByRecencyIsTheStableSort(ps: seq<Post>, r: seq<Post>)
    requires NewestFirst(r) && Stable(r, ps)
    ensures r == SortByRecency(ps)
  {
    SortByRecencyCorrect(ps);
    StableNewestFirstUnique(r, SortByRecency(ps));
  }

  // ----- from handles back to ids -----

  /** The store hands out, for each of these ids, a handle carrying that id. */
  ghost predicate HandlesCarryIds(ids: seq<PostId>, getPost: PostId -> Post) {
    forall i :: 0 <= i < |ids| ==> getPost(ids[i]).id == ids[i]
  }

  /** The ids of `ids` whose handle has timestamp `t`, in their order in `ids`. */
  function IdsWithTimestamp(ids: seq<PostId>, getPost: PostId -> Post, t: int): seq<PostId>
    decreases |ids|
  {
    if ids == [] then []
    else (if getPost(ids[0]).timestamp == t then [ids[0]] else []) + IdsWithTimestamp(ids[1..], getPost, t)
  }

  lemma {:induction false} InsertIdsPermute(p: Post, s: seq<Post>)
    ensures multiset(Ids(Insert(p, s))) == multiset(Ids(s)) + multiset{p.id}
    decreases |s|
  {
    if s == [] || s[0].timestamp <= p.timestamp {
      assert Ids([p] + s) == [p.id] + Ids(s);
    } else {
      var rest := Insert(p, s[1..]);
      InsertIdsPermute(p, s[1..]);
      assert Ids([s[0]] + rest) == [s[0].id] + Ids(rest);
      assert Ids(s) == [s[0].id] + Ids(s[1..]);
    }
  }

  lemma {:induction false} SortIdsPermute(ps: seq<Post>)
    ensures multiset(Ids(SortByRecency(ps))) == multiset(Ids(ps))
    decreases |ps|
  {
    if ps != [] {
      SortIdsPermute(ps[1..]);
      InsertIdsPermute(ps[0], SortByRecency(ps[1..]));
      assert Ids(ps) == [ps[0].id] + Ids(ps[1..]);
    }
  }

  /** Sending every handle of `ps` back through `getPost` by its id returns it. */
  ghost predicate Resolvable(ps: seq<Post>, getPost: PostId -> Post) {
    forall i :: 0 <= i < |ps| ==> getPost(ps[i].id) == ps[i]
  }

  lemma {:induction false} IdsWithTimestampOfIds(ps: seq<Post>, getPost: PostId -> Post, t: int)
    requires Resolvable(ps, getPost)
    ensures IdsWithTimestamp(Ids(ps), getPost, t) == Ids(WithTimestamp(ps, t))
    decreases |ps|
  {
    if ps != [] {
      IdsWithTimestampOfIds(ps[1..], getPost, t);
      assert Ids(ps)[1..] == Ids(ps[1..]);
      assert Ids((if ps[0].timestamp == t then [ps[0]] else []) + WithTimestamp(ps[1..], t))
          == (if ps[0].timestamp == t then [ps[0].id] else []) + Ids(WithTimestamp(ps[1..], t));
    }
  }

  /** `sortedPostIds` emits a permutation of its input ids, newest first by
      the timestamps of their handles, and ids with equal timestamps keep
      their input order. */
  lemma SortedPostIdsCorrect(ids: seq<PostId>, getPost: PostId -> Post)
    requires HandlesCarryIds(ids, getPost)
    ensures |SortedPostIds(ids, getPost)| == |ids|
    ensures multiset(SortedPostIds(ids, getPost)) == multiset(ids)
    ensures forall i, j :: 0 <= i < j < |ids| ==>
      getPost(SortedPostIds(ids, getPost)[i]).timestamp >= getPost(SortedPostIds(ids, getPost)[j]).timestamp
    ensures forall t :: IdsWithTimestamp(SortedPostIds(ids, getPost), getPost, t) == IdsWithTimestamp(ids, getPost, t)
  {
    var hs := Handles(ids, getPost);
    var sorted := SortByRecency(hs);
    SortByRecencyCorrect(hs);
    assert Ids(hs) == ids;
    SortIdsPermute(hs);
    assert Resolvable(hs, getPost);
    assert Resolvable(sorted, getPost) by {
      forall i | 0 <= i < |sorted| ensures getPost(sorted[i].id) == sorted[i] {
        assert sorted[i] in multiset(hs);
        var k :| 0 <= k < |hs| && hs[k] == sorted[i];
      }
    }
    forall t ensures IdsWithTimestamp(Ids(sorted), getPost, t) == IdsWithTimestamp(ids, getPost, t) {
      IdsWithTimestampOfIds(sorted, getPost, t);
      IdsWithTimestampOfIds(hs, getPost, t);
    }
  }
}
