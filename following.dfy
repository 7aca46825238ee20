/** The union inside `getFollowingFeed`: walk the own profile's `following`
    list and, for each followed identity the store has a profile for, push
    that profile's posts onto one result list. Identities with no profile are
    skipped without error. */
module Following {
  import opened Basics
  import opened Store

  /** The posts the store knows for `id`, or none when it has no profile. */
  function PostsOf(lookup: map<Identity, Profile>, id: Identity): seq<PostId> {
    if id in lookup then lookup[id].posts else []
  }

  /** Reference definition, one followed identity at a time from the front of
      `following`: the posts gathered so far followed by those of the next one. */
  function FollowedPosts(following: seq<Identity>, lookup: map<Identity, Profile>): seq<PostId>
    decreases |following|
  {
    if following == [] then []
    else FollowedPosts(following[..|following| - 1], lookup) + PostsOf(lookup, following[|following| - 1])
  }

  /** The nested `forEach` loops of the source. */
  method FollowingPostIds(following: seq<Identity>, lookup: map<Identity, Profile>) returns (result: seq<PostId>)
    ensures result == FollowedPosts(following, lookup)
  {
    result := [];
    for i := 0 to |following|
      invariant result == FollowedPosts(following[..i], lookup)
    {
      var id := following[i];
      assert following[..i + 1][..i] == following[..i];
      if id in lookup {
        var posts := lookup[id].posts;
        for j := 0 to |posts|
          invariant result == FollowedPosts(following[..i], lookup) + posts[..j]
        {
          result := result + [posts[j]];
          assert posts[..j + 1] == posts[..j] + [posts[j]];
        }
        assert posts[..|posts|] == posts;
      }
    }
    assert following[..|following|] == following;
  }

  /** Gathering over two lists one after the other is gathering over each in turn. */
  lemma {:induction false} FollowedPostsAppend(f: seq<Identity>, g: seq<Identity>, lookup: map<Identity, Profile>)
    ensures FollowedPosts(f + g, lookup) == FollowedPosts(f, lookup) + FollowedPosts(g, lookup)
    decreases |g|
  {
    if g == [] {
      assert f + g == f;
    } else {
      var init := g[..|g| - 1];
      FollowedPostsAppend(f, init, lookup);
      assert (f + g)[..|f + g| - 1] == f + init;
    }
  }

  /** The posts of the k-th followed identity appear as one block, in their
      own order, right after the posts of the identities before it. */
  lemma FollowedPostsBlock(following: seq<Identity>, lookup: map<Identity, Profile>, k: nat)
    requires k < |following|
    ensures FollowedPosts(following, lookup)
         == FollowedPosts(following[..k], lookup) + PostsOf(lookup, following[k])
            + FollowedPosts(following[k + 1..], lookup)
  {
    assert following == following[..k] + [following[k]] + following[k + 1..];
    FollowedPostsAppend(following[..k] + [following[k]], following[k + 1..], lookup);
    FollowedPostsAppend(following[..k], [following[k]], lookup);
    assert FollowedPosts([following[k]], lookup) == PostsOf(lookup, following[k]) by {
      assert [following[k]][..0] == [];
    }
  }

  /** A post is in the union exactly when some followed identity has a
      profile whose posts contain it; posts of other profiles never appear. */
  lemma {:induction false} FollowedPostsMembership(following: seq<Identity>, lookup: map<Identity, Profile>, p: PostId)
    ensures p in FollowedPosts(following, lookup)
        <==> exists k :: 0 <= k < |following| && following[k] in lookup && p in lookup[following[k]].posts
    decreases |following|
  {
    if following != [] {
      var n := |following| - 1;
      var init := following[..n];
      FollowedPostsMembership(init, lookup, p);
      if p in FollowedPosts(following, lookup) {
        if p in FollowedPosts(init, lookup) {
          var k :| 0 <= k < |init| && init[k] in lookup && p in lookup[init[k]].posts;
          assert following[k] == init[k];
        } else {
          assert p in PostsOf(lookup, following[n]);
        }
      }
      if exists k :: 0 <= k < |following| && following[k] in lookup && p in lookup[following[k]].posts {
        var k :| 0 <= k < |following| && following[k] in lookup && p in lookup[following[k]].posts;
        if k < n {
          assert init[k] == following[k];
        }
      }
    }
  }

  /** The union's length is the sum of the known followed profiles' post counts. */
  function PostCount(following: seq<Identity>, lookup: map<Identity, Profile>): nat
    decreases |following|
  {
    if following == [] then 0
    else PostCount(following[1..], lookup) + |PostsOf(lookup, following[0])|
  }

  lemma {:induction false} FollowedPostsLength(following: seq<Identity>, lookup: map<Identity, Profile>)
    ensures |FollowedPosts(following, lookup)| == PostCount(following, lookup)
    decreases |following|
  {
    if following != [] {
      FollowedPostsLength(following[1..], lookup);
      FollowedPostsAppend([following[0]], following[1..], lookup);
      assert [following[0]] + following[1..] == following;
      assert FollowedPosts([following[0]], lookup) == PostsOf(lookup, following[0]) by {
        assert [following[0]][..0] == [];
      }
    }
  }
}
