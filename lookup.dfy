/** `lookupItems(ids)`: map an ordered id list to the store's post handles,
    one slot per id, and carry the store's sync flag on the result. */
module ItemLookup {
  import opened Basics
  import opened Store
  import Reversal

  /** The mapped list and the readiness flag copied from the store. */
  datatype LookupResult = LookupResult(items: seq<Option<Post>>, sync: bool)

  /** `postLookup.get(id)`: the handle, or absent when the store has none. */
  function Get(postLookup: map<PostId, Post>, id: PostId): Option<Post> {
    if id in postLookup then Some(postLookup[id]) else None
  }

  /** The element-wise mapping, slot i resolving `ids[i]`. */
  function Resolve(ids: seq<PostId>, postLookup: map<PostId, Post>): (items: seq<Option<Post>>)
    ensures |items| == |ids|
    ensures forall i :: 0 <= i < |ids| ==> items[i] == Get(postLookup, ids[i])
    decreases |ids|
  {
    if ids == [] then [] else [Get(postLookup, ids[0])] + Resolve(ids[1..], postLookup)
  }

  function LookupItems(ids: seq<PostId>, postLookup: map<PostId, Post>, sync: bool): (r: LookupResult)
    ensures |r.items| == |ids| && r.sync == sync
    ensures forall i :: 0 <= i < |ids| ==>
      (r.items[i].Some? <==> ids[i] in postLookup) &&
      (r.items[i].Some? ==> r.items[i].value == postLookup[ids[i]])
  {
    LookupResult(Resolve(ids, postLookup), sync)
  }

  /** Looking up a concatenation is concatenating the lookups. */
  lemma {:induction false} ResolveAppend(a: seq<PostId>, b: seq<PostId>, postLookup: map<PostId, Post>)
    ensures Resolve(a + b, postLookup) == Resolve(a, postLookup) + Resolve(b, postLookup)
  {
    var whole := Resolve(a + b, postLookup);
    var parts := Resolve(a, postLookup) + Resolve(b, postLookup);
    forall i | 0 <= i < |a| + |b|
      ensures whole[i] == parts[i]
    {
      if i < |a| {
        assert (a + b)[i] == a[i];
      } else {
        assert (a + b)[i] == b[i - |a|];
      }
    }
  }

  /** Lookup commutes with reversal: the profile feed's slots are the
      reversed slots of the profile's posts. */
  lemma ResolveReversed(ids: seq<PostId>, postLookup: map<PostId, Post>)
    ensures Resolve(Reversal.Reversed(ids), postLookup) == Reversal.Reversed(Resolve(ids, postLookup))
  {
    Reversal.ReversedPositions(ids);
    Reversal.ReversedPositions(Resolve(ids, postLookup));
  }
}
