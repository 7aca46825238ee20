/** `reverse(ids)`: the profile feed shows a profile's posts newest first,
    while the store keeps them in append (oldest-first) order. */
module Reversal {
  import opened Basics

  /** Reference definition: the last element first, then the reversal of the rest. */
  function Reversed<T>(s: seq<T>): seq<T>
    decreases |s|
  {
    if |s| == 0 then [] else [s[|s| - 1]] + Reversed(s[..|s| - 1])
  }

  /** Reversal keeps the length and puts input index k at output index |s| - 1 - k. */
  lemma {:induction false} ReversedAt<T>(s: seq<T>, k: nat)
    requires k < |s|
    ensures |Reversed(s)| == |s|
    ensures Reversed(s)[|s| - 1 - k] == s[k]
    decreases |s|
  {
    var init := s[..|s| - 1];
    if k < |s| - 1 {
      ReversedAt(init, k);
      assert Reversed(s)[|s| - 1 - k] == Reversed(init)[|init| - 1 - k];
    } else if |s| > 1 {
      ReversedAt(init, 0);
    }
  }

  /** The positional characterisation for every index at once. */
  lemma ReversedPositions<T>(s: seq<T>)
    ensures |Reversed(s)| == |s|
    ensures forall k :: 0 <= k < |s| ==> Reversed(s)[k] == s[|s| - 1 - k]
  {
    if |s| == 0 {
    } else {
      ReversedAt(s, 0);
      forall k | 0 <= k < |s| ensures Reversed(s)[k] == s[|s| - 1 - k] {
        ReversedAt(s, |s| - 1 - k);
      }
    }
  }

  /** Reversing twice gives the input back. */
  lemma ReversedTwice<T>(s: seq<T>)
    ensures Reversed(Reversed(s)) == s
  {
    ReversedPositions(s);
    ReversedPositions(Reversed(s));
  }

  /** Reversal is a permutation: the same elements with the same multiplicities. */
  lemma {:induction false} ReversedPermutes<T>(s: seq<T>)
    ensures multiset(Reversed(s)) == multiset(s)
    decreases |s|
  {
    if |s| > 0 {
      var init := s[..|s| - 1];
      ReversedPermutes(init);
      assert s == init + [s[|s| - 1]];
    }
  }

  /** `reverse` as the source writes it: a result array filled by index while
      walking the input, element i going to slot `ids.length - 1 - i`. */
  method Reverse(ids: seq<PostId>) returns (result: seq<PostId>)
    ensures result == Reversed(ids)
  {
    var n := |ids|;
    var buffer := new PostId[n];
    for i := 0 to n
      invariant forall k :: 0 <= k < i ==> buffer[n - 1 - k] == ids[k]
    {
      buffer[n - 1 - i] := ids[i];
    }
    result := buffer[..];
    ReversedPositions(ids);
    assert forall k :: 0 <= k < n ==> result[n - 1 - k] == ids[k];
    forall k | 0 <= k < n
      ensures result[k] == Reversed(ids)[k]
    {
      assert result[n - 1 - (n - 1 - k)] == ids[n - 1 - k];
    }
  }
}
