/** The blob side of the API: correlation ids for blob requests, the
    dictionary of pending callbacks with its response handler, and the
    URL of a stored blob. */
module Blobs {
  import opened Basics

  // ----- decimal rendering of numbers, as template literals print them -----

  function DigitChar(d: nat): (c: char)
    requires d < 10
    ensures '0' <= c <= '9'
  {
    (48 + d) as char
  }

  /** `${n}` for a non-negative integer. */
  function Decimal(n: nat): (s: string)
    ensures |s| >= 1
    ensures n >= 10 ==> |s| >= 2
    ensures forall i :: 0 <= i < |s| ==> '0' <= s[i] <= '9'
    decreases n
  {
    if n < 10 then [DigitChar(n)] else Decimal(n / 10) + [DigitChar(n % 10)]
  }

  /** Different numbers print differently. */
  lemma {:induction false} DecimalInjective(a: nat, b: nat)
    ensures Decimal(a) == Decimal(b) <==> a == b
    decreases a
  {
    if a >= 10 && b >= 10 {
      DecimalInjective(a / 10, b / 10);
      var da, db := Decimal(a), Decimal(b);
      assert da[..|da| - 1] == Decimal(a / 10) && da[|da| - 1] == DigitChar(a % 10);
      assert db[..|db| - 1] == Decimal(b / 10) && db[|db| - 1] == DigitChar(b % 10);
    }
  }

  // ----- correlation ids -----

  /** `${windowId}-${seq}`: the window's digits, one dash, the counter's
      digits. */
  function BlobId(windowId: nat, counter: nat): (id: string)
    ensures |id| == |Decimal(windowId)| + 1 + |Decimal(counter)|
    ensures id[..|Decimal(windowId)|] == Decimal(windowId)
    ensures id[|Decimal(windowId)|] == '-'
    ensures id[|Decimal(windowId)| + 1..] == Decimal(counter)
    ensures forall i :: 0 <= i < |id| && i != |Decimal(windowId)| ==> '0' <= id[i] <= '9'
  {
    Decimal(windowId) + "-" + Decimal(counter)
  }

  /** An id names one window and one counter value: ids from different
      counter values (or different windows) never collide. */
  lemma BlobIdInjective(w1: nat, s1: nat, w2: nat, s2: nat)
    ensures BlobId(w1, s1) == BlobId(w2, s2) <==> w1 == w2 && s1 == s2
  {
    var d1, d2 := Decimal(w1), Decimal(w2);
    var x, y := BlobId(w1, s1), BlobId(w2, s2);
    assert x[|d1|] == '-' && y[|d2|] == '-';
    if |d1| < |d2| {
      assert y[|d1|] == d2[|d1|];
    } else if |d2| < |d1| {
      assert x[|d2|] == d1[|d2|];
    } else {
      assert x[..|d1|] == d1 && y[..|d2|] == d2;
      assert x[|d1| + 1..] == Decimal(s1) && y[|d2| + 1..] == Decimal(s2);
      DecimalInjective(w1, w2);
      DecimalInjective(s1, s2);
    }
  }

  /** The ids a window has issued once its counter has reached `n`. */
  ghost function IssuedIds(windowId: nat, n: nat): set<string> {
    set k | 0 <= k < n :: BlobId(windowId, k)
  }

  /** The id for counter value `n` is none of the ids issued before it. */
  lemma NextIdIsFresh(windowId: nat, n: nat)
    ensures BlobId(windowId, n) !in IssuedIds(windowId, n)
  {
    forall k | 0 <= k < n
      ensures BlobId(windowId, k) != BlobId(windowId, n)
    {
      BlobIdInjective(windowId, k, windowId, n);
    }
  }

  // ----- the pending-callback dictionary -----

  /** What the response handler passes on: a callback and the response's arguments. */
  datatype BlobReply = BlobReply(cb: Callback, args: seq<string>)

  /** The module-level `callbacks` dictionary, shared by every API instance
      of the page, with its `'response'` handler. A registered value may be
      undefined (`None`), as when `addBlob` is called without a callback. */
  class CallbackRegistry {
    var callbacks: map<string, Option<Callback>>
    var replies: seq<BlobReply>

    constructor ()
      ensures callbacks == map[] && replies == []
    {
      callbacks := map[];
      replies := [];
    }

    /** `callbacks[id] = cb`. */
    method Register(id: string, cb: Option<Callback>)
      modifies this
      ensures callbacks == old(callbacks)[id := cb]
      ensures replies == old(replies)
    {
      callbacks := callbacks[id := cb];
    }

    /** The `'response'` handler: a response for an id holding a callback
      removes that one entry and invokes that callback once with the
      response's arguments; any other response changes nothing. */
    method Respond(id: string, args: seq<string>)
      modifies this
      ensures id in old(callbacks) && old(callbacks)[id].Some? ==>
        callbacks == old(callbacks) - {id} &&
        replies == old(replies) + [BlobReply(old(callbacks)[id].value, args)]
      ensures !(id in old(callbacks) && old(callbacks)[id].Some?) ==>
        callbacks == old(callbacks) && replies == old(replies)
    {
      if id in callbacks && callbacks[id].Some? {
        var cb := callbacks[id].value;
        callbacks := callbacks - {id};
        replies := replies + [BlobReply(cb, args)];
      }
    }
  }

  // ----- blob URLs -----

  const BLOB_PREFIX := "blobstore:"

  /** `http://localhost:${config.blobsPort}/`. */
  function BlobBase(port: nat): string {
    "http://localhost:" + Decimal(port) + "/"
  }

  /** `getBlobUrl(id)`: a leading `blobstore:` is cut off (10 characters)
      before the id is appended to the blob server's address. */
  function GetBlobUrl(port: nat, id: string): (url: string)
    ensures BlobBase(port) <= url
    ensures BLOB_PREFIX <= id ==> BLOB_PREFIX + url[|BlobBase(port)|..] == id
    ensures !(BLOB_PREFIX <= id) ==> url[|BlobBase(port)|..] == id
  {
    if BLOB_PREFIX <= id then BlobBase(port) + id[10..] else BlobBase(port) + id
  }

  /** A prefixed id and its bare key give the same URL, as long as the key
      itself does not start with the prefix. */
  lemma PrefixedAndBareAgree(port: nat, key: string)
    requires !(BLOB_PREFIX <= key)
    ensures GetBlobUrl(port, BLOB_PREFIX + key) == GetBlobUrl(port, key)
  {
    assert BLOB_PREFIX <= BLOB_PREFIX + key;
    assert (BLOB_PREFIX + key)[10..] == key;
  }

  /** Only one prefix is removed. */
  lemma PrefixStrippedOnce(port: nat, key: string)
    ensures GetBlobUrl(port, BLOB_PREFIX + BLOB_PREFIX + key) == BlobBase(port) + BLOB_PREFIX + key
  {
    var id := BLOB_PREFIX + BLOB_PREFIX + key;
    assert BLOB_PREFIX <= id;
    assert id[10..] == BLOB_PREFIX + key;
  }
}
