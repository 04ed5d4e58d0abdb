/**
 * The bucket layout of chempy's `Connected` container: bucket `k` lists the
 * bonds touching atom position `k`, so a bond between two atoms is listed
 * in two buckets and a self-loop twice in one.  This module relates the
 * buckets that `convert_to_connected` builds to the bonds that
 * `convert_to_indexed` and `Connected.sort` collect back from them.
 */
module Buckets {
  import opened ChempyCore
  import opened Wrappers

  /** All references of a bucket list, bucket after bucket. */
  function Flatten(buckets: seq<seq<Bond>>): seq<Bond>
  {
    if buckets == [] then [] else Flatten(buckets[..|buckets| - 1]) + buckets[|buckets| - 1]
  }

  lemma {:induction false} FlattenMember(buckets: seq<seq<Bond>>, b: Bond)
    ensures b in Flatten(buckets) <==> exists k :: 0 <= k < |buckets| && b in buckets[k]
  {
    if buckets != [] {
      var front := buckets[..|buckets| - 1];
      FlattenMember(front, b);
      if b in Flatten(buckets) && b !in buckets[|buckets| - 1] {
        var k :| 0 <= k < |front| && b in front[k];
        assert buckets[k] == front[k];
      }
      if exists k :: 0 <= k < |buckets| && b in buckets[k] {
        var k :| 0 <= k < |buckets| && b in buckets[k];
        if k < |front| {
          assert front[k] == buckets[k];
        }
      }
    }
  }

  /**
   * The bucket that convert_to_connected fills for position `k`: in bond
   * order, each bond once for every endpoint equal to `k`.
   */
  function Incident(g: seq<Bond>, k: int): seq<Bond>
    reads Refs(g)
  {
    if g == [] then []
    else
      var b := g[|g| - 1];
      Incident(g[..|g| - 1], k) + (if b.i0 == k then [b] else []) + (if b.i1 == k then [b] else [])
  }

  /**
   * The bucket convert_to_connected fills for slot `k` of `n` buckets: in
   * bond order, each bond once for every endpoint that subscripts slot `k`
   * (a negative endpoint counting from the end).
   */
  function Filed(g: seq<Bond>, n: int, k: int): seq<Bond>
    reads Refs(g)
  {
    if g == [] then []
    else
      var b := g[|g| - 1];
      Filed(g[..|g| - 1], n, k) + (if ListSlot(b.i0, n) == Some(k) then [b] else [])
                                 + (if ListSlot(b.i1, n) == Some(k) then [b] else [])
  }

  /** Bond `i` adds itself to slot `k` once for each of its endpoints subscripting `k`. */
  lemma FiledStep(g: seq<Bond>, n: int, i: int, k: int)
    requires 0 <= i < |g|
    ensures Filed(g[..i + 1], n, k) ==
            Filed(g[..i], n, k) + (if ListSlot(g[i].i0, n) == Some(k) then [g[i]] else [])
                                + (if ListSlot(g[i].i1, n) == Some(k) then [g[i]] else [])
  {
    assert g[..i + 1][..i] == g[..i];
  }

  /** With every endpoint a position `0..n-1`, slot `k` holds the bonds incident to `k`. */
  lemma {:induction false} FiledIncident(g: seq<Bond>, n: int, k: int)
    requires EndpointsIn(g, n)
    ensures Filed(g, n, k) == Incident(g, k)
    decreases |g|
  {
    if g != [] {
      var front := g[..|g| - 1];
      assert forall b :: b in front ==> b in g;
      FiledIncident(front, n, k);
    }
  }

  /**
   * The bucket loop of convert_to_connected: an empty bucket per atom, then
   * each bond appended to the bucket of each of its endpoints.  `ok ==
   * false` is the IndexError of the first endpoint that subscripts no
   * bucket.
   */
  method FileBonds(g: seq<Bond>, n: nat) returns (ok: bool, buckets: seq<seq<Bond>>)
    ensures ok <==> Listable(g, n)
    ensures ok ==> |buckets| == n && forall k :: 0 <= k < n ==> buckets[k] == Filed(g, n, k)
  {
    buckets := seq(n, _ => []);
    var i := 0;
    while i < |g|
      invariant 0 <= i <= |g| && |buckets| == n
      invariant forall k :: 0 <= k < n ==> buckets[k] == Filed(g[..i], n, k)
      invariant forall j :: 0 <= j < i ==> ListSlot(g[j].i0, n).Some? && ListSlot(g[j].i1, n).Some?
    {
      var b := g[i];
      var s0 := ListSlot(b.i0, n);
      if s0.None? {
        assert b in g;
        return false, buckets;
      }
      buckets := buckets[s0.value := buckets[s0.value] + [b]];
      var s1 := ListSlot(b.i1, n);
      if s1.None? {
        assert b in g;
        return false, buckets;
      }
      buckets := buckets[s1.value := buckets[s1.value] + [b]];
      forall k | 0 <= k < n
        ensures buckets[k] == Filed(g[..i + 1], n, k)
      {
        FiledStep(g, n, i, k);
      }
      i := i + 1;
    }
    assert g[..|g|] == g;
    ok := true;
    forall b | b in g
      ensures ListSlot(b.i0, n).Some? && ListSlot(b.i1, n).Some?
    {
      var j :| 0 <= j < |g| && g[j] == b;
    }
  }

  /** The references of one bucket whose first endpoint is the bucket's own position. */
  function Owned(bucket: seq<Bond>, k: int): seq<Bond>
    reads Refs(bucket)
  {
    if bucket == [] then []
    else
      var b := bucket[|bucket| - 1];
      Owned(bucket[..|bucket| - 1], k) + (if b.i0 == k then [b] else [])
  }

  /** Every bond that some bucket references. */
  function AllRefs(buckets: seq<seq<Bond>>): set<Bond>
  {
    set k, b | 0 <= k < |buckets| && b in buckets[k] :: b
  }

  /** The flattened references are exactly the referenced bonds. */
  lemma FlattenRefs(buckets: seq<seq<Bond>>)
    ensures Refs(Flatten(buckets)) == AllRefs(buckets)
  {
    forall b | b in AllRefs(buckets)
      ensures b in Refs(Flatten(buckets))
    {
      var k :| 0 <= k < |buckets| && b in buckets[k];
      FlattenMember(buckets, b);
    }
    forall b | b in Refs(Flatten(buckets))
      ensures b in AllRefs(buckets)
    {
      FlattenMember(buckets, b);
      var k :| 0 <= k < |buckets| && b in buckets[k];
    }
  }

  /** What convert_to_indexed collects: the owned references of buckets 0..n-1 in order. */
  function OwnedAll(buckets: seq<seq<Bond>>): seq<Bond>
    reads AllRefs(buckets)
  {
    if buckets == [] then []
    else
      var front := buckets[..|buckets| - 1];
      assert forall k :: 0 <= k < |front| ==> front[k] == buckets[k];
      OwnedAll(front) + Owned(buckets[|buckets| - 1], |buckets| - 1)
  }

  /** The bonds of `g` whose two endpoints coincide. */
  function Loops(g: seq<Bond>): seq<Bond>
    reads Refs(g)
  {
    if g == [] then []
    else
      var b := g[|g| - 1];
      Loops(g[..|g| - 1]) + (if b.i0 == b.i1 then [b] else [])
  }

  /** Every reference held by the bucket of its first endpoint has its second endpoint in `0..n-1`. */
  predicate OwnedInRange(buckets: seq<seq<Bond>>, n: int)
    reads AllRefs(buckets)
  {
    forall k, b :: 0 <= k < |buckets| && b in buckets[k] && b.i0 == k ==> 0 <= b.i1 < n
  }

  /** Owned references of buckets that fit `0..n-1` have both endpoints there. */
  lemma {:induction false} OwnedAllInRange(buckets: seq<seq<Bond>>, n: int)
    requires |buckets| <= n && OwnedInRange(buckets, n)
    ensures EndpointsIn(OwnedAll(buckets), n)
    decreases |buckets|
  {
    if buckets != [] {
      var c := |buckets| - 1;
      var front := buckets[..c];
      assert forall k :: 0 <= k < c ==> front[k] == buckets[k];
      OwnedAllInRange(front, n);
      OwnedSubset(buckets[c], c);
      assert OwnedAll(buckets) == OwnedAll(front) + Owned(buckets[c], c);
    }
  }

  predicate EndpointsIn(g: seq<Bond>, n: int)
    reads Refs(g)
  {
    forall b :: b in g ==> 0 <= b.i0 < n && 0 <= b.i1 < n
  }

  /**
   * Every endpoint is a valid subscript of a Python list of length `n`: a
   * position `0..n-1`, or `-n..-1` counting from the end.  Anything else is
   * an IndexError where the endpoint subscripts a list.
   */
  predicate Listable(g: seq<Bond>, n: int)
    reads Refs(g)
  {
    forall b :: b in g ==> ListSlot(b.i0, n).Some? && ListSlot(b.i1, n).Some?
  }


  /** Owned distributes over concatenation of buckets. */
  lemma {:induction false} OwnedAppend(x: seq<Bond>, y: seq<Bond>, k: int)
    ensures Owned(x + y, k) == Owned(x, k) + Owned(y, k)
    decreases |y|
  {
    if y == [] {
      assert x + y == x;
    } else {
      var y' := y[..|y| - 1];
      assert (x + y)[..|x + y| - 1] == x + y';
      assert (x + y)[|x + y| - 1] == y[|y| - 1];
      OwnedAppend(x, y', k);
    }
  }

  /** One step of the convert_to_indexed scan: the first `c + 1` buckets. */
  lemma OwnedAllPrefix(buckets: seq<seq<Bond>>, c: int)
    requires 0 <= c < |buckets|
    ensures OwnedAll(buckets[..c + 1]) == OwnedAll(buckets[..c]) + Owned(buckets[c], c)
  {
    assert buckets[..c + 1][..c] == buckets[..c];
  }

  /** The owned references one bond contributes to bucket `k`: once, or twice for a self-loop. */
  function RootOf(b: Bond, k: int): seq<Bond>
    reads b
  {
    if b.i0 == k then (if b.i1 == k then [b, b] else [b]) else []
  }

  /**
   * The owned references of the bucket that convert_to_connected builds for
   * position `k`: each bond starting at `k`, twice when it also ends there.
   */
  function Rooted(g: seq<Bond>, k: int): seq<Bond>
    reads Refs(g)
  {
    if g == [] then [] else Rooted(g[..|g| - 1], k) + RootOf(g[|g| - 1], k)
  }

  /** The owned references among the one or two entries bond `b` makes in bucket `k`. */
  lemma OwnedEntries(b: Bond, k: int)
    ensures Owned((if b.i0 == k then [b] else []) + (if b.i1 == k then [b] else []), k) == RootOf(b, k)
  {
    var first := if b.i0 == k then [b] else [];
    var second := if b.i1 == k then [b] else [];
    OwnedAppend(first, second, k);
    assert Owned(first, k) == first by {
      if b.i0 == k {
        assert first[..0] == [];
      }
    }
    assert Owned(second, k) == (if b.i0 == k then second else []) by {
      if b.i1 == k {
        assert second[..0] == [];
      }
    }
  }

  lemma {:induction false} OwnedIncident(g: seq<Bond>, k: int)
    ensures Owned(Incident(g, k), k) == Rooted(g, k)
    decreases |g|
  {
    if g != [] {
      var b := g[|g| - 1];
      var front := g[..|g| - 1];
      var x := Incident(front, k);
      var entries := (if b.i0 == k then [b] else []) + (if b.i1 == k then [b] else []);
      assert Incident(g, k) == x + entries;
      OwnedIncident(front, k);
      OwnedAppend(x, entries, k);
      OwnedEntries(b, k);
    }
  }

  /** The owned references bond `b` adds to buckets `0..n-1`: those of the bucket of its first endpoint. */
  function RootedIn(b: Bond, n: int): seq<Bond>
    reads b
  {
    if 0 <= b.i0 < n then RootOf(b, b.i0) else []
  }

  /** The owned references of buckets `0..n-1` of that layout, collected bond by bond. */
  function RootedSeq(g: seq<Bond>, n: int): seq<Bond>
    reads Refs(g)
  {
    if g == [] then [] else RootedSeq(g[..|g| - 1], n) + RootedIn(g[|g| - 1], n)
  }

  lemma {:induction false} RootedSeqNone(g: seq<Bond>)
    ensures RootedSeq(g, 0) == []
  {
    if g != [] {
      RootedSeqNone(g[..|g| - 1]);
    }
  }

  /** What one bond adds to buckets `0..n-1` is what it adds to `0..n-2` and to bucket `n - 1`. */
  lemma RootedInSplit(b: Bond, n: int)
    requires n > 0
    ensures multiset(RootedIn(b, n)) == multiset(RootedIn(b, n - 1)) + multiset(RootOf(b, n - 1))
  {
  }

  lemma Regroup(u: multiset<Bond>, p: multiset<Bond>, q: multiset<Bond>,
                a: multiset<Bond>, b: multiset<Bond>, c: multiset<Bond>, d: multiset<Bond>,
                x: multiset<Bond>, y: multiset<Bond>)
    requires u == p + q && p == a + c && q == b + d && x == a + b && y == c + d
    ensures u == x + y
  {
  }

  /** Counting buckets `0..n-1` bond by bond agrees with counting them bucket by bucket. */
  lemma {:induction false} RootedSeqSplit(g: seq<Bond>, n: int)
    requires n > 0
    ensures multiset(RootedSeq(g, n)) == multiset(RootedSeq(g, n - 1)) + multiset(Rooted(g, n - 1))
    decreases |g|
  {
    if g != [] {
      var front := g[..|g| - 1];
      var b := g[|g| - 1];
      RootedSeqSplit(front, n);
      RootedInSplit(b, n);
      assert RootedSeq(g, n) == RootedSeq(front, n) + RootedIn(b, n);
      assert RootedSeq(g, n - 1) == RootedSeq(front, n - 1) + RootedIn(b, n - 1);
      assert Rooted(g, n - 1) == Rooted(front, n - 1) + RootOf(b, n - 1);
      Regroup(multiset(RootedSeq(g, n)), multiset(RootedSeq(front, n)), multiset(RootedIn(b, n)),
              multiset(RootedSeq(front, n - 1)), multiset(RootedIn(b, n - 1)),
              multiset(Rooted(front, n - 1)), multiset(RootOf(b, n - 1)),
              multiset(RootedSeq(g, n - 1)), multiset(Rooted(g, n - 1)));
    }
  }

  lemma {:induction false} OwnedAllIncident(buckets: seq<seq<Bond>>, g: seq<Bond>)
    requires forall k :: 0 <= k < |buckets| ==> buckets[k] == Incident(g, k)
    ensures multiset(OwnedAll(buckets)) == multiset(RootedSeq(g, |buckets|))
    decreases |buckets|
  {
    if buckets == [] {
      RootedSeqNone(g);
    } else {
      var n := |buckets|;
      var front := buckets[..n - 1];
      OwnedAllIncident(front, g);
      OwnedIncident(g, n - 1);
      RootedSeqSplit(g, n);
      assert |front| == n - 1;
      assert OwnedAll(buckets) == OwnedAll(front) + Owned(buckets[n - 1], n - 1);
    }
  }

  /** A bond starting inside `0..n-1` contributes itself, twice for a self-loop. */
  lemma {:induction false} RootedSeqAll(g: seq<Bond>, n: int)
    requires forall b :: b in g ==> 0 <= b.i0 < n
    ensures multiset(RootedSeq(g, n)) == multiset(g) + multiset(Loops(g))
    decreases |g|
  {
    if g != [] {
      var b := g[|g| - 1];
      var front := g[..|g| - 1];
      assert g == front + [b];
      assert forall x :: x in front ==> x in g;
      RootedSeqAll(front, n);
      RootedSeqSnoc(front, b, n);
    }
  }

  /** One more bond starting inside `0..n-1` adds itself, twice for a self-loop. */
  lemma RootedSeqSnoc(front: seq<Bond>, b: Bond, n: int)
    requires 0 <= b.i0 < n
    requires multiset(RootedSeq(front, n)) == multiset(front) + multiset(Loops(front))
    ensures multiset(RootedSeq(front + [b], n)) == multiset(front + [b]) + multiset(Loops(front + [b]))
  {
    var g := front + [b];
    assert g[..|g| - 1] == front;
    var loop := if b.i0 == b.i1 then [b] else [];
    assert RootedSeq(g, n) == RootedSeq(front, n) + RootedIn(b, n);
    assert RootedIn(b, n) == [b] + loop;
    assert Loops(g) == Loops(front) + loop;
    Regroup(multiset(RootedSeq(g, n)), multiset(RootedSeq(front, n)), multiset(RootedIn(b, n)),
            multiset(front), multiset{b}, multiset(Loops(front)), multiset(loop),
            multiset(g), multiset(Loops(g)));
  }

  /**
   * convert_to_connected followed by convert_to_indexed: the bonds collected
   * back are the original bonds with every self-loop listed twice.
   */
  lemma RoundTripDoublesLoops(buckets: seq<seq<Bond>>, g: seq<Bond>)
    requires forall b :: b in g ==> 0 <= b.i0 < |buckets|
    requires forall k :: 0 <= k < |buckets| ==> buckets[k] == Incident(g, k)
    ensures multiset(OwnedAll(buckets)) == multiset(g) + multiset(Loops(g))
  {
    OwnedAllIncident(buckets, g);
    RootedSeqAll(g, |buckets|);
  }

  /** Owned references are references of the bucket whose first endpoint is `k`. */
  lemma {:induction false} OwnedSubset(bucket: seq<Bond>, k: int)
    ensures forall b :: b in Owned(bucket, k) ==> b in bucket && b.i0 == k
    decreases |bucket|
  {
    if bucket != [] {
      var front := bucket[..|bucket| - 1];
      OwnedSubset(front, k);
      assert forall b :: b in front ==> b in bucket;
    }
  }

  /** What convert_to_indexed collects is referenced from the buckets. */
  lemma {:induction false} OwnedRefs(buckets: seq<seq<Bond>>)
    ensures Refs(OwnedAll(buckets)) <= AllRefs(buckets)
    decreases |buckets|
  {
    if buckets != [] {
      var n := |buckets|;
      var front := buckets[..n - 1];
      OwnedRefs(front);
      OwnedSubset(buckets[n - 1], n - 1);
      forall b | b in AllRefs(front)
        ensures b in AllRefs(buckets)
      {
        var k :| 0 <= k < |front| && b in front[k];
        assert buckets[k] == front[k];
      }
    }
  }

  /** Removing references bucket by bucket only loses bonds. */
  lemma KeptRefs(buckets: seq<seq<Bond>>, kept: seq<seq<Bond>>, p: int)
    requires |kept| == |buckets|
    requires forall k :: 0 <= k < |kept| ==> kept[k] == Detached(buckets[k], p)
    ensures AllRefs(kept) <= AllRefs(buckets)
  {
    forall b | b in AllRefs(kept)
      ensures b in AllRefs(buckets)
    {
      var k :| 0 <= k < |kept| && b in kept[k];
      DetachedContents(buckets[k], p);
    }
  }

  /**
   * The scan shared by convert_to_indexed and Connected.sort: bucket after
   * bucket, the references whose first endpoint is the bucket's position.
   */
  method CollectAllOwned(buckets: seq<seq<Bond>>) returns (own: seq<Bond>)
    ensures own == old(OwnedAll(buckets))
  {
    own := [];
    var c := 0;
    while c < |buckets|
      invariant 0 <= c <= |buckets|
      invariant own == OwnedAll(buckets[..c])
    {
      var bucket := buckets[c];
      var i := 0;
      while i < |bucket|
        invariant 0 <= i <= |bucket|
        invariant own == OwnedAll(buckets[..c]) + Owned(bucket[..i], c)
      {
        assert bucket[..i + 1][..i] == bucket[..i];
        if bucket[i].i0 == c {
          own := own + [bucket[i]];
        }
        i := i + 1;
      }
      assert bucket[..|bucket|] == bucket;
      OwnedAllPrefix(buckets, c);
      c := c + 1;
    }
    assert buckets[..|buckets|] == buckets;
    assert forall b :: b in AllRefs(buckets) ==> b.i0 == old(b.i0);
  }

  /** The removal loop of Connected.delete_atom: every bucket loses the references mentioning `p`. */
  method DetachAll(buckets: seq<seq<Bond>>, p: int) returns (kept: seq<seq<Bond>>)
    ensures |kept| == |buckets| && forall k :: 0 <= k < |kept| ==> kept[k] == old(Detached(buckets[k], p))
    ensures AllRefs(kept) <= AllRefs(buckets)
  {
    kept := buckets;
    var k := 0;
    while k < |kept|
      invariant 0 <= k <= |kept| && |kept| == |buckets|
      invariant forall j :: 0 <= j < k ==> kept[j] == old(Detached(buckets[j], p))
      invariant forall j :: k <= j < |kept| ==> kept[j] == buckets[j]
    {
      var h := RemoveMentioning(kept[k], p);
      assert forall b :: b in Refs(buckets[k]) ==> b.i0 == old(b.i0) && b.i1 == old(b.i1);
      kept := kept[k := h];
      k := k + 1;
    }
    forall k | 0 <= k < |kept|
      ensures kept[k] == Detached(buckets[k], p)
    {
      assert forall b :: b in Refs(buckets[k]) ==> b.i0 == old(b.i0) && b.i1 == old(b.i1);
    }
    KeptRefs(buckets, kept, p);
  }

  /** Every bucket position `0..m-1` is a key of the table. */
  predicate Covers(xref: map<int, int>, m: int)
  {
    forall c :: 0 <= c < m ==> c in xref
  }

  /**
   * The bucket list Connected.sort builds from the first `c` buckets: `n`
   * slots, bucket `d` written to slot `xref[d]` for `d = 0, 1, ...`, so a
   * later bucket overwrites an earlier one sent to the same slot, and a
   * slot no bucket reaches stays empty.
   */
  function Placed(buckets: seq<seq<Bond>>, xref: map<int, int>, n: nat, c: nat): (r: seq<seq<Bond>>)
    requires c <= |buckets|
    ensures |r| == n
  {
    if c == 0 then seq(n, _ => [])
    else
      var m := Placed(buckets, xref, n, c - 1);
      if c - 1 in xref && 0 <= xref[c - 1] < n then m[xref[c - 1] := buckets[c - 1]] else m
  }

  /** A slot holds the last of the first `c` buckets sent there. */
  lemma {:induction false} PlacedLast(buckets: seq<seq<Bond>>, xref: map<int, int>, n: nat, c: nat, d: int)
    requires c <= |buckets| && 0 <= d < c && d in xref && 0 <= xref[d] < n
    requires forall e :: d < e < c && e in xref ==> xref[e] != xref[d]
    ensures Placed(buckets, xref, n, c)[xref[d]] == buckets[d]
  {
    if d < c - 1 {
      PlacedLast(buckets, xref, n, c - 1, d);
    }
  }

  /** A slot that none of the first `c` buckets is sent to is empty. */
  lemma {:induction false} PlacedUnreached(buckets: seq<seq<Bond>>, xref: map<int, int>, n: nat, c: nat, j: int)
    requires c <= |buckets| && 0 <= j < n
    requires forall d :: 0 <= d < c && d in xref ==> xref[d] != j
    ensures Placed(buckets, xref, n, c)[j] == []
  {
    if c > 0 {
      PlacedUnreached(buckets, xref, n, c - 1, j);
    }
  }

  /** Through a one-to-one table on `0..n-1`, bucket `c` lands in slot `xref[c]`, for every `c`. */
  lemma PlacedPermutes(buckets: seq<seq<Bond>>, xref: map<int, int>)
    requires IsXref(xref, |buckets|)
    requires forall x, y :: 0 <= x < y < |buckets| ==> xref[x] != xref[y]
    ensures forall c :: 0 <= c < |buckets| ==> Placed(buckets, xref, |buckets|, |buckets|)[xref[c]] == buckets[c]
  {
    forall c | 0 <= c < |buckets|
      ensures Placed(buckets, xref, |buckets|, |buckets|)[xref[c]] == buckets[c]
    {
      PlacedLast(buckets, xref, |buckets|, |buckets|, c);
    }
  }

  /**
   * The bucket placement of Connected.sort into `n` slots; `ok == false`
   * is the KeyError of the first bucket position missing from the table.
   */
  method MoveBuckets(buckets: seq<seq<Bond>>, xref: map<int, int>, n: nat) returns (ok: bool, moved: seq<seq<Bond>>)
    requires forall x :: x in xref ==> 0 <= xref[x] < n
    ensures ok <==> Covers(xref, |buckets|)
    ensures ok ==> moved == Placed(buckets, xref, n, |buckets|)
  {
    moved := seq(n, _ => []);
    var c := 0;
    while c < |buckets|
      invariant 0 <= c <= |buckets| && moved == Placed(buckets, xref, n, c)
      invariant Covers(xref, c)
    {
      if c !in xref {
        return false, moved;
      }
      moved := moved[xref[c] := buckets[c]];
      c := c + 1;
    }
    ok := true;
  }
}
