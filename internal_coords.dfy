/**
 * `Indexed.get_internal_tuples`: the atom sets a Z-matrix description of
 * the molecule is built from.  The method works on a deep copy converted
 * to the connected layout and never changes the container, so the model
 * takes the container's atom coordinates and bond endpoints as values.
 * `cpv.distance` (a square root) is the uninterpreted parameter `dist`.
 */
module InternalCoords {
  import opened Sequences
  import opened VectorMath
  import ChempyCore
  import ChempyBase

  /** The two cells of a bond's `index`. */
  type Pair = (int, int)

  /** A torsion key of the `tors` dictionary. */
  type Torsion = (int, int, int, int)

  /**
   * One entry of the returned list.  The answer for fewer than three atoms
   * starts with `(0)`, which Python reads as the bare integer 0.
   */
  datatype ZEntry = Bare(atom: int) | Tuple(atoms: seq<int>)

  /**
   * What the call does: return the list, or stay for ever in the
   * `while to_go` loop because a whole pass over the torsions placed
   * nothing while `to_go` was not zero; `stuck` is the `done` set then.
   */
  datatype TuplesOutcome = Returns(z: seq<ZEntry>) | Spins(stuck: set<int>)

  // ---------------------------------------------------------------------
  // The connected copy

  /** Every endpoint is a position of one of the `n` atoms. */
  predicate InRange(bonds: seq<Pair>, n: int)
  {
    forall e :: e in bonds ==> 0 <= e.0 < n && 0 <= e.1 < n
  }

  /** No endpoint is negative. */
  predicate NonNegative(bonds: seq<Pair>)
  {
    forall e :: e in bonds ==> 0 <= e.0 && 0 <= e.1
  }

  /**
   * Bucket `k` of `convert_to_connected`: each bond, in bond order, once
   * for each of its endpoints that is `k` (a self-loop twice).
   */
  function Bucket(bonds: seq<Pair>, k: int): (r: seq<Pair>)
    ensures forall e :: e in r ==> e in bonds && (e.0 == k || e.1 == k)
  {
    if bonds == [] then []
    else
      var e := bonds[|bonds| - 1];
      var front := Bucket(bonds[..|bonds| - 1], k);
      assert forall x :: x in front ==> x in bonds[..|bonds| - 1];
      front + (if e.0 == k then [e] else []) + (if e.1 == k then [e] else [])
  }

  /** The bucket list of the connected copy. */
  function AllBuckets(bonds: seq<Pair>, n: nat): (r: seq<seq<Pair>>)
    ensures |r| == n && forall k :: 0 <= k < n ==> r[k] == Bucket(bonds, k)
  {
    seq(n, k => Bucket(bonds, k))
  }

  /** Every bucket entry has both endpoints among the buckets' positions. */
  predicate Closed(buckets: seq<seq<Pair>>)
  {
    forall k, e :: 0 <= k < |buckets| && e in buckets[k] ==> 0 <= e.0 < |buckets| && 0 <= e.1 < |buckets|
  }

  lemma BucketsClosed(bonds: seq<Pair>, n: nat)
    requires InRange(bonds, n)
    ensures Closed(AllBuckets(bonds, n))
  {
  }

  /** The loops of `convert_to_connected` run on the copy. */
  method ConnectedCopy(bonds: seq<Pair>, n: nat) returns (buckets: seq<seq<Pair>>)
    requires InRange(bonds, n)
    ensures buckets == AllBuckets(bonds, n)
  {
    buckets := seq(n, _ => []);
    var i := 0;
    while i < |bonds|
      invariant 0 <= i <= |bonds| && |buckets| == n
      invariant forall k :: 0 <= k < n ==> buckets[k] == Bucket(bonds[..i], k)
    {
      var e := bonds[i];
      assert e in bonds;
      buckets := buckets[e.0 := buckets[e.0] + [e]];
      buckets := buckets[e.1 := buckets[e.1] + [e]];
      forall k | 0 <= k < n
        ensures buckets[k] == Bucket(bonds[..i + 1], k)
      {
        BucketStep(bonds, i, k);
      }
      i := i + 1;
    }
    assert bonds[..|bonds|] == bonds;
  }

  /** Bond `i` adds itself to bucket `k` once for each of its endpoints that is `k`. */
  lemma BucketStep(bonds: seq<Pair>, i: int, k: int)
    requires 0 <= i < |bonds|
    ensures Bucket(bonds[..i + 1], k) ==
            Bucket(bonds[..i], k) + (if bonds[i].0 == k then [bonds[i]] else []) + (if bonds[i].1 == k then [bonds[i]] else [])
  {
    assert bonds[..i + 1][..i] == bonds[..i];
  }

  /** An atom with at least two bucket entries ("at least two neighbors"). */
  predicate Multivalent(buckets: seq<seq<Pair>>, k: int)
  {
    0 <= k < |buckets| && |buckets[k]| > 1
  }

  /** The other end of a bucket entry of `a`: `index[0]`, or `index[1]` when that is `a`. */
  function Neighbor(e: Pair, a: int): int
  {
    if e.0 == a then e.1 else e.0
  }

  // ---------------------------------------------------------------------
  // The centre and the first atom

  /** `cpv.add` folded over the coordinates, starting from the null vector. */
  function Total(coords: seq<Vec>): (r: Vec)
    requires AllVecs(coords)
    ensures |r| == 3
  {
    if coords == [] then GetNull()
    else
      var front := coords[..|coords| - 1];
      assert forall i :: 0 <= i < |front| ==> front[i] == coords[i];
      Add(Total(front), coords[|coords| - 1])
  }

  /** The centre: the total scaled by `1.0 / len(self.atom)`. */
  function Center(coords: seq<Vec>): (r: Vec)
    requires |coords| > 0 && AllVecs(coords)
    ensures |r| == 3
  {
    Scale(Total(coords), 1.0 / (|coords| as real))
  }

  lemma {:induction false} TotalIsColumnSum(coords: seq<Vec>, j: nat)
    requires AllVecs(coords) && j < 3
    ensures Total(coords)[j] == ColumnSum(coords, j)
  {
    if coords != [] {
      var front := coords[..|coords| - 1];
      assert forall i :: 0 <= i < |front| ==> front[i] == coords[i];
      TotalIsColumnSum(front, j);
    }
  }

  /** The centre is the per-axis mean that `fit` also computes. */
  lemma CenterIsCentroid(coords: seq<Vec>)
    requires |coords| > 0 && AllVecs(coords)
    ensures Center(coords) == Centroid(coords)
  {
    var n := |coords| as real;
    TotalIsColumnSum(coords, 0);
    TotalIsColumnSum(coords, 1);
    TotalIsColumnSum(coords, 2);
    ScaleByInverse(ColumnSum(coords, 0), n);
    ScaleByInverse(ColumnSum(coords, 1), n);
    ScaleByInverse(ColumnSum(coords, 2), n);
    SameVec(Center(coords), Centroid(coords));
  }

  /**
   * The centre taken over the container's atoms is the per-axis mean of
   * their coordinates, as `get_coord_list` lists them.
   */
  lemma CoordListCenter(atoms: seq<ChempyCore.Atom>)
    requires |atoms| > 0 && forall k :: 0 <= k < |atoms| ==> IsVec(atoms[k].coord)
    ensures AllVecs(ChempyBase.CoordList(atoms))
    ensures var n := |atoms| as real;
            Center(ChempyBase.CoordList(atoms)) ==
            [ChempyBase.CoordSum(atoms, 0) / n, ChempyBase.CoordSum(atoms, 1) / n, ChempyBase.CoordSum(atoms, 2) / n]
  {
    ChempyBase.CoordListCentroid(atoms);
    CenterIsCentroid(ChempyBase.CoordList(atoms));
  }

  lemma ScaleByInverse(x: real, n: real)
    requires n > 0.0
    ensures x * (1.0 / n) == x / n
  {
  }

  /** The centre loop: add every coordinate, then scale. */
  method CenterOf(coords: seq<Vec>) returns (center: Vec)
    requires |coords| > 0 && AllVecs(coords)
    ensures center == Center(coords)
  {
    center := [0.0, 0.0, 0.0];
    for i := 0 to |coords|
      invariant AllVecs(coords[..i]) && center == Total(coords[..i])
    {
      assert coords[..i + 1][..i] == coords[..i];
      center := Add(center, coords[i]);
    }
    assert coords[..|coords|] == coords;
    center := Scale(center, 1.0 / (|coords| as real));
  }

  /**
   * The "most central multivalent atom" loop: the multivalent atom nearest
   * the centre, the first of several equally near; -1 when there is none.
   */
  method MostCentral(coords: seq<Vec>, buckets: seq<seq<Pair>>, center: Vec, dist: (Vec, Vec) -> real)
    returns (fst: int)
    requires |buckets| == |coords|
    ensures fst == -1 <==> forall k :: 0 <= k < |coords| ==> !Multivalent(buckets, k)
    ensures fst != -1 ==> Multivalent(buckets, fst)
    ensures fst != -1 ==> forall k :: 0 <= k < |coords| && Multivalent(buckets, k) ==>
              dist(coords[fst], center) <= dist(coords[k], center)
    ensures fst != -1 ==> forall k :: 0 <= k < fst && Multivalent(buckets, k) ==>
              dist(coords[fst], center) < dist(coords[k], center)
  {
    fst := -1;
    var minD := 0.0;
    for counter := 0 to |coords|
      invariant fst == -1 <==> forall k :: 0 <= k < counter ==> !Multivalent(buckets, k)
      invariant fst != -1 ==> 0 <= fst < counter && Multivalent(buckets, fst) && minD == dist(coords[fst], center)
      invariant fst != -1 ==> forall k :: 0 <= k < counter && Multivalent(buckets, k) ==> minD <= dist(coords[k], center)
      invariant fst != -1 ==> forall k :: 0 <= k < fst && Multivalent(buckets, k) ==> minD < dist(coords[k], center)
    {
      if Multivalent(buckets, counter) {
        var d := dist(coords[counter], center);
        if fst < 0 {
          minD := d;
          fst := counter;
        } else if d < minD {
          minD := d;
          fst := counter;
        }
      }
    }
  }

  // ---------------------------------------------------------------------
  // The second and third atoms

  /**
   * The second atom: the first neighbour of `fst` that is multivalent, or
   * failing that the neighbour through the last bond of the bucket (the
   * loop variable `bond` keeps the last value).  `j` is that entry.
   */
  method SecondAtom(buckets: seq<seq<Pair>>, fst: int) returns (nxt: int, ghost j: int)
    requires Multivalent(buckets, fst) && Closed(buckets)
    ensures 0 <= j < |buckets[fst]| && nxt == Neighbor(buckets[fst][j], fst)
    ensures forall i :: 0 <= i < j ==> !Multivalent(buckets, Neighbor(buckets[fst][i], fst))
    ensures Multivalent(buckets, nxt) || j == |buckets[fst]| - 1
    ensures 0 <= nxt < |buckets|
  {
    var bk := buckets[fst];
    nxt := -1;
    j := -1;
    var i := 0;
    while i < |bk|
      invariant 0 <= i <= |bk| && nxt == -1
      invariant forall m :: 0 <= m < i ==> !Multivalent(buckets, Neighbor(bk[m], fst))
    {
      assert bk[i] in buckets[fst];
      var neighbor := bk[i].0;
      if neighbor == fst {
        neighbor := bk[i].1;
      }
      if |buckets[neighbor]| > 1 {
        nxt := neighbor;
        j := i;
        break;
      }
      i := i + 1;
    }
    if nxt < 0 {
      var bond := bk[|bk| - 1];
      assert bond in buckets[fst];
      var neighbor := bond.0;
      if neighbor == fst {
        neighbor := bond.1;
      }
      nxt := neighbor;
      j := |bk| - 1;
    }
  }

  /** A neighbour already in `done` when the third atom is chosen. */
  predicate Chosen(x: int, fst: int, nxt: int)
  {
    x == fst || x == nxt
  }

  /** Entry `i` of the first atom's bucket leads to a multivalent atom not yet chosen. */
  predicate PreferredAt(buckets: seq<seq<Pair>>, fst: int, nxt: int, i: int)
    requires 0 <= fst < |buckets| && 0 <= i < |buckets[fst]|
  {
    var x := Neighbor(buckets[fst][i], fst);
    Multivalent(buckets, x) && !Chosen(x, fst, nxt)
  }

  /**
   * The third atom: the first multivalent neighbour of `fst` not yet chosen,
   * else the first neighbour not yet chosen, else -1.
   */
  method ThirdAtom(buckets: seq<seq<Pair>>, fst: int, nxt: int) returns (trd: int, ghost j: int)
    requires 0 <= fst < |buckets| && Closed(buckets)
    ensures trd == -1 <==> forall i :: 0 <= i < |buckets[fst]| ==> Chosen(Neighbor(buckets[fst][i], fst), fst, nxt)
    ensures trd != -1 ==> 0 <= j < |buckets[fst]| && trd == Neighbor(buckets[fst][j], fst) && !Chosen(trd, fst, nxt)
    ensures trd != -1 ==> 0 <= trd < |buckets|
    ensures trd != -1 && (exists i :: 0 <= i < |buckets[fst]| && PreferredAt(buckets, fst, nxt, i)) ==>
              Multivalent(buckets, trd) && forall i :: 0 <= i < j ==> !PreferredAt(buckets, fst, nxt, i)
    ensures trd != -1 && (forall i :: 0 <= i < |buckets[fst]| ==> !PreferredAt(buckets, fst, nxt, i)) ==>
              forall i :: 0 <= i < j ==> Chosen(Neighbor(buckets[fst][i], fst), fst, nxt)
  {
    var bk := buckets[fst];
    trd := -1;
    j := -1;
    var i := 0;
    while i < |bk|
      invariant 0 <= i <= |bk| && trd == -1
      invariant forall m :: 0 <= m < i ==> !PreferredAt(buckets, fst, nxt, m)
    {
      assert bk[i] in buckets[fst];
      var neighbor := bk[i].0;
      if neighbor == fst {
        neighbor := bk[i].1;
      }
      if |buckets[neighbor]| > 1 {
        if neighbor != fst && neighbor != nxt {
          assert PreferredAt(buckets, fst, nxt, i);
          trd := neighbor;
          j := i;
          break;
        }
      }
      i := i + 1;
    }
    if trd < 0 {
      i := 0;
      while i < |bk|
        invariant 0 <= i <= |bk| && trd == -1
        invariant forall m :: 0 <= m < |bk| ==> !PreferredAt(buckets, fst, nxt, m)
        invariant forall m :: 0 <= m < i ==> Chosen(Neighbor(bk[m], fst), fst, nxt)
      {
        assert bk[i] in buckets[fst];
        var neighbor := bk[i].0;
        if neighbor == fst {
          neighbor := bk[i].1;
        }
        if neighbor != fst && neighbor != nxt {
          trd := neighbor;
          j := i;
          break;
        }
        i := i + 1;
      }
    }
  }

  // ---------------------------------------------------------------------
  // The torsion dictionary

  /** A torsion key, written from its lower end: `(a0, a1, a2, a3)` if `a0 < a3`, else reversed. */
  function Canon(a0: int, a1: int, a2: int, a3: int): Torsion
  {
    if a0 < a3 then (a0, a1, a2, a3) else (a3, a2, a1, a0)
  }

  /** What one candidate outer atom `a3` adds: its key, unless it repeats one of the other three. */
  function Pick(a0: int, a1: int, a2: int, a3: int): set<Torsion>
  {
    if a3 != a0 && a3 != a1 && a3 != a2 then {Canon(a0, a1, a2, a3)} else {}
  }

  /** The keys the `for d in model_copy.bond[a2]` loop adds for outer atom `a0`. */
  function OuterSet(a0: int, a1: int, a2: int, bk2: seq<Pair>): set<Torsion>
  {
    if bk2 == [] then {}
    else
      var d := bk2[|bk2| - 1];
      OuterSet(a0, a1, a2, bk2[..|bk2| - 1]) + Pick(a0, a1, a2, d.0) + Pick(a0, a1, a2, d.1)
  }

  /** The outer loop runs only for an `a0` that is neither middle atom. */
  function OuterIf(a0: int, a1: int, a2: int, bk2: seq<Pair>): set<Torsion>
  {
    if a0 != a1 && a0 != a2 then OuterSet(a0, a1, a2, bk2) else {}
  }

  /** The keys the `for counter in model_copy.bond[a1]` loop adds for the middle bond `(a1, a2)`. */
  function CounterSet(a1: int, a2: int, bk1: seq<Pair>, bk2: seq<Pair>): set<Torsion>
  {
    if bk1 == [] then {}
    else
      var c := bk1[|bk1| - 1];
      CounterSet(a1, a2, bk1[..|bk1| - 1], bk2) + OuterIf(c.0, a1, a2, bk2) + OuterIf(c.1, a1, a2, bk2)
  }

  /** Every key of `tors`: each bond in turn as the middle of the torsion. */
  function TorsionSet(bonds: seq<Pair>, buckets: seq<seq<Pair>>): set<Torsion>
    requires InRange(bonds, |buckets|)
  {
    if bonds == [] then {}
    else
      var b := bonds[|bonds| - 1];
      TorsionSet(bonds[..|bonds| - 1], buckets) + CounterSet(b.0, b.1, buckets[b.0], buckets[b.1])
  }

  /** Four atoms, the two ends distinct from the middle pair and from each other, the lower end first. */
  predicate TorsionShape(t: Torsion)
  {
    t.0 < t.3 && t.0 != t.1 && t.0 != t.2 && t.3 != t.1 && t.3 != t.2
  }

  lemma {:induction false} OuterSetShape(a0: int, a1: int, a2: int, bk2: seq<Pair>)
    requires a0 != a1 && a0 != a2
    ensures forall t :: t in OuterSet(a0, a1, a2, bk2) ==>
              TorsionShape(t) && ((t.1, t.2) == (a1, a2) || (t.1, t.2) == (a2, a1))
  {
    if bk2 != [] {
      OuterSetShape(a0, a1, a2, bk2[..|bk2| - 1]);
    }
  }

  lemma {:induction false} CounterSetShape(a1: int, a2: int, bk1: seq<Pair>, bk2: seq<Pair>)
    ensures forall t :: t in CounterSet(a1, a2, bk1, bk2) ==>
              TorsionShape(t) && ((t.1, t.2) == (a1, a2) || (t.1, t.2) == (a2, a1))
  {
    if bk1 != [] {
      var c := bk1[|bk1| - 1];
      CounterSetShape(a1, a2, bk1[..|bk1| - 1], bk2);
      if c.0 != a1 && c.0 != a2 {
        OuterSetShape(c.0, a1, a2, bk2);
      }
      if c.1 != a1 && c.1 != a2 {
        OuterSetShape(c.1, a1, a2, bk2);
      }
    }
  }

  /**
   * Every key is a torsion around a bond of the molecule: four atoms with
   * distinct ends, the lower end first, the middle pair a bond in either
   * direction.
   */
  lemma {:induction false} TorsionSetShape(bonds: seq<Pair>, buckets: seq<seq<Pair>>)
    requires InRange(bonds, |buckets|)
    ensures forall t :: t in TorsionSet(bonds, buckets) ==>
              TorsionShape(t) && ((t.1, t.2) in bonds || (t.2, t.1) in bonds)
  {
    if bonds != [] {
      var front := bonds[..|bonds| - 1];
      var b := bonds[|bonds| - 1];
      assert forall e :: e in front ==> e in bonds;
      TorsionSetShape(front, buckets);
      CounterSetShape(b.0, b.1, buckets[b.0], buckets[b.1]);
    }
  }

  /** The keys of a dictionary kept as its insertion-ordered key list. */
  function Keys(tors: seq<Torsion>): set<Torsion>
  {
    set t | t in tors
  }

  /** `tors[to] = 1`: a new key goes to the end, an existing one keeps its place. */
  function Store(tors: seq<Torsion>, t: Torsion): (r: seq<Torsion>)
    ensures Keys(r) == Keys(tors) + {t}
    ensures NoDuplicates(tors) ==> NoDuplicates(r)
    ensures tors <= r
  {
    if t in tors then tors else tors + [t]
  }

  /** One candidate outer atom `a3`: its key is stored unless `a3` repeats one of the other three. */
  function Offer(tors: seq<Torsion>, a0: int, a1: int, a2: int, a3: int): (r: seq<Torsion>)
    ensures Keys(r) == Keys(tors) + Pick(a0, a1, a2, a3)
    ensures NoDuplicates(tors) ==> NoDuplicates(r)
    ensures tors <= r
  {
    if a3 != a0 && a3 != a1 && a3 != a2 then Store(tors, Canon(a0, a1, a2, a3)) else tors
  }

  /** The `for d in model_copy.bond[a2]` loop for one outer atom `a0`. */
  method AddOuter(tors: seq<Torsion>, a0: int, a1: int, a2: int, bk2: seq<Pair>) returns (r: seq<Torsion>)
    requires NoDuplicates(tors)
    ensures NoDuplicates(r) && Keys(r) == Keys(tors) + OuterSet(a0, a1, a2, bk2)
    ensures tors <= r
  {
    r := tors;
    var k := 0;
    while k < |bk2|
      invariant 0 <= k <= |bk2|
      invariant NoDuplicates(r) && Keys(r) == Keys(tors) + OuterSet(a0, a1, a2, bk2[..k])
      invariant tors <= r
    {
      var d := bk2[k];
      OuterSetStep(a0, a1, a2, bk2, k);
      r := Offer(r, a0, a1, a2, d.0);
      r := Offer(r, a0, a1, a2, d.1);
      UnionRegroup(Keys(tors), OuterSet(a0, a1, a2, bk2[..k]), Pick(a0, a1, a2, d.0), Pick(a0, a1, a2, d.1));
      k := k + 1;
    }
    assert bk2[..|bk2|] == bk2;
  }

  lemma UnionRegroup(a: set<Torsion>, b: set<Torsion>, p: set<Torsion>, q: set<Torsion>)
    ensures a + b + p + q == a + (b + p + q)
  {
  }

  lemma OuterSetStep(a0: int, a1: int, a2: int, bk2: seq<Pair>, k: int)
    requires 0 <= k < |bk2|
    ensures OuterSet(a0, a1, a2, bk2[..k + 1])
         == OuterSet(a0, a1, a2, bk2[..k]) + Pick(a0, a1, a2, bk2[k].0) + Pick(a0, a1, a2, bk2[k].1)
  {
    assert bk2[..k + 1][..k] == bk2[..k];
  }

  /** The `for counter in model_copy.bond[a1]` loop for the middle bond `(a1, a2)`. */
  method AddCounters(tors: seq<Torsion>, a1: int, a2: int, bk1: seq<Pair>, bk2: seq<Pair>) returns (r: seq<Torsion>)
    requires NoDuplicates(tors)
    ensures NoDuplicates(r) && Keys(r) == Keys(tors) + CounterSet(a1, a2, bk1, bk2)
  {
    r := tors;
    var j := 0;
    while j < |bk1|
      invariant 0 <= j <= |bk1|
      invariant NoDuplicates(r) && Keys(r) == Keys(tors) + CounterSet(a1, a2, bk1[..j], bk2)
    {
      var counter := bk1[j];
      CounterSetStep(a1, a2, bk1, bk2, j);
      r := AddOuterIf(r, counter.0, a1, a2, bk2);
      r := AddOuterIf(r, counter.1, a1, a2, bk2);
      UnionRegroup(Keys(tors), CounterSet(a1, a2, bk1[..j], bk2), OuterIf(counter.0, a1, a2, bk2), OuterIf(counter.1, a1, a2, bk2));
      j := j + 1;
    }
    assert bk1[..|bk1|] == bk1;
  }

  /** One counter atom: the outer loop runs only when it is neither middle atom. */
  method AddOuterIf(tors: seq<Torsion>, a0: int, a1: int, a2: int, bk2: seq<Pair>) returns (r: seq<Torsion>)
    requires NoDuplicates(tors)
    ensures NoDuplicates(r) && Keys(r) == Keys(tors) + OuterIf(a0, a1, a2, bk2)
  {
    r := tors;
    if a0 != a1 && a0 != a2 {
      r := AddOuter(r, a0, a1, a2, bk2);
    }
  }

  lemma CounterSetStep(a1: int, a2: int, bk1: seq<Pair>, bk2: seq<Pair>, j: int)
    requires 0 <= j < |bk1|
    ensures CounterSet(a1, a2, bk1[..j + 1], bk2)
         == CounterSet(a1, a2, bk1[..j], bk2) + OuterIf(bk1[j].0, a1, a2, bk2) + OuterIf(bk1[j].1, a1, a2, bk2)
  {
    assert bk1[..j + 1][..j] == bk1[..j];
  }

  /** The bonds before `i` keep their endpoints in range, and bond `i` adds the keys around it. */
  lemma TorsionSetStep(bonds: seq<Pair>, buckets: seq<seq<Pair>>, i: int)
    requires InRange(bonds, |buckets|) && 0 <= i < |bonds|
    ensures InRange(bonds[..i + 1], |buckets|)
    ensures TorsionSet(bonds[..i + 1], buckets) ==
            TorsionSet(bonds[..i], buckets) + CounterSet(bonds[i].0, bonds[i].1, buckets[bonds[i].0], buckets[bonds[i].1])
  {
    assert bonds[..i + 1][..i] == bonds[..i];
    assert forall e :: e in bonds[..i + 1] ==> e in bonds;
  }

  /** The torsion search: each bond is the middle, each neighbour of its ends an outer atom. */
  method FindTorsions(bonds: seq<Pair>, buckets: seq<seq<Pair>>) returns (tors: seq<Torsion>)
    requires InRange(bonds, |buckets|)
    ensures NoDuplicates(tors) && Keys(tors) == TorsionSet(bonds, buckets)
  {
    tors := [];
    var i := 0;
    while i < |bonds|
      invariant 0 <= i <= |bonds| && InRange(bonds[..i], |buckets|)
      invariant NoDuplicates(tors) && Keys(tors) == TorsionSet(bonds[..i], buckets)
    {
      var bond := bonds[i];
      assert bond in bonds;
      TorsionSetStep(bonds, buckets, i);
      var a1 := bond.0;
      var a2 := bond.1;
      tors := AddCounters(tors, a1, a2, buckets[a1], buckets[a2]);
      i := i + 1;
    }
    assert bonds[..|bonds|] == bonds;
  }

  // ---------------------------------------------------------------------
  // Placing the remaining atoms

  /** The first atom of an entry, as a set (empty for a bare or empty entry). */
  function HeadOf(e: ZEntry): set<int>
  {
    if e.Tuple? && |e.atoms| > 0 then {e.atoms[0]} else {}
  }

  /** The atoms placed by the entries of `z` from position `lo` on. */
  function Heads(z: seq<ZEntry>, lo: nat): set<int>
  {
    if |z| <= lo then {} else Heads(z[..|z| - 1], lo) + HeadOf(z[|z| - 1])
  }

  /**
   * Entries `lo..` of `z` each place one new atom: four atoms, the first
   * not placed before (neither in `done0` nor by an earlier entry), the
   * other three already placed.
   */
  ghost predicate FreshExtension(z: seq<ZEntry>, lo: nat, done0: set<int>)
  {
    forall k :: lo <= k < |z| ==>
      z[k].Tuple? && |z[k].atoms| == 4 &&
      z[k].atoms[0] !in done0 + Heads(z[..k], lo) &&
      z[k].atoms[1] in done0 + Heads(z[..k], lo) &&
      z[k].atoms[2] in done0 + Heads(z[..k], lo) &&
      z[k].atoms[3] in done0 + Heads(z[..k], lo)
  }

  /** Entry `e` is a key of `tors`, read forwards or backwards. */
  predicate FromTorsion(e: ZEntry, keys: set<Torsion>)
  {
    e.Tuple? && |e.atoms| == 4 &&
    ((e.atoms[0], e.atoms[1], e.atoms[2], e.atoms[3]) in keys ||
     (e.atoms[3], e.atoms[2], e.atoms[1], e.atoms[0]) in keys)
  }

  /** A torsion that can place one end because the other three atoms are done. */
  predicate Placeable(t: Torsion, done: set<int>)
  {
    (t.0 !in done && t.1 in done && t.2 in done && t.3 in done) ||
    (t.0 in done && t.1 in done && t.2 in done && t.3 !in done)
  }

  /** Every atom some key mentions. */
  function Atoms(tors: seq<Torsion>): set<int>
  {
    (set t | t in tors :: t.0) + (set t | t in tors :: t.1) + (set t | t in tors :: t.2) + (set t | t in tors :: t.3)
  }

  /** Appending one entry that places `x`. */
  lemma HeadsAppend(z: seq<ZEntry>, lo: nat, e: ZEntry)
    requires lo <= |z|
    ensures Heads(z + [e], lo) == Heads(z, lo) + HeadOf(e)
    ensures (z + [e])[..|z|] == z
  {
    assert (z + [e])[..|z|] == z;
  }

  /** A newly placed atom comes from the keys and was not done, so fewer key atoms remain. */
  lemma Progress(a: set<int>, done: set<int>, x: int)
    requires x in a && x !in done
    ensures |a - (done + {x})| < |a - done|
  {
    assert a - (done + {x}) == (a - done) - {x};
  }

  /** The key a placement came from mentions the placed atom. */
  lemma KeyAtoms(tors: seq<Torsion>, i: int)
    requires 0 <= i < |tors|
    ensures tors[i].0 in Atoms(tors) && tors[i].3 in Atoms(tors)
  {
    assert tors[i] in tors;
  }

  /** Entry `e` places one new atom: its first atom is not in `done`, the other three are. */
  predicate FreshEntry(e: ZEntry, done: set<int>)
  {
    e.Tuple? && |e.atoms| == 4 &&
    e.atoms[0] !in done && e.atoms[1] in done && e.atoms[2] in done && e.atoms[3] in done
  }

  /** `FreshExtension`, built up one entry at a time. */
  ghost predicate Grows(z: seq<ZEntry>, lo: nat, done0: set<int>)
    decreases |z|
  {
    lo <= |z| &&
    (|z| == lo || (Grows(z[..|z| - 1], lo, done0) && FreshEntry(z[|z| - 1], done0 + Heads(z[..|z| - 1], lo))))
  }

  /** Appending a fresh entry keeps the placements growing. */
  lemma GrowsStep(z: seq<ZEntry>, lo: nat, done0: set<int>, e: ZEntry)
    requires Grows(z, lo, done0) && FreshEntry(e, done0 + Heads(z, lo))
    ensures Grows(z + [e], lo, done0)
    ensures Heads(z + [e], lo) == Heads(z, lo) + {e.atoms[0]}
  {
    HeadsAppend(z, lo, e);
  }

  /** The entry-by-entry form implies the all-entries form. */
  lemma {:induction false} GrowsMeans(z: seq<ZEntry>, lo: nat, done0: set<int>)
    requires Grows(z, lo, done0)
    ensures FreshExtension(z, lo, done0)
    decreases |z|
  {
    if |z| > lo {
      var zf := z[..|z| - 1];
      GrowsMeans(zf, lo, done0);
      forall k | lo <= k < |z|
        ensures z[k].Tuple? && |z[k].atoms| == 4 &&
          z[k].atoms[0] !in done0 + Heads(z[..k], lo) &&
          z[k].atoms[1] in done0 + Heads(z[..k], lo) &&
          z[k].atoms[2] in done0 + Heads(z[..k], lo) &&
          z[k].atoms[3] in done0 + Heads(z[..k], lo)
      {
        if k < |zf| {
          assert z[..k] == zf[..k] && z[k] == zf[k];
        } else {
          assert z[..k] == zf;
        }
      }
    }
  }

  /** The loop state: entries from `lo` on are fresh placements from keys, and `done` records them. */
  ghost predicate Placing(tors: seq<Torsion>, done0: set<int>, lo: nat, z: seq<ZEntry>, done: set<int>)
  {
    Grows(z, lo, done0) && done == done0 + Heads(z, lo) &&
    forall k :: lo <= k < |z| ==> FromTorsion(z[k], Keys(tors))
  }

  /** Placing the missing end of key `i`, listed as entry `e`. */
  lemma PlacingStep(tors: seq<Torsion>, done0: set<int>, lo: nat, z: seq<ZEntry>, done: set<int>, i: int, e: ZEntry)
    requires Placing(tors, done0, lo, z, done) && 0 <= i < |tors|
    requires e == Tuple([tors[i].0, tors[i].1, tors[i].2, tors[i].3]) || e == Tuple([tors[i].3, tors[i].2, tors[i].1, tors[i].0])
    requires FreshEntry(e, done)
    ensures Placing(tors, done0, lo, z + [e], done + {e.atoms[0]})
    ensures |Atoms(tors) - (done + {e.atoms[0]})| < |Atoms(tors) - done|
  {
    GrowsStep(z, lo, done0, e);
    assert tors[i] in tors;
    assert FromTorsion(e, Keys(tors));
    var z' := z + [e];
    forall k | lo <= k < |z'|
      ensures FromTorsion(z'[k], Keys(tors))
    {
      if k < |z| {
        assert z'[k] == z[k];
      }
    }
    KeyAtoms(tors, i);
    Progress(Atoms(tors), done, e.atoms[0]);
  }

  /** One key of the pass: it places `a0` when only that atom is new, `a3` when only that one is. */
  method TryKey(tors: seq<Torsion>, ghost done0: set<int>, ghost lo: nat, z: seq<ZEntry>, done: set<int>, togo: int, i: int)
    returns (z': seq<ZEntry>, done': set<int>, togo': int, hit: bool)
    requires Placing(tors, done0, lo, z, done) && 0 <= i < |tors|
    ensures Placing(tors, done0, lo, z', done')
    ensures z <= z' && togo' == togo - (|z'| - |z|)
    ensures hit <==> Placeable(tors[i], done)
    ensures !hit ==> z' == z && done' == done
    ensures hit ==> |Atoms(tors) - done'| < |Atoms(tors) - done|
  {
    var tor := tors[i];
    var a0, a1, a2, a3 := tor.0, tor.1, tor.2, tor.3;
    var dh0, dh1, dh2, dh3 := a0 in done, a1 in done, a2 in done, a3 in done;
    var front := !dh0 && dh1 && dh2 && dh3;
    hit := front || (dh0 && dh1 && dh2 && !dh3);
    if hit {
      var e := if front then Tuple([a0, a1, a2, a3]) else Tuple([a3, a2, a1, a0]);
      PlacingStep(tors, done0, lo, z, done, i, e);
      z', done', togo' := z + [e], done + {e.atoms[0]}, togo - 1;
    } else {
      z', done', togo' := z, done, togo;
    }
  }

  /** One pass of `for tor in list(tors.keys())`. */
  method PlacePass(tors: seq<Torsion>, ghost done0: set<int>, ghost lo: nat, z: seq<ZEntry>, done: set<int>, togo: int)
    returns (z': seq<ZEntry>, done': set<int>, togo': int, placed: bool)
    requires Placing(tors, done0, lo, z, done)
    ensures Placing(tors, done0, lo, z', done')
    ensures z <= z' && togo' == togo - (|z'| - |z|)
    ensures !placed ==> z' == z && done' == done && forall t :: t in tors ==> !Placeable(t, done)
    ensures placed ==> |Atoms(tors) - done'| < |Atoms(tors) - done|
  {
    z', done', togo', placed := z, done, togo, false;
    var i := 0;
    while i < |tors|
      invariant 0 <= i <= |tors|
      invariant Placing(tors, done0, lo, z', done')
      invariant z <= z' && togo' == togo - (|z'| - |z|)
      invariant !placed ==> z' == z && done' == done
      invariant !placed ==> NonePlaceable(tors, i, done)
      invariant placed ==> |Atoms(tors) - done'| < |Atoms(tors) - done|
    {
      var hit;
      z', done', togo', hit := TryKey(tors, done0, lo, z', done', togo', i);
      if hit {
        placed := true;
      } else if !placed {
        NoneStep(tors, i, done);
      }
      i := i + 1;
    }
    if !placed {
      NoneAll(tors, done);
    }
  }

  /** No key among the first `i` can place an atom. */
  predicate NonePlaceable(tors: seq<Torsion>, i: int, done: set<int>)
    requires 0 <= i <= |tors|
  {
    forall m :: 0 <= m < i ==> !Placeable(tors[m], done)
  }

  lemma NoneStep(tors: seq<Torsion>, i: int, done: set<int>)
    requires 0 <= i < |tors| && NonePlaceable(tors, i, done) && !Placeable(tors[i], done)
    ensures NonePlaceable(tors, i + 1, done)
  {
  }

  lemma NoneAll(tors: seq<Torsion>, done: set<int>)
    requires NonePlaceable(tors, |tors|, done)
    ensures forall t :: t in tors ==> !Placeable(t, done)
  {
  }

  /**
   * The `while to_go` loop: passes over the keys in order, each key placing
   * its missing end when the other three atoms are done.  It returns once
   * `to_go` is zero at the end of a pass; a pass that places nothing leaves
   * the state as it was, so the loop would repeat it for ever.
   */
  method PlaceByTorsions(tors: seq<Torsion>, done0: set<int>, z0: seq<ZEntry>, togo0: int)
    returns (r: TuplesOutcome)
    requires togo0 != 0
    ensures r.Returns? ==> togo0 > 0 && |r.z| == |z0| + togo0 && z0 <= r.z
    ensures r.Returns? ==> FreshExtension(r.z, |z0|, done0)
    ensures r.Returns? ==> forall k :: |z0| <= k < |r.z| ==> FromTorsion(r.z[k], Keys(tors))
    ensures r.Spins? ==> done0 <= r.stuck && forall t :: t in Keys(tors) ==> !Placeable(t, r.stuck)
  {
    var done := done0;
    var z := z0;
    var togo := togo0;
    assert Grows(z, |z0|, done0);
    while togo != 0
      invariant Placing(tors, done0, |z0|, z, done)
      invariant z0 <= z && |z| - |z0| == togo0 - togo
      decreases |Atoms(tors) - done|
    {
      var z', done', togo', placed := PlacePass(tors, done0, |z0|, z, done, togo);
      if !placed {
        return Spins(done);
      }
      z, done, togo := z', done', togo';
    }
    GrowsMeans(z, |z0|, done0);
    return Returns(z);
  }

  /** The neighbours of `fst` through the entries of its bucket. */
  function Neighbors(bk: seq<Pair>, fst: int): set<int>
  {
    set e | e in bk :: Neighbor(e, fst)
  }

  /** An entry of the torsion-free branch: a neighbour of `fst`, then `trd, fst, nxt`. */
  predicate Virtual(e: ZEntry, bk: seq<Pair>, fst: int, nxt: int, trd: int)
  {
    e.Tuple? && |e.atoms| == 4 && e.atoms[0] in Neighbors(bk, fst) &&
    e.atoms[1] == trd && e.atoms[2] == fst && e.atoms[3] == nxt
  }

  /** The loop state of the torsion-free branch. */
  ghost predicate ListingVirtual(bk: seq<Pair>, fst: int, nxt: int, trd: int, done0: set<int>, lo: nat, z: seq<ZEntry>, done: set<int>)
  {
    Grows(z, lo, done0) && done == done0 + Heads(z, lo) &&
    forall k :: lo <= k < |z| ==> Virtual(z[k], bk, fst, nxt, trd)
  }

  /** Listing the virtual torsion of entry `i`. */
  lemma VirtualStep(bk: seq<Pair>, fst: int, nxt: int, trd: int, done0: set<int>, lo: nat, z: seq<ZEntry>, done: set<int>, i: int, x: int)
    requires ListingVirtual(bk, fst, nxt, trd, done0, lo, z, done) && 0 <= i < |bk|
    requires x == Neighbor(bk[i], fst) && x !in done && trd in done && fst in done && nxt in done
    ensures ListingVirtual(bk, fst, nxt, trd, done0, lo, z + [Tuple([x, trd, fst, nxt])], done + {x})
  {
    var e := Tuple([x, trd, fst, nxt]);
    assert FreshEntry(e, done);
    GrowsStep(z, lo, done0, e);
    assert bk[i] in bk;
    assert Virtual(e, bk, fst, nxt, trd);
    var z' := z + [e];
    forall k | lo <= k < |z'|
      ensures Virtual(z'[k], bk, fst, nxt, trd)
    {
      if k < |z| {
        assert z'[k] == z[k];
      }
    }
  }

  /**
   * The branch for molecules with no torsions: for each bond of `fst`, its
   * other atom (`index[1]` when `index[0]` is `fst`, `nxt` or `trd`) is
   * listed with the virtual torsion `(neighbor, trd, fst, nxt)` unless it is
   * done.  Afterwards every neighbour of `fst` is done; `to_go` is not
   * consulted again, so the list may be shorter than the molecule.
   */
  method VirtualTorsions(bk: seq<Pair>, fst: int, nxt: int, trd: int, done0: set<int>, z0: seq<ZEntry>, togo0: int)
    returns (z: seq<ZEntry>, done: set<int>, togo: int)
    requires forall e :: e in bk ==> e.0 == fst || e.1 == fst
    requires fst in done0 && nxt in done0 && trd in done0
    ensures z0 <= z && togo == togo0 - (|z| - |z0|)
    ensures FreshExtension(z, |z0|, done0) && done == done0 + Heads(z, |z0|)
    ensures forall k :: |z0| <= k < |z| ==> Virtual(z[k], bk, fst, nxt, trd)
    ensures forall i :: 0 <= i < |bk| ==> Neighbor(bk[i], fst) in done
  {
    z, done, togo := z0, done0, togo0;
    assert Grows(z, |z0|, done0);
    for i := 0 to |bk|
      invariant ListingVirtual(bk, fst, nxt, trd, done0, |z0|, z, done)
      invariant z0 <= z && togo == togo0 - (|z| - |z0|) && done0 <= done
      invariant forall m :: 0 <= m < i ==> Neighbor(bk[m], fst) in done
    {
      var bond := bk[i];
      assert bond in bk;
      var neighbor := bond.0;
      if neighbor == fst || neighbor == nxt || neighbor == trd {
        neighbor := bond.1;
      }
      if neighbor !in done {
        VirtualStep(bk, fst, nxt, trd, done0, |z0|, z, done, i, neighbor);
        z := z + [Tuple([neighbor, trd, fst, nxt])];
        togo := togo - 1;
        done := done + {neighbor};
      }
    }
    GrowsMeans(z, |z0|, done0);
  }

  // ---------------------------------------------------------------------
  // The whole method

  /** `fst` is a multivalent atom nearest the centre, and the first such. */
  ghost predicate NearestCentral(coords: seq<Vec>, buckets: seq<seq<Pair>>, dist: (Vec, Vec) -> real, fst: int)
    requires |coords| > 0 && AllVecs(coords)
  {
    0 <= fst < |coords| && Multivalent(buckets, fst) &&
    (forall k :: 0 <= k < |coords| && Multivalent(buckets, k) ==>
       dist(coords[fst], Center(coords)) <= dist(coords[k], Center(coords))) &&
    (forall k :: 0 <= k < fst && Multivalent(buckets, k) ==>
       dist(coords[fst], Center(coords)) < dist(coords[k], Center(coords)))
  }

  /** `nxt` is the first multivalent neighbour of `fst`, or the one through its last bond. */
  ghost predicate SecondChoice(buckets: seq<seq<Pair>>, fst: int, nxt: int)
    requires 0 <= fst < |buckets|
  {
    exists j :: 0 <= j < |buckets[fst]| && nxt == Neighbor(buckets[fst][j], fst) &&
      (forall i :: 0 <= i < j ==> !Multivalent(buckets, Neighbor(buckets[fst][i], fst))) &&
      (Multivalent(buckets, nxt) || j == |buckets[fst]| - 1)
  }

  /**
   * `trd` is the first multivalent neighbour of `fst` other than `fst` and
   * `nxt`; failing that the first other neighbour; failing that -1.
   */
  ghost predicate ThirdChoice(buckets: seq<seq<Pair>>, fst: int, nxt: int, trd: int)
    requires 0 <= fst < |buckets|
  {
    (trd == -1 <==> forall i :: 0 <= i < |buckets[fst]| ==> Chosen(Neighbor(buckets[fst][i], fst), fst, nxt)) &&
    (trd != -1 ==>
       exists j :: (0 <= j < |buckets[fst]| && trd == Neighbor(buckets[fst][j], fst) && !Chosen(trd, fst, nxt) &&
         ((exists i :: 0 <= i < |buckets[fst]| && PreferredAt(buckets, fst, nxt, i)) ==>
            Multivalent(buckets, trd) && forall i :: 0 <= i < j ==> !PreferredAt(buckets, fst, nxt, i)) &&
         ((forall i :: 0 <= i < |buckets[fst]| ==> !PreferredAt(buckets, fst, nxt, i)) ==>
            forall i :: 0 <= i < j ==> Chosen(Neighbor(buckets[fst][i], fst), fst, nxt))))
  }

  /** The first three atoms: the centre, then `fst`, `nxt` and `trd`. */
  method FirstThree(coords: seq<Vec>, buckets: seq<seq<Pair>>, dist: (Vec, Vec) -> real)
    returns (fst: int, nxt: int, trd: int)
    requires |coords| > 0 && AllVecs(coords) && |buckets| == |coords| && Closed(buckets)
    requires exists k :: 0 <= k < |coords| && Multivalent(buckets, k)
    ensures NearestCentral(coords, buckets, dist, fst)
    ensures SecondChoice(buckets, fst, nxt)
    ensures ThirdChoice(buckets, fst, nxt, trd)
  {
    var center := CenterOf(coords);
    fst := MostCentral(coords, buckets, center, dist);
    ghost var j;
    nxt, j := SecondAtom(buckets, fst);
    assert SecondChoice(buckets, fst, nxt);
    trd, j := ThirdAtom(buckets, fst, nxt);
  }

  /** The list after its first three entries, from the torsions or the virtual torsions. */
  method PlaceRest(bonds: seq<Pair>, buckets: seq<seq<Pair>>, fst: int, nxt: int, trd: int, togo: int)
    returns (r: TuplesOutcome)
    requires InRange(bonds, |buckets|) && 0 <= fst < |buckets|
    requires forall e :: e in buckets[fst] ==> e.0 == fst || e.1 == fst
    ensures r.Returns? ==>
              3 <= |r.z| && r.z[..3] == [Tuple([fst]), Tuple([nxt, fst]), Tuple([trd, fst, nxt])] &&
              FreshExtension(r.z, 3, {fst, nxt, trd})
    ensures togo == 0 ==> r.Returns? && |r.z| == 3
    ensures togo != 0 && TorsionSet(bonds, buckets) != {} && r.Returns? ==>
              |r.z| == 3 + togo && forall k :: 3 <= k < |r.z| ==> FromTorsion(r.z[k], TorsionSet(bonds, buckets))
    ensures togo != 0 && TorsionSet(bonds, buckets) == {} ==>
              r.Returns? &&
              (forall k :: 3 <= k < |r.z| ==> Virtual(r.z[k], buckets[fst], fst, nxt, trd)) &&
              forall i :: 0 <= i < |buckets[fst]| ==> Neighbor(buckets[fst][i], fst) in {fst, nxt, trd} + Heads(r.z, 3)
    ensures r.Spins? ==>
              togo != 0 && TorsionSet(bonds, buckets) != {} && {fst, nxt, trd} <= r.stuck &&
              forall t :: t in TorsionSet(bonds, buckets) ==> !Placeable(t, r.stuck)
  {
    var z := [Tuple([fst]), Tuple([nxt, fst]), Tuple([trd, fst, nxt])];
    var done := {fst, nxt, trd};
    assert FreshExtension(z, 3, done) && z[..3] == z;
    if togo != 0 {
      var tors := FindTorsions(bonds, buckets);
      if |tors| != 0 {
        assert tors[0] in Keys(tors);
        r := PlaceByTorsions(tors, done, z, togo);
      } else {
        var z', done', togo' := VirtualTorsions(buckets[fst], fst, nxt, trd, done, z, togo);
        r := Returns(z');
      }
    } else {
      r := Returns(z);
    }
  }

  /**
   * `get_internal_tuples` on the atom coordinates and bond endpoints.  The
   * first three entries are `(fst,)`, `(nxt, fst)` and `(trd, fst, nxt)`;
   * each later entry places one new atom relative to three placed ones,
   * taken from a torsion key or, without torsions, from the virtual
   * torsion through `fst`.  The ghost results are the buckets of the
   * connected copy and the three chosen atoms.  `ok == false` is the
   * IndexError the copy's bucket loop raises at an endpoint past the
   * atoms, before anything else happens.
   */
  method InternalTuples(coords: seq<Vec>, bonds: seq<Pair>, dist: (Vec, Vec) -> real)
    returns (ok: bool, r: TuplesOutcome, ghost bks: seq<seq<Pair>>, ghost fst: int, ghost nxt: int, ghost trd: int)
    requires AllVecs(coords) && NonNegative(bonds)
    requires InRange(bonds, |coords|) && |coords| >= 3 ==>
               exists k :: 0 <= k < |coords| && Multivalent(AllBuckets(bonds, |coords|), k)
    ensures ok <==> InRange(bonds, |coords|)
    ensures bks == AllBuckets(bonds, |coords|)
    ensures ok && |coords| < 3 ==> r == Returns([Bare(0), Tuple([1, 0])])
    ensures ok && |coords| >= 3 ==>
              NearestCentral(coords, bks, dist, fst) && SecondChoice(bks, fst, nxt) && ThirdChoice(bks, fst, nxt, trd)
    ensures ok && |coords| >= 3 && r.Returns? ==>
              3 <= |r.z| && r.z[..3] == [Tuple([fst]), Tuple([nxt, fst]), Tuple([trd, fst, nxt])] &&
              FreshExtension(r.z, 3, {fst, nxt, trd})
    ensures ok && |coords| == 3 ==> r.Returns? && |r.z| == 3
    ensures ok && |coords| > 3 && TorsionSet(bonds, bks) != {} && r.Returns? ==>
              |r.z| == |coords| && forall k :: 3 <= k < |r.z| ==> FromTorsion(r.z[k], TorsionSet(bonds, bks))
    ensures ok && |coords| > 3 && TorsionSet(bonds, bks) == {} ==>
              r.Returns? &&
              (forall k :: 3 <= k < |r.z| ==> Virtual(r.z[k], bks[fst], fst, nxt, trd)) &&
              forall i :: 0 <= i < |bks[fst]| ==> Neighbor(bks[fst][i], fst) in {fst, nxt, trd} + Heads(r.z, 3)
    ensures ok && r.Spins? ==>
              |coords| > 3 && TorsionSet(bonds, bks) != {} && {fst, nxt, trd} <= r.stuck &&
              forall t :: t in TorsionSet(bonds, bks) ==> !Placeable(t, r.stuck)
  {
    var n := |coords|;
    bks, fst, nxt, trd := AllBuckets(bonds, n), 0, 0, 0;
    // The copy is discarded either way, so its IndexError is tested first.
    ok := InRange(bonds, n);
    if !ok {
      return false, Returns([]), bks, fst, nxt, trd;
    }
    var buckets := ConnectedCopy(bonds, n);
    if n < 3 {
      return true, Returns([Bare(0), Tuple([1, 0])]), bks, fst, nxt, trd;
    }
    BucketsClosed(bonds, n);
    var first, second, third := FirstThree(coords, buckets, dist);
    fst, nxt, trd := first, second, third;
    r := PlaceRest(bonds, buckets, first, second, third, n - 3);
  }

  /** The distance `get_internal_tuples` compares, squared: the nearest atom is the same. */
  function FixtureDist(a: Vec, b: Vec): real
  {
    if IsVec(a) && IsVec(b) then DistanceSq(a, b) else 0.0
  }

  /** The fixture of the test suite: three atoms at x = 0, 1 and 2, each with a bond to itself. */
  const FixtureCoords: seq<Vec> := [[0.0, 0.0, 0.0], [1.0, 0.0, 0.0], [2.0, 0.0, 0.0]]
  const FixtureBonds: seq<Pair> := [(0, 0), (1, 1), (2, 2)]

  /** Each self-loop is listed twice in its own bucket. */
  lemma FixtureBuckets()
    ensures AllBuckets(FixtureBonds, 3) == [[(0, 0), (0, 0)], [(1, 1), (1, 1)], [(2, 2), (2, 2)]]
  {
    var b1, b2 := [(0, 0)], [(0, 0), (1, 1)];
    assert b1[..0] == [] && b2[..1] == b1 && FixtureBonds[..2] == b2;
    assert Bucket(b1, 0) == [(0, 0), (0, 0)] && Bucket(b1, 1) == [] && Bucket(b1, 2) == [];
    assert Bucket(b2, 0) == [(0, 0), (0, 0)] && Bucket(b2, 1) == [(1, 1), (1, 1)] && Bucket(b2, 2) == [];
    assert Bucket(FixtureBonds, 0) == [(0, 0), (0, 0)];
    assert Bucket(FixtureBonds, 1) == [(1, 1), (1, 1)];
    assert Bucket(FixtureBonds, 2) == [(2, 2), (2, 2)];
  }

  /** The centre of the fixture is the middle atom. */
  lemma FixtureCenter()
    ensures Center(FixtureCoords) == [1.0, 0.0, 0.0]
  {
    var c1, c2 := [[0.0, 0.0, 0.0]], [[0.0, 0.0, 0.0], [1.0, 0.0, 0.0]];
    assert c1[..0] == [] && c2[..1] == c1 && FixtureCoords[..2] == c2;
    assert Total(c1) == [0.0, 0.0, 0.0];
    assert Total(c2) == [1.0, 0.0, 0.0];
    assert Total(FixtureCoords) == [3.0, 0.0, 0.0];
  }

  /** Every atom of the fixture is multivalent and the middle one is nearest the centre. */
  lemma FixtureFirst(bks: seq<seq<Pair>>, fst: int)
    requires bks == [[(0, 0), (0, 0)], [(1, 1), (1, 1)], [(2, 2), (2, 2)]]
    requires NearestCentral(FixtureCoords, bks, FixtureDist, fst)
    ensures fst == 1
  {
    FixtureCenter();
    assert Multivalent(bks, 1);
    assert FixtureDist(FixtureCoords[0], [1.0, 0.0, 0.0]) == 1.0;
    assert FixtureDist(FixtureCoords[1], [1.0, 0.0, 0.0]) == 0.0;
    assert FixtureDist(FixtureCoords[2], [1.0, 0.0, 0.0]) == 1.0;
  }

  /** The middle atom's only neighbour is itself, so it is also the second atom and no third is left. */
  lemma FixtureNext(bks: seq<seq<Pair>>, nxt: int, trd: int)
    requires bks == [[(0, 0), (0, 0)], [(1, 1), (1, 1)], [(2, 2), (2, 2)]]
    requires SecondChoice(bks, 1, nxt)
    requires ThirdChoice(bks, 1, 1, trd)
    ensures nxt == 1 && trd == -1
  {
  }

  /** `get_internal_tuples` on the fixture gives `[(1,), (1, 1), (-1, 1, 1)]`. */
  method FixtureTuples() returns (r: TuplesOutcome)
    ensures r == Returns([Tuple([1]), Tuple([1, 1]), Tuple([-1, 1, 1])])
  {
    FixtureBuckets();
    assert Multivalent(AllBuckets(FixtureBonds, 3), 1);
    assert InRange(FixtureBonds, 3);
    ghost var bks, fst, nxt, trd;
    var ok;
    ok, r, bks, fst, nxt, trd := InternalTuples(FixtureCoords, FixtureBonds, FixtureDist);
    FixtureFirst(bks, fst);
    FixtureNext(bks, nxt, trd);
    assert r.Returns? && |r.z| == 3 && r.z == r.z[..3];
  }
}
