/**
 * The cross-reference table of `Indexed.delete_list`.  The requested
 * positions are sorted and consumed smallest first while the atom positions
 * are walked in order; a position is deleted when it equals the next
 * unconsumed request.  A request that is never met (a duplicate, a negative
 * or too large position) blocks every later request, which this model keeps.
 */
module Compaction {
  import opened Wrappers
  import opened Sequences
  import opened ChempyCore

  // ---------------------------------------------------------------------
  // Sorting the requests

  predicate Ascending(s: seq<int>)
  {
    forall i, j :: 0 <= i < j < |s| ==> s[i] <= s[j]
  }

  predicate StrictlyAscending(s: seq<int>)
  {
    forall i, j :: 0 <= i < j < |s| ==> s[i] < s[j]
  }

  function InsertAscending(x: int, s: seq<int>): (r: seq<int>)
    requires Ascending(s)
    ensures Ascending(r) && multiset(r) == multiset(s) + multiset{x}
  {
    if s == [] then [x]
    else if x <= s[0] then
      AscendingCons(x, s);
      [x] + s
    else
      var rest := InsertAscending(x, s[1..]);
      assert s == [s[0]] + s[1..];
      AboveHead(x, s, rest);
      AscendingCons(s[0], rest);
      [s[0]] + rest
  }

  lemma AscendingCons(h: int, s: seq<int>)
    requires Ascending(s) && forall k :: 0 <= k < |s| ==> h <= s[k]
    ensures Ascending([h] + s)
  {
    var r := [h] + s;
    forall i, j | 0 <= i < j < |r| ensures r[i] <= r[j] {
      assert r[j] == s[j - 1];
      if i > 0 {
        assert r[i] == s[i - 1];
      }
    }
  }

  lemma AboveHead(x: int, s: seq<int>, rest: seq<int>)
    requires Ascending(s) && s != [] && x > s[0]
    requires multiset(rest) == multiset(s[1..]) + multiset{x}
    ensures forall k :: 0 <= k < |rest| ==> s[0] <= rest[k]
  {
    forall k | 0 <= k < |rest| ensures s[0] <= rest[k] {
      var y := rest[k];
      assert y in multiset(rest);
      if y != x {
        assert y in multiset(s[1..]);
        var t :| 0 <= t < |s[1..]| && s[1..][t] == y;
        assert s[t + 1] == y;
      }
    }
  }

  /** `list.sort()` on integers. */
  function Sorted(s: seq<int>): (r: seq<int>)
    ensures Ascending(r) && multiset(r) == multiset(s)
  {
    if s == [] then []
    else
      assert s == [s[0]] + s[1..];
      InsertAscending(s[0], Sorted(s[1..]))
  }

  // ---------------------------------------------------------------------
  // The walk over the atom positions

  /** How many requests of the ascending list `s` have been met at the positions below `i`. */
  function Scan(s: seq<int>, i: nat): (j: nat)
    ensures j <= |s| && j <= i
  {
    if i == 0 then 0
    else
      var j := Scan(s, i - 1);
      if j < |s| && s[j] == i - 1 then j + 1 else j
  }

  /** Position `k` equals the next unconsumed request when the walk reaches it. */
  predicate Deleted(s: seq<int>, k: nat)
  {
    Scan(s, k) < |s| && s[Scan(s, k)] == k
  }

  /** The table entry for `k`: -1 for a deleted position, otherwise `k` minus the deletions below it. */
  function NewPosition(s: seq<int>, k: nat): int
  {
    if Deleted(s, k) then -1 else k - Scan(s, k)
  }

  /** The atoms whose table entry is not negative, in their old order. */
  function Survivors<T>(atoms: seq<T>, s: seq<int>): seq<T>
  {
    if atoms == [] then []
    else
      var n := |atoms| - 1;
      Survivors(atoms[..n], s) + (if Deleted(s, n) then [] else [atoms[n]])
  }

  lemma {:induction false} SurvivorsLength<T>(atoms: seq<T>, s: seq<int>)
    ensures |Survivors(atoms, s)| == |atoms| - Scan(s, |atoms|)
  {
    if atoms != [] {
      SurvivorsLength(atoms[..|atoms| - 1], s);
    }
  }

  /** The surviving list has one slot per kept position, and the kept atom at `k` lands at `NewPosition(s, k)`. */
  lemma {:induction false} SurvivorsShape<T>(atoms: seq<T>, s: seq<int>)
    ensures |Survivors(atoms, s)| == |atoms| - Scan(s, |atoms|)
    ensures forall k :: 0 <= k < |atoms| && !Deleted(s, k) ==>
              0 <= NewPosition(s, k) < |Survivors(atoms, s)| &&
              Survivors(atoms, s)[NewPosition(s, k)] == atoms[k]
  {
    if atoms != [] {
      var n := |atoms| - 1;
      var front := atoms[..n];
      SurvivorsShape(front, s);
      forall k | 0 <= k < |atoms| && !Deleted(s, k)
        ensures 0 <= NewPosition(s, k) < |Survivors(atoms, s)|
        ensures Survivors(atoms, s)[NewPosition(s, k)] == atoms[k]
      {
        if k < n {
          assert front[k] == atoms[k];
        }
      }
    }
  }

  /** The table never moves a position up, and the deletions below `j` exceed those below `i` by at most `j - i`. */
  lemma {:induction false} ScanGrowth(s: seq<int>, i: nat, j: nat)
    requires i <= j
    ensures Scan(s, i) <= Scan(s, j) <= Scan(s, i) + (j - i)
  {
    if i < j {
      ScanGrowth(s, i, j - 1);
    }
  }

  /** Kept positions keep their relative order and are packed without gaps. */
  lemma KeptOrder(s: seq<int>, k: nat, k': nat)
    requires k < k' && !Deleted(s, k) && !Deleted(s, k')
    ensures 0 <= NewPosition(s, k) < NewPosition(s, k')
  {
    ScanGrowth(s, k + 1, k');
  }

  // ---------------------------------------------------------------------
  // Distinct, in-range requests delete exactly themselves

  /** Sorting distinct requests gives a strictly ascending list. */
  lemma SortedStrictly(indexes: seq<int>)
    requires NoDuplicates(indexes)
    ensures StrictlyAscending(Sorted(indexes))
  {
    var s := Sorted(indexes);
    PermutationNoDuplicates(indexes, s);
  }

  /** The walk over a strictly ascending list stops exactly at the requests below `i`. */
  lemma {:induction false} ScanSplits(s: seq<int>, i: nat)
    requires StrictlyAscending(s) && forall k :: 0 <= k < |s| ==> s[k] >= 0
    ensures forall k :: 0 <= k < Scan(s, i) ==> s[k] < i
    ensures forall k :: Scan(s, i) <= k < |s| ==> s[k] >= i
    ensures Scan(s, i) < |s| ==> s[Scan(s, i)] >= i
  {
    if i > 0 {
      ScanSplits(s, i - 1);
    }
  }

  /**
   * For distinct requests inside 0..n-1, `delete_list` deletes exactly the
   * requested positions and all of them.
   */
  lemma DeletedIffRequested(indexes: seq<int>, n: nat)
    requires NoDuplicates(indexes)
    requires forall k :: 0 <= k < |indexes| ==> 0 <= indexes[k] < n
    ensures forall k :: 0 <= k < n ==> (Deleted(Sorted(indexes), k) <==> k in indexes)
    ensures Scan(Sorted(indexes), n) == |indexes|
  {
    var s := Sorted(indexes);
    SortedStrictly(indexes);
    SortedInRange(indexes, n);
    forall k | 0 <= k < n ensures Deleted(s, k) <==> k in indexes {
      DeletedIffMember(s, k);
      MemberOfSorted(indexes, k);
      assert (Deleted(s, k) <==> k in s) && (k in s <==> k in indexes);
    }
    ScanReachesEnd(s, n);
    assert |s| == |multiset(s)| == |multiset(indexes)| == |indexes|;
  }

  lemma MemberOfSorted(indexes: seq<int>, k: int)
    ensures k in Sorted(indexes) <==> k in indexes
  {
    assert k in Sorted(indexes) <==> k in multiset(Sorted(indexes));
    assert k in indexes <==> k in multiset(indexes);
  }

  lemma ScanReachesEnd(s: seq<int>, n: nat)
    requires StrictlyAscending(s) && forall k :: 0 <= k < |s| ==> 0 <= s[k] < n
    ensures Scan(s, n) == |s|
  {
    ScanSplits(s, n);
  }

  lemma SortedInRange(indexes: seq<int>, n: nat)
    requires forall k :: 0 <= k < |indexes| ==> 0 <= indexes[k] < n
    ensures forall k :: 0 <= k < |Sorted(indexes)| ==> 0 <= Sorted(indexes)[k] < n
  {
    var s := Sorted(indexes);
    forall k | 0 <= k < |s| ensures 0 <= s[k] < n {
      assert s[k] in multiset(indexes);
    }
  }

  lemma DeletedIffMember(s: seq<int>, k: nat)
    requires StrictlyAscending(s) && forall t :: 0 <= t < |s| ==> s[t] >= 0
    ensures Deleted(s, k) <==> k in s
  {
    ScanSplits(s, k);
    var j := Scan(s, k);
    if k in s {
      var t :| 0 <= t < |s| && s[t] == k;
      assert j <= t;
      assert s[j] <= s[t];
    }
  }

  // ---------------------------------------------------------------------
  // The bonds that survive, and the rebuilt index

  /** Both endpoints are positions the table keeps. */
  predicate BondSurvives(b: Bond, s: seq<int>)
    reads b
  {
    b.i0 >= 0 && b.i1 >= 0 && !Deleted(s, b.i0) && !Deleted(s, b.i1)
  }

  /** The references whose two endpoints survive, in their order. */
  function KeptBonds(g: seq<Bond>, s: seq<int>): seq<Bond>
    reads Refs(g)
  {
    if g == [] then []
    else
      var last := g[|g| - 1];
      KeptBonds(g[..|g| - 1], s) + (if BondSurvives(last, s) then [last] else [])
  }

  lemma {:induction false} KeptBondsContents(g: seq<Bond>, s: seq<int>)
    ensures forall b :: b in KeptBonds(g, s) ==> b in g && BondSurvives(b, s)
  {
    if g != [] {
      var front := g[..|g| - 1];
      KeptBondsContents(front, s);
      assert forall b :: b in front ==> b in g;
    }
  }

  /**
   * The index comprehension of delete_list: each surviving atom's OLD index
   * entry becomes a key (`Pos`) mapped to its new position.  `None` stands
   * for the KeyError of an atom without an entry.
   */
  function PosIndex(m: Index, atoms: seq<Atom>): (r: Option<Index>)
    ensures r.Some? <==> forall k :: 0 <= k < |atoms| ==> Id(atoms[k]) in m
    ensures r.Some? ==> forall key :: key in r.value ==> key.Pos? && 0 <= r.value[key] < |atoms|
  {
    if atoms == [] then Some(map[])
    else
      var n := |atoms| - 1;
      assert forall k :: 0 <= k < n ==> atoms[..n][k] == atoms[k];
      var front := PosIndex(m, atoms[..n]);
      if front.None? || Id(atoms[n]) !in m then None
      else Some(front.value[Pos(m[Id(atoms[n])]) := n])
  }

  /**
   * With an index that maps every atom to its position, the rebuilt index
   * is keyed by the OLD positions of the survivors and maps each of them to
   * its NEW position, instead of mapping atoms to positions.
   */
  lemma {:induction false} PosIndexOfSurvivors(m: Index, atoms: seq<Atom>, s: seq<int>)
    requires forall j :: 0 <= j < |atoms| ==> Id(atoms[j]) in m && m[Id(atoms[j])] == j
    ensures var r := PosIndex(m, Survivors(atoms, s));
            r.Some? && PosIndexed(r.value, |atoms|, s)
  {
    if atoms != [] {
      var n := |atoms| - 1;
      var front := atoms[..n];
      assert forall j :: 0 <= j < n ==> front[j] == atoms[j];
      PosIndexOfSurvivors(m, front, s);
      PosIndexStep(m, atoms, s);
    }
  }

  /** The rebuilt index is keyed by the kept positions below `n` and maps each to its new position. */
  predicate PosIndexed(r: Index, n: nat, s: seq<int>)
  {
    && (forall key :: key in r ==> key.Pos? && 0 <= key.pos < n && !Deleted(s, key.pos))
    && (forall k :: 0 <= k < n && !Deleted(s, k) ==> Pos(k) in r && r[Pos(k)] == NewPosition(s, k))
  }

  /** One more atom: the rebuilt index of the longer list extends the shorter one's. */
  lemma PosIndexStep(m: Index, atoms: seq<Atom>, s: seq<int>)
    requires atoms != []
    requires forall j :: 0 <= j < |atoms| ==> Id(atoms[j]) in m && m[Id(atoms[j])] == j
    requires var rf := PosIndex(m, Survivors(atoms[..|atoms| - 1], s));
             rf.Some? && PosIndexed(rf.value, |atoms| - 1, s)
    ensures var r := PosIndex(m, Survivors(atoms, s));
            r.Some? && PosIndexed(r.value, |atoms|, s)
  {
    var n := |atoms| - 1;
    var sf := Survivors(atoms[..n], s);
    var rf := PosIndex(m, sf).value;
    SurvivorsLength(atoms[..n], s);
    assert Survivors(atoms, s) == sf + (if Deleted(s, n) then [] else [atoms[n]]);
    if Deleted(s, n) {
      assert Survivors(atoms, s) == sf;
      assert PosIndex(m, Survivors(atoms, s)) == Some(rf);
      SkipPosIndex(rf, n, s);
      assert PosIndexed(rf, |atoms|, s);
    } else {
      assert Survivors(atoms, s) == sf + [atoms[n]];
      assert m[Id(atoms[n])] == n && |sf| == NewPosition(s, n);
      PosIndexAppend(m, sf, atoms[n]);
      assert PosIndex(m, Survivors(atoms, s)) == Some(rf[Pos(n) := NewPosition(s, n)]);
      ExtendPosIndex(rf, n, s);
      assert PosIndexed(rf[Pos(n) := NewPosition(s, n)], |atoms|, s);
    }
  }

  lemma PosIndexAppend(m: Index, x: seq<Atom>, a: Atom)
    requires PosIndex(m, x).Some? && Id(a) in m
    ensures PosIndex(m, x + [a]) == Some(PosIndex(m, x).value[Pos(m[Id(a)]) := |x|])
  {
    assert (x + [a])[..|x|] == x;
  }

  /** One more kept position: its old position becomes a key mapped to its new one. */
  lemma ExtendPosIndex(rf: Index, n: nat, s: seq<int>)
    requires !Deleted(s, n) && PosIndexed(rf, n, s)
    ensures PosIndexed(rf[Pos(n) := NewPosition(s, n)], n + 1, s)
  {
  }

  /** A deleted position adds no key. */
  lemma SkipPosIndex(rf: Index, n: nat, s: seq<int>)
    requires Deleted(s, n) && PosIndexed(rf, n, s)
    ensures PosIndexed(rf, n + 1, s)
  {
  }

  // ---------------------------------------------------------------------
  // The three loops of delete_list

  /**
   * The cross-reference loop: `next` is the request at `j`, the next one a
   * `pop()` of the reversed sorted copy would return (none once `j` reaches
   * the end); `shft` counts the deletions so far, negated.
   */
  method CrossReference(s: seq<int>, n: nat) returns (oldToNew: seq<int>, shft: int)
    ensures |oldToNew| == n && shft == -(Scan(s, n) as int)
    ensures forall k :: 0 <= k < n ==> oldToNew[k] == NewPosition(s, k)
  {
    shft := 0;
    var j := 0;
    oldToNew := [];
    var i := 0;
    while i < n
      invariant 0 <= i <= n && |oldToNew| == i && j == Scan(s, i) && shft == -j
      invariant forall k :: 0 <= k < i ==> oldToNew[k] == NewPosition(s, k)
    {
      if j < |s| && i == s[j] {
        oldToNew := oldToNew + [-1];
        j := j + 1;
        shft := shft - 1;
      } else {
        oldToNew := oldToNew + [i + shft];
      }
      i := i + 1;
    }
  }

  /** The atom loop: the atoms whose table entry is not negative. */
  method KeepAtoms(atoms: seq<Atom>, s: seq<int>, oldToNew: seq<int>) returns (kept: seq<Atom>)
    requires |oldToNew| == |atoms| && forall k :: 0 <= k < |atoms| ==> oldToNew[k] == NewPosition(s, k)
    ensures kept == Survivors(atoms, s)
  {
    kept := [];
    var i := 0;
    while i < |atoms|
      invariant 0 <= i <= |atoms| && kept == Survivors(atoms[..i], s)
    {
      assert atoms[..i + 1][..i] == atoms[..i];
      if oldToNew[i] >= 0 {
        kept := kept + [atoms[i]];
      }
      i := i + 1;
    }
    assert atoms[..|atoms|] == atoms;
  }

  /**
   * The bond loop.  Each reference reads the bond's current endpoints and
   * looks the first one up in the table; a first endpoint mapped to -1 drops
   * the reference without looking at the second.  Otherwise the second is
   * looked up, and when both entries are kept the bond is renumbered in
   * place and the reference kept.  `ok == false` is the KeyError of an
   * endpoint outside the table; the loop stops there.
   */
  method RenumberBonds(g: seq<Bond>, t: seq<int>) returns (ok: bool, kept: seq<Bond>)
    modifies Refs(g)
    ensures ok <==> forall b :: b in g ==> Passes(t, old(b.i0), old(b.i1), multiset(g)[b]).Some?
    ensures ok ==> kept == old(Renumbered(g, t))
    ensures ok ==> forall b :: b in g ==> Passes(t, old(b.i0), old(b.i1), multiset(g)[b]) == Some((b.i0, b.i1))
  {
    // The endpoints every bond starts from.
    ghost var from := map c | c in g :: (c.i0, c.i1);
    RenumberedFromStart(g, t, from);
    kept := [];
    var i := 0;
    ghost var seen: multiset<Bond> := multiset{};
    while i < |g|
      invariant 0 <= i <= |g| && seen == multiset(g[..i])
      invariant kept == RenumberedFrom(g[..i], t, from)
      invariant PassesSoFar(g, t, from, seen)
    {
      var b := g[i];
      RenumberedFromStep(g, t, from, i);
      PrefixMultiset(g, i);
      var keep;
      ok, keep := RenumberRef(g, t, from, seen, b);
      if !ok {
        PrefixCount(g, i);
        StaysFailed(t, from[b].0, from[b].1, seen[b] + 1, multiset(g)[b]);
        return;
      }
      if keep {
        kept := kept + [b];
      }
      seen := seen + multiset{b};
      i := i + 1;
    }
    assert g[..|g|] == g;
    ok := true;
  }

  /**
   * The bond loop over a table whose kept entries lie below `m`: when it
   * completes, every kept bond has both endpoints below `m`.
   */
  method RenumberInto(g: seq<Bond>, t: seq<int>, m: int) returns (ok: bool, kept: seq<Bond>)
    requires TableInto(t, m) && m <= |t|
    modifies Refs(g)
    ensures ok <==> forall b :: b in g ==> Passes(t, old(b.i0), old(b.i1), multiset(g)[b]).Some?
    ensures ok ==> kept == old(Renumbered(g, t))
    ensures ok ==> forall b :: b in g ==> Passes(t, old(b.i0), old(b.i1), multiset(g)[b]) == Some((b.i0, b.i1))
    ensures ok ==> forall b :: b in kept ==> 0 <= b.i0 < m && 0 <= b.i1 < m
  {
    ghost var from := map c | c in g :: (c.i0, c.i1);
    RenumberedEverKept(g, t);
    ghost var r := Renumbered(g, t);
    assert forall b :: b in r ==> b in g && EverKept(t, from[b].0, from[b].1, multiset(g)[b]);
    ok, kept := RenumberBonds(g, t);
    if ok {
      forall b | b in kept
        ensures 0 <= b.i0 < m && 0 <= b.i1 < m
      {
        assert Passes(t, from[b].0, from[b].1, multiset(g)[b]) == Some((b.i0, b.i1));
        PassesStayIn(t, m, from[b].0, from[b].1, multiset(g)[b]);
      }
    }
  }

  /** `Renumbered`, with the starting endpoints read from `from` rather than from the bonds. */
  ghost function RenumberedFrom(g: seq<Bond>, t: seq<int>, from: map<Bond, (int, int)>): seq<Bond>
    requires forall c :: c in g ==> c in from
  {
    if g == [] then []
    else
      var front, last := g[..|g| - 1], g[|g| - 1];
      assert forall c :: c in front ==> c in g;
      RenumberedFrom(front, t, from) + (if KeptAt(t, from[last].0, from[last].1, multiset(front)[last]) then [last] else [])
  }

  /** Reference `i` is kept after the ones before it when its pass, numbered by how often its bond came before, keeps it. */
  lemma RenumberedFromStep(g: seq<Bond>, t: seq<int>, from: map<Bond, (int, int)>, i: int)
    requires 0 <= i < |g| && forall c :: c in g ==> c in from
    ensures RenumberedFrom(g[..i + 1], t, from) ==
            RenumberedFrom(g[..i], t, from) + (if KeptAt(t, from[g[i]].0, from[g[i]].1, multiset(g[..i])[g[i]]) then [g[i]] else [])
  {
    assert g[..i + 1][..i] == g[..i];
  }

  /** While `from` records the bonds' endpoints, the two agree. */
  lemma {:induction false} RenumberedFromStart(g: seq<Bond>, t: seq<int>, from: map<Bond, (int, int)>)
    requires forall c :: c in g ==> c in from && from[c] == (c.i0, c.i1)
    ensures Renumbered(g, t) == RenumberedFrom(g, t, from)
  {
    if g != [] {
      var front := g[..|g| - 1];
      assert forall c :: c in front ==> c in g;
      RenumberedFromStart(front, t, from);
    }
  }

  /** Every bond of `g` is where `seen[c]` passes take its starting endpoints. */
  ghost predicate PassesSoFar(g: seq<Bond>, t: seq<int>, from: map<Bond, (int, int)>, seen: multiset<Bond>)
    reads Refs(g)
  {
    forall c :: c in g ==> c in from && Passes(t, from[c].0, from[c].1, seen[c]) == Some((c.i0, c.i1))
  }

  /** One reference `b` of the loop: only `b` moves, by one more pass. */
  method RenumberRef(g: seq<Bond>, t: seq<int>, ghost from: map<Bond, (int, int)>, ghost seen: multiset<Bond>, b: Bond)
    returns (ok: bool, keep: bool)
    requires b in g && PassesSoFar(g, t, from, seen)
    modifies b
    ensures ok <==> Passes(t, from[b].0, from[b].1, seen[b] + 1).Some?
    ensures ok ==> (keep <==> KeptAt(t, from[b].0, from[b].1, seen[b]))
    ensures ok ==> PassesSoFar(g, t, from, seen + multiset{b})
  {
    ok, keep := RenumberOne(b, t, from[b].0, from[b].1, seen[b]);
    if ok {
      forall c | c in g
        ensures c in from && Passes(t, from[c].0, from[c].1, (seen + multiset{b})[c]) == Some((c.i0, c.i1))
      {
        if c != b {
          assert (seen + multiset{b})[c] == seen[c];
        }
      }
    }
  }

  /**
   * One reference of the bond loop, whose bond started at `x0`, `x1` and has
   * had `k` passes: `ok == false` is a KeyError, `keep` says whether it was
   * renumbered and kept.
   */
  method RenumberOne(b: Bond, t: seq<int>, ghost x0: int, ghost x1: int, ghost k: nat) returns (ok: bool, keep: bool)
    requires Passes(t, x0, x1, k) == Some((b.i0, b.i1))
    modifies b
    ensures ok <==> Passes(t, x0, x1, k + 1).Some?
    ensures ok ==> Passes(t, x0, x1, k + 1) == Some((b.i0, b.i1))
    ensures ok ==> (keep <==> KeptAt(t, x0, x1, k))
  {
    var b0 := b.i0;
    var b1 := b.i1;
    if !(0 <= b0 < |t|) {
      return false, false;
    }
    if t[b0] < 0 {
      return true, false;
    }
    if !(0 <= b1 < |t|) {
      return false, false;
    }
    if t[b1] < 0 {
      return true, false;
    }
    b.i0 := t[b0];
    b.i1 := t[b1];
    return true, true;
  }

  /** What one pass of the bond loop does to a reference whose bond has endpoints `x0`, `x1`. */
  datatype Pass = Fails | Drops | Keeps(j0: int, j1: int)

  function PassOf(t: seq<int>, x0: int, x1: int): Pass
  {
    if !(0 <= x0 < |t|) then Fails
    else if t[x0] < 0 then Drops
    else if !(0 <= x1 < |t|) then Fails
    else if t[x1] < 0 then Drops
    else Keeps(t[x0], t[x1])
  }

  /** The endpoints after `k` passes from `x0`, `x1`; `None` once a pass has failed. */
  function Passes(t: seq<int>, x0: int, x1: int, k: nat): Option<(int, int)>
  {
    if k == 0 then Some((x0, x1))
    else
      match Passes(t, x0, x1, k - 1)
      case None => None
      case Some(e) =>
        match PassOf(t, e.0, e.1)
        case Fails => None
        case Drops => Some(e)
        case Keeps(y0, y1) => Some((y0, y1))
  }

  /** Whether pass number `k + 1` keeps the reference. */
  predicate KeptAt(t: seq<int>, x0: int, x1: int, k: nat)
  {
    Passes(t, x0, x1, k).Some? && PassOf(t, Passes(t, x0, x1, k).value.0, Passes(t, x0, x1, k).value.1).Keeps?
  }

  /**
   * The references the bond loop keeps, starting from the endpoints the
   * bonds have now: the reference at position `i` is the pass numbered by
   * how often its bond occurs before `i`.
   */
  function Renumbered(g: seq<Bond>, t: seq<int>): seq<Bond>
    reads Refs(g)
  {
    if g == [] then []
    else
      var front := g[..|g| - 1];
      var last := g[|g| - 1];
      Renumbered(front, t) + (if KeptAt(t, last.i0, last.i1, multiset(front)[last]) then [last] else [])
  }

  /** Once a pass has failed, later ones fail too. */
  lemma {:induction false} StaysFailed(t: seq<int>, x0: int, x1: int, j: nat, k: nat)
    requires j <= k && Passes(t, x0, x1, j).None?
    ensures Passes(t, x0, x1, k).None?
  {
    if j < k {
      StaysFailed(t, x0, x1, j, k - 1);
    }
  }

  /** Every entry of the table is -1 or a position below `m`. */
  predicate TableInto(t: seq<int>, m: int)
  {
    forall k :: 0 <= k < |t| ==> t[k] == -1 || 0 <= t[k] < m
  }

  /** Some pass before pass number `k + 1` kept the reference. */
  predicate EverKept(t: seq<int>, x0: int, x1: int, k: nat)
  {
    exists j :: 0 <= j < k && KeptAt(t, x0, x1, j)
  }

  /**
   * Once a pass has kept a reference, its bond's endpoints stay below `m`:
   * later passes either drop the reference, leaving the endpoints, or look
   * them up again and land below `m` once more.
   */
  lemma {:induction false} PassesStayIn(t: seq<int>, m: int, x0: int, x1: int, k: nat)
    requires TableInto(t, m) && m <= |t|
    requires EverKept(t, x0, x1, k) && Passes(t, x0, x1, k).Some?
    ensures 0 <= Passes(t, x0, x1, k).value.0 < m && 0 <= Passes(t, x0, x1, k).value.1 < m
  {
    var j :| 0 <= j < k && KeptAt(t, x0, x1, j);
    if j < k - 1 {
      assert Passes(t, x0, x1, k - 1).Some?;
      assert EverKept(t, x0, x1, k - 1);
      PassesStayIn(t, m, x0, x1, k - 1);
    }
  }

  /** Every reference the loop keeps belongs to a bond that some pass kept. */
  lemma {:induction false} RenumberedEverKept(g: seq<Bond>, t: seq<int>)
    ensures forall b: Bond :: b in Renumbered(g, t) ==> b in g && EverKept(t, b.i0, b.i1, multiset(g)[b])
  {
    if g != [] {
      var front: seq<Bond> := g[..|g| - 1];
      var last := g[|g| - 1];
      assert g == front + [last];
      RenumberedEverKept(front, t);
      forall b: Bond | b in Renumbered(g, t)
        ensures b in g && EverKept(t, b.i0, b.i1, multiset(g)[b])
      {
        if b in Renumbered(front, t) {
          assert b in front && multiset(front)[b] <= multiset(g)[b];
        } else {
          assert b == last && KeptAt(t, b.i0, b.i1, multiset(front)[b]);
        }
      }
    }
  }

  /**
   * When every bond is listed once and its endpoints lie in the table, each
   * bond goes through one pass: the loop keeps exactly the bonds whose two
   * endpoints survive and renumbers them to their new positions.
   */
  lemma {:induction false} RenumberedDistinct(g: seq<Bond>, s: seq<int>, t: seq<int>)
    requires NoDuplicates(g)
    requires forall k :: 0 <= k < |t| ==> t[k] == NewPosition(s, k)
    requires forall b :: b in g ==> 0 <= b.i0 < |t| && 0 <= b.i1 < |t|
    ensures Renumbered(g, t) == KeptBonds(g, s)
    ensures forall b :: b in g ==>
              Passes(t, b.i0, b.i1, multiset(g)[b]) ==
              (if BondSurvives(b, s) then Some((NewPosition(s, b.i0), NewPosition(s, b.i1))) else Some((b.i0, b.i1)))
  {
    RenumberedOnce(g, s, t);
    forall b | b in g
      ensures Passes(t, b.i0, b.i1, multiset(g)[b]) ==
              (if BondSurvives(b, s) then Some((NewPosition(s, b.i0), NewPosition(s, b.i1))) else Some((b.i0, b.i1)))
    {
      NoDuplicatesCount(g, b);
      FirstPass(s, t, b);
    }
  }

  /** The first pass of a bond whose endpoints lie in the table keeps it exactly when both survive. */
  lemma FirstPass(s: seq<int>, t: seq<int>, b: Bond)
    requires forall k :: 0 <= k < |t| ==> t[k] == NewPosition(s, k)
    requires 0 <= b.i0 < |t| && 0 <= b.i1 < |t|
    ensures KeptAt(t, b.i0, b.i1, 0) <==> BondSurvives(b, s)
    ensures Passes(t, b.i0, b.i1, 1) ==
            (if BondSurvives(b, s) then Some((NewPosition(s, b.i0), NewPosition(s, b.i1))) else Some((b.i0, b.i1)))
  {
    assert Passes(t, b.i0, b.i1, 0) == Some((b.i0, b.i1));
  }

  lemma {:induction false} RenumberedOnce(g: seq<Bond>, s: seq<int>, t: seq<int>)
    requires NoDuplicates(g)
    requires forall k :: 0 <= k < |t| ==> t[k] == NewPosition(s, k)
    requires forall b :: b in g ==> 0 <= b.i0 < |t| && 0 <= b.i1 < |t|
    ensures Renumbered(g, t) == KeptBonds(g, s)
  {
    if g != [] {
      var front := g[..|g| - 1];
      var last := g[|g| - 1];
      assert NoDuplicates(front) by {
        forall i, j | 0 <= i < j < |front| ensures front[i] != front[j] {
          assert front[i] == g[i] && front[j] == g[j];
        }
      }
      assert forall b :: b in front ==> b in g;
      RenumberedOnce(front, s, t);
      assert last !in front by {
        forall i | 0 <= i < |front| ensures front[i] != last {
          assert front[i] == g[i];
        }
      }
      assert multiset(front)[last] == 0;
      FirstPass(s, t, last);
    }
  }

  /** The table `delete_list` builds for the sorted requests `s` over `n` atoms. */
  function Table(s: seq<int>, n: nat): (t: seq<int>)
    ensures |t| == n && forall k :: 0 <= k < n ==> t[k] == NewPosition(s, k)
  {
    seq(n, (k: int) requires 0 <= k => NewPosition(s, k))
  }

  /** The table sends every kept position below the number of survivors. */
  lemma TableIntoSurvivors<T>(atoms: seq<T>, s: seq<int>)
    ensures TableInto(Table(s, |atoms|), |Survivors(atoms, s)|) && |Survivors(atoms, s)| <= |atoms|
  {
    SurvivorsShape(atoms, s);
  }

  /** The bond loop runs to its end: no pass of any reference fails. */
  ghost predicate RenumberSucceeds(g: seq<Bond>, t: seq<int>)
    reads Refs(g)
  {
    forall b :: b in g ==> Passes(t, b.i0, b.i1, multiset(g)[b]).Some?
  }
}
