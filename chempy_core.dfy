/**
 * The heap objects shared by chempy's two molecule containers, the
 * identity-keyed atom index, and the loops that renumber bond endpoints
 * when atoms are deleted, inserted, merged or sorted.
 */
module ChempyCore {
  import opened Wrappers
  import opened Sequences

  /**
   * An atom, as far as the container code looks at it.  Python identity
   * (`id(atom)`) is Dafny reference identity.  `name` is `None` when the
   * atom has no `name` attribute.
   */
  class Atom {
    const symbol: string
    const coord: seq<real>
    var name: Option<string>

    constructor (symbol: string, coord: seq<real>, name: Option<string>)
      ensures this.symbol == symbol && this.coord == coord && this.name == name
    {
      this.symbol := symbol;
      this.coord := coord;
      this.name := name;
    }
  }

  /** A bond; `i0` and `i1` are the two cells of the mutable `index` list. */
  class Bond {
    var i0: int
    var i1: int
    const order: int

    constructor (i0: int, i1: int, order: int)
      ensures this.i0 == i0 && this.i1 == i1 && this.order == order
    {
      this.i0 := i0;
      this.i1 := i1;
      this.order := order;
    }
  }

  /** The Python list object holding the atoms; containers can share one. */
  class AtomList {
    var items: seq<Atom>

    constructor (items: seq<Atom>)
      ensures this.items == items
    {
      this.items := items;
    }
  }

  /** The molecule-level record; only its identity matters to the containers. */
  class Molecule {
    constructor ()
    {
    }
  }

  /**
   * A key of the atom index: normally `id(atom)`; `Pos` keys are the plain
   * integers that `delete_list` leaves behind when it rebuilds the index.
   */
  datatype IndexKey = Id(atom: Atom) | Pos(pos: int)

  type Index = map<IndexKey, int>

  // ---------------------------------------------------------------------
  // The atom index

  /**
   * `{id(atom): i for i, atom in enumerate(atoms)}`: every atom of the list
   * is a key, and a later occurrence of the same object overrides an
   * earlier one.
   */
  function BuildIndex(atoms: seq<Atom>): (m: Index)
    ensures forall key :: key in m ==> key.Id? && key.atom in atoms
    ensures forall j :: 0 <= j < |atoms| ==> Id(atoms[j]) in m
    ensures forall key :: key in m ==> 0 <= m[key] < |atoms| && atoms[m[key]] == key.atom
  {
    if atoms == [] then map[]
    else
      var front := atoms[..|atoms| - 1];
      assert forall j :: 0 <= j < |front| ==> atoms[j] == front[j];
      BuildIndex(front)[Id(atoms[|atoms| - 1]) := |atoms| - 1]
  }

  /** The index keeps the last position of an atom listed more than once. */
  lemma {:induction false} BuildIndexKeepsLast(atoms: seq<Atom>, k: int)
    requires 0 <= k < |atoms|
    ensures BuildIndex(atoms)[Id(atoms[k])] >= k
  {
    var n := |atoms|;
    if k < n - 1 && atoms[k] != atoms[n - 1] {
      var front := atoms[..n - 1];
      BuildIndexKeepsLast(front, k);
    }
  }

  /** When every atom occurs once, the index maps each atom to its position. */
  lemma BuildIndexOfDistinct(atoms: seq<Atom>)
    requires NoDuplicates(atoms)
    ensures forall j :: 0 <= j < |atoms| ==> BuildIndex(atoms)[Id(atoms[j])] == j
  {
    forall j | 0 <= j < |atoms|
      ensures BuildIndex(atoms)[Id(atoms[j])] == j
    {
      BuildIndexKeepsLast(atoms, j);
    }
  }

  /** delete_atom's value loop: entries above `p` move down by one. */
  function LowerValues(m: Index, p: int): Index
  {
    map key | key in m :: LowerOnce(m[key], p)
  }

  /** insert_atom's value loop: entries at or above `p` move up by one. */
  function RaiseValues(m: Index, p: int): Index
  {
    map key | key in m :: RaiseOnce(m[key], p)
  }

  /** An index that is exactly what `update_index` would build now. */
  predicate Consistent(m: Index, atoms: seq<Atom>)
  {
    NoDuplicates(atoms) && m == BuildIndex(atoms)
  }

  /** An index whose keys are the listed atoms and whose values are their positions is the built one. */
  lemma CharacterizeIndex(m: Index, s: seq<Atom>)
    requires NoDuplicates(s)
    requires forall key :: key in m ==> key.Id? && key.atom in s
    requires forall j :: 0 <= j < |s| ==> Id(s[j]) in m && m[Id(s[j])] == j
    ensures m == BuildIndex(s)
  {
    BuildIndexOfDistinct(s);
    var r := BuildIndex(s);
    forall key | key in m
      ensures key in r && m[key] == r[key]
    {
      var j :| 0 <= j < |s| && s[j] == key.atom;
      assert key == Id(s[j]);
      assert m[key] == j && r[key] == j;
    }
    forall key | key in r
      ensures key in m
    {
      var j := r[key];
      assert 0 <= j < |s| && s[j] == key.atom;
      assert key == Id(s[j]);
    }
    assert m.Keys == r.Keys;
  }

  /** add_atom keeps a consistent index consistent (when it updates it at all). */
  lemma AppendKeepsIndex(m: Index, atoms: seq<Atom>, a: Atom)
    requires Consistent(m, atoms) && a !in atoms
    ensures Consistent(m[Id(a) := |atoms|], atoms + [a])
  {
    var s := atoms + [a];
    assert s[..|s| - 1] == atoms;
    assert s[|s| - 1] == a;
    assert BuildIndex(s) == m[Id(a) := |atoms|];
    forall i, j | 0 <= i < j < |s|
      ensures s[i] != s[j]
    {
      assert s[i] == atoms[i];
      if j < |atoms| {
        assert s[j] == atoms[j];
      }
    }
  }

  /** delete_atom keeps a consistent index consistent. */
  lemma DeleteKeepsIndex(m: Index, atoms: seq<Atom>, p: int)
    requires Consistent(m, atoms) && 0 <= p < |atoms|
    ensures Consistent(LowerValues(m, p) - {Id(atoms[p])}, atoms[..p] + atoms[p + 1..])
  {
    var s := atoms[..p] + atoms[p + 1..];
    var lhs := LowerValues(m, p) - {Id(atoms[p])};
    RemoveAtShape(atoms, p);
    DeletedIndexKeys(m, atoms, p);
    DeletedIndexValues(m, atoms, p);
    CharacterizeIndex(lhs, s);
  }

  /** Removing position `p`: the later elements move down by one and no duplicate appears. */
  lemma RemoveAtShape(atoms: seq<Atom>, p: int)
    requires NoDuplicates(atoms) && 0 <= p < |atoms|
    ensures var s := atoms[..p] + atoms[p + 1..];
            |s| == |atoms| - 1 &&
            (forall j :: 0 <= j < |s| ==> s[j] == atoms[if j < p then j else j + 1]) &&
            NoDuplicates(s)
  {
    var s := atoms[..p] + atoms[p + 1..];
    assert forall j :: 0 <= j < |s| ==> s[j] == atoms[if j < p then j else j + 1];
    forall i, j | 0 <= i < j < |s|
      ensures s[i] != s[j]
    {
      assert s[i] == atoms[if i < p then i else i + 1];
      assert s[j] == atoms[if j < p then j else j + 1];
    }
  }

  /** Every key left after the deletion is an atom that stays. */
  lemma DeletedIndexKeys(m: Index, atoms: seq<Atom>, p: int)
    requires Consistent(m, atoms) && 0 <= p < |atoms|
    ensures forall key :: key in LowerValues(m, p) - {Id(atoms[p])} ==>
              key.Id? && key.atom in atoms[..p] + atoms[p + 1..]
  {
    var s := atoms[..p] + atoms[p + 1..];
    RemoveAtShape(atoms, p);
    forall key | key in LowerValues(m, p) - {Id(atoms[p])}
      ensures key.Id? && key.atom in s
    {
      var j := m[key];
      assert 0 <= j < |atoms| && atoms[j] == key.atom;
      assert j != p;
      assert s[if j < p then j else j - 1] == key.atom;
    }
  }

  /** Every atom that stays is a key mapped to its new position. */
  lemma DeletedIndexValues(m: Index, atoms: seq<Atom>, p: int)
    requires Consistent(m, atoms) && 0 <= p < |atoms|
    ensures var s := atoms[..p] + atoms[p + 1..];
            var lhs := LowerValues(m, p) - {Id(atoms[p])};
            forall j :: 0 <= j < |s| ==> Id(s[j]) in lhs && lhs[Id(s[j])] == j
  {
    var s := atoms[..p] + atoms[p + 1..];
    var lhs := LowerValues(m, p) - {Id(atoms[p])};
    RemoveAtShape(atoms, p);
    BuildIndexOfDistinct(atoms);
    forall j | 0 <= j < |s|
      ensures Id(s[j]) in lhs && lhs[Id(s[j])] == j
    {
      var k := if j < p then j else j + 1;
      assert s[j] == atoms[k] && k != p;
      assert m[Id(atoms[k])] == k;
      assert atoms[k] != atoms[p];
      assert LowerOnce(k, p) == j;
    }
  }


  lemma InsertedPositions(atoms: seq<Atom>, p: int, a: Atom)
    requires NoDuplicates(atoms) && 0 <= p <= |atoms| && a !in atoms
    ensures var s := atoms[..p] + [a] + atoms[p..];
            NoDuplicates(s) &&
            forall j {:trigger s[j]} :: 0 <= j < |s| ==> s[j] == if j < p then atoms[j] else if j == p then a else atoms[j - 1]
  {
    var s := atoms[..p] + [a] + atoms[p..];
    assert forall j :: 0 <= j < |s| ==>
        s[j] == if j < p then atoms[j] else if j == p then a else atoms[j - 1];
    forall i, j | 0 <= i < j < |s|
      ensures s[i] != s[j]
    {
    }
  }

  /** insert_atom keeps a consistent index consistent. */
  lemma InsertKeepsIndex(m: Index, atoms: seq<Atom>, p: int, a: Atom)
    requires Consistent(m, atoms) && 0 <= p <= |atoms| && a !in atoms
    ensures Consistent(RaiseValues(m, p)[Id(a) := p], atoms[..p] + [a] + atoms[p..])
  {
    var s := atoms[..p] + [a] + atoms[p..];
    var lhs := RaiseValues(m, p)[Id(a) := p];
    BuildIndexOfDistinct(atoms);
    InsertedPositions(atoms, p, a);
    RaisedKeys(m, atoms, p, a, s);
    RaisedValues(m, atoms, p, a, s);
    CharacterizeIndex(lhs, s);
  }

  lemma RaisedKeys(m: Index, atoms: seq<Atom>, p: int, a: Atom, s: seq<Atom>)
    requires forall key :: key in m ==> key.Id? && 0 <= m[key] < |atoms| && atoms[m[key]] == key.atom
    requires 0 <= p <= |atoms| && |s| == |atoms| + 1
    requires forall j {:trigger s[j]} :: 0 <= j < |s| ==> s[j] == if j < p then atoms[j] else if j == p then a else atoms[j - 1]
    ensures forall key :: key in RaiseValues(m, p)[Id(a) := p] ==> key.Id? && key.atom in s
  {
    forall key | key in RaiseValues(m, p)[Id(a) := p]
      ensures key.Id? && key.atom in s
    {
      if key != Id(a) {
        var j := m[key];
        assert s[if j < p then j else j + 1] == key.atom;
      } else {
        assert s[p] == a;
      }
    }
  }

  lemma RaisedValues(m: Index, atoms: seq<Atom>, p: int, a: Atom, s: seq<Atom>)
    requires forall j :: 0 <= j < |atoms| ==> Id(atoms[j]) in m && m[Id(atoms[j])] == j
    requires 0 <= p <= |atoms| && |s| == |atoms| + 1 && a !in atoms
    requires forall j {:trigger s[j]} :: 0 <= j < |s| ==> s[j] == if j < p then atoms[j] else if j == p then a else atoms[j - 1]
    ensures forall j :: 0 <= j < |s| ==> Id(s[j]) in RaiseValues(m, p)[Id(a) := p] && RaiseValues(m, p)[Id(a) := p][Id(s[j])] == j
  {
    var lhs := RaiseValues(m, p)[Id(a) := p];
    forall j | 0 <= j < |s|
      ensures Id(s[j]) in lhs && lhs[Id(s[j])] == j
    {
      if j < p {
        assert s[j] == atoms[j] && s[j] != a;
      } else if j > p {
        assert s[j] == atoms[j - 1] && s[j] != a;
      }
    }
  }

  // ---------------------------------------------------------------------
  // Renumbering one endpoint, repeated once per reference to the bond

  function LowerOnce(x: int, p: int): int
  {
    if x > p then x - 1 else x
  }

  function RaiseOnce(x: int, p: int): int
  {
    if x >= p then x + 1 else x
  }

  /** `LowerOnce` applied `k` times: what a bond referenced `k` times receives. */
  function Lower(x: int, p: int, k: nat): int
  {
    if k == 0 then x else LowerOnce(Lower(x, p, k - 1), p)
  }

  /** `RaiseOnce` applied `k` times. */
  function Raise(x: int, p: int, k: nat): int
  {
    if k == 0 then x else RaiseOnce(Raise(x, p, k - 1), p)
  }

  /** Adding `d` once per reference, as `merge` does. */
  function Shift(x: int, d: int, k: nat): int
  {
    if k == 0 then x else Shift(x, d, k - 1) + d
  }

  /** Lowering `k` times stops at `p`: an endpoint never drops onto or below the deleted slot by more than it started above it. */
  lemma {:induction false} LowerClosedForm(x: int, p: int, k: nat)
    ensures Lower(x, p, k) == if x <= p then x else if x - k > p then x - k else p
  {
    if k > 0 {
      LowerClosedForm(x, p, k - 1);
    }
  }

  /** Raising `k` times moves an endpoint at or above `p` up by exactly `k`. */
  lemma {:induction false} RaiseClosedForm(x: int, p: int, k: nat)
    ensures Raise(x, p, k) == if x >= p then x + k else x
  {
    if k > 0 {
      RaiseClosedForm(x, p, k - 1);
    }
  }

  /** Shifting `k` times by a non-negative amount never lands below that amount. */
  lemma {:induction false} ShiftAtLeast(x: int, d: int, k: nat)
    requires x >= 0 && d >= 0 && k >= 1
    ensures Shift(x, d, k) >= d && Shift(x, d, k) == x + k * d
  {
    if k > 1 {
      ShiftAtLeast(x, d, k - 1);
    }
  }

  /**
   * A non-negative endpoint that merge shifts by the merged atom count
   * subscripts no list of that length: the merged bond dangles, so a later
   * subscript with it is an IndexError.
   */
  lemma MergedEndpointDangles(x: int, total: nat, k: nat)
    requires x >= 0 && k >= 1
    ensures ListSlot(Shift(x, total, k), total).None?
  {
    ShiftAtLeast(x, total, k);
  }

  /** Raising after lowering at the same slot restores every endpoint except the deleted slot's. */
  lemma LowerThenRaise(x: int, p: int)
    requires x != p
    ensures Raise(Lower(x, p, 1), p, 1) == x && Lower(Raise(x, p, 1), p, 1) == x
  {
  }

  // ---------------------------------------------------------------------
  // The renumbering loops

  /** The bonds of a list, as a set, for frames. */
  function Refs(g: seq<Bond>): set<Bond>
  {
    set b | b in g
  }

  /**
   * The re-index loop of delete_atom: every reference lowers both endpoints
   * above `p`, so a bond listed `k` times is lowered `k` times.
   */
  method LowerEndpoints(refs: seq<Bond>, p: int)
    modifies Refs(refs)
    ensures forall b :: b in refs ==>
              b.i0 == Lower(old(b.i0), p, multiset(refs)[b]) &&
              b.i1 == Lower(old(b.i1), p, multiset(refs)[b])
  {
    var i := 0;
    while i < |refs|
      invariant 0 <= i <= |refs|
      invariant forall b :: b in refs ==>
                  b.i0 == Lower(old(b.i0), p, multiset(refs[..i])[b]) &&
                  b.i1 == Lower(old(b.i1), p, multiset(refs[..i])[b])
    {
      var b := refs[i];
      LowerOne(b, p);
      assert refs[..i + 1] == refs[..i] + [b];
      i := i + 1;
    }
    assert refs[..|refs|] == refs;
  }

  method LowerOne(b: Bond, p: int)
    modifies b
    ensures b.i0 == LowerOnce(old(b.i0), p) && b.i1 == LowerOnce(old(b.i1), p)
  {
    if b.i0 > p {
      b.i0 := b.i0 - 1;
    }
    if b.i1 > p {
      b.i1 := b.i1 - 1;
    }
  }

  /** The re-index loop of insert_atom: endpoints at or above `p` move up, once per reference. */
  method RaiseEndpoints(refs: seq<Bond>, p: int)
    modifies Refs(refs)
    ensures forall b :: b in refs ==>
              b.i0 == Raise(old(b.i0), p, multiset(refs)[b]) &&
              b.i1 == Raise(old(b.i1), p, multiset(refs)[b])
  {
    var i := 0;
    while i < |refs|
      invariant 0 <= i <= |refs|
      invariant forall b :: b in refs ==>
                  b.i0 == Raise(old(b.i0), p, multiset(refs[..i])[b]) &&
                  b.i1 == Raise(old(b.i1), p, multiset(refs[..i])[b])
    {
      var b := refs[i];
      RaiseOne(b, p);
      assert refs[..i + 1] == refs[..i] + [b];
      i := i + 1;
    }
    assert refs[..|refs|] == refs;
  }

  method RaiseOne(b: Bond, p: int)
    modifies b
    ensures b.i0 == RaiseOnce(old(b.i0), p) && b.i1 == RaiseOnce(old(b.i1), p)
  {
    if b.i0 >= p {
      b.i0 := b.i0 + 1;
    }
    if b.i1 >= p {
      b.i1 := b.i1 + 1;
    }
  }

  /** The re-index loop of merge: both endpoints grow by `d`, once per reference. */
  method ShiftEndpoints(refs: seq<Bond>, d: int)
    modifies Refs(refs)
    ensures forall b :: b in refs ==>
              b.i0 == Shift(old(b.i0), d, multiset(refs)[b]) &&
              b.i1 == Shift(old(b.i1), d, multiset(refs)[b])
  {
    var i := 0;
    while i < |refs|
      invariant 0 <= i <= |refs|
      invariant forall b :: b in refs ==>
                  b.i0 == Shift(old(b.i0), d, multiset(refs[..i])[b]) &&
                  b.i1 == Shift(old(b.i1), d, multiset(refs[..i])[b])
    {
      var b := refs[i];
      b.i0 := b.i0 + d;
      b.i1 := b.i1 + d;
      assert refs[..i + 1] == refs[..i] + [b];
      i := i + 1;
    }
    assert refs[..|refs|] == refs;
  }

  // ---------------------------------------------------------------------
  // Python list positions

  /**
   * The cell `lst[x]` reads in a list of length `n`: a negative position
   * counts from the end, and `None` is the IndexError of a position
   * outside `-n..n-1`.
   */
  function ListSlot(x: int, n: int): (r: Option<int>)
    ensures r.Some? <==> -n <= x < n
    ensures r.Some? ==> 0 <= r.value < n && (r.value == x || r.value == x + n)
  {
    if 0 <= x < n then Some(x) else if -n <= x < 0 then Some(x + n) else None
  }

  // ---------------------------------------------------------------------
  // Position maps of `sort`

  /** A cross-reference table that is total on, and into, positions 0..n-1. */
  ghost predicate IsXref(xref: map<int, int>, n: int)
  {
    (forall x :: x in xref <==> 0 <= x < n) &&
    (forall x :: x in xref ==> 0 <= xref[x] < n)
  }

  /**
   * `xref` applied `k` times, as `k` successive `xref[x]` lookups; `None`
   * is the KeyError of the first lookup whose key is missing.
   */
  function Chain(xref: map<int, int>, x: int, k: nat): Option<int>
  {
    if k == 0 then Some(x)
    else
      match Chain(xref, x, k - 1)
      case None => None
      case Some(y) => if y in xref then Some(xref[y]) else None
  }

  /** Once a chain breaks, every longer chain from the same start breaks too. */
  lemma {:induction false} ChainBreaks(xref: map<int, int>, x: int, j: nat, k: nat)
    requires j <= k && Chain(xref, x, j).None?
    ensures Chain(xref, x, k).None?
  {
    if j < k {
      ChainBreaks(xref, x, j, k - 1);
    }
  }

  /**
   * Through a total table, a chain of one or more lookups succeeds exactly
   * from a position in range, and then stays in range.
   */
  lemma {:induction false} ChainXref(xref: map<int, int>, n: int, x: int, k: nat)
    requires IsXref(xref, n)
    ensures 0 <= x < n ==> Chain(xref, x, k).Some? && 0 <= Chain(xref, x, k).value < n
    ensures k > 0 && !(0 <= x < n) ==> Chain(xref, x, k).None?
  {
    if k > 0 {
      ChainXref(xref, n, x, k - 1);
    }
  }

  /**
   * The remapping loop of `sort`: each reference sends both endpoints
   * through `xref` once more.  `ok == false` is the KeyError of an
   * endpoint missing from the table; the loop stops there, leaving the
   * earlier bonds remapped.
   */
  method RemapEndpoints(refs: seq<Bond>, xref: map<int, int>) returns (ok: bool)
    modifies Refs(refs)
    ensures ok <==> forall b :: b in refs ==> !Broken(xref, old(b.i0), old(b.i1), multiset(refs)[b])
    ensures ok ==> forall b :: b in refs ==> Remapped(xref, b, old(b.i0), old(b.i1), multiset(refs)[b])
  {
    var i := 0;
    ghost var seen: multiset<Bond> := multiset{};
    while i < |refs|
      invariant 0 <= i <= |refs| && seen == multiset(refs[..i])
      invariant forall b :: b in refs ==> Remapped(xref, b, old(b.i0), old(b.i1), seen[b])
    {
      var b := refs[i];
      PrefixMultiset(refs, i);
      ghost var seen' := seen + multiset{b};
      ok := RemapOne(b, xref, old(b.i0), old(b.i1), seen[b]);
      if !ok {
        PrefixCount(refs, i);
        StaysBroken(xref, old(b.i0), old(b.i1), seen[b] + 1, multiset(refs)[b]);
        return;
      }
      forall c | c in refs
        ensures Remapped(xref, c, old(c.i0), old(c.i1), seen'[c])
      {
        if c != b {
          assert seen'[c] == seen[c];
        }
      }
      seen := seen';
      i := i + 1;
    }
    assert refs[..|refs|] == refs;
    ok := true;
  }

  /** One of the two chains from `x0` and `x1` breaks within `k` lookups. */
  predicate Broken(xref: map<int, int>, x0: int, x1: int, k: nat)
  {
    Chain(xref, x0, k).None? || Chain(xref, x1, k).None?
  }

  lemma StaysBroken(xref: map<int, int>, x0: int, x1: int, j: nat, k: nat)
    requires j <= k && Broken(xref, x0, x1, j)
    ensures Broken(xref, x0, x1, k)
  {
    if Chain(xref, x0, j).None? {
      ChainBreaks(xref, x0, j, k);
    } else {
      ChainBreaks(xref, x1, j, k);
    }
  }

  /** After `k` passes the endpoints of `b`, which started at `x0` and `x1`, are those the chains reach. */
  predicate Remapped(xref: map<int, int>, b: Bond, x0: int, x1: int, k: nat)
    reads b
  {
    Chain(xref, x0, k) == Some(b.i0) && Chain(xref, x1, k) == Some(b.i1)
  }

  /** The element at `i` occurs more often in the whole list than before `i`. */
  lemma PrefixCount<T>(s: seq<T>, i: int)
    requires 0 <= i < |s|
    ensures multiset(s[..i])[s[i]] < multiset(s)[s[i]]
  {
    assert s == s[..i] + [s[i]] + s[i + 1..];
  }

  /**
   * One more pass of `b` through `xref`, `k` passes after its endpoints
   * were `x0` and `x1`.  The first cell is written before the second is
   * looked up, so a failing second lookup leaves the first one remapped.
   */
  method RemapOne(b: Bond, xref: map<int, int>, ghost x0: int, ghost x1: int, ghost k: nat) returns (ok: bool)
    requires Remapped(xref, b, x0, x1, k)
    modifies b
    ensures !ok <==> Broken(xref, x0, x1, k + 1)
    ensures ok ==> Remapped(xref, b, x0, x1, k + 1)
  {
    if b.i0 !in xref {
      return false;
    }
    b.i0 := xref[b.i0];
    if b.i1 !in xref {
      return false;
    }
    b.i1 := xref[b.i1];
    return true;
  }

  // ---------------------------------------------------------------------
  // Removing the bonds of a deleted atom

  predicate Mentions(b: Bond, p: int)
    reads b
  {
    b.i0 == p || b.i1 == p
  }

  /** The bonds of `g` that do not mention `p`, in their order. */
  function Detached(g: seq<Bond>, p: int): seq<Bond>
    reads Refs(g)
  {
    if g == [] then []
    else
      var last := g[|g| - 1];
      Detached(g[..|g| - 1], p) + (if Mentions(last, p) then [] else [last])
  }

  /** Removal keeps every reference to a bond that does not mention `p`, and no other. */
  lemma {:induction false} DetachedContents(g: seq<Bond>, p: int)
    ensures forall b :: b in g ==>
              multiset(Detached(g, p))[b] == if Mentions(b, p) then 0 else multiset(g)[b]
    ensures forall b :: b in Detached(g, p) ==> b in g && !Mentions(b, p)
  {
    if g != [] {
      var front := g[..|g| - 1];
      var last := g[|g| - 1];
      assert g == front + [last];
      DetachedContents(front, p);
      assert multiset(g) == multiset(front) + multiset{last};
      forall b | b in Detached(g, p)
        ensures b in g && !Mentions(b, p)
      {
        if b in Detached(front, p) {
          assert b in front;
        }
      }
      forall b | b in g
        ensures multiset(Detached(g, p))[b] == if Mentions(b, p) then 0 else multiset(g)[b]
      {
        if b !in front {
          assert multiset(front)[b] == 0;
          assert b !in Detached(front, p);
          assert multiset(Detached(front, p))[b] == 0;
        }
      }
    }
  }

  lemma {:induction false} DetachedAppend(a: seq<Bond>, b: seq<Bond>, p: int)
    ensures Detached(a + b, p) == Detached(a, p) + Detached(b, p)
    decreases |b|
  {
    if b == [] {
      assert a + b == a;
    } else {
      var front := b[..|b| - 1];
      var last := b[|b| - 1];
      var tail := if Mentions(last, p) then [] else [last];
      assert (a + b)[..|a + b| - 1] == a + front;
      assert (a + b)[|a + b| - 1] == last;
      assert Detached(a + b, p) == Detached(a + front, p) + tail;
      DetachedAppend(a, front, p);
      assert Detached(b, p) == Detached(front, p) + tail;
    }
  }

  lemma {:induction false} DetachedUntouched(g: seq<Bond>, p: int)
    requires forall b :: b in g ==> !Mentions(b, p)
    ensures Detached(g, p) == g
  {
    if g != [] {
      DetachedUntouched(g[..|g| - 1], p);
      assert g[..|g| - 1] + [g[|g| - 1]] == g;
    }
  }

  /** `[i for i, bond in enumerate(g) if p in bond.index]`. */
  function MentionPositions(g: seq<Bond>, p: int): seq<int>
    reads Refs(g)
  {
    if g == [] then []
    else MentionPositions(g[..|g| - 1], p) + (if Mentions(g[|g| - 1], p) then [|g| - 1] else [])
  }

  /** The positions are increasing and are exactly those of the bonds that mention `p`. */
  lemma MentionPositionsFacts(g: seq<Bond>, p: int)
    ensures var t := MentionPositions(g, p);
      (forall i :: 0 <= i < |t| ==> 0 <= t[i] < |g| && Mentions(g[t[i]], p)) &&
      (forall i, j :: 0 <= i < j < |t| ==> t[i] < t[j]) &&
      (forall j :: 0 <= j < |g| && Mentions(g[j], p) ==> j in t)
  {
    MentionPositionsSound(g, p);
    MentionPositionsIncreasing(g, p);
    MentionPositionsComplete(g, p);
  }

  /** Each listed position is a position of `g` whose bond mentions `p`. */
  lemma {:induction false} MentionPositionsSound(g: seq<Bond>, p: int)
    ensures forall i :: 0 <= i < |MentionPositions(g, p)| ==>
      0 <= MentionPositions(g, p)[i] < |g| && Mentions(g[MentionPositions(g, p)[i]], p)
  {
    if g != [] {
      var front := g[..|g| - 1];
      MentionPositionsSound(front, p);
      var tf := MentionPositions(front, p);
      var t := MentionPositions(g, p);
      assert forall i :: 0 <= i < |tf| ==> 0 <= tf[i] < |front| && Mentions(front[tf[i]], p);
      assert t == tf + (if Mentions(g[|g| - 1], p) then [|g| - 1] else []);
      forall i | 0 <= i < |t|
        ensures 0 <= t[i] < |g| && Mentions(g[t[i]], p)
      {
        if i < |tf| {
          assert t[i] == tf[i] && g[tf[i]] == front[tf[i]];
        } else {
          assert t[i] == |g| - 1 && Mentions(g[|g| - 1], p);
        }
      }
    }
  }

  /** The listed positions increase. */
  lemma {:induction false} MentionPositionsIncreasing(g: seq<Bond>, p: int)
    ensures forall i, j :: 0 <= i < j < |MentionPositions(g, p)| ==>
      MentionPositions(g, p)[i] < MentionPositions(g, p)[j]
  {
    if g != [] {
      var front := g[..|g| - 1];
      MentionPositionsIncreasing(front, p);
      MentionPositionsSound(front, p);
      var tf := MentionPositions(front, p);
      var t := MentionPositions(g, p);
      assert forall i :: 0 <= i < |tf| ==> 0 <= tf[i] < |front|;
      assert forall i, j :: 0 <= i < j < |tf| ==> tf[i] < tf[j];
      assert forall i :: 0 <= i < |tf| ==> 0 <= tf[i] < |front| && Mentions(front[tf[i]], p);
      assert t == tf + (if Mentions(g[|g| - 1], p) then [|g| - 1] else []);
      forall i, j | 0 <= i < j < |t|
        ensures t[i] < t[j]
      {
        assert t[i] == tf[i] && tf[i] < |front|;
        if j < |tf| {
          assert t[j] == tf[j];
        }
      }
    }
  }

  /** Every bond that mentions `p` has its position listed. */
  lemma {:induction false} MentionPositionsComplete(g: seq<Bond>, p: int)
    ensures forall j :: 0 <= j < |g| && Mentions(g[j], p) ==> j in MentionPositions(g, p)
  {
    if g != [] {
      var front := g[..|g| - 1];
      MentionPositionsComplete(front, p);
      var tf := MentionPositions(front, p);
      var t := MentionPositions(g, p);
      assert forall j :: 0 <= j < |front| && Mentions(front[j], p) ==> j in tf;
      assert t == tf + (if Mentions(g[|g| - 1], p) then [|g| - 1] else []);
      forall j | 0 <= j < |g| && Mentions(g[j], p)
        ensures j in t
      {
        if j < |g| - 1 {
          assert front[j] == g[j];
          assert j in tf;
        }
      }
    }
  }

  /** The facts about one entry of the position list used by the deletion loop. */
  lemma MentionPositionAt(g: seq<Bond>, p: int, t: seq<int>, i: int)
    requires t == MentionPositions(g, p) && 0 <= i < |t|
    ensures 0 <= t[i] < |g| && Mentions(g[t[i]], p)
    ensures i > 0 ==> t[i - 1] < t[i]
  {
    MentionPositionsFacts(g, p);
  }

  /** Extending the processed prefix past untouched bonds and one mentioning bond. */
  lemma DetachedPast(g: seq<Bond>, p: int, u: int, j: int)
    requires 0 <= u <= j < |g|
    requires forall k :: u <= k < j ==> !Mentions(g[k], p)
    requires Mentions(g[j], p)
    ensures Detached(g[..j + 1], p) == Detached(g[..u], p) + g[u..j]
  {
    var mid := g[u..j];
    assert g[..j + 1] == (g[..u] + mid) + [g[j]];
    DetachedAppend(g[..u] + mid, [g[j]], p);
    DetachedAppend(g[..u], mid, p);
    DetachedUntouched(mid, p);
    assert Detached([g[j]], p) == [] by {
      assert [g[j]][..0] == [];
    }
  }

  /** One `del g[j - i]`: the i-th mentioning position `j` leaves the list. */
  lemma DeleteStep(g: seq<Bond>, p: int, h: seq<Bond>, u: int, j: int, i: int)
    requires 0 <= u <= j < |g|
    requires forall k :: u <= k < j ==> !Mentions(g[k], p)
    requires Mentions(g[j], p)
    requires h == Detached(g[..u], p) + g[u..] && |Detached(g[..u], p)| == u - i
    ensures 0 <= j - i < |h|
    ensures h[..j - i] + h[j - i + 1..] == Detached(g[..j + 1], p) + g[j + 1..]
    ensures |Detached(g[..j + 1], p)| == j + 1 - (i + 1)
  {
    DetachedPast(g, p, u, j);
    var d := Detached(g[..u], p);
    assert g[u..] == g[u..j] + [g[j]] + g[j + 1..];
    assert h == d + g[u..j] + [g[j]] + g[j + 1..];
  }

  /** Between two consecutive mentioning positions (or past the last) no bond mentions `p`. */
  lemma NoMentionBetween(g: seq<Bond>, p: int, t: seq<int>, i: int, lo: int, hi: int)
    requires t == MentionPositions(g, p)
    requires 0 <= i <= |t| && 0 <= lo && hi <= |g|
    requires i > 0 ==> t[i - 1] < lo
    requires i < |t| ==> hi <= t[i]
    ensures forall k :: lo <= k < hi ==> !Mentions(g[k], p)
  {
    MentionPositionsFacts(g, p);
  }

  /** Once past the last mentioning position the rest of the list is kept whole. */
  lemma DetachedTail(g: seq<Bond>, p: int, u: int)
    requires 0 <= u <= |g|
    requires forall k :: u <= k < |g| ==> !Mentions(g[k], p)
    ensures Detached(g[..u], p) + g[u..] == Detached(g, p)
  {
    DetachedUntouched(g[u..], p);
    DetachedAppend(g[..u], g[u..], p);
    assert g[..u] + g[u..] == g;
  }

  /**
   * delete_atom's removal: collect the positions that mention `p`, then
   * `del g[j - i]` for the i-th of them.  The result is `Detached(g, p)`.
   */
  method RemoveMentioning(g: seq<Bond>, p: int) returns (h: seq<Bond>)
    ensures h == Detached(g, p)
  {
    var t := MentionPositions(g, p);
    h := g;
    var i := 0;
    ghost var u := 0;
    assert g[..0] == [] && g[0..] == g;
    assert RemovalState(g, p, t, 0, 0, g);
    while i < |t|
      invariant RemovalState(g, p, t, i, u, h)
    {
      var j := t[i];
      RemovalBound(g, p, t, i, u, h);
      ghost var (i0, u0, h0) := (i, u, h);
      h := h[..j - i] + h[j - i + 1..];
      i := i + 1;
      u := j + 1;
      RemovalStep(g, p, t, i0, u0, h0, i, u, h);
    }
    RemovalDone(g, p, t, i, u, h);
  }

  /** The deletion loop's state after `i` deletions: the bonds before `u` are detached, the rest untouched. */
  ghost predicate RemovalState(g: seq<Bond>, p: int, t: seq<int>, i: int, u: int, h: seq<Bond>)
    reads Refs(g)
  {
    && t == MentionPositions(g, p)
    && 0 <= i <= |t|
    && u == (if i == 0 then 0 else t[i - 1] + 1)
    && 0 <= u <= |g|
    && h == Detached(g[..u], p) + g[u..]
    && |Detached(g[..u], p)| == u - i
  }

  /** The position the next pass deletes lies inside the current list. */
  lemma RemovalBound(g: seq<Bond>, p: int, t: seq<int>, i: int, u: int, h: seq<Bond>)
    requires RemovalState(g, p, t, i, u, h) && i < |t|
    ensures 0 <= t[i] - i < |h|
  {
    MentionPositionAt(g, p, t, i);
    NoMentionBetween(g, p, t, i, u, t[i]);
    DeleteStep(g, p, h, u, t[i], i);
  }

  /** One pass of the deletion loop, `del h[t[i] - i]`, keeps its state. */
  lemma RemovalStep(g: seq<Bond>, p: int, t: seq<int>, i: int, u: int, h: seq<Bond>,
                    i': int, u': int, h': seq<Bond>)
    requires RemovalState(g, p, t, i, u, h) && i < |t|
    requires i' == i + 1 && u' == t[i] + 1
    requires 0 <= t[i] - i < |h| && h' == h[..t[i] - i] + h[t[i] - i + 1..]
    ensures RemovalState(g, p, t, i', u', h')
  {
    var j := t[i];
    MentionPositionAt(g, p, t, i);
    NoMentionBetween(g, p, t, i, u, j);
    DeleteStep(g, p, h, u, j, i);
  }

  /** After the last deletion the list is the detached one. */
  lemma RemovalDone(g: seq<Bond>, p: int, t: seq<int>, i: int, u: int, h: seq<Bond>)
    requires RemovalState(g, p, t, i, u, h) && i >= |t|
    ensures h == Detached(g, p)
  {
    NoMentionBetween(g, p, t, i, u, |g|);
    DetachedTail(g, p, u);
  }
}
