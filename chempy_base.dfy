/**
 * The container operations every chempy geometry container shares: residue
 * ranges, the coordinate list, mass and charge sums, and automatic atom
 * naming. They work on the container's atom sequence; the per-atom queries
 * the atom class answers itself (same residue, mass, atomic number) are
 * function parameters.
 */
module ChempyBase {
  import opened Wrappers
  import opened ChempyCore
  import VectorMath

  // ---------------------------------------------------------------------
  // Residue ranges
  // ---------------------------------------------------------------------

  /**
   * `r` partitions the atoms before `end` into consecutive ranges, each a
   * maximal run of atoms in the residue of the run's first atom; only the
   * first range can be empty, and then only because the first atom is not
   * in its own residue.
   */
  ghost predicate Runs(r: seq<(int, int)>, atoms: seq<Atom>, same: (Atom, Atom) -> bool, end: int)
  {
    Tiles(r, |atoms|, end) && RunsInResidue(r, atoms, same)
  }

  /** The ranges are consecutive, start at 0, end at `end` and lie inside `0..n`. */
  ghost predicate Tiles(r: seq<(int, int)>, n: int, end: int)
  {
    && (forall k :: 0 <= k < |r| ==> 0 <= r[k].0 <= r[k].1 <= n)
    && (if r == [] then 0 else r[|r| - 1].1) == end
    && (|r| > 0 ==> r[0].0 == 0)
    && (forall k :: 0 <= k < |r| - 1 ==> r[k].1 == r[k + 1].0)
  }

  /** Each range is a maximal run of one residue, empty only as described above. */
  ghost predicate RunsInResidue(r: seq<(int, int)>, atoms: seq<Atom>, same: (Atom, Atom) -> bool)
    requires forall k :: 0 <= k < |r| ==> 0 <= r[k].0 <= r[k].1 <= |atoms|
  {
    && (forall k :: 0 <= k < |r| && r[k].0 == r[k].1 ==> k == 0 && |atoms| > 0 && !same(atoms[0], atoms[0]))
    && (forall k, j :: 0 <= k < |r| && r[k].0 < j < r[k].1 ==> same(atoms[j], atoms[r[k].0]))
    && (forall k :: 0 <= k < |r| && r[k].1 < |atoms| ==> !same(atoms[r[k].1], atoms[r[k].0]))
  }

  lemma CloseTile(r: seq<(int, int)>, n: int, start: int, i: int)
    requires Tiles(r, n, start) && 0 <= start <= i <= n
    ensures Tiles(r + [(start, i)], n, i)
  {
    var r' := r + [(start, i)];
    assert r'[|r|] == (start, i);
    assert forall k :: 0 <= k < |r| ==> r'[k] == r[k];
    forall k | 0 <= k < |r'| - 1
      ensures r'[k].1 == r'[k + 1].0
    {
      if k + 1 < |r| {
        assert r'[k] == r[k] && r'[k + 1] == r[k + 1];
      } else {
        assert r'[k] == r[|r| - 1];
      }
    }
  }

  lemma CloseResidue(r: seq<(int, int)>, atoms: seq<Atom>, same: (Atom, Atom) -> bool, start: int, i: int)
    requires Tiles(r, |atoms|, start) && RunsInResidue(r, atoms, same)
    requires 0 <= start <= i <= |atoms|
    requires start == i ==> i == 0 && r == [] && i < |atoms|
    requires forall j :: start < j < i ==> same(atoms[j], atoms[start])
    requires i < |atoms| ==> !same(atoms[i], atoms[start])
    ensures Tiles(r + [(start, i)], |atoms|, i) && RunsInResidue(r + [(start, i)], atoms, same)
  {
    CloseTile(r, |atoms|, start, i);
    var r' := r + [(start, i)];
    assert r'[|r|] == (start, i);
    forall k, j | 0 <= k < |r'| && r'[k].0 < j < r'[k].1
      ensures same(atoms[j], atoms[r'[k].0])
    {
      if k < |r| {
        assert r'[k] == r[k];
      }
    }
    forall k | 0 <= k < |r'| && r'[k].1 < |atoms|
      ensures !same(atoms[r'[k].1], atoms[r'[k].0])
    {
      if k < |r| {
        assert r'[k] == r[k];
      }
    }
    forall k | 0 <= k < |r'| && r'[k].0 == r'[k].1
      ensures k == 0 && |atoms| > 0 && !same(atoms[0], atoms[0])
    {
      if k < |r| {
        assert r'[k] == r[k];
      }
    }
  }

  /** Closing the run that starts at `start` where atom `i` leaves its residue. */
  lemma CloseRun(r: seq<(int, int)>, atoms: seq<Atom>, same: (Atom, Atom) -> bool, start: int, i: int)
    requires Runs(r, atoms, same, start)
    requires 0 <= start <= i <= |atoms|
    requires start == i ==> i == 0 && r == [] && i < |atoms|
    requires forall j :: start < j < i ==> same(atoms[j], atoms[start])
    requires i < |atoms| ==> !same(atoms[i], atoms[start])
    ensures Runs(r + [(start, i)], atoms, same, i)
  {
    CloseResidue(r, atoms, same, start, i);
  }

  /**
   * `get_residues`: half-open ranges of consecutive atoms of one residue.
   * `same(a, b)` is `a.in_same_residue(b)`. The ranges cover the atoms from
   * the first on; the last run is reported only when it holds two or more
   * atoms, so the ranges end at the last atom or at the end.
   */
  method GetResidues(atoms: seq<Atom>, same: (Atom, Atom) -> bool) returns (r: seq<(int, int)>)
    ensures |atoms| == 0 ==> r == []
    ensures |atoms| > 0 ==>
      || Runs(r, atoms, same, |atoms| - 1)
      || (Runs(r, atoms, same, |atoms|) && r[|r| - 1].1 - r[|r| - 1].0 >= 2)
  {
    r := [];
    if |atoms| == 0 {
      return;
    }
    var start := 0;
    var i := 0;
    while i < |atoms|
      invariant 0 <= start <= i <= |atoms|
      invariant start < i || start == i == 0
      invariant i == 0 ==> r == []
      invariant Runs(r, atoms, same, start)
      invariant forall j :: start < j < i ==> same(atoms[j], atoms[start])
    {
      if !same(atoms[i], atoms[start]) {
        CloseRun(r, atoms, same, start, i);
        r := r + [(start, i)];
        start := i;
      }
      i := i + 1;
    }
    if i - start > 1 {
      CloseRun(r, atoms, same, start, i);
      r := r + [(start, i)];
    }
  }

  // ---------------------------------------------------------------------
  // Per-atom lists and sums
  // ---------------------------------------------------------------------

  /** `get_coord_list`: the atoms' coordinates, one per atom, in order. */
  function CoordList(atoms: seq<Atom>): (r: seq<seq<real>>)
    ensures |r| == |atoms|
    ensures forall k :: 0 <= k < |atoms| ==> r[k] == atoms[k].coord
  {
    seq(|atoms|, k requires 0 <= k < |atoms| => atoms[k].coord)
  }

  /** Component `j` of the atoms' coordinates, summed atom by atom. */
  function CoordSum(atoms: seq<Atom>, j: nat): real
    requires j < 3 && forall k :: 0 <= k < |atoms| ==> VectorMath.IsVec(atoms[k].coord)
  {
    if atoms == [] then 0.0
    else
      var last := atoms[|atoms| - 1];
      assert VectorMath.IsVec(last.coord);
      CoordSum(atoms[..|atoms| - 1], j) + last.coord[j]
  }

  /** Column `j` of the coordinate list sums component `j` over the atoms. */
  lemma {:induction false} CoordListColumns(atoms: seq<Atom>, j: nat)
    requires j < 3 && forall k :: 0 <= k < |atoms| ==> VectorMath.IsVec(atoms[k].coord)
    ensures VectorMath.AllVecs(CoordList(atoms))
    ensures VectorMath.ColumnSum(CoordList(atoms), j) == CoordSum(atoms, j)
  {
    if atoms != [] {
      var front := atoms[..|atoms| - 1];
      CoordListColumns(front, j);
      assert CoordList(atoms)[..|atoms| - 1] == CoordList(front);
    }
  }

  /** The centroid of `get_coord_list` is the per-axis mean of the atoms' coordinates. */
  lemma CoordListCentroid(atoms: seq<Atom>)
    requires |atoms| > 0 && forall k :: 0 <= k < |atoms| ==> VectorMath.IsVec(atoms[k].coord)
    ensures VectorMath.AllVecs(CoordList(atoms))
    ensures var n := |atoms| as real;
            VectorMath.Centroid(CoordList(atoms)) == [CoordSum(atoms, 0) / n, CoordSum(atoms, 1) / n, CoordSum(atoms, 2) / n]
  {
    CoordListColumns(atoms, 0);
    CoordListColumns(atoms, 1);
    CoordListColumns(atoms, 2);
  }

  /** `get_mass`: the sum of the atoms' masses (`mass` is `Atom.get_mass`). */
  function Mass(atoms: seq<Atom>, mass: Atom -> real): real
  {
    if atoms == [] then 0.0 else Mass(atoms[..|atoms| - 1], mass) + mass(atoms[|atoms| - 1])
  }

  /** The mass of a concatenation is the sum of the parts' masses. */
  lemma {:induction false} MassAppend(a: seq<Atom>, b: seq<Atom>, mass: Atom -> real)
    ensures Mass(a + b, mass) == Mass(a, mass) + Mass(b, mass)
    decreases |b|
  {
    if b != [] {
      var b' := b[..|b| - 1];
      assert (a + b)[..|a + b| - 1] == a + b';
      MassAppend(a, b', mass);
    } else {
      assert a + b == a;
    }
  }

  /** Masses that are never negative sum to a mass that is not negative. */
  lemma {:induction false} MassNonNegative(atoms: seq<Atom>, mass: Atom -> real)
    requires forall a :: mass(a) >= 0.0
    ensures Mass(atoms, mass) >= 0.0
    decreases |atoms|
  {
    if atoms != [] {
      MassNonNegative(atoms[..|atoms| - 1], mass);
    }
  }

  /** `get_nuclear_charges`: the sum of the atoms' atomic numbers. */
  function NuclearCharges(atoms: seq<Atom>, number: Atom -> int): int
  {
    if atoms == [] then 0 else NuclearCharges(atoms[..|atoms| - 1], number) + number(atoms[|atoms| - 1])
  }

  /** The charge of a concatenation is the sum of the parts' charges. */
  lemma {:induction false} NuclearChargesAppend(a: seq<Atom>, b: seq<Atom>, number: Atom -> int)
    ensures NuclearCharges(a + b, number) == NuclearCharges(a, number) + NuclearCharges(b, number)
    decreases |b|
  {
    if b != [] {
      var b' := b[..|b| - 1];
      assert (a + b)[..|a + b| - 1] == a + b';
      NuclearChargesAppend(a, b', number);
    } else {
      assert a + b == a;
    }
  }

  // ---------------------------------------------------------------------
  // Automatic names
  // ---------------------------------------------------------------------

  /** Python's `str(n)` for a natural number: its decimal digits. */
  function NatStr(n: nat): (s: string)
    ensures |s| >= 1
    ensures forall k :: 0 <= k < |s| ==> '0' <= s[k] <= '9'
  {
    if n < 10 then [Digit(n)] else NatStr(n / 10) + [Digit(n % 10)]
  }

  function Digit(d: nat): char
    requires d < 10
  {
    ['0', '1', '2', '3', '4', '5', '6', '7', '8', '9'][d]
  }

  function Pow10(k: nat): (p: nat)
    ensures p >= 1
  {
    if k == 0 then 1 else 10 * Pow10(k - 1)
  }

  /** A number of at least `10^k` has more than `k` digits. */
  lemma {:induction false} NatStrLength(n: nat, k: nat)
    requires n >= Pow10(k)
    ensures |NatStr(n)| > k
  {
    if k > 0 {
      assert n >= 10;
      assert n / 10 >= Pow10(k - 1);
      NatStrLength(n / 10, k - 1);
    }
  }

  /** The length of the longest name in a set. */
  ghost function MaxLength(names: set<string>): (m: nat)
    ensures forall x :: x in names ==> |x| <= m
    decreases names
  {
    if names == {} then 0
    else
      var x :| x in names;
      var rest := MaxLength(names - {x});
      if |x| > rest then |x| else rest
  }

  /** An automatic name: the element symbol followed by a positive counter. */
  ghost predicate AutoName(a: Atom, name: string)
  {
    exists c: nat :: c >= 1 && name == a.symbol + NatStr(c)
  }

  /**
   * The first loop of `assign_names`: with `preserve` it collects the names
   * atoms already hold, otherwise it deletes every name.
   */
  method CollectNames(atoms: seq<Atom>, preserve: bool) returns (names: set<string>)
    modifies set a | a in atoms
    ensures preserve ==> forall a :: a in atoms ==> a.name == old(a.name)
    ensures !preserve ==> forall a :: a in atoms ==> a.name.None?
    ensures forall n :: n in names <==> exists a :: a in atoms && a.name == Some(n)
  {
    names := {};
    var i := 0;
    while i < |atoms|
      invariant 0 <= i <= |atoms|
      invariant preserve ==> forall a :: a in atoms ==> a.name == old(a.name)
      invariant !preserve ==> forall k :: 0 <= k < i ==> atoms[k].name.None?
      invariant forall n :: n in names <==> exists k :: 0 <= k < i && atoms[k].name == Some(n)
    {
      var a := atoms[i];
      if preserve {
        if a.name.Some? {
          names := names + {a.name.value};
        }
      } else if a.name.Some? {
        a.name := None;
      }
      i := i + 1;
    }
  }

  /** A candidate whose counter has more digits than any taken name is free. */
  lemma LongNameFree(symbol: string, n: nat, names: set<string>)
    requires n >= Pow10(MaxLength(names))
    ensures symbol + NatStr(n) !in names
  {
    NatStrLength(n, MaxLength(names));
    assert |symbol + NatStr(n)| > MaxLength(names);
  }

  /** The `while name in names` search: the first free `symbol + str(c)`. */
  method FreeName(symbol: string, c0: nat, names: set<string>) returns (name: string, c: nat)
    requires c0 >= 1
    ensures name !in names
    ensures c >= 1 && (name == symbol + NatStr(c) || (c >= 2 && name == symbol + NatStr(c - 1)))
  {
    c := c0;
    name := symbol + NatStr(c);
    ghost var k: nat := c;
    ghost var bound := Pow10(MaxLength(names));
    if k >= bound {
      LongNameFree(symbol, k, names);
    }
    while name in names
      invariant k >= 1 && name == symbol + NatStr(k) && (c == k || c == k + 1)
      invariant k >= bound ==> name !in names
      decreases bound + 2 - c
    {
      name := symbol + NatStr(c);
      k := c;
      if k >= bound {
        LongNameFree(symbol, k, names);
      }
      c := c + 1;
    }
  }

  /**
   * `assign_names`: every atom ends with a name; without `preserve` all old
   * names are dropped first. Each name handed out is `symbol + counter` and
   * differs from the name of every other atom in the list. Counters are
   * kept per element symbol.
   */
  method AssignNames(atoms: seq<Atom>, preserve: bool)
    modifies set a | a in atoms
    ensures forall a :: a in atoms ==> a.name.Some?
    ensures preserve ==> forall a :: a in atoms && old(a.name).Some? ==> a.name == old(a.name)
    ensures forall a :: a in atoms && (!preserve || old(a.name).None?) ==> AutoName(a, a.name.value)
    ensures forall a, b :: a in atoms && b in atoms && a != b && (!preserve || old(a.name).None?) ==>
      a.name != b.name
  {
    var names := CollectNames(atoms, preserve);
    ghost var given: set<Atom> := {};
    var counter: map<string, nat> := map[];
    var i := 0;
    while i < |atoms|
      invariant 0 <= i <= |atoms|
      invariant forall s :: s in counter ==> counter[s] >= 1
      invariant given <= set a | a in atoms
      invariant forall a :: a in atoms && a.name.Some? ==> a.name.value in names
      invariant forall a :: a in atoms && a !in given ==>
        a.name == (if preserve then old(a.name) else None)
      invariant forall a :: a in given ==> a.name.Some? && AutoName(a, a.name.value)
      invariant forall a :: a in given ==> !preserve || old(a.name).None?
      invariant forall a, b :: a in given && b in atoms && a != b ==> a.name != b.name
      invariant forall k :: 0 <= k < i ==> atoms[k].name.Some?
    {
      var a := atoms[i];
      if a.name.None? {
        var c0 := if a.symbol in counter then counter[a.symbol] else 1;
        var name, c := FreeName(a.symbol, c0, names);
        counter := counter[a.symbol := c];
        a.name := Some(name);
        names := names + {name};
        given := given + {a};
      }
      i := i + 1;
    }
  }
}
