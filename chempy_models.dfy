/**
 * chempy's two molecule containers.  `Indexed` keeps one flat list of
 * bonds; `Connected` keeps, for every atom position, a bucket of the bonds
 * that touch it, so a bond between two atoms is referenced from two
 * buckets and a self-loop twice from one.  Both share the atom-list and
 * index handling of their common base class.
 */
module ChempyModels {
  import opened Wrappers
  import opened Sequences
  import opened ChempyCore
  import opened ChempyBase
  import opened Compaction
  import opened Buckets
  import opened Valence

  // ---------------------------------------------------------------------
  // The flat-bond-list container

  class Indexed {
    var index: Option<Index>
    var molecule: Molecule
    var atom: AtomList
    var bond: seq<Bond>

    constructor ()
      ensures index == None && fresh(molecule) && fresh(atom) && atom.items == [] && bond == []
    {
      index := None;
      molecule := new Molecule();
      atom := new AtomList([]);
      bond := [];
    }

    /**
     * add_atom: appends and returns the new position; the index gains the
     * atom only when it is a non-empty dictionary (Python truthiness).
     */
    method AddAtom(a: Atom) returns (r: int)
      modifies this`index, atom
      ensures r == |old(atom.items)| && atom.items == old(atom.items) + [a]
      ensures index == if old(index).Some? && old(index).value != map[]
                       then Some(old(index).value[Id(a) := r]) else old(index)
    {
      atom.items := atom.items + [a];
      r := |atom.items| - 1;
      if index.Some? && index.value != map[] {
        index := Some(index.value[Id(a) := r]);
      }
    }

    /**
     * merge: appends the other container's atoms and bonds, then resets it.
     * Every incoming endpoint grows by the atom count measured after the
     * extension (once per reference), so it lands past the end of the merged
     * atom list.  When the two containers share one atom list, the reset of
     * `other` empties it.  The index is rebuilt only when it is a non-empty
     * dictionary.
     */
    method Merge(other: Indexed)
      requires other != this
      modifies this`bond, this`index, atom, other`index, other`molecule, other`bond, other.atom, Refs(other.bond)
      ensures atom.items == if atom == other.atom then [] else old(atom.items) + old(other.atom.items)
      ensures bond == old(bond) + old(other.bond)
      ensures forall b :: b in old(other.bond) ==>
                var total := |old(atom.items)| + |old(other.atom.items)|;
                var k := multiset(old(other.bond))[b];
                b.i0 == Shift(old(b.i0), total, k) && b.i1 == Shift(old(b.i1), total, k)
      ensures other.atom.items == [] && other.bond == [] && other.index == None && fresh(other.molecule)
      ensures index == if old(index).Some? && old(index).value != map[]
                       then Some(BuildIndex(atom.items)) else old(index)
    {
      atom.items := atom.items + other.atom.items;
      var total := |atom.items|;
      var incoming := other.bond;
      ShiftEndpoints(incoming, total);
      bond := bond + incoming;
      other.Reset();
      if index.Some? && index.value != map[] {
        UpdateIndex();
      }
    }

    /**
     * delete_atom: lowers the index entries above `p` and drops the atom's
     * key (a missing key is the source's KeyError, reported as `ok ==
     * false` with only the index changed), removes the atom and every bond
     * mentioning `p`, and lowers the remaining endpoints above `p`.
     */
    method DeleteAtom(p: int) returns (ok: bool)
      requires 0 <= p < |atom.items|
      modifies this`index, this`bond, atom, Refs(bond)
      ensures ok <==> old(index).None? || Id(old(atom.items)[p]) in old(index).value
      ensures old(index).Some? ==> index == Some(
                if ok then LowerValues(old(index).value, p) - {Id(old(atom.items)[p])}
                else LowerValues(old(index).value, p))
      ensures old(index).None? ==> index == None
      ensures !ok ==> atom.items == old(atom.items) && bond == old(bond) &&
                      forall b :: b in bond ==> b.i0 == old(b.i0) && b.i1 == old(b.i1)
      ensures ok ==> atom.items == old(atom.items[..p] + atom.items[p + 1..])
      ensures ok ==> bond == old(Detached(bond, p))
      ensures ok ==> forall b :: b in old(bond) && b in bond ==>
                       b.i0 == Lower(old(b.i0), p, multiset(bond)[b]) &&
                       b.i1 == Lower(old(b.i1), p, multiset(bond)[b])
      ensures ok ==> forall b :: b in old(bond) && b !in bond ==> b.i0 == old(b.i0) && b.i1 == old(b.i1)
    {
      var a := atom.items[p];
      if index.Some? {
        var m := LowerValues(index.value, p);
        if Id(a) !in m {
          index := Some(m);
          return false;
        }
        index := Some(m - {Id(a)});
      }
      RemoveAt(p);
      return true;
    }

    /** `del self.atom[index]` and the bond half of delete_atom. */
    method RemoveAt(p: int)
      requires 0 <= p < |atom.items|
      modifies this`bond, atom, Refs(bond)
      ensures atom.items == old(atom.items[..p] + atom.items[p + 1..])
      ensures bond == old(Detached(bond, p))
      ensures forall b :: b in old(bond) && b in bond ==>
                b.i0 == Lower(old(b.i0), p, multiset(bond)[b]) &&
                b.i1 == Lower(old(b.i1), p, multiset(bond)[b])
      ensures forall b :: b in old(bond) && b !in bond ==> b.i0 == old(b.i0) && b.i1 == old(b.i1)
    {
      atom.items := atom.items[..p] + atom.items[p + 1..];
      DropBondsOf(p);
    }

    /** The bond half of delete_atom: removal, then renumbering of what is left. */
    method DropBondsOf(p: int)
      modifies this`bond, Refs(bond)
      ensures bond == old(Detached(bond, p))
      ensures forall b :: b in old(bond) && b in bond ==>
                b.i0 == Lower(old(b.i0), p, multiset(bond)[b]) &&
                b.i1 == Lower(old(b.i1), p, multiset(bond)[b])
      ensures forall b :: b in old(bond) && b !in bond ==> b.i0 == old(b.i0) && b.i1 == old(b.i1)
    {
      var kept := RemoveMentioning(bond, p);
      DetachedContents(bond, p);
      bond := kept;
      LowerEndpoints(bond, p);
    }

    /**
     * insert_atom: puts `a` at position `p`, raises every endpoint at or
     * above `p` (once per reference), and shifts the index the same way
     * before mapping `a` to `p`.
     */
    method InsertAtom(p: int, a: Atom)
      requires 0 <= p <= |atom.items|
      modifies this`index, atom, Refs(bond)
      ensures atom.items == old(atom.items[..p]) + [a] + old(atom.items[p..])
      ensures forall b :: b in bond ==>
                b.i0 == Raise(old(b.i0), p, multiset(bond)[b]) &&
                b.i1 == Raise(old(b.i1), p, multiset(bond)[b])
      ensures index == if old(index).Some? then Some(RaiseValues(old(index).value, p)[Id(a) := p]) else None
    {
      atom.items := atom.items[..p] + [a] + atom.items[p..];
      RaiseEndpoints(bond, p);
      if index.Some? {
        index := Some(RaiseValues(index.value, p)[Id(a) := p]);
      }
    }

    /** reset: no index, a new molecule, and the two lists emptied in place. */
    method Reset()
      modifies this`index, this`molecule, this`bond, atom
      ensures index == None && fresh(molecule) && atom.items == [] && bond == []
    {
      index := None;
      molecule := new Molecule();
      atom.items := [];
      bond := [];
    }

    /** update_index: the index is rebuilt from the current atom list. */
    method UpdateIndex()
      modifies this`index
      ensures index == Some(BuildIndex(atom.items))
    {
      index := Some(BuildIndex(atom.items));
    }

    /**
     * delete_list: nothing happens unless some request is met.  Otherwise the
     * atom list is replaced by a new list of the survivors and every bond
     * reference goes through the table once (a bond listed twice is
     * renumbered twice, the second time from its new endpoints).  An
     * endpoint outside the table is a KeyError (`ok == false`) that leaves
     * the bond list and the index as they were; the endpoints renumbered
     * before it are not described.  Otherwise the kept
     * references become the bond list, all of them between surviving
     * atoms, and an existing index is rebuilt keyed by each survivor's old
     * index entry (`ok == false` is the KeyError of a survivor without one).
     */
    method DeleteList(indexes: seq<int>) returns (ok: bool)
      modifies this`atom, this`bond, this`index, Refs(bond)
      ensures var s := Sorted(indexes);
              Scan(s, |old(atom.items)|) == 0 ==>
                ok && atom == old(atom) && atom.items == old(atom.items) && bond == old(bond) &&
                index == old(index) && forall b :: b in bond ==> b.i0 == old(b.i0) && b.i1 == old(b.i1)
      ensures var s := Sorted(indexes);
              Scan(s, |old(atom.items)|) > 0 ==>
                fresh(atom) && atom.items == Survivors(old(atom.items), s)
      ensures var t := Table(Sorted(indexes), |old(atom.items)|);
              Scan(Sorted(indexes), |old(atom.items)|) > 0 && !old(RenumberSucceeds(bond, t)) ==>
                !ok && bond == old(bond) && index == old(index)
      ensures var t := Table(Sorted(indexes), |old(atom.items)|);
              Scan(Sorted(indexes), |old(atom.items)|) > 0 && old(RenumberSucceeds(bond, t)) ==>
                bond == old(Renumbered(bond, t)) &&
                (forall b :: b in old(bond) ==> Passes(t, old(b.i0), old(b.i1), multiset(old(bond))[b]) == Some((b.i0, b.i1))) &&
                (forall b :: b in bond ==> 0 <= b.i0 < |atom.items| && 0 <= b.i1 < |atom.items|) &&
                (ok <==> old(index).None? || PosIndex(old(index).value, atom.items).Some?) &&
                index == if old(index).Some? && ok then PosIndex(old(index).value, atom.items) else old(index)
    {
      if indexes == [] {
        return true;
      }
      var s := Sorted(indexes);
      var oldToNew, shft := CrossReference(s, |atom.items|);
      assert oldToNew == Table(s, |atom.items|);
      if shft == 0 {
        return true;
      }
      ok := Compact(s, oldToNew);
      if !ok {
        return;
      }
      if index.Some? {
        var r := PosIndex(index.value, atom.items);
        if r.None? {
          return false;
        }
        index := r;
      }
      return true;
    }

    /**
     * The atom and bond halves of delete_list, once some request was met;
     * `renumbered == false` is the KeyError of the bond loop.
     */
    method Compact(s: seq<int>, oldToNew: seq<int>) returns (renumbered: bool)
      requires oldToNew == Table(s, |atom.items|)
      modifies this`atom, this`bond, Refs(bond)
      ensures fresh(atom) && atom.items == Survivors(old(atom.items), s)
      ensures renumbered <==> old(RenumberSucceeds(bond, oldToNew))
      ensures !renumbered ==> bond == old(bond)
      ensures renumbered ==> bond == old(Renumbered(bond, oldToNew))
      ensures renumbered ==> forall b :: b in old(bond) ==>
                Passes(oldToNew, old(b.i0), old(b.i1), multiset(old(bond))[b]) == Some((b.i0, b.i1))
      ensures renumbered ==> forall b :: b in bond ==> 0 <= b.i0 < |atom.items| && 0 <= b.i1 < |atom.items|
    {
      TableIntoSurvivors(atom.items, s);
      var survivors := KeepAtoms(atom.items, s, oldToNew);
      atom := new AtomList(survivors);
      renumbered := CompactBonds(oldToNew, |survivors|);
    }

    /** The bond half of delete_list: the bond loop over the table, whose kept entries lie below `m`. */
    method CompactBonds(t: seq<int>, m: int) returns (renumbered: bool)
      requires TableInto(t, m) && m <= |t|
      modifies this`bond, Refs(bond)
      ensures renumbered <==> old(RenumberSucceeds(bond, t))
      ensures !renumbered ==> bond == old(bond)
      ensures renumbered ==> bond == old(Renumbered(bond, t))
      ensures renumbered ==> forall b :: b in old(bond) ==>
                Passes(t, old(b.i0), old(b.i1), multiset(old(bond))[b]) == Some((b.i0, b.i1))
      ensures renumbered ==> forall b :: b in bond ==> 0 <= b.i0 < m && 0 <= b.i1 < m
    {
      var kept;
      renumbered, kept := RenumberInto(bond, t, m);
      if renumbered {
        bond := kept;
      }
    }

    /**
     * sort: the atom list is rearranged in place into `order` (how atoms
     * compare is not part of this model, so the sorted list is an input)
     * and the index is rebuilt.  `ok == false` is a KeyError: of an atom
     * the old index lacks (no bond changed), or of a bond endpoint missing
     * from the table.  Each bond reference sends both endpoints once
     * through the table, so a bond listed twice goes through it twice.
     */
    method Sort(order: seq<Atom>) returns (ok: bool)
      requires multiset(order) == multiset(atom.items)
      modifies this`index, atom, Refs(bond)
      ensures atom.items == order && index == Some(BuildIndex(order))
      ensures var x := CrossTable(SortIndex(old(index), old(atom.items)), BuildIndex(order), order, |order|);
              x.None? ==> !ok && forall b :: b in bond ==> b.i0 == old(b.i0) && b.i1 == old(b.i1)
      ensures var x := CrossTable(SortIndex(old(index), old(atom.items)), BuildIndex(order), order, |order|);
              x.Some? ==> (ok <==> forall b :: b in bond ==> !Broken(x.value, old(b.i0), old(b.i1), multiset(bond)[b]))
      ensures var x := CrossTable(SortIndex(old(index), old(atom.items)), BuildIndex(order), order, |order|);
              x.Some? && ok ==> forall b :: b in bond ==> Remapped(x.value, b, old(b.i0), old(b.i1), multiset(bond)[b])
    {
      var xref := Reorder(order);
      if xref.None? {
        return false;
      }
      ok := RemapEndpoints(bond, xref.value);
    }

    /** The atom and index half of sort; the result is the table from old to new positions. */
    method Reorder(order: seq<Atom>) returns (xref: Option<map<int, int>>)
      modifies this`index, atom
      ensures atom.items == order && index == Some(BuildIndex(order))
      ensures xref == CrossTable(SortIndex(old(index), old(atom.items)), BuildIndex(order), order, |order|)
    {
      if index.None? {
        UpdateIndex();
      }
      var oldIndex := index.value;
      atom.items := order;
      UpdateIndex();
      xref := SortCrossReference(oldIndex, index.value, atom.items);
    }

    /**
     * get_implicit_mass: the mass of the atoms plus one hydrogen mass for
     * every free valence the bonds leave.  `mass` is `Atom.get_mass`,
     * `freeValence(a, v)` is `a.get_free_valence(v)` and `hydrogenMass` the
     * mass of a hydrogen atom.  `ok == false` is the IndexError of an
     * endpoint that does not subscript the valence table.
     */
    method GetImplicitMass(mass: Atom -> real, freeValence: (Atom, real) -> real, hydrogenMass: real)
      returns (ok: bool, m: real)
      ensures ok <==> Listable(bond, |atom.items|)
      ensures ok ==> m == Mass(atom.items, mass) +
                          hydrogenMass * FreeValenceSum(atom.items, ValenceList(bond, |atom.items|), freeValence)
    {
      var valence;
      ok, valence := ValenceTable(bond, |atom.items|);
      if !ok {
        return false, 0.0;
      }
      var hCount := FreeValenceSum(atom.items, valence, freeValence);
      m := Mass(atom.items, mass) + hydrogenMass * hCount;
    }

    /** index_atom: the first position of `a`, or -1 when it is absent. */
    function IndexAtom(a: Atom): (r: int)
      reads this, atom
      ensures r == -1 <==> a !in atom.items
      ensures r != -1 ==> 0 <= r < |atom.items| && atom.items[r] == a && a !in atom.items[..r]
    {
      FirstPosition(atom.items, a)
    }

    /** add_bond appends the bond object. */
    method AddBond(b: Bond)
      modifies this`bond
      ensures bond == old(bond) + [b]
    {
      bond := bond + [b];
    }

    /**
     * remove_bond: `del self.bond[k]`.  A negative `k` counts from the end;
     * `ok == false` is the IndexError of a `k` outside `-n..n-1`, which
     * leaves the list as it was.
     */
    method RemoveBond(k: int) returns (ok: bool)
      modifies this`bond
      ensures ok <==> -|old(bond)| <= k < |old(bond)|
      ensures !ok ==> bond == old(bond)
      ensures ok ==> var j := if k < 0 then k + |old(bond)| else k;
                     bond == old(bond[..j]) + old(bond[j + 1..])
    {
      var slot := ListSlot(k, |bond|);
      if slot.None? {
        return false;
      }
      var j := slot.value;
      bond := bond[..j] + bond[j + 1..];
      return true;
    }

    /**
     * convert_to_connected: a new Connected that shares this container's
     * atom list and molecule and holds, in the bucket of slot `k`, each
     * bond once for every endpoint subscripting that slot.  The closing
     * `reset` then empties the shared atom list, so the result's atoms are
     * gone too.  `None` is the IndexError of an endpoint that subscripts no
     * bucket; this container is then left as it was.
     */
    method ConvertToConnected() returns (model: Option<Connected>)
      modifies this`index, this`molecule, this`bond, atom
      ensures model.None? <==> !Listable(old(bond), old(|atom.items|))
      ensures model.None? ==> index == old(index) && molecule == old(molecule) &&
                              bond == old(bond) && atom.items == old(atom.items)
      ensures model.Some? ==>
                var c := model.value;
                fresh(c) && c.atom == atom && c.molecule == old(molecule) && c.index == None &&
                |c.bond| == |old(atom.items)| &&
                (forall k :: 0 <= k < |c.bond| ==> c.bond[k] == old(Filed(bond, |atom.items|, k))) &&
                c.atom.items == [] && index == None && fresh(molecule) && bond == []
    {
      var ok, buckets := FileBonds(bond, |atom.items|);
      if !ok {
        return None;
      }
      assert unchanged(Refs(bond));
      var c := new Connected();
      c.molecule := molecule;
      c.atom := atom;
      c.bond := buckets;
      Reset();
      model := Some(c);
    }
  }

  // ---------------------------------------------------------------------
  // The cross-reference of `sort`

  /** The index `sort` starts from: the stored one, or one built from the atoms when there is none. */
  function SortIndex(index: Option<Index>, atoms: seq<Atom>): Index
  {
    if index.Some? then index.value else BuildIndex(atoms)
  }

  /** Whether the atom at position `k` of the list already occurs before `k`. */
  predicate SeenBefore(order: seq<Atom>, k: int)
    requires 0 <= k < |order|
  {
    exists i :: 0 <= i < k && order[i] == order[k]
  }

  /**
   * The cross-reference loop of `sort` over the first `k` positions of the
   * sorted list: the keys of the rebuilt index `newIndex` are the atoms of
   * the list in order of first occurrence, and each maps its old index
   * entry to its new one.  `None` is the KeyError of an atom the old index
   * lacks.
   */
  function CrossTable(oldIndex: Index, newIndex: Index, order: seq<Atom>, k: nat): Option<map<int, int>>
    requires k <= |order| && forall j :: 0 <= j < |order| ==> Id(order[j]) in newIndex
  {
    if k == 0 then Some(map[])
    else
      match CrossTable(oldIndex, newIndex, order, k - 1)
      case None => None
      case Some(xref) =>
        if SeenBefore(order, k - 1) then Some(xref)
        else if Id(order[k - 1]) !in oldIndex then None
        else Some(xref[oldIndex[Id(order[k - 1])] := newIndex[Id(order[k - 1])]])
  }

  /** The table fails exactly when some atom of the sorted list is missing from the old index. */
  lemma {:induction false} CrossTableFails(oldIndex: Index, newIndex: Index, order: seq<Atom>, k: nat)
    requires k <= |order| && forall j :: 0 <= j < |order| ==> Id(order[j]) in newIndex
    ensures CrossTable(oldIndex, newIndex, order, k).None? <==> exists j :: 0 <= j < k && Id(order[j]) !in oldIndex
  {
    if k > 0 {
      CrossTableFails(oldIndex, newIndex, order, k - 1);
      if CrossTable(oldIndex, newIndex, order, k - 1).Some? && SeenBefore(order, k - 1) {
        var i :| 0 <= i < k - 1 && order[i] == order[k - 1];
      }
    }
  }

  /** The table sends old entries to positions of the sorted list. */
  lemma {:induction false} CrossTableRange(oldIndex: Index, order: seq<Atom>, k: nat)
    requires k <= |order|
    ensures var r := CrossTable(oldIndex, BuildIndex(order), order, k);
            r.Some? ==> forall x :: x in r.value ==> 0 <= r.value[x] < |order|
  {
    if k > 0 {
      CrossTableRange(oldIndex, order, k - 1);
    }
  }


  /**
   * The cross-reference loop of `sort`, over the keys of the rebuilt index
   * (each atom of the sorted list the first time it occurs).
   */
  method SortCrossReference(oldIndex: Index, newIndex: Index, order: seq<Atom>) returns (xref: Option<map<int, int>>)
    requires newIndex == BuildIndex(order)
    ensures xref == CrossTable(oldIndex, newIndex, order, |order|)
    ensures xref.Some? ==> forall x :: x in xref.value ==> 0 <= xref.value[x] < |order|
  {
    var table := map[];
    var k := 0;
    while k < |order|
      invariant 0 <= k <= |order| && CrossTable(oldIndex, newIndex, order, k) == Some(table)
    {
      CrossTableNext(oldIndex, newIndex, order, k, table);
      if !SeenBefore(order, k) {
        if Id(order[k]) !in oldIndex {
          CrossTableFails(oldIndex, newIndex, order, |order|);
          return None;
        }
        table := table[oldIndex[Id(order[k])] := newIndex[Id(order[k])]];
      }
      k := k + 1;
    }
    CrossTableRange(oldIndex, order, |order|);
    xref := Some(table);
  }

  /** One more position of the sorted list: a repeated atom adds nothing, a new one its entry or the KeyError. */
  lemma CrossTableNext(oldIndex: Index, newIndex: Index, order: seq<Atom>, k: nat, table: map<int, int>)
    requires k < |order| && forall j :: 0 <= j < |order| ==> Id(order[j]) in newIndex
    requires CrossTable(oldIndex, newIndex, order, k) == Some(table)
    ensures CrossTable(oldIndex, newIndex, order, k + 1) ==
            if SeenBefore(order, k) then Some(table)
            else if Id(order[k]) !in oldIndex then None
            else Some(table[oldIndex[Id(order[k])] := newIndex[Id(order[k])]])
  {
  }

  /**
   * With an index that matches a duplicate-free atom list, the table of
   * `sort` is total and one-to-one on `0..n-1` and sends each old position
   * to the new position of the atom that stood there.
   */
  lemma SortConsistent(index: Option<Index>, before: seq<Atom>, order: seq<Atom>)
    requires multiset(order) == multiset(before) && NoDuplicates(before)
    requires index.None? || index.value == BuildIndex(before)
    ensures var r := CrossTable(SortIndex(index, before), BuildIndex(order), order, |order|);
            r.Some? && IsXref(r.value, |before|) && |order| == |before| &&
            (forall x, y :: 0 <= x < y < |before| ==> r.value[x] != r.value[y]) &&
            forall x :: 0 <= x < |before| ==> order[r.value[x]] == before[x]
  {
    var t := SortTable(before, order);
    LocatingTable(t, before, order);
    assert SortIndex(index, before) == BuildIndex(before);
  }

  /**
   * The table of `sort` from the index of a duplicate-free list: it holds
   * every old position and sends it to where its atom now stands.
   */
  lemma SortTable(before: seq<Atom>, order: seq<Atom>) returns (t: map<int, int>)
    requires multiset(order) == multiset(before) && NoDuplicates(before)
    ensures CrossTable(BuildIndex(before), BuildIndex(order), order, |order|) == Some(t)
    ensures |order| == |before| && forall x :: 0 <= x < |before| ==> x in t
    ensures forall x :: x in t ==> 0 <= x < |before| && 0 <= t[x] < |order| && order[t[x]] == before[x]
  {
    assert |order| == |multiset(order)| == |before|;
    PermutationNoDuplicates(before, order);
    BuildIndexOfDistinct(order);
    OldIndexFinds(before, order);
    t := CrossTableDistinct(BuildIndex(before), BuildIndex(order), before, order, |order|);
    TableTotal(t, BuildIndex(before), before, order);
  }

  /** The index of a duplicate-free list finds every atom of a rearrangement of it. */
  lemma OldIndexFinds(before: seq<Atom>, order: seq<Atom>)
    requires multiset(order) == multiset(before) && NoDuplicates(before)
    ensures forall j :: 0 <= j < |order| ==>
              Id(order[j]) in BuildIndex(before) && 0 <= BuildIndex(before)[Id(order[j])] < |before| &&
              before[BuildIndex(before)[Id(order[j])]] == order[j]
  {
    forall j | 0 <= j < |order|
      ensures Id(order[j]) in BuildIndex(before)
    {
      assert order[j] in multiset(before);
      var x :| 0 <= x < |before| && before[x] == order[j];
    }
  }

  /** Every old position is the old entry of some atom of the rearrangement, so the table holds it. */
  lemma TableTotal(t: map<int, int>, m: Index, before: seq<Atom>, order: seq<Atom>)
    requires multiset(order) == multiset(before) && NoDuplicates(before) && m == BuildIndex(before)
    requires forall j :: 0 <= j < |order| ==> Id(order[j]) in m && m[Id(order[j])] in t
    ensures forall x :: 0 <= x < |before| ==> x in t
  {
    BuildIndexOfDistinct(before);
    forall x | 0 <= x < |before|
      ensures x in t
    {
      assert before[x] in multiset(order);
      var j :| 0 <= j < |order| && order[j] == before[x];
      assert m[Id(order[j])] == x;
    }
  }

  /** A table that finds every old atom again in the new list is total, in range and one-to-one. */
  lemma LocatingTable(t: map<int, int>, before: seq<Atom>, order: seq<Atom>)
    requires NoDuplicates(before) && |order| == |before|
    requires forall x :: 0 <= x < |before| ==> x in t
    requires forall x :: x in t ==> 0 <= x < |before| && 0 <= t[x] < |order| && order[t[x]] == before[x]
    ensures IsXref(t, |before|)
    ensures forall x, y :: 0 <= x < y < |before| ==> t[x] != t[y]
  {
  }

  /**
   * The table built over the first `k` positions of a duplicate-free sorted
   * list, from an old index `m` that finds each of its atoms and a new
   * index `w` that holds each atom's position: position `j` adds the old
   * entry of the atom there, mapped to `j`.
   */
  lemma {:induction false} CrossTableDistinct(m: Index, w: Index, before: seq<Atom>, order: seq<Atom>, k: nat)
    returns (t: map<int, int>)
    requires k <= |order| && NoDuplicates(order)
    requires forall j :: 0 <= j < |order| ==> Id(order[j]) in w && w[Id(order[j])] == j
    requires forall j :: 0 <= j < |order| ==>
               Id(order[j]) in m && 0 <= m[Id(order[j])] < |before| && before[m[Id(order[j])]] == order[j]
    ensures CrossTable(m, w, order, k) == Some(t)
    ensures forall j :: 0 <= j < k ==> m[Id(order[j])] in t && t[m[Id(order[j])]] == j
    ensures forall x :: x in t ==> 0 <= x < |before| && 0 <= t[x] < k && order[t[x]] == before[x]
  {
    if k == 0 {
      t := map[];
    } else {
      var prev := CrossTableDistinct(m, w, before, order, k - 1);
      var a := order[k - 1];
      assert !SeenBefore(order, k - 1);
      t := prev[m[Id(a)] := k - 1];
      forall j | 0 <= j < k - 1
        ensures m[Id(order[j])] != m[Id(a)]
      {
        assert order[j] != a;
      }
    }
  }

  /**
   * The bond half of Connected.sort, given the table: bucket `c` is placed
   * at `xref[c]` (`placed == false` is the KeyError of a bucket position
   * missing from the table, before any bond changed), then the owned
   * references are sent through the table (`ok == false` is the KeyError
   * of an endpoint missing from it).  The owned references are gathered
   * first; no endpoint changes before the renumbering, so this gathers
   * what the bucket loop gathers.
   */
  method SortBuckets(buckets: seq<seq<Bond>>, xref: map<int, int>, n: nat)
    returns (placed: bool, ok: bool, moved: seq<seq<Bond>>)
    requires forall x :: x in xref ==> 0 <= xref[x] < n
    modifies AllRefs(buckets)
    ensures placed <==> Covers(xref, |buckets|)
    ensures !placed ==> !ok && forall b :: b in AllRefs(buckets) ==> b.i0 == old(b.i0) && b.i1 == old(b.i1)
    ensures placed ==> moved == Placed(buckets, xref, n, |buckets|)
    ensures placed ==> (ok <==> forall b :: b in AllRefs(buckets) && b in old(OwnedAll(buckets)) ==>
                                  !Broken(xref, old(b.i0), old(b.i1), multiset(old(OwnedAll(buckets)))[b]))
    ensures placed && ok ==> forall b :: b in AllRefs(buckets) ==>
              Remapped(xref, b, old(b.i0), old(b.i1), multiset(old(OwnedAll(buckets)))[b])
  {
    OwnedRefs(buckets);
    var own: seq<Bond> := CollectAllOwned(buckets);
    placed, moved := MoveBuckets(buckets, xref, n);
    if !placed {
      return false, false, moved;
    }
    ok := RemapEndpoints(own, xref);
    forall b: Bond | b in own
      ensures b in AllRefs(buckets)
    {
      assert b in Refs(own);
    }
    if ok {
      forall b: Bond | b in AllRefs(buckets)
        ensures Remapped(xref, b, old(b.i0), old(b.i1), multiset(own)[b])
      {
        if b !in own {
          assert b !in Refs(own) && multiset(own)[b] == 0;
        }
      }
    }
  }

  /** `self.atom.index(a)` for an atom that is present, -1 otherwise. */
  function FirstPosition(s: seq<Atom>, a: Atom): (r: int)
    ensures r == -1 <==> a !in s
    ensures r != -1 ==> 0 <= r < |s| && s[r] == a && a !in s[..r]
  {
    if s == [] then -1
    else if s[0] == a then 0
    else
      var r := FirstPosition(s[1..], a);
      if r == -1 then -1
      else
        assert s[..r + 1] == [s[0]] + s[1..][..r];
        r + 1
  }

  // ---------------------------------------------------------------------
  // The bucket container

  class Connected {
    var index: Option<Index>
    var molecule: Molecule
    var atom: AtomList
    var bond: seq<seq<Bond>>

    constructor ()
      ensures index == None && fresh(molecule) && fresh(atom) && atom.items == [] && bond == []
    {
      index := None;
      molecule := new Molecule();
      atom := new AtomList([]);
      bond := [];
    }

    /**
     * add_atom: appends the atom and an empty bucket for it and returns the
     * new position; the index gains the atom only when it is a non-empty
     * dictionary.
     */
    method AddAtom(a: Atom) returns (r: int)
      modifies this`index, this`bond, atom
      ensures r == |old(atom.items)| && atom.items == old(atom.items) + [a]
      ensures bond == old(bond) + [[]]
      ensures index == if old(index).Some? && old(index).value != map[]
                       then Some(old(index).value[Id(a) := r]) else old(index)
    {
      atom.items := atom.items + [a];
      bond := bond + [[]];
      r := |atom.items| - 1;
      if index.Some? && index.value != map[] {
        index := Some(index.value[Id(a) := r]);
      }
    }

    /**
     * delete_atom: as for the flat container, but bond removal works bucket
     * by bucket and no bucket is dropped, so from then on bucket `k` no
     * longer belongs to atom `k`.  Every remaining reference lowers its
     * bond's endpoints above `p` once, so a bond listed in two buckets is
     * lowered twice.
     */
    method DeleteAtom(p: int) returns (ok: bool)
      requires 0 <= p < |atom.items|
      modifies this`index, this`bond, atom, AllRefs(bond)
      ensures ok <==> old(index).None? || Id(old(atom.items)[p]) in old(index).value
      ensures old(index).Some? ==> index == Some(
                if ok then LowerValues(old(index).value, p) - {Id(old(atom.items)[p])}
                else LowerValues(old(index).value, p))
      ensures old(index).None? ==> index == None
      ensures !ok ==> atom.items == old(atom.items) && bond == old(bond) &&
                      forall b :: b in AllRefs(old(bond)) ==> b.i0 == old(b.i0) && b.i1 == old(b.i1)
      ensures ok ==> atom.items == old(atom.items[..p] + atom.items[p + 1..])
      ensures ok ==> |bond| == |old(bond)| &&
                     forall k :: 0 <= k < |bond| ==> bond[k] == old(Detached(bond[k], p))
      ensures ok ==> forall b :: b in AllRefs(old(bond)) && b in Flatten(bond) ==>
                       b.i0 == Lower(old(b.i0), p, multiset(Flatten(bond))[b]) &&
                       b.i1 == Lower(old(b.i1), p, multiset(Flatten(bond))[b])
      ensures ok ==> forall b :: b in AllRefs(old(bond)) && b !in Flatten(bond) ==> b.i0 == old(b.i0) && b.i1 == old(b.i1)
    {
      var a := atom.items[p];
      var lowered := index;
      if index.Some? {
        var m := LowerValues(index.value, p);
        if Id(a) !in m {
          index := Some(m);
          return false;
        }
        lowered := Some(m - {Id(a)});
      }
      DropBondsOf(p);
      index := lowered;
      atom.items := atom.items[..p] + atom.items[p + 1..];
      return true;
    }

    /** The bond half of delete_atom: removal in every bucket, then renumbering. */
    method DropBondsOf(p: int)
      modifies this`bond, AllRefs(bond)
      ensures |bond| == |old(bond)| && forall k :: 0 <= k < |bond| ==> bond[k] == old(Detached(bond[k], p))
      ensures forall b :: b in AllRefs(old(bond)) && b in Flatten(bond) ==>
                b.i0 == Lower(old(b.i0), p, multiset(Flatten(bond))[b]) &&
                b.i1 == Lower(old(b.i1), p, multiset(Flatten(bond))[b])
      ensures forall b :: b in AllRefs(old(bond)) && b !in Flatten(bond) ==> b.i0 == old(b.i0) && b.i1 == old(b.i1)
    {
      var buckets := DetachAll(bond, p);
      bond := buckets;
      FlattenRefs(bond);
      LowerEndpoints(Flatten(bond), p);
    }

    /**
     * insert_atom: puts `a` at position `p` and raises every endpoint at or
     * above `p` once per reference; no bucket is added.  The index shifts
     * the same way before mapping `a` to `p`.
     */
    method InsertAtom(p: int, a: Atom)
      requires 0 <= p <= |atom.items|
      modifies this`index, atom, AllRefs(bond)
      ensures atom.items == old(atom.items[..p]) + [a] + old(atom.items[p..])
      ensures bond == old(bond)
      ensures forall b :: b in AllRefs(old(bond)) ==>
                b.i0 == Raise(old(b.i0), p, multiset(Flatten(bond))[b]) &&
                b.i1 == Raise(old(b.i1), p, multiset(Flatten(bond))[b])
      ensures index == if old(index).Some? then Some(RaiseValues(old(index).value, p)[Id(a) := p]) else None
    {
      atom.items := atom.items[..p] + [a] + atom.items[p..];
      FlattenRefs(bond);
      RaiseEndpoints(Flatten(bond), p);
      if index.Some? {
        index := Some(RaiseValues(index.value, p)[Id(a) := p]);
      }
    }

    /** reset: no index, a new molecule, and the two lists emptied in place. */
    method Reset()
      modifies this`index, this`molecule, this`bond, atom
      ensures index == None && fresh(molecule) && atom.items == [] && bond == []
    {
      index := None;
      molecule := new Molecule();
      atom.items := [];
      bond := [];
    }

    /** update_index: the index is rebuilt from the current atom list. */
    method UpdateIndex()
      modifies this`index
      ensures index == Some(BuildIndex(atom.items))
    {
      index := Some(BuildIndex(atom.items));
    }

    /**
     * convert_to_indexed: a new Indexed sharing this container's atom list
     * and molecule whose bonds are, bucket by bucket, the references whose
     * first endpoint is the bucket's position.  This container is left as
     * it was.
     */
    method ConvertToIndexed() returns (indexed: Indexed)
      ensures fresh(indexed) && indexed.atom == atom && indexed.molecule == molecule
      ensures indexed.index == None && indexed.bond == old(OwnedAll(bond))
    {
      var owned := CollectAllOwned(bond);
      indexed := new Indexed();
      indexed.atom := atom;
      indexed.molecule := molecule;
      indexed.bond := owned;
    }

    /**
     * sort: the atom list is rearranged in place into `order` and the index
     * is rebuilt.  Bucket `c` then moves to slot `xref[c]` of a list with
     * one slot per atom, a later bucket overwriting an earlier one, and
     * each owned reference (first endpoint equal to its bucket) sends both
     * endpoints once through the table, so a self-loop, owned twice, goes
     * through it twice.  `ok == false` is a KeyError: of an atom the old
     * index lacks or of a bucket position missing from the table (no bond
     * changed), or of an endpoint missing from it; the bucket list is then
     * the old one.
     */
    method Sort(order: seq<Atom>) returns (ok: bool)
      requires multiset(order) == multiset(atom.items)
      modifies this`index, this`bond, atom, AllRefs(bond)
      ensures atom.items == order && index == Some(BuildIndex(order))
      ensures !ok ==> bond == old(bond)
      ensures var x := CrossTable(SortIndex(old(index), old(atom.items)), BuildIndex(order), order, |order|);
              x.None? || !Covers(x.value, |old(bond)|) ==>
                !ok && forall b :: b in AllRefs(old(bond)) ==> b.i0 == old(b.i0) && b.i1 == old(b.i1)
      ensures var x := CrossTable(SortIndex(old(index), old(atom.items)), BuildIndex(order), order, |order|);
              x.Some? && Covers(x.value, |old(bond)|) ==>
                (ok <==> forall b :: b in AllRefs(old(bond)) && b in old(OwnedAll(bond)) ==>
                           !Broken(x.value, old(b.i0), old(b.i1), multiset(old(OwnedAll(bond)))[b]))
      ensures var x := CrossTable(SortIndex(old(index), old(atom.items)), BuildIndex(order), order, |order|);
              ok ==> x.Some? && bond == Placed(old(bond), x.value, |order|, |old(bond)|) &&
                     forall b :: b in AllRefs(old(bond)) ==>
                       Remapped(x.value, b, old(b.i0), old(b.i1), multiset(old(OwnedAll(bond)))[b])
    {
      // The table and the bucket list do not depend on the atom list, so
      // the atoms are put in order last; the final state is the same.
      var oldIndex := SortIndex(index, atom.items);
      var xref := SortCrossReference(oldIndex, BuildIndex(order), order);
      ok := false;
      if xref.Some? {
        var placed, moved;
        placed, ok, moved := SortBuckets(bond, xref.value, |order|);
        if ok {
          bond := moved;
        }
      }
      atom.items := order;
      index := Some(BuildIndex(order));
    }
  }
}
