/**
 * The valence table of `Indexed.get_implicit_mass`: every bond adds its
 * valence (its order, or 1.5 for the aromatic order 4) to both of its
 * endpoints, once per endpoint, so a self-loop adds it twice.
 */
module Valence {
  import opened ChempyCore
  import opened Buckets
  import opened Wrappers

  /** The valence one bond gives each endpoint. */
  function BondValence(b: Bond): real
  {
    if b.order == 4 then 1.5 else b.order as real
  }

  /**
   * The valence bonds `g` give entry `k` of a table of length `n`: each
   * endpoint subscripts the table as a Python list does, a negative one
   * counting from the end.
   */
  function Valence(g: seq<Bond>, n: int, k: int): real
    reads Refs(g)
  {
    if g == [] then 0.0
    else
      var b := g[|g| - 1];
      Valence(g[..|g| - 1], n, k) + (if ListSlot(b.i0, n) == Some(k) then BondValence(b) else 0.0)
                                   + (if ListSlot(b.i1, n) == Some(k) then BondValence(b) else 0.0)
  }

  /** The table of valences for positions `0..n-1`. */
  function ValenceList(g: seq<Bond>, n: nat): (r: seq<real>)
    reads Refs(g)
    ensures |r| == n
  {
    seq(n, k reads Refs(g) => Valence(g, n, k))
  }

  /** The sum of the bond valences. */
  function TotalBondValence(g: seq<Bond>): real
  {
    if g == [] then 0.0 else TotalBondValence(g[..|g| - 1]) + BondValence(g[|g| - 1])
  }

  /** The sum of entries `0..m-1` of the table of length `n`. */
  function ValenceSum(g: seq<Bond>, n: int, m: nat): real
    reads Refs(g)
  {
    if m == 0 then 0.0 else ValenceSum(g, n, m - 1) + Valence(g, n, m - 1)
  }

  /** What an endpoint `x` adds to entries `0..m-1` of the table of length `n`. */
  function Hit(x: int, n: int, m: int, v: real): real
  {
    if ListSlot(x, n).Some? && ListSlot(x, n).value < m then v else 0.0
  }

  /** The last bond adds its valence once for each endpoint landing in entries `0..m-1`. */
  lemma {:induction false} ValenceSumStep(g: seq<Bond>, n: int, m: nat)
    requires g != []
    ensures var b := g[|g| - 1];
      ValenceSum(g, n, m) == ValenceSum(g[..|g| - 1], n, m) + Hit(b.i0, n, m, BondValence(b)) + Hit(b.i1, n, m, BondValence(b))
  {
    if m > 0 {
      ValenceSumStep(g, n, m - 1);
    }
  }

  lemma {:induction false} ValenceSumEmpty(n: int, m: nat)
    ensures ValenceSum([], n, m) == 0.0
  {
    if m > 0 {
      ValenceSumEmpty(n, m - 1);
    }
  }

  /**
   * The handshake identity: when every endpoint subscripts the table, the
   * valences sum to twice the bond valences.
   */
  lemma {:induction false} Handshake(g: seq<Bond>, n: nat)
    requires Listable(g, n)
    ensures ValenceSum(g, n, n) == 2.0 * TotalBondValence(g)
    decreases |g|
  {
    if g == [] {
      ValenceSumEmpty(n, n);
    } else {
      var front := g[..|g| - 1];
      ValenceSumStep(g, n, n);
      Handshake(front, n);
    }
  }

  /**
   * The loop of get_implicit_mass: a zero per position, then each bond adds
   * its valence at both endpoints.  `ok == false` is the IndexError of the
   * first endpoint that does not subscript the table.
   */
  method ValenceTable(g: seq<Bond>, n: nat) returns (ok: bool, valence: seq<real>)
    ensures ok <==> Listable(g, n)
    ensures ok ==> valence == ValenceList(g, n)
  {
    valence := seq(n, _ => 0.0);
    var i := 0;
    while i < |g|
      invariant 0 <= i <= |g| && |valence| == n
      invariant forall k :: 0 <= k < n ==> valence[k] == Valence(g[..i], n, k)
      invariant forall j :: 0 <= j < i ==> ListSlot(g[j].i0, n).Some? && ListSlot(g[j].i1, n).Some?
    {
      var b := g[i];
      assert g[..i + 1][..i] == g[..i];
      var v := BondValence(b);
      var s0 := ListSlot(b.i0, n);
      if s0.None? {
        assert b in g;
        return false, valence;
      }
      valence := valence[s0.value := valence[s0.value] + v];
      var s1 := ListSlot(b.i1, n);
      if s1.None? {
        assert b in g;
        return false, valence;
      }
      valence := valence[s1.value := valence[s1.value] + v];
      i := i + 1;
    }
    assert g[..|g|] == g;
    ok := true;
    forall b | b in g
      ensures ListSlot(b.i0, n).Some? && ListSlot(b.i1, n).Some?
    {
      var j :| 0 <= j < |g| && g[j] == b;
    }
  }

  /**
   * The hydrogen count of get_implicit_mass: `freeValence(a, v)` (the atom's
   * `get_free_valence(v)`) summed over the atoms paired with their valences,
   * stopping at the shorter of the two as `zip` does.
   */
  function FreeValenceSum(atoms: seq<Atom>, valence: seq<real>, freeValence: (Atom, real) -> real): real
  {
    if atoms == [] || valence == [] then 0.0
    else freeValence(atoms[0], valence[0]) + FreeValenceSum(atoms[1..], valence[1..], freeValence)
  }
}
