/**
 * The bit constants and lookup tables of the CHAMP pattern matcher
 * (`constants.hpp` and the enums and tables of `atom.hpp`).  Every enum
 * is an `unsigned int`, so a mask is a 32-bit vector; `operator|=` and
 * `operator|` are the bitwise OR.
 */
module ChampConstants {

  /** A C++ `unsigned int` holding a bit mask. */
  datatype Mask = Mask(bits: bv32)

  /** The single bit `k`, or no bit once `k` is shifted out of 32 bits. */
  function Bit(k: nat): (r: Mask)
    ensures k < 32 ==> SingleBit(r)
    ensures k >= 32 ==> r == Empty
  {
    if k < 32 then Mask((1 as bv32) << k) else Empty
  }

  /** `x` has exactly one bit set. */
  predicate SingleBit(x: Mask)
  {
    x.bits != 0 && x.bits & (x.bits - 1) == 0
  }

  /** `x` has every bit of `y`. */
  predicate Covers(x: Mask, y: Mask)
  {
    x.bits & y.bits == y.bits
  }

  /** `x` and `y` share no bit. */
  predicate Disjoint(x: Mask, y: Mask)
  {
    x.bits & y.bits == 0
  }

  /**
   * The `operator|=` helpers: the left operand becomes `a | m`, which is
   * also what the operator returns: every bit of either side is set.
   */
  function Or(a: Mask, m: Mask): Mask
  {
    Mask(a.bits | m.bits)
  }

  /** ORing in a mask keeps every bit of both sides. */
  lemma OrKeeps(a: Mask, m: Mask)
    ensures Covers(Or(a, m), a) && Covers(Or(a, m), m)
  {
  }

  /** Covering is transitive, so masks that only grow keep what they had. */
  lemma CoversTrans(x: Mask, y: Mask, z: Mask)
    requires Covers(x, y) && Covers(y, z)
    ensures Covers(x, z)
  {
  }

  // ---------------------------------------------------------------------
  // constants.hpp

  const Acyclic: Mask := Mask(0x0000_0001)
  const Ring3: Mask := Mask(0x0000_0002)
  const Ring4: Mask := Mask(0x0000_0004)
  const Ring5: Mask := Mask(0x0000_0008)
  const Ring6: Mask := Mask(0x0000_0010)
  const Ring7: Mask := Mask(0x0000_0020)
  const Ring8: Mask := Mask(0x0000_0040)
  const RingN: Mask := Mask(0x8000_0000)
  const Cyclic: Mask := Mask(0xFFFF_FFFE)
  const Empty: Mask := Mask(0)

  /** `num_to_ring`: ring sizes 3 to 8 have a bit, the other sizes none. */
  const NumToRing: seq<Mask> := [Empty, Empty, Empty, Ring3, Ring4, Ring5, Ring6, Ring7, Ring8, Empty, Empty, Empty]

  /** Every ring bit that `r` without a size ORs in. */
  const AnyRing: Mask := Or(Or(Or(Or(Or(Ring3, Ring4), Ring5), Ring6), Ring7), Ring8)

  const ClassAliphatic: Mask := Mask(0x0000_0001)
  const ClassAromatic: Mask := Mask(0x0000_0002)
  const ClassAny: Mask := Mask(0x0000_0003)
  const ClassPi: Mask := Mask(0x0000_0004)

  lemma RingTable()
    ensures |NumToRing| == 12
    ensures forall n :: 0 <= n < 12 ==> NumToRing[n] == if 3 <= n <= 8 then Bit(n - 2) else Empty
  {
  }

  lemma CycleBits()
    ensures Acyclic == Bit(0)
    ensures Ring3 == Bit(1) && Ring4 == Bit(2) && Ring5 == Bit(3) && Ring6 == Bit(4) && Ring7 == Bit(5) && Ring8 == Bit(6)
    ensures Cyclic.bits == !Acyclic.bits
    ensures AnyRing == Mask(0x7E) && Disjoint(AnyRing, Acyclic)
  {
  }

  lemma ClassBits()
    ensures ClassAny == Or(ClassAliphatic, ClassAromatic)
    ensures Disjoint(ClassAliphatic, ClassAromatic)
    ensures SingleBit(ClassPi) && Disjoint(ClassPi, ClassAny)
  {
  }

  // ---------------------------------------------------------------------
  // atom.hpp

  const AtomAny: Mask := Mask(0xFFFF_FFFF)
  const AtomH: Mask := Mask(0x0000_0001)
  const AtomC: Mask := Mask(0x0000_0002)
  const AtomN: Mask := Mask(0x0000_0004)
  const AtomO: Mask := Mask(0x0000_0008)
  const AtomSym: Mask := Mask(0x0000_0010)
  const AtomS: Mask := Mask(0x0000_0020)
  const AtomP: Mask := Mask(0x0000_0040)
  const AtomF: Mask := Mask(0x0000_0080)
  const AtomCl: Mask := Mask(0x0000_0100)
  const AtomBr: Mask := Mask(0x0000_0200)
  const AtomI: Mask := Mask(0x0000_0400)
  const AtomNa: Mask := Mask(0x0000_0800)
  const AtomK: Mask := Mask(0x0000_1000)
  const AtomCa: Mask := Mask(0x0000_2000)
  const AtomMg: Mask := Mask(0x0000_4000)
  const AtomZn: Mask := Mask(0x0000_8000)
  const AtomFe: Mask := Mask(0x0001_0000)
  const AtomCu: Mask := Mask(0x0002_0000)
  const AtomSe: Mask := Mask(0x0004_0000)
  const AtomB: Mask := Mask(0x0008_0000)
  const AtomA: Mask := Mask(0x0010_0000)
  const AtomE: Mask := Mask(0x0020_0000)
  const AtomG: Mask := Mask(0x0040_0000)
  const AtomJ: Mask := Mask(0x0080_0000)
  const AtomL: Mask := Mask(0x0100_0000)
  const AtomM: Mask := Mask(0x0200_0000)
  const AtomQ: Mask := Mask(0x0400_0000)
  const AtomR: Mask := Mask(0x0800_0000)
  const AtomT: Mask := Mask(0x1000_0000)
  const AtomX: Mask := Mask(0x2000_0000)
  const AtomZ: Mask := Mask(0x4000_0000)
  const AtomNotH: Mask := Mask(0xFFFF_FFFE)

  /** The element masks `H` to `Z` are the bits 0 to 30 in declaration order, so no two share a bit. */
  lemma ElementBits()
    ensures AtomH == Bit(0) && AtomC == Bit(1) && AtomN == Bit(2) && AtomO == Bit(3) && AtomSym == Bit(4) && AtomS == Bit(5)
    ensures AtomP == Bit(6) && AtomF == Bit(7) && AtomCl == Bit(8) && AtomBr == Bit(9) && AtomI == Bit(10) && AtomNa == Bit(11)
    ensures AtomK == Bit(12) && AtomCa == Bit(13) && AtomMg == Bit(14) && AtomZn == Bit(15) && AtomFe == Bit(16) && AtomCu == Bit(17)
    ensures AtomSe == Bit(18) && AtomB == Bit(19) && AtomA == Bit(20) && AtomE == Bit(21) && AtomG == Bit(22) && AtomJ == Bit(23)
    ensures AtomL == Bit(24) && AtomM == Bit(25) && AtomQ == Bit(26) && AtomR == Bit(27) && AtomT == Bit(28) && AtomX == Bit(29)
    ensures AtomZ == Bit(30)
  {
  }

  lemma DistinctBits(i: nat, j: nat)
    requires i < 32 && j < 32 && i != j
    ensures Disjoint(Bit(i), Bit(j))
  {
  }

  lemma AnyAndNotH()
    ensures AtomAny.bits == !0
    ensures AtomNotH.bits == AtomAny.bits & !AtomH.bits && Disjoint(AtomNotH, AtomH)
  {
  }

  /** The chirality a `@` digit selects (`enum class Chirality`: 0, 1, -1). */
  datatype Chirality = Unspecified | Anticlock | Clockwise

  const Bond0: Mask := Mask(0x0000_0001)
  const Bond8: Mask := Mask(0x0000_0100)

  /** `num_to_degree`: nine entries, `Bond0` to `Bond8`. */
  const NumToDegree: seq<Mask> := [Mask(0x001), Mask(0x002), Mask(0x004), Mask(0x008), Mask(0x010), Mask(0x020), Mask(0x040), Mask(0x080), Mask(0x100)]

  lemma DegreeTable()
    ensures |NumToDegree| == 9 && NumToDegree[0] == Bond0 && NumToDegree[8] == Bond8
    ensures forall n :: 0 <= n < 9 ==> NumToDegree[n] == Bit(n)
  {
  }

  const Neutral: Mask := Mask(0x0000_0001)
  const Cation: Mask := Mask(0x0000_0002)
  const Dication: Mask := Mask(0x0000_0004)
  const Anion: Mask := Mask(0x0000_0008)
  const Dianion: Mask := Mask(0x0000_0010)
  const Trication: Mask := Mask(0x0000_0020)
  const Trianion: Mask := Mask(0x0000_0040)
  const Tetcation: Mask := Mask(0x0000_0080)
  const Tetanion: Mask := Mask(0x0000_0100)
  const Pentcation: Mask := Mask(0x0000_0200)
  const Pentanion: Mask := Mask(0x0000_0400)

  /** Every anion bit. */
  const AnyAnion: Mask := Or(Or(Or(Or(Anion, Dianion), Trianion), Tetanion), Pentanion)

  /** `num_to_charge`: neutral, then the cations with one to five charges. */
  const NumToCharge: seq<Mask> := [Neutral, Cation, Dication, Trication, Tetcation, Pentcation]

  lemma ChargeTable()
    ensures |NumToCharge| == 6 && NumToCharge[0] == Neutral
    ensures forall n :: 0 <= n < 6 ==> SingleBit(NumToCharge[n]) && Disjoint(NumToCharge[n], AnyAnion)
  {
  }

  /** `num_to_valence`: nine entries, `Valence0` to `Valence8`. */
  const NumToValence: seq<Mask> := [Mask(0x001), Mask(0x002), Mask(0x004), Mask(0x008), Mask(0x010), Mask(0x020), Mask(0x040), Mask(0x080), Mask(0x100)]

  lemma ValenceTable()
    ensures |NumToValence| == 9
    ensures forall n :: 0 <= n < 9 ==> NumToValence[n] == Bit(n)
  {
  }
}
