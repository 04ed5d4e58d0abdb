/**
 * `AtomMeta::parseAtomBlock` of the CHAMP matcher and the helpers it calls
 * (`atom.cpp`): a character-driven loop that ORs bit masks into the fields
 * of an atom pattern for one SMILES-like atom block such as `C;!H2]`.
 *
 * The characters are the range from the iterator to `it_end`, as `s`, and
 * the iterator is a position in it; the character after the last one reads
 * as `'\0'`.  Where the source runs away (the `@`, `H` count, `+` and `-`
 * loops whose exit test can never hold, or a `D9`/`v9` reading past a
 * nine-entry table) the model reports `Undefined` instead of going on.
 *
 * The value `Meta` is the whole state of an `AtomMeta` except `name` and
 * `residue`, which the parser never writes; the class keeps the fields.
 */
module ChampAtom {
  import opened Wrappers
  import opened ChampConstants

  /**
   * The primitives an atom pattern constrains, as masks: one set of them
   * for what the atom must be (`atom`, `_class`, `degree`, ...) and one for
   * what it must not be (`not_atom`, `not_class`, `not_degree`, ...).
   */
  datatype Primitives = Primitives(atom: Mask, cls: Mask, degree: Mask, cycle: Mask, valence: Mask, charge: Mask)

  const NoPrimitives := Primitives(Empty, Empty, Empty, Empty, Empty, Empty)

  /** A snapshot of the fields the parser reads and writes; `neg` holds the `not_` masks. */
  datatype Meta = Meta(
    posFlag: bool, negFlag: bool, compImpHydroFlag: bool, hydroFlag: bool,
    stereo: Chirality, atomType: Mask, pos: Primitives, neg: Primitives,
    impHydro: int, totHydro: int, symbol: seq<char>)

  /**
   * The fields of a new `AtomMeta`: flags false, masks 0, chirality
   * unspecified and a zeroed symbol.  `imp_hydro` and `tot_hydro` have no
   * initialiser, so whatever they hold is a parameter.
   */
  function Fresh(impHydro: int, totHydro: int): (m: Meta)
    ensures !m.posFlag && !m.negFlag && !m.compImpHydroFlag && !m.hydroFlag && m.stereo == Unspecified
    ensures m.atomType == Empty && m.pos == NoPrimitives && m.neg == NoPrimitives && m.symbol == ['\0', '\0', '\0']
  {
    Meta(false, false, false, false, Unspecified, Empty, NoPrimitives, NoPrimitives, impHydro, totHydro, ['\0', '\0', '\0'])
  }

  /** Character `i` of the range, or `'\0'` just past it. */
  function At(s: seq<char>, i: int): char
  {
    if 0 <= i < |s| then s[i] else '\0'
  }

  /** `parseNumeral`: the value of a decimal digit, -1 for any other character. */
  function ParseNumeral(c: char): (r: int)
    ensures -1 <= r <= 9
    ensures r >= 0 <==> '0' <= c <= '9'
    ensures r >= 0 ==> c as int == '0' as int + r
  {
    if '0' <= c <= '9' then c as int - '0' as int else -1
  }

  /** Entry `n` of a table, for an `n` already known to be in range. */
  function Entry(table: seq<Mask>, n: int): Mask
  {
    if 0 <= n < |table| then table[n] else Empty
  }

  // ---------------------------------------------------------------------
  // The helpers of atom.cpp, on snapshots

  /** `parseAliphatic`. */
  function Aliphatic(m: Meta, mask: Mask, impHyd: bool): Meta
  {
    m.(pos := m.pos.(atom := Or(m.pos.atom, mask)), posFlag := true, compImpHydroFlag := impHyd)
  }

  /** `parseAromatic`: as `parseAliphatic`, and also `Class::Aliphatic` into `atom_type`. */
  function Aromatic(m: Meta, mask: Mask, impHyd: bool): Meta
  {
    Aliphatic(m, mask, impHyd).(atomType := Or(m.atomType, ClassAliphatic))
  }

  /** `parseString`: any atom, with the first two characters as the symbol. */
  function SymbolString(m: Meta, symbols: seq<char>): Meta
    requires |symbols| >= 2 && |m.symbol| == 3
  {
    m.(pos := m.pos.(atom := Or(m.pos.atom, AtomAny)), symbol := [symbols[0], symbols[1], m.symbol[2]], posFlag := true)
  }

  /** The masks a bit goes to: the `not_` ones under negation. */
  function Side(m: Meta, notFlag: bool): Primitives
  {
    if notFlag then m.neg else m.pos
  }

  /** Stores the updated side and sets its flag (`neg_flag` or `pos_flag`). */
  function WithSide(m: Meta, notFlag: bool, p: Primitives): Meta
  {
    if notFlag then m.(neg := p, negFlag := true) else m.(pos := p, posFlag := true)
  }

  /** The atom mask of a block to its side, setting `hydro_flag` either way. */
  function Route(m: Meta, mask: Mask, notFlag: bool): (r: Meta)
  {
    var p := Side(m, notFlag);
    WithSide(m, notFlag, p.(atom := Or(p.atom, mask))).(hydroFlag := true)
  }

  /** `parseBlock` with a character: a `Sym` mask stores it and ends the symbol. */
  function BlockChar(m: Meta, mask: Mask, notFlag: bool, c: char): (r: Meta)
    requires |m.symbol| == 3
  {
    var r := Route(m, mask, notFlag);
    if mask == AtomSym then r.(symbol := [c, '\0', m.symbol[2]]) else r
  }

  /**
   * `parseBlock` with a string: a `Sym` mask `strncpy`s two characters,
   * which stops at a NUL and pads with NULs.
   */
  function BlockStr(m: Meta, mask: Mask, notFlag: bool, symbols: seq<char>): (r: Meta)
    requires |m.symbol| == 3
  {
    var r := Route(m, mask, notFlag);
    var c0 := At(symbols, 0);
    if mask == AtomSym then r.(symbol := [c0, if c0 == '\0' then '\0' else At(symbols, 1), m.symbol[2]]) else r
  }

  /** A class bit (`A`, `a`, `p`). */
  function ClassBit(m: Meta, notFlag: bool, bit: Mask): (r: Meta)
  {
    var p := Side(m, notFlag);
    WithSide(m, notFlag, p.(cls := Or(p.cls, bit)))
  }

  /** A degree bit (`D` digit). */
  function DegreeBit(m: Meta, notFlag: bool, bit: Mask): (r: Meta)
  {
    var p := Side(m, notFlag);
    WithSide(m, notFlag, p.(degree := Or(p.degree, bit)))
  }

  /** A ring bit (`r`, with or without a digit). */
  function CycleBit(m: Meta, notFlag: bool, bit: Mask): (r: Meta)
  {
    var p := Side(m, notFlag);
    WithSide(m, notFlag, p.(cycle := Or(p.cycle, bit)))
  }

  /** A valence bit (`v` digit): to `not_valence` under negation, but otherwise to `degree`. */
  function ValenceBit(m: Meta, notFlag: bool, bit: Mask): (r: Meta)
  {
    if notFlag then WithSide(m, true, m.neg.(valence := Or(m.neg.valence, bit)))
    else WithSide(m, false, m.pos.(degree := Or(m.pos.degree, bit)))
  }

  /** A charge bit (`+` or `-` digit). */
  function ChargeBit(m: Meta, notFlag: bool, bit: Mask): (r: Meta)
  {
    var p := Side(m, notFlag);
    WithSide(m, notFlag, p.(charge := Or(p.charge, bit)))
  }

  /** Every mask of `q` has every bit of the same mask of `p`. */
  predicate CoversAll(q: Primitives, p: Primitives)
  {
    Covers(q.atom, p.atom) && Covers(q.cls, p.cls) && Covers(q.degree, p.degree)
    && Covers(q.cycle, p.cycle) && Covers(q.valence, p.valence) && Covers(q.charge, p.charge)
  }

  /** From `m` to `m'` the masks only gain bits (`|=` never clears one). */
  predicate Keeps(m: Meta, m': Meta)
  {
    Covers(m'.atomType, m.atomType) && CoversAll(m'.pos, m.pos) && CoversAll(m'.neg, m.neg)
  }

  /**
   * One turn of the loop under `not_flag`: the masks of the side it writes
   * only gain bits, the other side and `atom_type` are untouched.
   */
  predicate Grows(m: Meta, m': Meta, notFlag: bool)
  {
    m'.atomType == m.atomType
    && if notFlag then CoversAll(m'.neg, m.neg) && m'.pos == m.pos && m'.posFlag == m.posFlag
       else CoversAll(m'.pos, m.pos) && m'.neg == m.neg && m'.negFlag == m.negFlag
  }

  lemma KeepsTrans(m0: Meta, m1: Meta, m2: Meta)
    requires Keeps(m0, m1) && Keeps(m1, m2)
    ensures Keeps(m0, m2)
  {
    CoversTrans(m2.atomType, m1.atomType, m0.atomType);
    CoversTrans(m2.pos.atom, m1.pos.atom, m0.pos.atom);
    CoversTrans(m2.pos.cls, m1.pos.cls, m0.pos.cls);
    CoversTrans(m2.pos.degree, m1.pos.degree, m0.pos.degree);
    CoversTrans(m2.pos.cycle, m1.pos.cycle, m0.pos.cycle);
    CoversTrans(m2.pos.valence, m1.pos.valence, m0.pos.valence);
    CoversTrans(m2.pos.charge, m1.pos.charge, m0.pos.charge);
    CoversTrans(m2.neg.atom, m1.neg.atom, m0.neg.atom);
    CoversTrans(m2.neg.cls, m1.neg.cls, m0.neg.cls);
    CoversTrans(m2.neg.degree, m1.neg.degree, m0.neg.degree);
    CoversTrans(m2.neg.cycle, m1.neg.cycle, m0.neg.cycle);
    CoversTrans(m2.neg.valence, m1.neg.valence, m0.neg.valence);
    CoversTrans(m2.neg.charge, m1.neg.charge, m0.neg.charge);
  }

  // ---------------------------------------------------------------------
  // One turn of the loop

  /** An element token: the mask it ORs in and how many characters it takes. */
  datatype Token = Token(mask: Mask, width: nat)

  /**
   * The element branches of `parseAtomBlock` for the capitals other than
   * `A`, `D`, `G` and `H` (which do more) and `X` (which has no branch): a
   * following lower-case letter may make a two-letter element with its own
   * bit, or one that only has `Sym`; otherwise the single letter.
   */
  function ElementToken(c: char, next: char): (r: Option<Token>)
    ensures r.Some? ==> r.value.width == 1 || (r.value.width == 2 && 'a' <= next <= 'z')
    ensures r.Some? <==> c in {'B', 'C', 'E', 'F', 'I', 'J', 'K', 'L', 'M', 'N', 'O', 'P', 'Q', 'R', 'S', 'T', 'U', 'V', 'W', 'Y', 'Z'}
  {
    if c == 'B' then
      Some(if next in {'a', 'e', 'i'} then Token(AtomSym, 2) else if next == 'r' then Token(AtomBr, 2) else Token(AtomB, 1))
    else if c == 'C' then
      Some(if next == 'a' then Token(AtomCa, 2) else if next == 'u' then Token(AtomCu, 2)
           else if next == 'l' then Token(AtomCl, 2) else if next in {'d', 'e', 'o', 'r', 's'} then Token(AtomSym, 2) else Token(AtomC, 1))
    else if c == 'E' then Some(if next in {'r', 'u'} then Token(AtomSym, 2) else Token(AtomE, 1))
    else if c == 'F' then
      Some(if next == 'e' then Token(AtomFe, 2) else if next == 'r' then Token(AtomSym, 2) else Token(AtomF, 1))
    else if c == 'I' then Some(if next in {'n', 'r'} then Token(AtomSym, 2) else Token(AtomI, 1))
    else if c == 'J' then Some(Token(AtomJ, 1))
    else if c == 'K' then Some(Token(AtomK, 1))
    else if c == 'L' then Some(if next in {'a', 'i', 'u'} then Token(AtomSym, 2) else Token(AtomL, 1))
    else if c == 'M' then
      Some(if next in {'o', 'n'} then Token(AtomSym, 2) else if next == 'g' then Token(AtomMg, 2) else Token(AtomM, 1))
    else if c == 'N' then
      Some(if next in {'b', 'd', 'i'} then Token(AtomSym, 2) else if next == 'a' then Token(AtomNa, 2) else Token(AtomN, 1))
    else if c == 'O' then Some(if next == 's' then Token(AtomSym, 2) else Token(AtomO, 1))
    else if c == 'P' then Some(if next in {'b', 'd', 'o', 'r', 't'} then Token(AtomSym, 2) else Token(AtomP, 1))
    else if c == 'Q' then Some(Token(AtomQ, 1))
    else if c == 'R' then Some(if next in {'b', 'e', 'h', 'u'} then Token(AtomSym, 2) else Token(AtomR, 1))
    else if c == 'S' then
      Some(if next in {'b', 'c', 'i', 'm', 'n', 'r'} then Token(AtomSym, 2) else if next == 'e' then Token(AtomSe, 2) else Token(AtomS, 1))
    else if c == 'T' then Some(if next in {'a', 'b', 'e', 'i', 'h', 'l', 'm'} then Token(AtomSym, 2) else Token(AtomT, 1))
    else if c == 'U' || c == 'V' || c == 'W' then Some(Token(AtomSym, 1))
    else if c == 'Y' then Some(if next == 'b' then Token(AtomSym, 2) else Token(AtomSym, 1))
    else if c == 'Z' then
      Some(if next == 'r' then Token(AtomSym, 2) else if next == 'n' then Token(AtomZn, 2) else Token(AtomZ, 1))
    else None
  }

  /**
   * How a turn ends: go on with the new `not_flag`/`atom_seen` after
   * `step` characters; leave the loop one character on, with `done` set
   * (`]`) or `ok` cleared (`D` or `v` without a digit); `break` without
   * advancing; or run away.
   */
  datatype Action = Continue(notFlag: bool, atomSeen: bool, step: nat) | Finish(done: bool) | Break | Runaway

  /** A character a two-character token can swallow: a digit or a lower-case letter (never `]`, never NUL). */
  predicate Swallowable(c: char)
  {
    '0' <= c <= '9' || 'a' <= c <= 'z'
  }

  /** The characters `parseAtomBlock` acts on outside the capitals. */
  const Punctuation: set<char> := {']', '!', ',', ';', '*', '?', '@'}

  /** The branches for `]`, `!`, `,`, `;`, `*`, `?` and `@`. */
  function PunctStep(m: Meta, c: char, next: char, notFlag: bool, atomSeen: bool): (r: (Meta, Action))
    requires |m.symbol| == 3 && c in Punctuation
    ensures |r.0.symbol| == 3
    ensures r.1.Continue? ==> r.1.notFlag == (c == '!' || (c != ';' && notFlag))
    ensures c == '!' ==> r.0 == m && r.1.Continue?
    ensures r.1.Continue? ==> 1 <= r.1.step <= 2 && (r.1.step == 2 ==> Swallowable(next))
    ensures r.1 == Finish(true) <==> c == ']'
    ensures !r.1.Break? && r.1 != Finish(false)
  {
    if c == ']' then (m, Finish(true))
    else if c == '!' then (m, Continue(true, false, 1))
    else if c == ',' then (m, Continue(notFlag, false, 1))
    else if c == ';' then (m, Continue(false, false, 1))
    else if c == '*' then (BlockChar(m, AtomAny, notFlag, c), Continue(notFlag, true, 1))
    else if c == '?' then (BlockChar(m, AtomNotH, notFlag, c), Continue(notFlag, true, 1))
    else
      var num := ParseNumeral(next);
      if num < 0 then (m, Runaway)
      else (m.(stereo := if num % 2 == 1 then Anticlock else Clockwise), Continue(notFlag, atomSeen, 2))
  }

  /** `A` (a two-letter element, else the aliphatic class) and `G` (only as a two-letter element). */
  function AgStep(m: Meta, c: char, next: char, notFlag: bool, atomSeen: bool): (r: (Meta, Action))
    requires |m.symbol| == 3 && (c == 'A' || c == 'G')
    ensures |r.0.symbol| == 3
    ensures r.1.Continue? ==> r.1.notFlag == notFlag
    ensures r.1.Continue? ==> 1 <= r.1.step <= 2 && (r.1.step == 2 ==> Swallowable(next))
    ensures r.1.Break? ==> r.0 == m
    ensures r.1.Finish? ==> !r.1.done
  {
    if c == 'A' then
      if next in {'c', 'g', 'l', 'm', 's', 'u'} then (BlockStr(m, AtomSym, notFlag, [c, next]), Continue(notFlag, true, 2))
      else (ClassBit(m, notFlag, ClassAliphatic), Continue(notFlag, atomSeen, 1))
    else
      if next in {'a', 'd', 'e'} then (BlockStr(m, AtomSym, notFlag, [c, next]), Continue(notFlag, true, 2))
      else (m, Break)
  }

  /** `D`: dysprosium, or a degree digit 0 to 8 (reading `num_to_degree[9]` runs off the table). */
  function DegreeStep(m: Meta, c: char, next: char, notFlag: bool, atomSeen: bool): (r: (Meta, Action))
    requires |m.symbol| == 3
    ensures |r.0.symbol| == 3
    ensures r.1.Continue? ==> r.1.notFlag == notFlag
    ensures r.1.Continue? ==> 1 <= r.1.step <= 2 && (r.1.step == 2 ==> Swallowable(next))
    ensures r.1.Break? ==> r.0 == m
    ensures r.1.Finish? ==> !r.1.done
  {
    if next == 'y' then (BlockStr(m, AtomSym, notFlag, [c, next]), Continue(notFlag, true, 2))
    else
      var num := ParseNumeral(next);
      if num < 0 then (m, Finish(false))
      else if num >= |NumToDegree| then (m, Runaway)
      else (DegreeBit(m, notFlag, Entry(NumToDegree, num)), Continue(notFlag, atomSeen, 2))
  }

  /** `H`: a two-letter element; hydrogen itself before any atom; otherwise a hydrogen count. */
  function HydrogenStep(m: Meta, c: char, next: char, notFlag: bool, atomSeen: bool): (r: (Meta, Action))
    requires |m.symbol| == 3
    ensures |r.0.symbol| == 3
    ensures r.1.Continue? ==> r.1.notFlag == notFlag
    ensures r.1.Continue? ==> 1 <= r.1.step <= 2 && (r.1.step == 2 ==> Swallowable(next))
    ensures r.1.Break? ==> r.0 == m
    ensures r.1.Finish? ==> !r.1.done
  {
    if next in {'e', 'f', 'g', 'o'} then (BlockStr(m, AtomSym, notFlag, [c, next]), Continue(notFlag, true, 2))
    else if !atomSeen then (BlockChar(m, AtomH, notFlag, c), Continue(notFlag, true, 1))
    else
      var num := ParseNumeral(next);
      if num < 0 then (m, Runaway)
      else (m.(impHydro := num, totHydro := num, hydroFlag := true), Continue(notFlag, atomSeen, 2))
  }

  /** The element table; `V` is the one element that leaves `atom_seen` alone. */
  function ElementStep(m: Meta, c: char, next: char, notFlag: bool, atomSeen: bool): (r: (Meta, Action))
    requires |m.symbol| == 3
    ensures |r.0.symbol| == 3
    ensures r.1.Continue? ==> r.1.notFlag == notFlag
    ensures r.1.Continue? ==> 1 <= r.1.step <= 2 && (r.1.step == 2 ==> Swallowable(next))
    ensures r.1.Break? ==> r.0 == m
    ensures r.1.Finish? ==> !r.1.done
  {
    match ElementToken(c, next)
    case Some(t) =>
      var m' := if t.width == 2 then BlockStr(m, t.mask, notFlag, [c, next]) else BlockChar(m, t.mask, notFlag, c);
      (m', Continue(notFlag, if c == 'V' then atomSeen else true, t.width))
    case None => (m, Break)
  }

  /** The capital letters: `A`, `D`, `G`, `H` and the element table; `X` breaks. */
  function CapitalStep(m: Meta, c: char, next: char, notFlag: bool, atomSeen: bool): (r: (Meta, Action))
    requires |m.symbol| == 3 && 'A' <= c <= 'Z'
    ensures |r.0.symbol| == 3
    ensures r.1.Continue? ==> r.1.notFlag == notFlag
    ensures r.1.Continue? ==> 1 <= r.1.step <= 2 && (r.1.step == 2 ==> Swallowable(next))
    ensures r.1.Break? ==> r.0 == m
    ensures r.1.Finish? ==> !r.1.done
  {
    if c == 'A' || c == 'G' then AgStep(m, c, next, notFlag, atomSeen)
    else if c == 'D' then DegreeStep(m, c, next, notFlag, atomSeen)
    else if c == 'H' then HydrogenStep(m, c, next, notFlag, atomSeen)
    else ElementStep(m, c, next, notFlag, atomSeen)
  }

  /** `v`: a valence digit 0 to 8 (reading `num_to_valence[9]` runs off the table). */
  function ValenceStep(m: Meta, next: char, notFlag: bool, atomSeen: bool): (r: (Meta, Action))
    requires |m.symbol| == 3
    ensures |r.0.symbol| == 3
    ensures r.1.Continue? ==> r.1.notFlag == notFlag
    ensures r.1.Continue? ==> 1 <= r.1.step <= 2 && (r.1.step == 2 ==> Swallowable(next))
    ensures r.1.Break? ==> r.0 == m
    ensures r.1.Finish? ==> !r.1.done
  {
    var num := ParseNumeral(next);
    if num < 0 then (m, Finish(false))
    else if num >= |NumToValence| then (m, Runaway)
    else (ValenceBit(m, notFlag, Entry(NumToValence, num)), Continue(notFlag, atomSeen, 2))
  }

  /** `+` and `-`, which are the same: a digit up to 5 selects `num_to_charge`, a larger one is skipped. */
  function ChargeStep(m: Meta, next: char, notFlag: bool, atomSeen: bool): (r: (Meta, Action))
    requires |m.symbol| == 3
    ensures |r.0.symbol| == 3
    ensures r.1.Continue? ==> r.1.notFlag == notFlag
    ensures r.1.Continue? ==> 1 <= r.1.step <= 2 && (r.1.step == 2 ==> Swallowable(next))
    ensures r.1.Break? ==> r.0 == m
    ensures r.1.Finish? ==> !r.1.done
  {
    var num := ParseNumeral(next);
    if num < 0 then (m, Runaway)
    else if num <= 5 then (ChargeBit(m, notFlag, Entry(NumToCharge, num)), Continue(notFlag, atomSeen, 2))
    else (m, Continue(notFlag, atomSeen, 2))
  }

  /** The lower-case branches `a`, `p`, `r`, `v`, then `+` and `-`; anything else breaks. */
  function LowerStep(m: Meta, c: char, next: char, notFlag: bool, atomSeen: bool): (r: (Meta, Action))
    requires |m.symbol| == 3
    ensures |r.0.symbol| == 3
    ensures r.1.Continue? ==> r.1.notFlag == notFlag
    ensures r.1.Continue? ==> 1 <= r.1.step <= 2 && (r.1.step == 2 ==> Swallowable(next))
    ensures r.1.Break? ==> r.0 == m
    ensures r.1.Finish? ==> !r.1.done
  {
    if c == 'a' then (ClassBit(m, notFlag, ClassAliphatic), Continue(notFlag, atomSeen, 1))
    else if c == 'p' then (ClassBit(m, notFlag, ClassPi), Continue(notFlag, atomSeen, 1))
    else if c == 'r' then
      var num := ParseNumeral(next);
      if num >= 0 then (CycleBit(m, notFlag, Entry(NumToRing, num)), Continue(notFlag, atomSeen, 2))
      else (CycleBit(m, notFlag, AnyRing), Continue(notFlag, atomSeen, 1))
    else if c == 'v' then ValenceStep(m, next, notFlag, atomSeen)
    else if c == '+' || c == '-' then ChargeStep(m, next, notFlag, atomSeen)
    else (m, Break)
  }

  /** One turn of the `while` loop of `parseAtomBlock` at character `c`, followed by `next`. */
  function Step(m: Meta, c: char, next: char, notFlag: bool, atomSeen: bool): (r: (Meta, Action))
    requires |m.symbol| == 3
    ensures |r.0.symbol| == 3
    ensures r.1.Continue? ==> r.1.notFlag == (c == '!' || (c != ';' && notFlag))
    ensures c == '!' ==> r.0 == m && r.1.Continue?
    ensures r.1.Continue? ==> 1 <= r.1.step <= 2 && (r.1.step == 2 ==> Swallowable(next))
    ensures r.1.Break? ==> r.0 == m
    ensures r.1 == Finish(true) <==> c == ']'
  {
    if c in Punctuation then PunctStep(m, c, next, notFlag, atomSeen)
    else if 'A' <= c <= 'Z' then CapitalStep(m, c, next, notFlag, atomSeen)
    else LowerStep(m, c, next, notFlag, atomSeen)
  }

  // ---------------------------------------------------------------------
  // A turn only ORs into the side `not_flag` selects

  lemma RouteGrows(m: Meta, mask: Mask, notFlag: bool)
    ensures Grows(m, Route(m, mask, notFlag), notFlag)
  {
    OrKeeps(Side(m, notFlag).atom, mask);
  }

  lemma BlockGrows(m: Meta, mask: Mask, notFlag: bool, c: char, symbols: seq<char>)
    requires |m.symbol| == 3
    ensures Grows(m, BlockChar(m, mask, notFlag, c), notFlag)
    ensures Grows(m, BlockStr(m, mask, notFlag, symbols), notFlag)
  {
    RouteGrows(m, mask, notFlag);
  }

  lemma ClassGrows(m: Meta, notFlag: bool, bit: Mask)
    ensures Grows(m, ClassBit(m, notFlag, bit), notFlag)
  {
    OrKeeps(Side(m, notFlag).cls, bit);
  }

  lemma DegreeGrows(m: Meta, notFlag: bool, bit: Mask)
    ensures Grows(m, DegreeBit(m, notFlag, bit), notFlag)
  {
    OrKeeps(Side(m, notFlag).degree, bit);
  }

  lemma CycleGrows(m: Meta, notFlag: bool, bit: Mask)
    ensures Grows(m, CycleBit(m, notFlag, bit), notFlag)
  {
    OrKeeps(Side(m, notFlag).cycle, bit);
  }

  lemma ValenceGrows(m: Meta, notFlag: bool, bit: Mask)
    ensures Grows(m, ValenceBit(m, notFlag, bit), notFlag)
  {
    if notFlag {
      OrKeeps(m.neg.valence, bit);
    } else {
      OrKeeps(m.pos.degree, bit);
    }
  }

  lemma ChargeGrows(m: Meta, notFlag: bool, bit: Mask)
    ensures Grows(m, ChargeBit(m, notFlag, bit), notFlag)
  {
    OrKeeps(Side(m, notFlag).charge, bit);
  }

  /** Untouched masks are kept. */
  lemma SameGrows(m: Meta, m': Meta, notFlag: bool)
    requires m'.atomType == m.atomType && m'.pos == m.pos && m'.neg == m.neg
    requires m'.posFlag == m.posFlag && m'.negFlag == m.negFlag
    ensures Grows(m, m', notFlag)
  {
  }

  lemma PunctGrows(m: Meta, c: char, next: char, notFlag: bool, atomSeen: bool)
    requires |m.symbol| == 3 && c in Punctuation
    ensures Grows(m, PunctStep(m, c, next, notFlag, atomSeen).0, notFlag)
  {
    if c == '*' {
      BlockGrows(m, AtomAny, notFlag, c, []);
    } else if c == '?' {
      BlockGrows(m, AtomNotH, notFlag, c, []);
    } else {
      SameGrows(m, PunctStep(m, c, next, notFlag, atomSeen).0, notFlag);
    }
  }

  lemma CapitalGrows(m: Meta, c: char, next: char, notFlag: bool, atomSeen: bool)
    requires |m.symbol| == 3 && 'A' <= c <= 'Z'
    ensures Grows(m, CapitalStep(m, c, next, notFlag, atomSeen).0, notFlag)
  {
    if c == 'A' || c == 'G' {
      BlockGrows(m, AtomSym, notFlag, c, [c, next]);
      ClassGrows(m, notFlag, ClassAliphatic);
      SameGrows(m, m, notFlag);
    } else if c == 'D' {
      BlockGrows(m, AtomSym, notFlag, c, [c, next]);
      DegreeGrows(m, notFlag, Entry(NumToDegree, ParseNumeral(next)));
      SameGrows(m, m, notFlag);
    } else if c == 'H' {
      HydrogenGrows(m, c, next, notFlag, atomSeen);
    } else {
      ElementGrows(m, c, next, notFlag, atomSeen);
    }
  }

  lemma HydrogenGrows(m: Meta, c: char, next: char, notFlag: bool, atomSeen: bool)
    requires |m.symbol| == 3
    ensures Grows(m, HydrogenStep(m, c, next, notFlag, atomSeen).0, notFlag)
  {
    if next in {'e', 'f', 'g', 'o'} {
      BlockGrows(m, AtomSym, notFlag, c, [c, next]);
    } else if !atomSeen {
      BlockGrows(m, AtomH, notFlag, c, [c, next]);
    } else {
      SameGrows(m, HydrogenStep(m, c, next, notFlag, atomSeen).0, notFlag);
    }
  }

  lemma ElementGrows(m: Meta, c: char, next: char, notFlag: bool, atomSeen: bool)
    requires |m.symbol| == 3
    ensures Grows(m, ElementStep(m, c, next, notFlag, atomSeen).0, notFlag)
  {
    match ElementToken(c, next)
    case Some(t) => BlockGrows(m, t.mask, notFlag, c, [c, next]);
    case None => SameGrows(m, m, notFlag);
  }

  lemma LowerGrows(m: Meta, c: char, next: char, notFlag: bool, atomSeen: bool)
    requires |m.symbol| == 3
    ensures Grows(m, LowerStep(m, c, next, notFlag, atomSeen).0, notFlag)
  {
    var num := ParseNumeral(next);
    if c == 'a' {
      ClassGrows(m, notFlag, ClassAliphatic);
    } else if c == 'p' {
      ClassGrows(m, notFlag, ClassPi);
    } else if c == 'r' {
      if num >= 0 {
        CycleGrows(m, notFlag, Entry(NumToRing, num));
      } else {
        CycleGrows(m, notFlag, AnyRing);
      }
    } else if c == 'v' {
      ValenceGrows(m, notFlag, Entry(NumToValence, num));
      SameGrows(m, m, notFlag);
    } else if c == '+' || c == '-' {
      ChargeGrows(m, notFlag, Entry(NumToCharge, num));
      SameGrows(m, m, notFlag);
    } else {
      SameGrows(m, m, notFlag);
    }
  }

  /** Every turn writes only the side `not_flag` selects, and only adds bits there. */
  lemma StepGrows(m: Meta, c: char, next: char, notFlag: bool, atomSeen: bool)
    requires |m.symbol| == 3
    ensures Grows(m, Step(m, c, next, notFlag, atomSeen).0, notFlag)
  {
    if c in Punctuation {
      PunctGrows(m, c, next, notFlag, atomSeen);
    } else if 'A' <= c <= 'Z' {
      CapitalGrows(m, c, next, notFlag, atomSeen);
    } else {
      LowerGrows(m, c, next, notFlag, atomSeen);
    }
  }

  // ---------------------------------------------------------------------
  // The whole loop

  /** What the call does: return `done` and leave the iterator at `pos`, or run away. */
  datatype ParseOutcome = Parsed(done: bool, pos: nat) | Undefined

  /** The outcome and the fields afterwards; nothing is promised about the fields when the outcome is `Undefined`. */
  datatype Scanned = Scanned(outcome: ParseOutcome, meta: Meta)

  /** The loop from position `i` with the given `not_flag` and `atom_seen`. */
  function Scan(s: seq<char>, i: nat, m: Meta, notFlag: bool, atomSeen: bool): (r: Scanned)
    requires i <= |s| && |m.symbol| == 3
    ensures |r.meta.symbol| == 3
    ensures r.outcome.Parsed? ==> i <= r.outcome.pos <= |s|
    decreases |s| - i
  {
    if i == |s| then Scanned(Parsed(false, i), m)
    else
      var (m', a) := Step(m, s[i], At(s, i + 1), notFlag, atomSeen);
      match a
      case Continue(nf, seen, step) => Scan(s, i + step, m', nf, seen)
      case Finish(done) => Scanned(Parsed(done, i + 1), m')
      case Break => Scanned(Parsed(false, i), m)
      case Runaway => Scanned(Undefined, m)
  }

  /** Where the loop stands: still running from `i`, or left with `done` at `i`. */
  function Resume(s: seq<char>, i: nat, m: Meta, notFlag: bool, atomSeen: bool, ok: bool, done: bool): Scanned
    requires i <= |s| && |m.symbol| == 3
  {
    if ok && !done then Scan(s, i, m, notFlag, atomSeen) else Scanned(Parsed(done, i), m)
  }

  /**
   * A turn that goes on or leaves the loop normally: with the locals after
   * it (`i'`, `notFlag'`, `atomSeen'`, `ok'`, `done'`) as the action says,
   * the loop reaches the same outcome.
   */
  lemma TurnGoesOn(s: seq<char>, i: nat, m: Meta, notFlag: bool, atomSeen: bool,
                   m': Meta, a: Action, i': nat, notFlag': bool, atomSeen': bool, ok': bool, done': bool)
    requires i < |s| && |m.symbol| == 3 && (m', a) == Step(m, s[i], At(s, i + 1), notFlag, atomSeen)
    requires a.Continue? ==> i' == i + a.step && notFlag' == a.notFlag && atomSeen' == a.atomSeen && ok' && !done'
    requires a.Finish? ==> i' == i + 1 && ok' == a.done && done' == a.done
    requires a.Continue? || a.Finish?
    ensures i' <= |s| && Scan(s, i, m, notFlag, atomSeen) == Resume(s, i', m', notFlag', atomSeen', ok', done')
  {
  }

  /** A turn that breaks leaves the position and the fields as they were. */
  lemma TurnBreaks(s: seq<char>, i: nat, m: Meta, notFlag: bool, atomSeen: bool, m': Meta)
    requires i < |s| && |m.symbol| == 3 && (m', Break) == Step(m, s[i], At(s, i + 1), notFlag, atomSeen)
    ensures Scan(s, i, m, notFlag, atomSeen) == Scanned(Parsed(false, i), m')
  {
  }

  /** A turn that runs away makes the whole call undefined. */
  lemma TurnRunsAway(s: seq<char>, i: nat, m: Meta, notFlag: bool, atomSeen: bool, m': Meta)
    requires i < |s| && |m.symbol| == 3 && (m', Runaway) == Step(m, s[i], At(s, i + 1), notFlag, atomSeen)
    ensures Scan(s, i, m, notFlag, atomSeen).outcome == Undefined
  {
  }

  /** `parseAtomBlock` from position `i`: `comp_imp_hydro_flag` is cleared, then the loop runs. */
  function ParseBlock(s: seq<char>, i: nat, m: Meta): (r: Scanned)
    requires i <= |s| && |m.symbol| == 3
  {
    Scan(s, i, m.(compImpHydroFlag := false), false, false)
  }

  /** No `c` in `s[from..to]`. */
  predicate NoneBefore(s: seq<char>, from: int, to: int, c: char)
  {
    forall k :: 0 <= from <= k < to && k < |s| ==> s[k] != c
  }

  /**
   * From `i`, an outcome that returns `true` exactly when it stops just
   * after a `]`, with no `]` before that point.
   */
  predicate EndsAtFirstBracket(s: seq<char>, i: nat, r: ParseOutcome)
  {
    r.Parsed? ==> i <= r.pos <= |s| && (r.done <==> i < r.pos && s[r.pos - 1] == ']') && NoneBefore(s, i, r.pos - 1, ']')
  }

  /**
   * What the loop has kept since it started at `pos0` with fields `m0`:
   * it stopped after the first `]` when `done`, masks only gained bits,
   * without a `!` so far nothing was negated, and after a leading `!`
   * with no `;` so far nothing positive was written.
   */
  predicate Tracks(s: seq<char>, pos0: nat, m0: Meta, i: nat, m: Meta, notFlag: bool, done: bool)
  {
    pos0 <= i <= |s|
    && EndsAtFirstBracket(s, pos0, Parsed(done, i))
    && Keeps(m0, m)
    && (NoneBefore(s, pos0, i, '!') ==> !notFlag && m.neg == m0.neg && m.negFlag == m0.negFlag)
    && (pos0 < |s| && s[pos0] == '!' && NoneBefore(s, pos0, i, ';') ==>
          m.pos == m0.pos && m.posFlag == m0.posFlag && (pos0 < i ==> notFlag))
  }

  /**
   * What `parseAtomBlock` promises about a call from `pos0` with fields
   * `m0` that ends with fields `m`: it returns `true` exactly when it
   * consumed the first `]`; masks only gain bits; a block without `!`
   * negates nothing; and a block that starts with `!` and has no `;`
   * writes nothing positive.
   */
  predicate Promised(s: seq<char>, pos0: nat, m0: Meta, r: ParseOutcome, m: Meta)
  {
    EndsAtFirstBracket(s, pos0, r)
    && (r.Parsed? ==>
          Keeps(m0, m)
          && (NoneBefore(s, pos0, r.pos, '!') ==> m.neg == m0.neg && m.negFlag == m0.negFlag)
          && (pos0 < |s| && s[pos0] == '!' && NoneBefore(s, pos0, r.pos, ';') ==> m.pos == m0.pos && m.posFlag == m0.posFlag))
  }

  lemma TracksPromise(s: seq<char>, pos0: nat, m0: Meta, i: nat, m: Meta, notFlag: bool, done: bool)
    requires Tracks(s, pos0, m0, i, m, notFlag, done)
    ensures Promised(s, pos0, m0, Parsed(done, i), m)
  {
  }

  /** A turn that goes on or leaves the loop normally keeps `Tracks`. */
  lemma TracksStep(s: seq<char>, pos0: nat, m0: Meta, i: nat, m: Meta, notFlag: bool,
                   m': Meta, a: Action, i': nat, notFlag': bool, done': bool)
    requires Tracks(s, pos0, m0, i, m, notFlag, false) && i < |s|
    requires Grows(m, m', notFlag)
    requires a.Continue? ==> 1 <= a.step <= 2 && (a.step == 2 ==> Swallowable(At(s, i + 1)))
    requires a.Continue? ==> a.notFlag == (s[i] == '!' || (s[i] != ';' && notFlag))
    requires s[i] == '!' ==> m' == m && a.Continue?
    requires a == Finish(true) <==> s[i] == ']'
    requires a.Continue? ==> i' == i + a.step && notFlag' == a.notFlag && !done'
    requires a.Finish? ==> i' == i + 1 && notFlag' == notFlag && done' == a.done
    requires a.Continue? || a.Finish?
    ensures Tracks(s, pos0, m0, i', m', notFlag', done')
  {
    GrowsKeeps(m0, m, m', notFlag);
    assert i' <= |s| && (i' == i + 2 ==> s[i + 1] != ']' && s[i + 1] != '!' && s[i + 1] != ';');
    assert EndsAtFirstBracket(s, pos0, Parsed(done', i'));
    assert NoneBefore(s, pos0, i', '!') ==> !notFlag' && m'.neg == m0.neg && m'.negFlag == m0.negFlag;
    assert pos0 < |s| && s[pos0] == '!' && NoneBefore(s, pos0, i', ';') ==>
          m'.pos == m0.pos && m'.posFlag == m0.posFlag && (pos0 < i' ==> notFlag');
  }

  /** Fields with the same masks keep each other. */
  lemma KeepsSame(m: Meta, m': Meta)
    requires m'.atomType == m.atomType && m'.pos == m.pos && m'.neg == m.neg
    ensures Keeps(m, m')
  {
  }

  /** A run of `Keeps` followed by one `Grows` is a `Keeps`. */
  lemma GrowsKeeps(m0: Meta, m: Meta, m': Meta, notFlag: bool)
    requires Keeps(m0, m) && Grows(m, m', notFlag)
    ensures Keeps(m0, m')
  {
    KeepsTrans(m0, m, m');
  }

  /**
   * One turn that goes on or leaves the loop normally, as the locals see
   * it: the loop still ends where `spec` says, and `Tracks` is kept.
   */
  lemma TurnKeeps(s: seq<char>, pos0: nat, m0: Meta, spec: Scanned, i: nat, m: Meta, notFlag: bool, atomSeen: bool,
                  m': Meta, a: Action, i': nat, notFlag': bool, atomSeen': bool, ok': bool, done': bool)
    requires i < |s| && |m.symbol| == 3 && (m', a) == Step(m, s[i], At(s, i + 1), notFlag, atomSeen)
    requires spec == Scan(s, i, m, notFlag, atomSeen) && Tracks(s, pos0, m0, i, m, notFlag, false)
    requires a.Continue? ==> i' == i + a.step && notFlag' == a.notFlag && atomSeen' == a.atomSeen && ok' && !done'
    requires a.Finish? ==> i' == i + 1 && notFlag' == notFlag && atomSeen' == atomSeen && ok' == a.done && done' == a.done
    requires a.Continue? || a.Finish?
    ensures i' <= |s| && |m'.symbol| == 3
    ensures spec == Resume(s, i', m', notFlag', atomSeen', ok', done') && Tracks(s, pos0, m0, i', m', notFlag', done')
  {
    TurnGoesOn(s, i, m, notFlag, atomSeen, m', a, i', notFlag', atomSeen', ok', done');
    StepGrows(m, s[i], At(s, i + 1), notFlag, atomSeen);
    TracksStep(s, pos0, m0, i, m, notFlag, m', a, i', notFlag', done');
  }

  /** From any point the loop reaches with `Tracks` kept, it ends as `Promised` says. */
  lemma {:induction false} ScanPromised(s: seq<char>, pos0: nat, m0: Meta, i: nat, m: Meta, notFlag: bool, atomSeen: bool,
                                        r: Scanned)
    requires i <= |s| && |m.symbol| == 3 && Tracks(s, pos0, m0, i, m, notFlag, false)
    requires r == Scan(s, i, m, notFlag, atomSeen)
    ensures Promised(s, pos0, m0, r.outcome, r.meta)
    decreases |s| - i
  {
    if i == |s| {
      TracksPromise(s, pos0, m0, i, m, notFlag, false);
    } else {
      var (m', a) := Step(m, s[i], At(s, i + 1), notFlag, atomSeen);
      if a.Continue? {
        TurnKeeps(s, pos0, m0, r, i, m, notFlag, atomSeen, m', a, i + a.step, a.notFlag, a.atomSeen, true, false);
        ScanPromised(s, pos0, m0, i + a.step, m', a.notFlag, a.atomSeen, r);
      } else {
        StopPromised(s, pos0, m0, i, m, notFlag, atomSeen, r);
      }
    }
  }

  /** A turn that leaves the loop keeps the promises. */
  lemma StopPromised(s: seq<char>, pos0: nat, m0: Meta, i: nat, m: Meta, notFlag: bool, atomSeen: bool, r: Scanned)
    requires i < |s| && |m.symbol| == 3 && Tracks(s, pos0, m0, i, m, notFlag, false)
    requires r == Scan(s, i, m, notFlag, atomSeen) && !Step(m, s[i], At(s, i + 1), notFlag, atomSeen).1.Continue?
    ensures Promised(s, pos0, m0, r.outcome, r.meta)
  {
    var (m', a) := Step(m, s[i], At(s, i + 1), notFlag, atomSeen);
    match a
    case Finish(d) =>
      TurnKeeps(s, pos0, m0, r, i, m, notFlag, atomSeen, m', a, i + 1, notFlag, atomSeen, d, d);
      TracksPromise(s, pos0, m0, i + 1, m', notFlag, d);
    case Break =>
      TurnBreaks(s, i, m, notFlag, atomSeen, m');
      TracksPromise(s, pos0, m0, i, m, notFlag, false);
    case Runaway =>
      TurnRunsAway(s, i, m, notFlag, atomSeen, m');
  }

  /** The whole call keeps its promises. */
  lemma ParseBlockPromised(s: seq<char>, i: nat, m: Meta)
    requires i <= |s| && |m.symbol| == 3
    ensures Promised(s, i, m, ParseBlock(s, i, m).outcome, ParseBlock(s, i, m).meta)
  {
    var m1 := m.(compImpHydroFlag := false);
    KeepsSame(m, m1);
    ScanPromised(s, i, m, i, m1, false, false, ParseBlock(s, i, m));
  }

  // ---------------------------------------------------------------------
  // The class

  class AtomMeta {
    var posFlag: bool
    var negFlag: bool
    var compImpHydroFlag: bool
    var hydroFlag: bool
    var stereo: Chirality
    var atomType: Mask
    var atom: Mask
    var notAtom: Mask
    var cls: Mask
    var notCls: Mask
    var degree: Mask
    var notDegree: Mask
    var cycle: Mask
    var notCycle: Mask
    var valence: Mask
    var notValence: Mask
    var charge: Mask
    var notCharge: Mask
    var impHydro: int
    var totHydro: int
    const symbol: array<char>
    const name: array<char>
    const residue: array<char>

    /** The buffers have the sizes `char symbol[3]`, `name[5]` and `residue[5]`. */
    predicate Valid()
      reads this
    {
      symbol.Length == 3 && name.Length == 5 && residue.Length == 5
    }

    function Snapshot(): (m: Meta)
      reads this, symbol
      requires Valid()
    {
      Meta(posFlag, negFlag, compImpHydroFlag, hydroFlag, stereo, atomType,
           Primitives(atom, cls, degree, cycle, valence, charge),
           Primitives(notAtom, notCls, notDegree, notCycle, notValence, notCharge),
           impHydro, totHydro, symbol[..])
    }

    /** `AtomMeta()`, with the indeterminate hydrogen counts as parameters. */
    constructor (impHydro0: int, totHydro0: int)
      ensures Valid() && Snapshot() == Fresh(impHydro0, totHydro0)
      ensures name[..] == ['\0', '\0', '\0', '\0', '\0'] && residue[..] == ['\0', '\0', '\0', '\0', '\0']
    {
      posFlag, negFlag, compImpHydroFlag, hydroFlag := false, false, false, false;
      stereo := Unspecified;
      atomType, atom, notAtom, cls, notCls := Empty, Empty, Empty, Empty, Empty;
      degree, notDegree, cycle, notCycle := Empty, Empty, Empty, Empty;
      valence, notValence, charge, notCharge := Empty, Empty, Empty, Empty;
      impHydro, totHydro := impHydro0, totHydro0;
      symbol := new char[3]['\0', '\0', '\0'];
      name := new char[5]['\0', '\0', '\0', '\0', '\0'];
      residue := new char[5]['\0', '\0', '\0', '\0', '\0'];
    }

    method ParseAliphatic(mask: Mask, impHyd: bool)
      requires Valid()
      modifies this
      ensures Valid() && Snapshot() == Aliphatic(old(Snapshot()), mask, impHyd)
    {
      atom := Or(atom, mask);
      posFlag := true;
      compImpHydroFlag := impHyd;
    }

    method ParseAromatic(mask: Mask, impHyd: bool)
      requires Valid()
      modifies this
      ensures Valid() && Snapshot() == Aromatic(old(Snapshot()), mask, impHyd)
    {
      ParseAliphatic(mask, impHyd);
      atomType := Or(atomType, ClassAliphatic);
    }

    /** `parseString`; the string view must hold two characters. */
    method ParseString(symbols: seq<char>)
      requires Valid() && |symbols| >= 2
      modifies this, symbol
      ensures Valid() && Snapshot() == SymbolString(old(Snapshot()), symbols)
    {
      atom := Or(atom, AtomAny);
      symbol[0] := symbols[0];
      symbol[1] := symbols[1];
      posFlag := true;
    }

    method RouteMask(mask: Mask, notFlag: bool)
      requires Valid()
      modifies this
      ensures Valid() && Snapshot() == Route(old(Snapshot()), mask, notFlag)
    {
      if notFlag {
        notAtom := Or(notAtom, mask);
        negFlag := true;
      } else {
        atom := Or(atom, mask);
        posFlag := true;
      }
      hydroFlag := true;
    }

    /** `parseBlock(mask, not_atom_flag, char)`. */
    method ParseBlockChar(mask: Mask, notFlag: bool, c: char)
      requires Valid()
      modifies this, symbol
      ensures Valid() && Snapshot() == BlockChar(old(Snapshot()), mask, notFlag, c)
    {
      RouteMask(mask, notFlag);
      if mask == AtomSym {
        symbol[0] := c;
        symbol[1] := '\0';
      }
    }

    /** `parseBlock(mask, not_atom_flag, string_view)`. */
    method ParseBlockStr(mask: Mask, notFlag: bool, symbols: seq<char>)
      requires Valid()
      modifies this, symbol
      ensures Valid() && Snapshot() == BlockStr(old(Snapshot()), mask, notFlag, symbols)
    {
      RouteMask(mask, notFlag);
      if mask == AtomSym {
        var c0 := At(symbols, 0);
        symbol[0] := c0;
        symbol[1] := if c0 == '\0' then '\0' else At(symbols, 1);
      }
    }

    method RouteClass(notFlag: bool, bit: Mask)
      requires Valid()
      modifies this
      ensures Valid() && Snapshot() == ClassBit(old(Snapshot()), notFlag, bit)
    {
      if notFlag {
        negFlag := true;
        notCls := Or(notCls, bit);
      } else {
        posFlag := true;
        cls := Or(cls, bit);
      }
    }

    method RouteDegree(notFlag: bool, bit: Mask)
      requires Valid()
      modifies this
      ensures Valid() && Snapshot() == DegreeBit(old(Snapshot()), notFlag, bit)
    {
      if notFlag {
        negFlag := true;
        notDegree := Or(notDegree, bit);
      } else {
        posFlag := true;
        degree := Or(degree, bit);
      }
    }

    method RouteCycle(notFlag: bool, bit: Mask)
      requires Valid()
      modifies this
      ensures Valid() && Snapshot() == CycleBit(old(Snapshot()), notFlag, bit)
    {
      if notFlag {
        negFlag := true;
        notCycle := Or(notCycle, bit);
      } else {
        posFlag := true;
        cycle := Or(cycle, bit);
      }
    }

    method RouteValence(notFlag: bool, bit: Mask)
      requires Valid()
      modifies this
      ensures Valid() && Snapshot() == ValenceBit(old(Snapshot()), notFlag, bit)
    {
      if notFlag {
        negFlag := true;
        notValence := Or(notValence, bit);
      } else {
        posFlag := true;
        degree := Or(degree, bit);
      }
    }

    method RouteCharge(notFlag: bool, bit: Mask)
      requires Valid()
      modifies this
      ensures Valid() && Snapshot() == ChargeBit(old(Snapshot()), notFlag, bit)
    {
      if notFlag {
        negFlag := true;
        notCharge := Or(notCharge, bit);
      } else {
        posFlag := true;
        charge := Or(charge, bit);
      }
    }

    /** The body of the `while` loop, at character `c` followed by `next`. */
    method StepAt(c: char, next: char, notFlag: bool, atomSeen: bool) returns (a: Action)
      requires Valid()
      modifies this, symbol
      ensures Valid() && (Snapshot(), a) == Step(old(Snapshot()), c, next, notFlag, atomSeen)
    {
      if c in Punctuation {
        a := PunctAt(c, next, notFlag, atomSeen);
      } else if 'A' <= c <= 'Z' {
        a := CapitalAt(c, next, notFlag, atomSeen);
      } else {
        a := LowerAt(c, next, notFlag, atomSeen);
      }
    }

    method PunctAt(c: char, next: char, notFlag: bool, atomSeen: bool) returns (a: Action)
      requires Valid() && c in Punctuation
      modifies this, symbol
      ensures Valid() && (Snapshot(), a) == PunctStep(old(Snapshot()), c, next, notFlag, atomSeen)
    {
      if c == ']' {
        a := Finish(true);
      } else if c == '!' {
        a := Continue(true, false, 1);
      } else if c == ',' {
        a := Continue(notFlag, false, 1);
      } else if c == ';' {
        a := Continue(false, false, 1);
      } else if c == '*' {
        ParseBlockChar(AtomAny, notFlag, c);
        a := Continue(notFlag, true, 1);
      } else if c == '?' {
        ParseBlockChar(AtomNotH, notFlag, c);
        a := Continue(notFlag, true, 1);
      } else {
        var num := ParseNumeral(next);
        if num < 0 {
          return Runaway;
        }
        stereo := if num % 2 == 1 then Anticlock else Clockwise;
        a := Continue(notFlag, atomSeen, 2);
      }
    }

    method CapitalAt(c: char, next: char, notFlag: bool, atomSeen: bool) returns (a: Action)
      requires Valid() && 'A' <= c <= 'Z'
      modifies this, symbol
      ensures Valid() && (Snapshot(), a) == CapitalStep(old(Snapshot()), c, next, notFlag, atomSeen)
    {
      if c == 'A' {
        if next in {'c', 'g', 'l', 'm', 's', 'u'} {
          ParseBlockStr(AtomSym, notFlag, [c, next]);
          a := Continue(notFlag, true, 2);
        } else {
          RouteClass(notFlag, ClassAliphatic);
          a := Continue(notFlag, atomSeen, 1);
        }
      } else if c == 'D' {
        a := DegreeAt(c, next, notFlag, atomSeen);
      } else if c == 'G' {
        if next in {'a', 'd', 'e'} {
          ParseBlockStr(AtomSym, notFlag, [c, next]);
          a := Continue(notFlag, true, 2);
        } else {
          a := Break;
        }
      } else if c == 'H' {
        a := HydrogenAt(c, next, notFlag, atomSeen);
      } else {
        a := ElementAt(c, next, notFlag, atomSeen);
      }
    }

    /** The element branches, through the table. */
    method ElementAt(c: char, next: char, notFlag: bool, atomSeen: bool) returns (a: Action)
      requires Valid()
      modifies this, symbol
      ensures Valid() && (Snapshot(), a) == ElementStep(old(Snapshot()), c, next, notFlag, atomSeen)
    {
      match ElementToken(c, next)
      case Some(t) =>
        if t.width == 2 {
          ParseBlockStr(t.mask, notFlag, [c, next]);
        } else {
          ParseBlockChar(t.mask, notFlag, c);
        }
        a := Continue(notFlag, if c == 'V' then atomSeen else true, t.width);
      case None =>
        a := Break;
    }

    /** The `D` branch: `Dy`, or a degree digit. */
    method DegreeAt(c: char, next: char, notFlag: bool, atomSeen: bool) returns (a: Action)
      requires Valid()
      modifies this, symbol
      ensures Valid() && (Snapshot(), a) == DegreeStep(old(Snapshot()), c, next, notFlag, atomSeen)
    {
      if next == 'y' {
        ParseBlockStr(AtomSym, notFlag, [c, next]);
        return Continue(notFlag, true, 2);
      }
      var num := ParseNumeral(next);
      if num < 0 {
        return Finish(false);
      }
      if num >= |NumToDegree| {
        return Runaway;
      }
      RouteDegree(notFlag, NumToDegree[num]);
      a := Continue(notFlag, atomSeen, 2);
    }

    /** The `H` branch: a two-letter element, hydrogen, or a hydrogen count after an atom. */
    method HydrogenAt(c: char, next: char, notFlag: bool, atomSeen: bool) returns (a: Action)
      requires Valid()
      modifies this, symbol
      ensures Valid() && (Snapshot(), a) == HydrogenStep(old(Snapshot()), c, next, notFlag, atomSeen)
    {
      if next in {'e', 'f', 'g', 'o'} {
        ParseBlockStr(AtomSym, notFlag, [c, next]);
        return Continue(notFlag, true, 2);
      }
      if !atomSeen {
        ParseBlockChar(AtomH, notFlag, c);
        return Continue(notFlag, true, 1);
      }
      var num := ParseNumeral(next);
      if num < 0 {
        return Runaway;
      }
      impHydro := num;
      totHydro := num;
      hydroFlag := true;
      a := Continue(notFlag, atomSeen, 2);
    }

    /** The lower-case branches `a`, `p`, `r`, `v`, then `+`, `-` and the final `break`. */
    method LowerAt(c: char, next: char, notFlag: bool, atomSeen: bool) returns (a: Action)
      requires Valid()
      modifies this
      ensures Valid() && (Snapshot(), a) == LowerStep(old(Snapshot()), c, next, notFlag, atomSeen)
    {
      if c == 'a' {
        RouteClass(notFlag, ClassAliphatic);
        a := Continue(notFlag, atomSeen, 1);
      } else if c == 'p' {
        RouteClass(notFlag, ClassPi);
        a := Continue(notFlag, atomSeen, 1);
      } else if c == 'r' {
        var num := ParseNumeral(next);
        if num >= 0 {
          RouteCycle(notFlag, NumToRing[num]);
          a := Continue(notFlag, atomSeen, 2);
        } else {
          RouteCycle(notFlag, AnyRing);
          a := Continue(notFlag, atomSeen, 1);
        }
      } else if c == 'v' {
        var num := ParseNumeral(next);
        if num < 0 {
          return Finish(false);
        }
        if num >= |NumToValence| {
          return Runaway;
        }
        RouteValence(notFlag, NumToValence[num]);
        a := Continue(notFlag, atomSeen, 2);
      } else if c == '+' || c == '-' {
        var num := ParseNumeral(next);
        if num < 0 {
          return Runaway;
        }
        if num <= 5 {
          RouteCharge(notFlag, NumToCharge[num]);
        }
        a := Continue(notFlag, atomSeen, 2);
      } else {
        a := Break;
      }
    }

    /**
     * `parseAtomBlock(char_iterator, it_end)` with the iterator at `pos0`:
     * the outcome, the iterator afterwards and the fields are those of
     * `ParseBlock`; when it runs away nothing is promised about the fields.
     */
    method ParseAtomBlock(s: seq<char>, pos0: nat) returns (r: ParseOutcome)
      requires Valid() && pos0 <= |s|
      modifies this, symbol
      ensures Valid()
      ensures r == ParseBlock(s, pos0, old(Snapshot())).outcome
      ensures r.Parsed? ==> Snapshot() == ParseBlock(s, pos0, old(Snapshot())).meta
      ensures Promised(s, pos0, old(Snapshot()), r, Snapshot())
    {
      ghost var spec := ParseBlock(s, pos0, old(Snapshot()));
      ParseBlockPromised(s, pos0, old(Snapshot()));
      compImpHydroFlag := false;
      var notFlag, ok, done, atomSeen := false, true, false, false;
      var i := pos0;
      while ok && !done && i != |s|
        invariant Valid() && pos0 <= i <= |s|
        invariant spec == Resume(s, i, Snapshot(), notFlag, atomSeen, ok, done)
        decreases |s| - i, if ok && !done then 1 else 0
      {
        ghost var m, i0, nf0, seen0 := Snapshot(), i, notFlag, atomSeen;
        var a := StepAt(s[i], At(s, i + 1), notFlag, atomSeen);
        match a {
          case Continue(nf, seen, step) =>
            notFlag, atomSeen := nf, seen;
            i := i + step;
            TurnGoesOn(s, i0, m, nf0, seen0, Snapshot(), a, i, notFlag, atomSeen, ok, done);
          case Finish(d) =>
            if d {
              done := true;
            } else {
              ok := false;
            }
            i := i + 1;
            TurnGoesOn(s, i0, m, nf0, seen0, Snapshot(), a, i, notFlag, atomSeen, ok, done);
          case Break =>
            TurnBreaks(s, i0, m, nf0, seen0, Snapshot());
            return Parsed(false, i);
          case Runaway =>
            TurnRunsAway(s, i0, m, nf0, seen0, Snapshot());
            return Undefined;
        }
      }
      r := Parsed(done, i);
    }
  }
}
