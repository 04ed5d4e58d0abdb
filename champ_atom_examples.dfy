/**
 * The examples of the parser's own test suite (`atom_test.cpp`), proved
 * about the model: the helpers on a fresh `AtomMeta`, the `]`, `*` and
 * `?` blocks, and the table of single-atom blocks.
 */
module ChampAtomExamples {
  import opened ChampConstants
  import opened ChampAtom

  /**
   * A fresh `AtomMeta` (with uninitialised hydrogen counts `ih`, `th`)
   * parsing `tok` alone: the block runs out of input without a `]`, ORs
   * `mask` into `atom`, sets `pos_flag` and `hydro_flag`, and for `Sym`
   * copies the token into `symbol`, NUL-terminated.
   */
  predicate ParsesAlone(tok: seq<char>, mask: Mask, ih: int, th: int)
    requires |tok| <= 2
  {
    var r := ParseBlock(tok, 0, Fresh(ih, th));
    r.outcome == Parsed(false, |tok|) && r.meta.pos.atom == mask && r.meta.posFlag && r.meta.hydroFlag
    && (mask == AtomSym ==> r.meta.symbol[..|tok|] == tok && r.meta.symbol[|tok|] == '\0')
  }

  lemma AliphaticExample(ih: int, th: int)
    ensures var m := Aliphatic(Fresh(ih, th), AtomC, true); m.pos.atom == AtomC && m.posFlag && m.compImpHydroFlag
  {
  }

  lemma AromaticExample(ih: int, th: int)
    ensures var m := Aromatic(Fresh(ih, th), AtomC, false);
      m.pos.atom == AtomC && m.atomType == ClassAliphatic && m.posFlag && !m.compImpHydroFlag
  {
  }

  lemma StringExample(ih: int, th: int)
    ensures var m := SymbolString(Fresh(ih, th), "AM"); m.pos.atom == AtomAny && m.posFlag && m.symbol[..2] == "AM"
  {
  }

  /** `parseBlock(Atom::Sym, true, "AM")` and `parseBlock(Atom::Sym, false, 'M')`. */
  lemma BlockExamples(ih: int, th: int)
    ensures var m := BlockStr(Fresh(ih, th), AtomSym, true, "AM");
      m.neg.atom == AtomSym && m.negFlag && m.hydroFlag && m.symbol == "AM\0"
    ensures var m := BlockChar(Fresh(ih, th), AtomSym, false, 'M');
      m.pos.atom == AtomSym && m.posFlag && m.hydroFlag && m.symbol[..2] == "M\0"
  {
  }

  /** `]` alone ends the block and the call returns `true`, past the bracket. */
  lemma BracketExample(ih: int, th: int)
    ensures ParseBlock("]", 0, Fresh(ih, th)).outcome == Parsed(true, 1)
  {
  }

  /** `*` and then `?` on the same fields: `Any | NotH` is still `Any`, and no symbol is written. */
  lemma WildcardExamples(ih: int, th: int)
    ensures var m := ParseBlock("*", 0, Fresh(ih, th)).meta;
      m.pos.atom == AtomAny && m.posFlag && m.hydroFlag && m.symbol[0] == '\0'
    ensures var m := ParseBlock("?", 0, ParseBlock("*", 0, Fresh(ih, th)).meta).meta;
      m.pos.atom == AtomAny && m.posFlag && m.hydroFlag && m.symbol[0] == '\0'
  {
  }

  lemma ParsesAc(ih: int, th: int)
    ensures ParsesAlone("Ac", AtomSym, ih, th)
  {
  }

  lemma ParsesB(ih: int, th: int)
    ensures ParsesAlone("B", AtomB, ih, th)
  {
  }

  lemma ParsesBr(ih: int, th: int)
    ensures ParsesAlone("Br", AtomBr, ih, th)
  {
  }

  lemma ParsesBa(ih: int, th: int)
    ensures ParsesAlone("Ba", AtomSym, ih, th)
  {
  }

  lemma ParsesC(ih: int, th: int)
    ensures ParsesAlone("C", AtomC, ih, th)
  {
  }

  lemma ParsesCa(ih: int, th: int)
    ensures ParsesAlone("Ca", AtomCa, ih, th)
  {
  }

  lemma ParsesCu(ih: int, th: int)
    ensures ParsesAlone("Cu", AtomCu, ih, th)
  {
  }

  lemma ParsesCl(ih: int, th: int)
    ensures ParsesAlone("Cl", AtomCl, ih, th)
  {
  }

  lemma ParsesCd(ih: int, th: int)
    ensures ParsesAlone("Cd", AtomSym, ih, th)
  {
  }

  lemma ParsesDy(ih: int, th: int)
    ensures ParsesAlone("Dy", AtomSym, ih, th)
  {
  }

  lemma ParsesE(ih: int, th: int)
    ensures ParsesAlone("E", AtomE, ih, th)
  {
  }

  lemma ParsesEr(ih: int, th: int)
    ensures ParsesAlone("Er", AtomSym, ih, th)
  {
  }

  lemma ParsesF(ih: int, th: int)
    ensures ParsesAlone("F", AtomF, ih, th)
  {
  }

  lemma ParsesFe(ih: int, th: int)
    ensures ParsesAlone("Fe", AtomFe, ih, th)
  {
  }

  lemma ParsesFr(ih: int, th: int)
    ensures ParsesAlone("Fr", AtomSym, ih, th)
  {
  }

  lemma ParsesGa(ih: int, th: int)
    ensures ParsesAlone("Ga", AtomSym, ih, th)
  {
  }

  lemma ParsesH(ih: int, th: int)
    ensures ParsesAlone("H", AtomH, ih, th)
  {
  }

  lemma ParsesHe(ih: int, th: int)
    ensures ParsesAlone("He", AtomSym, ih, th)
  {
  }

  lemma ParsesI(ih: int, th: int)
    ensures ParsesAlone("I", AtomI, ih, th)
  {
  }

  lemma ParsesIn(ih: int, th: int)
    ensures ParsesAlone("In", AtomSym, ih, th)
  {
  }

  lemma ParsesJ(ih: int, th: int)
    ensures ParsesAlone("J", AtomJ, ih, th)
  {
  }

  lemma ParsesK(ih: int, th: int)
    ensures ParsesAlone("K", AtomK, ih, th)
  {
  }

  lemma ParsesL(ih: int, th: int)
    ensures ParsesAlone("L", AtomL, ih, th)
  {
  }

  lemma ParsesLa(ih: int, th: int)
    ensures ParsesAlone("La", AtomSym, ih, th)
  {
  }

  lemma ParsesM(ih: int, th: int)
    ensures ParsesAlone("M", AtomM, ih, th)
  {
  }

  lemma ParsesMg(ih: int, th: int)
    ensures ParsesAlone("Mg", AtomMg, ih, th)
  {
  }

  lemma ParsesMo(ih: int, th: int)
    ensures ParsesAlone("Mo", AtomSym, ih, th)
  {
  }

  lemma ParsesN(ih: int, th: int)
    ensures ParsesAlone("N", AtomN, ih, th)
  {
  }

  lemma ParsesNa(ih: int, th: int)
    ensures ParsesAlone("Na", AtomNa, ih, th)
  {
  }

  lemma ParsesNb(ih: int, th: int)
    ensures ParsesAlone("Nb", AtomSym, ih, th)
  {
  }

  lemma ParsesO(ih: int, th: int)
    ensures ParsesAlone("O", AtomO, ih, th)
  {
  }

  lemma ParsesOs(ih: int, th: int)
    ensures ParsesAlone("Os", AtomSym, ih, th)
  {
  }

  lemma ParsesP(ih: int, th: int)
    ensures ParsesAlone("P", AtomP, ih, th)
  {
  }

  lemma ParsesPb(ih: int, th: int)
    ensures ParsesAlone("Pb", AtomSym, ih, th)
  {
  }

  lemma ParsesQ(ih: int, th: int)
    ensures ParsesAlone("Q", AtomQ, ih, th)
  {
  }

  lemma ParsesR(ih: int, th: int)
    ensures ParsesAlone("R", AtomR, ih, th)
  {
  }

  lemma ParsesRb(ih: int, th: int)
    ensures ParsesAlone("Rb", AtomSym, ih, th)
  {
  }

  lemma ParsesS(ih: int, th: int)
    ensures ParsesAlone("S", AtomS, ih, th)
  {
  }

  lemma ParsesSe(ih: int, th: int)
    ensures ParsesAlone("Se", AtomSe, ih, th)
  {
  }

  lemma ParsesSi(ih: int, th: int)
    ensures ParsesAlone("Si", AtomSym, ih, th)
  {
  }

  lemma ParsesT(ih: int, th: int)
    ensures ParsesAlone("T", AtomT, ih, th)
  {
  }

  lemma ParsesTa(ih: int, th: int)
    ensures ParsesAlone("Ta", AtomSym, ih, th)
  {
  }

  lemma ParsesU(ih: int, th: int)
    ensures ParsesAlone("U", AtomSym, ih, th)
  {
  }

  lemma ParsesV(ih: int, th: int)
    ensures ParsesAlone("V", AtomSym, ih, th)
  {
  }

  lemma ParsesW(ih: int, th: int)
    ensures ParsesAlone("W", AtomSym, ih, th)
  {
  }

  lemma ParsesY(ih: int, th: int)
    ensures ParsesAlone("Y", AtomSym, ih, th)
  {
  }

  lemma ParsesYb(ih: int, th: int)
    ensures ParsesAlone("Yb", AtomSym, ih, th)
  {
  }

  lemma ParsesZ(ih: int, th: int)
    ensures ParsesAlone("Z", AtomZ, ih, th)
  {
  }

  lemma ParsesZn(ih: int, th: int)
    ensures ParsesAlone("Zn", AtomZn, ih, th)
  {
  }

  lemma ParsesZr(ih: int, th: int)
    ensures ParsesAlone("Zr", AtomSym, ih, th)
  {
  }
}
