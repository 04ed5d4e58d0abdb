/**
 * What `parseAtomBlock` promises, proved about its specification `Scan`:
 * where it stops, which characters end or break the block, which make the
 * call undefined, which masks a negation can reach, and that masks only
 * ever gain bits.
 */
module ChampAtomProperties {
  import opened Wrappers
  import opened ChampConstants
  import opened ChampAtom

  predicate IsDigit(c: char)
  {
    '0' <= c <= '9'
  }

  // ---------------------------------------------------------------------
  // Which characters stop the loop, or make it undefined

  /** The characters with a branch of their own. */
  const Recognised: set<char> :=
    {']', '!', ',', ';', '*', '?', '@', '+', '-', 'a', 'p', 'r', 'v',
     'A', 'B', 'C', 'D', 'E', 'F', 'G', 'H', 'I', 'J', 'K', 'L', 'M', 'N', 'O', 'P', 'Q', 'R', 'S', 'T', 'U', 'V', 'W', 'Y', 'Z'}

  /** The punctuation branches never break or clear `ok`; `@` runs away without a digit. */
  lemma PunctOutcomes(m: Meta, c: char, next: char, notFlag: bool, atomSeen: bool)
    requires |m.symbol| == 3 && c in Punctuation
    ensures PunctStep(m, c, next, notFlag, atomSeen).1 == Runaway <==> c == '@' && !IsDigit(next)
  {
  }

  lemma CapitalOutcomes(m: Meta, c: char, next: char, notFlag: bool, atomSeen: bool)
    requires |m.symbol| == 3 && 'A' <= c <= 'Z'
    ensures CapitalStep(m, c, next, notFlag, atomSeen).1 == Break <==> c == 'X' || (c == 'G' && next !in {'a', 'd', 'e'})
    ensures CapitalStep(m, c, next, notFlag, atomSeen).1 == Runaway <==>
              (c == 'H' && atomSeen && !IsDigit(next) && next !in {'e', 'f', 'g', 'o'}) || (c == 'D' && next == '9')
    ensures CapitalStep(m, c, next, notFlag, atomSeen).1 == Finish(false) <==> c == 'D' && next != 'y' && !IsDigit(next)
  {
    if c == 'A' || c == 'G' {
    } else if c == 'D' {
    } else if c == 'H' {
    } else {
      assert c != 'X' ==> ElementToken(c, next).Some?;
    }
  }

  lemma LowerOutcomes(m: Meta, c: char, next: char, notFlag: bool, atomSeen: bool)
    requires |m.symbol| == 3
    ensures LowerStep(m, c, next, notFlag, atomSeen).1 == Break <==> c !in {'a', 'p', 'r', 'v', '+', '-'}
    ensures LowerStep(m, c, next, notFlag, atomSeen).1 == Runaway <==>
              ((c == '+' || c == '-') && !IsDigit(next)) || (c == 'v' && next == '9')
    ensures LowerStep(m, c, next, notFlag, atomSeen).1 == Finish(false) <==> c == 'v' && !IsDigit(next)
  {
  }

  /** The loop `break`s, without consuming, on a character with no branch, and on a `G` not starting `Ga`, `Gd`, `Ge`. */
  lemma BreaksExactly(m: Meta, c: char, next: char, notFlag: bool, atomSeen: bool)
    requires |m.symbol| == 3
    ensures Step(m, c, next, notFlag, atomSeen).1 == Break <==> c !in Recognised || (c == 'G' && next !in {'a', 'd', 'e'})
  {
    if c in Punctuation {
    } else if 'A' <= c <= 'Z' {
      CapitalOutcomes(m, c, next, notFlag, atomSeen);
    } else {
      LowerOutcomes(m, c, next, notFlag, atomSeen);
    }
  }

  /**
   * The places where the source never leaves its loop (or reads past a
   * nine-entry table): `@`, `+` or `-` without a digit after them, an `H`
   * after an atom with neither a digit nor `e`, `f`, `g`, `o` after it,
   * and `D9` or `v9`.
   */
  predicate RunsAway(c: char, next: char, atomSeen: bool)
  {
    ((c == '@' || c == '+' || c == '-') && !IsDigit(next))
    || (c == 'H' && atomSeen && !IsDigit(next) && next !in {'e', 'f', 'g', 'o'})
    || ((c == 'D' || c == 'v') && next == '9')
  }

  lemma RunawayExactly(m: Meta, c: char, next: char, notFlag: bool, atomSeen: bool)
    requires |m.symbol| == 3
    ensures Step(m, c, next, notFlag, atomSeen).1 == Runaway <==> RunsAway(c, next, atomSeen)
  {
    if c in Punctuation {
      PunctOutcomes(m, c, next, notFlag, atomSeen);
    } else if 'A' <= c <= 'Z' {
      CapitalOutcomes(m, c, next, notFlag, atomSeen);
    } else {
      LowerOutcomes(m, c, next, notFlag, atomSeen);
    }
  }

  /** `ok` is cleared only by a `D` or a `v` with no digit after them (and, for `D`, no `y`). */
  lemma NotOkExactly(m: Meta, c: char, next: char, notFlag: bool, atomSeen: bool)
    requires |m.symbol| == 3
    ensures Step(m, c, next, notFlag, atomSeen).1 == Finish(false) <==> ((c == 'D' && next != 'y') || c == 'v') && !IsDigit(next)
  {
    if c in Punctuation {
    } else if 'A' <= c <= 'Z' {
      CapitalOutcomes(m, c, next, notFlag, atomSeen);
    } else {
      LowerOutcomes(m, c, next, notFlag, atomSeen);
    }
  }
}

