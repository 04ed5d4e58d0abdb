/**
 * The bond side of the CHAMP pattern matcher: the `Order` and `Direction`
 * enums and the `Bond` record of `bond.hpp`, and `Bond::parseTag` of
 * `bond.cpp`, which reads a tag list such as `<1,2,!3>` into the bit masks
 * `tag` and `not_tag`.
 */
module ChampBond {
  import opened ChampConstants

  // ---------------------------------------------------------------------
  // bond.hpp

  const Single: Mask := Mask(0x0000_0001)
  const Double: Mask := Mask(0x0000_0002)
  const Triple: Mask := Mask(0x0000_0004)
  const AnyOrder: Mask := Mask(0x0000_0007)
  const NoOrder: Mask := Mask(0x0000_0000)

  /** `AnyOrder` is the three orders together, and `NoOrder` has no bit. */
  lemma OrderBits()
    ensures AnyOrder == Or(Or(Single, Double), Triple) && NoOrder == Empty
    ensures Single == Bit(0) && Double == Bit(1) && Triple == Bit(2)
  {
  }

  /** The double-bond stereo direction (`enum class Direction : int`). */
  datatype Direction = Specified | Up | Down
  {
    /** The value of the enumerator. */
    function Code(): (r: int)
      ensures -1 <= r <= 1
      ensures r == 0 <==> this == Specified
    {
      match this
      case Specified => 0
      case Up => 1
      case Down => -1
    }
  }

  /** The three directions have three different values, 0, 1 and -1. */
  lemma DirectionCodes()
    ensures Specified.Code() == 0 && Up.Code() == 1 && Down.Code() == -1
    ensures forall d: Direction, e: Direction :: d.Code() == e.Code() ==> d == e
  {
  }

  // ---------------------------------------------------------------------
  // parseTag, as a function

  predicate IsDigit(c: char)
  {
    '0' <= c <= '9'
  }

  /** The character at `i`, or NUL at and past the end. */
  function At(s: seq<char>, i: int): char
  {
    if 0 <= i < |s| then s[i] else '\0'
  }

  /** The map index a digit, or a digit pair, stands for. */
  function TagIndex(c: char, next: char): (r: nat)
    requires IsDigit(c)
    ensures r < 100
    ensures !IsDigit(next) ==> r == c as int - '0' as int
    ensures IsDigit(next) ==> r == 10 * (c as int - '0' as int) + (next as int - '0' as int)
  {
    if IsDigit(next) then 10 * (c as int - '0' as int) + (next as int - '0' as int) else c as int - '0' as int
  }

  /** What `parseTag` leaves: `ok` and the two masks. */
  datatype Tags = Tags(ok: bool, tag: Mask, notTag: Mask)

  /** The `while (ok)` loop of `parseTag` from position `i` with the given `not_flag`. */
  function TagLoop(s: seq<char>, i: nat, tag: Mask, notTag: Mask, notFlag: bool): (r: Tags)
    requires i <= |s|
    decreases |s| - i
  {
    var c := At(s, i);
    if c == '>' then Tags(true, tag, notTag)
    else if i == |s| then Tags(false, tag, notTag)
    else if c == ';' then TagLoop(s, i + 1, tag, notTag, false)
    else if c == '!' then TagLoop(s, i + 1, tag, notTag, true)
    else if IsDigit(c) then
      var next := At(s, i + 1);
      var width := if IsDigit(next) then 2 else 1;
      var mask := Bit(TagIndex(c, next));
      if notFlag then TagLoop(s, i + width, tag, Or(notTag, mask), notFlag)
      else TagLoop(s, i + width, Or(tag, mask), notTag, notFlag)
    else TagLoop(s, i + 1, tag, notTag, notFlag)
  }

  /** `parseTag(it, it_end, ok)` with the iterator at `pos`: nothing happens when `ok` is already false. */
  function ParseTagSpec(s: seq<char>, pos: nat, ok: bool, tag: Mask, notTag: Mask): Tags
    requires pos <= |s|
  {
    if ok then TagLoop(s, pos, tag, notTag, false) else Tags(false, tag, notTag)
  }

  // ---------------------------------------------------------------------
  // What parseTag promises

  /** A `>` at or after `i`. */
  predicate Closed(s: seq<char>, i: nat)
  {
    exists k :: i <= k < |s| && s[k] == '>'
  }

  /** The call succeeds exactly when a `>` follows (a digit pair never swallows one). */
  lemma {:induction false} OkExactlyWhenClosed(s: seq<char>, i: nat, tag: Mask, notTag: Mask, notFlag: bool)
    requires i <= |s|
    ensures TagLoop(s, i, tag, notTag, notFlag).ok <==> Closed(s, i)
    decreases |s| - i
  {
    if i < |s| {
      var c := s[i];
      if c != '>' {
        var width := if IsDigit(c) && IsDigit(At(s, i + 1)) then 2 else 1;
        var mask := if IsDigit(c) then Bit(TagIndex(c, At(s, i + 1))) else Empty;
        var nf := if c == ';' then false else if c == '!' then true else notFlag;
        var tag', notTag' := if IsDigit(c) && !notFlag then Or(tag, mask) else tag, if IsDigit(c) && notFlag then Or(notTag, mask) else notTag;
        assert TagLoop(s, i, tag, notTag, notFlag) == TagLoop(s, i + width, tag', notTag', nf);
        OkExactlyWhenClosed(s, i + width, tag', notTag', nf);
        if Closed(s, i) {
          var k :| i <= k < |s| && s[k] == '>';
          assert k != i && (width == 2 ==> k != i + 1);
          assert Closed(s, i + width);
        }
        if Closed(s, i + width) {
          var k :| i + width <= k < |s| && s[k] == '>';
          assert Closed(s, i);
        }
      } else {
        assert Closed(s, i);
      }
    }
  }

  /** `|=` only adds bits: both masks keep every bit they had. */
  lemma {:induction false} TagsGrow(s: seq<char>, i: nat, tag: Mask, notTag: Mask, notFlag: bool)
    requires i <= |s|
    ensures Covers(TagLoop(s, i, tag, notTag, notFlag).tag, tag)
    ensures Covers(TagLoop(s, i, tag, notTag, notFlag).notTag, notTag)
    decreases |s| - i
  {
    var c := At(s, i);
    if c == '>' || i == |s| {
      CoversSelf(tag);
      CoversSelf(notTag);
    } else if c == ';' || c == '!' || !IsDigit(c) {
      var nf := if c == ';' then false else if c == '!' then true else notFlag;
      TagsGrow(s, i + 1, tag, notTag, nf);
    } else {
      var next := At(s, i + 1);
      var width := if IsDigit(next) then 2 else 1;
      var mask := Bit(TagIndex(c, next));
      if notFlag {
        TagsGrow(s, i + width, tag, Or(notTag, mask), notFlag);
        OrKeeps(notTag, mask);
        CoversTrans(TagLoop(s, i, tag, notTag, notFlag).notTag, Or(notTag, mask), notTag);
      } else {
        TagsGrow(s, i + width, Or(tag, mask), notTag, notFlag);
        OrKeeps(tag, mask);
        CoversTrans(TagLoop(s, i, tag, notTag, notFlag).tag, Or(tag, mask), tag);
      }
    }
  }

  lemma CoversSelf(x: Mask)
    ensures Covers(x, x)
  {
  }

  /** No `!` in `s[i..]`. */
  predicate NoBang(s: seq<char>, i: nat)
  {
    forall k :: i <= k < |s| ==> s[k] != '!'
  }

  /** Without a `!`, nothing reaches `not_tag`. */
  lemma {:induction false} NoBangKeepsNotTag(s: seq<char>, i: nat, tag: Mask, notTag: Mask)
    requires i <= |s| && NoBang(s, i)
    ensures TagLoop(s, i, tag, notTag, false).notTag == notTag
    decreases |s| - i
  {
    var c := At(s, i);
    if c == '>' || i == |s| {
    } else if !IsDigit(c) {
      TagsNoBangStep(s, i);
      NoBangKeepsNotTag(s, i + 1, tag, notTag);
    } else {
      var next := At(s, i + 1);
      var width := if IsDigit(next) then 2 else 1;
      TagsNoBangStep(s, i);
      assert NoBang(s, i + width);
      NoBangKeepsNotTag(s, i + width, Or(tag, Bit(TagIndex(c, next))), notTag);
    }
  }

  lemma TagsNoBangStep(s: seq<char>, i: nat)
    requires i < |s| && NoBang(s, i)
    ensures NoBang(s, i + 1) && s[i] != '!'
  {
  }

  // ---------------------------------------------------------------------
  // The record and its method

  class Bond {
    var atom: (int, int)
    var pri: (int, int)
    var markTmpl: int
    var markTarg: int
    var markRead: int
    var extIndex: int
    var cls: Mask
    var notCls: Mask
    var direction: Direction
    var order: Mask
    var notOrder: Mask
    var tag: Mask
    var notTag: Mask
    var cycle: Mask
    var notCycle: Mask

    /**
     * `Bond()`: the fields with an initialiser get it; the others hold
     * whatever the storage held, given here as inputs.
     */
    constructor (atom0: (int, int), pri0: (int, int), markTmpl0: int, markTarg0: int, markRead0: int, extIndex0: int,
                 tag0: Mask, notTag0: Mask, cycle0: Mask, notCycle0: Mask)
      ensures cls == Empty && notCls == Empty && direction == Specified && order == Empty && notOrder == Empty
      ensures atom == atom0 && pri == pri0 && markTmpl == markTmpl0 && markTarg == markTarg0 && markRead == markRead0
      ensures extIndex == extIndex0 && tag == tag0 && notTag == notTag0 && cycle == cycle0 && notCycle == notCycle0
    {
      atom, pri, markTmpl, markTarg, markRead, extIndex := atom0, pri0, markTmpl0, markTarg0, markRead0, extIndex0;
      cls, notCls, direction, order, notOrder := Empty, Empty, Specified, Empty, Empty;
      tag, notTag, cycle, notCycle := tag0, notTag0, cycle0, notCycle0;
    }

    /**
     * The body of `parseTag`: reads from `pos0` (a copy of the caller's
     * iterator, which does not move), updates `ok` (passed by reference)
     * and ORs the tag bits into `tag`, or into `not_tag` after a `!`.
     */
    method ParseTag(s: seq<char>, pos0: nat, ok0: bool) returns (ok: bool)
      requires pos0 <= |s|
      modifies this
      ensures Tags(ok, tag, notTag) == ParseTagSpec(s, pos0, ok0, old(tag), old(notTag))
      ensures atom == old(atom) && pri == old(pri) && markTmpl == old(markTmpl) && markTarg == old(markTarg)
      ensures markRead == old(markRead) && extIndex == old(extIndex) && cls == old(cls) && notCls == old(notCls)
      ensures direction == old(direction) && order == old(order) && notOrder == old(notOrder)
      ensures cycle == old(cycle) && notCycle == old(notCycle)
    {
      ghost var spec := ParseTagSpec(s, pos0, ok0, tag, notTag);
      ok := ok0;
      var notFlag := false;
      var i := pos0;
      while ok
        invariant i <= |s|
        invariant spec == if ok then TagLoop(s, i, tag, notTag, notFlag) else Tags(false, tag, notTag)
        invariant atom == old(atom) && pri == old(pri) && markTmpl == old(markTmpl) && markTarg == old(markTarg)
        invariant markRead == old(markRead) && extIndex == old(extIndex) && cls == old(cls) && notCls == old(notCls)
        invariant direction == old(direction) && order == old(order) && notOrder == old(notOrder)
        invariant cycle == old(cycle) && notCycle == old(notCycle)
        decreases |s| - i
      {
        var currentChar := At(s, i);
        var nextChar := At(s, i + 1);
        if currentChar == '>' {
          return;
        }
        if i == |s| {
          ok := false;
          break;
        }
        if currentChar == ';' {
          notFlag := false;
          i := i + 1;
        } else if currentChar == '!' {
          notFlag := true;
          i := i + 1;
        } else if IsDigit(currentChar) {
          var mapIndex: nat;
          if IsDigit(nextChar) {
            mapIndex := (currentChar as int - '0' as int) * 10 + (nextChar as int - '0' as int);
            i := i + 2;
          } else {
            mapIndex := currentChar as int - '0' as int;
            i := i + 1;
          }
          var tagMask := TagMask(mapIndex);
          if notFlag {
            notTag := Or(notTag, tagMask);
          } else {
            tag := Or(tag, tagMask);
          }
        } else {
          i := i + 1;
        }
      }
    }
  }

  /**
   * `tag_mask = 0x1` shifted left `map_index` times in an `unsigned int`:
   * the single bit `map_index`, or nothing once it is shifted out.
   */
  method TagMask(mapIndex: nat) returns (tagMask: Mask)
    ensures tagMask == Bit(mapIndex)
  {
    tagMask := Mask(0x1);
    var k: nat := mapIndex;
    while k > 0
      invariant k <= mapIndex
      invariant tagMask == Bit(mapIndex - k)
    {
      ShiftBit(mapIndex - k);
      tagMask := Mask(tagMask.bits << 1);
      k := k - 1;
    }
  }

  /** Shifting bit `j` left once gives bit `j + 1` (and nothing stays nothing). */
  lemma ShiftBit(j: nat)
    ensures Mask(Bit(j).bits << 1) == Bit(j + 1)
  {
    if j < 31 {
      assert ((1 as bv32) << j) << 1 == (1 as bv32) << (j + 1);
    }
  }

  // ---------------------------------------------------------------------
  // Examples

  /** `<1,2,!3>`: bits 1 and 2 into `tag`, bit 3 into `not_tag`, and the call succeeds. */
  lemma TagListExample(tag: Mask, notTag: Mask)
    ensures ParseTagSpec("<1,2,!3>", 0, true, tag, notTag) == Tags(true, Or(Or(tag, Mask(0x2)), Mask(0x4)), Or(notTag, Mask(0x8)))
  {
  }

  /** `<12;40>`: a digit pair is one index, and index 40 is shifted out of 32 bits. */
  lemma PairExample(tag: Mask, notTag: Mask)
    ensures ParseTagSpec("<12;40>", 0, true, tag, notTag) == Tags(true, Or(Or(tag, Mask(0x1000)), Empty), notTag)
  {
  }

  /** Without a closing `>` the call fails. */
  lemma UnclosedExample(tag: Mask, notTag: Mask)
    ensures !ParseTagSpec("<1", 0, true, tag, notTag).ok
  {
  }
}
