/**
 * `create_shadertext` of `create_shadertext.py`: every shader file becomes
 * a block of C string literals in `ShaderText.cpp`, one literal per kept
 * line, and the `#include` and `#ifdef`/`#ifndef` lines it holds feed two
 * dependency arrays.  The two globbed directories, the files' contents and
 * the two output files are values here: a file is its path and its text,
 * the order in which the set of shader files is walked is an input, and
 * the two outputs are the texts written to them.
 */
module ShaderText {

  // ---------------------------------------------------------------------
  // Paths

  /** A globbed path and the text `read_text` gives for it. */
  datatype File = File(path: string, contents: string)

  /** The six suffixes that make a path a shader file. */
  const Extensions: set<string> := {".gs", ".vs", ".fs", ".shared", ".tsc", ".tse"}

  /** `Path.name`: the last component of the path. */
  function Name(path: string): (r: string)
    ensures |r| <= |path| && r == path[|path| - |r|..]
    ensures forall k :: 0 <= k < |r| ==> r[k] != '/'
    ensures |r| < |path| ==> path[|path| - |r| - 1] == '/'
  {
    if path == [] || path[|path| - 1] == '/' then [] else Name(path[..|path| - 1]) + [path[|path| - 1]]
  }

  /** The position of the last `c` in `s`, or -1 (`str.rfind`). */
  function RFind(s: string, c: char): (r: int)
    ensures -1 <= r < |s|
    ensures 0 <= r ==> s[r] == c
    ensures forall k :: r < k < |s| ==> s[k] != c
  {
    if s == [] then -1 else if s[|s| - 1] == c then |s| - 1 else RFind(s[..|s| - 1], c)
  }

  /** `Path.suffix`: from the last dot on, unless the dot starts or ends the name. */
  function Suffix(name: string): (r: string)
    ensures r == [] || (2 <= |r| < |name| && r == name[|name| - |r|..] && r[0] == '.')
    ensures r != [] ==> forall k :: 1 <= k < |r| ==> r[k] != '.'
  {
    var i := RFind(name, '.');
    if 0 < i < |name| - 1 then name[i..] else []
  }

  predicate IsShader(f: File)
  {
    Suffix(Name(f.path)) in Extensions
  }

  lemma SuffixExamples()
    ensures Suffix("a.vs") == ".vs" && Suffix("b.a.fs") == ".fs"
    ensures Suffix(".vs") == [] && Suffix("vs.") == [] && Suffix("vs") == []
    ensures Name("d/a.vs") == "a.vs"
  {
    assert "a.vs"[1] == '.' && "a.vs"[2] != '.' && "a.vs"[3] != '.';
    assert RFind("a.vs", '.') == 1;
    assert "b.a.fs"[3] == '.' && "b.a.fs"[4] != '.' && "b.a.fs"[5] != '.';
    assert RFind("b.a.fs", '.') == 3;
    assert ".vs"[0] == '.' && ".vs"[1] != '.' && ".vs"[2] != '.';
    assert RFind(".vs", '.') == 0;
    assert "vs."[2] == '.';
    assert RFind("vs.", '.') == 2;
    assert "vs"[0] != '.' && "vs"[1] != '.';
    assert RFind("vs", '.') == -1;
    var n := Name("d/a.vs");
    assert "d/a.vs"[1] == '/' && "d/a.vs"[2] != '/' && "d/a.vs"[3] != '/' && "d/a.vs"[4] != '/' && "d/a.vs"[5] != '/';
    assert |n| == 4;
  }

  // ---------------------------------------------------------------------
  // str.splitlines, str.strip and str.split

  /** The characters `str.isspace` accepts. */
  const Spaces: set<char> :=
    {'\t', '\n', '\U{0B}', '\U{0C}', '\r', '\U{1C}', '\U{1D}', '\U{1E}', '\U{1F}', ' ', '\U{85}', '\U{A0}',
     '\U{1680}', '\U{2000}', '\U{2001}', '\U{2002}', '\U{2003}', '\U{2004}', '\U{2005}', '\U{2006}', '\U{2007}',
     '\U{2008}', '\U{2009}', '\U{200A}', '\U{2028}', '\U{2029}', '\U{202F}', '\U{205F}', '\U{3000}'}

  /** The line boundaries of `str.splitlines`. */
  const Breaks: set<char> := {'\n', '\r', '\U{0B}', '\U{0C}', '\U{1C}', '\U{1D}', '\U{1E}', '\U{85}', '\U{2028}', '\U{2029}'}

  predicate IsSpace(c: char)
  {
    c in Spaces
  }

  predicate IsBreak(c: char)
  {
    c in Breaks
  }

  /** Every line boundary is whitespace, so stripping removes the ones at a line's ends. */
  lemma BreaksAreSpace(c: char)
    requires IsBreak(c)
    ensures IsSpace(c)
  {
  }

  predicate NoBreak(s: string)
  {
    forall k :: 0 <= k < |s| ==> !IsBreak(s[k])
  }

  /** The first line boundary at or after `i`, or `|s|`. */
  function NextBreak(s: string, i: nat): (r: nat)
    requires i <= |s|
    ensures i <= r <= |s| && (r < |s| ==> IsBreak(s[r]))
    ensures forall k :: i <= k < r ==> !IsBreak(s[k])
    decreases |s| - i
  {
    if i == |s| || IsBreak(s[i]) then i else NextBreak(s, i + 1)
  }

  /** `str.splitlines()`: `\r\n` is one boundary and a final boundary opens no empty line. */
  function SplitLines(s: string): seq<string>
    decreases |s|
  {
    if s == [] then []
    else
      var b := NextBreak(s, 0);
      var rest := if b == |s| then |s| else if s[b] == '\r' && b + 1 < |s| && s[b + 1] == '\n' then b + 2 else b + 1;
      [s[..b]] + SplitLines(s[rest..])
  }

  /** No line holds a line boundary. */
  lemma {:induction false} LinesUnbroken(s: string)
    ensures forall i :: 0 <= i < |SplitLines(s)| ==> NoBreak(SplitLines(s)[i])
    decreases |s|
  {
    if s != [] {
      var b := NextBreak(s, 0);
      var rest := if b == |s| then |s| else if s[b] == '\r' && b + 1 < |s| && s[b + 1] == '\n' then b + 2 else b + 1;
      LinesUnbroken(s[rest..]);
      assert SplitLines(s) == [s[..b]] + SplitLines(s[rest..]);
    }
  }

  /** `\r\n` is one boundary, and the final boundary opens no line. */
  lemma SplitCrLfExample()
    ensures SplitLines("a\r\nb\n") == ["a", "b"]
  {
    var s := "a\r\nb\n";
    assert !IsBreak(s[0]) && IsBreak(s[1]) && s[1] == '\r' && s[2] == '\n';
    assert NextBreak(s, 0) == 1;
    assert SplitLines(s) == [s[..1]] + SplitLines(s[3..]);
    var t := s[3..];
    assert t == "b\n" && !IsBreak(t[0]) && IsBreak(t[1]);
    assert NextBreak(t, 0) == 1;
    assert SplitLines(t) == [t[..1]] + SplitLines(t[2..]);
    assert t[2..] == [];
    assert s[..1] == "a" && t[..1] == "b";
  }

  /** Two boundaries in a row give an empty line between them. */
  lemma SplitEmptyLineExample()
    ensures SplitLines("a\n\nb") == ["a", "", "b"]
  {
    var s := "a\n\nb";
    assert !IsBreak(s[0]) && IsBreak(s[1]) && s[1] != '\r';
    assert NextBreak(s, 0) == 1;
    assert SplitLines(s) == [s[..1]] + SplitLines(s[2..]);
    var t := s[2..];
    assert t == "\nb" && IsBreak(t[0]) && t[0] != '\r';
    assert NextBreak(t, 0) == 0;
    assert SplitLines(t) == [t[..0]] + SplitLines(t[1..]);
    var u := t[1..];
    assert u == "b" && !IsBreak(u[0]);
    assert NextBreak(u, 0) == 1;
    assert SplitLines(u) == [u[..1]] + SplitLines(u[1..]);
    assert u[1..] == [];
    assert s[..1] == "a" && t[..0] == "" && u[..1] == "b";
  }

  function TrimLeft(s: string): (r: string)
    ensures |r| <= |s| && r == s[|s| - |r|..]
    ensures r != [] ==> !IsSpace(r[0])
  {
    if s != [] && IsSpace(s[0]) then TrimLeft(s[1..]) else s
  }

  /** Only whitespace is cut from the front. */
  lemma {:induction false} TrimLeftCuts(s: string)
    ensures forall k :: 0 <= k < |s| - |TrimLeft(s)| ==> IsSpace(s[k])
  {
    if s != [] && IsSpace(s[0]) {
      TrimLeftCuts(s[1..]);
      assert forall k :: 1 <= k < |s| - |TrimLeft(s)| ==> s[k] == s[1..][k - 1];
    }
  }

  function TrimRight(s: string): (r: string)
    ensures |r| <= |s| && r == s[..|r|]
    ensures r != [] ==> !IsSpace(r[|r| - 1])
  {
    if s != [] && IsSpace(s[|s| - 1]) then TrimRight(s[..|s| - 1]) else s
  }

  /** Only whitespace is cut from the back. */
  lemma {:induction false} TrimRightCuts(s: string)
    ensures forall k :: |TrimRight(s)| <= k < |s| ==> IsSpace(s[k])
  {
    if s != [] && IsSpace(s[|s| - 1]) {
      TrimRightCuts(s[..|s| - 1]);
      assert forall k :: |TrimRight(s)| <= k < |s| - 1 ==> s[k] == s[..|s| - 1][k];
    }
  }

  /** `str.strip()`. */
  function Strip(s: string): string
  {
    TrimRight(TrimLeft(s))
  }

  /**
   * `Strip(s)` is `s` without the whitespace at its two ends: a slice of
   * `s` that neither starts nor ends with whitespace, with only whitespace
   * cut off around it.
   */
  lemma StripMeaning(s: string)
    ensures exists i, j :: CutAround(s, i, j) && Strip(s) == s[i..j]
    ensures Strip(s) != [] ==> !IsSpace(Strip(s)[0]) && !IsSpace(Strip(s)[|Strip(s)| - 1])
  {
    var t := TrimLeft(s);
    var u := TrimRight(t);
    var i := |s| - |t|;
    var j := i + |u|;
    TrimLeftCuts(s);
    TrimRightCuts(t);
    assert t == s[i..];
    assert u == s[i..][..|u|];
    assert s[i..][..|u|] == s[i..j];
    forall k | j <= k < |s|
      ensures IsSpace(s[k])
    {
      assert t[k - i] == s[k];
    }
    assert CutAround(s, i, j);
  }

  /** Only whitespace lies before `i` and from `j` on. */
  predicate CutAround(s: string, i: int, j: int)
  {
    0 <= i <= j <= |s| && (forall k :: 0 <= k < i ==> IsSpace(s[k])) && (forall k :: j <= k < |s| ==> IsSpace(s[k]))
  }

  lemma StripIdempotent(s: string)
    ensures Strip(Strip(s)) == Strip(s)
  {
    var r := Strip(s);
    if r != [] {
      assert TrimLeft(r) == r;
      assert TrimRight(r) == r;
    }
  }

  /** The longest prefix without whitespace. */
  function WordAt(s: string): (r: string)
    ensures |r| <= |s| && r == s[..|r|]
    ensures s != [] && !IsSpace(s[0]) ==> r != []
    ensures forall k :: 0 <= k < |r| ==> !IsSpace(r[k])
    ensures |r| < |s| ==> IsSpace(s[|r|])
  {
    if s == [] || IsSpace(s[0]) then [] else [s[0]] + WordAt(s[1..])
  }

  /** `str.split()`: the runs of non-whitespace characters. */
  function Words(s: string): seq<string>
    decreases |s|
  {
    var t := TrimLeft(s);
    if t == [] then [] else var w := WordAt(t); [w] + Words(t[|w|..])
  }

  predicate IsWord(w: string)
  {
    w != [] && forall k :: 0 <= k < |w| ==> !IsSpace(w[k])
  }

  /** Every piece `split()` gives is a non-empty run without whitespace. */
  lemma {:induction false} WordsAreWords(s: string)
    ensures forall i :: 0 <= i < |Words(s)| ==> IsWord(Words(s)[i])
    decreases |s|
  {
    var t := TrimLeft(s);
    if t != [] {
      var w := WordAt(t);
      var rest := Words(t[|w|..]);
      WordsAreWords(t[|w|..]);
      assert Words(s) == [w] + rest;
      assert IsWord(w);
      forall i | 0 < i < |[w] + rest|
        ensures IsWord(([w] + rest)[i])
      {
        assert ([w] + rest)[i] == rest[i - 1];
      }
    }
  }

  lemma FirstWordExample()
    ensures TrimLeft("#if  A") == "#if  A" && WordAt("#if  A") == "#if"
  {
    var s := "#if  A";
    assert s[0] !in Spaces && s[1] !in Spaces && s[2] !in Spaces && s[3] in Spaces;
    assert |WordAt(s)| == 3;
  }

  lemma LastWordExample()
    ensures Words("  A") == ["A"]
  {
    var t := "  A";
    assert t[0] in Spaces && t[1] in Spaces && t[2] !in Spaces;
    assert |TrimLeft(t)| == 1;
    assert TrimLeft(t) == "A";
    assert WordAt("A") == "A";
    assert "A"[1..] == [];
    assert Words([]) == [];
  }

  lemma WordsExample()
    ensures Words("#if  A") == ["#if", "A"]
  {
    var s := "#if  A";
    FirstWordExample();
    assert s[|WordAt(s)|..] == "  A";
    assert Words(s) == ["#if"] + Words("  A");
    LastWordExample();
  }

  // ---------------------------------------------------------------------
  // Which lines are kept, and how they are quoted

  predicate StartsWith(s: string, p: string)
  {
    |p| <= |s| && s[..|p|] == p
  }

  /** `p in s`. */
  predicate Contains(s: string, p: string)
    decreases |s|
  {
    StartsWith(s, p) || (s != [] && Contains(s[1..], p))
  }

  // A stripped line is written unless it is empty, or starts with a
  // line comment and holds no end of a block comment.
  predicate Kept(line: string)
  {
    !(line == [] || (StartsWith(line, "//") && !Contains(line, "*/")))
  }

  lemma NoEndInX()
    ensures !Contains("x", "*/")
  {
    assert !StartsWith("x", "*/");
    assert "x"[1..] == [];
    assert !StartsWith([], "*/");
  }

  lemma NoEndInSlashX()
    ensures !Contains("/x", "*/")
  {
    assert "/x"[..2][0] == '/';
    assert "/x"[1..] == "x";
    NoEndInX();
  }

  /** A blank line is dropped. */
  lemma BlankSkipped()
    ensures !Kept(Strip("  "))
  {
    assert IsSpace(' ');
    assert "  "[1..] == " " && " "[1..] == [];
    assert TrimLeft(" ") == [];
    assert TrimLeft("  ") == [];
  }

  /** A `//` comment is dropped. */
  lemma CommentSkipped()
    ensures !Kept("//x")
  {
    assert "//x"[..2] == "//";
    assert "//x"[..2][0] == '/';
    assert "//x"[1..] == "/x";
    NoEndInSlashX();
  }

  /** A `//` line holding `*` `/` is kept, and so is a line with a comment after code. */
  lemma KeptExamples()
    ensures Kept("//*/") && Kept("a//")
  {
    assert "//*/"[1..][1..] == "*/";
    assert StartsWith("//*/"[1..][1..], "*/");
    assert "a//"[..2][0] == 'a';
  }

  /** A backslash becomes two, a double quote becomes backslash-quote. */
  function Escape(s: string): string
  {
    if s == [] then []
    else (if s[0] == '\\' then "\\\\" else if s[0] == '"' then "\\\"" else [s[0]]) + Escape(s[1..])
  }

  /** `s.replace(c, rep)` for a one-character pattern. */
  function Replace(s: string, c: char, rep: string): string
  {
    if s == [] then [] else (if s[0] == c then rep else [s[0]]) + Replace(s[1..], c, rep)
  }

  lemma ReplaceAppend(a: string, b: string, c: char, rep: string)
    ensures Replace(a + b, c, rep) == Replace(a, c, rep) + Replace(b, c, rep)
  {
    if a != [] {
      var head := if a[0] == c then rep else [a[0]];
      assert (a + b)[0] == a[0] && (a + b)[1..] == a[1..] + b;
      ReplaceAppend(a[1..], b, c, rep);
      calc {
        Replace(a + b, c, rep);
        head + Replace(a[1..] + b, c, rep);
        head + (Replace(a[1..], c, rep) + Replace(b, c, rep));
        (head + Replace(a[1..], c, rep)) + Replace(b, c, rep);
      }
    } else {
      assert a + b == b;
    }
  }

  /** The two `replace` calls, backslashes first, amount to `Escape`. */
  lemma {:induction false} EscapeIsTwoReplaces(s: string)
    ensures Replace(Replace(s, '\\', "\\\\"), '"', "\\\"") == Escape(s)
  {
    if s != [] {
      var head := if s[0] == '\\' then "\\\\" else [s[0]];
      EscapeIsTwoReplaces(s[1..]);
      assert Replace(s, '\\', "\\\\") == head + Replace(s[1..], '\\', "\\\\");
      ReplaceAppend(head, Replace(s[1..], '\\', "\\\\"), '"', "\\\"");
      if s[0] == '\\' {
        assert Replace(head, '"', "\\\"") == "\\\\";
      } else if s[0] == '"' {
        assert Replace(head, '"', "\\\"") == "\\\"";
      } else {
        assert Replace(head, '"', "\\\"") == [s[0]];
      }
    }
  }

  /** What a C compiler makes of the inside of a string literal, for the escapes `\\`, `\"` and `\n`. */
  function Unescape(s: string): string
  {
    if |s| >= 2 && s[0] == '\\' then
      (if s[1] == 'n' then "\n" else [s[1]]) + Unescape(s[2..])
    else if s == [] then []
    else [s[0]] + Unescape(s[1..])
  }

  /** A backslash pair decodes to the character after it, `n` standing for a line feed. */
  lemma UnescapePair(c: char, t: string)
    ensures Unescape(['\\', c] + t) == (if c == 'n' then "\n" else [c]) + Unescape(t)
  {
    assert (['\\', c] + t)[2..] == t;
  }

  /** Any other character stands for itself. */
  lemma UnescapeSingle(c: char, t: string)
    requires c != '\\'
    ensures Unescape([c] + t) == [c] + Unescape(t)
  {
    assert ([c] + t)[1..] == t;
  }

  /** The literal `"<escaped>\n"` stands for the stripped line and a line feed. */
  lemma {:induction false} EscapeRoundTrip(s: string)
    ensures Unescape(Escape(s) + "\\n") == s + "\n"
  {
    if s == [] {
      assert Escape(s) + "\\n" == ['\\', 'n'] + [];
      UnescapePair('n', []);
    } else {
      EscapeRoundTrip(s[1..]);
      var t := Escape(s[1..]) + "\\n";
      if s[0] == '\\' || s[0] == '"' {
        assert Escape(s) + "\\n" == ['\\', s[0]] + t;
        UnescapePair(s[0], t);
      } else {
        assert Escape(s) + "\\n" == [s[0]] + t;
        UnescapeSingle(s[0], t);
      }
      assert s + "\n" == [s[0]] + (s[1..] + "\n");
    }
  }

  /** Every double quote of an escaped line follows a backslash, so the literal does not end early. */
  lemma {:induction false} EscapedQuotes(s: string)
    ensures forall k :: 0 <= k < |Escape(s)| && Escape(s)[k] == '"' ==> 0 < k && Escape(s)[k - 1] == '\\'
  {
    if s != [] {
      EscapedQuotes(s[1..]);
      var head := if s[0] == '\\' then "\\\\" else if s[0] == '"' then "\\\"" else [s[0]];
      assert Escape(s) == head + Escape(s[1..]);
    }
  }

  /** A kept line as it is written: quoted, escaped, with `\n` inside and a line feed after. */
  function QuotedLine(line: string): string
  {
    "\"" + Escape(line) + "\\n\"\n"
  }

  /** The literal pair that opens a file's block. */
  function FileHeading(name: string): string
  {
    "\"" + name + "\", \"\"\n"
  }

  // ---------------------------------------------------------------------
  // Directives and the dependency maps

  /** What a kept line adds to the dependency maps; `Malformed` is the `IndexError` of `split()[1]`. */
  datatype Directive = Plain | Include(key: string) | Ifdef(key: string) | Malformed

  function Classify(line: string): Directive
  {
    if StartsWith(line, "#include") then
      var w := Words(line);
      if |w| >= 2 then Include(w[1]) else Malformed
    else if StartsWith(line, "#ifdef") || StartsWith(line, "#ifndef") then
      var w := Words(line);
      if |w| >= 2 then Ifdef(w[1]) else Malformed
    else Plain
  }

  /**
   * `#include` is matched first, so an include line never counts as an
   * `#ifdef`; the key is the second whitespace-separated word, and a
   * directive without one raises.
   */
  lemma ClassifyMeaning(line: string)
    ensures Classify(line).Include? ==> StartsWith(line, "#include") && |Words(line)| >= 2 && Classify(line).key == Words(line)[1]
    ensures Classify(line).Ifdef? ==> !StartsWith(line, "#include") && (StartsWith(line, "#ifdef") || StartsWith(line, "#ifndef"))
                                      && |Words(line)| >= 2 && Classify(line).key == Words(line)[1]
    ensures Classify(line).Malformed? <==>
              (StartsWith(line, "#include") || StartsWith(line, "#ifdef") || StartsWith(line, "#ifndef")) && |Words(line)| < 2
    ensures Classify(line).Plain? <==> !StartsWith(line, "#include") && !StartsWith(line, "#ifdef") && !StartsWith(line, "#ifndef")
  {
  }

  /**
   * A `defaultdict(set)`: the keys in the order they were first used (the
   * order `items()` walks them) and the set under each.
   */
  datatype DepMap = DepMap(keys: seq<string>, sets: map<string, set<string>>)
  {
    predicate Valid()
    {
      (forall k :: k in sets ==> k in keys) && (forall i :: 0 <= i < |keys| ==> keys[i] in sets)
      && (forall i, j :: 0 <= i < j < |keys| ==> keys[i] != keys[j])
    }

    /** `deps[key].add(name)`. */
    function Add(key: string, name: string): (r: DepMap)
      ensures key in r.sets && r.sets[key] == (if key in sets then sets[key] else {}) + {name}
      ensures forall k :: k != key ==> (k in r.sets <==> k in sets) && (k in sets ==> r.sets[k] == sets[k])
      ensures r.keys == if key in sets then keys else keys + [key]
    {
      if key in sets then DepMap(keys, sets[key := sets[key] + {name}])
      else DepMap(keys + [key], sets[key := {name}])
    }

    /** `name` is in the set under `key`. */
    predicate Has(key: string, name: string)
    {
      key in sets && name in sets[key]
    }
  }

  const NoDeps: DepMap := DepMap([], map[])

  /** Adding keeps the keys listed once each, in first-use order. */
  lemma AddValid(d: DepMap, key: string, name: string)
    requires d.Valid()
    ensures d.Add(key, name).Valid()
  {
  }

  /** What the loop has written and collected so far; `crashed` once `split()[1]` raised. */
  datatype Emitted = Emitted(source: string, includes: DepMap, ifdefs: DepMap, crashed: bool)

  /** One line of a file called `name` (lines 58-73). */
  function EmitLine(e: Emitted, name: string, raw: string): Emitted
  {
    var line := Strip(raw);
    if e.crashed || !Kept(line) then e
    else
      var e1 := e.(source := e.source + QuotedLine(line));
      match Classify(line)
      case Plain => e1
      case Include(k) => e1.(includes := e1.includes.Add(k, name))
      case Ifdef(k) => e1.(ifdefs := e1.ifdefs.Add(k, name))
      case Malformed => e1.(crashed := true)
  }

  function EmitLines(e: Emitted, name: string, lines: seq<string>): Emitted
    decreases |lines|
  {
    if lines == [] then e else EmitLines(EmitLine(e, name, lines[0]), name, lines[1..])
  }

  /** One file's block (lines 55-75). */
  function EmitFile(e: Emitted, f: File): Emitted
  {
    if e.crashed then e
    else
      var name := Name(f.path);
      var e1 := EmitLines(e.(source := e.source + FileHeading(name)), name, SplitLines(f.contents));
      if e1.crashed then e1 else e1.(source := e1.source + ",\n")
  }

  function EmitFiles(e: Emitted, files: seq<File>): Emitted
    decreases |files|
  {
    if files == [] then e else EmitFiles(EmitFile(e, files[0]), files[1..])
  }

  lemma EmitLinesStep(e: Emitted, name: string, lines: seq<string>, j: nat)
    requires j < |lines|
    ensures EmitLines(e, name, lines[j..]) == EmitLines(EmitLine(e, name, lines[j]), name, lines[j + 1..])
  {
    assert lines[j..][1..] == lines[j + 1..];
  }

  lemma EmitFilesStep(e: Emitted, files: seq<File>, i: nat)
    requires i < |files|
    ensures EmitFiles(e, files[i..]) == EmitFiles(EmitFile(e, files[i]), files[i + 1..])
  {
    assert files[i..][1..] == files[i + 1..];
  }

  lemma {:induction false} CrashedLinesStay(e: Emitted, name: string, lines: seq<string>)
    requires e.crashed
    ensures EmitLines(e, name, lines) == e
    decreases |lines|
  {
    if lines != [] {
      CrashedLinesStay(EmitLine(e, name, lines[0]), name, lines[1..]);
    }
  }

  lemma {:induction false} CrashedFilesStay(e: Emitted, files: seq<File>)
    requires e.crashed
    ensures EmitFiles(e, files) == e
    decreases |files|
  {
    if files != [] {
      CrashedFilesStay(EmitFile(e, files[0]), files[1..]);
    }
  }

  // ---------------------------------------------------------------------
  // What the loops collect and write

  /** Some kept line of `lines` is the directive `d`. */
  ghost predicate Declares(lines: seq<string>, d: Directive)
  {
    exists j :: 0 <= j < |lines| && Kept(Strip(lines[j])) && Classify(Strip(lines[j])) == d
  }

  lemma DeclaresStep(lines: seq<string>, d: Directive)
    requires lines != []
    ensures Declares(lines, d) <==> (Kept(Strip(lines[0])) && Classify(Strip(lines[0])) == d) || Declares(lines[1..], d)
  {
    if Declares(lines[1..], d) {
      var j :| 0 <= j < |lines[1..]| && Kept(Strip(lines[1..][j])) && Classify(Strip(lines[1..][j])) == d;
      assert lines[j + 1] == lines[1..][j];
    }
    if Declares(lines, d) {
      var j :| 0 <= j < |lines| && Kept(Strip(lines[j])) && Classify(Strip(lines[j])) == d;
      if j > 0 {
        assert lines[1..][j - 1] == lines[j];
      }
    }
  }

  /** A line that raises leaves the state raised. */
  lemma {:induction false} CrashStays(e: Emitted, name: string, lines: seq<string>)
    requires !EmitLines(e, name, lines).crashed
    ensures !e.crashed
    decreases |lines|
  {
    if lines != [] {
      CrashStays(EmitLine(e, name, lines[0]), name, lines[1..]);
    } 
  }

  /** After `deps[key].add(name)`, exactly one more pair is present. */
  lemma AddHas(d: DepMap, key: string, name: string)
    ensures forall k, n :: d.Add(key, name).Has(k, n) <==> d.Has(k, n) || (k == key && n == name)
  {
  }

  lemma LineIncludes(e: Emitted, name: string, raw: string)
    requires !EmitLine(e, name, raw).crashed
    ensures forall k, n :: EmitLine(e, name, raw).includes.Has(k, n) <==>
                           e.includes.Has(k, n) || (n == name && Kept(Strip(raw)) && Classify(Strip(raw)) == Include(k))
  {
    var line := Strip(raw);
    var r := EmitLine(e, name, raw);
    if e.crashed || !Kept(line) {
      assert r == e;
    } else {
      var d := Classify(line);
      if d.Include? {
        assert r.includes == e.includes.Add(d.key, name);
        AddHas(e.includes, d.key, name);
      } else {
        assert r.includes == e.includes;
      }
    }
  }

  lemma LineIfdefs(e: Emitted, name: string, raw: string)
    requires !EmitLine(e, name, raw).crashed
    ensures forall k, n :: EmitLine(e, name, raw).ifdefs.Has(k, n) <==>
                           e.ifdefs.Has(k, n) || (n == name && Kept(Strip(raw)) && Classify(Strip(raw)) == Ifdef(k))
  {
    var line := Strip(raw);
    var r := EmitLine(e, name, raw);
    if e.crashed || !Kept(line) {
      assert r == e;
    } else {
      var d := Classify(line);
      if d.Ifdef? {
        assert r.ifdefs == e.ifdefs.Add(d.key, name);
        AddHas(e.ifdefs, d.key, name);
      } else {
        assert r.ifdefs == e.ifdefs;
      }
    }
  }

  /**
   * After a file's lines, `include_deps[k]` holds `name` exactly when it
   * held it before or a kept line of the file is `#include k`.
   */
  lemma {:induction false} LinesIncludes(e: Emitted, name: string, lines: seq<string>)
    requires !EmitLines(e, name, lines).crashed
    ensures forall k, n :: EmitLines(e, name, lines).includes.Has(k, n) <==> e.includes.Has(k, n) || (n == name && Declares(lines, Include(k)))
    decreases |lines|
  {
    if lines != [] {
      var e1 := EmitLine(e, name, lines[0]);
      LinesIncludes(e1, name, lines[1..]);
      CrashStays(e1, name, lines[1..]);
      LineIncludes(e, name, lines[0]);
      forall k, n
        ensures EmitLines(e, name, lines).includes.Has(k, n) <==> e.includes.Has(k, n) || (n == name && Declares(lines, Include(k)))
      {
        DeclaresStep(lines, Include(k));
      }
    }
  }

  /** The same for `ifdef_deps` and the `#ifdef`/`#ifndef` lines. */
  lemma {:induction false} LinesIfdefs(e: Emitted, name: string, lines: seq<string>)
    requires !EmitLines(e, name, lines).crashed
    ensures forall k, n :: EmitLines(e, name, lines).ifdefs.Has(k, n) <==> e.ifdefs.Has(k, n) || (n == name && Declares(lines, Ifdef(k)))
    decreases |lines|
  {
    if lines != [] {
      var e1 := EmitLine(e, name, lines[0]);
      LinesIfdefs(e1, name, lines[1..]);
      CrashStays(e1, name, lines[1..]);
      LineIfdefs(e, name, lines[0]);
      forall k, n
        ensures EmitLines(e, name, lines).ifdefs.Has(k, n) <==> e.ifdefs.Has(k, n) || (n == name && Declares(lines, Ifdef(k)))
      {
        DeclaresStep(lines, Ifdef(k));
      }
    }
  }

  /** The run raises exactly when some kept line is an `#include`, `#ifdef` or `#ifndef` with nothing after it. */
  lemma {:induction false} LinesCrash(e: Emitted, name: string, lines: seq<string>)
    ensures EmitLines(e, name, lines).crashed <==> e.crashed || Declares(lines, Malformed)
    decreases |lines|
  {
    if lines == [] {
    } else {
      var e1 := EmitLine(e, name, lines[0]);
      LinesCrash(e1, name, lines[1..]);
      DeclaresStep(lines, Malformed);
    }
  }

  /** Some walked file called `n` declares `d`. */
  ghost predicate FileDeclares(files: seq<File>, n: string, d: Directive)
  {
    exists i :: 0 <= i < |files| && Name(files[i].path) == n && Declares(SplitLines(files[i].contents), d)
  }

  lemma FileDeclaresStep(files: seq<File>, n: string, d: Directive)
    requires files != []
    ensures FileDeclares(files, n, d) <==> (Name(files[0].path) == n && Declares(SplitLines(files[0].contents), d)) || FileDeclares(files[1..], n, d)
  {
    if FileDeclares(files[1..], n, d) {
      var i :| 0 <= i < |files[1..]| && Name(files[1..][i].path) == n && Declares(SplitLines(files[1..][i].contents), d);
      assert files[i + 1] == files[1..][i];
    }
    if FileDeclares(files, n, d) {
      var i :| 0 <= i < |files| && Name(files[i].path) == n && Declares(SplitLines(files[i].contents), d);
      if i > 0 {
        assert files[1..][i - 1] == files[i];
      }
    }
  }

  lemma {:induction false} FilesCrashStays(e: Emitted, files: seq<File>)
    requires !EmitFiles(e, files).crashed
    ensures !e.crashed && (files != [] ==> !EmitFile(e, files[0]).crashed)
    decreases |files|
  {
    if files != [] {
      FilesCrashStays(EmitFile(e, files[0]), files[1..]);
    }
  }

  /** What one file adds to `include_deps`. */
  lemma FileIncludes(e: Emitted, f: File)
    requires !EmitFile(e, f).crashed
    ensures forall k, n :: EmitFile(e, f).includes.Has(k, n) <==>
                           e.includes.Has(k, n) || (n == Name(f.path) && Declares(SplitLines(f.contents), Include(k)))
  {
    if !e.crashed {
      var name := Name(f.path);
      LinesIncludes(e.(source := e.source + FileHeading(name)), name, SplitLines(f.contents));
    }
  }

  lemma FileIfdefs(e: Emitted, f: File)
    requires !EmitFile(e, f).crashed
    ensures forall k, n :: EmitFile(e, f).ifdefs.Has(k, n) <==>
                           e.ifdefs.Has(k, n) || (n == Name(f.path) && Declares(SplitLines(f.contents), Ifdef(k)))
  {
    if !e.crashed {
      var name := Name(f.path);
      LinesIfdefs(e.(source := e.source + FileHeading(name)), name, SplitLines(f.contents));
    }
  }

  /** Over the whole walk: `include_deps[k]` is the set of names of the files that `#include k`. */
  lemma {:induction false} FilesIncludes(e: Emitted, files: seq<File>)
    requires !EmitFiles(e, files).crashed
    ensures forall k, n :: EmitFiles(e, files).includes.Has(k, n) <==> e.includes.Has(k, n) || FileDeclares(files, n, Include(k))
    decreases |files|
  {
    if files != [] {
      var e1 := EmitFile(e, files[0]);
      FilesCrashStays(e, files);
      FileIncludes(e, files[0]);
      FilesIncludes(e1, files[1..]);
      forall k, n
        ensures EmitFiles(e, files).includes.Has(k, n) <==> e.includes.Has(k, n) || FileDeclares(files, n, Include(k))
      {
        FileDeclaresStep(files, n, Include(k));
      }
    }
  }

  /** And `ifdef_deps[k]` is the set of names of the files that test `k` with `#ifdef` or `#ifndef`. */
  lemma {:induction false} FilesIfdefs(e: Emitted, files: seq<File>)
    requires !EmitFiles(e, files).crashed
    ensures forall k, n :: EmitFiles(e, files).ifdefs.Has(k, n) <==> e.ifdefs.Has(k, n) || FileDeclares(files, n, Ifdef(k))
    decreases |files|
  {
    if files != [] {
      var e1 := EmitFile(e, files[0]);
      FilesCrashStays(e, files);
      FileIfdefs(e, files[0]);
      FilesIfdefs(e1, files[1..]);
      forall k, n
        ensures EmitFiles(e, files).ifdefs.Has(k, n) <==> e.ifdefs.Has(k, n) || FileDeclares(files, n, Ifdef(k))
      {
        FileDeclaresStep(files, n, Ifdef(k));
      }
    }
  }

  /** Each map keeps every key once, in first-use order. */
  lemma {:induction false} LinesValid(e: Emitted, name: string, lines: seq<string>)
    requires e.includes.Valid() && e.ifdefs.Valid()
    ensures EmitLines(e, name, lines).includes.Valid() && EmitLines(e, name, lines).ifdefs.Valid()
    decreases |lines|
  {
    if lines != [] {
      var e1 := EmitLine(e, name, lines[0]);
      var l := Strip(lines[0]);
      if !e.crashed && Kept(l) {
        match Classify(l)
        case Include(k) => AddValid(e.includes, k, name);
        case Ifdef(k) => AddValid(e.ifdefs, k, name);
        case _ =>
      }
      LinesValid(e1, name, lines[1..]);
    }
  }

  lemma FileValid(e: Emitted, f: File)
    requires e.includes.Valid() && e.ifdefs.Valid()
    ensures EmitFile(e, f).includes.Valid() && EmitFile(e, f).ifdefs.Valid()
  {
    if !e.crashed {
      var name := Name(f.path);
      LinesValid(e.(source := e.source + FileHeading(name)), name, SplitLines(f.contents));
      FileDeps(e, f);
    }
  }

  /** A file's block ends with the maps its lines leave, and its text extends what was written. */
  lemma FileDeps(e: Emitted, f: File)
    requires !e.crashed
    ensures EmitFile(e, f).includes == EmitLines(e.(source := e.source + FileHeading(Name(f.path))), Name(f.path), SplitLines(f.contents)).includes
    ensures EmitFile(e, f).ifdefs == EmitLines(e.(source := e.source + FileHeading(Name(f.path))), Name(f.path), SplitLines(f.contents)).ifdefs
    ensures EmitLines(e.(source := e.source + FileHeading(Name(f.path))), Name(f.path), SplitLines(f.contents)).source <= EmitFile(e, f).source
  {
  }

  lemma {:induction false} FilesValid(e: Emitted, files: seq<File>)
    requires e.includes.Valid() && e.ifdefs.Valid()
    ensures EmitFiles(e, files).includes.Valid() && EmitFiles(e, files).ifdefs.Valid()
    decreases |files|
  {
    if files != [] {
      FileValid(e, files[0]);
      FilesValid(EmitFile(e, files[0]), files[1..]);
    }
  }

  lemma AppendAssoc(a: string, b: string, c: string)
    ensures (a + b) + c == a + (b + c)
  {
  }

  /** The kept lines of a file, quoted, in order: a reference for what the line loop writes. */
  function KeptText(lines: seq<string>): string
  {
    if lines == [] then []
    else (if Kept(Strip(lines[0])) then QuotedLine(Strip(lines[0])) else []) + KeptText(lines[1..])
  }

  lemma LineText(e: Emitted, name: string, raw: string)
    requires !EmitLine(e, name, raw).crashed
    ensures EmitLine(e, name, raw).source == e.source + (if Kept(Strip(raw)) then QuotedLine(Strip(raw)) else [])
  {
    var line := Strip(raw);
    if e.crashed || !Kept(line) {
      assert EmitLine(e, name, raw) == e;
      AppendEmpty(e.source);
    } else {
      assert EmitLine(e, name, raw).source == e.source + QuotedLine(line);
    }
  }

  lemma LineGrows(e: Emitted, name: string, raw: string)
    ensures e.source <= EmitLine(e, name, raw).source
  {
    var line := Strip(raw);
    if e.crashed || !Kept(line) {
      assert EmitLine(e, name, raw) == e;
    } else {
      assert EmitLine(e, name, raw).source == e.source + QuotedLine(line);
    }
  }

  /** When no line raises, the line loop appends exactly the quoted kept lines. */
  lemma {:induction false} LinesText(e: Emitted, name: string, lines: seq<string>)
    requires !EmitLines(e, name, lines).crashed
    ensures EmitLines(e, name, lines).source == e.source + KeptText(lines)
    decreases |lines|
  {
    if lines == [] {
      assert e.source + [] == e.source;
    } else {
      var e1 := EmitLine(e, name, lines[0]);
      CrashStays(e1, name, lines[1..]);
      LinesText(e1, name, lines[1..]);
      var head := if Kept(Strip(lines[0])) then QuotedLine(Strip(lines[0])) else [];
      LineText(e, name, lines[0]);
      AppendAssoc(e.source, head, KeptText(lines[1..]));
    }
  }

  /** One file's block: its name, its kept lines, and a comma. */
  function FileBlock(f: File): string
  {
    FileHeading(Name(f.path)) + KeptText(SplitLines(f.contents)) + ",\n"
  }

  lemma FileText(e: Emitted, f: File)
    requires !EmitFile(e, f).crashed
    ensures EmitFile(e, f).source == e.source + FileBlock(f)
  {
    var name := Name(f.path);
    var e0 := e.(source := e.source + FileHeading(name));
    LinesText(e0, name, SplitLines(f.contents));
    var body := KeptText(SplitLines(f.contents));
    AppendAssoc(e.source, FileHeading(name), body);
    AppendAssoc(e.source, FileHeading(name) + body, ",\n");
  }

  function Blocks(files: seq<File>): string
  {
    if files == [] then [] else FileBlock(files[0]) + Blocks(files[1..])
  }

  /** When nothing raises, the source array is the blocks of the files in walk order. */
  lemma {:induction false} FilesText(e: Emitted, files: seq<File>)
    requires !EmitFiles(e, files).crashed
    ensures EmitFiles(e, files).source == e.source + Blocks(files)
    decreases |files|
  {
    if files == [] {
      assert e.source + [] == e.source;
    } else {
      FilesCrashStays(e, files);
      FileText(e, files[0]);
      FilesText(EmitFile(e, files[0]), files[1..]);
      AppendAssoc(e.source, FileBlock(files[0]), Blocks(files[1..]));
    }
  }

  // ---------------------------------------------------------------------
  // The dependency arrays

  /** Python's string order: by code point, a proper prefix first. */
  predicate StrLe(a: string, b: string)
    decreases |a|
  {
    a == [] || (b != [] && (if a[0] != b[0] then a[0] < b[0] else StrLe(a[1..], b[1..])))
  }

  lemma {:induction false} StrLeTotal(a: string, b: string)
    ensures StrLe(a, b) || StrLe(b, a)
    decreases |a|
  {
    if a != [] && b != [] && a[0] == b[0] {
      StrLeTotal(a[1..], b[1..]);
    }
  }

  lemma {:induction false} StrLeAntisymmetric(a: string, b: string)
    requires StrLe(a, b) && StrLe(b, a)
    ensures a == b
    decreases |a|
  {
    if a != [] {
      StrLeAntisymmetric(a[1..], b[1..]);
      assert a == [a[0]] + a[1..] && b == [b[0]] + b[1..];
    }
  }

  lemma {:induction false} StrLeTransitive(a: string, b: string, c: string)
    requires StrLe(a, b) && StrLe(b, c)
    ensures StrLe(a, c)
    decreases |a|
  {
    if a != [] && a[0] == b[0] && b[0] == c[0] {
      StrLeTransitive(a[1..], b[1..], c[1..]);
    }
  }

  lemma AllAntisymmetric()
    ensures forall a, b :: StrLe(a, b) && StrLe(b, a) ==> a == b
  {
    forall a, b | StrLe(a, b) && StrLe(b, a)
      ensures a == b
    {
      StrLeAntisymmetric(a, b);
    }
  }

  predicate IsLeast(m: string, s: set<string>)
  {
    m in s && forall x :: x in s ==> StrLe(m, x)
  }

  lemma {:induction false} LeastExists(s: set<string>)
    requires s != {}
    ensures exists m :: IsLeast(m, s)
    decreases |s|
  {
    var x :| x in s;
    if s == {x} {
      assert StrLe(x, x) by { StrLeTotal(x, x); }
      assert IsLeast(x, s);
    } else {
      LeastExists(s - {x});
      var m :| IsLeast(m, s - {x});
      StrLeTotal(m, x);
      if StrLe(m, x) {
        assert IsLeast(m, s);
      } else {
        forall y | y in s
          ensures StrLe(x, y)
        {
          if y == x {
            StrLeTotal(x, x);
          } else {
            StrLeTransitive(x, m, y);
          }
        }
        assert IsLeast(x, s);
      }
    }
  }

  predicate Increasing(r: seq<string>)
  {
    forall i, j :: 0 <= i < j < |r| ==> StrLe(r[i], r[j]) && r[i] != r[j]
  }

  /** The least name of a non-empty set. */
  function Least(s: set<string>): (m: string)
    requires s != {}
    ensures IsLeast(m, s)
  {
    LeastExists(s);
    AllAntisymmetric();
    var m :| IsLeast(m, s);
    m
  }

  /** `sorted(names)`: the names of the set from least to greatest. */
  function SortedNames(s: set<string>): (r: seq<string>)
    ensures |r| == |s| && (forall x :: x in r <==> x in s)
    decreases |s|
  {
    if s == {} then [] else [Least(s)] + SortedNames(s - {Least(s)})
  }

  lemma ConsIncreasing(m: string, t: seq<string>)
    requires Increasing(t)
    requires forall k :: 0 <= k < |t| ==> StrLe(m, t[k]) && m != t[k]
    ensures Increasing([m] + t)
  {
    forall i, j | 0 <= i < j < |[m] + t|
      ensures StrLe(([m] + t)[i], ([m] + t)[j]) && ([m] + t)[i] != ([m] + t)[j]
    {
      if i > 0 {
        assert ([m] + t)[i] == t[i - 1];
      }
      assert ([m] + t)[j] == t[j - 1];
    }
  }

  /** The sorted list is in order and holds each name once. */
  lemma {:induction false} SortedNamesIncreasing(s: set<string>)
    ensures Increasing(SortedNames(s))
    decreases |s|
  {
    if s != {} {
      var m := Least(s);
      var t := SortedNames(s - {m});
      SortedNamesIncreasing(s - {m});
      forall k | 0 <= k < |t|
        ensures StrLe(m, t[k]) && m != t[k]
      {
        assert t[k] in s - {m};
      }
      ConsIncreasing(m, t);
    }
  }

  /** `sep.join(items)`. */
  function Join(items: seq<string>, sep: string): string
  {
    if items == [] then [] else if |items| == 1 then items[0] else items[0] + sep + Join(items[1..], sep)
  }

  /** One dependency entry: the key, its files sorted and joined, and a terminating 0. */
  function Entry(key: string, names: set<string>): string
  {
    "\"" + key + "\", \"" + Join(SortedNames(names), "\", \"") + "\", 0,\n"
  }

  function Entries(keys: seq<string>, sets: map<string, set<string>>): string
  {
    if keys == [] then []
    else
      var k := keys[|keys| - 1];
      Entries(keys[..|keys| - 1], sets) + Entry(k, if k in sets then sets[k] else {})
  }

  /** One of the two dependency arrays (lines 83-88). */
  function DepsArray(varName: string, d: DepMap): string
  {
    ArrayOpening(varName) + Entries(d.keys, d.sets) + Closing
  }

  /** `sorted` puts `a.fs` before `b.vs`, and `join` puts the separator between them. */
  lemma SortedExample()
    ensures SortedNames({"b.vs", "a.fs"}) == ["a.fs", "b.vs"]
    ensures Join(["a.fs", "b.vs"], "\", \"") == "a.fs" + "\", \"" + "b.vs"
  {
    var s: set<string> := {"b.vs", "a.fs"};
    assert "a.fs"[0] == 'a' && "b.vs"[0] == 'b';
    assert StrLe("a.fs", "b.vs") && !StrLe("b.vs", "a.fs");
    assert StrLe("a.fs", "a.fs") by {
      StrLeTotal("a.fs", "a.fs");
    }
    assert IsLeast("a.fs", s);
    assert Least(s) == "a.fs";
    assert s - {"a.fs"} == {"b.vs"};
    assert Least({"b.vs"}) == "b.vs";
    assert {"b.vs"} - {"b.vs"} == {};
    assert SortedNames({"b.vs"}) == ["b.vs"];
  }

  // ---------------------------------------------------------------------
  // The whole output

  const CacheVar: string := "_shader_cache_raw"

  /** The two texts, and whether the generator ran to the end. */
  datatype Output = Output(header: string, source: string, completed: bool)

  /** `extern const char * name[];` and a line feed, as written to the header. */
  function Declaration(varName: string): string
  {
    "extern const char * " + varName + "[];\n"
  }

  /** `const char * name[] = {` and a line feed: the start of an array in the source. */
  function ArrayOpening(varName: string): string
  {
    "const char * " + varName + "[] = {\n"
  }

  /** The last entry of every array and its closing brace. */
  const Closing: string := "0};\n"

  function Opening(): string
  {
    ArrayOpening(CacheVar)
  }

  /** The walk over the files, from the opened source array and two empty maps. */
  function Collected(files: seq<File>): Emitted
  {
    EmitFiles(Emitted(Opening(), NoDeps, NoDeps, false), files)
  }

  /** What `create_shadertext` writes when the shader files are walked in the order `files`. */
  function Generated(files: seq<File>): Output
  {
    var header := Declaration(CacheVar);
    var e := Collected(files);
    if e.crashed then Output(header, e.source, false)
    else
      Output(header + Declaration("_include_deps") + Declaration("_ifdef_deps"),
             e.source + Closing + DepsArray("_include_deps", e.includes) + DepsArray("_ifdef_deps", e.ifdefs),
             true)
  }

  predicate Listed(f: File, files: seq<File>)
  {
    f in files
  }

  /** `order` walks the set of found paths with a shader suffix: each of them once, and nothing else. */
  ghost predicate WalksShaders(found: seq<File>, order: seq<File>)
  {
    (forall f :: Listed(f, order) <==> Listed(f, found) && IsShader(f))
    && (forall i, j :: 0 <= i < j < |order| ==> order[i] != order[j])
  }

  /**
   * The generator.  `order` is the order in which the set of shader paths
   * is walked: each path found once, every one with a shader suffix, and
   * no other.  The result is what the two files hold afterwards, also when
   * a malformed directive raises part-way.
   */
  method CreateShaderText(found: seq<File>, order: seq<File>) returns (header: string, source: string, completed: bool)
    requires WalksShaders(found, order)
    ensures Output(header, source, completed) == Generated(order)
  {
    header := Declaration(CacheVar);
    source := ArrayOpening(CacheVar);
    var includes := NoDeps;
    var ifdefs := NoDeps;
    ghost var spec := Collected(order);
    var i := 0;
    while i < |order|
      invariant 0 <= i <= |order|
      invariant spec == EmitFiles(Emitted(source, includes, ifdefs, false), order[i..])
    {
      EmitFilesStep(Emitted(source, includes, ifdefs, false), order, i);
      var crashed;
      source, includes, ifdefs, crashed := WriteFile(source, includes, ifdefs, order[i]);
      if crashed {
        CrashedFilesStay(Emitted(source, includes, ifdefs, true), order[i + 1..]);
        completed := false;
        return;
      }
      i := i + 1;
    }
    assert order[i..] == [];
    assert spec == Emitted(source, includes, ifdefs, false);
    header := header + Declaration("_include_deps") + Declaration("_ifdef_deps");
    source := source + Closing;
    source := WriteDeps(source, "_include_deps", includes);
    source := WriteDeps(source, "_ifdef_deps", ifdefs);
    completed := true;
  }

  /** One pass of the outer loop: the file's heading, its lines, and the closing comma unless it raised. */
  method WriteFile(source: string, includes: DepMap, ifdefs: DepMap, f: File)
      returns (source': string, includes': DepMap, ifdefs': DepMap, crashed: bool)
    ensures Emitted(source', includes', ifdefs', crashed) == EmitFile(Emitted(source, includes, ifdefs, false), f)
  {
    var name := Name(f.path);
    source' := source + FileHeading(name);
    includes', ifdefs' := includes, ifdefs;
    var lines := SplitLines(f.contents);
    ghost var spec := EmitLines(Emitted(source', includes', ifdefs', false), name, lines);
    var j := 0;
    while j < |lines|
      invariant 0 <= j <= |lines|
      invariant spec == EmitLines(Emitted(source', includes', ifdefs', false), name, lines[j..])
    {
      EmitLinesStep(Emitted(source', includes', ifdefs', false), name, lines, j);
      source', includes', ifdefs', crashed := WriteLine(source', includes', ifdefs', name, lines[j]);
      if crashed {
        CrashedLinesStay(Emitted(source', includes', ifdefs', true), name, lines[j + 1..]);
        return;
      }
      j := j + 1;
    }
    assert lines[j..] == [];
    source' := source' + ",\n";
    crashed := false;
  }

  /** One pass of the inner loop: strip, skip or write, then note a directive. */
  method WriteLine(source: string, includes: DepMap, ifdefs: DepMap, name: string, raw: string)
      returns (source': string, includes': DepMap, ifdefs': DepMap, crashed: bool)
    ensures Emitted(source', includes', ifdefs', crashed) == EmitLine(Emitted(source, includes, ifdefs, false), name, raw)
  {
    ghost var e := Emitted(source, includes, ifdefs, false);
    source', includes', ifdefs', crashed := source, includes, ifdefs, false;
    var line := Strip(raw);
    if !Kept(line) {
      return;
    }
    source' := source + QuotedLine(line);
    ghost var e1 := e.(source := source');
    ghost var d := Classify(line);
    assert EmitLine(e, name, raw) == match d
      case Plain => e1
      case Include(k) => e1.(includes := e1.includes.Add(k, name))
      case Ifdef(k) => e1.(ifdefs := e1.ifdefs.Add(k, name))
      case Malformed => e1.(crashed := true);
    if StartsWith(line, "#include") {
      var words := Words(line);
      if |words| < 2 {
        crashed := true;
        return;
      }
      includes' := includes.Add(words[1], name);
    } else if StartsWith(line, "#ifdef") || StartsWith(line, "#ifndef") {
      var words := Words(line);
      if |words| < 2 {
        crashed := true;
        return;
      }
      ifdefs' := ifdefs.Add(words[1], name);
    }
  }

  lemma AppendEmpty(a: string)
    ensures a + [] == a
  {
  }

  lemma EntriesStep(keys: seq<string>, sets: map<string, set<string>>, k: nat)
    requires k < |keys|
    ensures Entries(keys[..k + 1], sets) == Entries(keys[..k], sets) + Entry(keys[k], if keys[k] in sets then sets[keys[k]] else {})
  {
    assert keys[..k + 1][..k] == keys[..k];
  }

  lemma ArrayAfter(source: string, opening: string, entries: string, closing: string)
    ensures source + opening + entries + closing == source + (opening + entries + closing)
  {
  }

  /** Appends one dependency array to `source`, key by key. */
  method WriteDeps(source: string, varName: string, d: DepMap) returns (r: string)
    ensures r == source + DepsArray(varName, d)
  {
    r := source + ArrayOpening(varName);
    ghost var start := r;
    var k := 0;
    assert d.keys[..0] == [];
    AppendEmpty(start);
    while k < |d.keys|
      invariant 0 <= k <= |d.keys|
      invariant r == start + Entries(d.keys[..k], d.sets)
    {
      var key := d.keys[k];
      var names := if key in d.sets then d.sets[key] else {};
      EntriesStep(d.keys, d.sets, k);
      AppendAssoc(start, Entries(d.keys[..k], d.sets), Entry(key, names));
      r := r + Entry(key, names);
      k := k + 1;
    }
    assert d.keys[..k] == d.keys;
    ArrayAfter(source, ArrayOpening(varName), Entries(d.keys, d.sets), Closing);
    r := r + Closing;
  }

  // ---------------------------------------------------------------------
  // The generator's results

  /** Some walked file has a kept directive line without a name. */
  ghost predicate SomeMalformed(files: seq<File>)
  {
    exists i :: 0 <= i < |files| && Declares(SplitLines(files[i].contents), Malformed)
  }

  lemma {:induction false} FilesCrash(e: Emitted, files: seq<File>)
    ensures EmitFiles(e, files).crashed <==> e.crashed || SomeMalformed(files)
    decreases |files|
  {
    if files != [] {
      var f := files[0];
      if !e.crashed {
        var name := Name(f.path);
        LinesCrash(e.(source := e.source + FileHeading(name)), name, SplitLines(f.contents));
      }
      FilesCrash(EmitFile(e, f), files[1..]);
      if SomeMalformed(files[1..]) {
        var i :| 0 <= i < |files[1..]| && Declares(SplitLines(files[1..][i].contents), Malformed);
        assert files[i + 1] == files[1..][i];
      }
      if SomeMalformed(files) {
        var i :| 0 <= i < |files| && Declares(SplitLines(files[i].contents), Malformed);
        if i > 0 {
          assert files[1..][i - 1] == files[i];
        }
      }
    }
  }

  /** The generator runs to the end exactly when no kept `#include`, `#ifdef` or `#ifndef` line lacks its name. */
  lemma CompletesExactly(files: seq<File>)
    ensures Generated(files).completed <==> !SomeMalformed(files)
  {
    FilesCrash(Emitted(Opening(), NoDeps, NoDeps, false), files);
  }

  /**
   * The layout: a run that raised has written the first declaration and
   * part of the source array; a complete run has three declarations in the header and, in
   * the source, the opened cache array, one block per file in walk order,
   * its terminator, and the two dependency arrays.
   */
  lemma GeneratedLayout(files: seq<File>)
    ensures !Generated(files).completed ==>
              Generated(files).header == Declaration(CacheVar) && Opening() <= Generated(files).source
    ensures Generated(files).completed ==>
              Generated(files).header == Declaration(CacheVar) + Declaration("_include_deps") + Declaration("_ifdef_deps")
              && Generated(files).source == Opening() + Blocks(files) + Closing + DepsArray("_include_deps", Collected(files).includes)
                                            + DepsArray("_ifdef_deps", Collected(files).ifdefs)
  {
    var e0 := Emitted(Opening(), NoDeps, NoDeps, false);
    var e := Collected(files);
    if e.crashed {
      SourceGrows(e0, files);
    } else {
      FilesText(e0, files);
      assert e.source == Opening() + Blocks(files);
    }
  }

  lemma {:induction false} SourceGrows(e: Emitted, files: seq<File>)
    ensures e.source <= EmitFiles(e, files).source
    decreases |files|
  {
    if files != [] {
      var f := files[0];
      FileGrows(e, f);
      SourceGrows(EmitFile(e, f), files[1..]);
      PrefixTrans(e.source, EmitFile(e, f).source, EmitFiles(e, files).source);
    }
  }

  lemma FileGrows(e: Emitted, f: File)
    ensures e.source <= EmitFile(e, f).source
  {
    if !e.crashed {
      var name := Name(f.path);
      var e0 := e.(source := e.source + FileHeading(name));
      LinesGrow(e0, name, SplitLines(f.contents));
      FileDeps(e, f);
      PrefixTrans(e.source, e0.source, EmitLines(e0, name, SplitLines(f.contents)).source);
      PrefixTrans(e.source, EmitLines(e0, name, SplitLines(f.contents)).source, EmitFile(e, f).source);
    }
  }

  lemma PrefixTrans(a: string, b: string, c: string)
    requires a <= b && b <= c
    ensures a <= c
  {
  }

  lemma {:induction false} LinesGrow(e: Emitted, name: string, lines: seq<string>)
    ensures e.source <= EmitLines(e, name, lines).source
    decreases |lines|
  {
    if lines != [] {
      LineGrows(e, name, lines[0]);
      LinesGrow(EmitLine(e, name, lines[0]), name, lines[1..]);
    }
  }

  /**
   * In a complete run, `include_deps[k]` holds exactly the names of the
   * files with a kept `#include k` line, `ifdef_deps[k]` those with a
   * kept `#ifdef k` or `#ifndef k` line, and each lists its keys once.
   */
  lemma CollectedDeps(files: seq<File>)
    requires !Collected(files).crashed
    ensures forall k, n :: Collected(files).includes.Has(k, n) <==> FileDeclares(files, n, Include(k))
    ensures forall k, n :: Collected(files).ifdefs.Has(k, n) <==> FileDeclares(files, n, Ifdef(k))
    ensures Collected(files).includes.Valid() && Collected(files).ifdefs.Valid()
  {
    var e0 := Emitted(Opening(), NoDeps, NoDeps, false);
    FilesIncludes(e0, files);
    FilesIfdefs(e0, files);
    FilesValid(e0, files);
  }
}
