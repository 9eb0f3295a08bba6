/** `normalize_page_text` after its NFKC step (worker/services/financial_report_page_locator.py). */
module PageText {

  /** What `str.strip` removes. */
  predicate IsSpace(c: char) {
    || '\t' <= c <= '\r'
    || '\U{1C}' <= c <= ' '
    || c in {'\U{85}', '\U{A0}', '\U{1680}', '\U{2028}', '\U{2029}', '\U{202F}', '\U{205F}', '\U{3000}'}
    || '\U{2000}' <= c <= '\U{200A}'
  }

  /** The class [ \t\f\v] whose runs become one space. */
  predicate IsBlank(c: char) {
    c in {' ', '\t', '\U{0C}', '\U{0B}'}
  }

  function UnixPairs(s: string): string {
    if s == [] then []
    else if |s| > 1 && s[0] == '\r' && s[1] == '\n' then "\n" + UnixPairs(s[2..])
    else [s[0]] + UnixPairs(s[1..])
  }

  function UnixSingles(s: string): (r: string)
    ensures '\r' !in r
  {
    if s == [] then []
    else [if s[0] == '\r' then '\n' else s[0]] + UnixSingles(s[1..])
  }

  function Split(s: string): (r: seq<string>)
    ensures |r| > 0
  {
    if s == [] then [[]]
    else
      var rest := Split(s[1..]);
      if s[0] == '\n' then [[]] + rest else [[s[0]] + rest[0]] + rest[1..]
  }

  function Collapsed(s: string): string {
    if s == [] then []
    else if !IsBlank(s[0]) then [s[0]] + Collapsed(s[1..])
    else if |s| > 1 && IsBlank(s[1]) then Collapsed(s[1..])
    else [' '] + Collapsed(s[1..])
  }

  function Strip(s: string): string
    decreases |s|
  {
    if s == [] then s
    else if IsSpace(s[0]) then Strip(s[1..])
    else if IsSpace(s[|s| - 1]) then Strip(s[..|s| - 1])
    else s
  }

  /** btrim: spaces are removed at both ends. */
  function Trim(s: string): string {
    if s == [] then s
    else if s[0] == ' ' then Trim(s[1..])
    else if s[|s| - 1] == ' ' then Trim(s[..|s| - 1])
    else s
  }

  lemma {:induction false} TrimNotEmpty(s: string, i: nat)
    requires i < |s| && s[i] != ' '
    ensures 1 <= |Trim(s)| <= |s|
    decreases |s|
  {
    if s[0] == ' ' {
      TrimNotEmpty(s[1..], i - 1);
    } else if s[|s| - 1] == ' ' {
      TrimNotEmpty(s[..|s| - 1], i);
    }
  }

  /** Trimming removes spaces at the two ends, all of them, and nothing else. */
  lemma {:induction false} TrimExact(s: string) returns (a: string, b: string)
    ensures s == a + (Trim(s) + b)
    ensures (forall i | 0 <= i < |a| :: a[i] == ' ') && forall i | 0 <= i < |b| :: b[i] == ' '
    ensures Trim(s) != "" ==> Trim(s)[0] != ' ' && Trim(s)[|Trim(s)| - 1] != ' '
    decreases |s|
  {
    if s == [] {
      a, b := [], [];
    } else if s[0] == ' ' {
      a, b := TrimExact(s[1..]);
      a := [s[0]] + a;
    } else if s[|s| - 1] == ' ' {
      a, b := TrimExact(s[..|s| - 1]);
      b := b + [s[|s| - 1]];
    } else {
      a, b := [], [];
    }
  }

  function Join(lines: seq<string>): string {
    if lines == [] then []
    else if |lines| == 1 then lines[0]
    else lines[0] + ("\n" + Join(lines[1..]))
  }

  /** The normalised lines that are not empty. */
  function KeptLines(lines: seq<string>): seq<string> {
    if lines == [] then []
    else
      var line := Strip(Collapsed(lines[0]));
      (if line == [] then [] else [line]) + KeptLines(lines[1..])
  }

  function NormalizePageText(s: string): string {
    Strip(Join(KeptLines(Split(UnixSingles(UnixPairs(s))))))
  }

  // ---------------------------------------------------------------- content

  function Visible(s: string): string {
    if s == [] then []
    else (if IsSpace(s[0]) then [] else [s[0]]) + Visible(s[1..])
  }

  lemma {:induction false} VisibleConcat(s: string, t: string)
    ensures Visible(s + t) == Visible(s) + Visible(t)
  {
    if s == [] {
      assert s + t == t;
    } else {
      assert (s + t)[1..] == s[1..] + t;
      VisibleConcat(s[1..], t);
    }
  }

  lemma {:induction false} VisibleUnixPairs(s: string)
    ensures Visible(UnixPairs(s)) == Visible(s)
  {
    if s == [] {
    } else if |s| > 1 && s[0] == '\r' && s[1] == '\n' {
      VisibleUnixPairs(s[2..]);
      assert s[1..][1..] == s[2..];
    } else {
      VisibleUnixPairs(s[1..]);
    }
  }

  lemma {:induction false} VisibleUnixSingles(s: string)
    ensures Visible(UnixSingles(s)) == Visible(s)
  {
    if s != [] {
      VisibleUnixSingles(s[1..]);
    }
  }

  lemma {:induction false} VisibleCollapsed(s: string)
    ensures Visible(Collapsed(s)) == Visible(s)
  {
    if s != [] {
      VisibleCollapsed(s[1..]);
    }
  }

  lemma {:induction false} VisibleStrip(s: string)
    ensures Visible(Strip(s)) == Visible(s)
    decreases |s|
  {
    if s == [] {
    } else if IsSpace(s[0]) {
      VisibleStrip(s[1..]);
    } else if IsSpace(s[|s| - 1]) {
      VisibleStrip(s[..|s| - 1]);
      VisibleConcat(s[..|s| - 1], [s[|s| - 1]]);
      assert s == s[..|s| - 1] + [s[|s| - 1]];
    }
  }

  function VisibleOf(lines: seq<string>): string {
    if lines == [] then [] else Visible(lines[0]) + VisibleOf(lines[1..])
  }

  lemma {:induction false} VisibleSplit(s: string)
    ensures VisibleOf(Split(s)) == Visible(s)
  {
    if s != [] {
      var rest := Split(s[1..]);
      VisibleSplit(s[1..]);
      if s[0] == '\n' {
        assert ([[]] + rest)[1..] == rest;
      } else {
        assert Split(s)[1..] == rest[1..];
        VisibleConcat([s[0]], rest[0]);
      }
    }
  }

  lemma VisibleOfMore(line: string, lines: seq<string>)
    ensures VisibleOf([line] + lines) == Visible(line) + VisibleOf(lines)
  {
    assert ([line] + lines)[1..] == lines;
  }

  lemma {:induction false} VisibleKeptLines(lines: seq<string>)
    ensures VisibleOf(KeptLines(lines)) == VisibleOf(lines)
  {
    if lines != [] {
      var line := Strip(Collapsed(lines[0]));
      var kept := KeptLines(lines[1..]);
      VisibleKeptLines(lines[1..]);
      assert Visible(line) == Visible(lines[0]) by {
        VisibleCollapsed(lines[0]);
        VisibleStrip(Collapsed(lines[0]));
      }
      VisibleOfMore(line, kept);
      assert line == [] ==> [] + kept == kept;
    }
  }

  lemma {:induction false} VisibleJoin(lines: seq<string>)
    ensures Visible(Join(lines)) == VisibleOf(lines)
  {
    if |lines| == 1 {
      assert VisibleOf(lines[1..]) == [];
    } else if |lines| > 1 {
      VisibleJoin(lines[1..]);
      VisibleConcat(lines[0], "\n" + Join(lines[1..]));
      VisibleConcat("\n", Join(lines[1..]));
      assert Visible("\n") == [];
    }
  }

  /** Every character that is no whitespace is kept, in order. */
  lemma NormalizeKeepsVisible(s: string)
    ensures Visible(NormalizePageText(s)) == Visible(s)
  {
    var pairs := UnixPairs(s);
    var lines := Split(UnixSingles(pairs));
    VisibleUnixPairs(s);
    VisibleUnixSingles(pairs);
    VisibleSplit(UnixSingles(pairs));
    VisibleKeptLines(lines);
    VisibleJoin(KeptLines(lines));
    VisibleStrip(Join(KeptLines(lines)));
  }

  // ---------------------------------------------------------------- normal form

  /** No line end inside, blanks are single spaces. */
  predicate Smooth(s: string) {
    && (forall i | 0 <= i < |s| :: s[i] != '\n' && s[i] != '\r' && (IsBlank(s[i]) ==> s[i] == ' '))
    && (forall i | 0 <= i < |s| - 1 :: !(IsBlank(s[i]) && IsBlank(s[i + 1])))
  }

  predicate Trimmed(s: string) {
    s != [] ==> !IsSpace(s[0]) && !IsSpace(s[|s| - 1])
  }

  predicate CleanLine(line: string) {
    line != [] && Smooth(line) && Trimmed(line)
  }

  predicate CleanLines(lines: seq<string>) {
    forall i | 0 <= i < |lines| :: CleanLine(lines[i])
  }

  /** The normal form: no blank line, no whitespace at the edge of a line, no run of blanks. */
  ghost predicate Clean(s: string) {
    exists lines :: CleanLines(lines) && s == Join(lines)
  }

  lemma {:induction false} StripTrims(s: string)
    ensures Trimmed(Strip(s))
    ensures Trimmed(s) ==> Strip(s) == s
    decreases |s|
  {
    if s == [] {
    } else if IsSpace(s[0]) {
      StripTrims(s[1..]);
    } else if IsSpace(s[|s| - 1]) {
      StripTrims(s[..|s| - 1]);
    }
  }

  /** Stripping removes white space at the two ends, all of it, and nothing else. */
  lemma {:induction false} StripExact(s: string) returns (a: string, b: string)
    ensures s == a + (Strip(s) + b) && Trimmed(Strip(s)) && Spaces(a) && Spaces(b)
    decreases |s|
  {
    if s == [] {
      a, b := [], [];
    } else if IsSpace(s[0]) {
      a, b := StripExact(s[1..]);
      a := [s[0]] + a;
    } else if IsSpace(s[|s| - 1]) {
      a, b := StripExact(s[..|s| - 1]);
      b := b + [s[|s| - 1]];
    } else {
      a, b := [], [];
    }
  }

  lemma {:induction false} StripSmooth(s: string)
    requires Smooth(s)
    ensures Smooth(Strip(s))
    decreases |s|
  {
    if s == [] {
    } else if IsSpace(s[0]) {
      StripSmooth(s[1..]);
    } else if IsSpace(s[|s| - 1]) {
      StripSmooth(s[..|s| - 1]);
    }
  }

  lemma {:induction false} CollapsedSmooth(s: string)
    requires forall i | 0 <= i < |s| :: s[i] != '\n' && s[i] != '\r'
    ensures Smooth(Collapsed(s))
    ensures s != [] ==> Collapsed(s) != [] && (IsBlank(Collapsed(s)[0]) <==> IsBlank(s[0]))
  {
    if s != [] {
      CollapsedSmooth(s[1..]);
    }
  }

  lemma {:induction false} CollapsedFixed(s: string)
    requires Smooth(s)
    ensures Collapsed(s) == s
  {
    if s != [] {
      CollapsedFixed(s[1..]);
      if |s| > 1 {
        assert !(IsBlank(s[0]) && IsBlank(s[0 + 1]));
      }
    }
  }

  lemma {:induction false} SplitLines(s: string)
    requires '\r' !in s
    ensures forall k | 0 <= k < |Split(s)| :: '\n' !in Split(s)[k] && '\r' !in Split(s)[k]
  {
    if s != [] {
      assert '\r' !in s[1..];
      SplitLines(s[1..]);
    }
  }

  lemma {:induction false} KeptLinesClean(lines: seq<string>)
    requires forall k | 0 <= k < |lines| :: '\n' !in lines[k] && '\r' !in lines[k]
    ensures CleanLines(KeptLines(lines))
  {
    if lines != [] {
      CollapsedSmooth(lines[0]);
      StripTrims(Collapsed(lines[0]));
      StripSmooth(Collapsed(lines[0]));
      KeptLinesClean(lines[1..]);
    }
  }

  lemma {:induction false} KeptLinesFixed(lines: seq<string>)
    requires CleanLines(lines)
    ensures KeptLines(lines) == lines
  {
    if lines != [] {
      CollapsedFixed(lines[0]);
      StripTrims(lines[0]);
      KeptLinesFixed(lines[1..]);
    }
  }

  lemma {:induction false} SplitOneMore(line: string, rest: string)
    requires '\n' !in line
    ensures Split(line) == [line]
    ensures Split(line + ("\n" + rest)) == [line] + Split(rest)
  {
    if line == [] {
      assert ("\n" + rest)[1..] == rest;
      assert line + ("\n" + rest) == "\n" + rest;
    } else {
      assert (line + ("\n" + rest))[1..] == line[1..] + ("\n" + rest);
      SplitOneMore(line[1..], rest);
      assert [line[0]] + line[1..] == line;
    }
  }

  lemma {:induction false} SplitJoin(lines: seq<string>)
    requires CleanLines(lines) && lines != []
    ensures Split(Join(lines)) == lines
  {
    assert '\n' !in lines[0];
    if |lines| == 1 {
      SplitOneMore(lines[0], []);
    } else {
      SplitOneMore(lines[0], Join(lines[1..]));
      SplitJoin(lines[1..]);
    }
  }

  lemma {:induction false} JoinShape(lines: seq<string>)
    requires CleanLines(lines)
    ensures '\r' !in Join(lines) && Trimmed(Join(lines))
    ensures lines != [] ==> Join(lines) != []
  {
    if |lines| > 1 {
      JoinShape(lines[1..]);
      var tail := Join(lines[1..]);
      assert Join(lines)[|Join(lines)| - 1] == tail[|tail| - 1];
      assert Join(lines)[0] == lines[0][0];
    }
  }

  lemma {:induction false} UnixFixed(s: string)
    requires '\r' !in s
    ensures UnixPairs(s) == s && UnixSingles(s) == s
  {
    if s != [] {
      UnixFixed(s[1..]);
    }
  }

  /** The result is in normal form, and a text is unchanged exactly when it is in normal form. */
  lemma NormalizeNormalForm(s: string)
    ensures Clean(NormalizePageText(s))
    ensures NormalizePageText(s) == s <==> Clean(s)
  {
    var lines := Split(UnixSingles(UnixPairs(s)));
    SplitLines(UnixSingles(UnixPairs(s)));
    KeptLinesClean(lines);
    JoinShape(KeptLines(lines));
    StripTrims(Join(KeptLines(lines)));
    if Clean(s) {
      var clean :| CleanLines(clean) && s == Join(clean);
      CleanUnchanged(clean);
    }
  }

  lemma CleanUnchanged(lines: seq<string>)
    requires CleanLines(lines)
    ensures NormalizePageText(Join(lines)) == Join(lines)
  {
    JoinShape(lines);
    UnixFixed(Join(lines));
    if lines != [] {
      SplitJoin(lines);
      KeptLinesFixed(lines);
      StripTrims(Join(lines));
    } else {
      assert Split([]) == [[]];
      assert KeptLines([[]]) == [];
    }
  }

  lemma NormalizeIdempotent(s: string)
    ensures NormalizePageText(NormalizePageText(s)) == NormalizePageText(s)
  {
    NormalizeNormalForm(s);
    NormalizeNormalForm(NormalizePageText(s));
  }

  // ---------------------------------------------------------------- line by line, word by word

  predicate OneLine(s: string) { '\n' !in s && '\r' !in s }

  lemma {:induction false} UnixLine(line: string, end: string, rest: string)
    requires OneLine(line) && (end == "\n" || end == "\r\n" || (end == "\r" && (rest == "" || rest[0] != '\n')))
    ensures UnixSingles(UnixPairs(line + (end + rest))) == line + ("\n" + UnixSingles(UnixPairs(rest)))
  {
    if line == [] {
      assert line + (end + rest) == end + rest;
      assert end == "\r\n" ==> (end + rest)[2..] == rest;
      assert |end| == 1 ==> (end + rest)[1..] == rest;
    } else {
      assert (line + (end + rest))[1..] == line[1..] + (end + rest);
      UnixLine(line[1..], end, rest);
      var after := "\n" + UnixSingles(UnixPairs(rest));
      assert [line[0]] + (line[1..] + after) == line + after;
    }
  }

  function LinesOf(s: string): seq<string> { KeptLines(Split(UnixSingles(UnixPairs(s)))) }

  lemma LinesJoin(s: string)
    ensures NormalizePageText(s) == Join(LinesOf(s)) && CleanLines(LinesOf(s))
    ensures NormalizePageText(s) == "" <==> LinesOf(s) == []
  {
    SplitLines(UnixSingles(UnixPairs(s)));
    KeptLinesClean(Split(UnixSingles(UnixPairs(s))));
    JoinShape(LinesOf(s));
    StripTrims(Join(LinesOf(s)));
  }

  lemma OneLineNormal(line: string)
    requires OneLine(line)
    ensures NormalizePageText(line) == Strip(Collapsed(line))
    ensures LinesOf(line) == if Strip(Collapsed(line)) == [] then [] else [Strip(Collapsed(line))]
  {
    UnixFixed(line);
    SplitOneMore(line, []);
    assert [line][1..] == [];
    LinesJoin(line);
  }

  /** Every line end, however written, separates two lines that are normalised apart; empty ones disappear. */
  lemma LinesApart(line: string, end: string, rest: string)
    requires OneLine(line) && (end == "\n" || end == "\r\n" || (end == "\r" && (rest == "" || rest[0] != '\n')))
    ensures NormalizePageText(line + (end + rest)) ==
      if NormalizePageText(line) == "" then NormalizePageText(rest)
      else if NormalizePageText(rest) == "" then NormalizePageText(line)
      else NormalizePageText(line) + ("\n" + NormalizePageText(rest))
  {
    UnixLine(line, end, rest);
    SplitOneMore(line, UnixSingles(UnixPairs(rest)));
    OneLineNormal(line);
    LinesJoin(line + (end + rest));
    LinesJoin(rest);
    var kept := Strip(Collapsed(line));
    assert ([line] + Split(UnixSingles(UnixPairs(rest))))[1..] == Split(UnixSingles(UnixPairs(rest)));
    assert LinesOf(line + (end + rest)) == (if kept == [] then [] else [kept]) + LinesOf(rest);
    assert NormalizePageText(line) == kept;
    JoinMore(kept, LinesOf(rest));
    if kept == [] {
      assert LinesOf(line + (end + rest)) == LinesOf(rest);
    } else {
      assert LinesOf(line + (end + rest)) == [kept] + LinesOf(rest);
    }
  }

  lemma JoinMore(line: string, lines: seq<string>)
    ensures Join([line] + lines) == if lines == [] then line else line + ("\n" + Join(lines))
  {
    assert ([line] + lines)[1..] == lines;
  }

  predicate Blanks(s: string) { forall i | 0 <= i < |s| :: IsBlank(s[i]) }

  predicate EndsVisible(s: string) { s != [] && !IsSpace(s[|s| - 1]) }

  predicate StartsVisible(s: string) { s != [] && !IsSpace(s[0]) }

  lemma {:induction false} CollapsedBlanks(blanks: string, b: string)
    requires blanks != [] && Blanks(blanks) && StartsVisible(b)
    ensures Collapsed(blanks + b) == " " + Collapsed(b)
  {
    assert (blanks + b)[1..] == blanks[1..] + b;
    if |blanks| > 1 {
      CollapsedBlanks(blanks[1..], b);
    }
  }

  lemma {:induction false} CollapsedWords(a: string, blanks: string, b: string)
    requires EndsVisible(a) && blanks != [] && Blanks(blanks) && StartsVisible(b)
    ensures Collapsed(a + (blanks + b)) == Collapsed(a) + (" " + Collapsed(b))
    ensures EndsVisible(Collapsed(a))
  {
    assert (a + (blanks + b))[1..] == a[1..] + (blanks + b);
    if |a| == 1 {
      CollapsedBlanks(blanks, b);
      assert a[1..] + (blanks + b) == blanks + b && a[1..] == [];
    } else {
      CollapsedWords(a[1..], blanks, b);
    }
  }

  lemma {:induction false} StripAround(x: string, y: string)
    requires EndsVisible(x) && StartsVisible(y)
    ensures Strip(x + (" " + y)) == Strip(x) + (" " + Strip(y))
    decreases |x| + |y|
  {
    var all := x + (" " + y);
    if IsSpace(x[0]) {
      assert all[1..] == x[1..] + (" " + y);
      StripAround(x[1..], y);
    } else if IsSpace(y[|y| - 1]) {
      assert all[..|all| - 1] == x + (" " + y[..|y| - 1]);
      StripAround(x, y[..|y| - 1]);
    }
  }

  /** Within a line, what separates two words becomes one space, and the parts on either side are normalised apart. */
  lemma WordsApart(a: string, blanks: string, b: string)
    requires OneLine(a) && OneLine(b) && EndsVisible(a) && StartsVisible(b) && blanks != [] && Blanks(blanks)
    ensures NormalizePageText(a + (blanks + b)) == NormalizePageText(a) + (" " + NormalizePageText(b))
  {
    assert OneLine(a + (blanks + b));
    OneLineNormal(a);
    OneLineNormal(b);
    OneLineNormal(a + (blanks + b));
    CollapsedWords(a, blanks, b);
    assert StartsVisible(Collapsed(b));
    StripAround(Collapsed(a), Collapsed(b));
  }

  predicate Spaces(s: string) { forall i | 0 <= i < |s| :: IsSpace(s[i]) }

  lemma {:induction false} CollapsedJoin(x: string, y: string)
    requires StartsVisible(y) || (EndsVisible(x) && Spaces(y))
    ensures Collapsed(x + y) == Collapsed(x) + Collapsed(y)
    ensures Spaces(x) ==> Spaces(Collapsed(x))
  {
    if x == [] {
      assert x + y == y;
    } else if |x| == 1 {
      assert (x + y)[1..] == y && x[1..] == [];
    } else {
      assert (x + y)[1..] == x[1..] + y;
      CollapsedJoin(x[1..], y);
    }
  }

  lemma {:induction false} StripOuter(w: string, a: string, v: string)
    requires Spaces(w) && Spaces(v) && StartsVisible(a) && EndsVisible(a)
    ensures Strip(w + (a + v)) == a
    decreases |w| + |v|
  {
    var all := w + (a + v);
    if w != [] {
      assert all[1..] == w[1..] + (a + v);
      StripOuter(w[1..], a, v);
    } else if v != [] {
      assert all[..|all| - 1] == w + (a + v[..|v| - 1]);
      StripOuter(w, a, v[..|v| - 1]);
    } else {
      assert all == a;
    }
  }

  /** White space at the two ends of a line goes. */
  lemma EdgesGo(w: string, a: string, v: string)
    requires Spaces(w) && Spaces(v) && OneLine(w) && OneLine(a) && OneLine(v) && StartsVisible(a) && EndsVisible(a)
    ensures NormalizePageText(w + (a + v)) == NormalizePageText(a)
  {
    OneLineNormal(a);
    assert OneLine(a + v) && OneLine(w + (a + v));
    OneLineNormal(w + (a + v));
    CollapsedJoin(w, a + v);
    CollapsedJoin(a, v);
    CollapsedEnds(a);
    CollapsedSpaces(v);
    StripOuter(Collapsed(w), Collapsed(a), Collapsed(v));
    StripOuter([], Collapsed(a), []);
    assert [] + (Collapsed(a) + []) == Collapsed(a);
  }

  lemma CollapsedSpaces(v: string)
    requires Spaces(v)
    ensures Spaces(Collapsed(v))
  {
    CollapsedJoin(v, "x");
  }

  lemma {:induction false} CollapsedEnds(a: string)
    requires StartsVisible(a) && EndsVisible(a)
    ensures StartsVisible(Collapsed(a)) && EndsVisible(Collapsed(a))
  {
    CollapsedWords(a, " ", "x");
  }

  /** What has no blank in it and no white space at its ends stays as it is. */
  lemma WordStays(word: string)
    requires OneLine(word) && (forall i | 0 <= i < |word| :: !IsBlank(word[i]))
    requires word == "" || (StartsVisible(word) && EndsVisible(word))
    ensures NormalizePageText(word) == word
  {
    OneLineNormal(word);
    CollapsedFixed(word);
  }
}
