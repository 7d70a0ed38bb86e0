/**
 * The watch-list reader (src/io/symbolsFromFile.ts) on the text of the file: split into
 * lines at "\n" or "\r\n", trim each line, upper-case it and drop the empty ones.
 */
module Symbols {

  /** The characters String.prototype.trim removes: WhiteSpace and LineTerminator of ECMAScript. */
  predicate IsJsSpace(c: char) {
    c == ' ' || c == '\t' || c == '\n' || c == '\r' || c == '\U{B}' || c == '\U{C}'
    || c == '\U{A0}' || c == '\U{1680}' || ('\U{2000}' <= c <= '\U{200A}')
    || c == '\U{2028}' || c == '\U{2029}' || c == '\U{202F}' || c == '\U{205F}'
    || c == '\U{3000}' || c == '\U{FEFF}'
  }

  // ---------------------------------------------------------------- split(/\r?\n/)

  /** The index of the first "\n" of s, or |s| when there is none. */
  function IndexOfNewline(s: string, from: nat): (r: nat)
    requires from <= |s|
    ensures from <= r <= |s|
    ensures r < |s| ==> s[r] == '\n'
    ensures forall j :: from <= j < r ==> s[j] != '\n'
    decreases |s| - from
  {
    if from == |s| || s[from] == '\n' then from else IndexOfNewline(s, from + 1)
  }

  /** A "\r" right before the "\n" belongs to the separator. */
  function DropCr(p: string): string {
    if |p| > 0 && p[|p| - 1] == '\r' then p[..|p| - 1] else p
  }

  function SplitLines(s: string): (r: seq<string>)
    ensures |r| >= 1
    ensures forall t :: 0 <= t < |r| ==> '\n' !in r[t]
    decreases |s|
  {
    var i := IndexOfNewline(s, 0);
    if i == |s| then [s]
    else
      assert '\n' !in DropCr(s[..i]) by {
        assert forall j :: 0 <= j < |DropCr(s[..i])| ==> DropCr(s[..i])[j] == s[j];
      }
      [DropCr(s[..i])] + SplitLines(s[i + 1..])
  }

  /** The number of "\n" in s. */
  function Newlines(s: string): nat {
    if s == [] then 0 else (if s[0] == '\n' then 1 else 0) + Newlines(s[1..])
  }

  lemma NewlinesSplit(s: string, i: nat)
    requires i <= |s|
    ensures Newlines(s) == Newlines(s[..i]) + Newlines(s[i..])
  {
    if i > 0 {
      assert s[1..][..i - 1] == s[1..i];
      assert s[1..][i - 1..] == s[i..];
      NewlinesSplit(s[1..], i - 1);
      assert s[..i][1..] == s[1..i];
    }
  }

  lemma NoNewlines(s: string)
    requires '\n' !in s
    ensures Newlines(s) == 0
  {
    if s != [] {
      assert s[1..] == s[1..];
      assert forall c :: c in s[1..] ==> c in s;
      NoNewlines(s[1..]);
    }
  }

  /** split yields one more piece than there are line breaks. */
  lemma {:induction false} SplitLinesCount(s: string)
    ensures |SplitLines(s)| == Newlines(s) + 1
    decreases |s|
  {
    var i := IndexOfNewline(s, 0);
    if i == |s| {
      assert '\n' !in s by { assert forall j :: 0 <= j < |s| ==> s[j] != '\n'; }
      NoNewlines(s);
    } else {
      SplitLinesCount(s[i + 1..]);
      NewlinesSplit(s, i);
      assert '\n' !in s[..i] by { assert forall j :: 0 <= j < i ==> s[..i][j] != '\n'; }
      NoNewlines(s[..i]);
      assert s[i..][1..] == s[i + 1..];
    }
  }

  // ---------------------------------------------------------------- trim, toUpperCase

  /** The end of the leading whitespace of s at or after from. */
  function Leading(s: string, from: nat): (r: nat)
    requires from <= |s|
    ensures from <= r <= |s|
    ensures forall j :: from <= j < r ==> IsJsSpace(s[j])
    ensures r < |s| ==> !IsJsSpace(s[r])
    decreases |s| - from
  {
    if from == |s| || !IsJsSpace(s[from]) then from else Leading(s, from + 1)
  }

  /** The start of the trailing whitespace of s before upto. */
  function Trailing(s: string, upto: nat): (r: nat)
    requires upto <= |s|
    ensures r <= upto
    ensures forall j :: r <= j < upto ==> IsJsSpace(s[j])
    ensures r > 0 ==> !IsJsSpace(s[r - 1])
    decreases upto
  {
    if upto == 0 || !IsJsSpace(s[upto - 1]) then upto else Trailing(s, upto - 1)
  }

  /** trim(): the input without its leading and trailing whitespace. */
  function Trim(s: string): (r: string)
    ensures r == [] || (!IsJsSpace(r[0]) && !IsJsSpace(r[|r| - 1]))
    ensures r == [] <==> forall j :: 0 <= j < |s| ==> IsJsSpace(s[j])
    ensures forall c :: c in r ==> c in s
  {
    var lo := Leading(s, 0);
    var hi := Trailing(s, |s|);
    if lo == |s| then [] else s[lo..hi]
  }

  /** A string that trim() leaves alone. */
  predicate Trimmed(s: string) {
    s == [] || (!IsJsSpace(s[0]) && !IsJsSpace(s[|s| - 1]))
  }

  lemma TrimOfTrimmed(s: string)
    requires Trimmed(s)
    ensures Trim(s) == s
  {
  }

  lemma TrimIdempotent(s: string)
    ensures Trim(Trim(s)) == Trim(s)
  {
    TrimOfTrimmed(Trim(s));
  }

  /** toUpperCase on ASCII letters; every other character is kept. */
  function UpperChar(c: char): (r: char)
    ensures ('a' <= c <= 'z') ==> r as int == c as int - 32
    ensures !('a' <= c <= 'z') ==> r == c
    ensures !('a' <= r <= 'z')
  {
    if 'a' <= c <= 'z' then (c as int - 32) as char else c
  }

  function Upper(s: string): (r: string)
    ensures |r| == |s| && forall j :: 0 <= j < |s| ==> r[j] == UpperChar(s[j])
  {
    seq(|s|, j requires 0 <= j < |s| => UpperChar(s[j]))
  }

  lemma UpperKeepsSpace(c: char)
    ensures IsJsSpace(UpperChar(c)) == IsJsSpace(c)
  {
  }

  predicate NoLower(s: string) {
    forall j :: 0 <= j < |s| ==> !('a' <= s[j] <= 'z')
  }

  lemma UpperOfUpper(s: string)
    requires NoLower(s)
    ensures Upper(s) == s
  {
  }

  /** One line as the reader keeps it. */
  function Normalize(line: string): (r: string)
    ensures Trimmed(r) && NoLower(r)
    ensures r == [] <==> forall j :: 0 <= j < |line| ==> IsJsSpace(line[j])
    ensures '\n' !in line ==> '\n' !in r
  {
    var t := Trim(line);
    var r := Upper(t);
    if t == [] then r
    else
      UpperKeepsSpace(t[0]);
      UpperKeepsSpace(t[|t| - 1]);
      assert forall j :: 0 <= j < |t| ==> (r[j] == '\n') == (t[j] == '\n');
      r
  }

  // ---------------------------------------------------------------- filter(Boolean)

  function NonEmpty(xs: seq<string>): (r: seq<string>)
    ensures |r| <= |xs|
    ensures forall x :: x in r ==> x != [] && x in xs
    ensures forall x :: x in xs && x != [] ==> x in r
    ensures |xs| == 1 ==> r == (if xs[0] == [] then [] else xs)
  {
    if xs == [] then []
    else if xs[0] == [] then NonEmpty(xs[1..])
    else [xs[0]] + NonEmpty(xs[1..])
  }

  function NormalizeAll(lines: seq<string>): (r: seq<string>)
    ensures |r| == |lines| && forall t :: 0 <= t < |lines| ==> r[t] == Normalize(lines[t])
  {
    seq(|lines|, t requires 0 <= t < |lines| => Normalize(lines[t]))
  }

  /** symbolsFromFile on the file's text. */
  function SymbolsFromText(text: string): seq<string> {
    NonEmpty(NormalizeAll(SplitLines(text)))
  }

  /** What a list entry looks like: non-empty, trimmed, upper-case, on one line. */
  predicate IsEntry(s: string) {
    s != [] && Trimmed(s) && NoLower(s) && '\n' !in s
  }

  /**
   * Every symbol read is an entry; there are at most as many as lines; each is a line of
   * the file, normalised; and no line that holds more than whitespace is lost.
   */
  lemma SymbolsFromTextFacts(text: string)
    ensures forall x :: x in SymbolsFromText(text) ==> IsEntry(x)
    ensures |SymbolsFromText(text)| <= Newlines(text) + 1
    ensures forall x :: x in SymbolsFromText(text) ==> exists line :: line in SplitLines(text) && Normalize(line) == x
    ensures forall line :: line in SplitLines(text) && Normalize(line) != [] ==> Normalize(line) in SymbolsFromText(text)
  {
    var lines := SplitLines(text);
    var norm := NormalizeAll(lines);
    SplitLinesCount(text);
    forall x | x in SymbolsFromText(text) ensures IsEntry(x) && exists line :: line in lines && Normalize(line) == x {
      var t :| 0 <= t < |norm| && norm[t] == x;
      assert lines[t] in lines;
    }
    forall line | line in lines && Normalize(line) != [] ensures Normalize(line) in SymbolsFromText(text) {
      var t :| 0 <= t < |lines| && lines[t] == line;
      assert norm[t] in norm;
    }
  }

  /** filter(Boolean) decides element by element, so what it keeps stays in order. */
  lemma {:induction false} NonEmptyAppend(xs: seq<string>, ys: seq<string>)
    ensures NonEmpty(xs + ys) == NonEmpty(xs) + NonEmpty(ys)
    decreases |xs|
  {
    if xs == [] {
      assert xs + ys == ys;
    } else {
      assert (xs + ys)[0] == xs[0];
      assert (xs + ys)[1..] == xs[1..] + ys;
      NonEmptyAppend(xs[1..], ys);
    }
  }

  lemma NormalizeAllCons(x: string, xs: seq<string>)
    ensures NormalizeAll([x] + xs) == [Normalize(x)] + NormalizeAll(xs)
  {
  }

  lemma ConsAssoc(x: string, u: seq<string>, v: seq<string>)
    ensures [x] + (u + v) == ([x] + u) + v
  {
  }

  /** The first line of a text whose first "\n" is at i. */
  lemma SplitAt(s: string, i: nat)
    requires i < |s| && s[i] == '\n' && forall j :: 0 <= j < i ==> s[j] != '\n'
    ensures SplitLines(s) == [DropCr(s[..i])] + SplitLines(s[i + 1..])
  {
    IndexStopsAt(s, 0, i);
  }

  lemma {:induction false} LeadingPrefix(p: string, q: string, from: nat)
    requires q <= p && from <= |q| && Leading(q, from) < |q|
    ensures Leading(p, from) == Leading(q, from)
    decreases |q| - from
  {
    if IsJsSpace(q[from]) {
      LeadingPrefix(p, q, from + 1);
    }
  }

  lemma {:induction false} TrailingPrefix(p: string, q: string, upto: nat)
    requires q <= p && upto <= |q|
    ensures Trailing(p, upto) == Trailing(q, upto)
    decreases upto
  {
    if upto > 0 {
      TrailingPrefix(p, q, upto - 1);
    }
  }

  /** A trailing whitespace character does not change what trim() returns. */
  lemma TrimDropLast(p: string)
    requires |p| > 0 && IsJsSpace(p[|p| - 1])
    ensures Trim(p[..|p| - 1]) == Trim(p)
  {
    var q := p[..|p| - 1];
    if Leading(q, 0) < |q| {
      TrimDropLastWord(p);
      SlicePrefix(p, q, Leading(q, 0), Trailing(q, |q|));
    } else {
      TrimDropLastBlank(p);
    }
  }

  lemma TrimDropLastBlank(p: string)
    requires |p| > 0 && IsJsSpace(p[|p| - 1]) && Leading(p[..|p| - 1], 0) == |p| - 1
    ensures Trim(p[..|p| - 1]) == [] && Trim(p) == []
  {
    var q := p[..|p| - 1];
    forall j | 0 <= j < |p| ensures IsJsSpace(p[j]) {
      if j < |q| { assert q[j] == p[j]; }
    }
  }

  lemma JoinSlices(a: string, b: string, i: nat)
    requires i < |a|
    ensures (a + "\n" + b)[..i] == a[..i]
    ensures (a + "\n" + b)[i + 1..] == a[i + 1..] + "\n" + b
  {
  }

  lemma JoinSlicesAtEnd(a: string, b: string)
    ensures (a + "\n" + b)[..|a|] == a
    ensures (a + "\n" + b)[|a| + 1..] == b
  {
  }

  lemma SlicePrefix(p: string, q: string, lo: nat, hi: nat)
    requires q <= p && lo <= hi <= |q|
    ensures q[lo..hi] == p[lo..hi]
  {
    assert q == p[..|q|];
  }

  lemma TrimDropLastWord(p: string)
    requires |p| > 0 && IsJsSpace(p[|p| - 1]) && Leading(p[..|p| - 1], 0) < |p| - 1
    ensures Leading(p, 0) == Leading(p[..|p| - 1], 0)
    ensures Trailing(p, |p|) == Trailing(p[..|p| - 1], |p| - 1)
  {
    var q := p[..|p| - 1];
    LeadingPrefix(p, q, 0);
    TrailingPrefix(p, q, |q|);
    assert Trailing(p, |p|) == Trailing(p, |q|);
  }

  /** The "\r" that split(/\r?\n/) takes into the separator would have been trimmed anyway. */
  lemma NormalizeDropCr(p: string)
    ensures Normalize(DropCr(p)) == Normalize(p)
  {
    if |p| > 0 && p[|p| - 1] == '\r' {
      TrimDropLast(p);
    }
  }

  lemma {:induction false} NormalizedSplitJoin(a: string, b: string)
    ensures NormalizeAll(SplitLines(a + "\n" + b)) == NormalizeAll(SplitLines(a)) + NormalizeAll(SplitLines(b))
    decreases |a|
  {
    var i := IndexOfNewline(a, 0);
    if i == |a| {
      NormalizedSplitJoinLast(a, b);
    } else {
      NormalizedSplitJoin(a[i + 1..], b);
      NormalizedSplitJoinStep(a, b, i);
    }
  }

  /** The last line of a joins the separator "\n" of the joined text. */
  lemma NormalizedSplitJoinLast(a: string, b: string)
    requires IndexOfNewline(a, 0) == |a|
    ensures NormalizeAll(SplitLines(a + "\n" + b)) == NormalizeAll(SplitLines(a)) + NormalizeAll(SplitLines(b))
  {
    var s := a + "\n" + b;
    var i := |a|;
    assert forall j :: 0 <= j < i ==> s[j] != '\n' by {
      forall j | 0 <= j < i ensures s[j] != '\n' { assert s[j] == a[j]; }
    }
    assert s[i] == '\n';
    SplitAt(s, i);
    JoinSlicesAtEnd(a, b);
    assert '\n' !in a by { assert forall j :: 0 <= j < |a| ==> a[j] != '\n'; }
    SplitSingle(a);
    NormalizeDropCr(a);
    NormalizeAllCons(DropCr(a), SplitLines(b));
    NormalizeAllCons(a, []);
    assert NormalizeAll(SplitLines(s)) == [Normalize(a)] + NormalizeAll(SplitLines(b));
    assert NormalizeAll(SplitLines(a)) == [Normalize(a)];
  }

  /** A line of a ending at its first "\n", i, is also the first line of the joined text. */
  lemma NormalizedSplitJoinStep(a: string, b: string, i: nat)
    requires i == IndexOfNewline(a, 0) < |a|
    requires NormalizeAll(SplitLines(a[i + 1..] + "\n" + b))
             == NormalizeAll(SplitLines(a[i + 1..])) + NormalizeAll(SplitLines(b))
    ensures NormalizeAll(SplitLines(a + "\n" + b)) == NormalizeAll(SplitLines(a)) + NormalizeAll(SplitLines(b))
  {
    SplitJoinedFirst(a, b, i);
    ConsJoin(DropCr(a[..i]), SplitLines(a[i + 1..] + "\n" + b), SplitLines(a[i + 1..]), SplitLines(b));
  }

  lemma SplitJoinedFirst(a: string, b: string, i: nat)
    requires i == IndexOfNewline(a, 0) < |a|
    ensures SplitLines(a + "\n" + b) == [DropCr(a[..i])] + SplitLines(a[i + 1..] + "\n" + b)
    ensures SplitLines(a) == [DropCr(a[..i])] + SplitLines(a[i + 1..])
  {
    var s := a + "\n" + b;
    assert forall j :: 0 <= j < i ==> s[j] != '\n' by {
      forall j | 0 <= j < i ensures s[j] != '\n' { assert s[j] == a[j]; }
    }
    assert s[i] == a[i];
    SplitAt(s, i);
    SplitAt(a, i);
    JoinSlices(a, b, i);
  }

  lemma ConsJoin(x: string, restS: seq<string>, restA: seq<string>, rest: seq<string>)
    requires NormalizeAll(restS) == NormalizeAll(restA) + NormalizeAll(rest)
    ensures NormalizeAll([x] + restS) == NormalizeAll([x] + restA) + NormalizeAll(rest)
  {
    NormalizeAllCons(x, restS);
    NormalizeAllCons(x, restA);
    ConsAssoc(Normalize(x), NormalizeAll(restA), NormalizeAll(rest));
  }

  /**
   * Reading two texts joined by a line break gives the first text's symbols followed by the
   * second's: the reader keeps the order and the multiplicity of the lines.
   */
  lemma ReadJoined(a: string, b: string)
    ensures SymbolsFromText(a + "\n" + b) == SymbolsFromText(a) + SymbolsFromText(b)
  {
    NormalizedSplitJoin(a, b);
    NonEmptyAppend(NormalizeAll(SplitLines(a)), NormalizeAll(SplitLines(b)));
  }

  /** A text without a line break reads as its normalised line, or as nothing when that is blank. */
  lemma ReadOneLine(line: string)
    requires '\n' !in line
    ensures SymbolsFromText(line) == if Normalize(line) == [] then [] else [Normalize(line)]
  {
    SplitSingle(line);
  }

  // ---------------------------------------------------------------- writing a list back

  function Separator(crlf: bool): string {
    if crlf then "\r\n" else "\n"
  }

  /** The entries one per line, with "\n" or "\r\n" between them. */
  function JoinLines(xs: seq<string>, crlf: bool): string {
    if |xs| == 0 then ""
    else if |xs| == 1 then xs[0]
    else xs[0] + Separator(crlf) + JoinLines(xs[1..], crlf)
  }

  lemma {:induction false} SplitJoin(xs: seq<string>, crlf: bool)
    requires |xs| >= 1
    requires forall t :: 0 <= t < |xs| ==> IsEntry(xs[t])
    ensures SplitLines(JoinLines(xs, crlf)) == xs
    decreases |xs|
  {
    if |xs| == 1 {
      SplitSingle(xs[0]);
    } else {
      SplitJoined(xs[0], JoinLines(xs[1..], crlf), crlf);
      SplitJoin(xs[1..], crlf);
      assert xs == [xs[0]] + xs[1..];
    }
  }

  /** A text without a line break is one line. */
  lemma SplitSingle(s: string)
    requires '\n' !in s
    ensures SplitLines(s) == [s]
  {
    assert forall j :: 0 <= j < |s| ==> s[j] != '\n' by {
      forall j | 0 <= j < |s| ensures s[j] != '\n' { assert s[j] in s; }
    }
  }

  /** An entry followed by a separator splits off as the first line. */
  lemma SplitJoined(x: string, rest: string, crlf: bool)
    requires IsEntry(x)
    ensures SplitLines(x + Separator(crlf) + rest) == [x] + SplitLines(rest)
  {
    var sep := Separator(crlf);
    var s := x + sep + rest;
    var i := |x| + |sep| - 1;
    assert s[i] == '\n';
    assert forall j :: 0 <= j < i ==> s[j] != '\n' by {
      forall j | 0 <= j < i ensures s[j] != '\n' {
        if j < |x| { assert s[j] == x[j]; assert x[j] in x; } else { assert s[j] == '\r'; }
      }
    }
    IndexStopsAt(s, 0, i);
    assert s[..i] == x + sep[..|sep| - 1];
    assert DropCr(s[..i]) == x by {
      if crlf {
        assert s[..i] == x + "\r";
        assert (x + "\r")[..|x|] == x;
      } else {
        assert s[..i] == x;
        assert x != [] && !IsJsSpace(x[|x| - 1]);
      }
    }
    assert s[i + 1..] == rest;
  }

  lemma {:induction false} IndexStopsAt(s: string, from: nat, i: nat)
    requires from <= i < |s| && s[i] == '\n'
    requires forall j :: from <= j < i ==> s[j] != '\n'
    ensures IndexOfNewline(s, from) == i
    decreases i - from
  {
    if from < i {
      IndexStopsAt(s, from + 1, i);
    }
  }

  lemma {:induction false} NormalizeEntries(xs: seq<string>)
    requires forall t :: 0 <= t < |xs| ==> IsEntry(xs[t])
    ensures NonEmpty(NormalizeAll(xs)) == xs
    decreases |xs|
  {
    var norm := NormalizeAll(xs);
    if xs != [] {
      TrimOfTrimmed(xs[0]);
      UpperOfUpper(xs[0]);
      assert norm[0] == xs[0];
      assert NormalizeAll(xs)[1..] == NormalizeAll(xs[1..]);
      NormalizeEntries(xs[1..]);
      assert xs == [xs[0]] + xs[1..];
    }
  }

  /**
   * A list of entries written one per line, with either line ending, reads back as the
   * same list.
   */
  lemma WriteThenRead(xs: seq<string>, crlf: bool)
    requires forall t :: 0 <= t < |xs| ==> IsEntry(xs[t])
    ensures SymbolsFromText(JoinLines(xs, crlf)) == xs
  {
    if xs == [] {
      assert SplitLines("") == [""];
      assert NormalizeAll([""]) == [""];
    } else {
      SplitJoin(xs, crlf);
      NormalizeEntries(xs);
    }
  }

  /** Reading, writing back and reading again gives the list of the first read. */
  lemma ReadIdempotent(text: string, crlf: bool)
    ensures SymbolsFromText(JoinLines(SymbolsFromText(text), crlf)) == SymbolsFromText(text)
  {
    var xs := SymbolsFromText(text);
    SymbolsFromTextFacts(text);
    assert forall t :: 0 <= t < |xs| ==> xs[t] in xs;
    WriteThenRead(xs, crlf);
  }

  lemma TrimExample()
    ensures Trim(" a") == "a"
    ensures Trim("b\rc ") == "b\rc"
  {
    assert Leading(" a", 0) == 1;
    assert Trailing(" a", 2) == 2;
    assert " a"[1..2] == "a";
    assert Leading("b\rc ", 0) == 0;
    assert Trailing("b\rc ", 4) == 3;
    assert "b\rc "[0..3] == "b\rc";
  }

  lemma NormalizeExample()
    ensures Normalize(" a") == "A"
    ensures Normalize("b\rc ") == "B\rC"
  {
    TrimExample();
    assert Upper("a") == "A";
    assert Upper("b\rc") == "B\rC";
  }

  /**
   * A "\r" inside a line is kept: only the line ends and the line's own ends are touched.
   * Written with "\r\n" line ends, the list reads back as it was.
   */
  lemma InteriorCrKept()
    ensures SymbolsFromText(JoinLines(["A", "B\rC"], true)) == ["A", "B\rC"]
  {
    assert IsEntry("A") && IsEntry("B\rC");
    WriteThenRead(["A", "B\rC"], true);
  }
}
