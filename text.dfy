/** String operations with the meaning Python's `str` methods give them:
    `strip`, `split` on one character, `join`, `replace`, `in`, `startswith`,
    `endswith`, `upper`, `lower`, `str(n)` and `int(digits)`. */
module Text {

  /** Python's `str.isspace`, restricted to the ASCII range. */
  predicate IsSpace(c: char) {
    c == ' ' || c == '\t' || c == '\n' || c == '\r' || c == '\U{0B}' || c == '\U{0C}'
    || c == '\U{1C}' || c == '\U{1D}' || c == '\U{1E}' || c == '\U{1F}'
  }

  predicate IsDigit(c: char) { '0' <= c <= '9' }

  predicate StartsWith(s: string, p: string) {
    |p| <= |s| && s[..|p|] == p
  }

  predicate EndsWith(s: string, p: string) {
    |p| <= |s| && s[|s| - |p|..] == p
  }

  /** Python's `p in s`. */
  predicate Contains(s: string, p: string)
    decreases |s|
  {
    StartsWith(s, p) || (s != [] && Contains(s[1..], p))
  }

  /** `any(p in t for p in phrases)`. */
  predicate HasAny(t: string, phrases: seq<string>) {
    exists i :: 0 <= i < |phrases| && Contains(t, phrases[i])
  }

  /** Index of the first occurrence of `p` in `s`. */
  function IndexOf(s: string, p: string): (r: nat)
    requires Contains(s, p)
    ensures r + |p| <= |s| && s[r..r + |p|] == p
    ensures forall j :: 0 <= j < r ==> !StartsWith(s[j..], p)
    decreases |s|
  {
    if StartsWith(s, p) then 0
    else
      assert forall j :: 1 <= j <= |s| ==> s[j..] == s[1..][j - 1..];
      1 + IndexOf(s[1..], p)
  }

  lemma {:induction false} ContainsAt(s: string, p: string, i: nat)
    requires i + |p| <= |s| && s[i..i + |p|] == p
    ensures Contains(s, p)
    decreases i
  {
    if i > 0 {
      assert s[1..][i - 1..i - 1 + |p|] == s[i..i + |p|];
      ContainsAt(s[1..], p, i - 1);
    }
  }

  lemma {:induction false} ContainsSuffix(s: string, p: string, i: nat)
    requires i <= |s| && Contains(s[i..], p)
    ensures Contains(s, p)
  {
    var k := IndexOf(s[i..], p);
    forall m | 0 <= m < |p| ensures s[i + k + m] == p[m] {
      assert s[i..][k..k + |p|][m] == p[m];
    }
    assert s[i + k..i + k + |p|] == p;
    ContainsAt(s, p, i + k);
  }

  lemma {:induction false} ContainsPrefix(s: string, p: string, i: nat)
    requires i <= |s| && Contains(s[..i], p)
    ensures Contains(s, p)
  {
    var k := IndexOf(s[..i], p);
    forall m | 0 <= m < |p| ensures s[k + m] == p[m] {
      assert s[..i][k..k + |p|][m] == p[m];
    }
    assert s[k..k + |p|] == p;
    ContainsAt(s, p, k);
  }

  lemma ContainsConcat(a: string, b: string, p: string)
    requires Contains(a, p) || Contains(b, p)
    ensures Contains(a + b, p)
  {
    if Contains(a, p) {
      assert (a + b)[..|a|] == a;
      ContainsPrefix(a + b, p, |a|);
    } else {
      assert (a + b)[|a|..] == b;
      ContainsSuffix(a + b, p, |a|);
    }
  }

  /** A character that never occurs in `s` cannot begin an occurrence of any
      pattern that starts with it. */
  lemma {:induction false} NotContainsChar(s: string, p: string)
    requires |p| > 0 && p[0] !in s
    ensures !Contains(s, p)
    decreases |s|
  {
    if s != [] {
      assert s[1..] <= s[1..];
      forall c | c in s[1..] ensures c in s { }
      NotContainsChar(s[1..], p);
    }
  }

  function LStrip(s: string): (r: string)
    ensures |r| <= |s|
    ensures r == [] || !IsSpace(r[0])
    ensures forall i :: 0 <= i < |s| - |r| ==> IsSpace(s[i])
  {
    if s != [] && IsSpace(s[0]) then LStrip(s[1..]) else s
  }

  function RStrip(s: string): (r: string)
    ensures |r| <= |s|
    ensures r == [] || !IsSpace(r[|r| - 1])
    ensures forall i :: |r| <= i < |s| ==> IsSpace(s[i])
  {
    if s != [] && IsSpace(s[|s| - 1]) then RStrip(s[..|s| - 1]) else s
  }

  /** Stripping the left end keeps a suffix of the text. */
  lemma {:induction false} LStripSuffix(s: string)
    ensures LStrip(s) == s[|s| - |LStrip(s)|..]
    decreases |s|
  {
    if s != [] && IsSpace(s[0]) {
      LStripSuffix(s[1..]);
    }
  }

  /** Stripping the right end keeps a prefix of the text. */
  lemma {:induction false} RStripPrefix(s: string)
    ensures RStrip(s) == s[..|RStrip(s)|]
    decreases |s|
  {
    if s != [] && IsSpace(s[|s| - 1]) {
      RStripPrefix(s[..|s| - 1]);
    }
  }

  /** Python's `str.strip()`. */
  function Strip(s: string): (r: string)
    ensures |r| <= |s|
    ensures r == [] || (!IsSpace(r[0]) && !IsSpace(r[|r| - 1]))
  {
    RStripPrefix(LStrip(s));
    RStrip(LStrip(s))
  }

  /** A string with a non-space character does not strip to nothing. */
  lemma StripNonEmpty(s: string, i: nat)
    requires i < |s| && !IsSpace(s[i])
    ensures Strip(s) != []
  {
    var l := LStrip(s);
    LStripSuffix(s);
    assert l != [];
    assert l[i - (|s| - |l|)] == s[i];
  }

  /** A string with no whitespace at either end is its own strip. */
  predicate Stripped(s: string) {
    s == [] || (!IsSpace(s[0]) && !IsSpace(s[|s| - 1]))
  }

  lemma StripStripped(s: string)
    requires Stripped(s)
    ensures Strip(s) == s
  {
  }

  lemma StripIdempotent(s: string)
    ensures Strip(Strip(s)) == Strip(s)
  {
    StripStripped(Strip(s));
  }

  lemma LStripLeadingSpace(s: string)
    ensures LStrip(" " + s) == LStrip(s)
  {
    assert (" " + s)[1..] == s;
  }

  lemma RStripTrailingSpace(s: string)
    ensures RStrip(s + " ") == RStrip(s)
  {
    assert (s + " ")[..|s|] == s;
  }

  /** Stripping a cell padded with one space on each side gives back the cell. */
  lemma StripPadded(c: string)
    requires Stripped(c)
    ensures Strip(" " + c + " ") == c
  {
    var padded := " " + c + " ";
    assert padded == " " + (c + " ");
    LStripLeadingSpace(c + " ");
    if c == [] {
      assert c + " " == " " + c;
      LStripLeadingSpace(c);
    } else {
      assert (c + " ")[0] == c[0];
      RStripTrailingSpace(c);
    }
  }

  /** Python's `s.split(c)` for a one-character separator. */
  function Split(s: string, c: char): (r: seq<string>)
    ensures |r| >= 1
  {
    if s == [] then [""]
    else if s[0] == c then [""] + Split(s[1..], c)
    else var t := Split(s[1..], c); [[s[0]] + t[0]] + t[1..]
  }

  /** Python's `sep.join(xs)`. */
  function Join(xs: seq<string>, sep: string): string {
    if xs == [] then ""
    else if |xs| == 1 then xs[0]
    else xs[0] + sep + Join(xs[1..], sep)
  }

  lemma JoinSingle(x: string, sep: string)
    ensures Join([x], sep) == x
  {
  }

  lemma {:induction false} JoinAppend(xs: seq<string>, y: string, sep: string)
    requires xs != []
    ensures Join(xs + [y], sep) == Join(xs, sep) + sep + y
  {
    if |xs| == 1 {
      assert (xs + [y])[1..] == [y];
    } else {
      assert (xs + [y])[1..] == xs[1..] + [y];
      JoinAppend(xs[1..], y, sep);
    }
  }

  /** Every piece occurs in the joined text, and the first begins it. */
  lemma {:induction false} JoinHolds(xs: seq<string>, sep: string, i: nat)
    requires i < |xs|
    ensures Contains(Join(xs, sep), xs[i])
    ensures StartsWith(Join(xs, sep), xs[0])
    decreases |xs|
  {
    var j := Join(xs, sep);
    if |xs| > 1 {
      assert j == (xs[0] + sep) + Join(xs[1..], sep);
      if i > 0 {
        JoinHolds(xs[1..], sep, i - 1);
        ContainsConcat(xs[0] + sep, Join(xs[1..], sep), xs[i]);
      }
    }
    assert j[..|xs[0]|] == xs[0];
    if i == 0 {
      ContainsAt(j, xs[0], 0);
    }
  }

  /** Splitting on `c` and joining with `c` gives back the string. */
  lemma {:induction false} JoinSplit(s: string, c: char)
    ensures Join(Split(s, c), [c]) == s
  {
    if s == [] {
    } else if s[0] == c {
      JoinSplit(s[1..], c);
      assert [s[0]] + s[1..] == s;
    } else {
      var t := Split(s[1..], c);
      JoinSplit(s[1..], c);
      if |t| == 1 {
      } else {
        assert ([[s[0]] + t[0]] + t[1..])[1..] == t[1..];
        assert Join(t, [c]) == t[0] + [c] + Join(t[1..], [c]);
      }
    }
  }

  /** Joining pieces free of `c` with `c` and splitting again gives the pieces. */
  lemma {:induction false} SplitJoin(xs: seq<string>, c: char)
    requires |xs| >= 1
    requires forall i :: 0 <= i < |xs| ==> c !in xs[i]
    ensures Split(Join(xs, [c]), c) == xs
    decreases |xs|, |xs[0]|
  {
    if |xs| == 1 {
      SplitNoSep(xs[0], c);
    } else if xs[0] == [] {
      assert Join(xs, [c]) == [c] + Join(xs[1..], [c]);
      SplitJoin(xs[1..], c);
      assert [xs[0]] + xs[1..] == xs;
    } else {
      var ys := [xs[0][1..]] + xs[1..];
      forall i | 0 <= i < |ys| ensures c !in ys[i] {
        if i == 0 { assert forall ch :: ch in xs[0][1..] ==> ch in xs[0]; }
      }
      SplitJoin(ys, c);
      assert ys[1..] == xs[1..];
      assert Join(xs, [c]) == [xs[0][0]] + Join(ys, [c]);
      assert xs[0][0] != c by { assert xs[0][0] in xs[0]; }
      assert [xs[0][0]] + xs[0][1..] == xs[0];
      assert Split(Join(xs, [c]), c) == [[xs[0][0]] + ys[0]] + ys[1..];
    }
  }

  lemma {:induction false} SplitNoSep(s: string, c: char)
    requires c !in s
    ensures Split(s, c) == [s]
  {
    if s != [] {
      assert s[0] in s;
      assert forall ch :: ch in s[1..] ==> ch in s;
      SplitNoSep(s[1..], c);
      assert [s[0]] + s[1..] == s;
    }
  }

  /** Python's `s.replace(pat, rep)`: every non-overlapping occurrence of
      `pat`, scanning from the left; an empty `pat` inserts `rep` around every
      character. */
  function ReplaceAll(s: string, pat: string, rep: string): string
    decreases |s|
  {
    if pat == [] then
      (if s == [] then rep else rep + [s[0]] + ReplaceAll(s[1..], pat, rep))
    else if s == [] then []
    else if StartsWith(s, pat) then rep + ReplaceAll(s[|pat|..], pat, rep)
    else [s[0]] + ReplaceAll(s[1..], pat, rep)
  }

  /** A string that does not contain `pat` is left as it is. */
  lemma {:induction false} ReplaceAbsent(s: string, pat: string, rep: string)
    requires !Contains(s, pat)
    ensures ReplaceAll(s, pat, rep) == s
    decreases |s|
  {
    if s != [] {
      ReplaceAbsent(s[1..], pat, rep);
      assert [s[0]] + s[1..] == s;
    }
  }

  /** Replacing with the empty string never lengthens the text, and
      shortens it when the pattern occurs. */
  lemma {:induction false} ReplaceByEmptyShrinks(s: string, pat: string)
    requires pat != []
    ensures |ReplaceAll(s, pat, "")| <= |s|
    ensures Contains(s, pat) ==> |ReplaceAll(s, pat, "")| < |s|
    decreases |s|
  {
    if s != [] {
      if StartsWith(s, pat) {
        ReplaceByEmptyShrinks(s[|pat|..], pat);
      } else {
        ReplaceByEmptyShrinks(s[1..], pat);
      }
    }
  }

  /** Where the pattern occurs, the replacement shows up. */
  lemma {:induction false} ReplacePresent(s: string, pat: string, rep: string)
    requires pat != [] && Contains(s, pat)
    ensures Contains(ReplaceAll(s, pat, rep), rep)
    decreases |s|
  {
    if StartsWith(s, pat) {
      ContainsAt(ReplaceAll(s, pat, rep), rep, 0);
    } else {
      ReplacePresent(s[1..], pat, rep);
      ContainsSuffix([s[0]] + ReplaceAll(s[1..], pat, rep), rep, 1);
    }
  }

  /** The stripped text is a piece of the text. */
  lemma {:induction false} StripInside(s: string)
    ensures Contains(s, Strip(s))
  {
    var l := LStrip(s);
    var r := Strip(s);
    LStripSuffix(s);
    RStripPrefix(l);
    assert r == RStrip(l);
    assert r == s[|s| - |l|..|s| - |l| + |r|];
    ContainsAt(s, r, |s| - |l|);
  }

  function UpperChar(c: char): char {
    if 'a' <= c <= 'z' then (c as int - 32) as char else c
  }

  function LowerChar(c: char): char {
    if 'A' <= c <= 'Z' then (c as int + 32) as char else c
  }

  /** Python's `str.upper()` on ASCII letters. */
  function Upper(s: string): (r: string)
    ensures |r| == |s|
    ensures forall i :: 0 <= i < |s| ==> r[i] == UpperChar(s[i])
  {
    seq(|s|, i requires 0 <= i < |s| => UpperChar(s[i]))
  }

  /** Python's `str.lower()` on ASCII letters. */
  function Lower(s: string): (r: string)
    ensures |r| == |s|
    ensures forall i :: 0 <= i < |s| ==> r[i] == LowerChar(s[i])
  {
    seq(|s|, i requires 0 <= i < |s| => LowerChar(s[i]))
  }

  function DigitChar(d: nat): char
    requires d < 10
  {
    ('0' as int + d) as char
  }

  /** Python's `str(n)` for a natural number. */
  function NatToString(n: nat): (r: string)
    ensures |r| >= 1
    ensures forall i :: 0 <= i < |r| ==> IsDigit(r[i])
  {
    if n < 10 then [DigitChar(n)] else NatToString(n / 10) + [DigitChar(n % 10)]
  }

  /** Python's `int(s)` for a string of ASCII digits. */
  function DigitsValue(s: string): nat
    requires forall i :: 0 <= i < |s| ==> IsDigit(s[i])
  {
    if s == [] then 0
    else
      assert IsDigit(s[|s| - 1]);
      10 * DigitsValue(s[..|s| - 1]) + (s[|s| - 1] as int - '0' as int)
  }

  /** `int(str(n)) == n`. */
  lemma {:induction false} DigitsValueOfNat(n: nat)
    ensures DigitsValue(NatToString(n)) == n
  {
    if n >= 10 {
      var r := NatToString(n);
      assert r[..|r| - 1] == NatToString(n / 10);
      DigitsValueOfNat(n / 10);
    }
  }

  /** Different numbers print differently. */
  lemma NatToStringInjective(m: nat, n: nat)
    requires NatToString(m) == NatToString(n)
    ensures m == n
  {
    DigitsValueOfNat(m);
    DigitsValueOfNat(n);
  }

  /** Longest prefix of ASCII digits. */
  function DigitPrefix(s: string): (r: nat)
    ensures r <= |s|
    ensures forall i :: 0 <= i < r ==> IsDigit(s[i])
    ensures r == |s| || !IsDigit(s[r])
  {
    if s != [] && IsDigit(s[0]) then 1 + DigitPrefix(s[1..]) else 0
  }

  /** The digits of a number, read as a prefix. */
  lemma {:induction false} DigitPrefixOfNumber(digits: string, rest: string)
    requires forall i :: 0 <= i < |digits| ==> IsDigit(digits[i])
    requires rest == [] || !IsDigit(rest[0])
    ensures DigitPrefix(digits + rest) == |digits|
    decreases |digits|
  {
    if digits != [] {
      assert (digits + rest)[1..] == digits[1..] + rest;
      DigitPrefixOfNumber(digits[1..], rest);
    } else {
      assert digits + rest == rest;
    }
  }

  /** Longest prefix of whitespace. */
  function SpacePrefix(s: string): (r: nat)
    ensures r <= |s|
    ensures forall i :: 0 <= i < r ==> IsSpace(s[i])
    ensures r == |s| || !IsSpace(s[r])
  {
    if s != [] && IsSpace(s[0]) then 1 + SpacePrefix(s[1..]) else 0
  }

  /** Python's slice `xs[1:-1]`. */
  function Inner<T>(xs: seq<T>): seq<T> {
    if |xs| >= 2 then xs[1..|xs| - 1] else []
  }

  /** `[c.strip() for c in line.split('|')[1:-1]]`: the cells of a pipe-table line. */
  function Cells(line: string): (r: seq<string>)
    ensures |r| == |Inner(Split(line, '|'))|
  {
    var parts := Inner(Split(line, '|'));
    seq(|parts|, i requires 0 <= i < |parts| => Strip(parts[i]))
  }

  /** A Markdown pipe-table row `| c1 | c2 | ... |`, as the renderer writes one. */
  function PipeRow(cells: seq<string>): string {
    "| " + Join(cells, " | ") + " |"
  }

  /** A cell that a pipe row can carry without changing the row's shape. */
  predicate CleanCell(c: string) {
    '|' !in c && Stripped(c)
  }

  /** Reading the cells back from a rendered pipe row gives the cells. */
  lemma {:induction false} CellsOfPipeRow(cells: seq<string>)
    requires |cells| >= 1
    requires forall i :: 0 <= i < |cells| ==> CleanCell(cells[i])
    ensures Cells(PipeRow(cells)) == cells
  {
    var padded := seq(|cells|, i requires 0 <= i < |cells| => " " + cells[i] + " ");
    SplitPipeRow(cells);
    assert Inner(Split(PipeRow(cells), '|')) == padded;
    forall i | 0 <= i < |cells| ensures Strip(padded[i]) == cells[i] {
      StripPadded(cells[i]);
    }
  }

  /** Splitting a rendered pipe row on `|` gives the padded cells between two
      empty pieces. */
  lemma {:induction false} SplitPipeRow(cells: seq<string>)
    requires |cells| >= 1
    requires forall i :: 0 <= i < |cells| ==> CleanCell(cells[i])
    ensures Split(PipeRow(cells), '|')
         == [""] + seq(|cells|, i requires 0 <= i < |cells| => " " + cells[i] + " ") + [""]
  {
    var padded := seq(|cells|, i requires 0 <= i < |cells| => " " + cells[i] + " ");
    var pieces := [""] + padded + [""];
    forall i | 0 <= i < |pieces| ensures '|' !in pieces[i] {
      if 0 < i < |pieces| - 1 {
        assert pieces[i] == " " + cells[i - 1] + " ";
      }
    }
    JoinPadded(cells);
    SplitJoin(pieces, '|');
  }

  /** Joining the padded cells around `|` spells the pipe row. */
  lemma {:induction false} JoinPadded(cells: seq<string>)
    requires |cells| >= 1
    ensures Join([""] + seq(|cells|, i requires 0 <= i < |cells| => " " + cells[i] + " ") + [""], "|")
         == PipeRow(cells)
  {
    var padded := seq(|cells|, i requires 0 <= i < |cells| => " " + cells[i] + " ");
    JoinPaddedBody(cells);
    assert ([""] + padded + [""])[1..] == padded + [""];
    JoinAppend(padded, "", "|");
    assert Join([""] + padded + [""], "|") == "" + "|" + Join(padded + [""], "|");
  }

  lemma {:induction false} JoinPaddedBody(cells: seq<string>)
    requires |cells| >= 1
    ensures Join(seq(|cells|, i requires 0 <= i < |cells| => " " + cells[i] + " "), "|")
         == " " + Join(cells, " | ") + " "
  {
    var padded := seq(|cells|, i requires 0 <= i < |cells| => " " + cells[i] + " ");
    if |cells| > 1 {
      var tail := seq(|cells| - 1, i requires 0 <= i < |cells| - 1 => " " + cells[1..][i] + " ");
      assert padded[1..] == tail;
      JoinPaddedBody(cells[1..]);
    }
  }
}
