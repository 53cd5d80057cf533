/** Text helpers shared by the repository descriptor: prefix and suffix tests,
    the blank/tab word splitter, line listings read up to the first empty
    line, and decimal rendering of unsigned numbers. */
module RepoText {

  datatype Option<T> = None | Some(value: T)

  predicate StartsWith(s: string, p: string) {
    |p| <= |s| && s[..|p|] == p
  }

  predicate EndsWith(s: string, p: string) {
    |p| <= |s| && s[|s| - |p|..] == p
  }

  // ---------------------------------------------------------------------
  // Word splitting: the separators are blank and tab; leading separators
  // and runs of separators produce no empty words.

  predicate IsSep(c: char) {
    c == ' ' || c == '\t'
  }

  predicate IsWord(w: string) {
    |w| > 0 && forall i :: 0 <= i < |w| ==> !IsSep(w[i])
  }

  /** Length of the leading run of non-separator characters. */
  function TokenLength(s: string): (n: nat)
    ensures n <= |s|
    ensures forall i :: 0 <= i < n ==> !IsSep(s[i])
    ensures n < |s| ==> IsSep(s[n])
  {
    if s == [] || IsSep(s[0]) then 0 else 1 + TokenLength(s[1..])
  }

  /** The words of a line, left to right. */
  function Words(s: string): (ws: seq<string>)
    ensures forall i :: 0 <= i < |ws| ==> IsWord(ws[i])
    decreases |s|
  {
    if s == [] then []
    else if IsSep(s[0]) then Words(s[1..])
    else
      var n := TokenLength(s);
      [s[..n]] + Words(s[n..])
  }

  /** Words joined by single blanks: the inverse of Words on well-formed words. */
  function JoinWords(ws: seq<string>): string {
    if ws == [] then "" else if |ws| == 1 then ws[0] else ws[0] + " " + JoinWords(ws[1..])
  }

  lemma {:induction false} TokenOfWord(w: string, rest: string)
    requires IsWord(w)
    requires rest == [] || IsSep(rest[0])
    ensures TokenLength(w + rest) == |w|
    decreases |w|
  {
    if |w| > 1 {
      assert (w + rest)[1..] == w[1..] + rest;
      TokenOfWord(w[1..], rest);
    }
  }

  /** Splitting blank-joined words gives the words back. */
  lemma {:induction false} WordsOfJoin(ws: seq<string>)
    requires forall i :: 0 <= i < |ws| ==> IsWord(ws[i])
    ensures Words(JoinWords(ws)) == ws
  {
    if ws == [] {
    } else if |ws| == 1 {
      TokenOfWord(ws[0], []);
      assert ws[0] + [] == ws[0];
      assert ws[0][|ws[0]|..] == [];
    } else {
      var w, tail := ws[0], JoinWords(ws[1..]);
      var s := w + " " + tail;
      TokenOfWord(w, " " + tail);
      assert s == w + (" " + tail);
      assert s[..|w|] == w;
      assert s[|w|..] == " " + tail;
      assert (" " + tail)[1..] == tail;
      WordsOfJoin(ws[1..]);
      assert ws == [w] + ws[1..];
    }
  }

  /** A line that starts with a non-blank tag has a first word that starts with it. */
  lemma {:induction false} FirstWordStartsWithTag(line: string, tag: string)
    requires IsWord(tag)
    requires StartsWith(line, tag)
    ensures |Words(line)| >= 1
    ensures StartsWith(Words(line)[0], tag)
    ensures |Words(line)[0]| == |tag| <==> Words(line)[0] == tag
  {
    var n := TokenLength(line);
    assert !IsSep(line[0]) by { assert line[0] == tag[0]; }
    TokenPrefix(line, tag);
    assert Words(line)[0] == line[..n];
    assert line[..n][..|tag|] == tag;
  }

  lemma {:induction false} TokenPrefix(s: string, p: string)
    requires IsWord(p) && StartsWith(s, p)
    ensures |p| <= TokenLength(s)
    decreases |p|
  {
    if |p| > 1 {
      assert s[1..][..|p| - 1] == p[1..];
      TokenPrefix(s[1..], p[1..]);
    }
  }

  // ---------------------------------------------------------------------
  // Listings: a program's output read line by line until the first empty
  // line (the end of the output also reads as an empty line).

  function UntilEmpty(lines: seq<string>): (r: seq<string>)
    ensures |r| <= |lines| && r == lines[..|r|]
    ensures "" !in r
    ensures |r| < |lines| ==> lines[|r|] == ""
  {
    if lines == [] || lines[0] == "" then [] else [lines[0]] + UntilEmpty(lines[1..])
  }

  /** The three properties of UntilEmpty determine it. */
  lemma UntilEmptyUnique(lines: seq<string>, n: nat)
    requires n <= |lines|
    requires "" !in lines[..n]
    requires n == |lines| || lines[n] == ""
    ensures UntilEmpty(lines) == lines[..n]
  {
  }

  /** Concatenation of the lines read before the first empty one. */
  function Concat(ls: seq<string>): string {
    if ls == [] then "" else Concat(ls[..|ls| - 1]) + ls[|ls| - 1]
  }

  // ---------------------------------------------------------------------
  // Decimal rendering of an unsigned number, as a stream prints it.

  function Digit(d: nat): char
    requires d < 10
  {
    "0123456789"[d]
  }

  function DigitValue(c: char): nat {
    if '0' <= c <= '9' then (c - '0') as nat else 0
  }

  function Decimal(n: nat): (s: string)
    ensures |s| >= 1
    ensures forall i :: 0 <= i < |s| ==> '0' <= s[i] <= '9'
  {
    if n < 10 then [Digit(n)] else Decimal(n / 10) + [Digit(n % 10)]
  }

  function ParseDecimal(s: string): nat {
    if s == [] then 0 else 10 * ParseDecimal(s[..|s| - 1]) + DigitValue(s[|s| - 1])
  }

  /** Reading a rendered number gives the number back. */
  lemma {:induction false} DecimalRoundTrip(n: nat)
    ensures ParseDecimal(Decimal(n)) == n
  {
    if n >= 10 {
      var s := Decimal(n);
      assert s[..|s| - 1] == Decimal(n / 10);
      assert s[|s| - 1] == Digit(n % 10);
      DecimalRoundTrip(n / 10);
      DigitRoundTrip(n % 10);
      assert n == 10 * (n / 10) + n % 10;
    } else {
      DigitRoundTrip(n);
    }
  }

  lemma DigitRoundTrip(d: nat)
    requires d < 10
    ensures DigitValue(Digit(d)) == d
  {
  }
}
