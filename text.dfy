/**
 * Text helpers shared by the logger and the scanner: the pieces of C++ stream
 * formatting the tool relies on (`std::setw` with right alignment, inserting a
 * non-negative integer, and `std::endl`-terminated lines).
 */
module Text {

  /** `n` copies of the character `c`; none for `n <= 0`. */
  function Repeat(c: char, n: int): (s: string)
    ensures |s| == if n > 0 then n else 0
    ensures forall i :: 0 <= i < |s| ==> s[i] == c
    decreases if n > 0 then n else 0
  {
    if n <= 0 then "" else [c] + Repeat(c, n - 1)
  }

  /** A run of `n` blanks, the fill `std::setw` inserts. */
  function Spaces(n: int): string {
    Repeat(' ', n)
  }

  /**
   * `stream << std::setw(width) << std::right << s`: the text is padded with
   * blanks on the left up to `width`; a text already as wide is left alone.
   */
  function PadLeft(s: string, width: int): (r: string)
    ensures |r| == if |s| < width then width else |s|
    ensures r[|r| - |s|..] == s
    ensures forall i :: 0 <= i < |r| - |s| ==> r[i] == ' '
  {
    if |s| < width then Spaces(width - |s|) + s else s
  }

  /** A field at least as wide as the text is the fill followed by the text. */
  lemma PadLeftFill(s: string, width: int)
    requires |s| <= width
    ensures PadLeft(s, width) == Spaces(width - |s|) + s
  {
    if |s| == width {
      assert Spaces(0) == "";
    }
  }

  lemma AppendAssoc<T>(a: seq<T>, b: seq<T>, c: seq<T>)
    ensures (a + b) + c == a + (b + c)
  {
  }

  predicate IsDigit(c: char) {
    '0' <= c <= '9'
  }

  function DigitValue(c: char): (d: nat)
    requires IsDigit(c)
    ensures d < 10
  {
    (c as int) - ('0' as int)
  }

  function DigitChar(d: nat): (c: char)
    requires d < 10
    ensures IsDigit(c) && DigitValue(c) == d
  {
    (('0' as int) + d) as char
  }

  /** `stream << n` for a non-negative integer: its decimal digits, no leading zero. */
  function Decimal(n: nat): (s: string)
    ensures |s| > 0
    ensures forall i :: 0 <= i < |s| ==> IsDigit(s[i])
    ensures |s| > 1 ==> s[0] != '0'
    decreases n
  {
    if n < 10 then [DigitChar(n)] else Decimal(n / 10) + [DigitChar(n % 10)]
  }

  /** Reads a string of decimal digits back as a number (the reference for `Decimal`). */
  function ParseDecimal(s: string): nat
    requires forall i :: 0 <= i < |s| ==> IsDigit(s[i])
  {
    if s == [] then 0 else 10 * ParseDecimal(s[..|s| - 1]) + DigitValue(s[|s| - 1])
  }

  /** The count printed by the summary can be read back from its text. */
  lemma {:induction false} DecimalRoundTrip(n: nat)
    ensures ParseDecimal(Decimal(n)) == n
    decreases n
  {
    if n >= 10 {
      var s := Decimal(n);
      assert s[..|s| - 1] == Decimal(n / 10);
      DecimalRoundTrip(n / 10);
    }
  }

  /** Lines written one after another, each followed by `std::endl`. */
  function JoinLines(lines: seq<string>): (s: string)
    ensures |s| >= |lines|
    ensures |lines| > 0 ==> s[|s| - 1] == '\n'
  {
    if lines == [] then "" else lines[0] + "\n" + JoinLines(lines[1..])
  }

  lemma JoinLinesOne(line: string)
    ensures JoinLines([line]) == line + "\n"
  {
    assert [line][1..] == [];
  }

  /** Joining two runs of lines writes the first run, then the second. */
  lemma {:induction false} JoinLinesAppend(a: seq<string>, b: seq<string>)
    ensures JoinLines(a + b) == JoinLines(a) + JoinLines(b)
    decreases |a|
  {
    if a != [] {
      assert (a + b)[1..] == a[1..] + b;
      JoinLinesAppend(a[1..], b);
    } else {
      assert a + b == b;
    }
  }

  /** The runs `f` gives for the elements of `s` (texts, say), one after another. */
  function ConcatMap<T, U>(f: T -> seq<U>, s: seq<T>): seq<U> {
    if s == [] then [] else f(s[0]) + ConcatMap(f, s[1..])
  }

  lemma ConcatMapOne<T, U>(f: T -> seq<U>, x: T)
    ensures ConcatMap(f, [x]) == f(x)
  {
    assert [x][1..] == [];
  }

  lemma {:induction false} ConcatMapAppend<T, U>(f: T -> seq<U>, a: seq<T>, b: seq<T>)
    ensures ConcatMap(f, a + b) == ConcatMap(f, a) + ConcatMap(f, b)
    decreases |a|
  {
    if a == [] {
      assert a + b == b;
    } else {
      assert (a + b)[0] == a[0] && (a + b)[1..] == a[1..] + b;
      ConcatMapAppend(f, a[1..], b);
    }
  }

  /**
   * Splits a text at its newlines; `current` is the line read so far. A last
   * line without a terminating newline is kept when it is not empty.
   */
  function SplitLinesFrom(s: string, current: string): seq<string>
    decreases |s|
  {
    if s == [] then (if current == [] then [] else [current])
    else if s[0] == '\n' then [current] + SplitLinesFrom(s[1..], [])
    else SplitLinesFrom(s[1..], current + [s[0]])
  }

  /** The lines of a text, as a reader of the log file sees them. */
  function SplitLines(s: string): seq<string> {
    SplitLinesFrom(s, [])
  }

  predicate NoNewline(s: string) {
    '\n' !in s
  }

  /** Reading one newline-free line and its terminator yields exactly that line. */
  lemma {:induction false} SplitOneLine(line: string, rest: string, current: string)
    requires NoNewline(line)
    ensures SplitLinesFrom(line + "\n" + rest, current) == [current + line] + SplitLinesFrom(rest, [])
    decreases |line|
  {
    if line == [] {
      var s := line + "\n" + rest;
      assert s[0] == '\n' && s[1..] == rest;
      assert current + line == current;
    } else {
      var s := line + "\n" + rest;
      assert s[0] == line[0] && s[1..] == line[1..] + "\n" + rest;
      SplitOneLine(line[1..], rest, current + [line[0]]);
      assert current + [line[0]] + line[1..] == current + line;
    }
  }

  /** Splitting undoes joining, as long as no line holds a newline of its own. */
  lemma {:induction false} SplitJoinLines(lines: seq<string>)
    requires forall k :: 0 <= k < |lines| ==> NoNewline(lines[k])
    ensures SplitLines(JoinLines(lines)) == lines
    decreases |lines|
  {
    if lines != [] {
      SplitOneLine(lines[0], JoinLines(lines[1..]), []);
      assert [] + lines[0] == lines[0];
      SplitJoinLines(lines[1..]);
    }
  }
}
