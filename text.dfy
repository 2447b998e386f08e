/** Text building blocks of the `.dzn` parameter files: decimal rendering of
    integers (Python's `str` on an int), `", ".join(...)`, the bracketed
    list `"[" + ", ".join(...) + "]"`, and a file made of lines.  Each
    renderer has a parser beside it and a round-trip lemma, so that what is
    written can be read back unchanged. */
module Text {

  datatype Option<T> = None | Some(value: T)

  predicate IsDigit(c: char) { '0' <= c <= '9' }

  predicate AllDigits(s: string) { forall i :: 0 <= i < |s| ==> IsDigit(s[i]) }

  function DigitChar(d: nat): (c: char)
    requires d < 10
    ensures IsDigit(c) && c as int - '0' as int == d
  {
    ('0' as int + d) as char
  }

  /** Decimal rendering of a natural number, most significant digit first,
      without leading zeros. */
  function NatStr(n: nat): (s: string)
    ensures 1 <= |s| && AllDigits(s)
    ensures n < 10 <==> |s| == 1
    decreases n
  {
    if n < 10 then [DigitChar(n)] else NatStr(n / 10) + [DigitChar(n % 10)]
  }

  /** `str(i)` for a Python int: a minus sign before negative numbers. */
  function IntStr(i: int): (s: string)
    ensures 1 <= |s|
    ensures i >= 0 <==> IsDigit(s[0])
  {
    if i >= 0 then NatStr(i) else "-" + NatStr(-i)
  }

  /** The value of a string of decimal digits. */
  function DigitsValue(s: string): nat
    requires AllDigits(s)
  {
    if s == [] then 0 else DigitsValue(s[..|s| - 1]) * 10 + (s[|s| - 1] as int - '0' as int)
  }

  lemma {:induction false} NatStrRoundTrip(n: nat)
    ensures DigitsValue(NatStr(n)) == n
    decreases n
  {
    if n >= 10 {
      var s := NatStr(n);
      assert s[..|s| - 1] == NatStr(n / 10);
      NatStrRoundTrip(n / 10);
    }
  }

  /** `sep.join(parts)`. */
  function Join(parts: seq<string>, sep: string): (r: string)
    ensures parts == [] ==> r == []
    ensures |parts| == 1 ==> r == parts[0]
  {
    if parts == [] then []
    else if |parts| == 1 then parts[0]
    else parts[0] + sep + Join(parts[1..], sep)
  }

  /** `"[" + ", ".join(parts) + "]"`: the list syntax shared by Python's
      `str` on a list and MiniZinc's array literals. */
  function Bracket(parts: seq<string>): string
  {
    "[" + Join(parts, ", ") + "]"
  }

  function NatStrs(xs: seq<nat>): (r: seq<string>)
    ensures |r| == |xs| && forall i :: 0 <= i < |xs| ==> r[i] == NatStr(xs[i])
  {
    seq(|xs|, i requires 0 <= i < |xs| => NatStr(xs[i]))
  }

  /** A list of naturals rendered as a bracketed, comma-separated literal. */
  function NatList(xs: seq<nat>): string
  {
    Bracket(NatStrs(xs))
  }

  /** Length of the longest prefix of `s` made of digits. */
  function DigitRun(s: string): (k: nat)
    ensures k <= |s| && AllDigits(s[..k])
    ensures k < |s| ==> !IsDigit(s[k])
  {
    if s == [] || !IsDigit(s[0]) then 0
    else
      var k := 1 + DigitRun(s[1..]);
      assert s[..k] == [s[0]] + s[1..][..k - 1];
      k
  }

  /** Reads `d, d, ..., d` (at least one item). */
  function ParseItems(s: string): Option<seq<nat>>
    decreases |s|
  {
    var k := DigitRun(s);
    if k == 0 then None
    else if k == |s| then Some([DigitsValue(s)])
    else if |s| >= k + 2 && s[k..k + 2] == ", " then
      match ParseItems(s[k + 2..])
      case None => None
      case Some(rest) => Some([DigitsValue(s[..k])] + rest)
    else None
  }

  /** Reads a bracketed list of naturals, the inverse of `NatList`. */
  function ParseNatList(s: string): Option<seq<nat>>
  {
    if |s| < 2 || s[0] != '[' || s[|s| - 1] != ']' then None
    else if |s| == 2 then Some([])
    else ParseItems(s[1..|s| - 1])
  }

  lemma DigitRunOfNatStr(n: nat, tail: string)
    requires tail == [] || !IsDigit(tail[0])
    ensures DigitRun(NatStr(n) + tail) == |NatStr(n)|
    ensures (NatStr(n) + tail)[..|NatStr(n)|] == NatStr(n)
  {
    var s := NatStr(n);
    DigitRunPrefix(s, tail);
  }

  lemma {:induction false} DigitRunPrefix(s: string, tail: string)
    requires AllDigits(s)
    requires tail == [] || !IsDigit(tail[0])
    ensures DigitRun(s + tail) == |s|
  {
    if s != [] {
      assert (s + tail)[1..] == s[1..] + tail;
      DigitRunPrefix(s[1..], tail);
    }
  }

  lemma {:induction false} ParseItemsJoin(xs: seq<nat>)
    requires xs != []
    ensures ParseItems(Join(NatStrs(xs), ", ")) == Some(xs)
    decreases |xs|
  {
    var parts := NatStrs(xs);
    var head := NatStr(xs[0]);
    if |xs| == 1 {
      assert Join(parts, ", ") == head;
      DigitRunOfNatStr(xs[0], []);
      assert head + [] == head;
      assert DigitRun(head) == |head|;
      NatStrRoundTrip(xs[0]);
      assert xs == [xs[0]];
    } else {
      var rest := Join(parts[1..], ", ");
      assert NatStrs(xs[1..]) == parts[1..];
      var s := head + ", " + rest;
      assert Join(parts, ", ") == s;
      assert s == head + (", " + rest);
      DigitRunOfNatStr(xs[0], ", " + rest);
      var k := |head|;
      assert s[k..k + 2] == ", ";
      assert s[k + 2..] == rest;
      assert s[..k] == head;
      ParseItemsJoin(xs[1..]);
      NatStrRoundTrip(xs[0]);
      assert [xs[0]] + xs[1..] == xs;
    }
  }

  /** Rendering a list of naturals and reading it back gives the list. */
  lemma NatListRoundTrip(xs: seq<nat>)
    ensures ParseNatList(NatList(xs)) == Some(xs)
  {
    var s := NatList(xs);
    var body := Join(NatStrs(xs), ", ");
    assert s == "[" + body + "]";
    assert s[1..|s| - 1] == body;
    if xs == [] {
      assert |s| == 2;
    } else {
      assert |NatStrs(xs)[0]| >= 1;
      JoinNonEmpty(NatStrs(xs), ", ");
      ParseItemsJoin(xs);
    }
  }

  lemma {:induction false} JoinNonEmpty(parts: seq<string>, sep: string)
    requires parts != [] && |parts[0]| >= 1
    ensures |Join(parts, sep)| >= 1
  {
  }

  /** The text of a file whose lines are `lines`, each ended by a newline. */
  function Unlines(lines: seq<string>): string
  {
    if lines == [] then [] else lines[0] + "\n" + Unlines(lines[1..])
  }

  /** Splits a text into its newline-terminated lines; text after the last
      newline is dropped. */
  function SplitLines(t: string): seq<string>
    decreases |t|
  {
    var k := LineLength(t);
    if k == |t| then [] else [t[..k]] + SplitLines(t[k + 1..])
  }

  /** Position of the first newline of `t`, or `|t|` when it has none. */
  function LineLength(t: string): (k: nat)
    ensures k <= |t|
    ensures forall i :: 0 <= i < k ==> t[i] != '\n'
    ensures k < |t| ==> t[k] == '\n'
  {
    if t == [] || t[0] == '\n' then 0 else 1 + LineLength(t[1..])
  }

  predicate NoNewline(s: string) { forall i :: 0 <= i < |s| ==> s[i] != '\n' }

  lemma {:induction false} LineLengthOf(line: string, rest: string)
    requires NoNewline(line)
    ensures LineLength(line + "\n" + rest) == |line|
  {
    if line != [] {
      assert (line + "\n" + rest)[1..] == line[1..] + "\n" + rest;
      LineLengthOf(line[1..], rest);
    }
  }

  /** A file written line by line splits back into the same lines, as long
      as no line holds a newline of its own. */
  lemma {:induction false} UnlinesRoundTrip(lines: seq<string>)
    requires forall i :: 0 <= i < |lines| ==> NoNewline(lines[i])
    ensures SplitLines(Unlines(lines)) == lines
  {
    if lines != [] {
      var t := Unlines(lines);
      LineLengthOf(lines[0], Unlines(lines[1..]));
      assert t[..|lines[0]|] == lines[0];
      assert t[|lines[0]| + 1..] == Unlines(lines[1..]);
      UnlinesRoundTrip(lines[1..]);
    }
  }

  /** Concatenation of all parts with nothing in between (`"".join`). */
  function Concat(parts: seq<string>): string
  {
    if parts == [] then [] else Concat(parts[..|parts| - 1]) + parts[|parts| - 1]
  }
}
