/** The string built-ins of Python and JavaScript that the modelled code
    relies on: substring search (`in`), `lower()`, `', '.join`, `trim()`,
    decimal rendering of integers and `padStart`. */
module Text {

  // ---------------------------------------------------------------------
  // Substring search (Python's `sub in s`)
  // ---------------------------------------------------------------------

  /** `sub` occurs in `s` starting at position `i`. */
  ghost predicate OccursAt(sub: string, s: string, i: int) {
    0 <= i && i + |sub| <= |s| && s[i..i + |sub|] == sub
  }

  function Contains(s: string, sub: string): (r: bool)
    ensures r <==> exists i :: OccursAt(sub, s, i)
    decreases |s|
  {
    if |sub| > |s| then
      false
    else if s[..|sub|] == sub then
      assert OccursAt(sub, s, 0);
      true
    else
      var rest := Contains(s[1..], sub);
      ContainsShift(s, sub);
      rest
  }

  /** An occurrence in `s` that is not at position 0 is an occurrence in `s[1..]`, and back. */
  lemma ContainsShift(s: string, sub: string)
    requires |sub| <= |s| && s[..|sub|] != sub
    ensures (exists i :: OccursAt(sub, s, i)) <==> (exists i :: OccursAt(sub, s[1..], i))
  {
    if i :| OccursAt(sub, s, i) {
      assert i != 0;
      assert s[1..][i - 1..i - 1 + |sub|] == s[i..i + |sub|];
      assert OccursAt(sub, s[1..], i - 1);
    }
    if i :| OccursAt(sub, s[1..], i) {
      assert s[i + 1..i + 1 + |sub|] == s[1..][i..i + |sub|];
      assert OccursAt(sub, s, i + 1);
    }
  }

  /** A string occurs inside any string that has it as a middle part. */
  lemma ContainsMiddle(a: string, sub: string, b: string)
    ensures Contains(a + sub + b, sub)
  {
    assert (a + sub + b)[|a|..|a| + |sub|] == sub;
    assert OccursAt(sub, a + sub + b, |a|);
  }

  // ---------------------------------------------------------------------
  // ASCII lower case (Python's `str.lower()` restricted to A-Z)
  // ---------------------------------------------------------------------

  function LowerChar(c: char): char {
    if 'A' <= c <= 'Z' then (c as int + 32) as char else c
  }

  function Lower(s: string): (r: string)
    ensures |r| == |s|
    ensures forall i :: 0 <= i < |s| ==> r[i] == LowerChar(s[i])
  {
    seq(|s|, i requires 0 <= i < |s| => LowerChar(s[i]))
  }

  // ---------------------------------------------------------------------
  // Python's `sep.join(xs)`
  // ---------------------------------------------------------------------

  function Join(xs: seq<string>, sep: string): string
    decreases |xs|
  {
    if |xs| == 0 then "" else if |xs| == 1 then xs[0] else xs[0] + sep + Join(xs[1..], sep)
  }

  /** The position at which element `i` starts inside `Join(xs, sep)`. */
  function JoinOffset(xs: seq<string>, sep: string, i: nat): nat
    requires i <= |xs|
    decreases i
  {
    if i == 0 then 0 else JoinOffset(xs, sep, i - 1) + |xs[i - 1]| + |sep|
  }

  /** Element `i` of `xs` sits at `JoinOffset(xs, sep, i)` inside the joined
      string, and every element but the last is followed by the separator. */
  lemma {:induction false} JoinAt(xs: seq<string>, sep: string, i: nat)
    requires i < |xs|
    ensures PlacedAt(Join(xs, sep), JoinOffset(xs, sep, i), xs[i], sep, i + 1 < |xs|)
  {
    if |xs| == 1 {
      assert Join(xs, sep) == xs[0];
    } else if i == 0 {
      JoinFirst(xs, sep);
    } else {
      var tail := xs[1..];
      JoinAt(tail, sep, i - 1);
      JoinOffsetTail(xs, sep, i);
      assert Join(xs, sep) == (xs[0] + sep) + Join(tail, sep);
      assert xs[i] == tail[i - 1];
      PlacedAfter(xs[0] + sep, Join(tail, sep), JoinOffset(tail, sep, i - 1), xs[i], sep, i + 1 < |xs|);
    }
  }

  /** `x` sits at position `o` of `j`, followed by `sep` when `more` holds. */
  ghost predicate PlacedAt(j: string, o: int, x: string, sep: string, more: bool) {
    0 <= o && o + |x| <= |j| && j[o..o + |x|] == x &&
    (more ==> o + |x| + |sep| <= |j| && j[o + |x|..o + |x| + |sep|] == sep)
  }

  /** The first element starts a join of several, followed by the separator. */
  lemma JoinFirst(xs: seq<string>, sep: string)
    requires |xs| > 1
    ensures PlacedAt(Join(xs, sep), 0, xs[0], sep, true)
  {
    var j := Join(xs, sep);
    assert j == xs[0] + sep + Join(xs[1..], sep);
    assert j[..|xs[0]|] == xs[0];
    assert j[|xs[0]|..|xs[0]| + |sep|] == sep;
  }

  /** What sits at position `o` of `q` sits at `|p| + o` of `p + q`. */
  lemma PlacedAfter(p: string, q: string, o: int, x: string, sep: string, more: bool)
    requires PlacedAt(q, o, x, sep, more)
    ensures PlacedAt(p + q, |p| + o, x, sep, more)
  {
    assert (p + q)[|p|..] == q;
    assert (p + q)[|p| + o..|p| + o + |x|] == q[o..o + |x|];
    if more {
      assert (p + q)[|p| + o + |x|..|p| + o + |x| + |sep|] == q[o + |x|..o + |x| + |sep|];
    }
  }

  lemma {:induction false} JoinOffsetTail(xs: seq<string>, sep: string, i: nat)
    requires 1 <= i <= |xs|
    ensures JoinOffset(xs, sep, i) == |xs[0]| + |sep| + JoinOffset(xs[1..], sep, i - 1)
    decreases i
  {
    if i > 1 {
      JoinOffsetTail(xs, sep, i - 1);
    }
  }

  /** Joining appends: `sep.join(xs + [y]) == sep.join(xs) + sep + y` for a non-empty `xs`. */
  lemma {:induction false} JoinSnoc(xs: seq<string>, y: string, sep: string)
    requires |xs| > 0
    ensures Join(xs + [y], sep) == Join(xs, sep) + sep + y
    decreases |xs|
  {
    if |xs| > 1 {
      assert (xs + [y])[1..] == xs[1..] + [y];
      JoinSnoc(xs[1..], y, sep);
    } else {
      assert (xs + [y])[1..] == [y];
    }
  }

  // ---------------------------------------------------------------------
  // JavaScript's String.prototype.trim
  // ---------------------------------------------------------------------

  /** The white space and line terminators that JavaScript's `trim()` removes:
      TAB, VT, FF, SP, NBSP, ZWNBSP, the other Zs separators, LF, CR, LS, PS. */
  const Spaces: set<char> :=
    {'\U{0009}', '\U{000A}', '\U{000B}', '\U{000C}', '\U{000D}', '\U{0020}', '\U{00A0}', '\U{1680}',
     '\U{2000}', '\U{2001}', '\U{2002}', '\U{2003}', '\U{2004}', '\U{2005}', '\U{2006}', '\U{2007}',
     '\U{2008}', '\U{2009}', '\U{200A}', '\U{2028}', '\U{2029}', '\U{202F}', '\U{205F}', '\U{3000}', '\U{FEFF}'}

  predicate IsSpace(c: char) {
    c in Spaces
  }

  /** The number of white-space characters at the start of `s`. */
  function LeadingSpaces(s: string): (n: nat)
    ensures n <= |s|
    ensures forall k :: 0 <= k < n ==> IsSpace(s[k])
    ensures n < |s| ==> !IsSpace(s[n])
    decreases |s|
  {
    if |s| > 0 && IsSpace(s[0]) then 1 + LeadingSpaces(s[1..]) else 0
  }

  /** The number of white-space characters at the end of `s`. */
  function TrailingSpaces(s: string): (n: nat)
    ensures n <= |s|
    ensures forall k :: |s| - n <= k < |s| ==> IsSpace(s[k])
    ensures n < |s| ==> !IsSpace(s[|s| - n - 1])
    decreases |s|
  {
    if |s| > 0 && IsSpace(s[|s| - 1]) then 1 + TrailingSpaces(s[..|s| - 1]) else 0
  }

  function Trim(s: string): (r: string)
    // the trimmed string is empty exactly when s is all white space
    ensures r == [] <==> forall k :: 0 <= k < |s| ==> IsSpace(s[k])
    // otherwise it neither starts nor ends with white space
    ensures r != [] ==> !IsSpace(r[0]) && !IsSpace(r[|r| - 1])
    // and it is a contiguous part of s with only white space cut off around it
    ensures exists i, j :: 0 <= i <= j <= |s| && r == s[i..j] &&
                           (forall k :: 0 <= k < i ==> IsSpace(s[k])) &&
                           (forall k :: j <= k < |s| ==> IsSpace(s[k]))
  {
    var a := LeadingSpaces(s);
    var b := TrailingSpaces(s[a..]);
    TrailingCut(s, a, b);
    AllSpaceCuts(s, a, b);
    s[a..|s| - b]
  }

  /** The trailing cut, counted on `s[a..]`, removes white space of `s` and
      stops at a character that is not. */
  lemma TrailingCut(s: string, a: nat, b: nat)
    requires a <= |s| && b == TrailingSpaces(s[a..])
    ensures a + b <= |s|
    ensures forall k :: |s| - b <= k < |s| ==> IsSpace(s[k])
    ensures a + b < |s| ==> !IsSpace(s[|s| - b - 1])
  {
    var t := s[a..];
    forall k | |s| - b <= k < |s| ensures IsSpace(s[k]) {
      assert s[k] == t[k - a];
    }
    if a + b < |s| {
      assert s[|s| - b - 1] == t[|t| - b - 1];
    }
  }

  /** Both cuts meet exactly when the whole string is white space. */
  lemma AllSpaceCuts(s: string, a: nat, b: nat)
    requires a + b <= |s|
    requires forall k :: 0 <= k < a ==> IsSpace(s[k])
    requires a < |s| ==> !IsSpace(s[a])
    requires forall k :: |s| - b <= k < |s| ==> IsSpace(s[k])
    ensures a + b == |s| <==> forall k :: 0 <= k < |s| ==> IsSpace(s[k])
  {
    if a + b == |s| {
      assert a == |s|;
    }
  }

  // ---------------------------------------------------------------------
  // Decimal rendering and reading of integers
  // ---------------------------------------------------------------------

  predicate IsDigit(c: char) { '0' <= c <= '9' }

  predicate AllDigits(s: string) { forall k :: 0 <= k < |s| ==> IsDigit(s[k]) }

  function DigitChar(d: nat): (c: char)
    requires d < 10
    ensures IsDigit(c) && c as int - '0' as int == d
  {
    (d + '0' as int) as char
  }

  function DigitValue(c: char): nat
    requires IsDigit(c)
  {
    c as int - '0' as int
  }

  /** `str(n)` in Python, `n.toString()` in JavaScript, for a natural number:
      no leading zeros, at least one digit. */
  function NatToString(n: nat): (r: string)
    ensures |r| >= 1 && AllDigits(r)
    ensures (r[0] == '0') <==> n == 0
    ensures n < 10 <==> |r| == 1
    decreases n
  {
    if n < 10 then [DigitChar(n)] else NatToString(n / 10) + [DigitChar(n % 10)]
  }

  /** Reads a string of decimal digits as a natural number (the inverse of `NatToString`). */
  function ParseNat(s: string): nat
    requires AllDigits(s)
    decreases |s|
  {
    if s == [] then 0 else 10 * ParseNat(s[..|s| - 1]) + DigitValue(s[|s| - 1])
  }

  lemma {:induction false} ParseNatToString(n: nat)
    ensures ParseNat(NatToString(n)) == n
    decreases n
  {
    var r := NatToString(n);
    if n >= 10 {
      ParseNatToString(n / 10);
      assert r[..|r| - 1] == NatToString(n / 10);
    }
  }

  /** `str(i)` in Python, `i.toString()` in JavaScript. */
  function IntToString(i: int): string {
    if i < 0 then "-" + NatToString(-i) else NatToString(i)
  }

  /** JavaScript's `s.padStart(width, fill)` for a one-character fill string. */
  function PadStart(s: string, width: nat, fill: char): (r: string)
    ensures |r| == if |s| >= width then |s| else width
    ensures r[|r| - |s|..] == s
    ensures forall k :: 0 <= k < |r| - |s| ==> r[k] == fill
  {
    if |s| >= width then s else seq(width - |s|, _ => fill) + s
  }
}
