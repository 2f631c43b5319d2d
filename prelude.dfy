/**
 * Helpers shared by the whole model: an optional value, the JavaScript
 * rounding and truncation rules on numbers, and the string operations the
 * editor uses (ASCII lower-casing, whitespace runs, prefixes, substrings,
 * decimal printing of integers).
 */
module JsPrelude {

  datatype Option<T> = None | Some(value: T)

  // ---------------------------------------------------------------- numbers

  function Min(a: real, b: real): real { if a <= b then a else b }
  function Max(a: real, b: real): real { if a >= b then a else b }
  function Abs(a: real): real { if a >= 0.0 then a else -a }
  function IntMax(a: int, b: int): int { if a >= b then a else b }
  function IntMin(a: int, b: int): int { if a <= b then a else b }

  /** `Math.min(hi, Math.max(lo, v))`, the clamp the editor writes everywhere. */
  function Clamp(v: real, lo: real, hi: real): real { Max(lo, Min(hi, v)) }

  /** JavaScript `Math.round`: halves round towards +infinity, for every sign. */
  function Round(x: real): (r: int)
    ensures r as real - 1.0 / 2.0 <= x < r as real + 1.0 / 2.0
  {
    (x + 1.0 / 2.0).Floor
  }

  /** JavaScript `Math.floor`. */
  function FloorOf(x: real): (r: int)
    ensures r as real <= x < r as real + 1.0
  {
    x.Floor
  }

  /** Truncation towards zero, as JavaScript's `%` uses for its quotient. */
  function Trunc(x: real): (r: int)
    ensures 0.0 <= x ==> r == x.Floor
    ensures x < 0.0 ==> r == -((-x).Floor)
  {
    if x >= 0.0 then x.Floor else -((-x).Floor)
  }

  /** JavaScript's `a % b` on numbers: the remainder takes the sign of `a`. */
  function JsRem(a: real, b: real): (r: real)
    requires b != 0.0
  {
    a - b * (Trunc(a / b) as real)
  }

  lemma ScaleAtLeast(a: real, b: real)
    requires a >= 1.0 && b >= 0.0
    ensures a * b >= b
  {
    assert a * b - b == (a - 1.0) * b;
  }

  // ---------------------------------------------------------------- strings

  predicate IsUpperAscii(c: char) { 'A' <= c <= 'Z' }

  function LowerChar(c: char): (r: char)
    ensures !IsUpperAscii(r)
    ensures !IsUpperAscii(c) ==> r == c
  {
    if IsUpperAscii(c) then (c as int + 32) as char else c
  }

  /** `String.prototype.toLowerCase` on the ASCII letters; other characters, including non-ASCII letters, are kept as they are. */
  function Lower(s: string): (r: string)
    ensures |r| == |s|
    ensures forall i :: 0 <= i < |s| ==> r[i] == LowerChar(s[i])
  {
    if s == [] then [] else [LowerChar(s[0])] + Lower(s[1..])
  }

  /** Lower-casing is decided character by character. */
  lemma LowerPointwise(s: string, t: string)
    requires |s| == |t| && forall i :: 0 <= i < |s| ==> LowerChar(s[i]) == t[i]
    ensures Lower(s) == t
  {
  }

  /** The characters matched by the regular-expression class `\s`. */
  predicate IsJsSpace(c: char)
  {
    c == ' ' || c == '\t' || c == '\n' || c == '\r' || c == '\U{000B}' || c == '\U{000C}'
    || c == '\U{00A0}' || c == '\U{1680}' || ('\U{2000}' <= c <= '\U{200A}')
    || c == '\U{2028}' || c == '\U{2029}' || c == '\U{202F}' || c == '\U{205F}'
    || c == '\U{3000}' || c == '\U{FEFF}'
  }

  /** The length of the run of `\s` characters at the head of `s`. */
  function SpaceRun(s: string): (n: nat)
    ensures n <= |s|
    ensures forall i :: 0 <= i < n ==> IsJsSpace(s[i])
    ensures n < |s| ==> !IsJsSpace(s[n])
  {
    if s != [] && IsJsSpace(s[0]) then 1 + SpaceRun(s[1..]) else 0
  }

  /** `s.replace(/\s+/g, sep)`: every maximal run of whitespace becomes `sep`. */
  function ReplaceSpaceRuns(s: string, sep: string): string
    decreases |s|
  {
    if s == [] then []
    else if IsJsSpace(s[0]) then sep + ReplaceSpaceRuns(s[SpaceRun(s)..], sep)
    else [s[0]] + ReplaceSpaceRuns(s[1..], sep)
  }

  /** With a separator free of whitespace, the result has no whitespace left. */
  lemma {:induction false} ReplaceSpaceRunsNoSpace(s: string, sep: string)
    requires forall i :: 0 <= i < |sep| ==> !IsJsSpace(sep[i])
    ensures forall i :: 0 <= i < |ReplaceSpaceRuns(s, sep)| ==> !IsJsSpace(ReplaceSpaceRuns(s, sep)[i])
    decreases |s|
  {
    if s != [] {
      if IsJsSpace(s[0]) {
        ReplaceSpaceRunsNoSpace(s[SpaceRun(s)..], sep);
      } else {
        ReplaceSpaceRunsNoSpace(s[1..], sep);
      }
    }
  }

  /** Text without whitespace is left as it is. */
  lemma {:induction false} ReplaceSpaceRunsIdentity(s: string, sep: string)
    requires forall i :: 0 <= i < |s| ==> !IsJsSpace(s[i])
    ensures ReplaceSpaceRuns(s, sep) == s
    decreases |s|
  {
    if s != [] {
      ReplaceSpaceRunsIdentity(s[1..], sep);
    }
  }

  /** A word without whitespace passes through unchanged in front of the rest. */
  lemma {:induction false} ReplaceSpaceRunsWord(w: string, rest: string, sep: string)
    requires forall i :: 0 <= i < |w| ==> !IsJsSpace(w[i])
    ensures ReplaceSpaceRuns(w + rest, sep) == w + ReplaceSpaceRuns(rest, sep)
    decreases |w|
  {
    if w != [] {
      var s := w + rest;
      assert s[0] == w[0] && !IsJsSpace(s[0]);
      assert s[1..] == w[1..] + rest;
      assert ReplaceSpaceRuns(s, sep) == [s[0]] + ReplaceSpaceRuns(s[1..], sep);
      ReplaceSpaceRunsWord(w[1..], rest, sep);
      assert w == [w[0]] + w[1..];
    } else {
      assert w + rest == rest;
    }
  }

  /** A single blank in front of a word becomes one separator. */
  lemma ReplaceSpaceRunsBlank(rest: string, sep: string)
    requires rest == [] || !IsJsSpace(rest[0])
    ensures ReplaceSpaceRuns([' '] + rest, sep) == sep + ReplaceSpaceRuns(rest, sep)
  {
    var s := [' '] + rest;
    assert s[1..] == rest;
    assert SpaceRun(s) == 1;
  }

  predicate StartsWith(s: string, prefix: string)
  {
    |prefix| <= |s| && s[..|prefix|] == prefix
  }

  /** `t` occurs in `s` starting at index `i`. */
  predicate OccursAt(s: string, t: string, i: int)
  {
    0 <= i && i + |t| <= |s| && s[i..i + |t|] == t
  }

  /** `s.includes(t)`. */
  ghost predicate Contains(s: string, t: string)
  {
    exists i :: OccursAt(s, t, i)
  }

  /** An executable substring search, equal to `Contains`. */
  function ContainsAt(s: string, t: string, from: nat): (b: bool)
    requires from <= |s| + 1
    ensures b <==> exists i :: from <= i && OccursAt(s, t, i)
    decreases |s| + 1 - from
  {
    if from + |t| > |s| then false
    else if s[from..from + |t|] == t then assert OccursAt(s, t, from); true
    else ContainsAt(s, t, from + 1)
  }

  function Includes(s: string, t: string): (b: bool)
    ensures b <==> Contains(s, t)
  {
    ContainsAt(s, t, 0)
  }

  lemma ContainsSelfPart(a: string, t: string, b: string)
    ensures Contains(a + t + b, t)
  {
    var s := a + t + b;
    assert s[|a|..|a| + |t|] == t;
    assert OccursAt(s, t, |a|);
  }

  /** Text found in a part is found in anything built around that part. */
  lemma ContainsExtend(a: string, x: string, b: string, t: string)
    requires Contains(x, t)
    ensures Contains(a + x, t) && Contains(x + b, t) && Contains(a + x + b, t)
  {
    var i :| OccursAt(x, t, i);
    assert (a + x)[|a| + i..|a| + i + |t|] == x[i..i + |t|];
    assert OccursAt(a + x, t, |a| + i);
    assert (x + b)[i..i + |t|] == x[i..i + |t|];
    assert OccursAt(x + b, t, i);
    assert (a + x + b)[|a| + i..|a| + i + |t|] == x[i..i + |t|];
    assert OccursAt(a + x + b, t, |a| + i);
  }

  /** A text holding a character that `s` lacks does not occur in `s`. */
  lemma AbsentByChar(s: string, t: string, c: char)
    requires c in t && c !in s
    ensures !Contains(s, t)
  {
  }

  /** Text found in a part of `s` is found in `s`. */
  lemma ContainsTrans(s: string, x: string, t: string)
    requires Contains(s, x) && Contains(x, t)
    ensures Contains(s, t)
  {
    var i :| OccursAt(s, x, i);
    var j :| OccursAt(x, t, j);
    assert s[i..i + |x|] == x;
    forall k | 0 <= k < |t|
      ensures s[i + j..i + j + |t|][k] == t[k]
    {
      assert s[i + j + k] == s[i..i + |x|][j + k] == x[j + k] == x[j..j + |t|][k];
    }
    assert OccursAt(s, t, i + j);
  }

  lemma ContainsItself(t: string)
    ensures Contains(t, t)
  {
    assert OccursAt(t, t, 0);
  }

  function DigitChar(d: int): (c: char)
    requires 0 <= d < 10
    ensures '0' <= c <= '9'
  {
    ('0' as int + d) as char
  }

  function NatToString(n: nat): (r: string)
    ensures |r| >= 1
    ensures forall i :: 0 <= i < |r| ==> '0' <= r[i] <= '9'
  {
    if n < 10 then [DigitChar(n)] else NatToString(n / 10) + [DigitChar(n % 10)]
  }

  /** Decimal text of an integer, as JavaScript prints an integral number. */
  function IntToString(i: int): (r: string)
    ensures |r| >= 1
    ensures i >= 0 ==> r == NatToString(i)
    ensures i < 0 ==> r == "-" + NatToString(-i)
  {
    if i >= 0 then NatToString(i) else "-" + NatToString(-i)
  }

  /** The value of a string of decimal digits; the inverse of `NatToString`. */
  function DigitsValue(s: string): int
  {
    if s == [] then 0 else DigitsValue(s[..|s| - 1]) * 10 + (s[|s| - 1] as int - '0' as int)
  }

  lemma {:induction false} NatToStringRoundTrip(n: nat)
    ensures DigitsValue(NatToString(n)) == n
  {
    if n >= 10 {
      NatToStringRoundTrip(n / 10);
      var s := NatToString(n / 10) + [DigitChar(n % 10)];
      assert s[..|s| - 1] == NatToString(n / 10);
    }
  }

  /** `xs.join(sep)`. */
  function Join(xs: seq<string>, sep: string): string
  {
    if xs == [] then "" else if |xs| == 1 then xs[0] else xs[0] + sep + Join(xs[1..], sep)
  }

  /** `xs.join('')`, and the pieces of a template string laid end to end. */
  function Concat(xs: seq<string>): (r: string)
    ensures xs == [] ==> r == ""
  {
    if xs == [] then "" else xs[0] + Concat(xs[1..])
  }

  /** The first two pieces open the concatenation. */
  lemma ConcatFirstTwo(xs: seq<string>)
    requires |xs| >= 2
    ensures Concat(xs) == xs[0] + xs[1] + Concat(xs[2..])
  {
    assert xs[1..][1..] == xs[2..];
    assert Concat(xs[1..]) == xs[1] + Concat(xs[2..]);
  }

  /** Replacing one piece changes the length of the concatenation by the difference in length. */
  lemma {:induction false} ConcatUpdateLength(xs: seq<string>, j: int, y: string)
    requires 0 <= j < |xs|
    ensures |Concat(xs[j := y])| == |Concat(xs)| - |xs[j]| + |y|
    decreases j
  {
    if j > 0 {
      assert xs[j := y][1..] == xs[1..][j - 1 := y];
      ConcatUpdateLength(xs[1..], j - 1, y);
    } else {
      assert xs[j := y][1..] == xs[1..];
    }
  }

  /** Text found in one piece is found in the concatenation. */
  lemma {:induction false} ContainsPiece(xs: seq<string>, j: int, t: string)
    requires 0 <= j < |xs| && Contains(xs[j], t)
    ensures Contains(Concat(xs), t)
    decreases j
  {
    if j == 0 {
      ContainsExtend("", xs[0], Concat(xs[1..]), t);
    } else {
      assert xs[1..][j - 1] == xs[j];
      ContainsPiece(xs[1..], j - 1, t);
      ContainsExtend(xs[0], Concat(xs[1..]), "", t);
    }
  }

  /** A piece given whole is found in the concatenation. */
  lemma ContainsWholePiece(xs: seq<string>, j: int)
    requires 0 <= j < |xs|
    ensures Contains(Concat(xs), xs[j])
  {
    ContainsItself(xs[j]);
    ContainsPiece(xs, j, xs[j]);
  }

  /** A piece of a group that is itself a piece is found in the whole concatenation. */
  lemma ContainsNestedPiece(outer: seq<string>, g: int, inner: seq<string>, k: int)
    requires 0 <= g < |outer| && outer[g] == Concat(inner) && 0 <= k < |inner|
    ensures Contains(Concat(outer), inner[k])
  {
    ContainsWholePiece(inner, k);
    ContainsWholePiece(outer, g);
    ContainsTrans(Concat(outer), outer[g], inner[k]);
  }
}
