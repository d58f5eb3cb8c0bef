/**
 * The string operations the source takes from JavaScript's `String`:
 * `trim`, `toLowerCase`, `includes`, `split(',')`, `join`, the decimal form
 * of a non-negative integer, and the default (code-unit) order used by
 * `Array.prototype.sort` on strings.
 */
module Strings {

  import opened Seqs

  /** The characters `String.prototype.trim` removes: white space and line terminators. */
  predicate IsSpace(c: char) {
    var n := c as int;
    n == 0x09 || n == 0x0A || n == 0x0B || n == 0x0C || n == 0x0D || n == 0x20
    || n == 0xA0 || n == 0x1680 || (0x2000 <= n <= 0x200A) || n == 0x2028 || n == 0x2029
    || n == 0x202F || n == 0x205F || n == 0x3000 || n == 0xFEFF
  }

  /** A string without leading or trailing white space. */
  predicate Trimmed(s: string) {
    s == [] || (!IsSpace(s[0]) && !IsSpace(s[|s| - 1]))
  }

  /** The number of leading white-space characters. */
  function LeadingSpace(s: string): (k: nat)
    ensures k <= |s|
    ensures forall i | 0 <= i < k :: IsSpace(s[i])
    ensures k < |s| ==> !IsSpace(s[k])
  {
    if s == [] || !IsSpace(s[0]) then 0 else 1 + LeadingSpace(s[1..])
  }

  /** The end of `s` once trailing white space is cut off. */
  function TrailingCut(s: string): (e: nat)
    ensures e <= |s|
    ensures forall i | e <= i < |s| :: IsSpace(s[i])
    ensures e > 0 ==> !IsSpace(s[e - 1])
  {
    if s == [] || !IsSpace(s[|s| - 1]) then |s| else TrailingCut(s[..|s| - 1])
  }

  /** `s.trim()`: the slice of `s` left once white space is cut from both ends. */
  function Trim(s: string): (r: string)
    ensures Trimmed(r)
    ensures r == [] <==> forall i | 0 <= i < |s| :: IsSpace(s[i])
    ensures exists i, j | 0 <= i <= j <= |s| :: r == s[i..j]
  {
    var k := LeadingSpace(s);
    var t := s[k..];
    var e := TrailingCut(t);
    assert t[..e] == s[k..k + e];
    t[..e]
  }

  /** A string that has no white space at either end is its own trim. */
  lemma TrimTrimmed(s: string)
    requires Trimmed(s)
    ensures Trim(s) == s
  {
    assert LeadingSpace(s) == 0;
    if s != [] {
      assert TrailingCut(s) == |s|;
    }
  }

  /** Trimming a trimmed string after a single blank gives the string back. */
  lemma TrimAfterBlank(s: string)
    requires Trimmed(s)
    ensures Trim(" " + s) == s
  {
    var t := " " + s;
    assert t[1..] == s;
    assert LeadingSpace(t) == 1 + LeadingSpace(s);
    TrimTrimmed(s);
  }

  /** ASCII upper case to lower case; every other character unchanged. */
  function LowerChar(c: char): (r: char)
    ensures ('A' <= c <= 'Z') ==> r as int == c as int + 32
    ensures !('A' <= c <= 'Z') ==> r == c
  {
    if 'A' <= c <= 'Z' then (c as int + 32) as char else c
  }

  /** `s.toLowerCase()` on the ASCII letters. */
  function ToLower(s: string): (r: string)
    ensures |r| == |s|
    ensures forall i | 0 <= i < |s| :: r[i] == LowerChar(s[i])
  {
    if s == [] then [] else [LowerChar(s[0])] + ToLower(s[1..])
  }

  /** `hay.includes(needle)`: `needle` occurs in `hay` as a contiguous piece. */
  predicate Contains(hay: string, needle: string) {
    needle <= hay || (hay != [] && Contains(hay[1..], needle))
  }

  /** Material on either side does not stop a string from containing a piece. */
  lemma {:induction false} ContainsInside(a: string, b: string, c: string)
    ensures Contains(a + b + c, b)
  {
    if a == [] {
      assert a + b + c == b + c;
    } else {
      ContainsInside(a[1..], b, c);
      assert (a + b + c)[1..] == a[1..] + b + c;
    }
  }

  /** `s.split(sep)`: the pieces between separators, at least one piece. */
  function Split(s: string, sep: char): (r: seq<string>)
    ensures |r| >= 1
    ensures forall i | 0 <= i < |r| :: sep !in r[i]
  {
    if s == [] then [[]]
    else
      var rest := Split(s[1..], sep);
      if s[0] == sep then [[]] + rest else [[s[0]] + rest[0]] + rest[1..]
  }

  /** `xs.join(d)`. */
  function Join(xs: seq<string>, d: string): string {
    if xs == [] then []
    else if |xs| == 1 then xs[0]
    else xs[0] + d + Join(xs[1..], d)
  }

  /** Joining the pieces of a split with the separator rebuilds the string. */
  lemma {:induction false} JoinSplit(s: string, sep: char)
    ensures Join(Split(s, sep), [sep]) == s
  {
    if s != [] {
      var rest := Split(s[1..], sep);
      JoinSplit(s[1..], sep);
      if s[0] == sep {
        assert Split(s, sep) == [[]] + rest;
        assert ([[]] + rest)[1..] == rest;
      } else {
        var r := [[s[0]] + rest[0]] + rest[1..];
        if |rest| == 1 {
          assert Join(rest, [sep]) == rest[0];
        } else {
          assert Join(rest, [sep]) == rest[0] + [sep] + Join(rest[1..], [sep]);
          assert r[1..] == rest[1..];
        }
      }
    }
  }

  /** Splitting a join of separator-free pieces gives the pieces back. */
  lemma {:induction false} SplitJoin(xs: seq<string>, sep: char)
    requires |xs| >= 1
    requires forall i | 0 <= i < |xs| :: sep !in xs[i]
    ensures Split(Join(xs, [sep]), sep) == xs
  {
    if |xs| == 1 {
      SplitNoSep(xs[0], sep);
    } else {
      SplitJoin(xs[1..], sep);
      SplitPrefix(xs[0], Join(xs[1..], [sep]), sep);
      assert [xs[0]] + xs[1..] == xs;
    }
  }

  /** A string without the separator splits into itself. */
  lemma {:induction false} SplitNoSep(s: string, sep: char)
    requires sep !in s
    ensures Split(s, sep) == [s]
  {
    if s != [] {
      SplitNoSep(s[1..], sep);
      assert [s[0]] + s[1..] == s;
    }
  }

  /** A separator-free piece followed by the separator contributes exactly that piece. */
  lemma {:induction false} SplitPrefix(p: string, t: string, sep: char)
    requires sep !in p
    ensures Split(p + [sep] + t, sep) == [p] + Split(t, sep)
  {
    var s := p + [sep] + t;
    if p == [] {
      assert s[1..] == t;
    } else {
      assert s[1..] == p[1..] + [sep] + t;
      SplitPrefix(p[1..], t, sep);
      assert [p[0]] + p[1..] == p;
    }
  }

  predicate IsDigit(c: char) {
    '0' <= c <= '9'
  }

  /** The number a string of decimal digits denotes. */
  function DigitsValue(s: string): nat
    requires forall i | 0 <= i < |s| :: IsDigit(s[i])
  {
    if s == [] then 0
    else
      assert IsDigit(s[|s| - 1]);
      DigitsValue(s[..|s| - 1]) * 10 + (s[|s| - 1] as int - '0' as int)
  }

  /** A decimal digit. */
  function DigitChar(d: nat): (c: char)
    requires d < 10
    ensures '0' <= c <= '9' && c as int - '0' as int == d
  {
    ('0' as int + d) as char
  }

  /** `String(n)` for a non-negative integer: its decimal digits, no leading zero. */
  function NatToString(n: nat): (r: string)
    ensures |r| >= 1
    ensures forall i | 0 <= i < |r| :: '0' <= r[i] <= '9'
    ensures |r| > 1 ==> r[0] != '0'
  {
    if n < 10 then [DigitChar(n)] else NatToString(n / 10) + [DigitChar(n % 10)]
  }

  /** The order `Array.prototype.sort` uses on strings: character by character, a prefix first. */
  predicate LexLe(a: string, b: string) {
    a == [] || (b != [] && (a[0] < b[0] || (a[0] == b[0] && LexLe(a[1..], b[1..]))))
  }

  lemma {:induction false} LexLeTotal(a: string, b: string)
    ensures LexLe(a, b) || LexLe(b, a)
  {
    if a != [] && b != [] && a[0] == b[0] {
      LexLeTotal(a[1..], b[1..]);
    }
  }

  lemma {:induction false} LexLeTransitive(a: string, b: string, c: string)
    requires LexLe(a, b) && LexLe(b, c)
    ensures LexLe(a, c)
  {
    if a != [] && a[0] == b[0] && b[0] == c[0] {
      LexLeTransitive(a[1..], b[1..], c[1..]);
    }
  }

  lemma {:induction false} LexLeAntisymmetric(a: string, b: string)
    requires LexLe(a, b) && LexLe(b, a)
    ensures a == b
  {
    if a != [] {
      LexLeAntisymmetric(a[1..], b[1..]);
      assert a == [a[0]] + a[1..] && b == [b[0]] + b[1..];
    }
  }

  /** Strictly increasing in `LexLe`: sorted and without repetition. */
  predicate StrictlySorted(s: seq<string>) {
    forall i, j | 0 <= i < j < |s| :: LexLe(s[i], s[j]) && s[i] != s[j]
  }

  /** Insertion of `x` into a `LexLe`-sorted sequence, before any string it does not exceed. */
  function InsertString(x: string, s: seq<string>): (r: seq<string>)
    ensures |r| == |s| + 1
    ensures forall y :: y in r <==> y == x || y in s
  {
    if s == [] || LexLe(x, s[0]) then [x] + s else [s[0]] + InsertString(x, s[1..])
  }

  lemma {:induction false} InsertStringSorted(x: string, s: seq<string>)
    requires StrictlySorted(s) && x !in s
    ensures StrictlySorted(InsertString(x, s))
  {
    if s == [] || LexLe(x, s[0]) {
      forall m | 0 <= m < |s| ensures LexLe(x, s[m]) {
        if m > 0 { LexLeTransitive(x, s[0], s[m]); }
      }
      var r := [x] + s;
      assert forall i | 0 < i < |r| :: r[i] == s[i - 1];
    } else {
      LexLeTotal(x, s[0]);
      InsertStringSorted(x, s[1..]);
      var r := InsertString(x, s[1..]);
      forall j | 0 <= j < |r| ensures LexLe(s[0], r[j]) && s[0] != r[j] {
        assert r[j] in r;
      }
    }
  }

  /** `xs.sort()` for strings without repetition. */
  function SortStrings(xs: seq<string>): (r: seq<string>)
    requires Distinct(xs)
    ensures forall y :: y in r <==> y in xs
    ensures StrictlySorted(r)
  {
    if xs == [] then []
    else
      assert forall k | 0 <= k < |xs| - 1 :: xs[1..][k] == xs[k + 1];
      assert xs[0] !in xs[1..];
      var t := SortStrings(xs[1..]);
      InsertStringSorted(xs[0], t);
      assert forall y :: y in xs <==> y == xs[0] || y in xs[1..] by {
        assert xs == [xs[0]] + xs[1..];
      }
      InsertString(xs[0], t)
  }

  /** `[...new Set(xs)].sort()`: the strings of `xs`, each once, in increasing order. */
  function UniqueSorted(xs: seq<string>): (r: seq<string>)
    ensures StrictlySorted(r)
    ensures forall y :: y in r <==> y in xs
  {
    SortStrings(Dedupe(xs))
  }
}
