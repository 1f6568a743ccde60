/**
 * The Python `str` built-ins the pipeline relies on: `strip`, `upper`,
 * `split`, `startswith`, `join` and the ordering `sorted` uses.
 */
module Strings {

  /** Python's `str.isspace()` for a single character. */
  predicate IsSpace(c: char) {
    var n := c as int;
    || (9 <= n <= 13) || (28 <= n <= 32) || n == 0x85 || n == 0xA0 || n == 0x1680
    || (0x2000 <= n <= 0x200A) || n == 0x2028 || n == 0x2029 || n == 0x202F
    || n == 0x205F || n == 0x3000
  }

  predicate AllSpace(s: string) {
    forall i :: 0 <= i < |s| ==> IsSpace(s[i])
  }

  /** Neither the first nor the last character is whitespace. */
  predicate IsStripped(s: string) {
    s == [] || (!IsSpace(s[0]) && !IsSpace(s[|s| - 1]))
  }

  /** `s.lstrip()`: drops leading whitespace. */
  function StripLeft(s: string): string {
    if |s| > 0 && IsSpace(s[0]) then StripLeft(s[1..]) else s
  }

  /** What `lstrip` leaves is a suffix after whitespace, and starts with no whitespace. */
  lemma {:induction false} StripLeftSpec(s: string)
    ensures var r := StripLeft(s);
      && |r| <= |s| && r == s[|s| - |r|..]
      && AllSpace(s[..|s| - |r|])
      && (r == [] || !IsSpace(r[0]))
  {
    if |s| > 0 && IsSpace(s[0]) {
      var r := StripLeft(s[1..]);
      StripLeftSpec(s[1..]);
      assert s[1..][..|s| - 1 - |r|] == s[1..|s| - |r|];
      assert s[|s| - |r|..] == s[1..][|s| - 1 - |r|..];
    }
  }

  /** `s.rstrip()`: drops trailing whitespace. */
  function StripRight(s: string): string {
    if |s| > 0 && IsSpace(s[|s| - 1]) then StripRight(s[..|s| - 1]) else s
  }

  /** What `rstrip` leaves is a prefix before whitespace, and ends with no whitespace. */
  lemma {:induction false} StripRightSpec(s: string)
    ensures var r := StripRight(s);
      && |r| <= |s| && r == s[..|r|]
      && AllSpace(s[|r|..])
      && (r == [] || !IsSpace(r[|r| - 1]))
  {
    if |s| > 0 && IsSpace(s[|s| - 1]) {
      StripRightSpec(s[..|s| - 1]);
      var r := StripRight(s[..|s| - 1]);
      assert s[..|s| - 1][..|r|] == s[..|r|];
      assert s[|r|..] == s[..|s| - 1][|r|..] + [s[|s| - 1]];
    }
  }

  /** `s.strip()`. */
  function Strip(s: string): (r: string)
    ensures IsStripped(r)
    ensures |r| <= |s|
  {
    StripLeftSpec(s);
    StripRightSpec(StripLeft(s));
    StripRight(StripLeft(s))
  }

  /** `strip` removes exactly a whitespace prefix and a whitespace suffix. */
  lemma StripSpec(s: string)
    ensures |StripLeft(s)| <= |s|
    ensures var k := |s| - |StripLeft(s)|;
      && k + |Strip(s)| <= |s|
      && Strip(s) == s[k..k + |Strip(s)|]
      && AllSpace(s[..k]) && AllSpace(s[k + |Strip(s)|..])
  {
    var l := StripLeft(s);
    StripLeftSpec(s);
    StripRightSpec(l);
    var k := |s| - |l|;
    var r := Strip(s);
    assert l == s[k..];
    assert r == l[..|r|];
    assert s[k + |r|..] == l[|r|..];
  }

  lemma StripLeftOfNonSpace(s: string)
    requires s == [] || !IsSpace(s[0])
    ensures StripLeft(s) == s
  {
  }

  /** Stripping text that is already stripped changes nothing. */
  lemma StripStripped(s: string)
    requires IsStripped(s)
    ensures Strip(s) == s
  {
    StripLeftOfNonSpace(s);
  }

  lemma {:induction false} StripLeftPadded(p: string, t: string)
    requires AllSpace(p) && (t == [] || !IsSpace(t[0]))
    ensures StripLeft(p + t) == t
  {
    if p == [] {
      assert p + t == t;
      StripLeftOfNonSpace(t);
    } else {
      assert (p + t)[1..] == p[1..] + t;
      StripLeftPadded(p[1..], t);
    }
  }

  lemma {:induction false} StripRightPadded(t: string, q: string)
    requires AllSpace(q) && (t == [] || !IsSpace(t[|t| - 1]))
    ensures StripRight(t + q) == t
  {
    if q == [] {
      assert t + q == t;
    } else {
      assert (t + q)[..|t + q| - 1] == t + q[..|q| - 1];
      StripRightPadded(t, q[..|q| - 1]);
    }
  }

  /** Stripping removes exactly the whitespace padding around stripped text. */
  lemma StripPadded(p: string, t: string, q: string)
    requires AllSpace(p) && AllSpace(q) && IsStripped(t)
    ensures Strip(p + t + q) == t
  {
    if t == [] {
      assert p + t + q == p + q;
      assert AllSpace(p + q);
      StripLeftPadded(p + q, []);
      assert p + q + [] == p + q;
    } else {
      assert p + t + q == p + (t + q);
      StripLeftPadded(p, t + q);
      StripRightPadded(t, q);
    }
  }

  /** Python's `str.upper()` on one character (ASCII letters). */
  function UpperChar(c: char): char {
    if 'a' <= c <= 'z' then (c as int - 32) as char else c
  }

  /** `s.upper()`. */
  function Upper(s: string): (r: string)
    ensures |r| == |s|
  {
    seq(|s|, i requires 0 <= i < |s| => UpperChar(s[i]))
  }

  /** No lower-case letter occurs in `s`. */
  predicate IsUpper(s: string) {
    forall i :: 0 <= i < |s| ==> !('a' <= s[i] <= 'z')
  }

  lemma UpperOfUpper(s: string)
    requires IsUpper(s)
    ensures Upper(s) == s
  {
  }

  /** Upper-casing keeps whitespace where it is, so stripped text stays stripped. */
  lemma UpperKeepsStripped(s: string)
    requires IsStripped(s)
    ensures IsStripped(Upper(s)) && IsUpper(Upper(s))
  {
  }

  function Count(s: string, c: char): (n: nat)
    ensures n <= |s|
  {
    if s == [] then 0 else (if s[0] == c then 1 else 0) + Count(s[1..], c)
  }

  /** `s.split(sep)` for a one-character separator. */
  function Split(s: string, sep: char): (r: seq<string>)
    ensures |r| == Count(s, sep) + 1
    ensures forall i :: 0 <= i < |r| ==> sep !in r[i]
  {
    if s == [] then [""]
    else
      var rest := Split(s[1..], sep);
      if s[0] == sep then [""] + rest else [[s[0]] + rest[0]] + rest[1..]
  }

  /** A text without the separator is one field. */
  lemma {:induction false} SplitWithoutSeparator(s: string, sep: char)
    requires sep !in s
    ensures Split(s, sep) == [s]
  {
    if s != [] {
      assert sep !in s[1..];
      SplitWithoutSeparator(s[1..], sep);
      assert s == [s[0]] + s[1..];
    }
  }

  /** A separator splits the text into the fields on either side of it. */
  lemma {:induction false} SplitConcat(a: string, b: string, sep: char)
    ensures Split(a + [sep] + b, sep) == Split(a, sep) + Split(b, sep)
  {
    if a == [] {
      assert a + [sep] + b == [sep] + b;
      assert ([sep] + b)[1..] == b;
    } else {
      assert (a + [sep] + b)[1..] == a[1..] + [sep] + b;
      assert (a + [sep] + b)[0] == a[0];
      SplitConcat(a[1..], b, sep);
    }
  }

  /** `sep.join(parts)`. */
  function Join(parts: seq<string>, sep: string): string {
    if parts == [] then ""
    else if |parts| == 1 then parts[0]
    else parts[0] + sep + Join(parts[1..], sep)
  }

  /** Splitting and joining back with the same separator gives the text back. */
  lemma {:induction false} JoinSplit(s: string, sep: char)
    ensures Join(Split(s, sep), [sep]) == s
  {
    if s != [] {
      var rest := Split(s[1..], sep);
      JoinSplit(s[1..], sep);
      if s[0] == sep {
        assert Split(s, sep) == [""] + rest;
        assert s == [sep] + s[1..];
      } else {
        var parts := Split(s, sep);
        assert parts == [[s[0]] + rest[0]] + rest[1..];
        if |rest| == 1 {
          assert s == [s[0]] + s[1..];
        } else {
          assert parts[1..] == rest[1..];
          assert Join(rest, [sep]) == rest[0] + [sep] + Join(rest[1..], [sep]);
          assert s == [s[0]] + s[1..];
        }
      }
    }
  }

  predicate StartsWith(s: string, prefix: string) {
    |prefix| <= |s| && s[..|prefix|] == prefix
  }

  predicate OccursAt(part: string, s: string, i: int) {
    0 <= i <= |s| - |part| && s[i..i + |part|] == part
  }

  predicate IsInfix(part: string, s: string) {
    exists i :: 0 <= i <= |s| && OccursAt(part, s, i)
  }

  /** Every part occurs in the joined text. */
  lemma {:induction false} JoinContainsParts(parts: seq<string>, sep: string, k: nat)
    requires k < |parts|
    ensures IsInfix(parts[k], Join(parts, sep))
  {
    var j := Join(parts, sep);
    if |parts| == 1 {
      assert OccursAt(parts[0], j, 0);
    } else if k == 0 {
      assert j == parts[0] + (sep + Join(parts[1..], sep));
      assert OccursAt(parts[0], j, 0);
    } else {
      JoinContainsParts(parts[1..], sep, k - 1);
      var rest := Join(parts[1..], sep);
      assert parts[1..][k - 1] == parts[k];
      var i :| 0 <= i <= |rest| && OccursAt(parts[k], rest, i);
      var head := parts[0] + sep;
      assert j == head + rest;
      assert j[|head| + i..|head| + i + |parts[k]|] == rest[i..i + |parts[k]|];
      assert OccursAt(parts[k], j, |head| + i);
    }
  }

  /**
   * The text before the first occurrence of `sep`, or all of `s` when there is
   * none. For `s` that starts with `sep`, `s.split(sep)[1]` is
   * `PrefixBefore(s[|sep|..], sep)`.
   */
  function PrefixBefore(s: string, sep: string): (r: string)
    requires |sep| > 0
    ensures |r| <= |s| && r == s[..|r|]
    ensures |r| == |s| || StartsWith(s[|r|..], sep)
    ensures forall i :: 0 <= i < |r| ==> !StartsWith(s[i..], sep)
  {
    if s == [] || StartsWith(s, sep) then []
    else
      var rest := PrefixBefore(s[1..], sep);
      assert forall i :: 1 <= i <= |s| ==> s[i..] == s[1..][i - 1..];
      [s[0]] + rest
  }

  /** When `sep` does not start inside `p`, the text before `sep` in `p + sep + q` is `p`. */
  lemma {:induction false} PrefixBeforeFirst(p: string, sep: string, q: string)
    requires |sep| > 0 && sep[0] !in p
    ensures PrefixBefore(p + sep + q, sep) == p
  {
    var s := p + sep + q;
    if p == [] {
      assert s == sep + q;
    } else {
      assert s[0] == p[0] != sep[0];
      assert s[1..] == p[1..] + sep + q;
      PrefixBeforeFirst(p[1..], sep, q);
    }
  }

  /** `a` is an in-order (not necessarily contiguous) subsequence of `b`. */
  predicate IsSubsequence(a: seq<string>, b: seq<string>) {
    if a == [] then true
    else if b == [] then false
    else if a[0] == b[0] then IsSubsequence(a[1..], b[1..])
    else IsSubsequence(a, b[1..])
  }

  /** A part of `b` is a part of any text that contains `b`. */
  lemma InfixOfConcat(part: string, a: string, b: string, c: string)
    requires IsInfix(part, b)
    ensures IsInfix(part, a + b + c)
  {
    var i :| 0 <= i <= |b| && OccursAt(part, b, i);
    var s := a + b + c;
    assert s[|a| + i..|a| + i + |part|] == b[i..i + |part|];
    assert OccursAt(part, s, |a| + i);
  }

  /** Python's string order: code-point lexicographic order. */
  predicate LexLess(a: string, b: string) {
    if a == [] then b != []
    else b != [] && (if a[0] == b[0] then LexLess(a[1..], b[1..]) else a[0] < b[0])
  }

  lemma {:induction false} LexIrreflexive(a: string)
    ensures !LexLess(a, a)
  {
    if a != [] {
      LexIrreflexive(a[1..]);
    }
  }

  lemma {:induction false} LexTransitive(a: string, b: string, c: string)
    requires LexLess(a, b) && LexLess(b, c)
    ensures LexLess(a, c)
  {
    if a != [] && a[0] == b[0] && b[0] == c[0] {
      LexTransitive(a[1..], b[1..], c[1..]);
    }
  }

  lemma {:induction false} LexTotal(a: string, b: string)
    requires a != b
    ensures LexLess(a, b) || LexLess(b, a)
  {
    if a != [] && b != [] && a[0] == b[0] {
      assert a == [a[0]] + a[1..] && b == [b[0]] + b[1..];
      LexTotal(a[1..], b[1..]);
    }
  }

  lemma LexAsymmetric(a: string, b: string)
    requires LexLess(a, b)
    ensures !LexLess(b, a)
  {
    if LexLess(b, a) {
      LexTransitive(a, b, a);
      LexIrreflexive(a);
    }
  }

  /** Taking one more element of a sequence appends that element. */
  lemma TakeOneMore<T>(s: seq<T>, i: int)
    requires 0 <= i < |s|
    ensures s[..i + 1] == s[..i] + [s[i]]
  {
    assert s[..i + 1][..i] == s[..i];
  }
}
