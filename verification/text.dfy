/**
 * The string operations the stack relies on: `String.prototype.includes`,
 * `split(sep).pop()`, decimal rendering of an index inside a template
 * literal, and the facts that make the resulting identifiers unambiguous.
 */
module Text {

  /** True when `sub` appears in `s` starting at index `i`. */
  ghost predicate OccursAt(s: string, sub: string, i: nat) {
    i + |sub| <= |s| && s[i..i + |sub|] == sub
  }

  /** `s.includes(sub)`: try each starting position from the left. */
  function Contains(s: string, sub: string): bool {
    if sub <= s then true
    else if |s| == 0 then false
    else Contains(s[1..], sub)
  }

  /** The search above finds exactly the occurrences of `sub`. */
  lemma {:induction false} ContainsIsOccurrence(s: string, sub: string)
    ensures Contains(s, sub) <==> exists i: nat :: OccursAt(s, sub, i)
  {
    if sub <= s {
      assert OccursAt(s, sub, 0);
    } else if |s| > 0 {
      ContainsIsOccurrence(s[1..], sub);
      if Contains(s[1..], sub) {
        var i: nat :| OccursAt(s[1..], sub, i);
        assert OccursAt(s, sub, i + 1);
      }
      if exists i: nat :: OccursAt(s, sub, i) {
        var i: nat :| OccursAt(s, sub, i);
        assert OccursAt(s, sub, 0) ==> sub <= s;
        assert OccursAt(s[1..], sub, i - 1);
      }
    } else {
      assert forall i: nat :: OccursAt(s, sub, i) ==> sub == [] && sub <= s;
    }
  }

  /**
   * The text after the last `sep`, or all of `s` when it holds none:
   * `s.split(sep).pop()`, which always yields a string because `split`
   * returns at least one piece.
   */
  function LastSegment(s: string, sep: char): (r: string)
    ensures |r| <= |s| && r == s[|s| - |r|..]
    ensures sep !in r
    ensures |r| < |s| ==> s[|s| - |r| - 1] == sep
  {
    if |s| == 0 || s[|s| - 1] == sep then []
    else LastSegment(s[..|s| - 1], sep) + [s[|s| - 1]]
  }

  /** Whatever precedes the last separator, the segment after it is recovered. */
  lemma {:induction false} LastSegmentAfterSeparator(x: string, y: string, sep: char)
    requires sep !in y
    ensures LastSegment(x + [sep] + y, sep) == y
  {
    var s := x + [sep] + y;
    if |y| == 0 {
      assert s[|s| - 1] == sep;
    } else {
      var init := y[..|y| - 1];
      assert s[|s| - 1] == y[|y| - 1] != sep;
      assert s[..|s| - 1] == x + [sep] + init;
      LastSegmentAfterSeparator(x, init, sep);
      assert y == init + [y[|y| - 1]];
    }
  }

  predicate IsDigit(c: char) {
    '0' <= c <= '9'
  }

  ghost predicate AllDigits(s: string) {
    forall k :: 0 <= k < |s| ==> IsDigit(s[k])
  }

  function DigitChar(d: nat): (c: char)
    requires d < 10
    ensures IsDigit(c) && c as int - '0' as int == d
  {
    ('0' as int + d) as char
  }

  /** `${n}` for a non-negative integer: its decimal digits, most significant first. */
  function DecimalString(n: nat): (r: string)
    ensures |r| >= 1 && AllDigits(r)
  {
    if n < 10 then [DigitChar(n)]
    else DecimalString(n / 10) + [DigitChar(n % 10)]
  }

  /** The number a string of decimal digits denotes (`parseInt(s, 10)` on such a string). */
  function DecimalValue(s: string): nat
    requires AllDigits(s)
  {
    if |s| == 0 then 0
    else DecimalValue(s[..|s| - 1]) * 10 + (s[|s| - 1] as int - '0' as int)
  }

  /** Reading back a rendered index gives the index. */
  lemma {:induction false} DecimalRoundTrip(n: nat)
    ensures DecimalValue(DecimalString(n)) == n
  {
    var s := DecimalString(n);
    if n >= 10 {
      DecimalRoundTrip(n / 10);
      assert s[..|s| - 1] == DecimalString(n / 10);
    }
  }

  /** Distinct indices render as distinct strings. */
  lemma DecimalStringInjective(a: nat, b: nat)
    ensures DecimalString(a) == DecimalString(b) ==> a == b
  {
    DecimalRoundTrip(a);
    DecimalRoundTrip(b);
  }

  /** A common prefix can be cancelled. */
  lemma PrefixCancel(p: string, x: string, y: string)
    ensures p + x == p + y ==> x == y
  {
    assert x == (p + x)[|p|..];
    assert y == (p + y)[|p|..];
  }

  /** A common suffix can be cancelled. */
  lemma SuffixCancel(x: string, y: string, q: string)
    ensures x + q == y + q ==> x == y
  {
    assert x == (x + q)[..|x|];
    assert y == (y + q)[..|y|];
  }

  /**
   * Splitting at the last separator is unambiguous: when the parts after
   * it hold no separator, equal joins have equal parts.
   */
  lemma SplitAtLast(a: string, b: string, c: string, d: string, sep: char)
    requires sep !in b && sep !in d
    ensures a + [sep] + b == c + [sep] + d ==> a == c && b == d
  {
    LastSegmentAfterSeparator(a, b, sep);
    LastSegmentAfterSeparator(c, d, sep);
    var s, t := a + [sep] + b, c + [sep] + d;
    if s == t {
      assert b == d;
      assert a == s[..|s| - |b| - 1];
      assert c == t[..|t| - |d| - 1];
    }
  }
}
