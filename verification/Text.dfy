/**
 Decimal and zero-padded rendering, the byte order SQLite uses to compare TEXT, and the
 "last separator" argument that makes colon-separated keys unambiguous.
*/
module Text {

  predicate IsDigit(c: char) {
    '0' <= c <= '9'
  }

  predicate AllDigits(s: string) {
    forall i | 0 <= i < |s| :: IsDigit(s[i])
  }

  predicate Lacks(s: string, c: char) {
    forall i | 0 <= i < |s| :: s[i] != c
  }

  function DigitChar(d: nat): (c: char)
    requires d < 10
    ensures IsDigit(c) && c as int == 48 + d
  {
    (48 + d) as char
  }

  function Pow10(w: nat): (p: nat)
    ensures p > 0
  {
    if w == 0 then 1 else 10 * Pow10(w - 1)
  }

  /** The rendering `{:0w}` of a number: at least `w` digits, padded with zeros on the left. */
  function Padded(n: nat, w: nat): string {
    if w == 0 && n == 0 then ""
    else Padded(n / 10, if w == 0 then 0 else w - 1) + [DigitChar(n % 10)]
  }

  /** The rendering `{}` of a number. */
  function Digits(n: nat): string {
    Padded(n, 1)
  }

  function Value(s: string): nat
    requires AllDigits(s)
  {
    if s == "" then 0 else 10 * Value(s[..|s| - 1]) + (s[|s| - 1] as int - 48)
  }

  /** Reading a rendering back gives the number, whatever the padding. */
  lemma {:induction false} PaddedValue(n: nat, w: nat)
    ensures AllDigits(Padded(n, w)) && Value(Padded(n, w)) == n
    ensures |Padded(n, w)| >= w
  {
    if w == 0 && n == 0 {
    } else {
      var rest := Padded(n / 10, if w == 0 then 0 else w - 1);
      PaddedValue(n / 10, if w == 0 then 0 else w - 1);
      var s := rest + [DigitChar(n % 10)];
      assert s[..|s| - 1] == rest;
      assert Padded(n, w) == s;
    }
  }

  lemma PaddedInjective(n: nat, m: nat, w: nat)
    requires Padded(n, w) == Padded(m, w)
    ensures n == m
  {
    PaddedValue(n, w);
    PaddedValue(m, w);
  }

  lemma {:induction false} PaddedLength(n: nat, w: nat)
    requires n < Pow10(w)
    ensures |Padded(n, w)| == w
  {
    if w > 0 {
      PaddedLength(n / 10, w - 1);
    }
  }

  // ------------------------------------------------------------------
  // Text order

  /** Strict TEXT order: the first differing character decides, a proper prefix is smaller. */
  predicate Less(a: string, b: string) {
    if b == "" then false
    else if a == "" then true
    else if a[0] != b[0] then a[0] < b[0]
    else Less(a[1..], b[1..])
  }

  lemma {:induction false} LessIrreflexive(a: string)
    ensures !Less(a, a)
  {
    if a != "" {
      LessIrreflexive(a[1..]);
    }
  }

  lemma {:induction false} LessTransitive(a: string, b: string, c: string)
    requires Less(a, b) && Less(b, c)
    ensures Less(a, c)
  {
    if a != "" && a[0] == b[0] && b[0] == c[0] {
      LessTransitive(a[1..], b[1..], c[1..]);
    }
  }

  lemma {:induction false} LessTotal(a: string, b: string)
    ensures Less(a, b) || a == b || Less(b, a)
  {
    if a != "" && b != "" && a[0] == b[0] {
      LessTotal(a[1..], b[1..]);
      if a[1..] == b[1..] {
        assert a == [a[0]] + a[1..] && b == [b[0]] + b[1..];
      }
    }
  }

  lemma LessAsymmetric(a: string, b: string)
    requires Less(a, b)
    ensures !Less(b, a) && a != b
  {
    if Less(b, a) {
      LessTransitive(a, b, a);
    }
    LessIrreflexive(a);
  }

  lemma {:induction false} LessExtends(a: string, b: string, x: string, y: string)
    requires |a| == |b| && Less(a, b)
    ensures Less(a + x, b + y)
  {
    assert (a + x)[0] == a[0] && (b + y)[0] == b[0];
    if a[0] == b[0] {
      LessExtends(a[1..], b[1..], x, y);
      assert (a + x)[1..] == a[1..] + x && (b + y)[1..] == b[1..] + y;
    }
  }

  lemma {:induction false} LessAfterPrefix(p: string, x: string, y: string)
    ensures Less(p + x, p + y) == Less(x, y)
  {
    if p == "" {
      assert p + x == x && p + y == y;
    } else {
      LessAfterPrefix(p[1..], x, y);
      assert (p + x)[1..] == p[1..] + x && (p + y)[1..] == p[1..] + y;
    }
  }

  /** Below 10^w, padded numbers sort as text exactly as they sort as numbers. */
  lemma {:induction false} PaddedOrder(n: nat, m: nat, w: nat)
    requires n < m < Pow10(w)
    ensures Less(Padded(n, w), Padded(m, w))
  {
    if w > 0 {
      PaddedLength(n / 10, w - 1);
      PaddedLength(m / 10, w - 1);
      if n / 10 < m / 10 {
        PaddedOrder(n / 10, m / 10, w - 1);
        LessExtends(Padded(n / 10, w - 1), Padded(m / 10, w - 1), [DigitChar(n % 10)], [DigitChar(m % 10)]);
      } else {
        assert n / 10 == m / 10 && n % 10 < m % 10;
        LessAfterPrefix(Padded(n / 10, w - 1), [DigitChar(n % 10)], [DigitChar(m % 10)]);
      }
    }
  }

  /** The largest w-digit number starts with 9 and its successor with 1, so they sort backwards. */
  lemma {:induction false} PaddedRollover(w: nat)
    requires w > 0
    ensures |Padded(Pow10(w), w)| > 0 && Padded(Pow10(w), w)[0] == '1'
    ensures |Padded(Pow10(w) - 1, w)| > 0 && Padded(Pow10(w) - 1, w)[0] == '9'
  {
    if w == 1 {
      assert Padded(1, 0) == Padded(0, 0) + ['1'];
      assert Padded(10, 1) == Padded(1, 0) + ['0'];
      assert Padded(9, 1) == Padded(0, 0) + ['9'];
    } else {
      PaddedRollover(w - 1);
      assert Pow10(w) / 10 == Pow10(w - 1);
      assert (Pow10(w) - 1) / 10 == Pow10(w - 1) - 1;
    }
  }

  lemma RolloverMissorts(w: nat)
    requires w > 0
    ensures !Less(Padded(Pow10(w) - 1, w), Padded(Pow10(w), w))
  {
    PaddedRollover(w);
  }

  // ------------------------------------------------------------------
  // Separators

  lemma SplitAt(a: string, x: string, c: char)
    ensures (a + [c] + x)[|a|] == c
    ensures Lacks(x, c) ==> forall k | |a| < k < |a + [c] + x| :: (a + [c] + x)[k] != c
    ensures Lacks(a, c) ==> forall k | 0 <= k < |a| :: (a + [c] + x)[k] != c
    ensures (a + [c] + x)[..|a|] == a && (a + [c] + x)[|a| + 1..] == x
  {
  }

  /** What follows the last separator determines both halves. */
  lemma LastSeparator(a: string, x: string, b: string, y: string, c: char)
    requires Lacks(x, c) && Lacks(y, c)
    requires a + [c] + x == b + [c] + y
    ensures a == b && x == y
  {
    SplitAt(a, x, c);
    SplitAt(b, y, c);
  }

  /** What precedes the first separator determines both halves. */
  lemma FirstSeparator(a: string, x: string, b: string, y: string, c: char)
    requires Lacks(a, c) && Lacks(b, c)
    requires a + [c] + x == b + [c] + y
    ensures a == b && x == y
  {
    SplitAt(a, x, c);
    SplitAt(b, y, c);
  }

  lemma DigitsLack(n: nat, c: char)
    requires !IsDigit(c)
    ensures Lacks(Digits(n), c)
  {
    PaddedValue(n, 1);
  }
}
