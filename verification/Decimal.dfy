/** Unsigned integers as decimal text, and the order of texts. */
module Decimal {

  function DigitChar(d: nat): char
    requires d < 10
  {
    '0' + d as char
  }

  predicate IsDigit(c: char) {
    '0' <= c <= '9'
  }

  predicate AllDigits(s: string) {
    forall i :: 0 <= i < |s| ==> IsDigit(s[i])
  }

  /** The decimal text of `n`, without leading zeros. */
  function Digits(n: nat): (s: string)
    ensures s != "" && AllDigits(s)
    ensures |s| > 1 ==> s[0] != '0'
  {
    if n < 10 then [DigitChar(n)] else Digits(n / 10) + [DigitChar(n % 10)]
  }

  /** The number a text of digits stands for. */
  function Value(s: string): nat
    requires AllDigits(s)
  {
    if s == "" then 0 else 10 * Value(s[..|s| - 1]) + (s[|s| - 1] as int - '0' as int)
  }

  lemma {:induction false} ValueOfDigits(n: nat)
    ensures Value(Digits(n)) == n
  {
    if n >= 10 {
      var s := Digits(n / 10);
      assert Digits(n)[..|s|] == s;
      ValueOfDigits(n / 10);
    } else {
      assert Digits(n)[..0] == "";
    }
  }

  /** A text of digits is canonical, the text of its value, unless it has a leading zero. */
  lemma {:induction false} DigitsOfValue(s: string)
    requires s != "" && AllDigits(s)
    ensures Digits(Value(s)) == s <==> (s[0] == '0' ==> |s| == 1)
  {
    var front, d := s[..|s| - 1], s[|s| - 1] as int - '0' as int;
    assert s == front + [s[|s| - 1]];
    if |s| > 1 && s[0] != '0' {
      DigitsOfValue(front);
      assert Digits(Value(front)) == front;
      NonZero(front);
      assert Value(s) / 10 == Value(front) && Value(s) % 10 == d;
    } else if |s| == 1 {
      assert Value(front) == 0;
    }
  }

  lemma {:induction false} NonZero(s: string)
    requires s != "" && AllDigits(s) && s[0] != '0'
    ensures Value(s) > 0
  {
    if |s| > 1 {
      NonZero(s[..|s| - 1]);
    }
  }

  function Pow10(k: nat): nat {
    if k == 0 then 1 else 10 * Pow10(k - 1)
  }

  lemma {:induction false} DigitsLength(n: nat, k: nat)
    requires k > 0 && n < Pow10(k)
    ensures |Digits(n)| <= k
  {
    if n >= 10 {
      DigitsLength(n / 10, k - 1);
    }
  }

  function Zeros(k: nat): (s: string)
    ensures |s| == k && AllDigits(s)
  {
    seq(k, i => '0')
  }

  /** `n` in at least `k` digits. */
  function Padded(n: nat, k: nat): string {
    var s := Digits(n);
    if |s| < k then Zeros(k - |s|) + s else s
  }

  lemma {:induction false} ZerosAddNothing(k: nat, s: string)
    requires AllDigits(s)
    ensures AllDigits(Zeros(k) + s) && Value(Zeros(k) + s) == Value(s)
  {
    var t := Zeros(k) + s;
    if s != "" {
      assert t[..|t| - 1] == Zeros(k) + s[..|s| - 1];
      ZerosAddNothing(k, s[..|s| - 1]);
    } else if k > 0 {
      assert t[..k - 1] == Zeros(k - 1) + s;
      ZerosAddNothing(k - 1, s);
    }
  }

  /** A padded number can be read back, and has its width unless it needs more. */
  lemma PaddedReads(n: nat, k: nat)
    requires k > 0
    ensures var s := Padded(n, k); AllDigits(s) && Value(s) == n && |s| >= k && (n < Pow10(k) ==> |s| == k)
  {
    ValueOfDigits(n);
    if |Digits(n)| < k { ZerosAddNothing(k - |Digits(n)|, Digits(n)); }
    if n < Pow10(k) { PaddedStep(n, k); }
  }

  /** The first text is before the second one, character by character. */
  ghost predicate TextBefore(a: string, b: string) {
    exists i: nat :: DiffersAt(a, b, i)
  }

  predicate DiffersAt(a: string, b: string, i: nat) {
    i < |a| && i < |b| && a[..i] == b[..i] && a[i] < b[i]
  }

  lemma BeforeByPrefix(a: string, b: string, x: string, y: string)
    ensures TextBefore(a, b) ==> TextBefore(a + x, b + y)
    ensures a == b && TextBefore(x, y) ==> TextBefore(a + x, b + y)
  {
    if TextBefore(a, b) {
      var i: nat :| DiffersAt(a, b, i);
      assert (a + x)[..i] == a[..i] && (b + y)[..i] == b[..i];
      assert DiffersAt(a + x, b + y, i);
    }
    if a == b && TextBefore(x, y) {
      var i: nat :| DiffersAt(x, y, i);
      assert (a + x)[..|a| + i] == a + x[..i] && (b + y)[..|a| + i] == b + y[..i];
      assert DiffersAt(a + x, b + y, |a| + i);
    }
  }

  /** Padding in steps of one digit. */
  lemma {:induction false} PaddedStep(n: nat, k: nat)
    requires k > 0 && n < Pow10(k)
    ensures |Padded(n, k)| == k
    ensures k > 1 ==> n / 10 < Pow10(k - 1) && Padded(n, k) == Padded(n / 10, k - 1) + [DigitChar(n % 10)]
  {
    DigitsLength(n, k);
    if k > 1 {
      DigitsLength(n / 10, k - 1);
      if n < 10 {
        assert Digits(n / 10) == "0";
        if k > 2 {
          assert Zeros(k - 1) == Zeros(k - 2) + "0";
          assert Padded(n, k) == Zeros(k - 1) + [DigitChar(n)];
        }
      } else if |Digits(n)| < k {
        assert Zeros(k - |Digits(n)|) == Zeros(k - 1 - |Digits(n / 10)|);
      }
    }
  }

  lemma OneDigit(a: nat, b: nat)
    requires a < b < 10
    ensures TextBefore([DigitChar(a)], [DigitChar(b)])
  {
    assert DiffersAt([DigitChar(a)], [DigitChar(b)], 0);
  }

  /** Padded numbers of one width are ordered as texts like the numbers. */
  lemma {:induction false} PaddedOrder(a: nat, b: nat, k: nat)
    requires k > 0 && a < b < Pow10(k)
    ensures TextBefore(Padded(a, k), Padded(b, k))
  {
    if k == 1 {
      OneDigit(a, b);
    } else {
      PaddedStep(a, k);
      PaddedStep(b, k);
      BeforeByPrefix(Padded(a / 10, k - 1), Padded(b / 10, k - 1), [DigitChar(a % 10)], [DigitChar(b % 10)]);
      if a / 10 < b / 10 {
        PaddedOrder(a / 10, b / 10, k - 1);
      } else {
        OneDigit(a % 10, b % 10);
      }
    }
  }
}
