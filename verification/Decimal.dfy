/** Decimal numerals as Python's `str(n)` and `f"{n:010}"` print them, and a reader for them. */
module Decimal {

  import opened Wrappers

  predicate IsDigit(c: char) { '0' <= c <= '9' }

  predicate AllDigits(s: string) { forall i :: 0 <= i < |s| ==> IsDigit(s[i]) }

  function Digit(d: nat): (c: char)
    requires d < 10
    ensures IsDigit(c) && c as int - '0' as int == d
  {
    ('0' as int + d) as char
  }

  /** `str(n)`. */
  function Print(n: nat): (s: string)
    ensures AllDigits(s) && |s| > 0
  {
    if n < 10 then [Digit(n)] else Print(n / 10) + [Digit(n % 10)]
  }

  function Zeros(n: nat): (s: string)
    ensures |s| == n && forall i :: 0 <= i < n ==> s[i] == '0'
  {
    seq(n, i => '0')
  }

  /** `f"{n:010}"`: at least ten digits, padded with zeros on the left. */
  function Print10(n: nat): (s: string)
    ensures AllDigits(s) && |s| >= 10
  {
    var s := Print(n);
    if |s| < 10 then Zeros(10 - |s|) + s else s
  }

  /** The number a run of digits stands for. */
  function Value(s: string): nat
    requires AllDigits(s)
  {
    if s == "" then 0 else 10 * Value(s[..|s| - 1]) + (s[|s| - 1] as int - '0' as int)
  }

  /** The index just past the digits that start at `from`. */
  function DigitsEnd(s: string, from: nat): (e: nat)
    requires from <= |s|
    ensures from <= e <= |s| && AllDigits(s[from..e])
    ensures e < |s| ==> !IsDigit(s[e])
    decreases |s| - from
  {
    if from < |s| && IsDigit(s[from]) then
      var e := DigitsEnd(s, from + 1);
      assert s[from..e] == [s[from]] + s[from + 1..e];
      e
    else from
  }

  /** Reads a numeral at `from`: its value and where it ends. */
  function Read(s: string, from: nat): Option<(nat, nat)> {
    if from > |s| then None
    else
      var e := DigitsEnd(s, from);
      if e == from then None else Some((Value(s[from..e]), e))
  }

  lemma {:induction false} ValueOfPrint(n: nat)
    ensures Value(Print(n)) == n
  {
    var s := Print(n);
    if n < 10 {
      assert s[..|s| - 1] == "";
    } else {
      assert s[..|s| - 1] == Print(n / 10);
      ValueOfPrint(n / 10);
    }
  }

  lemma {:induction false} ValueIgnoresZeros(k: nat, s: string)
    requires AllDigits(s)
    ensures AllDigits(Zeros(k) + s) && Value(Zeros(k) + s) == Value(s)
  {
    var z := Zeros(k) + s;
    if s != "" {
      assert z[..|z| - 1] == Zeros(k) + s[..|s| - 1];
      ValueIgnoresZeros(k, s[..|s| - 1]);
    } else if k > 0 {
      assert z[..|z| - 1] == Zeros(k - 1) + "";
      ValueIgnoresZeros(k - 1, "");
    }
  }

  function Pow10(k: nat): nat { if k == 0 then 1 else 10 * Pow10(k - 1) }

  lemma {:induction false} PrintLength(n: nat, k: nat)
    requires k > 0
    ensures |Print(n)| <= k <==> n < Pow10(k)
  {
    if k == 1 {
      assert Pow10(1) == 10;
    } else if n < 10 {
      Pow10AtLeast10(k);
    } else {
      PrintLength(n / 10, k - 1);
    }
  }

  lemma {:induction false} Pow10AtLeast10(k: nat)
    requires k > 0
    ensures Pow10(k) >= 10
  {
    if k > 1 { Pow10AtLeast10(k - 1); }
  }

  const TEN_TO_10: nat := 10_000_000_000

  lemma Pow10Of10()
    ensures Pow10(10) == TEN_TO_10
  {
    assert Pow10(5) == 100_000;
    assert Pow10(6) == 1_000_000;
    assert Pow10(8) == 100_000_000;
  }

  /** A padded numeral reads back, and is ten characters wide exactly for numbers below 10^10. */
  lemma PaddedRoundTrip(n: nat)
    ensures Value(Print10(n)) == n
    ensures |Print10(n)| == 10 <==> n < TEN_TO_10
  {
    var s := Print(n);
    ValueOfPrint(n);
    PrintLength(n, 10);
    Pow10Of10();
    if |s| < 10 {
      ValueIgnoresZeros(10 - |s|, s);
    }
  }

  /** `digits` stands in `s` at `from` and no further digit follows. */
  predicate Stands(s: string, from: nat, digits: string) {
    && from + |digits| <= |s| && s[from..from + |digits|] == digits
    && (from + |digits| < |s| ==> !IsDigit(s[from + |digits|]))
  }

  lemma {:induction false} DigitsEndAt(s: string, from: nat, digits: string)
    requires AllDigits(digits) && Stands(s, from, digits)
    ensures DigitsEnd(s, from) == from + |digits|
    decreases |digits|
  {
    if digits != "" {
      assert s[from] == digits[0];
      assert s[from + 1..from + |digits|] == digits[1..];
      DigitsEndAt(s, from + 1, digits[1..]);
    }
  }

  /** Whatever surrounds it, a printed numeral followed by a non-digit reads back as its number. */
  lemma ReadBack(s: string, from: nat, n: nat)
    requires Stands(s, from, Print(n))
    ensures Read(s, from) == Some((n, from + |Print(n)|))
  {
    DigitsEndAt(s, from, Print(n));
    ValueOfPrint(n);
  }
}
