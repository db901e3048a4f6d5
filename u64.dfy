/**
 * Decimal text to `u64`, as Rust's `str::parse::<u64>` (`u64::from_str`) does it:
 * an optional leading `+`, then one or more ASCII digits (leading zeros allowed),
 * with a value of at most 2^64 - 1. A `-` sign, blanks, an empty string, a lone `+`
 * and an overflow are all errors; nothing is clamped.
 */
module U64 {
  import opened Wrappers

  const U64_MAX: int := 0xFFFF_FFFF_FFFF_FFFF

  type u64 = x: int | 0 <= x <= U64_MAX

  predicate IsDigit(c: char) {
    '0' <= c <= '9'
  }

  function DigitValue(c: char): (d: nat)
    requires IsDigit(c)
    ensures d < 10
  {
    (c as int) - ('0' as int)
  }

  function DigitChar(d: nat): (c: char)
    requires d < 10
    ensures IsDigit(c) && DigitValue(c) == d
  {
    ('0' as int + d) as char
  }

  predicate AllDigits(s: string) {
    forall i :: 0 <= i < |s| ==> IsDigit(s[i])
  }

  function Pow10(n: nat): (p: nat)
    ensures p >= 1
  {
    if n == 0 then 1 else 10 * Pow10(n - 1)
  }

  /** Positional value of a digit string, most significant digit first (the reference reading). */
  function DecimalValue(s: string): nat
    requires AllDigits(s)
  {
    if s == [] then 0 else DecimalValue(s[..|s| - 1]) * 10 + DigitValue(s[|s| - 1])
  }

  /** The text after Rust's optional `+` sign; `-` is not a sign for unsigned types. */
  function Unsigned(s: string): string {
    if |s| > 0 && s[0] == '+' then s[1..] else s
  }

  /** What `u64::from_str` accepts: sign-stripped text that is non-empty, all digits and in range. */
  predicate IsU64Text(s: string) {
    var digits := Unsigned(s);
    digits != [] && AllDigits(digits) && DecimalValue(digits) <= U64_MAX
  }

  /**
   * Rust's digit loop: left to right, `acc * 10 + d` with checked arithmetic, stopping
   * at the first character that is not a digit or at the first overflow.
   */
  function Accumulate(acc: u64, s: string): Option<u64>
    decreases |s|
  {
    if s == [] then Some(acc)
    else if !IsDigit(s[0]) then None
    else if acc * 10 + DigitValue(s[0]) > U64_MAX then None
    else Accumulate(acc * 10 + DigitValue(s[0]), s[1..])
  }

  /** `s.parse::<u64>()`: `None` is the `ParseIntError`. */
  function ParseU64(s: string): Option<u64>
  {
    var digits := Unsigned(s);
    if digits == [] then None else Accumulate(0, digits)
  }

  /** Decimal rendering of `n`, without sign or leading zeros (Rust's `n.to_string()`). */
  function FormatU64(n: nat): (s: string)
    ensures s != [] && AllDigits(s)
  {
    if n < 10 then [DigitChar(n)] else FormatU64(n / 10) + [DigitChar(n % 10)]
  }

  /** Splitting off the leading digit: the value of `[c] + rest`. */
  lemma {:induction false} DecimalValueCons(c: char, rest: string)
    requires IsDigit(c) && AllDigits(rest)
    ensures AllDigits([c] + rest)
    ensures DecimalValue([c] + rest) == DigitValue(c) * Pow10(|rest|) + DecimalValue(rest)
  {
    ConsAllDigits(c, rest);
    if rest != [] {
      var s := [c] + rest;
      var init := rest[..|rest| - 1];
      var last := DigitValue(rest[|rest| - 1]);
      assert s[..|s| - 1] == [c] + init;
      assert s[|s| - 1] == rest[|rest| - 1];
      DecimalValueCons(c, init);
      var p := Pow10(|init|);
      var d := DigitValue(c);
      var v := DecimalValue(init);
      assert DecimalValue(s) == (d * p + v) * 10 + last;
      assert DecimalValue(rest) == v * 10 + last;
      assert Pow10(|rest|) == 10 * p;
      ShiftDigit(d, p, v, last);
    }
  }

  lemma ShiftDigit(d: nat, p: nat, v: nat, last: nat)
    ensures (d * p + v) * 10 + last == d * (10 * p) + (v * 10 + last)
  {
  }

  lemma ConsAllDigits(c: char, rest: string)
    requires IsDigit(c) && AllDigits(rest)
    ensures AllDigits([c] + rest)
  {
    var s := [c] + rest;
    forall i | 0 <= i < |s| ensures IsDigit(s[i]) {
      if i > 0 { assert s[i] == rest[i - 1]; }
    }
  }

  /** The value the digit loop reaches from `acc` after reading all of `s`. */
  function Extend(acc: nat, s: string): nat
    requires AllDigits(s)
  {
    acc * Pow10(|s|) + DecimalValue(s)
  }

  /** The checked loop computes `Extend(acc, s)` and fails exactly when that leaves range or a non-digit occurs. */
  lemma {:induction false} AccumulateMeaning(acc: u64, s: string)
    ensures Accumulate(acc, s).Some? <==> AllDigits(s) && Extend(acc, s) <= U64_MAX
    ensures Accumulate(acc, s).Some? ==> Accumulate(acc, s).value == Extend(acc, s)
    decreases |s|
  {
    if s == [] {
      assert Extend(acc, s) == acc * 1 + 0;
    } else {
      var rest := s[1..];
      assert s == [s[0]] + rest;
      if !IsDigit(s[0]) {
        assert !AllDigits(s);
      } else if !AllDigits(rest) {
        assert !AllDigits(s) by {
          var i :| 0 <= i < |rest| && !IsDigit(rest[i]);
          assert s[i + 1] == rest[i];
        }
        if acc * 10 + DigitValue(s[0]) <= U64_MAX {
          AccumulateMeaning(acc * 10 + DigitValue(s[0]), rest);
        }
      } else {
        var next := acc * 10 + DigitValue(s[0]);
        StepValue(acc, s[0], rest);
        ExtendAtLeast(next, rest);
        if next <= U64_MAX {
          AccumulateMeaning(next, rest);
        }
      }
    }
  }

  /** Reading more digits never decreases the accumulated value. */
  lemma ExtendAtLeast(acc: nat, s: string)
    requires AllDigits(s)
    ensures Extend(acc, s) >= acc
  {
    assert acc * 1 <= acc * Pow10(|s|);
  }

  /** One step of the loop, in terms of the whole text's value. */
  lemma StepValue(acc: nat, c: char, rest: string)
    requires IsDigit(c) && AllDigits(rest)
    ensures AllDigits([c] + rest)
    ensures Extend(acc, [c] + rest) == Extend(acc * 10 + DigitValue(c), rest)
  {
    DecimalValueCons(c, rest);
    var p := Pow10(|rest|);
    assert Pow10(|[c] + rest|) == 10 * p;
    assert acc * (10 * p) == (acc * 10) * p;
    assert (acc * 10) * p + DigitValue(c) * p == (acc * 10 + DigitValue(c)) * p;
  }

  /** `u64::from_str` succeeds exactly on `+`? digits+ text in range, and yields the text's value. */
  lemma ParseU64Meaning(s: string)
    ensures ParseU64(s).Some? <==> IsU64Text(s)
    ensures ParseU64(s).Some? ==> ParseU64(s).value == DecimalValue(Unsigned(s))
  {
    if Unsigned(s) != [] && AllDigits(Unsigned(s)) {
      assert Extend(0, Unsigned(s)) == DecimalValue(Unsigned(s));
    }
    AccumulateMeaning(0, Unsigned(s));
  }

  /** Rendering and parsing are inverse on every `u64`. */
  lemma {:induction false} ParseFormat(n: u64)
    ensures ParseU64(FormatU64(n)) == Some(n)
  {
    FormatValue(n);
    ParseU64Meaning(FormatU64(n));
  }

  lemma {:induction false} FormatValue(n: nat)
    ensures DecimalValue(FormatU64(n)) == n
  {
    var s := FormatU64(n);
    if n >= 10 {
      FormatValue(n / 10);
      assert s[..|s| - 1] == FormatU64(n / 10);
    }
  }

  /** A leading `-` is always rejected, even for `-0`: unsigned parsing has no minus sign. */
  lemma NegativeRejected(s: string)
    requires |s| > 0 && s[0] == '-'
    ensures ParseU64(s) == None
  {
    ParseU64Meaning(s);
  }

  /** Any text whose value exceeds 2^64 - 1 is rejected, never saturated. */
  lemma OverflowRejected(s: string)
    requires AllDigits(s) && DecimalValue(s) > U64_MAX
    ensures ParseU64(s) == None
  {
    ParseU64Meaning(s);
  }

  /** Texts `u64::from_str` accepts and rejects: no sign but `+`, no blanks, no empty digits. */
  lemma ParseExamples()
    ensures ParseU64("+7") == Some(7) && ParseU64("007") == Some(7)
    ensures ParseU64("") == None && ParseU64("+") == None && ParseU64("-0") == None
    ensures ParseU64(" 1") == None && ParseU64("abc") == None && ParseU64("1.5") == None
  {
  }

  /** The digit loop over a concatenation continues from where the first part stopped. */
  lemma {:induction false} AccumulateAppend(acc: u64, a: string, b: string)
    ensures Accumulate(acc, a + b) ==
              match Accumulate(acc, a)
              case None => None
              case Some(x) => Accumulate(x, b)
    decreases |a|
  {
    if a != [] {
      assert (a + b)[0] == a[0];
      assert (a + b)[1..] == a[1..] + b;
      if IsDigit(a[0]) && acc * 10 + DigitValue(a[0]) <= U64_MAX {
        AccumulateAppend(acc * 10 + DigitValue(a[0]), a[1..], b);
      }
    } else {
      assert a + b == b;
    }
  }

  /** The first fifteen digits of 2^64, shared by the two examples below. */
  lemma HighDigits()
    ensures Accumulate(0, "18446" + "74407" + "37095") == Some(184467440737095)
  {
    assert Accumulate(0, "18446") == Some(18446);
    assert Accumulate(18446, "74407") == Some(1844674407);
    assert Accumulate(1844674407, "37095") == Some(184467440737095);
    AccumulateAppend(0, "18446" + "74407", "37095");
    AccumulateAppend(0, "18446", "74407");
  }

  /** The largest `u64`, 18446744073709551615, is accepted. */
  lemma ParseMaxExample()
    ensures ParseU64("18446" + "74407" + "37095" + "51615") == Some(U64_MAX)
  {
    var high := "18446" + "74407" + "37095";
    HighDigits();
    assert Accumulate(184467440737095, "51615") == Some(U64_MAX);
    AccumulateAppend(0, high, "51615");
    assert (high + "51615")[0] == '1';
  }

  /** One more than the largest `u64`, 18446744073709551616, is rejected. */
  lemma ParseOverflowExample()
    ensures ParseU64("18446" + "74407" + "37095" + "51616") == None
  {
    var high := "18446" + "74407" + "37095";
    HighDigits();
    assert Accumulate(184467440737095, "51616") == None;
    AccumulateAppend(0, high, "51616");
    assert (high + "51616")[0] == '1';
  }
}
