/**
 Canonical unsigned decimals as the publisher sequence fields store them, and
 the length-then-text order that both the SQL guards and the room compare with.
 */
module Decimals {
  const MAX_UINT64: nat := 18446744073709551615

  predicate IsDigit(c: char) {
    '0' <= c <= '9'
  }

  function Digit(c: char): (d: nat)
    requires IsDigit(c)
    ensures d <= 9
  {
    c as int - '0' as int
  }

  predicate AllDigits(s: string) {
    forall k :: 0 <= k < |s| ==> IsDigit(s[k])
  }

  /** One to twenty digits without a leading zero. */
  predicate IsCanonical(s: string) {
    1 <= |s| <= 20 && AllDigits(s) && s[0] != '0'
  }

  type Sequence = s: string | IsCanonical(s) witness "1"

  function Pow10(n: nat): nat {
    if n == 0 then 1 else 10 * Pow10(n - 1)
  }

  /** The number a digit string denotes. */
  function Value(s: string): nat
    requires AllDigits(s)
  {
    if |s| == 0 then 0 else Digit(s[0]) * Pow10(|s| - 1) + Value(s[1..])
  }

  /** Code-unit order, as both string comparison operators use it. */
  predicate TextLess(a: string, b: string) {
    if |b| == 0 then false
    else if |a| == 0 then true
    else a[0] < b[0] || (a[0] == b[0] && TextLess(a[1..], b[1..]))
  }

  /** The guard of every signed write: longer, or as long and textually greater. */
  predicate After(next: string, last: string) {
    |next| > |last| || (|next| == |last| && TextLess(last, next))
  }

  function ComparePublishSequences(left: string, right: string): int {
    if |left| != |right| then (if |left| > |right| then 1 else -1)
    else if left == right then 0
    else if TextLess(right, left) then 1
    else -1
  }

  lemma Scale(a: nat, b: nat, p: nat)
    requires a <= b
    ensures a * p <= b * p
  {
  }

  lemma {:induction false} ValueBounds(s: string)
    requires AllDigits(s)
    ensures Value(s) < Pow10(|s|)
    ensures |s| > 0 && s[0] != '0' ==> Pow10(|s| - 1) <= Value(s)
  {
    if |s| > 0 {
      ValueBounds(s[1..]);
      Scale(Digit(s[0]), 9, Pow10(|s| - 1));
      if s[0] != '0' {
        Scale(1, Digit(s[0]), Pow10(|s| - 1));
      }
    }
  }

  lemma Pow10Monotone(a: nat, b: nat)
    requires a <= b
    ensures Pow10(a) <= Pow10(b)
  {
    if a < b {
      Pow10Monotone(a, b - 1);
    }
  }

  lemma LeadingDigitDecides(a: nat, b: nat, p: nat, rest: nat)
    requires a < b && rest < p
    ensures a * p + rest < b * p
  {
    Scale(a + 1, b, p);
  }

  lemma {:induction false} SameLengthOrder(a: string, b: string)
    requires AllDigits(a) && AllDigits(b) && |a| == |b|
    ensures TextLess(a, b) <==> Value(a) < Value(b)
    ensures Value(a) == Value(b) ==> a == b
  {
    if |a| > 0 {
      SameLengthOrder(a[1..], b[1..]);
      ValueBounds(a[1..]);
      ValueBounds(b[1..]);
      var p := Pow10(|a| - 1);
      if a[0] < b[0] {
        LeadingDigitDecides(Digit(a[0]), Digit(b[0]), p, Value(a[1..]));
      } else if b[0] < a[0] {
        LeadingDigitDecides(Digit(b[0]), Digit(a[0]), p, Value(b[1..]));
      } else {
        assert a == [a[0]] + a[1..] && b == [b[0]] + b[1..];
      }
    }
  }

  /** The guard is numeric order on canonical sequences, at every length. */
  lemma AfterIsNumericOrder(next: Sequence, last: Sequence)
    ensures After(next, last) <==> Value(next) > Value(last)
    ensures Value(next) == Value(last) ==> next == last
  {
    ValueBounds(next);
    ValueBounds(last);
    if |next| > |last| {
      Pow10Monotone(|last|, |next| - 1);
    } else if |next| < |last| {
      Pow10Monotone(|next|, |last| - 1);
    } else {
      SameLengthOrder(last, next);
    }
  }

  /** The room's three-way comparison has the sign of the numeric difference. */
  lemma ComparisonIsNumeric(left: Sequence, right: Sequence)
    ensures ComparePublishSequences(left, right) > 0 <==> Value(left) > Value(right)
    ensures ComparePublishSequences(left, right) == 0 <==> left == right
    ensures ComparePublishSequences(left, right) < 0 <==> Value(left) < Value(right)
  {
    AfterIsNumericOrder(left, right);
    AfterIsNumericOrder(right, left);
  }

  // ---- printing the next admissible sequence ----------------------------------

  function DigitChar(d: nat): char
    requires d <= 9
  {
    (d + '0' as int) as char
  }

  function Render(n: nat): string {
    if n < 10 then [DigitChar(n)] else Render(n / 10) + [DigitChar(n % 10)]
  }

  lemma Regroup(d: nat, p: nat, v: nat, c: nat)
    ensures d * (10 * p) + (10 * v + c) == 10 * (d * p + v) + c
  {
  }

  lemma {:induction false} ValueAppend(s: string, c: char)
    requires AllDigits(s) && IsDigit(c)
    ensures AllDigits(s + [c]) && Value(s + [c]) == 10 * Value(s) + Digit(c)
  {
    if |s| == 0 {
      assert s + [c] == [c];
      assert Value([c]) == Digit(c) * Pow10(0) + Value([]);
    } else {
      ValueAppend(s[1..], c);
      assert (s + [c])[1..] == s[1..] + [c] && (s + [c])[0] == s[0];
      assert Pow10(|s|) == 10 * Pow10(|s| - 1);
      Regroup(Digit(s[0]), Pow10(|s| - 1), Value(s[1..]), Digit(c));
    }
  }

  lemma {:induction false} RenderDenotes(n: nat)
    ensures AllDigits(Render(n)) && |Render(n)| >= 1 && Value(Render(n)) == n
    ensures n > 0 ==> Render(n)[0] != '0'
  {
    if n < 10 {
      assert Value(Render(n)) == Digit(DigitChar(n)) * Pow10(0) + Value([]);
    } else {
      RenderDenotes(n / 10);
      ValueAppend(Render(n / 10), DigitChar(n % 10));
    }
  }

  lemma {:induction false} Pow10Add(a: nat, b: nat)
    ensures Pow10(a + b) == Pow10(a) * Pow10(b)
  {
    if a > 0 {
      Pow10Add(a - 1, b);
    }
  }

  lemma TwentyDigits()
    ensures Pow10(20) > MAX_UINT64
  {
    assert Pow10(5) == 10 * 10 * 10 * 10 * 10 * Pow10(0);
    Pow10Add(5, 5);
    Pow10Add(10, 10);
  }

  lemma RenderLength(n: nat)
    requires 1 <= n <= MAX_UINT64
    ensures IsCanonical(Render(n))
  {
    RenderDenotes(n);
    ValueBounds(Render(n));
    if |Render(n)| > 20 {
      Pow10Monotone(20, |Render(n)| - 1);
      TwentyDigits();
    }
  }

  function MinimumNextPublishSequence(last: Sequence): string {
    var next := Value(last) + 1;
    Render(if next > MAX_UINT64 then MAX_UINT64 else next)
  }

  /** The retry hint is the least sequence the guard admits, exactly while one is left. */
  lemma MinimumNextIsLeastAdmitted(last: Sequence)
    requires Value(last) <= MAX_UINT64
    ensures IsCanonical(MinimumNextPublishSequence(last))
    ensures After(MinimumNextPublishSequence(last), last) <==> Value(last) < MAX_UINT64
    ensures Value(last) < MAX_UINT64 ==> forall other: Sequence :: After(other, last) ==>
              Value(MinimumNextPublishSequence(last)) <= Value(other)
  {
    var hint := MinimumNextPublishSequence(last);
    var n := if Value(last) + 1 > MAX_UINT64 then MAX_UINT64 else Value(last) + 1;
    RenderDenotes(n);
    RenderLength(n);
    AfterIsNumericOrder(hint, last);
    forall other: Sequence | After(other, last)
      ensures Value(last) + 1 <= Value(other)
    {
      AfterIsNumericOrder(other, last);
    }
  }
}
