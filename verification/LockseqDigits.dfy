/** What `parse_digits` makes of a number that does not fit its 32 bits. */
module LockseqDigits {
  import opened LockseqKeys

  predicate Digits(s: string, from: nat, end: nat) {
    from <= end <= |s| && forall i :: from <= i < end ==> IsDigit(s[i])
  }

  /** The number that the digits stand for. */
  function Number(s: string, from: nat, end: nat): nat
    requires Digits(s, from, end)
    decreases end
  {
    if from == end then 0 else Number(s, from, end - 1) * 10 + DigitValue(s[end - 1])
  }

  /** What of it is left in 32 bits. */
  function Wrapped(s: string, from: nat, end: nat): nat
    requires Digits(s, from, end)
  {
    Number(s, from, end) % WORD
  }

  /** The value drops at digit `k`, which is what the test for overflow sees. */
  predicate Drops(s: string, from: nat, end: nat, k: nat)
    requires Digits(s, from, end) && from <= k < end
  {
    Wrapped(s, from, k + 1) < Wrapped(s, from, k)
  }

  predicate DropsFrom(s: string, from: nat, k: nat, end: nat)
    requires Digits(s, from, end) && from <= k <= end
  {
    exists i :: k <= i < end && Drops(s, from, end, i)
  }

  predicate Noticed(s: string, from: nat, end: nat)
    requires Digits(s, from, end)
  {
    DropsFrom(s, from, from, end)
  }

  lemma WrapStep(n: nat, d: nat)
    requires d < 10
    ensures (n % WORD * 10 + d) % WORD == (n * 10 + d) % WORD
  {
    var q, r := n / WORD, n % WORD;
    var x := r * 10 + d;
    assert n * 10 + d == (10 * q + x / WORD) * WORD + x % WORD;
    WordMod(10 * q + x / WORD, x % WORD);
  }

  lemma WordMod(q: nat, r: nat)
    requires r < WORD
    ensures (q * WORD + r) % WORD == r && (q * WORD + r) / WORD == q
  {
  }

  lemma {:induction false} ParseWraps(s: string, from: nat, k: nat, end: nat)
    requires Digits(s, from, end) && from <= k <= end
    ensures ParseFrom(s, k, end, Wrapped(s, from, k)) ==
            if DropsFrom(s, from, k, end) then NOT_A_NUMBER else Wrapped(s, from, end)
    decreases |s| - k
  {
    if k < end {
      NextDigit(s, from, k);
      ParseWraps(s, from, k + 1, end);
      hide Number, Wrapped;
      assert Drops(s, from, end, k) <==> Wrapped(s, from, k + 1) < Wrapped(s, from, k);
      assert DropsFrom(s, from, k, end) <==> Drops(s, from, end, k) || DropsFrom(s, from, k + 1, end);
    }
  }

  lemma NextDigit(s: string, from: nat, k: nat)
    requires Digits(s, from, k + 1) && from <= k
    ensures Number(s, from, k + 1) == Number(s, from, k) * 10 + DigitValue(s[k])
    ensures Wrapped(s, from, k + 1) == (Wrapped(s, from, k) * 10 + DigitValue(s[k])) % WORD
  {
    WrapStep(Number(s, from, k), DigitValue(s[k]));
  }

  /** Exactly what comes out: the mark if the value has dropped at some digit, else what is left in 32 bits. */
  lemma ParseExact(s: string, from: nat, end: nat)
    requires Digits(s, from, end) && from < end
    ensures ParseDigits(s, from, end) == if Noticed(s, from, end) then NOT_A_NUMBER else Wrapped(s, from, end)
  {
    ParseWraps(s, from, from, end);
  }

  /** An overflow is reported exactly if it is noticed, but for numbers of which just the mark is left. */
  lemma OverflowReported(s: string, from: nat, end: nat)
    requires Digits(s, from, end) && from < end && Number(s, from, end) >= WORD
    ensures ParseDigits(s, from, end) == NOT_A_NUMBER <==> Noticed(s, from, end) || Wrapped(s, from, end) == NOT_A_NUMBER
  {
    ParseExact(s, from, end);
  }

  lemma {:induction false} Grows(s: string, from: nat, k: nat, end: nat)
    requires Digits(s, from, end) && from <= k <= end
    ensures Number(s, from, k) <= Number(s, from, end)
    decreases end
  {
    if k < end { Grows(s, from, k, end - 1); }
  }

  lemma NoDrop(s: string, from: nat, end: nat, k: nat)
    requires Digits(s, from, end) && from <= k < end && Number(s, from, end) < WORD
    ensures !Drops(s, from, end, k)
  {
    Grows(s, from, k + 1, end);
    Grows(s, from, k, k + 1);
    hide Number;
  }

  /** The result is the number exactly if the number fits. */
  lemma RightIfFits(s: string, from: nat, end: nat)
    requires Digits(s, from, end) && from < end
    ensures ParseDigits(s, from, end) == Number(s, from, end) <==> Number(s, from, end) < WORD
  {
    hide Number, ParseDigits, Drops, Digits;
    ParseExact(s, from, end);
    if Number(s, from, end) < WORD {
      forall k | from <= k < end ensures !Drops(s, from, end, k) { NoDrop(s, from, end, k); }
    }
  }

  /** One digit more, and the overflow goes unnoticed: nine times the value and the digit have to make up
      for what is lost. */
  lemma MissedStep(v: nat, d: nat)
    requires v < WORD && d < 10
    ensures var x := v * 10 + d;
            x >= WORD && x % WORD >= v <==> 1 <= x / WORD && x / WORD * WORD <= v * 9 + d
  {
    var x := v * 10 + d;
    assert x == x / WORD * WORD + x % WORD;
  }

  const MISSED: string := "5000000000"

  /** A number with an overflow that is missed. */
  lemma MissedOverflow()
    ensures Digits(MISSED, 0, 10) && Number(MISSED, 0, 10) == 5000000000 && !Noticed(MISSED, 0, 10)
    ensures ParseDigits(MISSED, 0, 10) == 705032704
  {
    FirstDigits();
    hide Number;
    forall k | 0 <= k < 10 ensures !Drops(MISSED, 0, 10, k) {
      if k < 9 { assert k in {0, 1, 2, 3, 4, 5, 6, 7, 8}; }
    }
    ParseExact(MISSED, 0, 10);
  }

  lemma FirstDigits()
    ensures Digits(MISSED, 0, 10) && Number(MISSED, 0, 0) == 0 && Number(MISSED, 0, 1) == 5
    ensures Number(MISSED, 0, 2) == 50 && Number(MISSED, 0, 3) == 500 && Number(MISSED, 0, 4) == 5000
    ensures Number(MISSED, 0, 5) == 50000 && Number(MISSED, 0, 6) == 500000 && Number(MISSED, 0, 7) == 5000000
    ensures Number(MISSED, 0, 8) == 50000000 && Number(MISSED, 0, 9) == 500000000 && Number(MISSED, 0, 10) == 5000000000
  {
    assert forall k :: 0 <= k < 10 ==> DigitValue(MISSED[k]) == if k == 0 then 5 else 0;
  }
}
