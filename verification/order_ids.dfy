/**
  Order ids: "ORD" followed by the last six characters of the decimal
  rendering of the millisecond clock. The clock reading is a parameter.
*/
module OrderIds {

  function Pow10(k: nat): (p: nat)
    ensures p >= 1
  {
    if k == 0 then 1 else 10 * Pow10(k - 1)
  }

  function DigitChar(d: nat): char
    requires d < 10
  {
    "0123456789"[d]
  }

  /** The decimal rendering of a non-negative integer, without leading zeros. */
  function DecimalString(n: nat): (s: string)
    ensures 1 <= |s|
    ensures forall i :: 0 <= i < |s| ==> '0' <= s[i] <= '9'
    decreases n
  {
    if n < 10 then [DigitChar(n)] else DecimalString(n / 10) + [DigitChar(n % 10)]
  }

  /** `s.slice(-k)` for k >= 1: the last k characters, or all of s when it is shorter. */
  function SliceLast(s: string, k: nat): (r: string)
    requires k >= 1
    ensures |r| == if |s| < k then |s| else k
    ensures r == s[|s| - |r|..]
  {
    if |s| <= k then s else s[|s| - k..]
  }

  /** The id placeOrder gives an order placed at clock reading `now`. */
  function OrderIdAt(now: nat): string
  {
    "ORD" + SliceLast(DecimalString(now), 6)
  }

  /** An order id is "ORD" followed by one to six decimal digits. */
  lemma OrderIdShape(now: nat)
    ensures 4 <= |OrderIdAt(now)| <= 9
    ensures OrderIdAt(now)[..3] == "ORD"
    ensures forall i :: 3 <= i < |OrderIdAt(now)| ==> '0' <= OrderIdAt(now)[i] <= '9'
  {
    var d := SliceLast(DecimalString(now), 6);
    assert forall i :: 3 <= i < |OrderIdAt(now)| ==> OrderIdAt(now)[i] == d[i - 3];
  }

  /** The k lowest decimal digits of n, padded with zeros. */
  function Padded(n: nat, k: nat): (s: string)
    ensures |s| == k
  {
    if k == 0 then [] else Padded(n / 10, k - 1) + [DigitChar(n % 10)]
  }

  /** A number with at least k digits ends in its k lowest digits. */
  lemma {:induction false} SuffixIsPadded(n: nat, k: nat)
    requires 1 <= k && Pow10(k - 1) <= n
    ensures k <= |DecimalString(n)|
    ensures DecimalString(n)[|DecimalString(n)| - k..] == Padded(n, k)
  {
    var s := DecimalString(n);
    var d := DigitChar(n % 10);
    if k == 1 {
      assert Padded(n, 1) == [d];
      if n < 10 {
        assert s == [d];
      } else {
        assert s == DecimalString(n / 10) + [d];
      }
    } else {
      var p := Pow10(k - 2);
      assert Pow10(k - 1) == 10 * p;
      assert n >= 10 && p <= n / 10;
      SuffixIsPadded(n / 10, k - 1);
      var t := DecimalString(n / 10);
      assert s == t + [d];
      assert Padded(n, k) == Padded(n / 10, k - 1) + [d];
      assert s[|s| - k..] == t[|t| - (k - 1)..] + [d];
    }
  }

  /** The k lowest digits do not see a change by a multiple of 10^k. */
  lemma {:induction false} PaddedPeriodic(n: nat, k: nat)
    ensures Padded(n + Pow10(k), k) == Padded(n, k)
  {
    if k > 0 {
      var p := Pow10(k - 1);
      assert (n + 10 * p) / 10 == n / 10 + p;
      assert (n + 10 * p) % 10 == n % 10;
      PaddedPeriodic(n / 10, k - 1);
    }
  }

  /**
    Ids are not unique: two clock readings of at least six digits that are
    1,000,000 ms (about 17 minutes) apart give the same order id.
  */
  lemma OrderIdRepeats(now: nat)
    requires 100000 <= now
    ensures OrderIdAt(now + 1000000) == OrderIdAt(now)
  {
    assert Pow10(5) == 100000;
    assert Pow10(6) == 1000000;
    SuffixIsPadded(now, 6);
    SuffixIsPadded(now + 1000000, 6);
    PaddedPeriodic(now, 6);
  }
}
