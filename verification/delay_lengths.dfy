/**
 Delay-line lengths of the reverberator.

 Every comb and allpass filter is built with a reference length (in samples
 at 44100 Hz) rescaled to the actual sample rate as `ref * rate / 44100`,
 evaluated in 32-bit integer arithmetic: the division truncates toward zero,
 there is no rounding and no lower bound of one sample.
 */
module DelayLengths {

  /** The sample rate the reference lengths are expressed at. */
  const ReferenceRate: int := 44100

  /** Reference lengths of the eight comb filters, in construction order. */
  const CombReferences: seq<int> := [1557, 1617, 1491, 1422, 1277, 1356, 1188, 1116]

  /** Reference lengths of the four serial allpass filters, in chain order. */
  const AllpassReferences: seq<int> := [225, 556, 441, 341]

  /** Euclidean division of a non-negative dividend brackets it between two
      consecutive multiples of the divisor. */
  lemma DivBounds(n: int, d: int)
    requires 0 <= n && d > 0
    ensures 0 <= n / d && (n / d) * d <= n < (n / d) * d + d
  {
    assert n == (n / d) * d + n % d;
  }

  /** Integer division that truncates toward zero, as C#'s `/` on `int` does
      (Dafny's own `/` is Euclidean and differs for a negative dividend). */
  function TruncDiv(n: int, d: int): (q: int)
    requires d > 0
    ensures 0 <= n ==> 0 <= q && q * d <= n < q * d + d
    ensures n < 0 ==> q <= 0 && n <= q * d < n + d
  {
    if n >= 0 then
      DivBounds(n, d);
      n / d
    else
      DivBounds(-n, d);
      assert -((-n) / d) * d == -(((-n) / d) * d);
      -((-n) / d)
  }

  /** The length of a delay line whose reference length is `reference`,
      at sample rate `rate`. */
  function ScaledLength(reference: int, rate: int): (n: int)
    ensures 0 <= reference * rate ==> n * ReferenceRate <= reference * rate < n * ReferenceRate + ReferenceRate
    ensures reference * rate < 0 ==> reference * rate <= n * ReferenceRate < reference * rate + ReferenceRate
  {
    TruncDiv(reference * rate, ReferenceRate)
  }

  /** The eight comb lengths at sample rate `rate`. */
  function CombLengths(rate: int): (ls: seq<int>)
    ensures |ls| == |CombReferences|
    ensures forall i :: 0 <= i < |ls| ==> ls[i] == ScaledLength(CombReferences[i], rate)
  {
    seq(|CombReferences|, i requires 0 <= i < |CombReferences| => ScaledLength(CombReferences[i], rate))
  }

  /** The four allpass lengths at sample rate `rate`. */
  function AllpassLengths(rate: int): (ls: seq<int>)
    ensures |ls| == |AllpassReferences|
    ensures forall i :: 0 <= i < |ls| ==> ls[i] == ScaledLength(AllpassReferences[i], rate)
  {
    seq(|AllpassReferences|, i requires 0 <= i < |AllpassReferences| => ScaledLength(AllpassReferences[i], rate))
  }

  /** At the reference rate every length is its reference length. */
  lemma ScaledLengthAtReferenceRate(reference: int)
    ensures ScaledLength(reference, ReferenceRate) == reference
  {
  }

  /** At half the reference rate every non-negative length is the floor of
      half its reference length (truncation, not rounding). */
  lemma ScaledLengthAtHalfRate(reference: int)
    requires reference >= 0
    ensures ScaledLength(reference, 22050) == reference / 2
  {
  }

  /** A positive multiple of a positive number is at least that number. */
  lemma MultipleAtLeast(x: int, d: int)
    requires d > 0
    ensures x >= 1 ==> x * d >= d
  {
    if x >= 1 {
      assert x * d == (x - 1) * d + d;
    }
  }

  /** Truncating division by a positive divisor is monotonic on
      non-negative dividends. */
  lemma TruncDivMonotonic(n1: int, n2: int, d: int)
    requires 0 <= n1 <= n2 && d > 0
    ensures 0 <= TruncDiv(n1, d) <= TruncDiv(n2, d)
  {
    var a, b := TruncDiv(n1, d), TruncDiv(n2, d);
    assert (a - b) * d < d by {
      assert a * d <= n1 && n2 < b * d + d;
      assert (a - b) * d == a * d - b * d;
    }
    MultipleAtLeast(a - b, d);
  }

  /** The lengths never decrease as the sample rate grows. */
  lemma ScaledLengthMonotonic(reference: int, rate1: int, rate2: int)
    requires reference >= 0
    requires 0 <= rate1 <= rate2
    ensures 0 <= ScaledLength(reference, rate1) <= ScaledLength(reference, rate2)
  {
    assert 0 <= reference * rate1 <= reference * rate2 by {
      assert reference * rate2 - reference * rate1 == reference * (rate2 - rate1);
    }
    TruncDivMonotonic(reference * rate1, reference * rate2, ReferenceRate);
  }

  /** The comb and allpass lengths at 44100 Hz. */
  lemma LengthsAtReferenceRate()
    ensures CombLengths(44100) == [1557, 1617, 1491, 1422, 1277, 1356, 1188, 1116]
    ensures AllpassLengths(44100) == [225, 556, 441, 341]
  {
  }

  /** The comb and allpass lengths at 22050 Hz: each is the floor of half
      its reference, so 1557 becomes 778 (not 779) and 225 becomes 112. */
  lemma LengthsAtHalfRate()
    ensures CombLengths(22050) == [778, 808, 745, 711, 638, 678, 594, 558]
    ensures AllpassLengths(22050) == [112, 278, 220, 170]
  {
  }

  /** No minimum length is enforced: at a low enough sample rate a delay
      line is given length zero. */
  lemma ZeroLengthAtLowRate()
    ensures ScaledLength(AllpassReferences[0], 195) == 0
    ensures ScaledLength(AllpassReferences[0], 196) == 1
  {
  }

  /** A negative product is truncated toward zero, not floored. */
  lemma NegativeRateTruncatesTowardZero()
    ensures ScaledLength(CombReferences[0], -1) == 0
    ensures ScaledLength(CombReferences[0], -44100) == -1557
  {
  }
}
