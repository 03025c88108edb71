/** The band partition of the spectrum visualisation (BandMapper).

    The frequency data delivered by the host is a joined-stereo array of
    nominally 256 magnitudes. A constant table of 17 boundaries splits it
    into 16 bands; for each band the constructor derives the lowest and
    highest frequency it covers and a "bands per octave" factor that turns
    summed power into power per octave. */
module Bands {

  /** Number of bars along each axis of the grid (NUM_BANDS). */
  const NumBands: nat := 16

  /** The boundary table m_xscale: band `x` reads indices [XScale[x], XScale[x+1]). */
  const XScale: seq<int> := [0, 2, 4, 6, 8, 10, 12, 16, 20, 26, 32, 42, 54, 68, 88, 112, 256]

  /** Nominal length of the frequency array the table was written for. */
  const NominalLength: nat := 256

  predicate IsBand(x: int) {
    0 <= x < NumBands
  }

  function Min(a: int, b: int): int {
    if a <= b then a else b
  }

  /** The table starts at 0, ends at the nominal length and strictly increases. */
  lemma XScaleStrictlyIncreasing()
    ensures |XScale| == NumBands + 1
    ensures XScale[0] == 0 && XScale[NumBands] == NominalLength
    ensures forall i, j :: 0 <= i < j <= NumBands ==> XScale[i] < XScale[j]
  {
    forall i, j | 0 <= i < j <= NumBands
      ensures XScale[i] < XScale[j]
    {
      StepIncreasing(i, j);
    }
  }

  /** Consecutive entries differ by at least two, so halving keeps them apart. */
  lemma StepAtLeastTwo(x: int)
    requires IsBand(x)
    ensures XScale[x] + 2 <= XScale[x + 1]
    ensures XScale[x] % 2 == 0
  {
  }

  lemma {:induction false} StepIncreasing(i: int, j: int)
    requires 0 <= i < j <= NumBands
    ensures XScale[i] < XScale[j]
    decreases j - i
  {
    StepAtLeastTwo(j - 1);
    if i < j - 1 {
      StepIncreasing(i, j - 1);
    }
  }

  /** The boundaries of one band, as its loops use them. */
  lemma XScaleBounds(x: int)
    requires IsBand(x)
    ensures 0 <= XScale[x] && XScale[x] + 2 <= XScale[x + 1] <= NominalLength
  {
    XScaleStrictlyIncreasing();
  }

  /** freq_lo: the first frequency of band `x` (C integer division of a
      non-negative value). Every band start is even, so nothing is lost in
      the halving: freq_lo - 1 is exactly half the band's first index. */
  function FreqLo(x: int): (lo: int)
    requires IsBand(x)
    ensures lo >= 1 && 2 * (lo - 1) == XScale[x]
  {
    XScale[x] / 2 + 1
  }

  /** freq_hi: the last frequency of band `x`, one below the next band's
      start; again exactly half of that start. */
  function FreqHi(x: int): (hi: int)
    requires IsBand(x)
    ensures 2 * hi == XScale[x + 1]
  {
    XScale[x + 1] / 2
  }

  /** Every band covers at least one frequency and never contains the DC bin,
      and consecutive bands follow each other without gap or overlap. */
  lemma FrequencyBounds(x: int)
    requires IsBand(x)
    ensures 1 <= FreqLo(x) <= FreqHi(x)
    ensures x + 1 < NumBands ==> FreqLo(x + 1) == FreqHi(x) + 1
    ensures FreqHi(x) <= NominalLength / 2
  {
    StepAtLeastTwo(x);
    XScaleStrictlyIncreasing();
  }

  /** The argument passed to log2f: (freq_hi + 0.5) / (freq_lo - 0.5). It is
      always above one, so its base-2 logarithm is positive. */
  function OctaveRatio(x: int): (r: real)
    requires IsBand(x)
    ensures r > 1.0
    ensures r * (FreqLo(x) as real - 0.5) == FreqHi(x) as real + 0.5
  {
    FrequencyBounds(x);
    var lo := FreqLo(x) as real - 0.5;
    var hi := FreqHi(x) as real + 0.5;
    QuotientAboveOne(hi, lo);
    hi / lo
  }

  lemma QuotientAboveOne(a: real, b: real)
    requires 0.0 < b < a
    ensures a / b > 1.0
  {
    var q := a / b;
    assert (q - 1.0) * b == a - b;
  }

  /** A base-2 logarithm is only assumed to be positive above one. */
  ghost predicate Log2PositiveAboveOne(log2: real -> real) {
    forall r: real :: r > 1.0 ==> log2(r) > 0.0
  }

  /** m_hscale[x]: bands per octave, 1 / log2f(ratio). The logarithm is a
      parameter; whenever it is positive above one the factor is positive and
      is exactly the reciprocal of the octave count of the band. */
  function OctaveScale(x: int, log2: real -> real): (s: real)
    requires IsBand(x)
    requires Log2PositiveAboveOne(log2)
    ensures s > 0.0
    ensures s * log2(OctaveRatio(x)) == 1.0
  {
    var l := log2(OctaveRatio(x));
    assert l > 0.0;
    1.0 / l
  }

  /** The constructor loop: one factor per band. */
  function OctaveScales(log2: real -> real): (hs: seq<real>)
    requires Log2PositiveAboveOne(log2)
    ensures |hs| == NumBands
    ensures forall x :: 0 <= x < NumBands ==> hs[x] == OctaveScale(x, log2)
    ensures forall x :: 0 <= x < NumBands ==> hs[x] > 0.0 && hs[x] * log2(OctaveRatio(x)) == 1.0
  {
    seq(NumBands, x requires 0 <= x < NumBands => OctaveScale(x, log2))
  }

  /** First array index band `x` reads. */
  function ReadLo(x: int): int
    requires IsBand(x)
  {
    XScale[x]
  }

  /** One past the last array index band `x` reads: the loop stops at the
      next boundary or at the input length, whichever comes first. */
  function ReadHi(x: int, len: int): int
    requires IsBand(x)
  {
    Min(XScale[x + 1], len)
  }

  /** The read range ends at the band's upper boundary or at the input
      length, and never past either. */
  lemma ReadHiStops(x: int, len: int)
    requires IsBand(x)
    ensures ReadHi(x, len) <= XScale[x + 1] && ReadHi(x, len) <= len
    ensures ReadHi(x, len) == XScale[x + 1] || ReadHi(x, len) == len
  {
  }

  /** Index `i` is read by band `x` for an input of length `len`. */
  predicate Reads(x: int, len: int, i: int)
    requires IsBand(x)
  {
    ReadLo(x) <= i < ReadHi(x, len)
  }

  /** No band reads at or beyond the input length, nor beyond the nominal length. */
  lemma ReadsInBounds(x: int, len: int, i: int)
    requires IsBand(x)
    requires Reads(x, len, i)
    ensures 0 <= i < len && i < NominalLength
  {
    XScaleStrictlyIncreasing();
  }

  /** Two different bands never read the same index. */
  lemma ReadsDisjoint(x: int, x': int, len: int, i: int)
    requires IsBand(x) && IsBand(x')
    requires Reads(x, len, i) && Reads(x', len, i)
    ensures x == x'
  {
    XScaleStrictlyIncreasing();
  }

  /** Every index below both the input length and the nominal length is read by
      some band: together with ReadsDisjoint, the ranges tile [0, min(256, len)). */
  lemma ReadsCover(len: int, i: int) returns (x: int)
    requires 0 <= i < Min(NominalLength, len)
    ensures IsBand(x) && Reads(x, len, i)
  {
    XScaleStrictlyIncreasing();
    x := 0;
    while XScale[x + 1] <= i
      invariant 0 <= x < NumBands
      invariant XScale[x] <= i
      decreases NumBands - x
    {
      x := x + 1;
    }
  }
}
