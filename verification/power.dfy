/** Frame ingestion (PowerConverter): AudioData.

    Each call scrolls the target-height history one row back and writes, for
    every band, a new loudness value into row 0: the band's power (half the
    sum of squared magnitudes, times the bands-per-octave factor) mapped from
    -96 dB..0 dB onto 0..1, clamped at 0 and multiplied by the bar-height
    scale. log10f is a parameter. */
module Power {
  import opened Bands
  import opened Grids
  import opened RealArith

  /** The squared magnitude of one bin: never negative, and zero only for a zero bin. */
  function Square(v: real): (s: real)
    ensures s == v * v
    ensures s >= 0.0
    ensures v != 0.0 ==> s > 0.0
  {
    if v < 0.0 then
      ProductPositive(-v, -v);
      ProductNegate(v, v);
      Product(v, v)
    else if v > 0.0 then
      ProductPositive(v, v);
      Product(v, v)
    else
      Product(v, v)
  }

  /** Sum of f[i] * f[i] over lo <= i < hi, skipping indices at or past the end of f. */
  function RangePower(f: seq<real>, lo: nat, hi: int): (p: real)
    ensures p >= 0.0
    ensures hi <= lo ==> p == 0.0
    decreases hi - lo
  {
    if hi <= lo then 0.0
    else RangePower(f, lo, hi - 1) + (if hi - 1 < |f| then Square(f[hi - 1]) else 0.0)
  }

  /** Indices past the end of the input add nothing. */
  lemma {:induction false} RangePowerPastEnd(f: seq<real>, lo: nat, i: int, hi: int)
    requires lo <= i <= hi && |f| <= i
    ensures RangePower(f, lo, hi) == RangePower(f, lo, i)
    decreases hi - i
  {
    if i < hi {
      RangePowerPastEnd(f, lo, i, hi - 1);
    }
  }

  /** A range with only zero magnitudes has zero power ... */
  lemma {:induction false} RangePowerSilent(f: seq<real>, lo: nat, hi: int)
    requires forall i :: lo <= i < hi && i < |f| ==> f[i] == 0.0
    ensures RangePower(f, lo, hi) == 0.0
    decreases hi - lo
  {
    if lo < hi {
      RangePowerSilent(f, lo, hi - 1);
    }
  }

  /** ... and a range with a non-zero magnitude has positive power. */
  lemma {:induction false} RangePowerAudible(f: seq<real>, lo: nat, hi: int, j: int)
    requires lo <= j < hi && j < |f| && f[j] != 0.0
    ensures RangePower(f, lo, hi) > 0.0
    decreases hi - lo
  {
    if j < hi - 1 {
      RangePowerAudible(f, lo, hi - 1, j);
    } else {
      assert RangePower(f, lo, hi) == RangePower(f, lo, hi - 1) + Square(f[j]);
    }
  }

  /** pow: the band's summed power, halved, times its bands-per-octave factor. */
  function BandPower(f: seq<real>, hscale: real, x: int): real
    requires IsBand(x)
  {
    RangePower(f, ReadLo(x), ReadHi(x, |f|)) * 0.5 * hscale
  }

  /** With a positive factor the band has power exactly when its summed
      squares do; a non-negative factor never gives negative power, and a
      zero factor silences the band. */
  lemma BandPowerSign(f: seq<real>, hscale: real, x: int)
    requires IsBand(x)
    ensures hscale > 0.0 ==> (BandPower(f, hscale, x) > 0.0 <==> RangePower(f, ReadLo(x), ReadHi(x, |f|)) > 0.0)
    ensures hscale >= 0.0 ==> BandPower(f, hscale, x) >= 0.0
    ensures hscale == 0.0 ==> BandPower(f, hscale, x) == 0.0
  {
    var s := RangePower(f, ReadLo(x), ReadHi(x, |f|));
    if hscale > 0.0 && s > 0.0 {
      ProductPositive(s * 0.5, hscale);
    }
    if hscale >= 0.0 {
      ProductNonNegative(s * 0.5, hscale);
    }
  }

  /** The dB mapping of the sum: 10 log10(pow) / 96 + 1 for positive power,
      else 0. It is negative, and so cut off, exactly below -96 dB. */
  function Decibels(pow: real, log10: real -> real): (d: real)
    ensures pow <= 0.0 ==> d == 0.0
    ensures pow > 0.0 ==> (d >= 0.0 <==> log10(pow) >= -9.6)
  {
    if pow > 0.0 then 10.0 * log10(pow) / 96.0 + 1.0 else 0.0
  }

  /** h: the dB value cut off at the bottom of the bar. */
  function Loudness(pow: real, log10: real -> real): (h: real)
    ensures h >= 0.0
    ensures pow <= 0.0 ==> h == 0.0
    ensures h > 0.0 ==> pow > 0.0 && h == 10.0 * log10(pow) / 96.0 + 1.0
    ensures pow > 0.0 && log10(pow) >= -9.6 ==> h == 10.0 * log10(pow) / 96.0 + 1.0
    ensures pow > 0.0 && log10(pow) <= -9.6 ==> h == 0.0
  {
    var h := Decibels(pow, log10);
    if h < 0.0 then 0.0 else h
  }

  /** A base-10 logarithm is only assumed to be non-decreasing. */
  ghost predicate Log10Monotone(log10: real -> real) {
    forall a: real, b: real :: 0.0 < a <= b ==> log10(a) <= log10(b)
  }

  /** More power never gives a lower bar. */
  lemma LoudnessMonotone(p: real, p': real, log10: real -> real)
    requires Log10Monotone(log10)
    requires p <= p'
    ensures Loudness(p, log10) <= Loudness(p', log10)
  {
    if p > 0.0 {
      assert log10(p) <= log10(p');
    }
  }

  /** The value AudioData stores for band x: m_heights[0][x] = h * m_scale. */
  function BandHeight(f: seq<real>, hscale: real, x: int, scale: real, log10: real -> real): (h: real)
    requires IsBand(x)
    ensures scale >= 0.0 ==> h >= 0.0
    ensures BandPower(f, hscale, x) <= 0.0 ==> h == 0.0
  {
    Loudness(BandPower(f, hscale, x), log10) * scale
  }

  /** The new row 0 for one frame. */
  function FrameRow(f: seq<real>, hscale: seq<real>, scale: real, log10: real -> real): (row: seq<real>)
    requires |hscale| == NumBands
    ensures |row| == NumBands
    ensures forall x :: 0 <= x < NumBands ==> row[x] == BandHeight(f, hscale[x], x, scale, log10)
  {
    seq(NumBands, x requires 0 <= x < NumBands => BandHeight(f, hscale[x], x, scale, log10))
  }

  /** The history after a frame: the new row in front, the oldest row dropped. */
  function ShiftIn(g: Grid, row: seq<real>): (r: Grid)
    requires IsGrid(g) && |row| == NumBands
    ensures IsGrid(r)
  {
    [row] + g[..NumBands - 1]
  }

  /** The inner shift loop of AudioData: column x moves back one row, row 0
      keeps its value until it is overwritten, other columns are untouched. */
  method ShiftColumn(g: Grid, x: int) returns (r: Grid)
    requires IsGrid(g) && IsBand(x)
    ensures IsGrid(r)
    ensures forall y :: 1 <= y < NumBands ==> r[y][x] == g[y - 1][x]
    ensures r[0][x] == g[0][x]
    ensures forall y, x' :: 0 <= y < NumBands && 0 <= x' < NumBands && x' != x ==> r[y][x'] == g[y][x']
  {
    r := g;
    var y := NumBands - 1;
    while y > 0
      invariant 0 <= y < NumBands
      invariant IsGrid(r)
      invariant forall y', x' :: 0 <= y' < NumBands && 0 <= x' < NumBands && x' != x ==> r[y'][x'] == g[y'][x']
      invariant forall y' :: y < y' < NumBands ==> r[y'][x] == g[y' - 1][x]
      invariant forall y' :: 0 <= y' <= y ==> r[y'][x] == g[y'][x]
    {
      r := r[y := r[y][x := r[y - 1][x]]];
      y := y - 1;
    }
  }

  /** The summing loop of AudioData: it stops at the next band boundary or at
      the end of the input, whichever comes first. */
  method SumBand(freq: seq<real>, x: int) returns (pow: real)
    requires IsBand(x)
    ensures pow == RangePower(freq, ReadLo(x), ReadHi(x, |freq|))
  {
    XScaleBounds(x);
    pow := 0.0;
    var i := XScale[x];
    while i < XScale[x + 1] && i < |freq|
      invariant XScale[x] <= i <= XScale[x + 1]
      invariant i == XScale[x] || i <= |freq|
      invariant pow == RangePower(freq, XScale[x], i)
    {
      assert freq[i] * freq[i] == Square(freq[i]);
      pow := pow + freq[i] * freq[i];
      i := i + 1;
    }
  }

  /** The body of AudioData's band loop: shift column x back one row, sum the
      squared magnitudes of its index range, scale, convert and store in row 0. */
  method IngestBand(g: Grid, freq: seq<real>, hscale: real, x: int, scale: real, log10: real -> real)
    returns (r: Grid)
    requires IsGrid(g) && IsBand(x)
    ensures IsGrid(r)
    ensures forall y :: 1 <= y < NumBands ==> r[y][x] == g[y - 1][x]
    ensures r[0][x] == BandHeight(freq, hscale, x, scale, log10)
    ensures forall y, x' :: 0 <= y < NumBands && 0 <= x' < NumBands && x' != x ==> r[y][x'] == g[y][x']
  {
    r := ShiftColumn(g, x);
    var sum := SumBand(freq, x);
    var pow := sum * 0.5;
    pow := pow * hscale;
    assert pow == BandPower(freq, hscale, x);
    var h := ConvertPower(pow, log10);
    r := r[0 := r[0][x := h * scale]];
  }

  /** The conversion step of AudioData's band loop: -96 dB .. 0 dB onto
      0.0 .. 1.0, cut off at the bottom of the bar. */
  method ConvertPower(pow: real, log10: real -> real) returns (h: real)
    ensures h == Loudness(pow, log10)
  {
    h := if pow > 0.0 then 10.0 * log10(pow) / 96.0 + 1.0 else 0.0;
    if h < 0.0 {
      h := 0.0;
    }
  }

  /** AudioData: every column scrolls back one row and row 0 receives the new
      frame, so the history becomes ShiftIn of the frame's row. */
  method AudioData(heights: Grid, hscale: seq<real>, freq: seq<real>, scale: real, log10: real -> real)
    returns (r: Grid)
    requires IsGrid(heights) && |hscale| == NumBands
    ensures IsGrid(r)
    ensures forall y, x :: 1 <= y < NumBands && 0 <= x < NumBands ==> r[y][x] == heights[y - 1][x]
    ensures forall x :: 0 <= x < NumBands ==> r[0][x] == BandHeight(freq, hscale[x], x, scale, log10)
    ensures r == ShiftIn(heights, FrameRow(freq, hscale, scale, log10))
  {
    r := heights;
    for x := 0 to NumBands
      invariant IsGrid(r)
      invariant forall y, x' :: 1 <= y < NumBands && 0 <= x' < x ==> r[y][x'] == heights[y - 1][x']
      invariant forall x' :: 0 <= x' < x ==> r[0][x'] == BandHeight(freq, hscale[x'], x', scale, log10)
      invariant forall y, x' :: 0 <= y < NumBands && x <= x' < NumBands ==> r[y][x'] == heights[y][x']
    {
      r := IngestBand(r, freq, hscale[x], x, scale, log10);
    }
    ShiftInByCells(heights, FrameRow(freq, hscale, scale, log10), r);
  }

  /** A grid that agrees with ShiftIn cell by cell is ShiftIn. */
  lemma ShiftInByCells(g: Grid, row: seq<real>, r: Grid)
    requires IsGrid(g) && |row| == NumBands && IsGrid(r)
    requires forall x :: 0 <= x < NumBands ==> r[0][x] == row[x]
    requires forall y, x :: 1 <= y < NumBands && 0 <= x < NumBands ==> r[y][x] == g[y - 1][x]
    ensures r == ShiftIn(g, row)
  {
    var e := ShiftIn(g, row);
    forall y | 0 <= y < NumBands
      ensures r[y] == e[y]
    {
      if y > 0 {
        assert e[y] == g[y - 1];
      }
    }
  }

  /** A band whose own read range is silent gets height 0, whatever the
      other bands hear and whatever the scale. */
  lemma SilentBand(f: seq<real>, hscale: real, x: int, scale: real, log10: real -> real)
    requires IsBand(x)
    requires forall i :: Reads(x, |f|, i) ==> f[i] == 0.0
    ensures BandHeight(f, hscale, x, scale, log10) == 0.0
  {
    RangePowerSilent(f, ReadLo(x), ReadHi(x, |f|));
  }

  /** An input too short to reach band x (iFreqDataLength <= m_xscale[x])
      leaves the band's loop empty, so the band gets height 0. */
  lemma ShortInputSilentBand(f: seq<real>, hscale: real, x: int, scale: real, log10: real -> real)
    requires IsBand(x) && |f| <= XScale[x]
    ensures BandHeight(f, hscale, x, scale, log10) == 0.0
  {
    SilentBand(f, hscale, x, scale, log10);
  }

  /** An all-zero frame writes a row of zeros, whatever the scale. */
  lemma SilentFrame(f: seq<real>, hscale: seq<real>, scale: real, log10: real -> real)
    requires |hscale| == NumBands
    requires forall i :: 0 <= i < |f| ==> f[i] == 0.0
    ensures forall x :: 0 <= x < NumBands ==> FrameRow(f, hscale, scale, log10)[x] == 0.0
  {
    forall x | 0 <= x < NumBands
      ensures FrameRow(f, hscale, scale, log10)[x] == 0.0
    {
      SilentBand(f, hscale[x], x, scale, log10);
    }
  }

  /** A band whose read range holds a non-zero magnitude has positive power,
      provided its bands-per-octave factor is positive. */
  lemma AudibleBand(f: seq<real>, hscale: real, x: int, i: int)
    requires IsBand(x) && hscale > 0.0
    requires Reads(x, |f|, i) && f[i] != 0.0
    ensures BandPower(f, hscale, x) > 0.0
  {
    RangePowerAudible(f, ReadLo(x), ReadHi(x, |f|), i);
    var s := RangePower(f, ReadLo(x), ReadHi(x, |f|));
    assert s * 0.5 > 0.0;
  }

  /** The stored height is linear in the scale: doubling m_scale doubles every new value. */
  lemma FrameRowLinearInScale(f: seq<real>, hscale: seq<real>, scale: real, k: real, log10: real -> real)
    requires |hscale| == NumBands
    ensures forall x :: 0 <= x < NumBands ==>
      FrameRow(f, hscale, k * scale, log10)[x] == k * FrameRow(f, hscale, scale, log10)[x]
  {
  }

  /** With a non-negative scale the new row is non-negative. */
  lemma FrameRowNonNegative(f: seq<real>, hscale: seq<real>, scale: real, log10: real -> real)
    requires |hscale| == NumBands && scale >= 0.0
    ensures forall x :: 0 <= x < NumBands ==> FrameRow(f, hscale, scale, log10)[x] >= 0.0
  {
  }

  /** After frames A then B, row 0 holds B's values, row 1 A's, and row y the
      values that were in row y - 2. */
  lemma TwoFrames(g: Grid, a: seq<real>, b: seq<real>)
    requires IsGrid(g) && |a| == NumBands && |b| == NumBands
    ensures var r := ShiftIn(ShiftIn(g, a), b);
      r[0] == b && r[1] == a && forall y :: 2 <= y < NumBands ==> r[y] == g[y - 2]
  {
  }

  /** Shifting in a non-negative row keeps the history non-negative. */
  lemma ShiftInNonNegative(g: Grid, row: seq<real>)
    requires IsGrid(g) && |row| == NumBands
    requires NonNegative(g) && forall x :: 0 <= x < NumBands ==> row[x] >= 0.0
    ensures NonNegative(ShiftIn(g, row))
  {
    var r := ShiftIn(g, row);
    forall y, x | 0 <= y < NumBands && 0 <= x < NumBands
      ensures r[y][x] >= 0.0
    {
      if y > 0 {
        assert r[y] == g[y - 1];
      }
    }
  }
}
