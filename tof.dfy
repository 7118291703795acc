/**
 * Intensity against time of flight (tof/base.py). Each photon's total path
 * becomes a time of flight and an integer bin; bins aggregate the photons'
 * intensities (sum) and numbers (count); bins at or below a cutoff are
 * dropped; missing bins between the least and the greatest are filled by
 * log-linear interpolation. Two distributions combine bin by bin over the
 * bins they share.
 */
module ToFBase {
  import opened Common
  import opened Intensity

  /** Speed of light in tissue, m/s (refractive index 1.4). */
  const SPEED_OF_LIGHT: real := 300000000.0 / 1.4

  /** The constructor's default `lower_intensity_bound`, 1e-30. */
  const DEFAULT_LOWER_INTENSITY_BOUND: real := 0.000000000000000000000000000001

  /** _calculate_tof for one photon: its total path, in mm, as seconds of flight. */
  function TimeOfFlight(row: Row): real {
    Sum(row.paths) * 0.001 / SPEED_OF_LIGHT
  }

  /** _quantize_tof for one photon: floor(tof / time_resolution). */
  function QuantizeTof(env: Env, tof: real, timeResolution: real): int {
    Div(env, tof, timeResolution).Floor
  }

  /** A positive resolution puts a time of flight t in the bin k with k * res <= t < (k + 1) * res. */
  lemma BinBracketsTimeOfFlight(env: Env, tof: real, timeResolution: real)
    requires timeResolution > 0.0
    ensures var k := QuantizeTof(env, tof, timeResolution);
            k as real * timeResolution <= tof < (k + 1) as real * timeResolution
  {
    var q := tof / timeResolution;
    assert Div(env, tof, timeResolution) == q && q * timeResolution == tof;
    FloorBrackets(q, timeResolution);
    assert QuantizeTof(env, tof, timeResolution) == q.Floor;
    assert tof < (q.Floor + 1) as real * timeResolution;
  }

  lemma FloorBrackets(q: real, scale: real)
    requires scale > 0.0
    ensures q.Floor as real * scale <= q * scale < (q.Floor + 1) as real * scale
  {
    var k := q.Floor;
    var below := q - k as real;
    var above := k as real + 1.0 - q;
    assert below >= 0.0 && above > 0.0;
    assert below * scale >= 0.0 && above * scale > 0.0;
    assert (k + 1) as real * scale == k as real * scale + scale;
  }

  /** The bin of every photon, in row order. */
  function PhotonBins(env: Env, t: PhotonTable, timeResolution: real): (bins: seq<int>)
    ensures |bins| == |t.rows|
  {
    seq(|t.rows|, i requires 0 <= i < |t.rows| => QuantizeTof(env, TimeOfFlight(t.rows[i]), timeResolution))
  }

  /** groupby("ToF_quantized")["Intensity"].sum() at bin k. */
  function BinIntensity(bins: seq<int>, intensity: seq<real>, k: int): real
    requires |bins| == |intensity|
  {
    if |bins| == 0 then 0.0
    else
      BinIntensity(bins[..|bins| - 1], intensity[..|intensity| - 1], k) +
      (if bins[|bins| - 1] == k then intensity[|intensity| - 1] else 0.0)
  }

  /** groupby("ToF_quantized")["Intensity"].count() at bin k. */
  function BinCount(bins: seq<int>, k: int): nat {
    if |bins| == 0 then 0
    else BinCount(bins[..|bins| - 1], k) + (if bins[|bins| - 1] == k then 1 else 0)
  }

  /** A bin holds a photon exactly when some photon's bin is k. */
  lemma {:induction false} BinCountPositive(bins: seq<int>, k: int)
    ensures BinCount(bins, k) > 0 <==> k in bins
  {
    if |bins| > 0 {
      var prefix := bins[..|bins| - 1];
      BinCountPositive(prefix, k);
      assert bins == prefix + [bins[|bins| - 1]];
    }
  }

  /** A bin that holds no photon has no intensity. */
  lemma {:induction false} EmptyBinHasNoIntensity(bins: seq<int>, intensity: seq<real>, k: int)
    requires |bins| == |intensity| && k !in bins
    ensures BinIntensity(bins, intensity, k) == 0.0
  {
    if |bins| > 0 {
      var prefix := bins[..|bins| - 1];
      assert bins == prefix + [bins[|bins| - 1]];
      EmptyBinHasNoIntensity(prefix, intensity[..|intensity| - 1], k);
    }
  }

  /** When every photon falls in one bin, that bin holds the whole intensity and every photon. */
  lemma {:induction false} SingleBinHoldsEverything(bins: seq<int>, intensity: seq<real>, k: int)
    requires |bins| == |intensity|
    requires forall i | 0 <= i < |bins| :: bins[i] == k
    ensures BinIntensity(bins, intensity, k) == Sum(intensity)
    ensures BinCount(bins, k) == |bins|
  {
    if |bins| > 0 {
      SingleBinHoldsEverything(bins[..|bins| - 1], intensity[..|intensity| - 1], k);
    }
  }

  /** The bins whose summed intensity exceeds the cutoff. */
  predicate Kept(bins: seq<int>, intensity: seq<real>, bound: real, k: int)
    requires |bins| == |intensity|
  {
    k in bins && BinIntensity(bins, intensity, k) > bound
  }

  /** The summed intensity of every kept bin. */
  function BinnedIntensity(bins: seq<int>, intensity: seq<real>, bound: real): (m: map<int, real>)
    requires |bins| == |intensity|
  {
    map k | k in bins && Kept(bins, intensity, bound, k) :: BinIntensity(bins, intensity, k)
  }

  /** The photon count of every kept bin (the same bins as the intensities). */
  function BinnedCounts(bins: seq<int>, intensity: seq<real>, bound: real): (m: map<int, real>)
    requires |bins| == |intensity|
    ensures m.Keys == BinnedIntensity(bins, intensity, bound).Keys
  {
    map k | k in bins && Kept(bins, intensity, bound, k) :: BinCount(bins, k) as real
  }

  /** The natural log of every value of a series. */
  function LogSeries(env: Env, m: map<int, real>): map<int, real> {
    map k | k in m :: env.ln(m[k])
  }

  /**
   * The series after _fill_data_gaps reindexes it to [lo, hi], takes logs,
   * interpolates the missing entries and exponentiates back.
   */
  function Filled(env: Env, m: map<int, real>, lo: int, hi: int): (f: map<int, real>)
    ensures f.Keys == Range(lo, hi)
  {
    map k | k in Range(lo, hi) :: env.exp(if k in m then env.ln(m[k]) else env.interpolate(LogSeries(env, m), k))
  }

  /** Filling keeps every bin that was present, and its value when exp inverts ln and the value is positive. */
  lemma FillKeepsPresentBins(env: Env, m: map<int, real>, lo: int, hi: int, k: int)
    requires k in m && lo <= k <= hi
    ensures k in Filled(env, m, lo, hi)
    ensures ExpInvertsLn(env) && m[k] > 0.0 ==> Filled(env, m, lo, hi)[k] == m[k]
  {
  }

  /**
   * Within [lo, hi], a key set has fewer than hi - lo + 1 members exactly
   * when it misses one of those integers: the length test _fill_data_gaps
   * uses detects gaps.
   */
  lemma ShortIffGaps(keys: set<int>, lo: int, hi: int)
    requires lo <= hi
    requires forall k | k in keys :: lo <= k <= hi
    ensures |keys| <= hi - lo + 1
    ensures |keys| < hi - lo + 1 <==> keys != Range(lo, hi)
  {
    var full := Range(lo, hi);
    assert keys <= full;
    assert full == keys + (full - keys);
    assert |full| == |keys| + |full - keys|;
    if |keys| == hi - lo + 1 {
      SubsetOfEqualSize(keys, full);
    }
  }

  /** The least and the greatest key of a non-empty series. */
  method Bounds(keys: set<int>) returns (lo: int, hi: int)
    requires keys != {}
    ensures lo == SetMin(keys) && hi == SetMax(keys)
  {
    ghost var least, greatest := SetMin(keys), SetMax(keys);
    lo :| lo in keys && forall x :: x in keys ==> lo <= x;
    hi :| hi in keys && forall x :: x in keys ==> x <= hi;
  }

  /** Element-wise `operation(common_data1, common_data2)` over the bins both series hold. */
  function Combine(a: map<int, real>, b: map<int, real>, op: (real, real) -> real): (m: map<int, real>)
    ensures m.Keys == a.Keys * b.Keys
    ensures forall k | k in m :: m[k] == op(a[k], b[k])
  {
    map k | k in a && k in b :: op(a[k], b[k])
  }

  /** The four operators' element-wise operations. */
  function Quotient(env: Env): (real, real) -> real {
    (x: real, y: real) => Div(env, x, y)
  }
  function Times(x: real, y: real): real { x * y }
  function Plus(x: real, y: real): real { x + y }
  function Minus(x: real, y: real): real { x - y }

  /** Two contiguous bin ranges share exactly the range between the later start and the earlier end. */
  lemma RangeIntersection(lo1: int, hi1: int, lo2: int, hi2: int)
    ensures Range(lo1, hi1) * Range(lo2, hi2) ==
            Range(if lo1 < lo2 then lo2 else lo1, if hi1 < hi2 then hi1 else hi2)
  {
    var lo := if lo1 < lo2 then lo2 else lo1;
    var hi := if hi1 < hi2 then hi1 else hi2;
    forall k ensures k in Range(lo1, hi1) * Range(lo2, hi2) <==> k in Range(lo, hi) {
    }
  }

  /** A series divided by itself is one in every bin that is not zero. */
  lemma SelfQuotientIsOne(env: Env, m: map<int, real>)
    requires forall k | k in m :: m[k] != 0.0
    ensures forall k | k in Combine(m, m, Quotient(env)) :: Combine(m, m, Quotient(env))[k] == 1.0
  {
  }

  /**
   * What _fill_data_gaps makes of a non-empty series and its counts: when a
   * bin between the least and the greatest is missing, both filled over that
   * range, otherwise both unchanged; and whether a bin was missing.
   */
  ghost function GapFill(env: Env, data: map<int, real>, counts: map<int, real>)
    : (r: (map<int, real>, map<int, real>, bool))
    requires |data| != 0
  {
    var lo, hi := SetMin(data.Keys), SetMax(data.Keys);
    if |data| < hi - lo + 1 then (Filled(env, data, lo, hi), Filled(env, counts, lo, hi), true)
    else (data, counts, false)
  }

  /**
   * After filling, the series holds every bin between its least and its
   * greatest, and a bin was missing exactly when the series was not already
   * contiguous; the bounds do not move.
   */
  lemma GapFillIsContiguous(env: Env, data: map<int, real>, counts: map<int, real>)
    requires |data| != 0
    ensures var lo, hi := SetMin(data.Keys), SetMax(data.Keys);
            var f := GapFill(env, data, counts);
            && f.0.Keys == Range(lo, hi)
            && (f.2 <==> data.Keys != Range(lo, hi))
            && (f.2 ==> f.1.Keys == Range(lo, hi))
            && (!f.2 ==> f.1 == counts)
  {
    ShortIffGaps(data.Keys, SetMin(data.Keys), SetMax(data.Keys));
  }

  /** Filling keeps every bin of the series, with its value when exp inverts ln and the value is positive. */
  lemma GapFillKeepsBins(env: Env, data: map<int, real>, counts: map<int, real>, k: int)
    requires |data| != 0 && k in data
    ensures var f := GapFill(env, data, counts);
            && k in f.0
            && (ExpInvertsLn(env) && data[k] > 0.0 ==> f.0[k] == data[k])
            && (k in counts && ExpInvertsLn(env) && counts[k] > 0.0 ==> k in f.1 && f.1[k] == counts[k])
  {
    var lo, hi := SetMin(data.Keys), SetMax(data.Keys);
    assert lo <= k <= hi;
    if |data| < hi - lo + 1 {
      FillKeepsPresentBins(env, data, lo, hi, k);
      if k in counts {
        FillKeepsPresentBins(env, counts, lo, hi, k);
      }
    }
  }

  /** The fields of a ToF as a value. */
  datatype ToFState = ToFState(data: map<int, real>, counts: map<int, real>, interpolationNeeded: bool,
                               lower: int, upper: int)

  /**
   * The bounds and the gap filling of __init__, once the cutoff has left
   * `data` and `counts`: a ValueError (the min() of an empty index) when no
   * bin is left.
   */
  ghost function Settle(env: Env, data: map<int, real>, counts: map<int, real>): (r: Result<ToFState>)
    ensures r.Failure? <==> |data| == 0
    ensures r.Failure? ==> r.error == ValueError
  {
    if |data| == 0 then Failure(ValueError)
    else
      var f := GapFill(env, data, counts);
      Success(ToFState(f.0, f.1, f.2, SetMin(data.Keys), SetMax(data.Keys)))
  }

  /**
   * What the constructor leaves: the error of the intensity column, or a
   * ValueError when no bin passes the cutoff, or the kept bins with their
   * bounds, gap-filled.
   */
  ghost function InitialState(env: Env, t: PhotonTable, timeResolution: real, mu: map<int, real>,
                              sddIndex: Option<int>, bound: real): (r: Result<ToFState>)
    requires WellFormed(t)
    ensures IntensityColumn(env, t, mu, sddIndex).Failure? ==> r == Failure(IntensityColumn(env, t, mu, sddIndex).error)
    ensures r.Failure? && IntensityColumn(env, t, mu, sddIndex).Success? ==> r.error == ValueError
  {
    var intensity :- IntensityColumn(env, t, mu, sddIndex);
    var bins := PhotonBins(env, t, timeResolution);
    Settle(env, BinnedIntensity(bins, intensity, bound), BinnedCounts(bins, intensity, bound))
  }

  /**
   * After construction every bin between the least and the greatest kept bin
   * is present, in the intensities and in the counts, and interpolation was
   * needed exactly when some of them had been dropped or never occupied.
   */
  lemma {:induction false} InitialStateIsContiguous(env: Env, t: PhotonTable, timeResolution: real, mu: map<int, real>,
                                                    sddIndex: Option<int>, bound: real)
    requires WellFormed(t)
    requires InitialState(env, t, timeResolution, mu, sddIndex, bound).Success?
    ensures var s := InitialState(env, t, timeResolution, mu, sddIndex, bound).value;
            var intensity := IntensityColumn(env, t, mu, sddIndex).value;
            var kept := BinnedIntensity(PhotonBins(env, t, timeResolution), intensity, bound).Keys;
            && s.data.Keys == Range(s.lower, s.upper) && s.counts.Keys == s.data.Keys
            && s.lower == SetMin(kept) && s.upper == SetMax(kept)
            && kept <= s.data.Keys
            && (s.interpolationNeeded <==> kept != Range(s.lower, s.upper))
  {
    var intensity := IntensityColumn(env, t, mu, sddIndex).value;
    var bins := PhotonBins(env, t, timeResolution);
    var data := BinnedIntensity(bins, intensity, bound);
    var counts := BinnedCounts(bins, intensity, bound);
    GapFillIsContiguous(env, data, counts);
  }

  /**
   * A kept bin keeps its summed intensity and its photon count when exp
   * inverts ln and the cutoff is not negative.
   */
  lemma {:induction false} KeptBinsKeepTheirSums(env: Env, t: PhotonTable, timeResolution: real, mu: map<int, real>,
                                                 sddIndex: Option<int>, bound: real, k: int)
    requires WellFormed(t) && ExpInvertsLn(env) && bound >= 0.0
    requires InitialState(env, t, timeResolution, mu, sddIndex, bound).Success?
    requires Kept(PhotonBins(env, t, timeResolution), IntensityColumn(env, t, mu, sddIndex).value, bound, k)
    ensures var s := InitialState(env, t, timeResolution, mu, sddIndex, bound).value;
            var bins := PhotonBins(env, t, timeResolution);
            && k in s.data && s.data[k] == BinIntensity(bins, IntensityColumn(env, t, mu, sddIndex).value, k)
            && k in s.counts && s.counts[k] == BinCount(bins, k) as real
  {
    var intensity := IntensityColumn(env, t, mu, sddIndex).value;
    var bins := PhotonBins(env, t, timeResolution);
    var data := BinnedIntensity(bins, intensity, bound);
    var counts := BinnedCounts(bins, intensity, bound);
    assert InitialState(env, t, timeResolution, mu, sddIndex, bound) == Settle(env, data, counts);
    BinCountPositive(bins, k);
    assert k in data && k in counts;
    GapFillKeepsBins(env, data, counts, k);
  }

  /**
   * The body of _fill_data_gaps on values: the bounds, the expected length
   * and, when the series is shorter, both series reindexed and interpolated.
   */
  method FillSeries(env: Env, data: map<int, real>, counts: map<int, real>)
    returns (filled: map<int, real>, filledCounts: map<int, real>, gaps: bool)
    requires |data| != 0
    ensures filled == GapFill(env, data, counts).0 && filledCounts == GapFill(env, data, counts).1
    ensures gaps == GapFill(env, data, counts).2
    ensures !gaps ==> filled == data && filledCounts == counts
  {
    var lowerLimit, upperLimit := Bounds(data.Keys);
    upperLimit := upperLimit + 1;
    var expectedLength := upperLimit - lowerLimit;
    if |data| < expectedLength {
      return Filled(env, data, lowerLimit, upperLimit - 1), Filled(env, counts, lowerLimit, upperLimit - 1), true;
    }
    return data, counts, false;
  }

  /**
   * The first steps of __init__: the intensity column, the bin of every
   * photon, and the per-bin sums and counts above the cutoff; the error of
   * the intensity column is passed on.
   */
  method BinnedSeries(env: Env, t: PhotonTable, timeResolution: real, mu: map<int, real>,
                      sddIndex: Option<int>, bound: real) returns (r: Result<(map<int, real>, map<int, real>)>)
    requires WellFormed(t)
    ensures r.Failure? <==> IntensityColumn(env, t, mu, sddIndex).Failure?
    ensures r.Failure? ==> r.error == IntensityColumn(env, t, mu, sddIndex).error
    ensures r.Success? ==> r.value.0.Keys == r.value.1.Keys
    ensures r.Success? ==> InitialState(env, t, timeResolution, mu, sddIndex, bound) == Settle(env, r.value.0, r.value.1)
  {
    var intensity :- GenerateIntensityColumn(env, t, mu, sddIndex);
    var bins := PhotonBins(env, t, timeResolution);
    r := Success((BinnedIntensity(bins, intensity, bound), BinnedCounts(bins, intensity, bound)));
  }

  /** A settled series is a valid ToF: its bounds are bins of the filled series and enclose all of them. */
  lemma SettledStateIsValid(env: Env, data: map<int, real>, counts: map<int, real>)
    requires |data| != 0
    ensures var s := Settle(env, data, counts).value;
            var f := GapFill(env, data, counts);
            && s == ToFState(f.0, f.1, f.2, SetMin(data.Keys), SetMax(data.Keys))
            && s.lower in s.data && s.upper in s.data
            && forall k | k in s.data :: s.lower <= k <= s.upper
  {
    GapFillIsContiguous(env, data, counts);
  }

  /** A distribution of intensity over time-of-flight bins. */
  class ToF {
    var timeResolution: real
    var data: map<int, real>
    var photonCountPerBin: map<int, real>
    var interpolationNeeded: bool
    var lowerBinIndex: int
    var upperBinIndex: int

    /** The bounds are the least and the greatest bin of the (non-empty) series. */
    predicate Valid()
      reads this
    {
      lowerBinIndex in data && upperBinIndex in data &&
      forall k | k in data :: lowerBinIndex <= k <= upperBinIndex
    }

    function State(): ToFState
      reads this
    {
      ToFState(data, photonCountPerBin, interpolationNeeded, lowerBinIndex, upperBinIndex)
    }

    /** The assignments that precede _fill_data_gaps. */
    constructor(timeResolution: real, data: map<int, real>, counts: map<int, real>, lower: int, upper: int)
      ensures this.timeResolution == timeResolution && this.data == data && photonCountPerBin == counts
      ensures !interpolationNeeded && lowerBinIndex == lower && upperBinIndex == upper
    {
      this.timeResolution := timeResolution;
      this.data := data;
      photonCountPerBin := counts;
      interpolationNeeded := false;
      lowerBinIndex := lower;
      upperBinIndex := upper;
    }

    /** __len__: the number of bins; it spans the bounds exactly when there is no gap. */
    function Len(): (n: nat)
      reads this
      ensures Valid() ==> n <= upperBinIndex - lowerBinIndex + 1
      ensures Valid() ==> (n == upperBinIndex - lowerBinIndex + 1 <==> data.Keys == Range(lowerBinIndex, upperBinIndex))
    {
      if Valid() then ShortIffGaps(data.Keys, lowerBinIndex, upperBinIndex); |data| else |data|
    }

    /**
     * _fill_data_gaps: with the bounds of the current series, reindex both
     * series to every bin in between and interpolate in the log domain, but
     * only when some bin is missing. An empty series raises ValueError.
     */
    method FillDataGaps(env: Env) returns (r: Result<()>)
      modifies this
      ensures old(|data|) == 0 ==> r == Failure(ValueError) && unchanged(this)
      ensures old(|data|) != 0 ==>
                var f := GapFill(env, old(data), old(photonCountPerBin));
                && r.Success?
                && data == f.0 && photonCountPerBin == f.1
                && interpolationNeeded == (old(interpolationNeeded) || f.2)
      ensures timeResolution == old(timeResolution)
      ensures lowerBinIndex == old(lowerBinIndex) && upperBinIndex == old(upperBinIndex)
    {
      if |data| == 0 {
        return Failure(ValueError);
      }
      var filled, filledCounts, gaps := FillSeries(env, data, photonCountPerBin);
      // Without a gap the filled series are the current ones, so assigning them unconditionally changes nothing.
      data, photonCountPerBin, interpolationNeeded := filled, filledCounts, interpolationNeeded || gaps;
      r := Success(());
    }

    /**
     * check_operation_compatibility: the same time resolution and
     * overlapping [lower, upper] bin ranges.
     */
    function CheckOperationCompatibility(other: ToF): (b: bool)
      reads this, other
      ensures b ==> timeResolution == other.timeResolution
      ensures b <==>
                timeResolution == other.timeResolution &&
                !(upperBinIndex < other.lowerBinIndex || other.upperBinIndex < lowerBinIndex)
    {
      if timeResolution != other.timeResolution then false
      else if lowerBinIndex > other.upperBinIndex then false
      else if upperBinIndex < other.lowerBinIndex then false
      else true
    }

    /**
     * _operate with a ToF operand: ValueError when the two are incompatible,
     * otherwise a new ToF over the shared bins holding the element-wise
     * results, at this ToF's resolution (ValueError again if no bin is shared).
     */
    method Operate(other: ToF, op: (real, real) -> real) returns (r: Result<ToF>)
      ensures !CheckOperationCompatibility(other) ==> r == Failure(ValueError)
      ensures CheckOperationCompatibility(other) ==> (r.Failure? <==> data.Keys * other.data.Keys == {})
      ensures r.Failure? ==> r.error == ValueError
      ensures r.Success? ==>
                && fresh(r.value) && r.value.Valid()
                && r.value.data == Combine(data, other.data, op)
                && r.value.timeResolution == timeResolution
    {
      if !CheckOperationCompatibility(other) {
        return Failure(ValueError);
      }
      var newData := Combine(data, other.data, op);
      r := FromData(newData, timeResolution);
    }

    /** _operate with a number: the element-wise results as a plain series, not a ToF. */
    function OperateScalar(x: real, op: (real, real) -> real): (m: map<int, real>)
      reads this
      ensures m.Keys == data.Keys
      ensures forall k | k in m :: m[k] == op(data[k], x)
    {
      map k | k in data :: op(data[k], x)
    }

    /** __truediv__, __mul__, __add__ and __sub__ with a ToF operand. */
    method TrueDiv(env: Env, other: ToF) returns (r: Result<ToF>)
      ensures !CheckOperationCompatibility(other) ==> r == Failure(ValueError)
      ensures CheckOperationCompatibility(other) ==> (r.Failure? <==> data.Keys * other.data.Keys == {})
      ensures r.Failure? ==> r.error == ValueError
      ensures r.Success? ==>
                && fresh(r.value) && r.value.Valid()
                && r.value.data == Combine(data, other.data, Quotient(env))
                && r.value.timeResolution == timeResolution
      ensures r.Success? ==>
                && r.value.data.Keys == data.Keys * other.data.Keys
                && forall k | k in r.value.data :: r.value.data[k] == Div(env, data[k], other.data[k])
    {
      r := Operate(other, Quotient(env));
    }

    method Mul(other: ToF) returns (r: Result<ToF>)
      ensures !CheckOperationCompatibility(other) ==> r == Failure(ValueError)
      ensures CheckOperationCompatibility(other) ==> (r.Failure? <==> data.Keys * other.data.Keys == {})
      ensures r.Failure? ==> r.error == ValueError
      ensures r.Success? ==>
                && fresh(r.value) && r.value.Valid()
                && r.value.data == Combine(data, other.data, Times)
                && r.value.timeResolution == timeResolution
      ensures r.Success? ==>
                && r.value.data.Keys == data.Keys * other.data.Keys
                && forall k | k in r.value.data :: r.value.data[k] == data[k] * other.data[k]
    {
      r := Operate(other, Times);
    }

    method Add(other: ToF) returns (r: Result<ToF>)
      ensures !CheckOperationCompatibility(other) ==> r == Failure(ValueError)
      ensures CheckOperationCompatibility(other) ==> (r.Failure? <==> data.Keys * other.data.Keys == {})
      ensures r.Failure? ==> r.error == ValueError
      ensures r.Success? ==>
                && fresh(r.value) && r.value.Valid()
                && r.value.data == Combine(data, other.data, Plus)
                && r.value.timeResolution == timeResolution
      ensures r.Success? ==>
                && r.value.data.Keys == data.Keys * other.data.Keys
                && forall k | k in r.value.data :: r.value.data[k] == data[k] + other.data[k]
    {
      r := Operate(other, Plus);
    }

    method Sub(other: ToF) returns (r: Result<ToF>)
      ensures !CheckOperationCompatibility(other) ==> r == Failure(ValueError)
      ensures CheckOperationCompatibility(other) ==> (r.Failure? <==> data.Keys * other.data.Keys == {})
      ensures r.Failure? ==> r.error == ValueError
      ensures r.Success? ==>
                && fresh(r.value) && r.value.Valid()
                && r.value.data == Combine(data, other.data, Minus)
                && r.value.timeResolution == timeResolution
      ensures r.Success? ==>
                && r.value.data.Keys == data.Keys * other.data.Keys
                && forall k | k in r.value.data :: r.value.data[k] == data[k] - other.data[k]
    {
      r := Operate(other, Minus);
    }

    /**
     * from_data: a ToF whose series is the given one and whose bounds are
     * its least and greatest bin; an empty series raises ValueError.
     */
    static method FromData(data: map<int, real>, timeResolution: real) returns (r: Result<ToF>)
      ensures r.Failure? <==> data.Keys == {}
      ensures r.Failure? ==> r.error == ValueError
      ensures r.Success? ==>
                && fresh(r.value) && r.value.Valid()
                && r.value.data == data && r.value.timeResolution == timeResolution
                && r.value.lowerBinIndex == SetMin(data.Keys) && r.value.upperBinIndex == SetMax(data.Keys)
    {
      if data.Keys == {} {
        return Failure(ValueError);
      }
      var lower, upper := Bounds(data.Keys);
      var t := new ToF(timeResolution, data, map[], lower, upper);
      return Success(t);
    }

    /**
     * __init__: the intensity column, the bin of every photon, the per-bin
     * sums and counts above the cutoff, the bounds, then the gap filling.
     */
    static method Create(env: Env, photonData: PhotonTable, timeResolution: real, muMap: map<int, real>,
                         sddIndex: Option<int>, lowerIntensityBound: real) returns (r: Result<ToF>)
      requires WellFormed(photonData)
      ensures var s := InitialState(env, photonData, timeResolution, muMap, sddIndex, lowerIntensityBound);
              && (r.Success? <==> s.Success?)
              && (r.Failure? ==> r.error == s.error)
              && (r.Success? ==> fresh(r.value) && r.value.Valid() && r.value.State() == s.value
                                 && r.value.timeResolution == timeResolution)
    {
      var series :- BinnedSeries(env, photonData, timeResolution, muMap, sddIndex, lowerIntensityBound);
      var data, counts := series.0, series.1;
      if data.Keys == {} {
        assert |data| == 0;
        return Failure(ValueError);
      }
      assert |data| != 0;
      var lower, upper := Bounds(data.Keys);
      var t := new ToF(timeResolution, data, counts, lower, upper);
      var _ := t.FillDataGaps(env);
      SettledStateIsValid(env, data, counts);
      assert t.State() == Settle(env, data, counts).value;
      return Success(t);
    }
  }

  /** Compatibility does not depend on the order of the operands. */
  lemma CompatibilityIsSymmetric(a: ToF, b: ToF)
    ensures a.CheckOperationCompatibility(b) == b.CheckOperationCompatibility(a)
  {
  }

  /**
   * For two gap-free distributions, compatibility is exactly sharing the
   * time resolution and at least one bin, so combining compatible ones
   * never fails and yields the bins between the later start and the earlier end.
   */
  lemma {:induction false} ContiguousCompatibilityIsOverlap(a: ToF, b: ToF)
    requires a.Valid() && b.Valid()
    requires a.data.Keys == Range(a.lowerBinIndex, a.upperBinIndex)
    requires b.data.Keys == Range(b.lowerBinIndex, b.upperBinIndex)
    ensures a.CheckOperationCompatibility(b) <==>
              a.timeResolution == b.timeResolution && a.data.Keys * b.data.Keys != {}
    ensures a.CheckOperationCompatibility(b) ==>
              a.data.Keys * b.data.Keys ==
              Range(if a.lowerBinIndex < b.lowerBinIndex then b.lowerBinIndex else a.lowerBinIndex,
                    if a.upperBinIndex < b.upperBinIndex then a.upperBinIndex else b.upperBinIndex)
  {
    RangeIntersection(a.lowerBinIndex, a.upperBinIndex, b.lowerBinIndex, b.upperBinIndex);
    var lo := if a.lowerBinIndex < b.lowerBinIndex then b.lowerBinIndex else a.lowerBinIndex;
    var hi := if a.upperBinIndex < b.upperBinIndex then a.upperBinIndex else b.upperBinIndex;
    if a.CheckOperationCompatibility(b) {
      assert lo in Range(lo, hi);
    }
  }
}
