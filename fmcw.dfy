/**
 * The FMCW time-of-flight quantisers (calculate_intensity/fmcw.py): each
 * photon's total path is replaced by the centre value of the bin it falls
 * in, with bin edges spread evenly from 0 to the longest path, either a given
 * number of bins or as many as a resolution needs. Both write their columns
 * into the caller's table.
 */
module Fmcw {
  import opened Common
  import opened Intensity

  /** math.ceil. */
  function Ceil(x: real): (c: int)
    ensures c as real >= x && (c - 1) as real < x
  {
    -((-x).Floor)
  }

  /** numpy.linspace(start, stop, num) with the end point: ValueError for a negative count. */
  function Linspace(start: real, stop: real, num: int): (r: Result<seq<real>>)
    ensures r.Failure? <==> num < 0
    ensures r.Failure? ==> r.error == ValueError
    ensures r.Success? ==> |r.value| == num
    ensures r.Success? && num > 0 ==> r.value[0] == start
    ensures r.Success? && num > 1 ==> r.value[num - 1] == stop
  {
    if num < 0 then Failure(ValueError)
    else if num <= 1 then Success(seq(num, i => start))
    else Success(seq(num, i requires 0 <= i < num =>
                   if i == num - 1 then stop else start + i as real * ((stop - start) / (num - 1) as real)))
  }

  /** The edges of a linspace from start up to a stop no smaller are in non-decreasing order. */
  lemma LinspaceIsSorted(start: real, stop: real, num: int)
    requires start <= stop && num >= 0
    ensures Sorted(Linspace(start, stop, num).value)
  {
    var e := Linspace(start, stop, num).value;
    if num > 1 {
      var step := (stop - start) / (num - 1) as real;
      assert step >= 0.0;
      forall i, j | 0 <= i < j < num ensures e[i] <= e[j] {
        assert i as real * step <= j as real * step;
        if j == num - 1 {
          assert (num - 1) as real * step == stop - start;
          assert i as real * step <= (num - 1) as real * step;
        }
      }
    }
  }

  predicate Sorted(s: seq<real>) {
    forall i, j | 0 <= i < j < |s| :: s[i] <= s[j]
  }

  /** The number of edges at or below x. */
  function CountAtMost(edges: seq<real>, x: real): (n: nat)
    ensures n <= |edges|
  {
    if |edges| == 0 then 0
    else CountAtMost(edges[..|edges| - 1], x) + (if edges[|edges| - 1] <= x then 1 else 0)
  }

  /** The number of edges above x. */
  function CountAbove(edges: seq<real>, x: real): (n: nat)
    ensures n <= |edges|
  {
    if |edges| == 0 then 0
    else CountAbove(edges[..|edges| - 1], x) + (if edges[|edges| - 1] > x then 1 else 0)
  }

  /**
   * numpy.digitize(x, edges): for increasing edges the i with
   * edges[i-1] <= x < edges[i], for decreasing ones the i with
   * edges[i-1] > x >= edges[i]; always within 0..len(edges).
   */
  function Digitize(x: real, edges: seq<real>, increasing: bool): (i: nat)
    ensures i <= |edges|
  {
    if increasing then CountAtMost(edges, x) else CountAbove(edges, x)
  }

  /** On sorted edges, digitize finds the bin of x: every edge before it is at most x, every later one above. */
  lemma {:induction false} DigitizeFindsTheBin(edges: seq<real>, x: real)
    requires Sorted(edges)
    ensures var d := CountAtMost(edges, x);
            (forall j | 0 <= j < d :: edges[j] <= x) && (forall j | d <= j < |edges| :: edges[j] > x)
  {
    if |edges| > 0 {
      var n := |edges|;
      var prefix := edges[..n - 1];
      assert Sorted(prefix);
      DigitizeFindsTheBin(prefix, x);
    }
  }

  /** The running centre of quantile i: the first quantile, then the mean of the previous centre and quantile i. */
  function Centre(quantiles: seq<real>, i: nat): real
    requires i < |quantiles|
  {
    if i == 0 then quantiles[0] else (Centre(quantiles, i - 1) + quantiles[i]) / 2.0
  }

  /**
   * get_quantile_centers: the running centres followed by the last quantile;
   * an empty array raises IndexError at `quantiles[-1]`.
   */
  function QuantileCentres(quantiles: seq<real>): (r: Result<seq<real>>)
    ensures r.Failure? <==> |quantiles| == 0
    ensures r.Failure? ==> r.error == IndexOutOfRange
    ensures r.Success? ==> |r.value| == |quantiles| + 1
  {
    if |quantiles| == 0 then Failure(IndexOutOfRange)
    else Success(seq(|quantiles|, i requires 0 <= i < |quantiles| => Centre(quantiles, i)) + [quantiles[|quantiles| - 1]])
  }

  /**
   * get_quantile_centers on an array: each entry from the second on becomes
   * the mean of the already updated previous entry and itself, then the last
   * quantile is appended. The input is not changed.
   */
  method GetQuantileCenters(quantiles: seq<real>) returns (r: Result<seq<real>>)
    ensures r == QuantileCentres(quantiles)
    ensures r.Success? ==>
              && |r.value| == |quantiles| + 1
              && r.value[0] == quantiles[0]
              && r.value[|quantiles|] == quantiles[|quantiles| - 1]
              && forall i | 1 <= i < |quantiles| :: r.value[i] == (r.value[i - 1] + quantiles[i]) / 2.0
  {
    if |quantiles| == 0 {
      return Failure(IndexOutOfRange);
    }
    var centerValues := new real[|quantiles|](i requires 0 <= i < |quantiles| => quantiles[i]);
    for i := 1 to centerValues.Length
      invariant forall j | 0 <= j < i :: centerValues[j] == Centre(quantiles, j)
      invariant forall j | i <= j < centerValues.Length :: centerValues[j] == quantiles[j]
    {
      centerValues[i] := (centerValues[i - 1] + centerValues[i]) / 2.0;
    }
    var centres := centerValues[..];
    var expected := seq(|quantiles|, i requires 0 <= i < |quantiles| => Centre(quantiles, i));
    assert centres == expected;
    r := Success(centres + [quantiles[|quantiles| - 1]]);
    QuantileCentresRecurrence(quantiles);
  }

  /** The centres start at the first quantile, end with the last, and each is the mean of the previous centre and its quantile. */
  lemma QuantileCentresRecurrence(quantiles: seq<real>)
    requires |quantiles| > 0
    ensures var c := QuantileCentres(quantiles).value;
            && c[0] == quantiles[0]
            && c[|quantiles|] == quantiles[|quantiles| - 1]
            && forall i | 1 <= i < |quantiles| :: c[i] == (c[i - 1] + quantiles[i]) / 2.0
  {
    var c := QuantileCentres(quantiles).value;
    forall i | 1 <= i < |quantiles| ensures c[i] == (c[i - 1] + quantiles[i]) / 2.0 {
      assert c[i] == Centre(quantiles, i) && c[i - 1] == Centre(quantiles, i - 1);
    }
  }

  /** On sorted quantiles, centre i lies between the first quantile and quantile i. */
  lemma {:induction false} CentresStayInRange(quantiles: seq<real>, i: nat)
    requires Sorted(quantiles) && i < |quantiles|
    ensures quantiles[0] <= Centre(quantiles, i) <= quantiles[i]
  {
    if i > 0 {
      CentresStayInRange(quantiles, i - 1);
    }
  }

  /**
   * The centres are running averages, not the midpoints of neighbouring
   * quantiles: for 0, 1, 2 the third centre is 1.25, not 1.5.
   */
  lemma CentresAreNotMidpoints()
    ensures Centre([0.0, 1.0, 2.0], 2) == 1.25
    ensures Centre([0.0, 1.0, 2.0], 2) != (1.0 + 2.0) / 2.0
  {
    assert Centre([0.0, 1.0, 2.0], 1) == 0.5;
  }

  /** The "Total Path" column: each photon's summed layer paths. */
  function TotalPaths(t: PhotonTable): (totals: seq<real>)
    ensures |totals| == |t.rows|
  {
    seq(|t.rows|, i requires 0 <= i < |t.rows| => Sum(t.rows[i].paths))
  }

  /** Series.max of a non-empty column. */
  function MaxOf(s: seq<real>): (m: real)
    requires |s| > 0
    ensures m in s && forall i | 0 <= i < |s| :: s[i] <= m
  {
    if |s| == 1 then s[0]
    else
      var rest := MaxOf(s[..|s| - 1]);
      assert forall i | 0 <= i < |s| - 1 :: s[i] == s[..|s| - 1][i];
      if s[|s| - 1] > rest then s[|s| - 1] else rest
  }

  /** The centre value every photon's bin maps to, given edges from 0 up to (or down to) the longest path. */
  function CentreColumn(totals: seq<real>, edges: seq<real>, centres: seq<real>, increasing: bool): (c: seq<real>)
    requires |centres| == |edges| + 1
    ensures |c| == |totals|
  {
    seq(|totals|, i requires 0 <= i < |totals| => centres[Digitize(totals[i], edges, increasing)])
  }

  /** The "ToF" column as digitize leaves it, before the centre lookup. */
  function BinColumn(totals: seq<real>, edges: seq<real>, increasing: bool): (c: seq<real>)
    ensures |c| == |totals|
  {
    seq(|totals|, i requires 0 <= i < |totals| => Digitize(totals[i], edges, increasing) as real)
  }

  /**
   * The "ToF" column and the outcome once the edges are known: IndexError
   * from an empty edge array (with the digitized column left behind),
   * otherwise the centre of every photon's bin.
   */
  function QuantisedColumn(totals: seq<real>, edges: seq<real>, increasing: bool): (r: (Result<()>, seq<real>))
    ensures r.0.Success? <==> |edges| > 0
  {
    match QuantileCentres(edges)
    case Failure(e) => (Failure(e), BinColumn(totals, edges, increasing))
    case Success(centres) => (Success(()), CentreColumn(totals, edges, centres, increasing))
  }

  /** required_bin_count of the constant-resolution quantiser: ceil(max_tof / time_resolution). */
  function RequiredBinCount(maxTof: real, timeResolution: real): (r: Result<int>)
    ensures r.Failure? <==> timeResolution == 0.0
    ensures r.Failure? ==> r.error == if maxTof == 0.0 then ValueError else OverflowError
    ensures r.Success? ==> r.value as real * timeResolution >= maxTof || timeResolution < 0.0
  {
    if timeResolution == 0.0 then Failure(if maxTof == 0.0 then ValueError else OverflowError)
    else
      var q := (maxTof - 0.0) / timeResolution;
      var c := Ceil(q);
      assert timeResolution > 0.0 ==> c as real * timeResolution >= q * timeResolution;
      Success(c)
  }

  /** A photon table together with the two columns the quantisers add to it. */
  class PhotonFrame {
    const table: PhotonTable
    var totalPath: Option<seq<real>>
    var tof: Option<seq<real>>

    constructor(table: PhotonTable)
      ensures this.table == table && totalPath.None? && tof.None?
    {
      this.table := table;
      totalPath, tof := None, None;
    }
  }

  /**
   * The steps the two quantisers share once the number of edges is known:
   * the edges (ValueError for a negative count), digitize, the centre
   * table (IndexError when there is no edge), the lookup.
   */
  method QuantiseWithEdgeCount(frame: PhotonFrame, edgeCount: int) returns (r: Result<()>)
    requires |frame.table.rows| > 0
    requires frame.tof == Some(TotalPaths(frame.table))
    modifies frame
    ensures frame.totalPath == old(frame.totalPath)
    ensures var totals := TotalPaths(frame.table);
            var maxTof := MaxOf(totals);
            var edges := Linspace(0.0, maxTof, edgeCount);
            && (edges.Failure? ==> r == Failure(ValueError) && frame.tof == Some(totals))
            && (edges.Success? ==>
                  var q := QuantisedColumn(totals, edges.value, maxTof >= 0.0);
                  r == q.0 && frame.tof == Some(q.1))
  {
    var totals := frame.tof.value;
    var maxTof := MaxOf(totals);
    var quantiles :- Linspace(0.0, maxTof, edgeCount);
    var increasing := maxTof >= 0.0;
    var bins := seq(|totals|, i requires 0 <= i < |totals| => Digitize(totals[i], quantiles, increasing));
    frame.tof := Some(seq(|bins|, i requires 0 <= i < |bins| => bins[i] as real));
    var centerValues := GetQuantileCenters(quantiles);
    if centerValues.Failure? {
      assert frame.tof.value == BinColumn(totals, quantiles, increasing);
      return Failure(centerValues.error);
    }
    frame.tof := Some(seq(|bins|, i requires 0 <= i < |bins| => centerValues.value[bins[i]]));
    assert frame.tof.value == CentreColumn(totals, quantiles, centerValues.value, increasing);
    r := Success(());
  }

  /**
   * create_quantized_tof: writes "Total Path" and "ToF" into the caller's
   * table, then replaces "ToF" by the centre of each photon's bin among
   * bin_count equal bins from 0 to the longest path.
   */
  method CreateQuantizedTof(frame: PhotonFrame, binCount: int) returns (r: Result<()>)
    requires |frame.table.rows| > 0
    modifies frame
    ensures frame.totalPath == Some(TotalPaths(frame.table))
    ensures var totals := TotalPaths(frame.table);
            var maxTof := MaxOf(totals);
            var edges := Linspace(0.0, maxTof, binCount + 1);
            && (edges.Failure? ==> r == Failure(ValueError) && frame.tof == Some(totals))
            && (edges.Success? ==>
                  var q := QuantisedColumn(totals, edges.value, maxTof >= 0.0);
                  r == q.0 && frame.tof == Some(q.1))
  {
    var totals := TotalPaths(frame.table);
    frame.totalPath := Some(totals);
    frame.tof := Some(totals);
    r := QuantiseWithEdgeCount(frame, binCount + 1);
  }

  /**
   * create_quantized_tof_const_res: the same, with ceil(max / resolution)
   * bins; a zero resolution fails in math.ceil after the columns are written.
   */
  method CreateQuantizedTofConstRes(frame: PhotonFrame, timeResolution: real) returns (r: Result<()>)
    requires |frame.table.rows| > 0
    modifies frame
    ensures frame.totalPath == Some(TotalPaths(frame.table))
    ensures var totals := TotalPaths(frame.table);
            var maxTof := MaxOf(totals);
            var required := RequiredBinCount(maxTof, timeResolution);
            && (required.Failure? ==> r == Failure(required.error) && frame.tof == Some(totals))
            && (required.Success? ==>
                  var edges := Linspace(0.0, maxTof, required.value + 1);
                  && (edges.Failure? ==> r == Failure(ValueError) && frame.tof == Some(totals))
                  && (edges.Success? ==>
                        var q := QuantisedColumn(totals, edges.value, maxTof >= 0.0);
                        r == q.0 && frame.tof == Some(q.1)))
  {
    var totals := TotalPaths(frame.table);
    frame.totalPath := Some(totals);
    frame.tof := Some(totals);
    var requiredBinCount :- RequiredBinCount(MaxOf(totals), timeResolution);
    r := QuantiseWithEdgeCount(frame, requiredBinCount + 1);
  }

  /**
   * With a non-negative longest path and at least one bin, every photon gets
   * a centre, and the centre of a photon lies between 0 and the longest path.
   */
  lemma {:induction false} QuantisedToFWithinRange(totals: seq<real>, binCount: int, i: nat)
    requires |totals| > 0 && binCount >= 0 && MaxOf(totals) >= 0.0 && i < |totals|
    ensures var edges := Linspace(0.0, MaxOf(totals), binCount + 1).value;
            var q := QuantisedColumn(totals, edges, true);
            && q.0.Success?
            && 0.0 <= q.1[i] <= MaxOf(totals)
  {
    var maxTof := MaxOf(totals);
    var edges := Linspace(0.0, maxTof, binCount + 1).value;
    LinspaceIsSorted(0.0, maxTof, binCount + 1);
    var centres := QuantileCentres(edges).value;
    var d := Digitize(totals[i], edges, true);
    if d < |edges| {
      CentresStayInRange(edges, d);
      assert edges[d] <= edges[|edges| - 1];
    }
    assert centres[d] == if d < |edges| then Centre(edges, d) else edges[|edges| - 1];
  }
}
