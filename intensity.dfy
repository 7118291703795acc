/**
 * Intensity generator: per-photon Beer-Lambert weights from per-layer partial
 * path lengths and a layer -> absorption-coefficient map
 * (calculate_intensity/photon_manipulation.py).
 *
 * A photon table is the set of "L<n> ppath" columns, already in name order,
 * plus the SDD column. Column c (0-based) holds the path length in layer c + 1.
 */
module Intensity {
  import opened Common

  datatype Row = Row(paths: seq<real>, sdd: real)

  /** `layerCount` is the number of columns whose name contains both "L" and "ppath". */
  datatype PhotonTable = PhotonTable(layerCount: nat, rows: seq<Row>)

  /** Every row has one path length per layer column. */
  predicate WellFormed(t: PhotonTable) {
    forall i | 0 <= i < |t.rows| :: |t.rows[i].paths| == t.layerCount
  }

  /** Path lengths are physical distances. */
  predicate NonNegativePaths(t: PhotonTable) {
    forall i, j | 0 <= i < |t.rows| && 0 <= j < |t.rows[i].paths| :: t.rows[i].paths[j] >= 0.0
  }

  /** The Beer-Lambert factor exp(-mu * p). */
  function Attenuate(env: Env, mu: real, p: real): real {
    env.exp(-mu * p)
  }

  /** Key k addresses numpy column k - 1, which exists (possibly counted from the end) iff 1 - n <= k <= n. */
  predicate KeyInRange(k: int, n: nat) {
    1 - n <= k <= n
  }

  predicate AllKeysInRange(keys: set<int>, n: nat) {
    forall k | k in keys :: KeyInRange(k, n)
  }

  /** The column numpy's `intensity[:, k - 1]` designates: a negative index wraps around. */
  function ColumnOf(k: int, n: nat): (c: nat)
    requires KeyInRange(k, n)
    ensures c < n
  {
    if k >= 1 then k - 1 else k - 1 + n
  }

  /**
   * The value in column c after the keys in `applied` have rewritten it.
   * Two keys address column c: c + 1 - n (a wrapped negative index) and
   * c + 1; in ascending key order the former comes first.
   */
  function LayerTerm(env: Env, mu: map<int, real>, applied: set<int>, n: nat, c: nat, p: real): real
    requires applied <= mu.Keys
  {
    var wrapped := c + 1 - n;
    var direct := c + 1;
    var p1 := if wrapped in applied then Attenuate(env, mu[wrapped], p) else p;
    if direct in applied then Attenuate(env, mu[direct], p1) else p1
  }

  /** A row of path lengths after the keys in `applied` have rewritten their columns. */
  function AttenuatedRow(env: Env, mu: map<int, real>, applied: set<int>, n: nat, p: seq<real>): (r: seq<real>)
    requires applied <= mu.Keys && |p| == n
    ensures |r| == n
  {
    seq(n, c requires 0 <= c < n => LayerTerm(env, mu, applied, n, c, p[c]))
  }

  /** The per-photon intensity before detector normalisation: the row product. */
  function RowIntensity(env: Env, mu: map<int, real>, p: seq<real>): real
    requires |p| == |mu|
  {
    Product(AttenuatedRow(env, mu, mu.Keys, |mu|, p))
  }

  /** With a detector index, divide by the detector count and then by the photon count. */
  function Normalise(env: Env, x: real, sddIndex: Option<int>): real {
    match sddIndex
    case None => x
    case Some(i) => Div(env, Div(env, x, env.detectorCount(i)), env.detectorPhotonCount)
  }

  /** generate_intensity_column: one intensity per photon, or the error the call raises. */
  function IntensityColumn(env: Env, t: PhotonTable, mu: map<int, real>, sddIndex: Option<int>): (r: Result<seq<real>>)
    requires WellFormed(t)
    ensures r == Failure(ShapeMismatch) <==> |mu| != t.layerCount
    ensures r.Success? <==> |mu| == t.layerCount && AllKeysInRange(mu.Keys, t.layerCount)
    ensures r.Failure? ==> r.error in {ShapeMismatch, IndexOutOfRange}
    ensures r.Success? ==> |r.value| == |t.rows|
  {
    if |mu| != t.layerCount then Failure(ShapeMismatch)
    else if !AllKeysInRange(mu.Keys, t.layerCount) then Failure(IndexOutOfRange)
    else Success(seq(|t.rows|, i requires 0 <= i < |t.rows| =>
                   Normalise(env, RowIntensity(env, mu, t.rows[i].paths), sddIndex)))
  }

  /** generate_intensity: the sum of the intensity column. */
  function GenerateIntensity(env: Env, t: PhotonTable, mu: map<int, real>, sddIndex: Option<int>): (r: Result<real>)
    requires WellFormed(t)
    ensures r.Success? <==> IntensityColumn(env, t, mu, sddIndex).Success?
    ensures r.Failure? ==> r.error == IntensityColumn(env, t, mu, sddIndex).error
  {
    var column :- IntensityColumn(env, t, mu, sddIndex);
    Success(Sum(column))
  }

  /**
   * Applying the least remaining key k rewrites exactly column ColumnOf(k, n),
   * on top of whatever the earlier (smaller) keys left there.
   */
  lemma LayerTermStep(env: Env, mu: map<int, real>, applied: set<int>, n: nat, k: int, c: nat, p: real)
    requires applied <= mu.Keys && k in mu && k !in applied && KeyInRange(k, n) && c < n
    requires forall a :: a in applied ==> a < k
    requires forall x :: x in mu && x !in applied ==> k <= x
    ensures LayerTerm(env, mu, applied + {k}, n, c, p) ==
      if c == ColumnOf(k, n) then Attenuate(env, mu[k], LayerTerm(env, mu, applied, n, c, p))
      else LayerTerm(env, mu, applied, n, c, p)
  {
    var wrapped := c + 1 - n;
    var direct := c + 1;
    if c == ColumnOf(k, n) {
      if k >= 1 {
        // k is the direct key; the wrapped key is smaller, so it is already applied if present
        assert direct == k && wrapped < k;
        assert wrapped in mu ==> wrapped in applied;
      } else {
        // k is the wrapped key; the direct key is larger, so not yet applied
        assert wrapped == k && direct > k;
        assert direct !in applied;
      }
    } else {
      assert wrapped != k && direct != k;
    }
  }

  /** The path array holds, in every cell, the value the keys in `applied` leave there. */
  ghost predicate RewrittenBy(env: Env, t: PhotonTable, mu: map<int, real>, applied: set<int>, a: array2<real>)
    reads a
    requires WellFormed(t) && applied <= mu.Keys
  {
    a.Length0 == |t.rows| && a.Length1 == t.layerCount &&
    forall i, j :: 0 <= i < |t.rows| && 0 <= j < t.layerCount ==>
      a[i, j] == LayerTerm(env, mu, applied, t.layerCount, j, t.rows[i].paths[j])
  }

  /**
   * The mu-map loop of generate_intensity_column: rewrite column key - 1 of
   * the path array for every key in ascending order. A key whose column does
   * not exist raises IndexError when the loop reaches it.
   */
  method AttenuateColumns(env: Env, t: PhotonTable, mu: map<int, real>) returns (intensity: array2<real>, ok: bool)
    requires WellFormed(t) && |mu| == t.layerCount
    ensures ok <==> AllKeysInRange(mu.Keys, t.layerCount)
    ensures ok ==> RewrittenBy(env, t, mu, mu.Keys, intensity)
  {
    var n := t.layerCount;
    intensity := PathArray(env, t, mu);
    var remaining := mu.Keys;
    ghost var applied: set<int> := {};
    while remaining != {}
      invariant KeySplit(mu.Keys, applied, remaining, n)
      invariant RewrittenBy(env, t, mu, applied, intensity)
      decreases remaining
    {
      var k := LeastKey(remaining);
      if !KeyInRange(k, n) {
        assert k in mu.Keys;
        return intensity, false;
      }
      ApplyKey(env, t, mu, applied, k, intensity);
      KeySplitStep(mu.Keys, applied, remaining, n, k);
      remaining := remaining - {k};
      applied := applied + {k};
    }
    assert applied == mu.Keys;
    ok := true;
  }

  /**
   * The loop's view of the keys: those already applied, all in range and all
   * smaller than those remaining.
   */
  ghost predicate KeySplit(keys: set<int>, applied: set<int>, remaining: set<int>, n: nat) {
    remaining !! applied && remaining + applied == keys &&
    (forall a, b :: a in applied && b in remaining ==> a < b) &&
    AllKeysInRange(applied, n)
  }

  lemma KeySplitStep(keys: set<int>, applied: set<int>, remaining: set<int>, n: nat, k: int)
    requires KeySplit(keys, applied, remaining, n)
    requires k in remaining && KeyInRange(k, n) && forall x :: x in remaining ==> k <= x
    ensures KeySplit(keys, applied + {k}, remaining - {k}, n)
  {
    forall a, b | a in applied + {k} && b in remaining - {k}
      ensures a < b
    {
      assert b in remaining;
    }
  }

  /** `photon_data[partial_path_columns].to_numpy()`: a fresh array of the path lengths, no key applied yet. */
  method PathArray(env: Env, t: PhotonTable, mu: map<int, real>) returns (a: array2<real>)
    requires WellFormed(t)
    ensures fresh(a) && RewrittenBy(env, t, mu, {}, a)
  {
    var m, n := |t.rows|, t.layerCount;
    a := new real[m, n]((i, j) requires 0 <= i < m && 0 <= j < n => t.rows[i].paths[j]);
  }

  /** One iteration of the mu-map loop: key k, the least not yet applied, rewrites its column. */
  method ApplyKey(env: Env, t: PhotonTable, mu: map<int, real>, ghost applied: set<int>, k: int, intensity: array2<real>)
    requires WellFormed(t) && applied <= mu.Keys && k in mu && k !in applied && KeyInRange(k, t.layerCount)
    requires forall a :: a in applied ==> a < k
    requires forall x :: x in mu && x !in applied ==> k <= x
    requires RewrittenBy(env, t, mu, applied, intensity)
    modifies intensity
    ensures RewrittenBy(env, t, mu, applied + {k}, intensity)
  {
    var n := t.layerCount;
    AttenuateColumn(env, intensity, ColumnOf(k, n), mu[k]);
    forall i, j | 0 <= i < |t.rows| && 0 <= j < n
      ensures intensity[i, j] == LayerTerm(env, mu, applied + {k}, n, j, t.rows[i].paths[j])
    {
      LayerTermStep(env, mu, applied, n, k, j, t.rows[i].paths[j]);
    }
  }

  /** The next key of `dict(sorted(mu_map.items()))` still to be visited. */
  method LeastKey(keys: set<int>) returns (k: int)
    requires keys != {}
    ensures k in keys && forall x :: x in keys ==> k <= x
  {
    ghost var least := SetMin(keys);
    k :| k in keys && forall x :: x in keys ==> k <= x;
  }

  /** `intensity[:, c] = np.exp(-mu * intensity[:, c])`. */
  method AttenuateColumn(env: Env, intensity: array2<real>, c: nat, mu: real)
    requires c < intensity.Length1
    modifies intensity
    ensures forall i, j :: 0 <= i < intensity.Length0 && 0 <= j < intensity.Length1 ==>
      intensity[i, j] == if j == c then Attenuate(env, mu, old(intensity[i, j])) else old(intensity[i, j])
  {
    for i := 0 to intensity.Length0
      invariant forall i', j :: 0 <= i' < intensity.Length0 && 0 <= j < intensity.Length1 ==>
        intensity[i', j] == if i' < i && j == c then Attenuate(env, mu, old(intensity[i', j])) else old(intensity[i', j])
    {
      intensity[i, c] := Attenuate(env, mu, intensity[i, c]);
    }
  }

  /** np.prod(intensity, axis=1). */
  method RowProducts(env: Env, t: PhotonTable, mu: map<int, real>, intensity: array2<real>) returns (column: array<real>)
    requires WellFormed(t) && |mu| == t.layerCount
    requires RewrittenBy(env, t, mu, mu.Keys, intensity)
    ensures fresh(column) && column.Length == |t.rows|
    ensures forall i :: 0 <= i < |t.rows| ==> column[i] == RowIntensity(env, mu, t.rows[i].paths)
  {
    var n, m := t.layerCount, |t.rows|;
    column := new real[m];
    for i := 0 to m
      invariant forall i' :: 0 <= i' < i ==> column[i'] == RowIntensity(env, mu, t.rows[i'].paths)
    {
      ghost var row := AttenuatedRow(env, mu, mu.Keys, n, t.rows[i].paths);
      var acc := 1.0;
      for j := 0 to n
        invariant acc == Product(row[..j])
      {
        assert row[..j + 1][..j] == row[..j];
        acc := acc * intensity[i, j];
      }
      assert row[..n] == row;
      column[i] := acc;
    }
  }

  /** `intensity /= d` on a column, in place. */
  method DivideInPlace(env: Env, column: array<real>, d: real)
    modifies column
    ensures forall i :: 0 <= i < column.Length ==> column[i] == Div(env, old(column[i]), d)
  {
    for i := 0 to column.Length
      invariant forall i' :: 0 <= i' < column.Length ==>
        column[i'] == if i' < i then Div(env, old(column[i']), d) else old(column[i'])
    {
      column[i] := Div(env, column[i], d);
    }
  }

  /**
   * generate_intensity_column as the source runs it: the shape check, the
   * in-place mu-map loop, the row products, then the two in-place divisions
   * when a detector index is given.
   */
  method GenerateIntensityColumn(env: Env, t: PhotonTable, mu: map<int, real>, sddIndex: Option<int>)
    returns (r: Result<seq<real>>)
    requires WellFormed(t)
    ensures r == IntensityColumn(env, t, mu, sddIndex)
  {
    if |mu| != t.layerCount {
      return Failure(ShapeMismatch);
    }
    var intensity, ok := AttenuateColumns(env, t, mu);
    if !ok {
      return Failure(IndexOutOfRange);
    }
    var column := RowProducts(env, t, mu, intensity);
    ghost var raw := column[..];
    if sddIndex.Some? {
      DivideInPlace(env, column, env.detectorCount(sddIndex.value));
      DivideInPlace(env, column, env.detectorPhotonCount);
    }
    assert forall i | 0 <= i < |t.rows| :: column[i] == Normalise(env, raw[i], sddIndex);
    ghost var expected := IntensityColumn(env, t, mu, sddIndex);
    assert expected.Success?;
    assert |expected.value| == column.Length;
    assert forall i | 0 <= i < |t.rows| :: expected.value[i] == Normalise(env, raw[i], sddIndex);
    assert expected.value == column[..];
    r := Success(column[..]);
  }

  /** The textbook Beer-Lambert row: layer n (column n - 1) attenuated by mu[n]. */
  function StandardRow(env: Env, mu: map<int, real>, p: seq<real>): (r: seq<real>)
    requires forall c | 1 <= c <= |p| :: c in mu
    ensures |r| == |p|
  {
    seq(|p|, c requires 0 <= c < |p| => Attenuate(env, mu[c + 1], p[c]))
  }

  /** With keys exactly 1..N, key n rewrites column n - 1 and no other. */
  lemma StandardLayerTerms(env: Env, mu: map<int, real>, n: nat, p: seq<real>)
    requires mu.Keys == Range(1, n) && |p| == n
    ensures AttenuatedRow(env, mu, mu.Keys, n, p) == StandardRow(env, mu, p)
  {
    var row := AttenuatedRow(env, mu, mu.Keys, n, p);
    forall c | 0 <= c < n
      ensures row[c] == Attenuate(env, mu[c + 1], p[c])
    {
      assert c + 1 - n !in mu.Keys;
    }
  }

  /** With keys exactly 1..N, each photon's intensity is the product of exp(-mu[n] * p[n - 1]) over layers n. */
  lemma {:induction false} StandardMapIntensity(env: Env, t: PhotonTable, mu: map<int, real>, sddIndex: Option<int>, i: nat)
    requires WellFormed(t) && mu.Keys == Range(1, t.layerCount) && i < |t.rows|
    ensures IntensityColumn(env, t, mu, sddIndex).Success?
    ensures IntensityColumn(env, t, mu, sddIndex).value[i] ==
      Normalise(env, Product(StandardRow(env, mu, t.rows[i].paths)), sddIndex)
  {
    var n := t.layerCount;
    assert |mu| == |mu.Keys| == n;
    forall k | k in mu.Keys
      ensures KeyInRange(k, n)
    {
      assert k in Range(1, n);
    }
    StandardLayerTerms(env, mu, n, t.rows[i].paths);
    assert IntensityColumn(env, t, mu, sddIndex).value[i] ==
      Normalise(env, RowIntensity(env, mu, t.rows[i].paths), sddIndex);
  }

  /** All coefficients zero and no normalisation: every photon has intensity exactly 1. */
  lemma {:induction false} ZeroAbsorptionGivesUnitIntensity(env: Env, t: PhotonTable, mu: map<int, real>)
    requires ExpOfZeroIsOne(env)
    requires WellFormed(t) && mu.Keys == Range(1, t.layerCount)
    requires forall k | k in mu :: mu[k] == 0.0
    ensures IntensityColumn(env, t, mu, None).Success?
    ensures forall i | 0 <= i < |t.rows| :: IntensityColumn(env, t, mu, None).value[i] == 1.0
  {
    forall i | 0 <= i < |t.rows|
      ensures IntensityColumn(env, t, mu, None).value[i] == 1.0
    {
      StandardMapIntensity(env, t, mu, None, i);
      ProductOfOnes(StandardRow(env, mu, t.rows[i].paths));
    }
  }

  /** A detector index divides every entry by the detector count and then by the photon count. */
  lemma NormalisedColumn(env: Env, t: PhotonTable, mu: map<int, real>, sdd: int)
    requires WellFormed(t)
    ensures IntensityColumn(env, t, mu, Some(sdd)).Success? <==> IntensityColumn(env, t, mu, None).Success?
    ensures IntensityColumn(env, t, mu, None).Success? ==>
      forall i | 0 <= i < |t.rows| ::
        IntensityColumn(env, t, mu, Some(sdd)).value[i] ==
          Div(env, Div(env, IntensityColumn(env, t, mu, None).value[i], env.detectorCount(sdd)), env.detectorPhotonCount)
  {
  }

  /** With non-zero detector constants, the normalised total is the raw total divided by both constants. */
  lemma {:induction false} NormalisedTotal(env: Env, t: PhotonTable, mu: map<int, real>, sdd: int)
    requires WellFormed(t)
    requires env.detectorCount(sdd) != 0.0 && env.detectorPhotonCount != 0.0
    requires GenerateIntensity(env, t, mu, None).Success?
    ensures GenerateIntensity(env, t, mu, Some(sdd)) ==
      Success(GenerateIntensity(env, t, mu, None).value / env.detectorCount(sdd) / env.detectorPhotonCount)
  {
    var a, b := env.detectorCount(sdd), env.detectorPhotonCount;
    var raw := IntensityColumn(env, t, mu, None).value;
    var scaled := IntensityColumn(env, t, mu, Some(sdd)).value;
    var perDetector := seq(|raw|, i requires 0 <= i < |raw| => raw[i] / a);
    SumOfQuotients(raw, perDetector, a);
    SumOfQuotients(perDetector, scaled, b);
  }
}
