/**
 * Numerical Jacobians by central differences (jacobian/numerical_formulae.py):
 * a calculator snapshots the operating point and builds its three mu maps
 * once, at construction; each derivative format then combines the total
 * intensities under those maps.
 */
module NumericalFormulae {
  import opened Common
  import opened Intensity
  import opened JacobianBase
  import opened MuAEquations

  /** The three calculator classes, one per formula. */
  datatype DerivativeFormat = Regular | Normalized | Log

  /** The key of each class in `derivative_mapping`. */
  function FormatName(f: DerivativeFormat): string {
    match f
    case Regular => "regular"
    case Normalized => "norm_der"
    case Log => "log"
  }

  /** `derivative_mapping[name]`: any other name is a KeyError. */
  function ParseFormat(name: string): (r: Result<DerivativeFormat>)
    ensures r.Success? <==> name in {"regular", "norm_der", "log"}
    ensures r.Failure? ==> r.error == KeyError
  {
    if name == "regular" then Success(Regular)
    else if name == "norm_der" then Success(Normalized)
    else if name == "log" then Success(Log)
    else Failure(KeyError)
  }

  /** The mapping's keys and classes are in one-to-one correspondence. */
  lemma FormatNameRoundTrip(f: DerivativeFormat, name: string)
    ensures ParseFormat(FormatName(f)) == Success(f)
    ensures ParseFormat(name).Success? ==> FormatName(ParseFormat(name).value) == name
  {
  }

  /**
   * The central-difference formulas over total intensities I1 = I(plus),
   * I2 = I(minus) and, for the normalised form only, I0 = I(base), evaluated
   * in that order; the first failing intensity call is the call's failure.
   */
  function Derivative(env: Env, fmt: DerivativeFormat, t: PhotonTable, maps: MuMaps,
                      sddIndex: Option<int>, delta: real): (r: Result<real>)
    requires WellFormed(t)
    ensures r.Success? <==>
      GenerateIntensity(env, t, maps.plus, sddIndex).Success? &&
      GenerateIntensity(env, t, maps.minus, sddIndex).Success? &&
      (fmt == Normalized ==> GenerateIntensity(env, t, maps.base, sddIndex).Success?)
    ensures r.Failure? ==> r.error in {ShapeMismatch, IndexOutOfRange}
  {
    var i1 :- GenerateIntensity(env, t, maps.plus, sddIndex);
    var i2 :- GenerateIntensity(env, t, maps.minus, sddIndex);
    match fmt
    case Regular => Success(Div(env, i1 - i2, 2.0 * delta))
    case Normalized =>
      var i0 :- GenerateIntensity(env, t, maps.base, sddIndex);
      Success(Div(env, Div(env, i1 - i2, i0), 2.0 * delta))
    case Log => Success(Div(env, env.log10(i1) - env.log10(i2), 2.0 * delta))
  }

  /** RegularDerivative is the central difference of intensity: times the step 2 * delta it gives back I1 - I2. */
  lemma RegularIsCentralDifference(env: Env, t: PhotonTable, maps: MuMaps, sddIndex: Option<int>, delta: real)
    requires WellFormed(t) && delta != 0.0
    requires Derivative(env, Regular, t, maps, sddIndex, delta).Success?
    ensures Derivative(env, Regular, t, maps, sddIndex, delta).value * (2.0 * delta) ==
            GenerateIntensity(env, t, maps.plus, sddIndex).value - GenerateIntensity(env, t, maps.minus, sddIndex).value
  {
  }

  /** LogDerivative is the central difference of log10 intensity. */
  lemma LogIsCentralDifference(env: Env, t: PhotonTable, maps: MuMaps, sddIndex: Option<int>, delta: real)
    requires WellFormed(t) && delta != 0.0
    requires Derivative(env, Log, t, maps, sddIndex, delta).Success?
    ensures Derivative(env, Log, t, maps, sddIndex, delta).value * (2.0 * delta) ==
            env.log10(GenerateIntensity(env, t, maps.plus, sddIndex).value) -
            env.log10(GenerateIntensity(env, t, maps.minus, sddIndex).value)
  {
  }

  /** NormalizedDerivative is the central difference of intensity relative to the base intensity I0. */
  lemma NormalizedIsCentralDifference(env: Env, t: PhotonTable, maps: MuMaps, sddIndex: Option<int>, delta: real)
    requires WellFormed(t) && delta != 0.0
    requires Derivative(env, Normalized, t, maps, sddIndex, delta).Success?
    requires GenerateIntensity(env, t, maps.base, sddIndex).value != 0.0
    ensures Derivative(env, Normalized, t, maps, sddIndex, delta).value * (2.0 * delta) *
              GenerateIntensity(env, t, maps.base, sddIndex).value ==
            GenerateIntensity(env, t, maps.plus, sddIndex).value - GenerateIntensity(env, t, maps.minus, sddIndex).value
  {
    var i1 := GenerateIntensity(env, t, maps.plus, sddIndex).value;
    var i2 := GenerateIntensity(env, t, maps.minus, sddIndex).value;
    QuotientOfQuotient(env, i1 - i2, GenerateIntensity(env, t, maps.base, sddIndex).value, 2.0 * delta);
  }

  /** Dividing by a and then by b, both non-zero, is undone by multiplying by b and a. */
  lemma QuotientOfQuotient(env: Env, x: real, a: real, b: real)
    requires a != 0.0 && b != 0.0
    ensures Div(env, Div(env, x, a), b) * b * a == x
  {
    var q := Div(env, x, a);
    assert q * a == x;
    assert Div(env, q, b) * b == q;
  }

  /**
   * The central difference is even in delta: negating delta exchanges the
   * plus and minus maps and the sign of the step, and the two cancel.
   */
  lemma {:induction false} CentralDifferenceIsEven(env: Env, fmt: DerivativeFormat, t: PhotonTable,
                                                   eqn: MuAEqn, base: map<int, real>,
                                                   mSat: real, mHb: real, fSat: real, fHb: real, waveInt: int,
                                                   dx: string, sddIndex: Option<int>, delta: real)
    requires WellFormed(t) && delta != 0.0
    requires Contains(dx, 'C') || Contains(dx, 'S')
    requires var m := DerivativeMuMapGen(env, eqn, base, mSat, mHb, fSat, fHb, waveInt, dx, delta).value;
             fmt == Normalized ==> GenerateIntensity(env, t, m.base, sddIndex) != Success(0.0)
    ensures var a := DerivativeMuMapGen(env, eqn, base, mSat, mHb, fSat, fHb, waveInt, dx, delta).value;
            var b := DerivativeMuMapGen(env, eqn, base, mSat, mHb, fSat, fHb, waveInt, dx, -delta).value;
            Derivative(env, fmt, t, b, sddIndex, -delta) == Derivative(env, fmt, t, a, sddIndex, delta)
  {
    var a := DerivativeMuMapGen(env, eqn, base, mSat, mHb, fSat, fHb, waveInt, dx, delta).value;
    NegatedDeltaSwapsMaps(env, eqn, base, mSat, mHb, fSat, fHb, waveInt, dx, delta);
    DerivativeMapsMoveOnlyTheAffectedLayer(env, eqn, base, mSat, mHb, fSat, fHb, waveInt, dx, delta);
    SwappedMapsAndStep(env, fmt, t, a, sddIndex, delta);
  }

  /** Exchanging the plus and minus maps and negating the step leaves every formula unchanged. */
  lemma SwappedMapsAndStep(env: Env, fmt: DerivativeFormat, t: PhotonTable, a: MuMaps,
                           sddIndex: Option<int>, delta: real)
    requires WellFormed(t) && delta != 0.0 && a.plus.Keys == a.minus.Keys
    requires fmt == Normalized ==> GenerateIntensity(env, t, a.base, sddIndex) != Success(0.0)
    ensures Derivative(env, fmt, t, MuMaps(a.base, a.minus, a.plus), sddIndex, -delta) ==
            Derivative(env, fmt, t, a, sddIndex, delta)
  {
    var p := GenerateIntensity(env, t, a.plus, sddIndex);
    var m := GenerateIntensity(env, t, a.minus, sddIndex);
    var z := GenerateIntensity(env, t, a.base, sddIndex);
    SameKeysSameIntensityOutcome(env, t, a.plus, a.minus, sddIndex);
    DerivativeOfIntensities(env, fmt, t, a, sddIndex, delta);
    DerivativeOfIntensities(env, fmt, t, MuMaps(a.base, a.minus, a.plus), sddIndex, -delta);
    SwappedIntensities(env, fmt, p, m, z, delta);
  }

  /** The formulas of Derivative applied to intensity outcomes already computed. */
  function CentralDifference(env: Env, fmt: DerivativeFormat, i1: Result<real>, i2: Result<real>,
                             i0: Result<real>, delta: real): Result<real>
  {
    var v1 :- i1;
    var v2 :- i2;
    match fmt
    case Regular => Success(Div(env, v1 - v2, 2.0 * delta))
    case Normalized =>
      var v0 :- i0;
      Success(Div(env, Div(env, v1 - v2, v0), 2.0 * delta))
    case Log => Success(Div(env, env.log10(v1) - env.log10(v2), 2.0 * delta))
  }

  /** Derivative is CentralDifference of the plus, minus and base intensities. */
  lemma DerivativeOfIntensities(env: Env, fmt: DerivativeFormat, t: PhotonTable, maps: MuMaps,
                                sddIndex: Option<int>, delta: real)
    requires WellFormed(t)
    ensures Derivative(env, fmt, t, maps, sddIndex, delta) ==
            CentralDifference(env, fmt, GenerateIntensity(env, t, maps.plus, sddIndex),
                              GenerateIntensity(env, t, maps.minus, sddIndex),
                              GenerateIntensity(env, t, maps.base, sddIndex), delta)
  {
  }

  /** Exchanging two intensity outcomes that fail alike and negating the step leaves every formula unchanged. */
  lemma SwappedIntensities(env: Env, fmt: DerivativeFormat, p: Result<real>, m: Result<real>,
                           z: Result<real>, delta: real)
    requires delta != 0.0 && p.Success? == m.Success?
    requires p.Failure? ==> p.error == m.error
    requires fmt == Normalized ==> z != Success(0.0)
    ensures CentralDifference(env, fmt, m, p, z, -delta) == CentralDifference(env, fmt, p, m, z, delta)
  {
    if p.Success? {
      SwappedQuotients(env, fmt, p.value, m.value, z, delta);
    }
  }

  /** Two maps with one key set both yield an intensity or both fail, with the same error. */
  lemma SameKeysSameIntensityOutcome(env: Env, t: PhotonTable, m1: map<int, real>, m2: map<int, real>,
                                     sddIndex: Option<int>)
    requires WellFormed(t) && m1.Keys == m2.Keys
    ensures GenerateIntensity(env, t, m1, sddIndex).Success? == GenerateIntensity(env, t, m2, sddIndex).Success?
    ensures GenerateIntensity(env, t, m1, sddIndex).Failure? ==>
              GenerateIntensity(env, t, m1, sddIndex).error == GenerateIntensity(env, t, m2, sddIndex).error
  {
    assert |m1| == |m1.Keys| == |m2.Keys| == |m2|;
  }

  /** The arithmetic behind SwappedMapsAndStep, once both intensities exist. */
  lemma SwappedQuotients(env: Env, fmt: DerivativeFormat, i1: real, i2: real, z: Result<real>, delta: real)
    requires delta != 0.0
    requires fmt == Normalized ==> z != Success(0.0)
    ensures fmt == Regular ==> Div(env, i2 - i1, 2.0 * -delta) == Div(env, i1 - i2, 2.0 * delta)
    ensures fmt == Log ==>
      Div(env, env.log10(i2) - env.log10(i1), 2.0 * -delta) == Div(env, env.log10(i1) - env.log10(i2), 2.0 * delta)
    ensures fmt == Normalized && z.Success? ==>
      Div(env, Div(env, i2 - i1, z.value), 2.0 * -delta) == Div(env, Div(env, i1 - i2, z.value), 2.0 * delta)
  {
    assert 2.0 * -delta == -(2.0 * delta);
    NegatedQuotient(i1 - i2, 2.0 * delta);
    NegatedQuotient(env.log10(i1) - env.log10(i2), 2.0 * delta);
    if fmt == Normalized && z.Success? {
      NegatedQuotient(i1 - i2, z.value);
      NegatedQuotient((i1 - i2) / z.value, 2.0 * delta);
    }
  }

  /** (-x) / (-d) == x / d and (-x) / d == -(x / d). */
  lemma NegatedQuotient(x: real, d: real)
    requires d != 0.0
    ensures (-x) / (-d) == x / d
    ensures (-x) / d == -(x / d)
  {
  }

  /** Photon-table values as Python hands them to the calculator's constructor. */
  datatype PyValue = PyNone | PyFloat(r: real) | PyStr(s: string) | PyEqn(eqn: MuAEqn)

  /**
   * The numerical calculator of one format. Its fields are the arguments
   * stored by the JacobianCalculator base constructor, the delta, the
   * operating-point snapshot and the three maps, which only the
   * construction-time map generation writes.
   */
  class NumericalJacobianCalculator {
    const format: DerivativeFormat
    var filteredPhotonData: PhotonTable
    var operatingPoint: OperatingPoint
    var sddIndex: Option<int>
    var baseMuMap: map<int, real>
    var dx: PyValue
    var muAEqn: PyValue
    var delta: real
    var maternalHb: real
    var maternalSat: real
    var fetalHb: real
    var fetalSat: real
    var waveInt: int
    var muMap: Option<map<int, real>>
    var muMap1: Option<map<int, real>>
    var muMap2: Option<map<int, real>>

    /** The state a successful construction leaves: the maps are set and the table is rectangular. */
    predicate Valid()
      reads this
    {
      WellFormed(filteredPhotonData) && muMap.Some? && muMap1.Some? && muMap2.Some?
    }

    /** The maps as one value. */
    function Maps(): MuMaps
      reads this
      requires Valid()
    {
      MuMaps(muMap.value, muMap1.value, muMap2.value)
    }

    /**
     * Everything the constructor does before generating the maps: store the
     * arguments, snapshot the operating point, and replace a missing mu_a
     * equation by the full-blood one.
     */
    constructor(format: DerivativeFormat, filteredPhotonData: PhotonTable, operatingPoint: OperatingPoint,
                sddIndex: Option<int>, baseMuMap: map<int, real>, dx: PyValue, muAEqn: PyValue, delta: real)
      ensures this.format == format && this.filteredPhotonData == filteredPhotonData
      ensures this.operatingPoint == operatingPoint && this.sddIndex == sddIndex
      ensures this.baseMuMap == baseMuMap && this.dx == dx && this.delta == delta
      ensures this.muAEqn == if muAEqn.PyNone? then PyEqn(FullBlood) else muAEqn
      ensures maternalHb == operatingPoint.maternalHb && maternalSat == operatingPoint.maternalSat
      ensures fetalHb == operatingPoint.fetalHb && fetalSat == operatingPoint.fetalSat
      ensures waveInt == operatingPoint.waveInt
      ensures muMap.None? && muMap1.None? && muMap2.None?
    {
      this.format := format;
      this.filteredPhotonData := filteredPhotonData;
      this.operatingPoint := operatingPoint;
      this.sddIndex := sddIndex;
      this.baseMuMap := baseMuMap;
      this.dx := dx;
      this.delta := delta;
      maternalHb := operatingPoint.maternalHb;
      maternalSat := operatingPoint.maternalSat;
      fetalHb := operatingPoint.fetalHb;
      fetalSat := operatingPoint.fetalSat;
      waveInt := operatingPoint.waveInt;
      muMap, muMap1, muMap2 := None, None, None;
      this.muAEqn := if muAEqn.PyNone? then PyEqn(FullBlood) else muAEqn;
    }

    /**
     * _derivative_mu_map_gen: call the equation's generator on the snapshot.
     * A non-equation in the mu_a_eqn slot has no such method (AttributeError);
     * a non-string dx cannot be searched for 'M' (TypeError).
     */
    method DeriveMuMaps(env: Env) returns (r: Result<MuMaps>)
      modifies this
      ensures r == MapsFor(env, muAEqn, dx, baseMuMap, maternalSat, maternalHb, fetalSat, fetalHb, waveInt, delta)
      ensures r.Success? ==> muMap == Some(r.value.base) && muMap1 == Some(r.value.plus) && muMap2 == Some(r.value.minus)
      ensures r.Failure? ==> muMap == old(muMap) && muMap1 == old(muMap1) && muMap2 == old(muMap2)
      ensures filteredPhotonData == old(filteredPhotonData)
      ensures operatingPoint == old(operatingPoint) && sddIndex == old(sddIndex)
      ensures baseMuMap == old(baseMuMap) && dx == old(dx) && muAEqn == old(muAEqn) && delta == old(delta)
      ensures maternalHb == old(maternalHb) && maternalSat == old(maternalSat)
      ensures fetalHb == old(fetalHb) && fetalSat == old(fetalSat) && waveInt == old(waveInt)
    {
      r := MapsFor(env, muAEqn, dx, baseMuMap, maternalSat, maternalHb, fetalSat, fetalHb, waveInt, delta);
      if r.Success? {
        muMap, muMap1, muMap2 := Some(r.value.base), Some(r.value.plus), Some(r.value.minus);
      }
    }

    /** Construction as a whole: either a calculator with its maps in place, or the error the constructor raises. */
    static method Create(env: Env, format: DerivativeFormat, filteredPhotonData: PhotonTable,
                         operatingPoint: OperatingPoint, sddIndex: Option<int>, baseMuMap: map<int, real>,
                         dx: PyValue, muAEqn: PyValue, delta: real)
      returns (r: Result<NumericalJacobianCalculator>)
      requires WellFormed(filteredPhotonData)
      ensures var maps := MapsFor(env, if muAEqn.PyNone? then PyEqn(FullBlood) else muAEqn, dx, baseMuMap,
                                  operatingPoint.maternalSat, operatingPoint.maternalHb,
                                  operatingPoint.fetalSat, operatingPoint.fetalHb, operatingPoint.waveInt, delta);
              && (r.Failure? <==> maps.Failure?)
              && (r.Failure? ==> r.error == maps.error)
              && (r.Success? ==>
                    && fresh(r.value) && r.value.Valid() && r.value.Maps() == maps.value
                    && r.value.format == format && r.value.filteredPhotonData == filteredPhotonData
                    && r.value.sddIndex == sddIndex && r.value.delta == delta)
    {
      var c := new NumericalJacobianCalculator(format, filteredPhotonData, operatingPoint, sddIndex,
                                               baseMuMap, dx, muAEqn, delta);
      var maps := c.DeriveMuMaps(env);
      if maps.Failure? {
        return Failure(maps.error);
      }
      return Success(c);
    }

    /** calculate_jacobian of the calculator's format, from the stored maps; nothing is regenerated. */
    method CalculateJacobian(env: Env) returns (r: Result<real>)
      requires Valid()
      ensures r == Derivative(env, format, filteredPhotonData, Maps(), sddIndex, delta)
    {
      var i1 :- GenerateIntensity(env, filteredPhotonData, muMap1.value, sddIndex);
      var i2 :- GenerateIntensity(env, filteredPhotonData, muMap2.value, sddIndex);
      match format
      case Regular =>
        r := Success(Div(env, i1 - i2, 2.0 * delta));
      case Normalized =>
        var i0 :- GenerateIntensity(env, filteredPhotonData, muMap.value, sddIndex);
        r := Success(Div(env, Div(env, i1 - i2, i0), 2.0 * delta));
      case Log =>
        r := Success(Div(env, env.log10(i1) - env.log10(i2), 2.0 * delta));
    }
  }

  /** The outcome of map generation for the values stored in the calculator's slots. */
  function MapsFor(env: Env, muAEqn: PyValue, dx: PyValue, base: map<int, real>,
                   mSat: real, mHb: real, fSat: real, fHb: real, waveInt: int, delta: real): (r: Result<MuMaps>)
    ensures !muAEqn.PyEqn? ==> r == Failure(AttributeError)
    ensures muAEqn.PyEqn? && !dx.PyStr? ==> r == Failure(TypeError)
    ensures muAEqn.PyEqn? && dx.PyStr? ==>
      r == DerivativeMuMapGen(env, muAEqn.eqn, base, mSat, mHb, fSat, fHb, waveInt, dx.s, delta)
  {
    if !muAEqn.PyEqn? then Failure(AttributeError)
    else if !dx.PyStr? then Failure(TypeError)
    else DerivativeMuMapGen(env, muAEqn.eqn, base, mSat, mHb, fSat, fHb, waveInt, dx.s, delta)
  }

  /**
   * A calculator keeps the maps of its construction: reassigning the operating
   * point's fields, or the calculator's own snapshot fields, changes nothing
   * that calculate_jacobian returns.
   */
  method OperatingPointChangesAreIgnored(env: Env, c: NumericalJacobianCalculator,
                                         mHb: real, mSat: real, fHb: real, fSat: real)
    returns (before: Result<real>, after: Result<real>)
    requires c.Valid()
    modifies c, c.operatingPoint
    ensures before == after
  {
    before := c.CalculateJacobian(env);
    c.operatingPoint.maternalHb, c.operatingPoint.maternalSat := mHb, mSat;
    c.operatingPoint.fetalHb, c.operatingPoint.fetalSat := fHb, fSat;
    c.maternalHb, c.maternalSat, c.fetalHb, c.fetalSat := mHb, mSat, fHb, fSat;
    after := c.CalculateJacobian(env);
  }

  /** `photon_data["SDD"].unique()`: each detector distance once, in order of first appearance. */
  function UniqueValues(s: seq<real>): (u: seq<real>)
    ensures forall x :: x in u <==> x in s
    ensures forall i, j | 0 <= i < j < |u| :: u[i] != u[j]
    ensures |u| <= |s|
  {
    if |s| == 0 then []
    else
      var prefix := UniqueValues(s[..|s| - 1]);
      var last := s[|s| - 1];
      assert s == s[..|s| - 1] + [last];
      if last in prefix then prefix else prefix + [last]
  }

  /**
   * `unique()` lists the values in order of first appearance: wherever a later
   * entry of the list occurs in the input, every earlier entry has already
   * occurred before it.
   */
  lemma {:induction false} UniqueValuesKeepFirstAppearanceOrder(s: seq<real>, i: int, j: int, k: int)
    requires 0 <= i < j < |UniqueValues(s)| && 0 <= k < |s| && s[k] == UniqueValues(s)[j]
    ensures UniqueValues(s)[i] in s[..k]
  {
    var p, last := s[..|s| - 1], s[|s| - 1];
    var pu, u := UniqueValues(p), UniqueValues(s);
    assert s == p + [last];
    assert u == if last in pu then pu else pu + [last];
    if k < |s| - 1 {
      assert s[..k] == p[..k] && s[k] == p[k];
      assert u[j] in pu;
      assert j < |pu|;
      UniqueValuesKeepFirstAppearanceOrder(p, i, j, k);
    } else {
      assert s[..k] == p;
      assert u[i] == pu[i];
    }
  }

  /** The SDD column of a photon table. */
  function SddColumn(rows: seq<Row>): (c: seq<real>)
    ensures |c| == |rows| && forall i | 0 <= i < |rows| :: c[i] == rows[i].sdd
  {
    seq(|rows|, i requires 0 <= i < |rows| => rows[i].sdd)
  }

  /** `photon_data[photon_data["SDD"] == sdd]`: the rows at that distance, in their order. */
  function RowsWithSdd(rows: seq<Row>, sdd: real): (f: seq<Row>)
    ensures forall r :: r in f <==> r in rows && r.sdd == sdd
    ensures forall r :: multiset(f)[r] == if r.sdd == sdd then multiset(rows)[r] else 0
    ensures |f| <= |rows|
  {
    if |rows| == 0 then []
    else
      var prefix := RowsWithSdd(rows[..|rows| - 1], sdd);
      var last := rows[|rows| - 1];
      assert rows == rows[..|rows| - 1] + [last];
      if last.sdd == sdd then prefix + [last] else prefix
  }

  /**
   * The boolean mask keeps the matching rows in their order: filtering a
   * concatenation filters each part, and a single row is kept exactly when it
   * matches.
   */
  lemma {:induction false} RowsWithSddKeepsOrder(a: seq<Row>, b: seq<Row>, sdd: real)
    ensures RowsWithSdd(a + b, sdd) == RowsWithSdd(a, sdd) + RowsWithSdd(b, sdd)
    decreases |b|
  {
    if |b| == 0 {
      assert a + b == a;
    } else {
      var b', last := b[..|b| - 1], b[|b| - 1];
      var kept := if last.sdd == sdd then [last] else [];
      assert b == b' + [last];
      assert a + b == (a + b') + [last];
      calc {
        RowsWithSdd(a + b, sdd);
        { RowsWithSddSnoc(a + b', last, sdd); }
        RowsWithSdd(a + b', sdd) + kept;
        { RowsWithSddKeepsOrder(a, b', sdd); }
        (RowsWithSdd(a, sdd) + RowsWithSdd(b', sdd)) + kept;
        RowsWithSdd(a, sdd) + (RowsWithSdd(b', sdd) + kept);
        { RowsWithSddSnoc(b', last, sdd); }
        RowsWithSdd(a, sdd) + RowsWithSdd(b, sdd);
      }
    }
  }

  /** Filtering a table with one more row at the end. */
  lemma RowsWithSddSnoc(rows: seq<Row>, last: Row, sdd: real)
    ensures RowsWithSdd(rows + [last], sdd) == RowsWithSdd(rows, sdd) + (if last.sdd == sdd then [last] else [])
  {
    assert (rows + [last])[..|rows|] == rows;
  }

  lemma RowsWithSddOfOneRow(r: Row, sdd: real)
    ensures RowsWithSdd([r], sdd) == if r.sdd == sdd then [r] else []
  {
    assert [r][..0] == [];
  }

  /** The photon table restricted to one detector distance; it has the same columns. */
  function FilterTable(t: PhotonTable, sdd: real): (f: PhotonTable)
    ensures f.layerCount == t.layerCount
    ensures forall r :: r in f.rows <==> r in t.rows && r.sdd == sdd
    ensures forall r :: multiset(f.rows)[r] == if r.sdd == sdd then multiset(t.rows)[r] else 0
    ensures WellFormed(t) ==> WellFormed(f)
  {
    var f := PhotonTable(t.layerCount, RowsWithSdd(t.rows, sdd));
    assert WellFormed(t) ==> WellFormed(f) by {
      if WellFormed(t) {
        forall i | 0 <= i < |f.rows|
          ensures |f.rows[i].paths| == t.layerCount
        {
          assert f.rows[i] in t.rows;
        }
      }
    }
    f
  }

  /** `sdd_list[sdd_index]`, with the table's distinct SDDs standing in for a missing list. */
  function SelectSdd(t: PhotonTable, sddList: Option<seq<real>>, sddIndex: int): (r: Result<real>)
    ensures var list := if sddList.Some? then sddList.value else UniqueValues(SddColumn(t.rows));
            && (r.Success? <==> -|list| <= sddIndex < |list|)
            && (0 <= sddIndex < |list| ==> r == Success(list[sddIndex]))
            && (-|list| <= sddIndex < 0 ==> r == Success(list[|list| + sddIndex]))
    ensures sddList.None? ==> r.Success? ==> r.value in SddColumn(t.rows)
    ensures r.Failure? ==> r.error == IndexOutOfRange
  {
    var list := if sddList.Some? then sddList.value else UniqueValues(SddColumn(t.rows));
    PyIndex(list, sddIndex)
  }

  /** Without a list, index 0 selects the distance of the first photon row, which need not be the smallest. */
  lemma FirstIndexSelectsFirstRow(t: PhotonTable)
    requires |t.rows| > 0
    ensures SelectSdd(t, None, 0) == Success(t.rows[0].sdd)
  {
    var s := SddColumn(t.rows);
    var u := UniqueValues(s);
    assert s[0] in u;
    forall j | 0 < j < |u|
      ensures u[j] != s[0]
    {
      if u[j] == s[0] {
        UniqueValuesKeepFirstAppearanceOrder(s, 0, j, 0);
        assert false;
      }
    }
  }

  /** The calculator's outcome: construction, then calculate_jacobian. */
  function CalculatorOutcome(env: Env, fmt: DerivativeFormat, t: PhotonTable, sddIndex: Option<int>,
                             base: map<int, real>, mHb: real, mSat: real, fHb: real, fSat: real, waveInt: int,
                             dx: PyValue, muAEqn: PyValue, delta: real): (r: Result<real>)
    requires WellFormed(t)
    ensures !muAEqn.PyNone? && !muAEqn.PyEqn? ==> r == Failure(AttributeError)
    ensures (muAEqn.PyNone? || muAEqn.PyEqn?) && !dx.PyStr? ==> r == Failure(TypeError)
    ensures (muAEqn.PyNone? || muAEqn.PyEqn?) && dx.PyStr? ==>
              var eqn := if muAEqn.PyEqn? then muAEqn.eqn else FullBlood;
              var maps := DerivativeMuMapGen(env, eqn, base, mSat, mHb, fSat, fHb, waveInt, dx.s, delta);
              r == if maps.Failure? then Failure(NotImplemented) else Derivative(env, fmt, t, maps.value, sddIndex, delta)
  {
    var eqn := if muAEqn.PyNone? then PyEqn(FullBlood) else muAEqn;
    var maps :- MapsFor(env, eqn, dx, base, mSat, mHb, fSat, fHb, waveInt, delta);
    Derivative(env, fmt, t, maps, sddIndex, delta)
  }

  /**
   * Construct a calculator from arbitrary slot values and call
   * calculate_jacobian, as the module-level wrapper does.
   */
  method RunCalculator(env: Env, fmt: DerivativeFormat, t: PhotonTable, op: OperatingPoint, sddIndex: Option<int>,
                       base: map<int, real>, dx: PyValue, muAEqn: PyValue, delta: real) returns (r: Result<real>)
    requires WellFormed(t)
    ensures r == CalculatorOutcome(env, fmt, t, sddIndex, base, op.maternalHb, op.maternalSat, op.fetalHb,
                                   op.fetalSat, op.waveInt, dx, muAEqn, delta)
  {
    ghost var maps := MapsFor(env, if muAEqn.PyNone? then PyEqn(FullBlood) else muAEqn, dx, base,
                              op.maternalSat, op.maternalHb, op.fetalSat, op.fetalHb, op.waveInt, delta);
    ghost var outcome := CalculatorOutcome(env, fmt, t, sddIndex, base, op.maternalHb, op.maternalSat, op.fetalHb,
                                           op.fetalSat, op.waveInt, dx, muAEqn, delta);
    assert outcome == if maps.Failure? then Failure(maps.error) else Derivative(env, fmt, t, maps.value, sddIndex, delta);
    var calculator :- NumericalJacobianCalculator.Create(env, fmt, t, op, sddIndex, base, dx, muAEqn, delta);
    r := calculator.CalculateJacobian(env);
  }

  /**
   * calculate_jacobian_numerical AS WRITTEN: the six positional arguments
   * (table, operating point, sdd_index, base map, delta, dx) bind to the
   * constructor's (table, operating point, sdd_index, base map, dx, mu_a_eqn),
   * so dx receives the float delta, mu_a_eqn receives the dx string, and
   * delta keeps its default.
   */
  function NumericalWrapperAsWritten(env: Env, format: string, t: PhotonTable, sddIndex: int,
                                     base: map<int, real>, delta: real, dx: string, sddList: Option<seq<real>>,
                                     mHb: real, mSat: real, fHb: real, fSat: real, waveInt: int): (r: Result<real>)
    requires WellFormed(t)
    ensures SelectSdd(t, sddList, sddIndex).Failure? ==> r == Failure(IndexOutOfRange)
  {
    var sdd :- SelectSdd(t, sddList, sddIndex);
    var fmt :- ParseFormat(format);
    CalculatorOutcome(env, fmt, FilterTable(t, sdd), Some(sddIndex), base, mHb, mSat, fHb, fSat, waveInt,
                      PyFloat(delta), PyStr(dx), 0.0001)
  }

  /** The as-written wrapper never returns a derivative: past the SDD and format lookups it always raises AttributeError. */
  lemma AsWrittenWrapperAlwaysFails(env: Env, format: string, t: PhotonTable, sddIndex: int,
                                    base: map<int, real>, delta: real, dx: string, sddList: Option<seq<real>>,
                                    mHb: real, mSat: real, fHb: real, fSat: real, waveInt: int)
    requires WellFormed(t)
    ensures var r := NumericalWrapperAsWritten(env, format, t, sddIndex, base, delta, dx, sddList,
                                               mHb, mSat, fHb, fSat, waveInt);
            && r.Failure?
            && (SelectSdd(t, sddList, sddIndex).Success? && ParseFormat(format).Success? ==> r.error == AttributeError)
  {
  }

  /**
   * calculate_jacobian_numerical as evidently intended: dx and delta passed
   * to their own parameters, the default full-blood equation.
   */
  function NumericalWrapper(env: Env, format: string, t: PhotonTable, sddIndex: int,
                            base: map<int, real>, delta: real, dx: string, sddList: Option<seq<real>>,
                            mHb: real, mSat: real, fHb: real, fSat: real, waveInt: int): (r: Result<real>)
    requires WellFormed(t)
    ensures SelectSdd(t, sddList, sddIndex).Failure? ==> r == Failure(IndexOutOfRange)
    ensures SelectSdd(t, sddList, sddIndex).Success? && ParseFormat(format).Failure? ==> r == Failure(KeyError)
    ensures SelectSdd(t, sddList, sddIndex).Success? && ParseFormat(format).Success? ==>
      var maps := DerivativeMuMapGen(env, FullBlood, base, mSat, mHb, fSat, fHb, waveInt, dx, delta);
      r == if maps.Failure? then Failure(NotImplemented)
           else Derivative(env, ParseFormat(format).value, FilterTable(t, SelectSdd(t, sddList, sddIndex).value),
                           maps.value, Some(sddIndex), delta)
  {
    var sdd :- SelectSdd(t, sddList, sddIndex);
    var fmt :- ParseFormat(format);
    CalculatorOutcome(env, fmt, FilterTable(t, sdd), Some(sddIndex), base, mHb, mSat, fHb, fSat, waveInt,
                      PyStr(dx), PyNone, delta)
  }

  /** With the intended binding every declared tag and format yields a derivative once the intensities do. */
  lemma IntendedWrapperComputes(env: Env, f: DerivativeFormat, t: PhotonTable, sddIndex: int,
                                base: map<int, real>, delta: real, d: Dx, sddList: Option<seq<real>>,
                                mHb: real, mSat: real, fHb: real, fSat: real, waveInt: int)
    requires WellFormed(t) && SelectSdd(t, sddList, sddIndex).Success?
    ensures var r := NumericalWrapper(env, FormatName(f), t, sddIndex, base, delta, Tag(d), sddList,
                                      mHb, mSat, fHb, fSat, waveInt);
            var maps := DerivativeMuMapGen(env, FullBlood, base, mSat, mHb, fSat, fHb, waveInt, Tag(d), delta);
            maps.Success? &&
            r == Derivative(env, f, FilterTable(t, SelectSdd(t, sddList, sddIndex).value), maps.value, Some(sddIndex), delta)
  {
    DeclaredTagsAreImplemented(env, FullBlood, base, mSat, mHb, fSat, fHb, waveInt, d, delta);
    FormatNameRoundTrip(f, FormatName(f));
  }

  /** The corrected wrapper, run as the source runs it: build the operating point and the calculator, then calculate. */
  method CalculateJacobianNumerical(env: Env, format: string, t: PhotonTable, sddIndex: int,
                                    base: map<int, real>, delta: real, dx: string, sddList: Option<seq<real>>,
                                    mHb: real, mSat: real, fHb: real, fSat: real, waveInt: int)
    returns (r: Result<real>)
    requires WellFormed(t)
    ensures r == NumericalWrapper(env, format, t, sddIndex, base, delta, dx, sddList, mHb, mSat, fHb, fSat, waveInt)
  {
    var sdd :- SelectSdd(t, sddList, sddIndex);
    var filtered := FilterTable(t, sdd);
    var op := new OperatingPoint(mHb, mSat, fHb, fSat, waveInt);
    var fmt :- ParseFormat(format);
    r := RunCalculator(env, fmt, filtered, op, Some(sddIndex), base, PyStr(dx), PyNone, delta);
  }

  /** The wrapper as written, run the same way: delta in the dx slot, dx in the mu_a_eqn slot, the default delta. */
  method CalculateJacobianNumericalAsWritten(env: Env, format: string, t: PhotonTable, sddIndex: int,
                                             base: map<int, real>, delta: real, dx: string, sddList: Option<seq<real>>,
                                             mHb: real, mSat: real, fHb: real, fSat: real, waveInt: int)
    returns (r: Result<real>)
    requires WellFormed(t)
    ensures r == NumericalWrapperAsWritten(env, format, t, sddIndex, base, delta, dx, sddList,
                                           mHb, mSat, fHb, fSat, waveInt)
  {
    var sdd :- SelectSdd(t, sddList, sddIndex);
    var filtered := FilterTable(t, sdd);
    var op := new OperatingPoint(mHb, mSat, fHb, fSat, waveInt);
    var fmt :- ParseFormat(format);
    r := RunCalculator(env, fmt, filtered, op, Some(sddIndex), base, PyFloat(delta), PyStr(dx), 0.0001);
  }
}
