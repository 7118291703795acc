/**
 * The older numerical Jacobian module (jacobian/formulae.py): the same three
 * central-difference formulas, with the full-blood map generation written
 * inline in the calculator and every operating value passed to the
 * constructor directly.
 */
module Formulae {
  import opened Common
  import opened Intensity
  import opened MuAEquations
  import opened NumericalFormulae

  /** A calculator of formulae.py; `format` is its class. */
  class JacobianCalculator {
    const format: DerivativeFormat
    var filteredPhotonData: PhotonTable
    var sddIndex: Option<int>
    var baseMuMap: map<int, real>
    var delta: real
    var dx: string
    var sddList: Option<seq<real>>
    var maternalHb: real
    var maternalSat: real
    var fetalHb: real
    var fetalSat: real
    var waveInt: int
    var muMap: Option<map<int, real>>
    var muMap1: Option<map<int, real>>
    var muMap2: Option<map<int, real>>

    predicate Valid()
      reads this
    {
      WellFormed(filteredPhotonData) && muMap.Some? && muMap1.Some? && muMap2.Some?
    }

    function Maps(): MuMaps
      reads this
      requires Valid()
    {
      MuMaps(muMap.value, muMap1.value, muMap2.value)
    }

    /** The constructor's assignments, before it generates the maps. */
    constructor(format: DerivativeFormat, filteredPhotonData: PhotonTable, sddIndex: Option<int>,
                baseMuMap: map<int, real>, delta: real, dx: string, sddList: Option<seq<real>>,
                maternalHb: real, maternalSat: real, fetalHb: real, fetalSat: real, waveInt: int)
      ensures this.format == format && this.filteredPhotonData == filteredPhotonData
      ensures this.sddIndex == sddIndex && this.baseMuMap == baseMuMap && this.delta == delta
      ensures this.dx == dx && this.sddList == sddList
      ensures this.maternalHb == maternalHb && this.maternalSat == maternalSat
      ensures this.fetalHb == fetalHb && this.fetalSat == fetalSat && this.waveInt == waveInt
      ensures muMap.None? && muMap1.None? && muMap2.None?
    {
      this.format := format;
      this.filteredPhotonData := filteredPhotonData;
      this.sddIndex := sddIndex;
      this.baseMuMap := baseMuMap;
      this.delta := delta;
      this.dx := dx;
      this.sddList := sddList;
      this.maternalHb := maternalHb;
      this.maternalSat := maternalSat;
      this.fetalHb := fetalHb;
      this.fetalSat := fetalSat;
      this.waveInt := waveInt;
      muMap, muMap1, muMap2 := None, None, None;
    }

    /**
     * _derivative_mu_map_gen, written out as the source writes it: copy the
     * base map, set layers 1 and 4, copy twice, then overwrite the affected
     * layer in each copy. Its maps are exactly those of the full-blood
     * generator. On NotImplementedError the three copies are already stored.
     */
    method DeriveMuMaps(env: Env) returns (r: Result<MuMaps>)
      modifies this
      ensures r == DerivativeMuMapGen(env, FullBlood, baseMuMap, maternalSat, maternalHb,
                                      fetalSat, fetalHb, waveInt, dx, delta)
      ensures r.Success? ==> muMap == Some(r.value.base) && muMap1 == Some(r.value.plus) && muMap2 == Some(r.value.minus)
      ensures r.Failure? ==>
        var m := OperatingMap(env, FullBlood, baseMuMap, maternalSat, maternalHb, fetalSat, fetalHb, waveInt);
        muMap == Some(m) && muMap1 == Some(m) && muMap2 == Some(m)
      ensures filteredPhotonData == old(filteredPhotonData) && sddIndex == old(sddIndex)
      ensures baseMuMap == old(baseMuMap) && delta == old(delta) && dx == old(dx) && sddList == old(sddList)
      ensures maternalHb == old(maternalHb) && maternalSat == old(maternalSat)
      ensures fetalHb == old(fetalHb) && fetalSat == old(fetalSat) && waveInt == old(waveInt)
    {
      var m, m1, m2;
      r, m, m1, m2 := InlineMaps(env, baseMuMap, maternalSat, maternalHb, fetalSat, fetalHb, waveInt, dx, delta);
      muMap, muMap1, muMap2 := Some(m), Some(m1), Some(m2);
    }

    /** Construction: the assignments, then the map generation, whose error escapes. */
    static method Create(env: Env, format: DerivativeFormat, filteredPhotonData: PhotonTable, sddIndex: Option<int>,
                         baseMuMap: map<int, real>, delta: real, dx: string, sddList: Option<seq<real>>,
                         maternalHb: real, maternalSat: real, fetalHb: real, fetalSat: real, waveInt: int)
      returns (r: Result<JacobianCalculator>)
      requires WellFormed(filteredPhotonData)
      ensures var maps := DerivativeMuMapGen(env, FullBlood, baseMuMap, maternalSat, maternalHb,
                                             fetalSat, fetalHb, waveInt, dx, delta);
              && (r.Failure? <==> maps.Failure?)
              && (r.Failure? ==> r.error == maps.error)
              && (r.Success? ==>
                    && fresh(r.value) && r.value.Valid() && r.value.Maps() == maps.value
                    && r.value.format == format && r.value.filteredPhotonData == filteredPhotonData
                    && r.value.sddIndex == sddIndex && r.value.delta == delta)
    {
      var c := new JacobianCalculator(format, filteredPhotonData, sddIndex, baseMuMap, delta, dx, sddList,
                                      maternalHb, maternalSat, fetalHb, fetalSat, waveInt);
      var maps := c.DeriveMuMaps(env);
      if maps.Failure? {
        return Failure(maps.error);
      }
      return Success(c);
    }

    /** calculate_jacobian of the three classes: the same formulas as the numerical module. */
    method CalculateJacobian(env: Env) returns (r: Result<real>)
      requires Valid()
      ensures r == Derivative(env, format, filteredPhotonData, Maps(), sddIndex, delta)
    {
      var i1 :- GenerateIntensity(env, filteredPhotonData, muMap1.value, sddIndex);
      var i2 :- GenerateIntensity(env, filteredPhotonData, muMap2.value, sddIndex);
      match format
      case Regular =>
        r := Success(Div(env, i1 - i2, 2.0 * delta));
      case Normalized =>
        var i0 :- GenerateIntensity(env, filteredPhotonData, muMap.value, sddIndex);
        r := Success(Div(env, Div(env, i1 - i2, i0), 2.0 * delta));
      case Log =>
        r := Success(Div(env, env.log10(i1) - env.log10(i2), 2.0 * delta));
    }
  }

  /**
   * The dictionary writes of _derivative_mu_map_gen on local copies: the
   * operating map, its two copies with the affected layer overwritten, and
   * the outcome (the copies are left as they were when NotImplementedError
   * is raised).
   */
  method InlineMaps(env: Env, base: map<int, real>, mSat: real, mHb: real, fSat: real, fHb: real, w: int,
                    dx: string, delta: real)
    returns (r: Result<MuMaps>, m: map<int, real>, m1: map<int, real>, m2: map<int, real>)
    ensures r == DerivativeMuMapGen(env, FullBlood, base, mSat, mHb, fSat, fHb, w, dx, delta)
    ensures r.Success? ==> r.value == MuMaps(m, m1, m2)
    ensures r.Failure? ==> m == m1 == m2 == OperatingMap(env, FullBlood, base, mSat, mHb, fSat, fHb, w)
  {
    m := base;
    m := m[1 := env.getMuA(mSat, mHb, w)];
    m := m[4 := env.getMuA(fSat, fHb, w)];
    m1, m2 := m, m;
    var maternal := Contains(dx, 'M');
    var layer := if maternal then 1 else 4;
    var sat := if maternal then mSat else fSat;
    var hb := if maternal then mHb else fHb;
    if Contains(dx, 'C') {
      m1 := m1[layer := env.getMuA(sat, hb + delta, w)];
      m2 := m2[layer := env.getMuA(sat, hb - delta, w)];
    } else if Contains(dx, 'S') {
      m1 := m1[layer := env.getMuA(sat + delta, hb, w)];
      m2 := m2[layer := env.getMuA(sat - delta, hb, w)];
    } else {
      return Failure(NotImplemented), m, m1, m2;
    }
    r := Success(MuMaps(m, m1, m2));
  }

  /** calculate_jacobian of formulae.py: SDD selection, row filter, class lookup, construction, calculation. */
  function LegacyWrapper(env: Env, format: string, t: PhotonTable, sddIndex: int,
                         base: map<int, real>, delta: real, dx: string, sddList: Option<seq<real>>,
                         mHb: real, mSat: real, fHb: real, fSat: real, waveInt: int): (r: Result<real>)
    requires WellFormed(t)
    ensures SelectSdd(t, sddList, sddIndex).Failure? ==> r == Failure(IndexOutOfRange)
    ensures SelectSdd(t, sddList, sddIndex).Success? && ParseFormat(format).Failure? ==> r == Failure(KeyError)
    ensures r.Success? ==> DerivativeMuMapGen(env, FullBlood, base, mSat, mHb, fSat, fHb, waveInt, dx, delta).Success?
  {
    var sdd :- SelectSdd(t, sddList, sddIndex);
    var fmt :- ParseFormat(format);
    var maps :- DerivativeMuMapGen(env, FullBlood, base, mSat, mHb, fSat, fHb, waveInt, dx, delta);
    Derivative(env, fmt, FilterTable(t, sdd), maps, Some(sddIndex), delta)
  }

  /** The legacy wrapper and the numerical wrapper, with its arguments bound as intended, agree on every input. */
  lemma LegacyAgreesWithIntendedNumerical(env: Env, format: string, t: PhotonTable, sddIndex: int,
                                          base: map<int, real>, delta: real, dx: string, sddList: Option<seq<real>>,
                                          mHb: real, mSat: real, fHb: real, fSat: real, waveInt: int)
    requires WellFormed(t)
    ensures LegacyWrapper(env, format, t, sddIndex, base, delta, dx, sddList, mHb, mSat, fHb, fSat, waveInt) ==
            NumericalWrapper(env, format, t, sddIndex, base, delta, dx, sddList, mHb, mSat, fHb, fSat, waveInt)
  {
  }

  /** The legacy wrapper run as the source runs it. */
  method CalculateJacobian(env: Env, format: string, t: PhotonTable, sddIndex: int,
                           base: map<int, real>, delta: real, dx: string, sddList: Option<seq<real>>,
                           mHb: real, mSat: real, fHb: real, fSat: real, waveInt: int)
    returns (r: Result<real>)
    requires WellFormed(t)
    ensures r == LegacyWrapper(env, format, t, sddIndex, base, delta, dx, sddList, mHb, mSat, fHb, fSat, waveInt)
  {
    var sdd :- SelectSdd(t, sddList, sddIndex);
    var filtered := FilterTable(t, sdd);
    var fmt :- ParseFormat(format);
    var calculator :- JacobianCalculator.Create(env, fmt, filtered, Some(sddIndex), base, delta, dx, sddList,
                                                mHb, mSat, fHb, fSat, waveInt);
    r := calculator.CalculateJacobian(env);
  }
}
