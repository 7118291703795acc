/**
 * Closed-form Jacobians with respect to the fetal layer
 * (jacobian/analytical_formulae.py): the weighted sum of the layer-4 path
 * lengths, weighted by each photon's intensity, times a per-model factor,
 * optionally divided by the total intensity. Every calculation first
 * refreshes the operating mu map and the extinction coefficients from the
 * calculator's current fields.
 */
module AnalyticalFormulae {
  import opened Common
  import opened Intensity
  import opened MuAEquations

  /** The two concrete calculators. */
  datatype Kind = FullBloodJC | PartialBloodJC

  /** `arterial_volume_fraction` and `venous_saturation_reduction_factor` defaults of PartialBloodAnalyticalJC. */
  const DEFAULT_ARTERIAL_VOLUME_FRACTION: real := 0.1
  const DEFAULT_VENOUS_SATURATION_REDUCTION_FACTOR: real := 0.75

  /** The delta handed to the map generator; only the base map is kept, so its value does not matter. */
  const MAP_DELTA: real := 0.001

  /** `filtered_photon_data["L<layer> ppath"].to_numpy()`: a KeyError when the table has no such layer. */
  function LayerColumn(t: PhotonTable, layer: int): (r: Result<seq<real>>)
    requires WellFormed(t)
    ensures r.Success? <==> 1 <= layer <= t.layerCount
    ensures r.Failure? ==> r.error == KeyError
    ensures r.Success? ==>
      |r.value| == |t.rows| && forall i | 0 <= i < |t.rows| :: r.value[i] == t.rows[i].paths[layer - 1]
  {
    if 1 <= layer <= t.layerCount
    then Success(seq(|t.rows|, i requires 0 <= i < |t.rows| => t.rows[i].paths[layer - 1]))
    else Failure(KeyError)
  }

  /** The extinction coefficients at the fetal saturation, full oxygenation and none: (eps, eps_hbo, eps_hhb). */
  function Eps(env: Env, fetalSat: real, waveInt: int): (real, real, real) {
    (env.getMuA(fetalSat, 1.0, waveInt), env.getMuA(1.0, 1.0, waveInt), env.getMuA(0.0, 1.0, waveInt))
  }

  /**
   * d mu_a / d x of the fetal layer for the model and tag, the factor the
   * intensity-weighted layer-4 path length is multiplied by.
   */
  function Sensitivity(env: Env, kind: Kind, avf: real, vsrf: real, dx: string,
                       fetalHb: real, fetalSat: real, waveInt: int,
                       eps: real, epsHbo: real, epsHhb: real): real
    requires dx == "FC" || dx == "FS"
  {
    match kind
    case FullBloodJC =>
      if dx == "FC" then eps else (epsHbo - epsHhb) * fetalHb
    case PartialBloodJC =>
      if dx == "FC" then avf * (eps + env.getMuA(fetalSat * vsrf, 1.0, waveInt))
      else (epsHbo - epsHhb) * fetalHb * (vsrf + 1.0) * avf
  }

  /**
   * The derivative the dispatcher returns for the stored map and coefficients:
   * NotImplementedError for any tag but FC and FS, then the intensity column
   * (its shape error), then the layer-4 column (KeyError), then the term.
   */
  function AnalyticalDerivative(env: Env, kind: Kind, avf: real, vsrf: real, t: PhotonTable,
                                muMap: map<int, real>, sddIndex: Option<int>, dx: string,
                                fetalHb: real, fetalSat: real, waveInt: int,
                                eps: real, epsHbo: real, epsHhb: real, normalize: bool): (r: Result<real>)
    requires WellFormed(t)
    ensures dx != "FC" && dx != "FS" ==> r == Failure(NotImplemented)
    ensures (dx == "FC" || dx == "FS") ==>
      (r.Success? <==> IntensityColumn(env, t, muMap, sddIndex).Success? && t.layerCount >= 4)
    ensures (dx == "FC" || dx == "FS") && r.Failure? ==> r.error in {ShapeMismatch, IndexOutOfRange, KeyError}
  {
    if dx != "FC" && dx != "FS" then Failure(NotImplemented)
    else
      var intensity :- IntensityColumn(env, t, muMap, sddIndex);
      var pathlength :- LayerColumn(t, 4);
      var factor := Sensitivity(env, kind, avf, vsrf, dx, fetalHb, fetalSat, waveInt, eps, epsHbo, epsHhb);
      var term := -factor * Dot(pathlength, intensity);
      Success(if normalize then Div(env, term, Sum(intensity)) else term)
  }

  /** The normalised derivative is the unnormalised one divided by the total intensity. */
  lemma NormalisedIsRelative(env: Env, kind: Kind, avf: real, vsrf: real, t: PhotonTable,
                             muMap: map<int, real>, sddIndex: Option<int>, dx: string,
                             fetalHb: real, fetalSat: real, waveInt: int, eps: real, epsHbo: real, epsHhb: real)
    requires WellFormed(t)
    requires AnalyticalDerivative(env, kind, avf, vsrf, t, muMap, sddIndex, dx, fetalHb, fetalSat, waveInt,
                                  eps, epsHbo, epsHhb, false).Success?
    ensures AnalyticalDerivative(env, kind, avf, vsrf, t, muMap, sddIndex, dx, fetalHb, fetalSat, waveInt,
                                 eps, epsHbo, epsHhb, true) ==
            Success(Div(env, AnalyticalDerivative(env, kind, avf, vsrf, t, muMap, sddIndex, dx, fetalHb, fetalSat,
                                                  waveInt, eps, epsHbo, epsHhb, false).value,
                        Sum(IntensityColumn(env, t, muMap, sddIndex).value)))
  {
  }

  /**
   * With mixed blood, the saturation derivative is the full-blood one scaled
   * by (vsrf + 1) * avf: arterial and venous blood both contribute.
   */
  lemma PartialSaturationScalesFullBlood(env: Env, avf: real, vsrf: real, t: PhotonTable,
                                         muMap: map<int, real>, sddIndex: Option<int>,
                                         fetalHb: real, fetalSat: real, waveInt: int,
                                         eps: real, epsHbo: real, epsHhb: real)
    requires WellFormed(t)
    requires AnalyticalDerivative(env, FullBloodJC, avf, vsrf, t, muMap, sddIndex, "FS", fetalHb, fetalSat, waveInt,
                                  eps, epsHbo, epsHhb, false).Success?
    ensures AnalyticalDerivative(env, PartialBloodJC, avf, vsrf, t, muMap, sddIndex, "FS", fetalHb, fetalSat, waveInt,
                                 eps, epsHbo, epsHhb, false).value ==
            AnalyticalDerivative(env, FullBloodJC, avf, vsrf, t, muMap, sddIndex, "FS", fetalHb, fetalSat, waveInt,
                                 eps, epsHbo, epsHhb, false).value * ((vsrf + 1.0) * avf)
  {
    var intensity := IntensityColumn(env, t, muMap, sddIndex).value;
    var pathlength := LayerColumn(t, 4).value;
    var d := Dot(pathlength, intensity);
    var k := (epsHbo - epsHhb) * fetalHb;
    assert -(k * (vsrf + 1.0) * avf) * d == (-k * d) * ((vsrf + 1.0) * avf);
  }

  /**
   * An analytical calculator. The fields are the constructor's arguments,
   * the operating mu map and the three extinction coefficients, which
   * calculate_jacobian recomputes from the current fields on every call.
   */
  class AnalyticalJacobianCalculator {
    const kind: Kind
    var filteredPhotonData: PhotonTable
    var sddIndex: Option<int>
    var dx: string
    var baseMuMap: map<int, real>
    var maternalHb: real
    var maternalSat: real
    var fetalHb: real
    var fetalSat: real
    var waveInt: int
    var muMap: map<int, real>
    var muAEqn: MuAEqn
    var normalizeDerivative: bool
    var eps: real
    var epsHbo: real
    var epsHhb: real
    var arterialVolumeFraction: real
    var venousSaturationReductionFactor: real

    /**
     * The constructor's assignments: the mu map starts as a copy of the base
     * map, and a missing mu_a equation becomes the full-blood one.
     */
    constructor(kind: Kind, filteredPhotonData: PhotonTable, sddIndex: Option<int>, baseMuMap: map<int, real>,
                dx: string, maternalHb: real, maternalSat: real, fetalHb: real, fetalSat: real, waveInt: int,
                muAEqn: Option<MuAEqn>, normalizeDerivative: bool,
                arterialVolumeFraction: real, venousSaturationReductionFactor: real)
      ensures this.kind == kind && this.filteredPhotonData == filteredPhotonData && this.sddIndex == sddIndex
      ensures this.dx == dx && this.baseMuMap == baseMuMap && this.muMap == baseMuMap
      ensures this.maternalHb == maternalHb && this.maternalSat == maternalSat
      ensures this.fetalHb == fetalHb && this.fetalSat == fetalSat && this.waveInt == waveInt
      ensures this.muAEqn == if muAEqn.Some? then muAEqn.value else FullBlood
      ensures this.normalizeDerivative == normalizeDerivative
      ensures this.arterialVolumeFraction == arterialVolumeFraction
      ensures this.venousSaturationReductionFactor == venousSaturationReductionFactor
    {
      this.kind := kind;
      this.filteredPhotonData := filteredPhotonData;
      this.sddIndex := sddIndex;
      this.dx := dx;
      this.baseMuMap := baseMuMap;
      this.maternalHb := maternalHb;
      this.maternalSat := maternalSat;
      this.fetalHb := fetalHb;
      this.fetalSat := fetalSat;
      this.waveInt := waveInt;
      this.muMap := baseMuMap;
      this.muAEqn := if muAEqn.Some? then muAEqn.value else FullBlood;
      this.normalizeDerivative := normalizeDerivative;
      this.arterialVolumeFraction := arterialVolumeFraction;
      this.venousSaturationReductionFactor := venousSaturationReductionFactor;
    }

    /** _modify_mu_map: the generator's base map for the current fields; its NotImplementedError escapes. */
    method ModifyMuMap(env: Env) returns (r: Result<MuMaps>)
      modifies this
      ensures r == DerivativeMuMapGen(env, old(muAEqn), old(baseMuMap), old(maternalSat), old(maternalHb),
                                      old(fetalSat), old(fetalHb), old(waveInt), old(dx), MAP_DELTA)
      ensures muMap == if r.Success? then r.value.base else old(muMap)
      ensures r.Success? ==> muMap == OperatingMap(env, muAEqn, baseMuMap, maternalSat, maternalHb,
                                                   fetalSat, fetalHb, waveInt)
      ensures filteredPhotonData == old(filteredPhotonData) && sddIndex == old(sddIndex) && dx == old(dx)
      ensures baseMuMap == old(baseMuMap) && muAEqn == old(muAEqn) && normalizeDerivative == old(normalizeDerivative)
      ensures maternalHb == old(maternalHb) && maternalSat == old(maternalSat)
      ensures fetalHb == old(fetalHb) && fetalSat == old(fetalSat) && waveInt == old(waveInt)
      ensures eps == old(eps) && epsHbo == old(epsHbo) && epsHhb == old(epsHhb)
      ensures arterialVolumeFraction == old(arterialVolumeFraction)
      ensures venousSaturationReductionFactor == old(venousSaturationReductionFactor)
    {
      r := DerivativeMuMapGen(env, muAEqn, baseMuMap, maternalSat, maternalHb, fetalSat, fetalHb, waveInt, dx, MAP_DELTA);
      if r.Success? {
        DerivativeMapsMoveOnlyTheAffectedLayer(env, muAEqn, baseMuMap, maternalSat, maternalHb,
                                               fetalSat, fetalHb, waveInt, dx, MAP_DELTA);
        muMap := r.value.base;
      }
    }

    /** _calculate_eps and the assignment of its result. */
    method CalculateEps(env: Env)
      modifies this
      ensures (eps, epsHbo, epsHhb) == Eps(env, fetalSat, waveInt)
      ensures filteredPhotonData == old(filteredPhotonData) && sddIndex == old(sddIndex) && dx == old(dx)
      ensures baseMuMap == old(baseMuMap) && muAEqn == old(muAEqn) && normalizeDerivative == old(normalizeDerivative)
      ensures maternalHb == old(maternalHb) && maternalSat == old(maternalSat)
      ensures fetalHb == old(fetalHb) && fetalSat == old(fetalSat) && waveInt == old(waveInt)
      ensures muMap == old(muMap)
      ensures arterialVolumeFraction == old(arterialVolumeFraction)
      ensures venousSaturationReductionFactor == old(venousSaturationReductionFactor)
    {
      eps, epsHbo, epsHhb := env.getMuA(fetalSat, 1.0, waveInt), env.getMuA(1.0, 1.0, waveInt), env.getMuA(0.0, 1.0, waveInt);
    }

    /** Construction: the assignments, the mu map (whose error escapes), then the coefficients. */
    static method Create(env: Env, kind: Kind, filteredPhotonData: PhotonTable, sddIndex: Option<int>,
                         baseMuMap: map<int, real>, dx: string,
                         maternalHb: real, maternalSat: real, fetalHb: real, fetalSat: real, waveInt: int,
                         muAEqn: Option<MuAEqn>, normalizeDerivative: bool,
                         arterialVolumeFraction: real, venousSaturationReductionFactor: real)
      returns (r: Result<AnalyticalJacobianCalculator>)
      ensures var eqn := if muAEqn.Some? then muAEqn.value else FullBlood;
              var maps := DerivativeMuMapGen(env, eqn, baseMuMap, maternalSat, maternalHb, fetalSat, fetalHb,
                                             waveInt, dx, MAP_DELTA);
              && (r.Failure? <==> maps.Failure?)
              && (r.Failure? ==> r.error == NotImplemented)
              && (r.Success? ==>
                    && fresh(r.value) && r.value.kind == kind && r.value.muAEqn == eqn
                    && r.value.muMap == OperatingMap(env, eqn, baseMuMap, maternalSat, maternalHb,
                                                     fetalSat, fetalHb, waveInt)
                    && (r.value.eps, r.value.epsHbo, r.value.epsHhb) == Eps(env, fetalSat, waveInt))
    {
      var c := new AnalyticalJacobianCalculator(kind, filteredPhotonData, sddIndex, baseMuMap, dx,
                                                maternalHb, maternalSat, fetalHb, fetalSat, waveInt,
                                                muAEqn, normalizeDerivative,
                                                arterialVolumeFraction, venousSaturationReductionFactor);
      var maps := c.ModifyMuMap(env);
      if maps.Failure? {
        return Failure(maps.error);
      }
      c.CalculateEps(env);
      return Success(c);
    }

    /**
     * calculate_jacobian: refresh the mu map and the coefficients from the
     * current fields, then dispatch on dx. Changing a field between calls
     * therefore changes the result.
     */
    method CalculateJacobian(env: Env) returns (r: Result<real>)
      requires WellFormed(filteredPhotonData)
      modifies this
      ensures filteredPhotonData == old(filteredPhotonData) && sddIndex == old(sddIndex) && dx == old(dx)
      ensures baseMuMap == old(baseMuMap) && muAEqn == old(muAEqn) && normalizeDerivative == old(normalizeDerivative)
      ensures maternalHb == old(maternalHb) && maternalSat == old(maternalSat)
      ensures fetalHb == old(fetalHb) && fetalSat == old(fetalSat) && waveInt == old(waveInt)
      ensures arterialVolumeFraction == old(arterialVolumeFraction)
      ensures venousSaturationReductionFactor == old(venousSaturationReductionFactor)
      ensures r == AnalyticalJacobian(env, kind, arterialVolumeFraction, venousSaturationReductionFactor,
                                      filteredPhotonData, sddIndex, baseMuMap, muAEqn, dx,
                                      maternalHb, maternalSat, fetalHb, fetalSat, waveInt, normalizeDerivative)
      ensures DerivativeMuMapGen(env, muAEqn, baseMuMap, maternalSat, maternalHb, fetalSat, fetalHb,
                                 waveInt, dx, MAP_DELTA).Success? ==>
                && muMap == OperatingMap(env, muAEqn, baseMuMap, maternalSat, maternalHb, fetalSat, fetalHb, waveInt)
                && (eps, epsHbo, epsHhb) == Eps(env, fetalSat, waveInt)
    {
      var maps := ModifyMuMap(env);
      if maps.Failure? {
        return Failure(maps.error);
      }
      CalculateEps(env);
      r := AnalyticalDerivative(env, kind, arterialVolumeFraction, venousSaturationReductionFactor,
                                filteredPhotonData, muMap, sddIndex, dx, fetalHb, fetalSat, waveInt,
                                eps, epsHbo, epsHhb, normalizeDerivative);
    }
  }

  /**
   * The analytical Jacobian from the calculator's fields alone: what every
   * calculate_jacobian returns, whatever map and coefficients were stored before.
   */
  function AnalyticalJacobian(env: Env, kind: Kind, avf: real, vsrf: real, t: PhotonTable, sddIndex: Option<int>,
                              base: map<int, real>, eqn: MuAEqn, dx: string,
                              mHb: real, mSat: real, fHb: real, fSat: real, waveInt: int, normalize: bool): (r: Result<real>)
    requires WellFormed(t)
    ensures (dx != "FC" && dx != "FS") ==> r == Failure(NotImplemented)
  {
    var maps :- DerivativeMuMapGen(env, eqn, base, mSat, mHb, fSat, fHb, waveInt, dx, MAP_DELTA);
    var e := Eps(env, fSat, waveInt);
    AnalyticalDerivative(env, kind, avf, vsrf, t, maps.base, sddIndex, dx, fHb, fSat, waveInt, e.0, e.1, e.2, normalize)
  }

  /**
   * Reassigning the fetal saturation between two calls takes effect: the
   * second call computes the Jacobian at the new saturation.
   */
  method FetalSaturationChangeTakesEffect(env: Env, c: AnalyticalJacobianCalculator, newFetalSat: real)
    returns (before: Result<real>, after: Result<real>)
    requires WellFormed(c.filteredPhotonData)
    modifies c
    ensures c.filteredPhotonData == old(c.filteredPhotonData) && c.fetalSat == newFetalSat
    ensures after == AnalyticalJacobian(env, c.kind, c.arterialVolumeFraction, c.venousSaturationReductionFactor,
                                        c.filteredPhotonData, c.sddIndex, c.baseMuMap, c.muAEqn, c.dx,
                                        c.maternalHb, c.maternalSat, c.fetalHb, newFetalSat, c.waveInt,
                                        c.normalizeDerivative)
  {
    before := c.CalculateJacobian(env);
    c.fetalSat := newFetalSat;
    after := c.CalculateJacobian(env);
  }
}
