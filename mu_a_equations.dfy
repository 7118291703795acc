/**
 * The mu-map derivative generators (jacobian/mu_a_equations.py): from a base
 * layer -> mu_a map and an operating point, a base map with layers 1
 * (maternal) and 4 (fetal) set, and the two maps with the affected layer's
 * haemoglobin or saturation moved by +delta and -delta.
 *
 * Maps are values here, so the caller's base map is never changed: the three
 * results are fresh copies, as the source's `.copy()` calls make them.
 */
module MuAEquations {
  import opened Common
  import opened JacobianBase

  /** How layer mu_a follows from saturation and haemoglobin. */
  datatype MuAEqn =
    | FullBlood                                          // the whole layer is blood: get_mu_a
    | PartialBlood(maternalBvf: real, fetalBvf: real)    // a blood-volume fraction per layer: get_tissue_mu_a

  /** The base, plus-delta and minus-delta maps, in the order the source returns them. */
  datatype MuMaps = MuMaps(base: map<int, real>, plus: map<int, real>, minus: map<int, real>)

  /** mu_a of the maternal (layer 1) or fetal (layer 4) layer at saturation `sat` and haemoglobin `hb`. */
  function LayerMuA(env: Env, eqn: MuAEqn, maternal: bool, sat: real, hb: real, waveInt: int): real {
    match eqn
    case FullBlood => env.getMuA(sat, hb, waveInt)
    case PartialBlood(mBvf, fBvf) => env.getTissueMuA(if maternal then mBvf else fBvf, hb, sat, waveInt)
  }

  /** The layer a derivative tag moves: 1 when it names the mother, 4 otherwise. */
  function AffectedLayer(dx: string): (layer: int)
    ensures layer in {1, 4}
    ensures layer == 1 <==> Contains(dx, 'M')
  {
    if Contains(dx, 'M') then 1 else 4
  }

  /** The base map: a copy of `base` with layers 1 and 4 set from the operating values. */
  function OperatingMap(env: Env, eqn: MuAEqn, base: map<int, real>,
                        mSat: real, mHb: real, fSat: real, fHb: real, waveInt: int): (m: map<int, real>)
    ensures m.Keys == base.Keys + {1, 4}
    ensures m[1] == LayerMuA(env, eqn, true, mSat, mHb, waveInt)
    ensures m[4] == LayerMuA(env, eqn, false, fSat, fHb, waveInt)
    ensures forall k | k in base && k != 1 && k != 4 :: m[k] == base[k]
  {
    base[1 := LayerMuA(env, eqn, true, mSat, mHb, waveInt)][4 := LayerMuA(env, eqn, false, fSat, fHb, waveInt)]
  }

  /**
   * derivative_mu_map_gen of either equation. The plus and minus maps move the
   * affected layer's haemoglobin when dx holds 'C', otherwise its saturation
   * when dx holds 'S'; a dx holding neither raises NotImplementedError.
   */
  function DerivativeMuMapGen(env: Env, eqn: MuAEqn, base: map<int, real>,
                              mSat: real, mHb: real, fSat: real, fHb: real, waveInt: int,
                              dx: string, delta: real): (r: Result<MuMaps>)
    ensures r.Failure? <==> !Contains(dx, 'C') && !Contains(dx, 'S')
    ensures r.Failure? ==> r.error == NotImplemented
  {
    var muMap := OperatingMap(env, eqn, base, mSat, mHb, fSat, fHb, waveInt);
    var maternal := Contains(dx, 'M');
    var layer := AffectedLayer(dx);
    var sat := if maternal then mSat else fSat;
    var hb := if maternal then mHb else fHb;
    if Contains(dx, 'C') then
      Success(MuMaps(muMap,
                     muMap[layer := LayerMuA(env, eqn, maternal, sat, hb + delta, waveInt)],
                     muMap[layer := LayerMuA(env, eqn, maternal, sat, hb - delta, waveInt)]))
    else if Contains(dx, 'S') then
      Success(MuMaps(muMap,
                     muMap[layer := LayerMuA(env, eqn, maternal, sat + delta, hb, waveInt)],
                     muMap[layer := LayerMuA(env, eqn, maternal, sat - delta, hb, waveInt)]))
    else
      Failure(NotImplemented)
  }

  /**
   * What the three maps hold: the base map is the operating map; the plus and
   * minus maps have its keys and agree with it except at the affected layer,
   * where haemoglobin (dx holds 'C') or else saturation moves by +delta and
   * -delta.
   */
  lemma DerivativeMapsMoveOnlyTheAffectedLayer(env: Env, eqn: MuAEqn, base: map<int, real>,
                                               mSat: real, mHb: real, fSat: real, fHb: real, waveInt: int,
                                               dx: string, delta: real)
    requires Contains(dx, 'C') || Contains(dx, 'S')
    ensures var maps := DerivativeMuMapGen(env, eqn, base, mSat, mHb, fSat, fHb, waveInt, dx, delta).value;
            var layer := AffectedLayer(dx);
            var maternal := Contains(dx, 'M');
            var sat, hb := if maternal then mSat else fSat, if maternal then mHb else fHb;
            && maps.base == OperatingMap(env, eqn, base, mSat, mHb, fSat, fHb, waveInt)
            && maps.plus.Keys == maps.base.Keys && maps.minus.Keys == maps.base.Keys
            && (forall k | k in maps.base && k != layer :: maps.plus[k] == maps.base[k] && maps.minus[k] == maps.base[k])
            && (Contains(dx, 'C') ==>
                  maps.plus[layer] == LayerMuA(env, eqn, maternal, sat, hb + delta, waveInt) &&
                  maps.minus[layer] == LayerMuA(env, eqn, maternal, sat, hb - delta, waveInt))
            && (!Contains(dx, 'C') ==>
                  maps.plus[layer] == LayerMuA(env, eqn, maternal, sat + delta, hb, waveInt) &&
                  maps.minus[layer] == LayerMuA(env, eqn, maternal, sat - delta, hb, waveInt))
  {
  }

  /** Every declared tag is implemented, and its maps move the layer the tag names. */
  lemma DeclaredTagsAreImplemented(env: Env, eqn: MuAEqn, base: map<int, real>,
                                   mSat: real, mHb: real, fSat: real, fHb: real, waveInt: int,
                                   d: Dx, delta: real)
    ensures DerivativeMuMapGen(env, eqn, base, mSat, mHb, fSat, fHb, waveInt, Tag(d), delta).Success?
    ensures AffectedLayer(Tag(d)) == if d == MC || d == MS then 1 else 4
  {
    TagLetters(d);
  }

  /** Negating delta exchanges the plus and minus maps and leaves the base map alone. */
  lemma {:induction false} NegatedDeltaSwapsMaps(env: Env, eqn: MuAEqn, base: map<int, real>,
                                                 mSat: real, mHb: real, fSat: real, fHb: real, waveInt: int,
                                                 dx: string, delta: real)
    requires Contains(dx, 'C') || Contains(dx, 'S')
    ensures var a := DerivativeMuMapGen(env, eqn, base, mSat, mHb, fSat, fHb, waveInt, dx, delta).value;
            var b := DerivativeMuMapGen(env, eqn, base, mSat, mHb, fSat, fHb, waveInt, dx, -delta).value;
            b == MuMaps(a.base, a.minus, a.plus)
  {
    var a := DerivativeMuMapGen(env, eqn, base, mSat, mHb, fSat, fHb, waveInt, dx, delta).value;
    var b := DerivativeMuMapGen(env, eqn, base, mSat, mHb, fSat, fHb, waveInt, dx, -delta).value;
    DerivativeMapsMoveOnlyTheAffectedLayer(env, eqn, base, mSat, mHb, fSat, fHb, waveInt, dx, delta);
    DerivativeMapsMoveOnlyTheAffectedLayer(env, eqn, base, mSat, mHb, fSat, fHb, waveInt, dx, -delta);
    var layer := AffectedLayer(dx);
    assert b.plus == a.minus by {
      forall k | k in b.plus
        ensures b.plus[k] == a.minus[k]
      {
        if k == layer {
          assert mHb - delta == mHb + -delta && fHb - delta == fHb + -delta;
          assert mSat - delta == mSat + -delta && fSat - delta == fSat + -delta;
        }
      }
    }
    assert b.minus == a.plus by {
      forall k | k in b.minus
        ensures b.minus[k] == a.plus[k]
      {
        if k == layer {
          assert mHb - -delta == mHb + delta && fHb - -delta == fHb + delta;
          assert mSat - -delta == mSat + delta && fSat - -delta == fSat + delta;
        }
      }
    }
  }

  /** With delta = 0 the three maps coincide. */
  lemma {:induction false} ZeroDeltaMapsCoincide(env: Env, eqn: MuAEqn, base: map<int, real>,
                                                 mSat: real, mHb: real, fSat: real, fHb: real, waveInt: int,
                                                 dx: string)
    requires Contains(dx, 'C') || Contains(dx, 'S')
    ensures var m := DerivativeMuMapGen(env, eqn, base, mSat, mHb, fSat, fHb, waveInt, dx, 0.0).value;
            m.plus == m.base && m.minus == m.base
  {
    var m := DerivativeMuMapGen(env, eqn, base, mSat, mHb, fSat, fHb, waveInt, dx, 0.0).value;
    DerivativeMapsMoveOnlyTheAffectedLayer(env, eqn, base, mSat, mHb, fSat, fHb, waveInt, dx, 0.0);
    var layer := AffectedLayer(dx);
    assert m.plus[layer] == m.base[layer];
    assert m.minus[layer] == m.base[layer];
  }
}
