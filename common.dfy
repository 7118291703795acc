/**
 * Shared vocabulary of the model: the error kinds the library raises, a
 * failure-compatible Result, the opaque numerical and optical collaborators,
 * and the small sequence arithmetic (sum, product, dot product, Python
 * indexing) that numpy supplies in the original.
 */
module Common {

  /** The exceptions the library lets escape, one constructor per Python exception class. */
  datatype Error =
    | ShapeMismatch      // AssertionError: mu map and path columns differ in number
    | IndexOutOfRange    // IndexError
    | NotImplemented     // NotImplementedError: unsupported derivative axis
    | KeyError           // dict lookup or missing DataFrame column
    | AttributeError     // a value without the called method
    | ValueError         // incompatible ToF objects, min() of an empty index, numpy argument errors
    | TypeError          // an operation applied to a value of the wrong type
    | OverflowError      // math.ceil of an infinite float

  datatype Option<+T> = None | Some(value: T)

  datatype Result<+T> = Success(value: T) | Failure(error: Error) {
    predicate IsFailure() { Failure? }
    function PropagateFailure<U>(): Result<U>
      requires Failure?
    {
      Failure(error)
    }
    function Extract(): T
      requires Success?
    {
      value
    }
  }

  /**
   * The collaborators the model cannot see. Each is an uninterpreted total
   * function: the elementary functions of numpy, the absorption-coefficient
   * formulas, the detector geometry tables, the value IEEE arithmetic gives
   * to x / 0, and the pandas linear interpolation of a partially missing
   * series.
   */
  datatype Env = Env(
    exp: real -> real,
    ln: real -> real,
    log10: real -> real,
    getMuA: (real, real, int) -> real,              // (saturation, hemoglobin, wave_int)
    getTissueMuA: (real, real, real, int) -> real,  // (blood volume fraction, hemoglobin, saturation, wave_int)
    detectorCount: int -> real,                     // EQUIDISTANCE_DETECTOR_COUNT[sdd_index]
    detectorPhotonCount: real,                      // EQUIDISTANCE_DETECTOR_PHOTON_COUNT
    divByZero: real -> real,                        // inf / nan produced by x / 0.0
    interpolate: (map<int, real>, int) -> real      // value filled in at a missing key
  )

  /** exp(0) = 1, the one fact about exp that the all-zero intensity property needs. */
  ghost predicate ExpOfZeroIsOne(env: Env) {
    env.exp(0.0) == 1.0
  }

  /** exp(ln x) = x for positive x. */
  ghost predicate ExpInvertsLn(env: Env) {
    forall x: real :: x > 0.0 ==> env.exp(env.ln(x)) == x
  }

  /** Floating-point division: exact for a non-zero divisor, the IEEE artefact otherwise. */
  function Div(env: Env, x: real, y: real): (q: real)
    ensures y != 0.0 ==> q * y == x
  {
    if y == 0.0 then env.divByZero(x) else x / y
  }

  /** numpy.sum of a vector. */
  function Sum(s: seq<real>): real
  {
    if |s| == 0 then 0.0 else Sum(s[..|s| - 1]) + s[|s| - 1]
  }

  /** numpy.prod of a vector. */
  function Product(s: seq<real>): real
  {
    if |s| == 0 then 1.0 else Product(s[..|s| - 1]) * s[|s| - 1]
  }

  /** numpy.dot of two vectors of equal length. */
  function Dot(a: seq<real>, b: seq<real>): real
    requires |a| == |b|
  {
    if |a| == 0 then 0.0 else Dot(a[..|a| - 1], b[..|b| - 1]) + a[|a| - 1] * b[|b| - 1]
  }

  /** Python's s[i]: negative indices count from the end; anything else raises IndexError. */
  function PyIndex<T>(s: seq<T>, i: int): (r: Result<T>)
    ensures r.Success? <==> -|s| <= i < |s|
    ensures 0 <= i < |s| ==> r == Success(s[i])
    ensures -|s| <= i < 0 ==> r == Success(s[|s| + i])
  {
    if 0 <= i < |s| then Success(s[i])
    else if -|s| <= i < 0 then Success(s[|s| + i])
    else Failure(IndexOutOfRange)
  }

  lemma {:induction false} ProductOfOnes(s: seq<real>)
    requires forall i | 0 <= i < |s| :: s[i] == 1.0
    ensures Product(s) == 1.0
  {
    if |s| > 0 {
      ProductOfOnes(s[..|s| - 1]);
    }
  }

  /** Summing a vector of quotients by a common non-zero divisor divides the sum. */
  lemma {:induction false} SumOfQuotients(s: seq<real>, t: seq<real>, d: real)
    requires d != 0.0 && |s| == |t|
    requires forall i | 0 <= i < |s| :: t[i] == s[i] / d
    ensures Sum(t) == Sum(s) / d
  {
    if |s| > 0 {
      SumOfQuotients(s[..|s| - 1], t[..|t| - 1], d);
    }
  }

  /** Python's `x in s` for a one-character string x. */
  predicate Contains(s: string, c: char) {
    c in s
  }

  /** The contiguous integer range [lo, hi]. */
  function Range(lo: int, hi: int): (r: set<int>)
    ensures forall k :: k in r <==> lo <= k <= hi
    ensures lo <= hi + 1 ==> |r| == hi - lo + 1
    decreases hi - lo
  {
    if hi < lo then {} else Range(lo, hi - 1) + {hi}
  }

  /** A subset of a finite set with as many elements is the set itself. */
  lemma SubsetOfEqualSize<T>(a: set<T>, b: set<T>)
    requires a <= b && |a| >= |b|
    ensures a == b
  {
    var d := b - a;
    assert b == a + d;
    assert |b| == |a| + |d|;
  }

  /** Some element of a non-empty set. */
  ghost function PickOne<T>(s: set<T>): (x: T)
    requires s != {}
    ensures x in s
  {
    assert |s| > 0;
    var x :| x in s; x
  }

  /** A non-empty finite set of integers has a least element. */
  lemma {:induction false} HasLeast(s: set<int>)
    requires s != {}
    ensures exists m :: m in s && forall x | x in s :: m <= x
    decreases |s|
  {
    var y := PickOne(s);
    if s != {y} {
      var rest := s - {y};
      HasLeast(rest);
      var r :| r in rest && forall x | x in rest :: r <= x;
      var m := if y < r then y else r;
      assert forall x | x in s :: x == y || x in rest;
      assert m in s && forall x | x in s :: m <= x;
    } else {
      assert forall x | x in s :: y <= x;
    }
  }

  /** A non-empty finite set of integers has a greatest element. */
  lemma {:induction false} HasGreatest(s: set<int>)
    requires s != {}
    ensures exists m :: m in s && forall x | x in s :: x <= m
    decreases |s|
  {
    var y := PickOne(s);
    if s != {y} {
      var rest := s - {y};
      HasGreatest(rest);
      var r :| r in rest && forall x | x in rest :: x <= r;
      var m := if y > r then y else r;
      assert forall x | x in s :: x == y || x in rest;
      assert m in s && forall x | x in s :: x <= m;
    } else {
      assert forall x | x in s :: x <= y;
    }
  }

  /** The least element of a non-empty finite set of integers (Python's min). */
  ghost function SetMin(s: set<int>): (m: int)
    requires s != {}
    ensures m in s && forall x | x in s :: m <= x
  {
    HasLeast(s);
    var m :| m in s && forall x | x in s :: m <= x; m
  }

  /** The greatest element of a non-empty finite set of integers (Python's max). */
  ghost function SetMax(s: set<int>): (m: int)
    requires s != {}
    ensures m in s && forall x | x in s :: x <= m
  {
    HasGreatest(s);
    var m :| m in s && forall x | x in s :: x <= m; m
  }
}
