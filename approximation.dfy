/** The approximation records the solver passes around, the `ModelData`
    record filled per time sample, and the exceptions the core raises. */
module Approximation {
  import opened LinAlg

  /** The two exception classes the modelled code throws. */
  datatype Exception = RuntimeError(what: string) | OutOfRange(what: string)

  /** Normal completion, or the exception that unwound the call. */
  datatype Outcome = Pass | Throw(error: Exception)

  datatype Result<T> = Ok(value: T) | Err(error: Exception)

  /** Second-order approximation of a scalar function of (x, u):
      value, gradients and Hessian blocks (`ScalarFunctionQuadraticApproximation`). */
  datatype ScalarQuad = ScalarQuad(f: real, dfdx: Vector, dfdu: Vector,
                                   dfdxx: Matrix, dfduu: Matrix, dfdux: Matrix)

  /** First-order approximation of a vector function of (x, u)
      (`VectorFunctionLinearApproximation`). */
  datatype VectorLinear = VectorLinear(f: Vector, dfdx: Matrix, dfdu: Matrix)

  /** Second-order approximation of a vector function of (x, u): one Hessian
      block per component (`VectorFunctionQuadraticApproximation`). */
  datatype VectorQuad = VectorQuad(f: Vector, dfdx: Matrix, dfdu: Matrix,
                                   dfdxx: seq<Matrix>, dfduu: seq<Matrix>, dfdux: seq<Matrix>)

  /** The per-sample LQ record written by the approximator. */
  datatype ModelData = ModelData(dynamics: VectorLinear, dynamicsCovariance: Matrix,
                                 cost: ScalarQuad, stateInputEqConstr: VectorLinear,
                                 stateEqConstr: VectorLinear, ineqConstr: VectorQuad)

  /** `q` approximates a function of an nx-dimensional state and an
      nu-dimensional input. */
  predicate QuadShape(q: ScalarQuad, nx: nat, nu: nat) {
    |q.dfdx| == nx && |q.dfdu| == nu &&
    IsMat(q.dfdxx, nx, nx) && IsMat(q.dfduu, nu, nu) && IsMat(q.dfdux, nu, nx)
  }

  /** `g` approximates an m-dimensional function of (x, u). */
  predicate LinearShape(g: VectorLinear, m: nat, nx: nat, nu: nat) {
    |g.f| == m && IsMat(g.dfdx, m, nx) && IsMat(g.dfdu, m, nu)
  }

  /** `q` approximates an m-dimensional function of (x, u), with one Hessian
      block of each kind per component. */
  predicate VectorQuadShape(q: VectorQuad, m: nat, nx: nat, nu: nat) {
    |q.f| == m && IsMat(q.dfdx, m, nx) && IsMat(q.dfdu, m, nu) &&
    |q.dfdxx| == m && |q.dfduu| == m && |q.dfdux| == m &&
    (forall i :: 0 <= i < m ==> IsMat(q.dfdxx[i], nx, nx)) &&
    (forall i :: 0 <= i < m ==> IsMat(q.dfduu[i], nu, nu)) &&
    (forall i :: 0 <= i < m ==> IsMat(q.dfdux[i], nu, nx))
  }

  /** `ScalarFunctionQuadraticApproximation::setZero(nx, nu)`. */
  function ZeroQuad(nx: nat, nu: nat): (z: ScalarQuad)
    ensures QuadShape(z, nx, nu)
  {
    ScalarQuad(0.0, Zeros(nx), Zeros(nu), ZeroMat(nx, nx), ZeroMat(nu, nu), ZeroMat(nu, nx))
  }

  /** The `+=` of two approximations of the same dimensions: field by field. */
  function QuadAdd(a: ScalarQuad, b: ScalarQuad, nx: nat, nu: nat): (r: ScalarQuad)
    requires QuadShape(a, nx, nu) && QuadShape(b, nx, nu)
    ensures QuadShape(r, nx, nu)
  {
    ScalarQuad(a.f + b.f, VAdd(a.dfdx, b.dfdx), VAdd(a.dfdu, b.dfdu),
               MAdd(a.dfdxx, b.dfdxx), MAdd(a.dfduu, b.dfduu), MAdd(a.dfdux, b.dfdux))
  }

  /** Every field multiplied by `c` (the `*= dt` of the transcription). */
  function QuadScale(q: ScalarQuad, c: real): (r: ScalarQuad)
    ensures forall nx: nat, nu: nat :: QuadShape(q, nx, nu) ==> QuadShape(r, nx, nu)
  {
    ScalarQuad(c * q.f, VScale(q.dfdx, c), VScale(q.dfdu, c),
               MScale(q.dfdxx, c), MScale(q.dfduu, c), MScale(q.dfdux, c))
  }

  /** The state-only part of an approximation: value, state gradient and
      state Hessian, with the input derivatives left empty. */
  function StatePart(q: ScalarQuad): (r: ScalarQuad)
    ensures forall nx: nat, nu: nat :: QuadShape(q, nx, nu) ==> QuadShape(r, nx, 0)
  {
    ScalarQuad(q.f, q.dfdx, [], q.dfdxx, [], [])
  }

  // ---------------------------------------------------------------------------
  // Algebra of `+=` on approximations

  lemma VAddCommutes(a: Vector, b: Vector)
    requires |a| == |b|
    ensures VAdd(a, b) == VAdd(b, a)
  {
  }

  lemma VAddAssociates(a: Vector, b: Vector, c: Vector)
    requires |a| == |b| == |c|
    ensures VAdd(VAdd(a, b), c) == VAdd(a, VAdd(b, c))
  {
  }

  lemma MAddCommutes(a: Matrix, b: Matrix)
    requires SameShape(a, b)
    ensures MAdd(a, b) == MAdd(b, a)
  {
    forall i | 0 <= i < |a| ensures MAdd(a, b)[i] == MAdd(b, a)[i] {
      VAddCommutes(a[i], b[i]);
    }
  }

  lemma MAddAssociates(a: Matrix, b: Matrix, c: Matrix)
    requires SameShape(a, b) && SameShape(b, c)
    ensures MAdd(MAdd(a, b), c) == MAdd(a, MAdd(b, c))
  {
    forall i | 0 <= i < |a| ensures MAdd(MAdd(a, b), c)[i] == MAdd(a, MAdd(b, c))[i] {
      VAddAssociates(a[i], b[i], c[i]);
    }
  }

  lemma QuadAddCommutes(a: ScalarQuad, b: ScalarQuad, nx: nat, nu: nat)
    requires QuadShape(a, nx, nu) && QuadShape(b, nx, nu)
    ensures QuadAdd(a, b, nx, nu) == QuadAdd(b, a, nx, nu)
  {
    VAddCommutes(a.dfdx, b.dfdx);
    VAddCommutes(a.dfdu, b.dfdu);
    MAddCommutes(a.dfdxx, b.dfdxx);
    MAddCommutes(a.dfduu, b.dfduu);
    MAddCommutes(a.dfdux, b.dfdux);
  }

  lemma QuadAddAssociates(a: ScalarQuad, b: ScalarQuad, c: ScalarQuad, nx: nat, nu: nat)
    requires QuadShape(a, nx, nu) && QuadShape(b, nx, nu) && QuadShape(c, nx, nu)
    ensures QuadAdd(QuadAdd(a, b, nx, nu), c, nx, nu) == QuadAdd(a, QuadAdd(b, c, nx, nu), nx, nu)
  {
    VAddAssociates(a.dfdx, b.dfdx, c.dfdx);
    VAddAssociates(a.dfdu, b.dfdu, c.dfdu);
    MAddAssociates(a.dfdxx, b.dfdxx, c.dfdxx);
    MAddAssociates(a.dfduu, b.dfduu, c.dfduu);
    MAddAssociates(a.dfdux, b.dfdux, c.dfdux);
  }

  /** Adding to the zero approximation of the same dimensions changes nothing. */
  lemma QuadAddZero(q: ScalarQuad, nx: nat, nu: nat)
    requires QuadShape(q, nx, nu)
    ensures QuadAdd(ZeroQuad(nx, nu), q, nx, nu) == q
  {
    var z := ZeroQuad(nx, nu);
    var r := QuadAdd(z, q, nx, nu);
    assert r.dfdx == q.dfdx;
    assert r.dfdu == q.dfdu;
    forall i | 0 <= i < nx ensures r.dfdxx[i] == q.dfdxx[i] { }
    forall i | 0 <= i < nu ensures r.dfduu[i] == q.dfduu[i] && r.dfdux[i] == q.dfdux[i] { }
  }
}
