/** A time-invariant linear system
      dx/dt = A x + B u,   x+ = G x   (at an event),
    with the jump-map input derivative H carried along. The system is a
    value: every operation is a single expression of the four matrices. */
module LinearSystemDynamics {
  import opened LinAlg

  datatype LinearSystem = LinearSystem(A: Matrix, B: Matrix, G: Matrix, H: Matrix,
                                       stateDim: nat, inputDim: nat)

  /** Eigen's `size() == 0`: the matrix holds no entries. */
  predicate NoEntries(m: Matrix) {
    forall i :: 0 <= i < |m| ==> |m[i]| == 0
  }

  /** The four matrices have the dimensions the state and input imply. */
  predicate WellFormed(s: LinearSystem) {
    IsMat(s.A, s.stateDim, s.stateDim) && IsMat(s.B, s.stateDim, s.inputDim) &&
    IsMat(s.G, s.stateDim, s.stateDim) && IsMat(s.H, s.stateDim, s.inputDim)
  }

  /** The constructor: the state dimension is the row count of A, the input
      dimension the column count of B (`inputDim`, since a matrix without
      rows does not carry its column count here). An empty G becomes the
      zero stateDim x stateDim matrix and an empty H the zero
      stateDim x inputDim matrix; non-empty ones are kept as given. */
  function Make(A: Matrix, B: Matrix, inputDim: nat, G: Matrix, H: Matrix): (s: LinearSystem)
    requires RowsOfLength(B, inputDim)
    ensures s.stateDim == |A| && s.inputDim == inputDim
    ensures s.A == A && s.B == B
    ensures s.G == (if NoEntries(G) then ZeroMat(|A|, |A|) else G)
    ensures s.H == (if NoEntries(H) then ZeroMat(|A|, inputDim) else H)
    ensures NoEntries(G) ==> IsMat(s.G, s.stateDim, s.stateDim)
    ensures NoEntries(H) ==> IsMat(s.H, s.stateDim, s.inputDim)
  {
    var G' := if NoEntries(G) then ZeroMat(|A|, |A|) else G;
    var H' := if NoEntries(H) then ZeroMat(|A|, inputDim) else H;
    LinearSystem(A, B, G', H', |A|, inputDim)
  }

  /** `computeFlowMap(t, x, u)`; the time argument is not used. */
  function FlowMap(s: LinearSystem, t: real, x: Vector, u: Vector): (dx: Vector)
    requires WellFormed(s) && |x| == s.stateDim && |u| == s.inputDim
    ensures |dx| == s.stateDim
  {
    VAdd(MatVec(s.A, x), MatVec(s.B, u))
  }

  /** `computeJumpMap(t, x)`; the time argument is not used. */
  function JumpMap(s: LinearSystem, t: real, x: Vector): (xPlus: Vector)
    requires WellFormed(s) && |x| == s.stateDim
    ensures |xPlus| == s.stateDim
  {
    MatVec(s.G, x)
  }

  /** `getFlowMapDerivativeState()`. */
  function FlowMapDerivativeState(s: LinearSystem): Matrix { s.A }

  /** `getFlowMapDerivativeInput()`. */
  function FlowMapDerivativeInput(s: LinearSystem): Matrix { s.B }

  /** `getJumpMapDerivativeState()`. */
  function JumpMapDerivativeState(s: LinearSystem): Matrix { s.G }

  /** `getJumpMapDerivativeInput()`. */
  function JumpMapDerivativeInput(s: LinearSystem): Matrix { s.H }

  // ---------------------------------------------------------------------------
  // Properties

  /** Built from well-shaped A and B with G and H either empty or of the
      right shape, the system is well formed. */
  lemma MakeWellFormed(A: Matrix, B: Matrix, inputDim: nat, G: Matrix, H: Matrix)
    requires IsMat(A, |A|, |A|) && IsMat(B, |A|, inputDim)
    requires NoEntries(G) || IsMat(G, |A|, |A|)
    requires NoEntries(H) || IsMat(H, |A|, inputDim)
    ensures WellFormed(Make(A, B, inputDim, G, H))
  {
  }

  /** With the default G the jump map sends every state to the zero vector. */
  lemma DefaultJumpMapIsZero(A: Matrix, B: Matrix, inputDim: nat, t: real, x: Vector)
    requires IsMat(A, |A|, |A|) && IsMat(B, |A|, inputDim) && |x| == |A|
    ensures WellFormed(Make(A, B, inputDim, [], []))
    ensures JumpMap(Make(A, B, inputDim, [], []), t, x) == Zeros(|A|)
  {
    ZeroMatVec(|A|, x);
  }

  /** The getters are the exact derivatives of the flow map: moving from
      (x, u) to (x + dx, u + du), at any other time, moves the flow map by
      A dx + B du. */
  lemma FlowMapDerivatives(s: LinearSystem, t: real, t': real, x: Vector, u: Vector, dx: Vector, du: Vector)
    requires WellFormed(s) && |x| == |dx| == s.stateDim && |u| == |du| == s.inputDim
    ensures FlowMap(s, t', VAdd(x, dx), VAdd(u, du))
         == VAdd(FlowMap(s, t, x, u),
                 VAdd(MatVec(FlowMapDerivativeState(s), dx), MatVec(FlowMapDerivativeInput(s), du)))
  {
    MatVecAdd(s.A, x, dx);
    MatVecAdd(s.B, u, du);
  }

  /** The state getter of the jump map is its exact derivative, at any time. */
  lemma JumpMapDerivative(s: LinearSystem, t: real, t': real, x: Vector, dx: Vector)
    requires WellFormed(s) && |x| == |dx| == s.stateDim
    ensures JumpMap(s, t', VAdd(x, dx)) == VAdd(JumpMap(s, t, x), MatVec(JumpMapDerivativeState(s), dx))
  {
    MatVecAdd(s.G, x, dx);
  }
}
