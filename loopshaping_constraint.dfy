/** The loopshaping constraint in the "eliminate pattern": a constraint of
    the original system, of (x_system, u_system), is re-expressed in the
    augmented state x = (x_system, x_filter) and the augmented input u,
    where the system input is u_system = C x_filter + D u. Jacobians and
    Hessians of the augmented constraint are assembled block by block from
    the system ones and the filter matrices C and D (or their diagonal
    versions when the filter is diagonal). */
module LoopshapingConstraint {
  import opened LinAlg
  import opened Approximation

  /** The input filter: its dense output matrices, their diagonals (used
      when the filter is diagonal) and its dimensions. */
  datatype Filter = Filter(C: Matrix, D: Matrix, cdiag: Vector, ddiag: Vector,
                           numStates: nat, numInputs: nat)

  /** The loopshaping definition the pattern reads: whether the filter is
      diagonal, the filter, and the maps from the augmented (x, u) back to
      the system state and input. */
  datatype Definition = Definition(isDiagonal: bool, filter: Filter,
                                   systemState: Vector -> Vector,
                                   systemInput: (Vector, Vector) -> Vector)

  /** The wrapped constraint of the original system. */
  datatype SystemConstraint = SystemConstraint(
    stateInputEquality: (real, Vector, Vector) -> Vector,
    stateInputEqualityLinear: (real, Vector, Vector) -> VectorLinear,
    inequalityQuadratic: (real, Vector, Vector) -> VectorQuad)

  /** The filter matrices conform to a system input of dimension `nus`:
      C is nus x numStates and D is nus x numInputs; a diagonal filter has
      all three dimensions equal. */
  predicate FilterShape(def: Definition, nus: nat) {
    var f := def.filter;
    if def.isDiagonal then
      |f.cdiag| == f.numStates == nus && |f.ddiag| == f.numInputs == nus
    else
      IsMat(f.C, nus, f.numStates) && IsMat(f.D, nus, f.numInputs)
  }

  /** The C actually multiplied: `getCdiag()` or `getC()`. */
  function EffectiveC(def: Definition): Matrix {
    if def.isDiagonal then Diag(def.filter.cdiag) else def.filter.C
  }

  /** The D actually multiplied: `getDdiag()` or `getD()`. */
  function EffectiveD(def: Definition): Matrix {
    if def.isDiagonal then Diag(def.filter.ddiag) else def.filter.D
  }

  lemma EffectiveShapes(def: Definition, nus: nat)
    requires FilterShape(def, nus)
    ensures IsMat(EffectiveC(def), nus, def.filter.numStates)
    ensures IsMat(EffectiveD(def), nus, def.filter.numInputs)
  {
  }

  /** `stateInputEqualityConstraint`: the system constraint at the system
      state and input recovered from (x, u). */
  function StateInputEqualityConstraint(def: Definition, sys: SystemConstraint,
                                        t: real, x: Vector, u: Vector): (g: Vector)
    ensures exists xs, us :: xs == def.systemState(x) && us == def.systemInput(x, u) &&
                             g == sys.stateInputEquality(t, xs, us)
  {
    var xs := def.systemState(x);
    var us := def.systemInput(x, u);
    sys.stateInputEquality(t, xs, us)
  }

  // ---------------------------------------------------------------------------
  // Linear approximation

  /** What `stateInputEqualityConstraintLinearApproximation` needs of its
      inputs: the augmented state is the system state followed by the
      filter state, the augmented input has at least the filter's inputs,
      and the system approximation has the dimensions Eigen requires. */
  predicate LinearApplicable(def: Definition, sys: SystemConstraint, t: real, x: Vector, u: Vector) {
    var xs := def.systemState(x);
    var us := def.systemInput(x, u);
    var gs := sys.stateInputEqualityLinear(t, xs, us);
    FilterShape(def, |us|) &&
    |x| == |xs| + def.filter.numStates && def.filter.numInputs <= |u| &&
    LinearShape(gs, |gs.f|, |xs|, |us|)
  }

  /** `stateInputEqualityConstraintLinearApproximation`. */
  function StateInputEqualityConstraintLinearApproximation(def: Definition, sys: SystemConstraint,
                                                           t: real, x: Vector, u: Vector): (g: VectorLinear)
    requires LinearApplicable(def, sys, t, x, u)
    ensures var xs := def.systemState(x);
            var gs := sys.stateInputEqualityLinear(t, xs, def.systemInput(x, u));
            var nf := def.filter.numStates;
            var ni := def.filter.numInputs;
            && LinearShape(g, |gs.f|, |x|, |u|)
            && g.f == gs.f
            && LeftCols(g.dfdx, |xs|) == gs.dfdx
            && RightCols(g.dfdx, nf) == MatMul(gs.dfdu, EffectiveC(def), nf)
            && LeftCols(g.dfdu, ni) == MatMul(gs.dfdu, EffectiveD(def), ni)
            && RightCols(g.dfdu, |u| - ni) == ZeroMat(|gs.f|, |u| - ni)
  {
    var xs := def.systemState(x);
    var us := def.systemInput(x, u);
    var gs := sys.stateInputEqualityLinear(t, xs, us);
    var nf := def.filter.numStates;
    var ni := def.filter.numInputs;
    EffectiveShapes(def, |us|);
    var dfdxFilter := MatMul(gs.dfdu, EffectiveC(def), nf);
    var dfduFilter := MatMul(gs.dfdu, EffectiveD(def), ni);
    var padding := ZeroMat(|gs.f|, |u| - ni);
    HCatBlocks(gs.dfdx, dfdxFilter, |xs|, nf);
    HCatBlocks(dfduFilter, padding, ni, |u| - ni);
    VectorLinear(gs.f, HCat(gs.dfdx, dfdxFilter), HCat(dfduFilter, padding))
  }

  /** When the system's linear approximation is taken at the value of the
      system constraint, so is the augmented one: the approximation and the
      constraint agree on the constraint value. */
  lemma LinearApproximationValue(def: Definition, sys: SystemConstraint, t: real, x: Vector, u: Vector)
    requires LinearApplicable(def, sys, t, x, u)
    requires forall xs, us :: sys.stateInputEqualityLinear(t, xs, us).f == sys.stateInputEquality(t, xs, us)
    ensures StateInputEqualityConstraintLinearApproximation(def, sys, t, x, u).f
         == StateInputEqualityConstraint(def, sys, t, x, u)
  {
    var xs := def.systemState(x);
    var us := def.systemInput(x, u);
    assert sys.stateInputEqualityLinear(t, xs, us).f == sys.stateInputEquality(t, xs, us);
  }

  // ---------------------------------------------------------------------------
  // Quadratic approximation

  /** What `inequalityConstraintQuadraticApproximation` needs of its inputs:
      as for the linear case, with the augmented input exactly the filter's
      inputs (the Hessian products leave no room for padding). */
  predicate QuadraticApplicable(def: Definition, sys: SystemConstraint, t: real, x: Vector, u: Vector) {
    var xs := def.systemState(x);
    var us := def.systemInput(x, u);
    var hs := sys.inequalityQuadratic(t, xs, us);
    FilterShape(def, |us|) &&
    |x| == |xs| + def.filter.numStates && |u| == def.filter.numInputs &&
    VectorQuadShape(hs, |hs.f|, |xs|, |us|)
  }

  /** The row quantities below are about the three Hessians `xx`, `uu`,
      `ux` of one component of the system constraint, for a system with
      nxs states and nus inputs. */
  predicate RowApplicable(def: Definition, xx: Matrix, uu: Matrix, ux: Matrix, nxs: nat, nus: nat) {
    FilterShape(def, nus) && IsMat(xx, nxs, nxs) && IsMat(uu, nus, nus) && IsMat(ux, nus, nxs)
  }

  /** The top-right (system state x filter state) block of a state Hessian. */
  function TopRight(def: Definition, xx: Matrix, uu: Matrix, ux: Matrix, nxs: nat, nus: nat): (m: Matrix)
    requires RowApplicable(def, xx, uu, ux, nxs, nus)
    ensures IsMat(m, nxs, def.filter.numStates)
  {
    var nf := def.filter.numStates;
    if def.isDiagonal then MatMul(Transpose(ux, nxs), Diag(def.filter.cdiag), nf)
    else MatMul(Transpose(ux, nxs), def.filter.C, nf)
  }

  /** The temporary `dfduu_C` of a row: the system input Hessian times C. */
  function DfduuC(def: Definition, xx: Matrix, uu: Matrix, ux: Matrix, nxs: nat, nus: nat): (m: Matrix)
    requires RowApplicable(def, xx, uu, ux, nxs, nus)
    ensures IsMat(m, nus, def.filter.numStates)
  {
    var nf := def.filter.numStates;
    if def.isDiagonal then MatMul(uu, Diag(def.filter.cdiag), nf)
    else MatMul(uu, def.filter.C, nf)
  }

  /** The bottom-right (filter state x filter state) block of a state Hessian. */
  function BottomRight(def: Definition, xx: Matrix, uu: Matrix, ux: Matrix, nxs: nat, nus: nat): (m: Matrix)
    requires RowApplicable(def, xx, uu, ux, nxs, nus)
    ensures IsMat(m, def.filter.numStates, def.filter.numStates)
  {
    var nf := def.filter.numStates;
    if def.isDiagonal then MatMul(Diag(def.filter.cdiag), DfduuC(def, xx, uu, ux, nxs, nus), nf)
    else MatMul(Transpose(def.filter.C, nf), DfduuC(def, xx, uu, ux, nxs, nus), nf)
  }

  /** A row's Hessian with respect to the augmented state, assembled from its four blocks. */
  function StateHessian(def: Definition, xx: Matrix, uu: Matrix, ux: Matrix, nxs: nat, nus: nat): Matrix
    requires RowApplicable(def, xx, uu, ux, nxs, nus)
  {
    var tr := TopRight(def, xx, uu, ux, nxs, nus);
    VCat(HCat(xx, tr),
         HCat(Transpose(tr, def.filter.numStates), BottomRight(def, xx, uu, ux, nxs, nus)))
  }

  /** A row's Hessian with respect to the augmented input. */
  function InputHessian(def: Definition, xx: Matrix, uu: Matrix, ux: Matrix, nxs: nat, nus: nat): Matrix
    requires RowApplicable(def, xx, uu, ux, nxs, nus)
  {
    var ni := def.filter.numInputs;
    if def.isDiagonal then
      MatMul(MatMul(Diag(def.filter.ddiag), uu, nus), Diag(def.filter.ddiag), ni)
    else
      MatMul(MatMul(Transpose(def.filter.D, ni), uu, nus), def.filter.D, ni)
  }

  /** A row's mixed Hessian (augmented input x augmented state). */
  function MixedHessian(def: Definition, xx: Matrix, uu: Matrix, ux: Matrix, nxs: nat, nus: nat): Matrix
    requires RowApplicable(def, xx, uu, ux, nxs, nus)
  {
    var ni := def.filter.numInputs;
    var nf := def.filter.numStates;
    var dfduuC := DfduuC(def, xx, uu, ux, nxs, nus);
    if def.isDiagonal then
      HCat(MatMul(Diag(def.filter.ddiag), ux, nxs), MatMul(Diag(def.filter.ddiag), dfduuC, nf))
    else
      HCat(MatMul(Transpose(def.filter.D, ni), ux, nxs), MatMul(Transpose(def.filter.D, ni), dfduuC, nf))
  }

  /** The system approximation the quadratic case starts from. */
  function SystemInequality(def: Definition, sys: SystemConstraint, t: real, x: Vector, u: Vector): VectorQuad {
    sys.inequalityQuadratic(t, def.systemState(x), def.systemInput(x, u))
  }

  /** Every row of a system approximation of nxs states and nus inputs can
      be assembled. */
  predicate RowsApplicable(def: Definition, hs: VectorQuad, nxs: nat, nus: nat) {
    |hs.dfdxx| == |hs.f| && |hs.dfduu| == |hs.f| && |hs.dfdux| == |hs.f| &&
    forall k :: 0 <= k < |hs.f| ==> RowApplicable(def, hs.dfdxx[k], hs.dfduu[k], hs.dfdux[k], nxs, nus)
  }

  lemma ShapedRowsApplicable(def: Definition, hs: VectorQuad, nxs: nat, nus: nat)
    requires FilterShape(def, nus) && VectorQuadShape(hs, |hs.f|, nxs, nus)
    ensures RowsApplicable(def, hs, nxs, nus)
  {
  }

  /** `xxs`, `uus` and `uxs` hold the three Hessians of rows 0..n-1. */
  predicate AssembledRows(def: Definition, hs: VectorQuad, nxs: nat, nus: nat,
                          xxs: seq<Matrix>, uus: seq<Matrix>, uxs: seq<Matrix>, n: nat)
    requires RowsApplicable(def, hs, nxs, nus) && n <= |hs.f|
  {
    |xxs| == n && |uus| == n && |uxs| == n &&
    (forall k :: 0 <= k < n ==> xxs[k] == StateHessian(def, hs.dfdxx[k], hs.dfduu[k], hs.dfdux[k], nxs, nus)) &&
    (forall k :: 0 <= k < n ==> uus[k] == InputHessian(def, hs.dfdxx[k], hs.dfduu[k], hs.dfdux[k], nxs, nus)) &&
    (forall k :: 0 <= k < n ==> uxs[k] == MixedHessian(def, hs.dfdxx[k], hs.dfduu[k], hs.dfdux[k], nxs, nus))
  }

  /** Appending the Hessians of row n extends the assembled rows by one. */
  lemma AssembledRowsStep(def: Definition, hs: VectorQuad, nxs: nat, nus: nat,
                          xxs: seq<Matrix>, uus: seq<Matrix>, uxs: seq<Matrix>, n: nat)
    requires RowsApplicable(def, hs, nxs, nus) && n < |hs.f|
    requires AssembledRows(def, hs, nxs, nus, xxs, uus, uxs, n)
    ensures var xx, uu, ux := hs.dfdxx[n], hs.dfduu[n], hs.dfdux[n];
            AssembledRows(def, hs, nxs, nus, xxs + [StateHessian(def, xx, uu, ux, nxs, nus)],
                          uus + [InputHessian(def, xx, uu, ux, nxs, nus)],
                          uxs + [MixedHessian(def, xx, uu, ux, nxs, nus)], n + 1)
  {
    var xx, uu, ux := hs.dfdxx[n], hs.dfduu[n], hs.dfdux[n];
    var xxs', uus', uxs' := xxs + [StateHessian(def, xx, uu, ux, nxs, nus)],
                            uus + [InputHessian(def, xx, uu, ux, nxs, nus)],
                            uxs + [MixedHessian(def, xx, uu, ux, nxs, nus)];
    forall k | 0 <= k < n + 1
      ensures xxs'[k] == StateHessian(def, hs.dfdxx[k], hs.dfduu[k], hs.dfdux[k], nxs, nus)
      ensures uus'[k] == InputHessian(def, hs.dfdxx[k], hs.dfduu[k], hs.dfdux[k], nxs, nus)
      ensures uxs'[k] == MixedHessian(def, hs.dfdxx[k], hs.dfduu[k], hs.dfdux[k], nxs, nus)
    {
      if k < n {
        assert xxs'[k] == xxs[k] && uus'[k] == uus[k] && uxs'[k] == uxs[k];
      }
    }
  }

  /** The loop over constraint rows: row i's three Hessians are appended in
      iteration i. */
  method AssembleHessians(def: Definition, hs: VectorQuad, nxs: nat, nus: nat)
    returns (dfdxx: seq<Matrix>, dfduu: seq<Matrix>, dfdux: seq<Matrix>)
    requires FilterShape(def, nus) && VectorQuadShape(hs, |hs.f|, nxs, nus)
    ensures |dfdxx| == |dfduu| == |dfdux| == |hs.f|
    ensures forall i :: 0 <= i < |hs.f| ==> dfdxx[i] == StateHessian(def, hs.dfdxx[i], hs.dfduu[i], hs.dfdux[i], nxs, nus)
    ensures forall i :: 0 <= i < |hs.f| ==> dfduu[i] == InputHessian(def, hs.dfdxx[i], hs.dfduu[i], hs.dfdux[i], nxs, nus)
    ensures forall i :: 0 <= i < |hs.f| ==> dfdux[i] == MixedHessian(def, hs.dfdxx[i], hs.dfduu[i], hs.dfdux[i], nxs, nus)
  {
    ShapedRowsApplicable(def, hs, nxs, nus);
    dfdxx, dfduu, dfdux := [], [], [];
    for i := 0 to |hs.f|
      invariant AssembledRows(def, hs, nxs, nus, dfdxx, dfduu, dfdux, i)
    {
      AssembledRowsStep(def, hs, nxs, nus, dfdxx, dfduu, dfdux, i);
      var xx, uu, ux := hs.dfdxx[i], hs.dfduu[i], hs.dfdux[i];
      dfdxx := dfdxx + [StateHessian(def, xx, uu, ux, nxs, nus)];
      dfduu := dfduu + [InputHessian(def, xx, uu, ux, nxs, nus)];
      dfdux := dfdux + [MixedHessian(def, xx, uu, ux, nxs, nus)];
    }
  }

  /** `inequalityConstraintQuadraticApproximation`: the value and the first
      derivatives are assembled as in the linear case (without padding),
      then the Hessians row by row. */
  method InequalityConstraintQuadraticApproximation(def: Definition, sys: SystemConstraint,
                                                    t: real, x: Vector, u: Vector) returns (h: VectorQuad)
    requires QuadraticApplicable(def, sys, t, x, u)
    ensures var hs := SystemInequality(def, sys, t, x, u);
            var nxs := |def.systemState(x)|;
            var nf := def.filter.numStates;
            && h.f == hs.f
            && IsMat(h.dfdx, |hs.f|, |x|)
            && LeftCols(h.dfdx, nxs) == hs.dfdx
            && RightCols(h.dfdx, nf) == MatMul(hs.dfdu, EffectiveC(def), nf)
            && h.dfdu == MatMul(hs.dfdu, EffectiveD(def), |u|)
    ensures var hs := SystemInequality(def, sys, t, x, u);
            var nxs := |def.systemState(x)|;
            var nus := |def.systemInput(x, u)|;
            && |h.dfdxx| == |h.dfduu| == |h.dfdux| == |hs.f|
            && (forall i :: 0 <= i < |hs.f| ==> h.dfdxx[i] == StateHessian(def, hs.dfdxx[i], hs.dfduu[i], hs.dfdux[i], nxs, nus))
            && (forall i :: 0 <= i < |hs.f| ==> h.dfduu[i] == InputHessian(def, hs.dfdxx[i], hs.dfduu[i], hs.dfdux[i], nxs, nus))
            && (forall i :: 0 <= i < |hs.f| ==> h.dfdux[i] == MixedHessian(def, hs.dfdxx[i], hs.dfduu[i], hs.dfdux[i], nxs, nus))
  {
    var nxs := |def.systemState(x)|;
    var nus := |def.systemInput(x, u)|;
    var nf := def.filter.numStates;
    var hs := SystemInequality(def, sys, t, x, u);
    EffectiveShapes(def, nus);
    var dfdxFilter := MatMul(hs.dfdu, EffectiveC(def), nf);
    HCatBlocks(hs.dfdx, dfdxFilter, nxs, nf);
    var dfdu := MatMul(hs.dfdu, EffectiveD(def), |u|);
    var dfdxx, dfduu, dfdux := AssembleHessians(def, hs, nxs, nus);
    h := VectorQuad(hs.f, HCat(hs.dfdx, dfdxFilter), dfdu, dfdxx, dfduu, dfdux);
  }

  // ---------------------------------------------------------------------------
  // Block identities of the assembled Hessians

  /** The state Hessian is (nxs + nf) square; its top-left block is the
      system's state Hessian, its top-right block the product built from the
      system's mixed Hessian and C, and its bottom-left block the transpose
      of its top-right block. */
  lemma StateHessianBlocks(def: Definition, xx: Matrix, uu: Matrix, ux: Matrix, nxs: nat, nus: nat)
    requires RowApplicable(def, xx, uu, ux, nxs, nus)
    ensures var m := StateHessian(def, xx, uu, ux, nxs, nus);
            var nf := def.filter.numStates;
            && IsMat(m, nxs + nf, nxs + nf)
            && LeftCols(Rows(m, 0, nxs), nxs) == xx
            && RightCols(Rows(m, 0, nxs), nf) == TopRight(def, xx, uu, ux, nxs, nus)
            && LeftCols(Rows(m, nxs, nxs + nf), nxs) == Transpose(RightCols(Rows(m, 0, nxs), nf), nf)
            && RightCols(Rows(m, nxs, nxs + nf), nf) == BottomRight(def, xx, uu, ux, nxs, nus)
  {
    var nf := def.filter.numStates;
    var tr := TopRight(def, xx, uu, ux, nxs, nus);
    var top := HCat(xx, tr);
    var bottom := HCat(Transpose(tr, nf), BottomRight(def, xx, uu, ux, nxs, nus));
    HCatBlocks(xx, tr, nxs, nf);
    HCatBlocks(Transpose(tr, nf), BottomRight(def, xx, uu, ux, nxs, nus), nxs, nf);
    var m := StateHessian(def, xx, uu, ux, nxs, nus);
    assert Rows(m, 0, nxs) == top;
    assert Rows(m, nxs, nxs + nf) == bottom;
  }

  /** The state Hessian is symmetric whenever the system's state and input
      Hessians are: the off-diagonal blocks are each other's transposes by
      construction, and the filter block is the congruence Cᵀ H C of the
      input Hessian. */
  lemma StateHessianSymmetric(def: Definition, xx: Matrix, uu: Matrix, ux: Matrix, nxs: nat, nus: nat)
    requires RowApplicable(def, xx, uu, ux, nxs, nus)
    requires Symmetric(xx) && Symmetric(uu)
    ensures Symmetric(StateHessian(def, xx, uu, ux, nxs, nus))
  {
    BottomRightIsCongruence(def, xx, uu, ux, nxs, nus);
    CongruenceSymmetric(EffectiveC(def), uu, def.filter.numStates);
    BlockSymmetric(xx, TopRight(def, xx, uu, ux, nxs, nus), BottomRight(def, xx, uu, ux, nxs, nus),
                   nxs, def.filter.numStates);
  }

  /** In both the dense and the diagonal case the input Hessian is the
      congruence Dᵀ H D of the system's input Hessian by the effective D
      (a diagonal matrix being its own transpose). */
  lemma InputHessianIsCongruence(def: Definition, xx: Matrix, uu: Matrix, ux: Matrix, nxs: nat, nus: nat)
    requires RowApplicable(def, xx, uu, ux, nxs, nus)
    ensures var d := EffectiveD(def);
            var ni := def.filter.numInputs;
            IsMat(d, nus, ni) &&
            InputHessian(def, xx, uu, ux, nxs, nus) == MatMul(MatMul(Transpose(d, ni), uu, nus), d, ni)
  {
    if def.isDiagonal {
      DiagTranspose(def.filter.ddiag);
    }
  }

  /** Likewise the bottom-right block of the state Hessian is Cᵀ (H C) for
      the effective C. */
  lemma BottomRightIsCongruence(def: Definition, xx: Matrix, uu: Matrix, ux: Matrix, nxs: nat, nus: nat)
    requires RowApplicable(def, xx, uu, ux, nxs, nus)
    ensures var c := EffectiveC(def);
            var nf := def.filter.numStates;
            IsMat(c, nus, nf) &&
            BottomRight(def, xx, uu, ux, nxs, nus) == MatMul(Transpose(c, nf), MatMul(uu, c, nf), nf)
  {
    if def.isDiagonal {
      DiagTranspose(def.filter.cdiag);
    }
  }

  /** The mixed Hessian has one row per augmented input and one column per
      augmented state; its left block is Dᵀ times the system's mixed Hessian. */
  lemma MixedHessianBlocks(def: Definition, xx: Matrix, uu: Matrix, ux: Matrix, nxs: nat, nus: nat)
    requires RowApplicable(def, xx, uu, ux, nxs, nus)
    ensures var m := MixedHessian(def, xx, uu, ux, nxs, nus);
            var d := EffectiveD(def);
            var ni := def.filter.numInputs;
            var nf := def.filter.numStates;
            && IsMat(m, ni, nxs + nf)
            && LeftCols(m, nxs) == MatMul(Transpose(d, ni), ux, nxs)
            && RightCols(m, nf) == MatMul(Transpose(d, ni), DfduuC(def, xx, uu, ux, nxs, nus), nf)
  {
    var ni := def.filter.numInputs;
    var nf := def.filter.numStates;
    var d := EffectiveD(def);
    if def.isDiagonal {
      DiagTranspose(def.filter.ddiag);
    }
    HCatBlocks(MatMul(Transpose(d, ni), ux, nxs),
               MatMul(Transpose(d, ni), DfduuC(def, xx, uu, ux, nxs, nus), nf), nxs, nf);
  }
}
