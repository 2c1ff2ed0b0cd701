/** Dense vectors and matrices over the mathematical reals, standing for the
    Eigen `vector_t` and `matrix_t` types used throughout the library.
    A matrix is a sequence of rows. Operations that Eigen only allows on
    conformable operands require conformable operands here. */
module LinAlg {

  type Vector = seq<real>
  type Matrix = seq<seq<real>>

  /** `m` has `rows` rows of `cols` entries each. */
  predicate IsMat(m: Matrix, rows: nat, cols: nat) {
    |m| == rows && forall i :: 0 <= i < |m| ==> |m[i]| == cols
  }

  /** Two matrices with the same number of rows, row by row of equal length. */
  predicate SameShape(a: Matrix, b: Matrix) {
    |a| == |b| && forall i :: 0 <= i < |a| ==> |a[i]| == |b[i]|
  }

  /** Every row of `m` has exactly `n` entries. */
  predicate RowsOfLength(m: Matrix, n: nat) {
    forall i :: 0 <= i < |m| ==> |m[i]| == n
  }

  function Zeros(n: nat): (v: Vector)
    ensures |v| == n && forall i :: 0 <= i < n ==> v[i] == 0.0
  {
    seq(n, i => 0.0)
  }

  function ZeroMat(rows: nat, cols: nat): (m: Matrix)
    ensures IsMat(m, rows, cols)
    ensures forall i :: 0 <= i < rows ==> m[i] == Zeros(cols)
  {
    seq(rows, i => Zeros(cols))
  }

  function VAdd(a: Vector, b: Vector): (r: Vector)
    requires |a| == |b|
    ensures |r| == |a|
  {
    seq(|a|, i requires 0 <= i < |a| => a[i] + b[i])
  }

  function VSub(a: Vector, b: Vector): (r: Vector)
    requires |a| == |b|
    ensures |r| == |a|
  {
    seq(|a|, i requires 0 <= i < |a| => a[i] - b[i])
  }

  function VNeg(a: Vector): (r: Vector)
    ensures |r| == |a|
  {
    seq(|a|, i requires 0 <= i < |a| => -a[i])
  }

  function VScale(a: Vector, c: real): (r: Vector)
    ensures |r| == |a|
  {
    seq(|a|, i requires 0 <= i < |a| => c * a[i])
  }

  function MAdd(a: Matrix, b: Matrix): (r: Matrix)
    requires SameShape(a, b)
    ensures SameShape(r, a)
  {
    seq(|a|, i requires 0 <= i < |a| => VAdd(a[i], b[i]))
  }

  function MSub(a: Matrix, b: Matrix): (r: Matrix)
    requires SameShape(a, b)
    ensures SameShape(r, a)
  {
    seq(|a|, i requires 0 <= i < |a| => VSub(a[i], b[i]))
  }

  function MNeg(a: Matrix): (r: Matrix)
    ensures SameShape(r, a)
  {
    seq(|a|, i requires 0 <= i < |a| => VNeg(a[i]))
  }

  function MScale(a: Matrix, c: real): (r: Matrix)
    ensures SameShape(r, a)
  {
    seq(|a|, i requires 0 <= i < |a| => VScale(a[i], c))
  }

  function Dot(a: Vector, b: Vector): real
    requires |a| == |b|
  {
    if |a| == 0 then 0.0 else a[0] * b[0] + Dot(a[1..], b[1..])
  }

  /** The squared Euclidean norm, Eigen's `squaredNorm()`. */
  function SquaredNorm(v: Vector): real {
    Dot(v, v)
  }

  /** Eigen's `cwiseMin(0.0)`: every positive entry replaced by zero. */
  function MinZero(v: Vector): (r: Vector)
    ensures |r| == |v|
    ensures forall i :: 0 <= i < |v| ==> r[i] <= 0.0 && r[i] <= v[i]
  {
    seq(|v|, i requires 0 <= i < |v| => if v[i] < 0.0 then v[i] else 0.0)
  }

  function MatVec(m: Matrix, v: Vector): (r: Vector)
    requires RowsOfLength(m, |v|)
    ensures |r| == |m|
  {
    seq(|m|, i requires 0 <= i < |m| => Dot(m[i], v))
  }

  function Col(m: Matrix, j: nat): (c: Vector)
    requires forall i :: 0 <= i < |m| ==> j < |m[i]|
    ensures |c| == |m|
  {
    seq(|m|, i requires 0 <= i < |m| => m[i][j])
  }

  /** The transpose of a matrix with `cols` columns (the column count is
      passed because a matrix without rows does not carry it). */
  function Transpose(m: Matrix, cols: nat): (t: Matrix)
    requires RowsOfLength(m, cols)
    ensures IsMat(t, cols, |m|)
    ensures forall j, i :: 0 <= j < cols && 0 <= i < |m| ==> t[j][i] == m[i][j]
  {
    seq(cols, j requires 0 <= j < cols => Col(m, j))
  }

  /** The product of `a` (any rows, |b| columns) and `b` (|b| rows, `cols` columns). */
  function MatMul(a: Matrix, b: Matrix, cols: nat): (r: Matrix)
    requires RowsOfLength(a, |b|) && RowsOfLength(b, cols)
    ensures IsMat(r, |a|, cols)
  {
    seq(|a|, i requires 0 <= i < |a| => seq(cols, j requires 0 <= j < cols => Dot(a[i], Col(b, j))))
  }

  /** Horizontal concatenation of two blocks with the same number of rows. */
  function HCat(l: Matrix, r: Matrix): (m: Matrix)
    requires |l| == |r|
    ensures |m| == |l|
    ensures forall i :: 0 <= i < |l| ==> m[i] == l[i] + r[i]
  {
    seq(|l|, i requires 0 <= i < |l| => l[i] + r[i])
  }

  /** Eigen's `leftCols(k)`. */
  function LeftCols(m: Matrix, k: nat): (r: Matrix)
    requires forall i :: 0 <= i < |m| ==> k <= |m[i]|
    ensures IsMat(r, |m|, k)
  {
    seq(|m|, i requires 0 <= i < |m| => m[i][..k])
  }

  /** Eigen's `rightCols(k)`. */
  function RightCols(m: Matrix, k: nat): (r: Matrix)
    requires forall i :: 0 <= i < |m| ==> k <= |m[i]|
    ensures IsMat(r, |m|, k)
  {
    seq(|m|, i requires 0 <= i < |m| => m[i][|m[i]| - k..])
  }

  /** Vertical concatenation: the rows of `top` followed by those of `bottom`. */
  function VCat(top: Matrix, bottom: Matrix): (m: Matrix)
    ensures |m| == |top| + |bottom|
    ensures m[..|top|] == top && m[|top|..] == bottom
  {
    top + bottom
  }

  /** The square diagonal matrix with `v` on its diagonal (Eigen's `asDiagonal`). */
  function Diag(v: Vector): (m: Matrix)
    ensures IsMat(m, |v|, |v|)
    ensures forall i, j :: 0 <= i < |v| && 0 <= j < |v| ==> m[i][j] == (if i == j then v[i] else 0.0)
  {
    seq(|v|, i requires 0 <= i < |v| => seq(|v|, j requires 0 <= j < |v| => if i == j then v[i] else 0.0))
  }

  /** Rows `from` (inclusive) to `to` (exclusive). */
  function Rows(m: Matrix, from: nat, to: nat): (r: Matrix)
    requires from <= to <= |m|
    ensures |r| == to - from
  {
    m[from..to]
  }

  predicate Symmetric(m: Matrix) {
    forall i, j :: 0 <= i < |m| && 0 <= j < |m| ==> j < |m[i]| && i < |m[j]| && m[i][j] == m[j][i]
  }

  // ---------------------------------------------------------------------------
  // Lemmas

  /** A squared norm is never negative. */
  lemma {:induction false} SquaredNormNonNegative(v: Vector)
    ensures SquaredNorm(v) >= 0.0
  {
    if |v| > 0 {
      SquaredNormNonNegative(v[1..]);
      assert v[0] * v[0] >= 0.0;
    }
  }

  /** A scaled squared norm is never negative when the scale is not. */
  lemma ScaledSquaredNormNonNegative(dt: real, v: Vector)
    requires dt >= 0.0
    ensures dt * SquaredNorm(v) >= 0.0
  {
    SquaredNormNonNegative(v);
  }

  lemma {:induction false} DotZerosLeft(n: nat, v: Vector)
    requires |v| == n
    ensures Dot(Zeros(n), v) == 0.0
  {
    if n > 0 {
      assert Zeros(n)[1..] == Zeros(n - 1);
      DotZerosLeft(n - 1, v[1..]);
    }
  }

  /** The zero matrix maps every vector to the zero vector. */
  lemma ZeroMatVec(rows: nat, v: Vector)
    ensures MatVec(ZeroMat(rows, |v|), v) == Zeros(rows)
  {
    forall i | 0 <= i < rows
      ensures MatVec(ZeroMat(rows, |v|), v)[i] == 0.0
    {
      DotZerosLeft(|v|, v);
    }
  }

  lemma {:induction false} DotSymmetric(a: Vector, b: Vector)
    requires |a| == |b|
    ensures Dot(a, b) == Dot(b, a)
  {
    if |a| > 0 {
      DotSymmetric(a[1..], b[1..]);
    }
  }

  /** The blocks of a horizontal concatenation are recovered by `leftCols`
      and `rightCols`. */
  lemma HCatBlocks(l: Matrix, r: Matrix, lc: nat, rc: nat)
    requires |l| == |r| && RowsOfLength(l, lc) && RowsOfLength(r, rc)
    ensures IsMat(HCat(l, r), |l|, lc + rc)
    ensures LeftCols(HCat(l, r), lc) == l
    ensures RightCols(HCat(l, r), rc) == r
  {
    var m := HCat(l, r);
    forall i | 0 <= i < |l|
      ensures m[i][..lc] == l[i] && m[i][|m[i]| - rc..] == r[i]
    {
    }
  }

  /** A diagonal matrix is its own transpose. */
  lemma DiagTranspose(v: Vector)
    ensures Transpose(Diag(v), |v|) == Diag(v)
  {
    var t := Transpose(Diag(v), |v|);
    forall i | 0 <= i < |v|
      ensures t[i] == Diag(v)[i]
    {
    }
  }

  /** Entry (a, b) of a 2 x 2 block matrix is the entry of the block it falls in. */
  lemma BlockEntry(tl: Matrix, tr: Matrix, bl: Matrix, br: Matrix, n1: nat, n2: nat, a: nat, b: nat)
    requires IsMat(tl, n1, n1) && IsMat(tr, n1, n2) && IsMat(bl, n2, n1) && IsMat(br, n2, n2)
    requires a < n1 + n2 && b < n1 + n2
    ensures var m := VCat(HCat(tl, tr), HCat(bl, br));
            |m| == n1 + n2 && b < |m[a]| &&
            m[a][b] == if a < n1 then (if b < n1 then tl[a][b] else tr[a][b - n1])
                       else (if b < n1 then bl[a - n1][b] else br[a - n1][b - n1])
  {
    var top, bottom := HCat(tl, tr), HCat(bl, br);
    var m := VCat(top, bottom);
    if a < n1 {
      assert m[a] == top[a] == tl[a] + tr[a];
    } else {
      assert m[a] == m[n1..][a - n1] == bottom[a - n1] == bl[a - n1] + br[a - n1];
    }
  }

  /** A 2 x 2 block matrix whose off-diagonal blocks are each other's
      transposes is symmetric when its diagonal blocks are. */
  lemma BlockSymmetric(tl: Matrix, tr: Matrix, br: Matrix, n1: nat, n2: nat)
    requires IsMat(tl, n1, n1) && IsMat(tr, n1, n2) && IsMat(br, n2, n2)
    requires Symmetric(tl) && Symmetric(br)
    ensures Symmetric(VCat(HCat(tl, tr), HCat(Transpose(tr, n2), br)))
  {
    var bl := Transpose(tr, n2);
    var m := VCat(HCat(tl, tr), HCat(bl, br));
    forall a, b | 0 <= a < |m| && 0 <= b < |m|
      ensures b < |m[a]| && a < |m[b]| && m[a][b] == m[b][a]
    {
      BlockEntry(tl, tr, bl, br, n1, n2, a, b);
      BlockEntry(tl, tr, bl, br, n1, n2, b, a);
    }
  }

  /** The dot product distributes over a sum in its right argument. */
  lemma {:induction false} DotAddRight(a: Vector, b: Vector, c: Vector)
    requires |a| == |b| == |c|
    ensures Dot(a, VAdd(b, c)) == Dot(a, b) + Dot(a, c)
  {
    if |a| > 0 {
      assert VAdd(b, c)[1..] == VAdd(b[1..], c[1..]);
      DotAddRight(a[1..], b[1..], c[1..]);
    }
  }

  /** The dot product is linear in a scaled left argument. */
  lemma {:induction false} DotScaleLeft(a: Vector, c: real, b: Vector)
    requires |a| == |b|
    ensures Dot(VScale(a, c), b) == c * Dot(a, b)
  {
    if |a| > 0 {
      forall k | 0 <= k < |a| - 1
        ensures VScale(a, c)[1..][k] == VScale(a[1..], c)[k]
      {
        assert VScale(a, c)[k + 1] == c * a[k + 1];
      }
      assert VScale(a, c)[1..] == VScale(a[1..], c);
      assert VScale(a, c)[0] == c * a[0];
      DotScaleLeft(a[1..], c, b[1..]);
    }
  }

  /** The dot product distributes over a sum in its left argument. */
  lemma DotAddLeft(a: Vector, b: Vector, c: Vector)
    requires |a| == |b| == |c|
    ensures Dot(VAdd(a, b), c) == Dot(a, c) + Dot(b, c)
  {
    DotSymmetric(VAdd(a, b), c);
    DotAddRight(c, a, b);
    DotSymmetric(a, c);
    DotSymmetric(b, c);
  }

  /** Mᵀ p is the first row of M scaled by p[0] plus the transpose of the
      remaining rows applied to the rest of p. */
  lemma TransposeMatVecSplit(m: Matrix, p: Vector, cols: nat)
    requires |m| == |p| > 0 && RowsOfLength(m, cols)
    ensures MatVec(Transpose(m, cols), p)
         == VAdd(VScale(m[0], p[0]), MatVec(Transpose(m[1..], cols), p[1..]))
  {
    var lhs := MatVec(Transpose(m, cols), p);
    var rhs := VAdd(VScale(m[0], p[0]), MatVec(Transpose(m[1..], cols), p[1..]));
    forall j | 0 <= j < cols
      ensures lhs[j] == rhs[j]
    {
      var c := Col(m, j);
      assert Transpose(m, cols)[j] == c;
      assert c[1..] == Col(m[1..], j);
      assert Transpose(m[1..], cols)[j] == Col(m[1..], j);
    }
  }

  /** Moving a matrix across the dot product transposes it: p·(M q) == (Mᵀ p)·q. */
  lemma {:induction false} DotMatVecTranspose(m: Matrix, p: Vector, q: Vector)
    requires |m| == |p| && RowsOfLength(m, |q|)
    ensures Dot(p, MatVec(m, q)) == Dot(MatVec(Transpose(m, |q|), p), q)
  {
    if |p| == 0 {
      assert MatVec(Transpose(m, |q|), p) == Zeros(|q|);
      DotZerosLeft(|q|, q);
    } else {
      assert MatVec(m, q)[1..] == MatVec(m[1..], q);
      DotMatVecTranspose(m[1..], p[1..], q);
      TransposeMatVecSplit(m, p, |q|);
      DotAddLeft(VScale(m[0], p[0]), MatVec(Transpose(m[1..], |q|), p[1..]), q);
      DotScaleLeft(m[0], p[0], q);
    }
  }

  /** A symmetric matrix is its own transpose. */
  lemma SymmetricTranspose(h: Matrix)
    requires IsMat(h, |h|, |h|) && Symmetric(h)
    ensures Transpose(h, |h|) == h
  {
    var t := Transpose(h, |h|);
    forall i | 0 <= i < |h|
      ensures t[i] == h[i]
    {
    }
  }

  /** The congruence Cᵀ (H C) of a symmetric H is symmetric. */
  lemma CongruenceSymmetric(c: Matrix, h: Matrix, n: nat)
    requires IsMat(h, |c|, |c|) && Symmetric(h) && RowsOfLength(c, n)
    ensures Symmetric(MatMul(Transpose(c, n), MatMul(h, c, n), n))
  {
    var hc := MatMul(h, c, n);
    var ct := Transpose(c, n);
    var m := MatMul(ct, hc, n);
    SymmetricTranspose(h);
    forall j | 0 <= j < n
      ensures Col(hc, j) == MatVec(h, Col(c, j))
    {
    }
    forall i, j | 0 <= i < n && 0 <= j < n
      ensures m[i][j] == Dot(Col(c, i), MatVec(h, Col(c, j)))
    {
      assert ct[i] == Col(c, i);
    }
    forall i, j | 0 <= i < n && 0 <= j < n
      ensures m[i][j] == m[j][i]
    {
      DotMatVecTranspose(h, Col(c, i), Col(c, j));
      DotSymmetric(MatVec(h, Col(c, i)), Col(c, j));
    }
  }

  /** A matrix-vector product is linear in the vector. */
  lemma MatVecAdd(m: Matrix, a: Vector, b: Vector)
    requires |a| == |b| && RowsOfLength(m, |a|)
    ensures MatVec(m, VAdd(a, b)) == VAdd(MatVec(m, a), MatVec(m, b))
  {
    forall i | 0 <= i < |m|
      ensures MatVec(m, VAdd(a, b))[i] == VAdd(MatVec(m, a), MatVec(m, b))[i]
    {
      DotAddRight(m[i], a, b);
    }
  }
}
