/** Matrix product over extended reals with the renderer's infinity-saturation rule
    (main.js `matrixMult`). */
module Matrices {
  import opened ExtReal

  /** A matrix as a sequence of rows. Vectors are 4x1 column matrices. */
  type Matrix = seq<seq<ER>>

  predicate IsMatrix(M: Matrix, rows: nat, cols: nat) {
    |M| == rows && forall i :: 0 <= i < rows ==> |M[i]| == cols
  }

  /** A 4x1 column vector (x, y, z, w). */
  predicate IsColumn(v: Matrix) {
    IsMatrix(v, 4, 1)
  }

  function Col4(x: ER, y: ER, z: ER, w: ER): (v: Matrix)
    ensures IsColumn(v)
  {
    [[x], [y], [z], [w]]
  }

  /** Number of columns of a rectangular matrix. */
  function Cols(M: Matrix): nat {
    if |M| == 0 then 0 else |M[0]|
  }

  /** Operands of the product: B is rectangular, B has a row for every row of A (the
      column count is read from `B[i]`), and every row of A is exactly as long as B is
      tall. The loop itself only needs rows of A no longer than B is tall; requiring
      equal lengths is a restriction of this model. */
  predicate Conformable(A: Matrix, B: Matrix) {
    && |A| <= |B|
    && (forall i :: 0 <= i < |A| ==> |A[i]| == |B|)
    && (forall k :: 0 <= k < |B| ==> |B[k]| == |B[0]|)
  }

  /** Column j of B, read top to bottom. */
  function Column(B: Matrix, j: nat): (c: seq<ER>)
    requires forall k :: 0 <= k < |B| ==> j < |B[k]|
    ensures |c| == |B|
    ensures forall k :: 0 <= k < |B| ==> c[k] == B[k][j]
  {
    seq(|B|, k requires 0 <= k < |B| => B[k][j])
  }

  /** What one pair (A[i][k], B[k][j]) does to the running sum of its cell. */
  datatype PairEffect = Skip | Add(p: real) | Saturate(limit: ER)

  /** The body of the innermost loop: a pair with an infinite operand is skipped when
      the other operand is exactly zero and otherwise ends the cell with an infinity
      whose sign comes from adding the two operand signs; a finite pair adds its product. */
  function PairStep(a: ER, b: ER): PairEffect {
    if a.IsInfinite() || b.IsInfinite() then
      var l := Sign(a) + Sign(b);
      if Sign(a) == 0 || Sign(b) == 0 then Skip
      else if l == 0 then Saturate(NegInf)
      else Saturate(PosInf)
    else
      Add(a.v * b.v)
  }

  /** The k-loop from index k with running sum `sum`, stopping at the first saturating pair. */
  function CellFrom(row: seq<ER>, col: seq<ER>, k: nat, sum: real): ER
    requires |row| == |col| && k <= |row|
    decreases |row| - k
  {
    if k == |row| then Fin(sum)
    else
      match PairStep(row[k], col[k])
      case Skip => CellFrom(row, col, k + 1, sum)
      case Add(p) => CellFrom(row, col, k + 1, sum + p)
      case Saturate(limit) => limit
  }

  /** One cell of the product: the k-loop started with `sum = 0`. */
  function Cell(row: seq<ER>, col: seq<ER>): ER
    requires |row| == |col|
  {
    CellFrom(row, col, 0, 0.0)
  }

  /** The product `matrixMult(A, B)`: row i has one cell per entry of `B[i]`. */
  function Mult(A: Matrix, B: Matrix): (P: Matrix)
    requires Conformable(A, B)
    ensures IsMatrix(P, |A|, Cols(B))
    ensures forall i, j :: 0 <= i < |A| && 0 <= j < Cols(B) ==> P[i][j] == Cell(A[i], Column(B, j))
  {
    seq(|A|, i requires 0 <= i < |A| =>
      seq(|B[i]|, j requires 0 <= j < |B[i]| => Cell(A[i], Column(B, j))))
  }

  // ---------------------------------------------------------------------------
  // Reference semantics of one cell, stated without the loop.

  /** A pair saturates its cell: one operand is infinite and neither is exactly zero. */
  predicate Saturates(a: ER, b: ER) {
    (a.IsInfinite() || b.IsInfinite()) && a != Fin(0.0) && b != Fin(0.0)
  }

  /** The infinity a saturating pair yields: the sign of the product of its operands. */
  function Limit(a: ER, b: ER): ER {
    if Sign(a) * Sign(b) > 0 then PosInf else NegInf
  }

  /** What a non-saturating pair contributes to the sum: the product when both operands
      are finite, nothing when an infinity meets an exact zero. */
  function Term(a: ER, b: ER): real {
    if a.Fin? && b.Fin? then a.v * b.v else 0.0
  }

  /** The ordinary dot product of the finite pairs. */
  function Dot(row: seq<ER>, col: seq<ER>): real
    requires |row| == |col|
  {
    if |row| == 0 then 0.0
    else Dot(row[..|row| - 1], col[..|col| - 1]) + Term(row[|row| - 1], col[|col| - 1])
  }

  predicate NoSaturationBefore(row: seq<ER>, col: seq<ER>, k: nat)
    requires |row| == |col| && k <= |row|
  {
    forall j :: 0 <= j < k ==> !Saturates(row[j], col[j])
  }

  /** The loop body agrees with the reference: it saturates exactly on saturating pairs,
      to the sign of the product, and otherwise adds the pair's term. */
  lemma PairStepMatchesReference(a: ER, b: ER)
    ensures PairStep(a, b).Saturate? <==> Saturates(a, b)
    ensures Saturates(a, b) ==> PairStep(a, b) == Saturate(Limit(a, b))
    ensures !Saturates(a, b) ==> PairStep(a, b) == Skip || PairStep(a, b) == Add(Term(a, b))
    ensures PairStep(a, b) == Skip ==> Term(a, b) == 0.0
  {
  }

  /** The saturation table: signs that agree give +Infinity (also -Infinity times a
      negative), signs that differ give -Infinity, and an exact zero partner is skipped. */
  lemma SaturationTable(x: real)
    ensures x > 0.0 ==> PairStep(PosInf, Fin(x)) == Saturate(PosInf) && PairStep(Fin(x), NegInf) == Saturate(NegInf)
    ensures x < 0.0 ==> PairStep(PosInf, Fin(x)) == Saturate(NegInf) && PairStep(NegInf, Fin(x)) == Saturate(PosInf)
    ensures x == 0.0 ==> PairStep(PosInf, Fin(x)) == Skip && PairStep(Fin(x), NegInf) == Skip
    ensures PairStep(PosInf, NegInf) == Saturate(NegInf) && PairStep(NegInf, NegInf) == Saturate(PosInf)
  {
  }

  lemma DotStep(row: seq<ER>, col: seq<ER>, k: nat)
    requires |row| == |col| && k < |row|
    ensures Dot(row[..k + 1], col[..k + 1]) == Dot(row[..k], col[..k]) + Term(row[k], col[k])
  {
    assert row[..k + 1][..k] == row[..k];
    assert col[..k + 1][..k] == col[..k];
  }

  /** The loop from index k, entered with the finite sum of the first k pairs, computes
      the reference value of the cell. */
  lemma {:induction false} CellFromSpec(row: seq<ER>, col: seq<ER>, k: nat)
    requires |row| == |col| && k <= |row|
    requires NoSaturationBefore(row, col, k)
    ensures NoSaturationBefore(row, col, |row|) ==>
              CellFrom(row, col, k, Dot(row[..k], col[..k])) == Fin(Dot(row, col))
    ensures forall m :: k <= m < |row| && Saturates(row[m], col[m]) && NoSaturationBefore(row, col, m) ==>
              CellFrom(row, col, k, Dot(row[..k], col[..k])) == Limit(row[m], col[m])
    decreases |row| - k
  {
    if k == |row| {
      assert row[..k] == row && col[..k] == col;
    } else {
      PairStepMatchesReference(row[k], col[k]);
      if Saturates(row[k], col[k]) {
        forall m | k <= m < |row| && Saturates(row[m], col[m]) && NoSaturationBefore(row, col, m)
          ensures m == k
        {
        }
      } else {
        DotStep(row, col, k);
        CellFromSpec(row, col, k + 1);
      }
    }
  }

  /** Saturation: the lowest-index saturating pair decides the cell, whatever the other
      pairs hold. */
  lemma CellSaturates(row: seq<ER>, col: seq<ER>, m: nat)
    requires |row| == |col| && m < |row|
    requires Saturates(row[m], col[m]) && NoSaturationBefore(row, col, m)
    ensures Cell(row, col) == Limit(row[m], col[m])
  {
    assert row[..0] == [] && col[..0] == [];
    CellFromSpec(row, col, 0);
  }

  /** Without a saturating pair the cell is the ordinary dot product of the finite pairs. */
  lemma CellFinite(row: seq<ER>, col: seq<ER>)
    requires |row| == |col|
    requires NoSaturationBefore(row, col, |row|)
    ensures Cell(row, col) == Fin(Dot(row, col))
  {
    assert row[..0] == [] && col[..0] == [];
    CellFromSpec(row, col, 0);
  }

  /** The cell never holds anything but a finite sum or a signed infinity chosen by a pair:
      it is infinite exactly when some pair saturates. */
  lemma CellInfiniteIffSaturating(row: seq<ER>, col: seq<ER>)
    requires |row| == |col|
    ensures Cell(row, col).IsInfinite() <==> exists m :: 0 <= m < |row| && Saturates(row[m], col[m])
  {
    if m :| 0 <= m < |row| && Saturates(row[m], col[m]) {
      var first := FirstSaturating(row, col, m);
      CellSaturates(row, col, first);
    } else {
      CellFinite(row, col);
    }
  }

  /** The lowest index at or below m whose pair saturates. */
  lemma FirstSaturating(row: seq<ER>, col: seq<ER>, m: nat) returns (first: nat)
    requires |row| == |col| && m < |row| && Saturates(row[m], col[m])
    ensures first <= m && Saturates(row[first], col[first]) && NoSaturationBefore(row, col, first)
  {
    first := m;
    while exists j :: 0 <= j < first && Saturates(row[j], col[j])
      invariant first <= m && Saturates(row[first], col[first])
      decreases first
    {
      var j :| 0 <= j < first && Saturates(row[j], col[j]);
      first := j;
    }
  }

  /** The dot product of four pairs, spelled out. */
  lemma Dot4(row: seq<ER>, col: seq<ER>)
    requires |row| == |col| == 4
    ensures Dot(row, col)
            == Term(row[0], col[0]) + Term(row[1], col[1]) + Term(row[2], col[2]) + Term(row[3], col[3])
  {
    DotStep(row, col, 0);
    DotStep(row, col, 1);
    DotStep(row, col, 2);
    DotStep(row, col, 3);
    assert row[..4] == row && col[..4] == col;
    assert row[..0] == [] && col[..0] == [];
  }

  /** The loop treats its two operands alike, so a cell does not depend on which of
      the two sequences is the row. */
  lemma {:induction false} CellFromSymmetric(row: seq<ER>, col: seq<ER>, k: nat, sum: real)
    requires |row| == |col| && k <= |row|
    ensures CellFrom(row, col, k, sum) == CellFrom(col, row, k, sum)
    decreases |row| - k
  {
    if k < |row| {
      assert PairStep(row[k], col[k]) == PairStep(col[k], row[k]);
      CellFromSymmetric(row, col, k + 1, sum);
      if PairStep(row[k], col[k]).Add? {
        CellFromSymmetric(row, col, k + 1, sum + PairStep(row[k], col[k]).p);
      }
    }
  }
}
