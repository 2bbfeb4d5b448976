/** Matrix builders of the engine (main.js `identityMatrix`, `translate`, `project`,
    `matrixScale`) and what each one does to a column vector under the saturating product. */
module Transforms {
  import opened ExtReal
  import opened Matrices

  function Identity(): (I: Matrix)
    ensures IsMatrix(I, 4, 4)
    ensures forall i, j :: 0 <= i < 4 && 0 <= j < 4 ==> I[i][j] == Fin(if i == j then 1.0 else 0.0)
  {
    [ [Fin(1.0), Fin(0.0), Fin(0.0), Fin(0.0)],
      [Fin(0.0), Fin(1.0), Fin(0.0), Fin(0.0)],
      [Fin(0.0), Fin(0.0), Fin(1.0), Fin(0.0)],
      [Fin(0.0), Fin(0.0), Fin(0.0), Fin(1.0)] ]
  }

  /** The affine translation by (tx, ty, tz). Its entries may be any extended reals, since
      the renderer builds it from a shape's centre. */
  function Translate(tx: ER, ty: ER, tz: ER): (T: Matrix)
    ensures IsMatrix(T, 4, 4)
  {
    [ [Fin(1.0), Fin(0.0), Fin(0.0), tx],
      [Fin(0.0), Fin(1.0), Fin(0.0), ty],
      [Fin(0.0), Fin(0.0), Fin(1.0), tz],
      [Fin(0.0), Fin(0.0), Fin(0.0), Fin(1.0)] ]
  }

  /** A translation is the identity with (tx, ty, tz, 1) as its last column, so the
      translation by zero is the identity. */
  lemma TranslateExtendsIdentity(tx: ER, ty: ER, tz: ER)
    ensures var T := Translate(tx, ty, tz);
            T[0][3] == tx && T[1][3] == ty && T[2][3] == tz && T[3][3] == Fin(1.0)
    ensures forall i, j :: 0 <= i < 4 && 0 <= j < 3 ==> Translate(tx, ty, tz)[i][j] == Identity()[i][j]
    ensures Translate(Fin(0.0), Fin(0.0), Fin(0.0)) == Identity()
  { }

  /** The depth `project` divides by: +Infinity is clamped to the clip distance and
      -Infinity to the screen distance. */
  function ClampDepth(screenZ: real, clipZ: real, z: ER): real {
    match z
    case PosInf => clipZ
    case NegInf => screenZ
    case Fin(d) => d
  }

  /** The perspective matrix diag(screenZ/z, screenZ/z, 1, 1) for a depth z that does not
      clamp to zero. */
  function Project(screenZ: real, clipZ: real, z: ER): (P: Matrix)
    requires ClampDepth(screenZ, clipZ, z) != 0.0
    ensures IsMatrix(P, 4, 4)
    ensures forall i, j :: 0 <= i < 4 && 0 <= j < 4 ==> P[i][j].Fin?
  {
    var f := screenZ / ClampDepth(screenZ, clipZ, z);
    [ [Fin(f), Fin(0.0), Fin(0.0), Fin(0.0)],
      [Fin(0.0), Fin(f), Fin(0.0), Fin(0.0)],
      [Fin(0.0), Fin(0.0), Fin(1.0), Fin(0.0)],
      [Fin(0.0), Fin(0.0), Fin(0.0), Fin(1.0)] ]
  }

  /** An entry moved by a finite offset: infinities stay where they are. */
  function Shift(e: ER, t: real): ER {
    match e
    case Fin(x) => Fin(x + t)
    case _ => e
  }

  /** An entry multiplied by a finite factor under the saturating product: an infinity
      keeps or flips its sign, and a zero factor annihilates it. */
  function Times(f: real, e: ER): ER {
    match e
    case Fin(x) => Fin(f * x)
    case PosInf => if f > 0.0 then PosInf else if f < 0.0 then NegInf else Fin(0.0)
    case NegInf => if f > 0.0 then NegInf else if f < 0.0 then PosInf else Fin(0.0)
  }

  /** Scaling by a ratio of one changes nothing, whatever the entry. */
  lemma TimesUnitRatio(s: real, e: ER)
    requires s != 0.0
    ensures Times(s / s, e) == e
  {
  }

  /** A row that is zero except for a finite factor f at position i picks entry i of the
      column and multiplies it by f. */
  lemma CellScaledUnitRow(row: seq<ER>, col: seq<ER>, i: nat, f: real)
    requires |row| == |col| == 4 && i < 4
    requires row[i] == Fin(f)
    requires forall k :: 0 <= k < 4 && k != i ==> row[k] == Fin(0.0)
    ensures Cell(row, col) == Times(f, col[i])
  {
    if Saturates(row[i], col[i]) {
      CellSaturates(row, col, i);
    } else {
      CellFinite(row, col);
      Dot4(row, col);
    }
  }

  /** A row of the translation matrix adds its last entry to entry i of a column whose
      w is 1; an infinite entry absorbs the offset. */
  lemma CellAffineRow(row: seq<ER>, col: seq<ER>, i: nat, t: real)
    requires |row| == |col| == 4 && i < 3
    requires row[i] == Fin(1.0) && row[3] == Fin(t)
    requires forall k :: 0 <= k < 3 && k != i ==> row[k] == Fin(0.0)
    requires col[3] == Fin(1.0)
    ensures Cell(row, col) == Shift(col[i], t)
  {
    if Saturates(row[i], col[i]) {
      CellSaturates(row, col, i);
    } else {
      CellFinite(row, col);
      Dot4(row, col);
    }
  }

  /** Identity times any 4-row matrix, even one holding infinities, returns it. */
  lemma MultIdentityLeft(B: Matrix, p: nat)
    requires IsMatrix(B, 4, p)
    ensures Mult(Identity(), B) == B
  {
    var P := Mult(Identity(), B);
    forall i, j | 0 <= i < 4 && 0 <= j < p
      ensures P[i][j] == B[i][j]
    {
      CellScaledUnitRow(Identity()[i], Column(B, j), i, 1.0);
    }
    forall i | 0 <= i < 4
      ensures P[i] == B[i]
    {
      assert |P[i]| == p == |B[i]|;
    }
  }

  /** Any matrix with four columns, even one holding infinities, times identity is itself. */
  lemma MultIdentityRight(A: Matrix, m: nat)
    requires m <= 4 && IsMatrix(A, m, 4)
    ensures Mult(A, Identity()) == A
  {
    var P := Mult(A, Identity());
    forall i, j | 0 <= i < m && 0 <= j < 4
      ensures P[i][j] == A[i][j]
    {
      var col := Column(Identity(), j);
      CellScaledUnitRow(col, A[i], j, 1.0);
      CellFromSymmetric(A[i], col, 0, 0.0);
    }
    forall i | 0 <= i < m
      ensures P[i] == A[i]
    {
      assert |P[i]| == 4 == |A[i]|;
    }
  }

  /** `translate(tx, ty, tz)` applied to a column with w = 1 adds the offset to every
      finite coordinate and leaves infinite coordinates and w alone. */
  lemma MultTranslateColumn(tx: real, ty: real, tz: real, v: Matrix)
    requires IsColumn(v) && v[3][0] == Fin(1.0)
    ensures Mult(Translate(Fin(tx), Fin(ty), Fin(tz)), v)
            == Col4(Shift(v[0][0], tx), Shift(v[1][0], ty), Shift(v[2][0], tz), Fin(1.0))
  {
    var T := Translate(Fin(tx), Fin(ty), Fin(tz));
    var col := Column(v, 0);
    CellAffineRow(T[0], col, 0, tx);
    CellAffineRow(T[1], col, 1, ty);
    CellAffineRow(T[2], col, 2, tz);
    CellScaledUnitRow(T[3], col, 3, 1.0);
    var P := Mult(T, v);
    assert P[0] == [Shift(v[0][0], tx)];
    assert P[1] == [Shift(v[1][0], ty)];
    assert P[2] == [Shift(v[2][0], tz)];
    assert P[3] == [Fin(1.0)];
  }

  /** `project(screenZ, clipZ, z)` applied to a column scales x and y by screenZ/z (after
      the clamp) and leaves z and w exactly as they were. */
  lemma MultProjectColumn(screenZ: real, clipZ: real, z: ER, v: Matrix)
    requires ClampDepth(screenZ, clipZ, z) != 0.0
    requires IsColumn(v)
    ensures var f := screenZ / ClampDepth(screenZ, clipZ, z);
            Mult(Project(screenZ, clipZ, z), v) == Col4(Times(f, v[0][0]), Times(f, v[1][0]), v[2][0], v[3][0])
  {
    var f := screenZ / ClampDepth(screenZ, clipZ, z);
    var P := Project(screenZ, clipZ, z);
    var col := Column(v, 0);
    CellScaledUnitRow(P[0], col, 0, f);
    CellScaledUnitRow(P[1], col, 1, f);
    CellScaledUnitRow(P[2], col, 2, 1.0);
    CellScaledUnitRow(P[3], col, 3, 1.0);
    var R := Mult(P, v);
    assert R[0] == [Times(f, v[0][0])];
    assert R[1] == [Times(f, v[1][0])];
    assert R[2] == [v[2][0]];
    assert R[3] == [v[3][0]];
  }

  /** The far/near clamp: an infinitely distant point projects like one on the clip plane,
      an infinitely near one like one on the screen plane. */
  lemma ProjectClamp(screenZ: real, clipZ: real)
    ensures clipZ != 0.0 ==> Project(screenZ, clipZ, PosInf) == Project(screenZ, clipZ, Fin(clipZ))
    ensures screenZ != 0.0 ==> Project(screenZ, clipZ, NegInf) == Project(screenZ, clipZ, Fin(screenZ))
  {
  }

  datatype Option<T> = None | Some(value: T)

  /** `s * e` as the engine's `matrixScale` computes it; None where that product is NaN
      (a zero factor times an infinity). */
  function ScaleEntry(s: real, e: ER): (r: Option<ER>)
    ensures r.None? <==> s == 0.0 && e.IsInfinite()
  {
    match e
    case Fin(x) => Some(Fin(s * x))
    case _ => if s == 0.0 then None else Some(Times(s, e))
  }

  predicate ScalesToNaN(A: Matrix, s: real) {
    exists i, j :: 0 <= i < |A| && 0 <= j < |A[i]| && ScaleEntry(s, A[i][j]).None?
  }

  /** `matrixScale(A, s)`: every entry multiplied by s, or None when some entry becomes NaN. */
  function Scale(A: Matrix, s: real): (r: Option<Matrix>)
    ensures r.None? <==> s == 0.0 && exists i, j :: 0 <= i < |A| && 0 <= j < |A[i]| && A[i][j].IsInfinite()
    ensures r.Some? ==> |r.value| == |A|
    ensures r.Some? ==> forall i :: 0 <= i < |A| ==> |r.value[i]| == |A[i]|
    ensures r.Some? ==> forall i, j :: 0 <= i < |A| && 0 <= j < |A[i]| ==> ScaleEntry(s, A[i][j]) == Some(r.value[i][j])
  {
    if ScalesToNaN(A, s) then None
    else Some(seq(|A|, i requires 0 <= i < |A| =>
                seq(|A[i]|, j requires 0 <= j < |A[i]| => ScaleEntry(s, A[i][j]).value)))
  }

  /** Scaling by one gives the matrix back. */
  lemma ScaleByOne(A: Matrix)
    ensures Scale(A, 1.0) == Some(A)
  {
    var B := Scale(A, 1.0).value;
    forall i | 0 <= i < |A|
      ensures B[i] == A[i]
    {
      forall j | 0 <= j < |A[i]|
        ensures B[i][j] == A[i][j]
      {
        assert ScaleEntry(1.0, A[i][j]) == Some(B[i][j]);
      }
    }
    assert B == A;
  }

  /** Scaling twice by nonzero factors is scaling once by their product. */
  lemma ScaleCompose(A: Matrix, s: real, t: real)
    requires s != 0.0 && t != 0.0
    ensures Scale(A, s).Some?
    ensures Scale(Scale(A, s).value, t) == Scale(A, s * t)
  {
    var B := Scale(A, s).value;
    var C := Scale(B, t).value;
    var D := Scale(A, s * t).value;
    forall i | 0 <= i < |A|
      ensures C[i] == D[i]
    {
      forall j | 0 <= j < |A[i]|
        ensures C[i][j] == D[i][j]
      {
        assert ScaleEntry(s, A[i][j]) == Some(B[i][j]);
        assert ScaleEntry(t, B[i][j]) == Some(C[i][j]);
        assert ScaleEntry(s * t, A[i][j]) == Some(D[i][j]);
        match A[i][j]
        case Fin(x) => assert t * (s * x) == (s * t) * x;
        case _ =>
      }
    }
    assert C == D;
  }
}
