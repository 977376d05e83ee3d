/** Dense real matrices as sequences of lines, with the few operations the
    holonomic integrator uses: a zero-filled matrix, transposition and the
    product. The inverse is not defined here; the integrator receives it. */
module Matrices {
  type Matrix = seq<seq<real>>

  /** `m` has `lines` lines of `columns` entries each. */
  predicate IsMatrix(m: Matrix, lines: nat, columns: nat) {
    |m| == lines && forall i :: 0 <= i < lines ==> |m[i]| == columns
  }

  /** A `lines` x `columns` matrix of zeros, as a fresh matrix starts. */
  function Zero(lines: nat, columns: nat): (z: Matrix)
    ensures IsMatrix(z, lines, columns)
    ensures forall i, j :: 0 <= i < lines && 0 <= j < columns ==> z[i][j] == 0.0
  {
    seq(lines, _ => seq(columns, _ => 0.0))
  }

  function Transpose(m: Matrix, lines: nat, columns: nat): (t: Matrix)
    requires IsMatrix(m, lines, columns)
    ensures IsMatrix(t, columns, lines)
    ensures forall i, j :: 0 <= i < lines && 0 <= j < columns ==> t[j][i] == m[i][j]
  {
    seq(columns, j requires 0 <= j < columns => seq(lines, i requires 0 <= i < lines => m[i][j]))
  }

  /** The sum of `row[t] * b[t][column]` over the first `count` indices t. */
  function Dot(row: seq<real>, b: Matrix, column: nat, count: nat): real
    requires count <= |row| && count <= |b|
    requires forall t :: 0 <= t < count ==> column < |b[t]|
  {
    if count == 0 then 0.0
    else Dot(row, b, column, count - 1) + row[count - 1] * b[count - 1][column]
  }

  /** The line `row` times `b`: entry j is the dot product of `row` with column j. */
  function ProductLine(row: seq<real>, b: Matrix, inner: nat, columns: nat): (line: seq<real>)
    requires |row| == inner && IsMatrix(b, inner, columns)
    ensures |line| == columns
    ensures forall j :: 0 <= j < columns ==> line[j] == Dot(row, b, j, inner)
  {
    seq(columns, j requires 0 <= j < columns => Dot(row, b, j, inner))
  }

  function Multiply(a: Matrix, b: Matrix, lines: nat, inner: nat, columns: nat): (p: Matrix)
    requires IsMatrix(a, lines, inner) && IsMatrix(b, inner, columns)
    ensures IsMatrix(p, lines, columns)
    decreases lines
  {
    if lines == 0 then []
    else Multiply(a[..lines - 1], b, lines - 1, inner, columns) + [ProductLine(a[lines - 1], b, inner, columns)]
  }

  /** Entry (i, j) of a product is line i of `a` dotted with column j of `b`. */
  lemma {:induction false} MultiplyEntry(a: Matrix, b: Matrix, lines: nat, inner: nat, columns: nat, i: nat, j: nat)
    requires IsMatrix(a, lines, inner) && IsMatrix(b, inner, columns)
    requires i < lines && j < columns
    ensures Multiply(a, b, lines, inner, columns)[i][j] == Dot(a[i], b, j, inner)
    decreases lines
  {
    if i < lines - 1 {
      MultiplyEntry(a[..lines - 1], b, lines - 1, inner, columns, i, j);
    }
  }

  /** A dot product over three indices, written out. */
  lemma DotThree(row: seq<real>, v: Matrix)
    requires |row| == 3 && IsMatrix(v, 3, 1)
    ensures Dot(row, v, 0, 3) == row[0] * v[0][0] + row[1] * v[1][0] + row[2] * v[2][0]
  {
    assert Dot(row, v, 0, 1) == row[0] * v[0][0];
    assert Dot(row, v, 0, 2) == row[0] * v[0][0] + row[1] * v[1][0];
  }

  /** One line of a 3 x 3 matrix times a 3 x 1 vector, written out. */
  lemma MultiplyThreeByOneLine(a: Matrix, v: Matrix, i: nat)
    requires IsMatrix(a, 3, 3) && IsMatrix(v, 3, 1) && i < 3
    ensures Multiply(a, v, 3, 3, 1)[i][0] == a[i][0] * v[0][0] + a[i][1] * v[1][0] + a[i][2] * v[2][0]
  {
    MultiplyEntry(a, v, 3, 3, 1, i, 0);
    DotThree(a[i], v);
  }

  /** A 3 x 3 matrix times a 3 x 1 vector, written out. */
  lemma MultiplyThreeByOne(a: Matrix, v: Matrix)
    requires IsMatrix(a, 3, 3) && IsMatrix(v, 3, 1)
    ensures var p := Multiply(a, v, 3, 3, 1);
            forall i :: 0 <= i < 3 ==> p[i][0] == a[i][0] * v[0][0] + a[i][1] * v[1][0] + a[i][2] * v[2][0]
  {
    forall i | 0 <= i < 3
      ensures Multiply(a, v, 3, 3, 1)[i][0] == a[i][0] * v[0][0] + a[i][1] * v[1][0] + a[i][2] * v[2][0]
    {
      MultiplyThreeByOneLine(a, v, i);
    }
  }
}
