/** Row-major matrices of 16-bit elements. */
module Matrices {
  import opened Words
  import opened Sums

  /** An element of a row-major matrix; 0 outside it. */
  function At(m: seq<U16>, index: int): U16 {
    if 0 <= index < |m| then m[index] else 0
  }

  function Row(entry: (nat, nat) -> U16, row: nat, columns: nat): seq<U16> {
    seq(columns, column requires 0 <= column < columns => entry(row, column))
  }

  /** The matrix with the given entries, row after row. */
  function Matrix(entry: (nat, nat) -> U16, rows: nat, columns: nat): (m: seq<U16>)
    ensures |m| == rows * columns
  {
    if rows == 0 then []
    else
      RowLength(rows, columns);
      Matrix(entry, rows - 1, columns) + Row(entry, rows - 1, columns)
  }

  lemma RowLength(rows: nat, columns: nat)
    requires rows != 0
    ensures rows * columns == (rows - 1) * columns + columns
  {
  }

  lemma InsideMatrix(row: nat, rows: nat, column: nat, columns: nat)
    requires row < rows && column < columns
    ensures row * columns + column < rows * columns
  {
    MulOrder(row + 1, rows, columns);
    RowLength(row + 1, columns);
  }

  lemma NextRow(row: nat, rows: nat, columns: nat)
    requires row < rows
    ensures row * columns + columns == (row + 1) * columns <= rows * columns
  {
    MulOrder(row + 1, rows, columns);
  }

  /** Where entry (row, column) sits. */
  lemma {:induction false} MatrixEntry(entry: (nat, nat) -> U16, rows: nat, columns: nat, row: nat, column: nat)
    requires row < rows && column < columns
    ensures At(Matrix(entry, rows, columns), row * columns + column) == entry(row, column)
  {
    InsideMatrix(row, rows, column, columns);
    if row < rows - 1 {
      InsideMatrix(row, rows - 1, column, columns);
      MatrixEntry(entry, rows - 1, columns, row, column);
    }
  }

  lemma {:induction false} MatricesEqual(f: (nat, nat) -> U16, g: (nat, nat) -> U16, rows: nat, columns: nat)
    requires forall row: nat, column: nat :: row < rows && column < columns ==> f(row, column) == g(row, column)
    ensures Matrix(f, rows, columns) == Matrix(g, rows, columns)
  {
    if rows != 0 {
      MatricesEqual(f, g, rows - 1, columns);
      assert Row(f, rows - 1, columns) == Row(g, rows - 1, columns);
    }
  }
}
