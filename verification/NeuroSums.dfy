/** Finite sums of real terms: linearity, and the exchange of double sums. */
module NeuroSums {

  /** f(0) + ... + f(n - 1) */
  function Sum(f: int -> real, n: nat): real {
    if n == 0 then 0.0 else Sum(f, n - 1) + f(n - 1)
  }

  lemma {:induction false} SumsAgree(f: int -> real, g: int -> real, n: nat)
    requires forall k :: 0 <= k < n ==> f(k) == g(k)
    ensures Sum(f, n) == Sum(g, n)
  {
    if n > 0 {
      SumsAgree(f, g, n - 1);
    }
  }

  lemma {:induction false} SumAdds(f: int -> real, g: int -> real, h: int -> real, n: nat)
    requires forall k :: 0 <= k < n ==> h(k) == f(k) + g(k)
    ensures Sum(h, n) == Sum(f, n) + Sum(g, n)
  {
    if n > 0 {
      SumAdds(f, g, h, n - 1);
    }
  }

  lemma Distributes(c: real, x: real, y: real)
    ensures c * (x + y) == c * x + c * y
  {
  }

  lemma {:induction false} SumScales(c: real, f: int -> real, g: int -> real, n: nat)
    requires forall k :: 0 <= k < n ==> g(k) == c * f(k)
    ensures Sum(g, n) == c * Sum(f, n)
  {
    if n > 0 {
      SumScales(c, f, g, n - 1);
      Distributes(c, Sum(f, n - 1), f(n - 1));
    }
  }

  lemma {:induction false} SumVanishes(f: int -> real, n: nat)
    requires forall k :: 0 <= k < n ==> f(k) == 0.0
    ensures Sum(f, n) == 0.0
  {
    if n > 0 {
      SumVanishes(f, n - 1);
    }
  }

  /** A sum over n + m terms, split after the first n. */
  lemma {:induction false} SumSplits(f: int -> real, g: int -> real, n: nat, m: nat)
    requires forall k :: 0 <= k < m ==> g(k) == f(n + k)
    ensures Sum(f, n + m) == Sum(f, n) + Sum(g, m)
  {
    if m > 0 {
      SumSplits(f, g, n, m - 1);
      assert g(m - 1) == f(n + (m - 1));
    }
  }

  function Row(f: (int, int) -> real, row: int): int -> real {
    col => f(row, col)
  }

  function Col(f: (int, int) -> real, col: int): int -> real {
    row => f(row, col)
  }

  function RowSums(f: (int, int) -> real, cols: nat): int -> real {
    row => Sum(Row(f, row), cols)
  }

  function ColSums(f: (int, int) -> real, rows: nat): int -> real {
    col => Sum(Col(f, col), rows)
  }

  /** A double sum may be taken by rows or by columns. */
  lemma {:induction false} Exchange(f: (int, int) -> real, rows: nat, cols: nat)
    ensures Sum(RowSums(f, cols), rows) == Sum(ColSums(f, rows), cols)
  {
    if rows == 0 {
      SumVanishes(ColSums(f, 0), cols);
    } else {
      var r := rows - 1;
      Exchange(f, r, cols);
      forall c | 0 <= c < cols
        ensures ColSums(f, rows)(c) == ColSums(f, r)(c) + Row(f, r)(c)
      {
        assert Sum(Col(f, c), rows) == Sum(Col(f, c), r) + f(r, c);
      }
      SumAdds(ColSums(f, r), Row(f, r), ColSums(f, rows), cols);
    }
  }

  /** The place of (row, col) in a row-major vector. */
  function Index(row: int, col: int, cols: int): int {
    row * cols + col
  }

  lemma NextIndex(row: int, cols: int)
    ensures Index(row + 1, 0, cols) == Index(row, 0, cols) + cols
    ensures forall col :: Index(row, col, cols) == Index(row, 0, cols) + col
  {
  }

  lemma IndexIsNatural(row: nat, cols: nat)
    ensures Index(row, 0, cols) >= 0
  {
  }

  /** A row-major sum is a sum of row sums. */
  lemma {:induction false} SumByRows(flat: int -> real, f: (int, int) -> real, rows: nat, cols: nat, size: nat)
    requires size == Index(rows, 0, cols)
    requires forall r, c :: 0 <= r < rows && 0 <= c < cols ==> flat(Index(r, c, cols)) == f(r, c)
    ensures Sum(flat, size) == Sum(RowSums(f, cols), rows)
  {
    if rows > 0 {
      var r := rows - 1;
      IndexIsNatural(r, cols);
      var start: nat := Index(r, 0, cols);
      SumByRows(flat, f, r, cols, start);
      NextIndex(r, cols);
      assert forall c :: 0 <= c < cols ==> Row(f, r)(c) == flat(Index(r, c, cols));
      SumSplits(flat, Row(f, r), start, cols);
    }
  }
}
