/** The grand total across all aggregate rows
    (pages/api/send-report.js, lines 54-57). Amounts are integer paise. */
module Totals {
  import opened Types

  /** A row's contribution: its amount, or 0 for SQL NULL. */
  function Amount(r: Row): int {
    r.amount.GetOr(0)
  }

  /** The sum of the row amounts with NULL counted as 0, as a right fold. */
  function Sum(rows: seq<Row>): (total: int)
    ensures (forall i :: 0 <= i < |rows| ==> Amount(rows[i]) >= 0) ==> total >= 0
    ensures (forall i :: 0 <= i < |rows| ==> rows[i].amount.None?) ==> total == 0
  {
    if |rows| == 0 then 0 else Amount(rows[0]) + Sum(rows[1..])
  }

  lemma {:induction false} SumAppend(a: seq<Row>, b: seq<Row>)
    ensures Sum(a + b) == Sum(a) + Sum(b)
    decreases |a|
  {
    if |a| > 0 {
      assert (a + b)[1..] == a[1..] + b;
      SumAppend(a[1..], b);
    } else {
      assert a + b == b;
    }
  }

  /** The left-to-right accumulation of the source's `reduce`: starting at 0,
      add each row's amount (NULL as 0) in turn. */
  method ReduceGrandTotal(rows: seq<Row>) returns (total: int)
    ensures total == Sum(rows)
  {
    total := 0;
    var i := 0;
    while i < |rows|
      invariant 0 <= i <= |rows|
      invariant total == Sum(rows[..i])
    {
      assert rows[..i + 1] == rows[..i] + [rows[i]];
      SumAppend(rows[..i], [rows[i]]);
      total := total + Amount(rows[i]);
      i := i + 1;
    }
    assert rows[..i] == rows;
  }

  /** The store returns groups in no particular order; the grand total does
      not depend on it. */
  lemma {:induction false} SumPermutation(a: seq<Row>, b: seq<Row>)
    requires multiset(a) == multiset(b)
    ensures Sum(a) == Sum(b)
    decreases |a|
  {
    if |a| == 0 {
      assert |b| == |multiset(b)| == 0;
    } else {
      assert a[0] in multiset(b);
      var j :| 0 <= j < |b| && b[j] == a[0];
      var rest := b[..j] + b[j + 1..];
      assert b == b[..j] + [b[j]] + b[j + 1..];
      assert a == [a[0]] + a[1..];
      calc {
        multiset(a[1..]);
        multiset(a) - multiset{a[0]};
        multiset(b) - multiset{b[j]};
        { assert multiset(b) == multiset(b[..j]) + multiset{b[j]} + multiset(b[j + 1..]); }
        multiset(b[..j]) + multiset(b[j + 1..]);
        multiset(rest);
      }
      SumPermutation(a[1..], rest);
      SumAppend(b[..j], b[j + 1..]);
      SumAppend(b[..j] + [b[j]], b[j + 1..]);
      SumAppend(b[..j], [b[j]]);
      assert Sum([b[j]]) == Amount(b[j]);
    }
  }
}
