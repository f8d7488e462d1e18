/** Reading some rows of a table, in order. */
module Projection {

  /** What each row contributes, one after another. */
  function Project<T, X>(rows: seq<T>, f: T -> seq<X>): seq<X> {
    if |rows| == 0 then [] else Project(rows[..|rows| - 1], f) + f(rows[|rows| - 1])
  }

  /** The same where a row's number counts. */
  function Numbered<T, X>(rows: seq<T>, f: (nat, T) -> seq<X>): seq<X> {
    if |rows| == 0 then [] else Numbered(rows[..|rows| - 1], f) + f(|rows| - 1, rows[|rows| - 1])
  }

  lemma ProjectSnoc<T, X>(rows: seq<T>, r: T, f: T -> seq<X>)
    ensures Project(rows + [r], f) == Project(rows, f) + f(r)
  {
    assert (rows + [r])[..|rows|] == rows;
  }

  lemma NumberedSnoc<T, X>(rows: seq<T>, r: T, f: (nat, T) -> seq<X>)
    ensures Numbered(rows + [r], f) == Numbered(rows, f) + f(|rows|, r)
  {
    assert (rows + [r])[..|rows|] == rows;
  }

  /** Rows that contribute nothing. */
  lemma {:induction false} ProjectSilent<T, X>(rows: seq<T>, rows': seq<T>, f: T -> seq<X>)
    requires rows <= rows' && forall i :: |rows| <= i < |rows'| ==> f(rows'[i]) == []
    ensures Project(rows', f) == Project(rows, f)
    decreases |rows'|
  {
    if |rows| == |rows'| {
      assert rows == rows';
    } else {
      ProjectSilent(rows, rows'[..|rows'| - 1], f);
    }
  }

  lemma {:induction false} NumberedAgree<T, X>(rows: seq<T>, rows': seq<T>, f: (nat, T) -> seq<X>)
    requires |rows| == |rows'| && forall i: nat :: i < |rows| ==> f(i, rows'[i]) == f(i, rows[i])
    ensures Numbered(rows', f) == Numbered(rows, f)
  {
    if |rows| > 0 {
      NumberedAgree(rows[..|rows| - 1], rows'[..|rows| - 1], f);
    }
  }
}
