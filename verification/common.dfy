/** Values shared by every query module: optional values, the errors the
    query layer raises, and the LIMIT / ordering vocabulary used to describe
    what the graph store hands back. */
module Common {

  datatype Option<T> = None | Some(value: T)

  /** The two exception classes the query layer can raise before or after a
      store round-trip. */
  datatype Error = ValueError(message: string) | TypeError(message: string)

  /** Either the list (or flag) an operation returns, or the exception it raises. */
  datatype Result<T> = Ok(value: T) | Err(error: Error)

  /** No element occurs twice (the effect of DISTINCT, or of a store that
      reports each match once). */
  predicate NoDuplicates<T(==)>(s: seq<T>) {
    forall i, j :: 0 <= i < j < |s| ==> s[i] != s[j]
  }

  /** Python's `lst[::-1]`. */
  function Reverse<T>(s: seq<T>): (r: seq<T>)
    ensures |r| == |s|
    ensures forall i :: 0 <= i < |s| ==> r[i] == s[|s| - 1 - i]
  {
    seq(|s|, i requires 0 <= i < |s| => s[|s| - 1 - i])
  }

  /** Reversing a non-empty sequence puts its head last. */
  lemma ReverseCons<T>(s: seq<T>)
    requires s != []
    ensures Reverse(s) == Reverse(s[1..]) + [s[0]]
  {
  }

  /** Reversing `a + b` when `a` has at most one element. */
  lemma ReverseAfterShort<T>(a: seq<T>, b: seq<T>)
    requires |a| <= 1
    ensures Reverse(a + b) == Reverse(b) + a
  {
  }

  /** The rows of a query with no ORDER BY that selects the rows in `all`,
      run with `LIMIT limit`: each selected row at most once, no more than
      `limit` of them, nothing unselected, and every selected row whenever
      fewer than `limit` came back. */
  ghost predicate Limited<R>(rows: seq<R>, all: iset<R>, limit: nat) {
    && NoDuplicates(rows)
    && |rows| <= limit
    && (forall r :: r in rows ==> r in all)
    && (|rows| < limit ==> forall r :: r in all ==> r in rows)
  }

  /** The rows of a query with neither ORDER BY nor LIMIT: every selected row, once. */
  ghost predicate Exactly<R>(rows: seq<R>, all: iset<R>) {
    && NoDuplicates(rows)
    && (forall r :: r in rows ==> r in all)
    && (forall r :: r in all ==> r in rows)
  }

  /** The rows are in non-increasing `rank` (`ORDER BY key DESC` ranks by
      the key, `ORDER BY key` by its negation); ties come in any order. */
  ghost predicate RankedDown<R>(rows: seq<R>, rank: R -> int) {
    forall i, j :: 0 <= i < j < |rows| ==> rank(rows[i]) >= rank(rows[j])
  }

  /** `ORDER BY ... LIMIT limit` over the selected rows: Limited, in rank
      order, and every selected row left out ranks no higher than the last
      row returned. */
  ghost predicate TopLimited<R>(rows: seq<R>, all: iset<R>, rank: R -> int, limit: nat) {
    && Limited(rows, all, limit)
    && RankedDown(rows, rank)
    && (forall r :: r in all && r !in rows && |rows| > 0 ==> rank(r) <= rank(rows[|rows| - 1]))
  }
}
