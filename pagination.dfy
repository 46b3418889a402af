/** The page arithmetic shared by the list endpoints (`getAll` of evraklar,
 *  krediler and cariler, and `getEvraklar` of cariler): `offset = (page-1)*limit`
 *  and `totalPages = Math.ceil(total / limit)`, the rows of one page being
 *  SQL's `LIMIT limit OFFSET offset` over the ordered result. */
module Pagination {

  function Offset(page: int, limit: int): int
  {
    (page - 1) * limit
  }

  /** `Math.ceil(total / limit)` on non-negative integers. */
  function TotalPages(total: nat, limit: nat): (n: nat)
    requires limit > 0
    ensures n * limit >= total
    ensures n == 0 || (n - 1) * limit < total
  {
    (total + limit - 1) / limit
  }

  /** `LIMIT limit OFFSET offset` applied to the ordered rows. */
  function PageRows<T>(rows: seq<T>, page: int, limit: nat): (r: seq<T>)
    requires page >= 1
    ensures |r| <= limit
    ensures r != [] ==> 0 <= Offset(page, limit) && Offset(page, limit) + |r| <= |rows|
    ensures Offset(page, limit) <= |rows| ==> |r| == if |rows| - Offset(page, limit) < limit then |rows| - Offset(page, limit) else limit
    ensures forall k :: 0 <= k < |r| ==> r[k] == rows[Offset(page, limit) + k]
  {
    var from := Offset(page, limit);
    if from >= |rows| then []
    else if |rows| - from <= limit then rows[from..]
    else rows[from..from + limit]
  }

  /** There are no pages exactly when there are no rows. */
  lemma NoPagesIffEmpty(total: nat, limit: nat)
    requires limit > 0
    ensures TotalPages(total, limit) == 0 <==> total == 0
  {
  }

  /** Every row lies on exactly one page numbered 1..totalPages. */
  lemma RowOnItsPage(total: nat, limit: nat, k: nat)
    requires limit > 0 && k < total
    ensures var p := k / limit + 1;
      1 <= p <= TotalPages(total, limit) && Offset(p, limit) <= k < Offset(p, limit) + limit
  {
    var p := k / limit + 1;
    var n := TotalPages(total, limit);
    assert Offset(p, limit) == (k / limit) * limit;
    assert (k / limit) * limit <= k < (k / limit) * limit + limit;
    CancelFactor(n, k / limit, limit);
  }

  lemma CancelFactor(a: int, b: int, l: int)
    requires l > 0 && a * l > b * l
    ensures a > b
  {
    assert (a - b) * l == a * l - b * l;
  }

  /** The last page is the only one that may be partial; pages past the
   *  last are empty. */
  lemma PagesPastTheEndEmpty<T>(rows: seq<T>, page: int, limit: nat)
    requires limit > 0 && page > TotalPages(|rows|, limit)
    ensures PageRows(rows, page, limit) == []
  {
    var n := TotalPages(|rows|, limit);
    assert (page - 1) * limit >= n * limit by {
      assert page - 1 >= n;
    }
  }
}
