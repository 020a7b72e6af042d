/** The page/limit/skip computation shared by the list handlers of
    server/src/controllers/ and the window a query returns. */
module Paging {
  import opened Wrappers
  import Seqs
  import Store
  import Arith

  /** A query-string number after `parseInt`: `None` is `NaN`. */
  type QueryNumber = Option<int>

  /** `parseInt(x) || d`: `NaN` and 0 are falsy. */
  function OrDefault(x: QueryNumber, d: int): (r: int)
    ensures x.Some? && x.value != 0 ==> r == x.value
    ensures x.None? || x.value == 0 ==> r == d
    ensures r != 0 || d == 0
  {
    if x.Some? && x.value != 0 then x.value else d
  }

  datatype PageQuery = PageQuery(page: int, limit: int, skip: int)

  /** Page defaults to 1, limit to 10, and skip is (page - 1) * limit. */
  function ParseQuery(page: QueryNumber, limit: QueryNumber): (q: PageQuery)
    ensures q.page == OrDefault(page, 1) && q.limit == OrDefault(limit, 10)
    ensures q.skip == (q.page - 1) * q.limit
    ensures page.None? && limit.None? ==> q == PageQuery(1, 10, 0)
    ensures q.page != 0 && q.limit != 0
  {
    var p := OrDefault(page, 1);
    var l := OrDefault(limit, 10);
    PageQuery(p, l, (p - 1) * l)
  }

  /** How many documents `limit(l)` lets through: a negative limit counts as its
      absolute value. */
  function PageSize(l: int): (n: nat)
    ensures n == l || n == -l
  {
    if l < 0 then -l else l
  }

  datatype Listing<T> = Listing(items: seq<T>, page: int, limit: int, total: nat)

  /** The documents `skip(q.skip).limit(q.limit)` returns, echoing page, limit and
      the collection's size. A negative skip makes the database refuse the
      query; a negative limit is read as its absolute value. */
  function Window<T>(all: seq<T>, q: PageQuery): (r: Result<Listing<T>, Store.Failure>)
    ensures q.skip < 0 <==> r.Failure?
    ensures r.Success? ==>
              var n := PageSize(q.limit);
              && r.value.items == Seqs.Slice(all, q.skip, q.skip + n)
              && |r.value.items| <= n
              && r.value.page == q.page && r.value.limit == q.limit && r.value.total == |all|
  {
    if q.skip < 0 then Failure(Store.Thrown("skip must be non-negative"))
    else
      Success(Listing(Seqs.Slice(all, q.skip, q.skip + PageSize(q.limit)), q.page, q.limit, |all|))
  }

  /** Two consecutive pages together are the double-sized window from the
      first page's skip: pages neither overlap nor leave gaps. */
  lemma {:induction false} ConsecutivePages<T>(all: seq<T>, p: int, l: int)
    requires p >= 1 && l >= 1
    ensures var q1, q2 := ParseQuery(Some(p), Some(l)), ParseQuery(Some(p + 1), Some(l));
            Window(all, q1).Success? && Window(all, q2).Success?
            && Window(all, q1).value.items + Window(all, q2).value.items
               == Seqs.Slice(all, (p - 1) * l, (p + 1) * l)
  {
    var q1, q2 := ParseQuery(Some(p), Some(l)), ParseQuery(Some(p + 1), Some(l));
    assert q1.skip == (p - 1) * l && q2.skip == p * l;
    assert q2.skip == q1.skip + l && (p + 1) * l == q2.skip + l;
    Arith.MulLe(1, p, l);
    Seqs.SliceAdjacent(all, q1.skip, q2.skip, q2.skip + l);
  }
}
