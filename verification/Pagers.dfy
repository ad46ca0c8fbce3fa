/** The two pagers: by offset with a reported total, and by page with a short page at the end. */
module Pagers {
  import opened Options

  datatype Fetch<E> = Fetched(entities: seq<E>) | Failed

  function Min(a: int, b: int): int {
    if a < b then a else b
  }

  /** What a server holding `all` returns for `length` entities from `offset` on. */
  function Page<E>(all: seq<E>, offset: nat, length: nat): seq<E> {
    all[Min(offset, |all|)..Min(offset + length, |all|)]
  }

  lemma NextPage<E>(all: seq<E>, offset: nat, length: nat)
    ensures all[..Min(offset, |all|)] + Page(all, offset, length) == all[..Min(offset + length, |all|)]
  {
  }

  // ----- by offset

  /** `k` is the least number of calls, at least one, with `n <= limit + (k - 1) * length`. */
  predicate LeastCalls(n: nat, limit: nat, length: nat, k: nat) {
    k >= 1 && n <= limit + (k - 1) * length && (k > 1 ==> n > limit + (k - 2) * length)
  }

  lemma OneLeast(n: nat, limit: nat, length: nat, a: nat, b: nat)
    requires LeastCalls(n, limit, length, a) && LeastCalls(n, limit, length, b)
    ensures a == b
  {
    if a < b {
      MoreCallsReachFurther(length, a - 1, b - 2);
    } else if b < a {
      MoreCallsReachFurther(length, b - 1, a - 2);
    }
  }

  lemma {:induction false} MoreCallsReachFurther(length: nat, a: int, b: int)
    requires 0 <= a <= b
    ensures a * length <= b * length
    decreases b - a
  {
    if a < b {
      MoreCallsReachFurther(length, a, b - 1);
      assert b * length == (b - 1) * length + length;
    }
  }

  /**
   `ResourceAPI.list_all`. Calls in `down` fail; a failed call loses what was fetched before. A page
   length of zero is only safe when one call is enough.
   */
  method ListAll<E>(all: seq<E>, limit: nat, length: nat, down: set<nat>) returns (result: Fetch<E>, calls: nat)
    requires length >= 1 || |all| <= limit
    ensures result.Fetched? <==> forall c | 0 <= c < Needed(|all|, limit, length) :: c !in down
    ensures result.Fetched? ==>
              LeastCalls(|all|, limit, length, calls) && result.entities == all[..Min(|all|, calls * length)]
    ensures result.Failed? ==>
              && 1 <= calls <= Needed(|all|, limit, length)
              && calls - 1 in down && forall c | 0 <= c < calls - 1 :: c !in down
  {
    ghost var need := Needed(|all|, limit, length);
    var final: seq<E> := [];
    var offset := 0;
    calls := 0;
    while true
      invariant calls < need && offset == calls * length
      invariant final == all[..Min(offset, |all|)]
      invariant calls > 0 ==> |all| > limit + (calls - 1) * length
      invariant forall c | 0 <= c < calls :: c !in down
      decreases need - calls
    {
      if calls in down {
        return Failed, calls + 1;
      }
      NextPage(all, offset, length);
      final := final + Page(all, offset, length);
      calls := calls + 1;
      assert calls * length == offset + length;
      if |all| <= limit + offset {
        StopsAt(|all|, limit, length, calls, need);
        break;
      }
      offset := offset + length;
    }
    result := Fetched(final);
  }

  lemma StopsAt(n: nat, limit: nat, length: nat, calls: nat, need: nat)
    requires LeastCalls(n, limit, length, need) && 1 <= calls <= need && n <= limit + (calls - 1) * length
    ensures calls == need
  {
    if calls < need {
      MoreCallsReachFurther(length, calls - 1, need - 2);
    }
  }

  lemma {:induction false} FindNeeded(n: nat, limit: nat, length: nat, k: nat) returns (need: nat)
    requires length >= 1 || n <= limit
    requires k >= 1 && (k > 1 ==> n > limit + (k - 2) * length)
    ensures LeastCalls(n, limit, length, need)
    decreases n - (k - 1) * length
  {
    if n <= limit + (k - 1) * length {
      need := k;
    } else {
      assert (k + 1 - 1) * length == (k - 1) * length + length;
      need := FindNeeded(n, limit, length, k + 1);
    }
  }

  ghost function Needed(n: nat, limit: nat, length: nat): (k: nat)
    requires length >= 1 || n <= limit
    ensures LeastCalls(n, limit, length, k)
  {
    assert exists k :: LeastCalls(n, limit, length, k) by {
      var k := FindNeeded(n, limit, length, 1);
    }
    var k :| LeastCalls(n, limit, length, k);
    k
  }

  /** How many of `n` entities the offset pager returns. */
  ghost function Retrieved(n: nat, limit: nat, length: nat): (r: nat)
    requires length >= 1 || n <= limit
    ensures r <= n
  {
    Min(n, Needed(n, limit, length) * length)
  }

  /** The offset pager is complete for every collection exactly when pages are at least as long as the limit. */
  lemma CompleteExactly(limit: nat, length: nat)
    requires length >= 1
    ensures (forall n: nat :: Retrieved(n, limit, length) == n) <==> length >= limit
  {
    if length >= limit {
      forall n: nat ensures Retrieved(n, limit, length) == n {
        var k := Needed(n, limit, length);
        assert k * length == (k - 1) * length + length;
      }
    } else {
      OneLeast(limit, limit, length, Needed(limit, limit, length), 1);
      assert Retrieved(limit, limit, length) == length;
    }
  }

  // ----- by page

  const LOWER_PAGE_LIMIT := 1
  const UPPER_PAGE_LIMIT := 100

  /** How many entities are wanted; a total of zero is no total. */
  function Wanted(n: nat, total: Option<nat>): nat {
    if total.Some? && total.value != 0 then Min(n, total.value) else n
  }

  /** How many calls the page pager makes. */
  function PageCalls(n: nat, limit: nat, total: Option<nat>): nat
    requires limit >= 1
  {
    if total.Some? && 1 <= total.value <= n then (total.value + limit - 1) / limit else n / limit + 1
  }

  lemma Quotient(n: nat, limit: nat, q: nat)
    requires limit >= 1 && q * limit <= n < q * limit + limit
    ensures n / limit == q
  {
    var d := n / limit;
    AtLeast(n, limit, q);
    assert d * limit <= n;
    assert (q + 1) * limit == q * limit + limit;
    if q + 1 <= d {
      MoreCallsReachFurther(limit, q + 1, d);
    }
  }

  /**
   `IAMV4ResourceAPI.list_all`. It returns exactly the first entities wanted, ends even when the
   collection fills its last page, and refuses limits the server does not take.
   */
  method ListPages<E>(all: seq<E>, limit: int, total: Option<nat>, down: set<nat>)
    returns (result: Fetch<E>, calls: nat)
    ensures limit < LOWER_PAGE_LIMIT || limit > UPPER_PAGE_LIMIT ==> result == Failed && calls == 0
    ensures LOWER_PAGE_LIMIT <= limit <= UPPER_PAGE_LIMIT ==>
              && (result.Fetched? <==> forall c | 0 <= c < PageCalls(|all|, limit, total) :: c !in down)
              && (result.Fetched? ==>
                    result.entities == all[..Wanted(|all|, total)] && calls == PageCalls(|all|, limit, total))
  {
    if limit < LOWER_PAGE_LIMIT || limit > UPPER_PAGE_LIMIT {
      return Failed, 0;
    }
    var fetched: seq<E> := [];
    var page, count := 0, 0;
    calls := 0;
    while true
      invariant page == calls && count == |fetched| == page * limit && count <= |all|
      invariant fetched == all[..count]
      invariant total.Some? && total.value != 0 ==> count < total.value
      invariant forall c | 0 <= c < calls :: c !in down
      decreases |all| - count
    {
      PagesLeft(|all|, limit, total, page);
      if page in down {
        return Failed, calls + 1;
      }
      var entities := Page(all, page * limit, limit);
      NextPage(all, page * limit, limit);
      if total.Some? && total.value != 0 && count + |entities| > total.value {
        entities := entities[..total.value - count];
      }
      fetched := fetched + entities;
      page := page + 1;
      assert page * limit == count + limit;
      count := count + |entities|;
      calls := calls + 1;
      if |entities| < limit || (total.Some? && total.value != 0 && count == total.value) {
        PagesDone(|all|, limit, total, page, count);
        break;
      }
    }
    result := Fetched(fetched);
  }

  /** While fewer entities than wanted came from full pages, another call is due. */
  lemma PagesLeft(n: nat, limit: nat, total: Option<nat>, page: nat)
    requires limit >= 1 && page * limit <= n
    requires total.Some? && total.value != 0 ==> page * limit < total.value
    ensures page < PageCalls(n, limit, total)
  {
    if total.Some? && 1 <= total.value <= n {
      Ceiling(total.value, limit, page);
    } else {
      AtLeast(n, limit, page);
    }
  }

  lemma AtLeast(n: nat, limit: nat, page: nat)
    requires limit >= 1 && page * limit <= n
    ensures page <= n / limit
  {
    var q := n / limit;
    assert n < q * limit + limit == (q + 1) * limit;
    if q < page {
      MoreCallsReachFurther(limit, q + 1, page);
    }
  }

  lemma Ceiling(t: nat, limit: nat, page: nat)
    requires limit >= 1 && page * limit < t
    ensures page < (t + limit - 1) / limit
  {
    assert (page + 1) * limit == page * limit + limit;
    AtLeast(t + limit - 1, limit, page + 1);
  }

  /** The page that stops the loop is the last one due. */
  lemma PagesDone(n: nat, limit: nat, total: Option<nat>, pages: nat, count: nat)
    requires limit >= 1 && pages >= 1 && (pages - 1) * limit <= n
    requires total.Some? && total.value != 0 ==> (pages - 1) * limit < total.value
    requires count == Min(Wanted(n, total), pages * limit)
    requires count - (pages - 1) * limit < limit || (total.Some? && total.value != 0 && count == total.value)
    ensures count == Wanted(n, total) && pages == PageCalls(n, limit, total)
  {
    assert pages * limit == (pages - 1) * limit + limit;
    if total.Some? && 1 <= total.value <= n {
      Quotient(total.value + limit - 1, limit, pages);
    } else {
      Quotient(n, limit, pages - 1);
    }
  }
}
