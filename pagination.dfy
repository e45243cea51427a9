/** The page arithmetic shared by the ticket, lead and task list handlers:
    skip = (page - 1) * limit, totalPages = ceil(total / limit), hasNext = page < totalPages,
    hasPrev = page > 1, and the `.skip(skip).limit(limit)` slice. */
module Pagination {

  const DefaultPage: nat := 1
  const DefaultLimit: nat := 10

  datatype PageInfo = PageInfo(currentPage: nat, totalPages: nat, total: nat, hasNext: bool, hasPrev: bool)

  function Min(a: nat, b: nat): nat {
    if a <= b then a else b
  }

  function Skip(page: nat, limit: nat): nat
    requires page >= 1
  {
    (page - 1) * limit
  }

  /** `Math.ceil(total / limit)`: the least number of pages of `limit` items that hold `total`. */
  function TotalPages(total: nat, limit: nat): (r: nat)
    requires limit >= 1
    ensures r * limit >= total
    ensures r > 0 ==> (r - 1) * limit < total
    ensures r == 0 <==> total == 0
  {
    var r := (total + limit - 1) / limit;
    assert r * limit + (total + limit - 1) % limit == total + limit - 1;
    r
  }

  function Paginate(page: nat, limit: nat, total: nat): PageInfo
    requires page >= 1 && limit >= 1
  {
    var pages := TotalPages(total, limit);
    PageInfo(page, pages, total, page < pages, page > 1)
  }

  /** `.skip((page - 1) * limit).limit(limit)` applied to the sorted matches. */
  function PageSlice<T>(s: seq<T>, page: nat, limit: nat): (r: seq<T>)
    requires page >= 1
    ensures |r| <= limit
    ensures |r| == if Skip(page, limit) >= |s| then 0 else Min(limit, |s| - Skip(page, limit))
    ensures forall i :: 0 <= i < |r| ==> Skip(page, limit) + i < |s| && r[i] == s[Skip(page, limit) + i]
  {
    s[Min(Skip(page, limit), |s|)..Min(Skip(page, limit) + limit, |s|)]
  }

  lemma MulMono(a: nat, b: nat, c: nat)
    requires a <= b
    ensures a * c <= b * c
  {
  }

  /** hasNext holds exactly when some match lies beyond the current page. */
  lemma HasNextIffMoreItems(page: nat, limit: nat, total: nat)
    requires page >= 1 && limit >= 1
    ensures Paginate(page, limit, total).hasNext <==> page * limit < total
    ensures Paginate(page, limit, total).hasPrev <==> Skip(page, limit) > 0
  {
    var pages := TotalPages(total, limit);
    if page < pages {
      MulMono(page, pages - 1, limit);
    } else {
      MulMono(pages, page, limit);
    }
    if page > 1 {
      MulMono(1, page - 1, limit);
    }
  }

  /** A page at or before the last one is non-empty; every page after it is empty. */
  lemma PageEmptyIffPastLast<T>(s: seq<T>, page: nat, limit: nat)
    requires page >= 1 && limit >= 1
    ensures PageSlice(s, page, limit) == [] <==> page > TotalPages(|s|, limit)
  {
    var pages := TotalPages(|s|, limit);
    if page > pages {
      MulMono(pages, page - 1, limit);
    } else if pages > 0 {
      MulMono(page - 1, pages - 1, limit);
    }
  }

  /** Item k of the sorted matches is item k % limit of page k / limit + 1, and that page
      exists. */
  lemma ItemOnItsPage<T>(s: seq<T>, limit: nat, k: nat)
    requires limit >= 1 && k < |s|
    ensures 1 <= k / limit + 1 <= TotalPages(|s|, limit)
    ensures k % limit < |PageSlice(s, k / limit + 1, limit)|
    ensures PageSlice(s, k / limit + 1, limit)[k % limit] == s[k]
  {
    var p := k / limit + 1;
    assert Skip(p, limit) == (k / limit) * limit;
    assert (k / limit) * limit + k % limit == k;
    var pages := TotalPages(|s|, limit);
    if p > pages {
      MulMono(pages, p - 1, limit);
    }
  }

  /** Pages 1..n laid end to end. */
  function PagesUpTo<T>(s: seq<T>, limit: nat, n: nat): seq<T>
    requires limit >= 1
  {
    if n == 0 then [] else PagesUpTo(s, limit, n - 1) + PageSlice(s, n, limit)
  }

  lemma {:induction false} PagesUpToPrefix<T>(s: seq<T>, limit: nat, n: nat)
    requires limit >= 1
    ensures PagesUpTo(s, limit, n) == s[..Min(n * limit, |s|)]
  {
    if n > 0 {
      PagesUpToPrefix(s, limit, n - 1);
      assert (n - 1) * limit + limit == n * limit;
      var lo := Min((n - 1) * limit, |s|);
      var hi := Min(n * limit, |s|);
      assert PageSlice(s, n, limit) == s[lo..hi];
      assert s[..lo] + s[lo..hi] == s[..hi];
    }
  }

  /** The pages 1..totalPages list every match once, in order: nothing is skipped or repeated. */
  lemma PagesCoverAll<T>(s: seq<T>, limit: nat)
    requires limit >= 1
    ensures PagesUpTo(s, limit, TotalPages(|s|, limit)) == s
  {
    PagesUpToPrefix(s, limit, TotalPages(|s|, limit));
  }
}
