/** Paged listings: getPaged reads pages until hasNextPage says there are no more. */
module Paging {
  import opened Values

  const PAGE: nat := 100

  /** Page `page`, counted from 1, of a server that holds a fixed list. */
  function Page<T>(list: seq<T>, page: nat): seq<T>
    requires page >= 1
  {
    list[Min((page - 1) * PAGE, |list|)..Min(page * PAGE, |list|)]
  }

  function Min(a: int, b: int): int { if a <= b then a else b }

  function Take<T>(list: seq<T>, count: nat): seq<T> { list[..Min(count, |list|)] }

  /** hasNextPage; None is a missing or unreadable X-Total-Count. */
  predicate HasNextPage(total: Option<int>, current: nat, fetched: nat) {
    match total
    case Some(t) => fetched < t
    case None => current == PAGE
  }

  function CeilPages(t: int): nat { if t <= PAGE then 1 else (t + PAGE - 1) / PAGE }

  /** How many requests a listing of n items needs, or None when it never ends. */
  function Needed(n: nat, total: Option<int>): Option<nat> {
    match total
    case None => Some(n / PAGE + 1)
    case Some(t) => if t <= n then Some(CeilPages(t)) else None
  }

  /**
   getPaged against a server that answers `budget` requests and fails the next one; a failure returns no partial list.
   */
  method GetPaged<T>(list: seq<T>, total: Option<int>, budget: nat) returns (out: Option<seq<T>>, requests: nat)
    ensures out.Some? <==> Needed(|list|, total).Some? && Needed(|list|, total).value <= budget
    ensures out.Some? ==> requests == Needed(|list|, total).value && out.value == Take(list, requests * PAGE)
    ensures out.None? ==> requests == budget
  {
    var items: seq<T> := [];
    requests := 0;
    while true
      invariant requests <= budget && items == Take(list, requests * PAGE)
      invariant Needed(|list|, total).Some? ==> requests < Needed(|list|, total).value
      decreases budget - requests
    {
      if requests == budget { return None, requests; }
      requests := requests + 1;
      var current := Page(list, requests);
      PageExtends(list, requests);
      NextExactlyWhenNeeded(|list|, total, requests);
      items := items + current;
      if !HasNextPage(total, |current|, |items|) { return Some(items), requests; }
    }
  }

  lemma PageExtends<T>(list: seq<T>, page: nat)
    requires page >= 1
    ensures Take(list, (page - 1) * PAGE) + Page(list, page) == Take(list, page * PAGE)
    ensures |Take(list, page * PAGE)| == Min(page * PAGE, |list|)
    ensures |Page(list, page)| == PAGE <==> page * PAGE <= |list|
  {
  }

  /** After page p, more is asked for exactly when the count of pages needed is not reached. */
  lemma NextExactlyWhenNeeded(n: nat, total: Option<int>, p: nat)
    requires p >= 1
    requires Needed(n, total).Some? ==> p <= Needed(n, total).value
    ensures var fetched := Min(p * PAGE, n);
            var current := fetched - Min((p - 1) * PAGE, n);
            HasNextPage(total, current, fetched) <==> Needed(n, total) != Some(p)
  {
    match total
    case None =>
    case Some(t) =>
      if t <= n && t > PAGE {
        assert CeilPages(t) * PAGE >= t > (CeilPages(t) - 1) * PAGE;
        if p < CeilPages(t) { assert p * PAGE <= (CeilPages(t) - 1) * PAGE; }
      }
  }

  /**
   Without a count the whole list arrives, in floor(n/100) + 1 requests; with the right count in max(1, ceil(n/100)).
   */
  lemma WholeListArrives<T>(list: seq<T>)
    ensures Take(list, Needed(|list|, None).value * PAGE) == list && Needed(|list|, None) == Some(|list| / PAGE + 1)
    ensures Take(list, Needed(|list|, Some(|list|)).value * PAGE) == list
    ensures Needed(|list|, Some(|list|)) == Some(if |list| == 0 then 1 else (|list| + PAGE - 1) / PAGE)
  {
  }

  /**
   A constant count t gives the whole list exactly when the pages it asks for cover it, and never ends exactly when t
   exceeds n.
   */
  lemma ConstantCount<T>(list: seq<T>, t: int)
    ensures Needed(|list|, Some(t)).None? <==> t > |list|
    ensures 1 <= t <= |list| ==> Needed(|list|, Some(t)).value == (t + PAGE - 1) / PAGE
    ensures t <= |list| ==>
        (Take(list, Needed(|list|, Some(t)).value * PAGE) == list <==> |list| <= CeilPages(t) * PAGE)
  {
    if t <= |list| && |list| > CeilPages(t) * PAGE { assert |Take(list, CeilPages(t) * PAGE)| < |list|; }
  }
}
