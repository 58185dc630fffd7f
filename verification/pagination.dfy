/** `get_paginated_items`: fetch pages 1, 2, 3, ... of a list endpoint,
    concatenate their items, stop on a count- and page-dependent condition,
    and cut the result to `count`. The server is a finite oracle: the k-th
    fetch is answered by `server[k - 1]`. */
module Pagination {
  import opened Wrappers
  import opened Http
  import opened Exceptions
  import opened BaseAdapter

  /** The part of a list response the loop reads: `items` and
      `pagination.total_pages`. */
  datatype Page = Page(items: seq<Json>, totalPages: int)

  type Server = seq<Response<Page>>

  /** The items of the first `k` responses, in fetch order. */
  function Gathered(server: Server, k: nat): seq<Json>
    requires k <= |server|
  {
    if k == 0 then [] else Gathered(server, k - 1) + server[k - 1].body.items
  }

  /** Python truthiness of `count`: `None` and `0` both mean "no limit" for
      the stop condition. */
  predicate CountIsSet(count: Option<nat>) {
    count.Some? && count.value > 0
  }

  /** The loop condition, evaluated with the already incremented `page`. */
  predicate KeepGoing(count: Option<nat>, gathered: nat, page: int, totalPages: int) {
    if CountIsSet(count) then gathered < count.value && page <= totalPages
    else page <= totalPages
  }

  /** The loop ends right after fetch `k`: it raised, or the condition failed. */
  predicate StopsAfter(server: Server, count: Option<nat>, k: nat)
    requires 1 <= k <= |server|
  {
    || !IsSuccess(server[k - 1].statusCode)
    || !KeepGoing(count, |Gathered(server, k)|, k + 1, server[k - 1].body.totalPages)
  }

  /** The oracle is long enough: the loop stops within it. */
  predicate Terminates(server: Server, count: Option<nat>) {
    exists k: nat :: 1 <= k <= |server| && StopsAfter(server, count, k)
  }

  /** `n` is the number of fetches the loop makes: the first stopping point. */
  predicate IsFetchCount(server: Server, count: Option<nat>, n: nat) {
    && 1 <= n <= |server|
    && StopsAfter(server, count, n)
    && forall j: nat :: 1 <= j < n ==> !StopsAfter(server, count, j)
  }

  /** The first fetch, from `k` on, after which the loop stops: the loop's
      exit found by trying `k`, `k + 1`, ... in turn. */
  function FirstStop(server: Server, count: Option<nat>, k: nat): (n: nat)
    requires 1 <= k <= |server|
    requires exists j: nat :: k <= j <= |server| && StopsAfter(server, count, j)
    ensures k <= n <= |server| && StopsAfter(server, count, n)
    ensures forall j: nat :: k <= j < n ==> !StopsAfter(server, count, j)
    decreases |server| - k
  {
    if StopsAfter(server, count, k) then k else FirstStop(server, count, k + 1)
  }

  /** The number of fetches the loop makes. */
  function FetchCount(server: Server, count: Option<nat>): nat
    requires Terminates(server, count)
  {
    FirstStop(server, count, 1)
  }

  /** The query parameters of the request for `page`: the caller's
      parameters (none when they are `None` or empty) with `page` set. */
  function PageParams(params: Option<Params>, page: int): Params {
    var base := if params.None? || |params.value| == 0 then map[] else params.value;
    base["page" := JInt(page)]
  }

  /** The request for `page` sets `page`, and every other parameter the
      caller passed is sent unchanged; nothing else is added. */
  lemma PageParamsKeepCallerKeys(params: Option<Params>, page: int)
    ensures "page" in PageParams(params, page) && PageParams(params, page)["page"] == JInt(page)
    ensures forall key :: key != "page" ==>
      (key in PageParams(params, page) <==> params.Some? && key in params.value)
    ensures forall key :: key != "page" && key in PageParams(params, page) ==>
      PageParams(params, page)[key] == params.value[key]
  {
  }

  /** The `get` request for `page`. */
  function PageRequest(a: Adapter, path: string, params: Option<Params>, page: int): HttpRequest {
    BuildRequest(a, path, "get", Some(PageParams(params, page)), None, None)
  }

  /** Fetch number `page`, answered by `resp`: a `get` of the page request
      whose decoded body is returned on 2xx. */
  function FetchPage(a: Adapter, path: string, params: Option<Params>, page: int,
                     resp: Response<Page>): (c: Call<Page>)
    ensures c.sent == PageRequest(a, path, params, page)
    ensures IsSuccess(resp.statusCode) ==> c.result == Success(resp.body)
    ensures !IsSuccess(resp.statusCode) ==> c.result == Failure(StatusError(resp.statusCode, resp.text))
  {
    Get(a, path, Some(PageParams(params, page)), (_: HttpRequest) => resp)
  }

  /** The requests of fetches 1 to `n`, in order. */
  function PageRequests(a: Adapter, path: string, params: Option<Params>, n: nat): (rs: seq<HttpRequest>)
    ensures |rs| == n
  {
    if n == 0 then [] else PageRequests(a, path, params, n - 1) + [PageRequest(a, path, params, n)]
  }

  /** Fetch `k` asks for page `k`, keeping every other caller parameter. */
  lemma {:induction false} PageRequestsAt(a: Adapter, path: string, params: Option<Params>, n: nat, k: nat)
    requires 1 <= k <= n
    ensures PageRequests(a, path, params, n)[k - 1] == PageRequest(a, path, params, k)
    ensures PageRequests(a, path, params, n)[k - 1].params == Some(PageParams(params, k))
  {
    if k < n {
      PageRequestsAt(a, path, params, n - 1, k);
    }
  }

  function Min(x: int, y: int): int {
    if x <= y then x else y
  }

  /** `items[:count]` for a non-negative or absent `count`. */
  function Truncate(items: seq<Json>, count: Option<nat>): (r: seq<Json>)
    ensures r <= items
    ensures count.None? ==> r == items
    ensures count.Some? ==> |r| == Min(count.value, |items|)
  {
    if count.None? || |items| <= count.value then items else items[..count.value]
  }

  /** What the caller's own `params` dictionary holds afterwards: a non-empty
      dictionary is updated in place, so it keeps the last page number. */
  function CallerParamsAfter(params: Option<Params>, lastPage: int): (p: Option<Params>)
    ensures params.None? ==> p.None?
    ensures params.Some? && |params.value| == 0 ==> p == params
    ensures params.Some? && |params.value| > 0 ==>
      p.Some? && p.value == PageParams(params, lastPage)
  {
    if params.Some? && |params.value| > 0 then Some(params.value["page" := JInt(lastPage)]) else params
  }

  /** The `while True` loop of `get_paginated_items`: fetch pages 1, 2, 3, ...
      until a fetch raises or the loop condition fails. Returns the requests
      sent, the items gathered, and the error of a fetch that raised. */
  method FetchPages(a: Adapter, path: string, count: Option<nat>, params: Option<Params>,
                    server: Server)
    returns (sent: seq<HttpRequest>, items: seq<Json>, failure: Option<Exc>)
    requires Terminates(server, count)
    ensures |sent| == FetchCount(server, count)
    ensures sent == PageRequests(a, path, params, |sent|)
    ensures failure.None? <==> IsSuccess(server[|sent| - 1].statusCode)
    ensures failure.None? ==> items == Gathered(server, |sent|)
    ensures failure.Some? ==>
      failure.value == StatusError(server[|sent| - 1].statusCode, server[|sent| - 1].text)
  {
    ghost var stop :| 1 <= stop <= |server| && StopsAfter(server, count, stop);
    items := [];
    var page := 1;
    sent := [];
    // The source also starts `total_pages` at 1; that value is never read.
    while true
      invariant 1 <= page <= stop
      invariant sent == PageRequests(a, path, params, page - 1)
      invariant items == Gathered(server, page - 1)
      invariant forall j: nat :: 1 <= j < page ==> !StopsAfter(server, count, j)
      decreases stop - page
    {
      var call := FetchPage(a, path, params, page, server[page - 1]);
      sent := sent + [call.sent];
      assert sent == PageRequests(a, path, params, page);
      if call.result.Failure? {
        assert StopsAfter(server, count, page);
        failure := Some(call.result.error);
        break;
      }
      items := items + call.result.value.items;
      var totalPages := call.result.value.totalPages;
      if !KeepGoing(count, |items|, page + 1, totalPages) {
        assert StopsAfter(server, count, page);
        failure := None;
        break;
      }
      page := page + 1;
    }
    FetchCountIsFirstStop(server, count, |sent|);
  }

  method GetPaginatedItems(a: Adapter, path: string, count: Option<nat>, params: Option<Params>,
                           server: Server)
    returns (sent: seq<HttpRequest>, outcome: Result<seq<Json>, Exc>, callerParams: Option<Params>)
    requires Terminates(server, count)
    ensures |sent| == FetchCount(server, count)
    ensures sent == PageRequests(a, path, params, |sent|)
    ensures IsSuccess(server[|sent| - 1].statusCode) ==>
      outcome == Success(Truncate(Gathered(server, |sent|), count))
    ensures !IsSuccess(server[|sent| - 1].statusCode) ==>
      outcome == Failure(StatusError(server[|sent| - 1].statusCode, server[|sent| - 1].text))
    ensures callerParams == CallerParamsAfter(params, |sent|)
  {
    var requests, items, failure := FetchPages(a, path, count, params, server);
    sent := requests;
    if failure.Some? {
      outcome := Failure(failure.value);
    } else {
      outcome := Success(Truncate(items, count));
    }
    callerParams := CallerParamsAfter(params, |sent|);
  }

  /** Items only accumulate: the items after `j` fetches are a prefix of the
      items after `k >= j` fetches. */
  lemma {:induction false} GatheredPrefix(server: Server, j: nat, k: nat)
    requires j <= k <= |server|
    ensures Gathered(server, j) <= Gathered(server, k)
    decreases k - j
  {
    if j < k {
      GatheredPrefix(server, j, k - 1);
      var g := Gathered(server, k - 1);
      assert Gathered(server, k) == g + server[k - 1].body.items;
      assert Gathered(server, j) <= g;
      assert g <= Gathered(server, k);
    }
  }

  /** The number of fetches is determined by the server and `count`: the
      search for the loop's exit finds exactly the first stopping point. */
  lemma FetchCountIsFirstStop(server: Server, count: Option<nat>, n: nat)
    requires Terminates(server, count)
    ensures IsFetchCount(server, count, n) <==> n == FetchCount(server, count)
  {
  }

  /** Without a count (or with `count` 0) the loop goes on while the page
      just fetched is below the `total_pages` that page reports, and stops
      after the first fetch that raised or reached it. */
  lemma UnsetCountStopRule(server: Server, count: Option<nat>, n: nat)
    requires !CountIsSet(count) && IsFetchCount(server, count, n)
    ensures forall i :: 0 <= i < n - 1 ==>
      IsSuccess(server[i].statusCode) && i + 1 < server[i].body.totalPages
    ensures !IsSuccess(server[n - 1].statusCode) || n >= server[n - 1].body.totalPages
  {
    forall i | 0 <= i < n - 1
      ensures IsSuccess(server[i].statusCode) && i + 1 < server[i].body.totalPages
    {
      assert !StopsAfter(server, count, i + 1);
    }
  }

  /** With a positive count the loop also stops once it holds `count` items:
      every fetch but the last started and ended with fewer than `count`
      items gathered, so no page is fetched after `count` items are in. */
  lemma SetCountStopRule(server: Server, count: Option<nat>, n: nat)
    requires CountIsSet(count) && IsFetchCount(server, count, n)
    ensures forall i :: 0 <= i < n - 1 ==>
      && IsSuccess(server[i].statusCode)
      && |Gathered(server, i + 1)| < count.value
      && i + 1 < server[i].body.totalPages
    ensures || !IsSuccess(server[n - 1].statusCode)
            || |Gathered(server, n)| >= count.value
            || n >= server[n - 1].body.totalPages
  {
    forall i | 0 <= i < n - 1
      ensures && IsSuccess(server[i].statusCode)
              && |Gathered(server, i + 1)| < count.value
              && i + 1 < server[i].body.totalPages
    {
      assert !StopsAfter(server, count, i + 1);
    }
  }

  /** `count=0` is falsy: it walks exactly the pages an absent count walks
      (and then returns nothing). */
  lemma ZeroCountFetchesLikeUnset(server: Server, n: nat)
    ensures IsFetchCount(server, Some(0), n) <==> IsFetchCount(server, None, n)
    ensures IsFetchCount(server, Some(0), n) ==> Truncate(Gathered(server, n), Some(0)) == []
  {
    assert forall j: nat :: 1 <= j <= |server| ==>
      (StopsAfter(server, Some(0), j) <==> StopsAfter(server, None, j));
  }

  /** Whatever stops the loop with a larger (or no) count also stops it
      with a smaller positive one. */
  lemma StopsAfterMonotone(server: Server, c1: Option<nat>, c2: Option<nat>, k: nat)
    requires CountIsSet(c1)
    requires !CountIsSet(c2) || c1.value <= c2.value
    requires 1 <= k <= |server|
    ensures StopsAfter(server, c2, k) ==> StopsAfter(server, c1, k)
  {
  }

  /** Asking for fewer items never fetches more pages, and a positive count
      never fetches more pages than no count at all. */
  lemma SmallerCountStopsNoLater(server: Server, c1: Option<nat>, c2: Option<nat>, n1: nat, n2: nat)
    requires CountIsSet(c1)
    requires !CountIsSet(c2) || c1.value <= c2.value
    requires IsFetchCount(server, c1, n1) && IsFetchCount(server, c2, n2)
    ensures n1 <= n2
  {
    StopsAfterMonotone(server, c1, c2, n2);
  }

  /** A server that answers every page successfully and consistently reports
      `total` pages is walked to its last page when no count is given, and
      the call returns every item of every page in page order. */
  lemma WholeListing(server: Server, total: nat)
    requires 1 <= total <= |server|
    requires forall j :: 0 <= j < total ==>
      IsSuccess(server[j].statusCode) && server[j].body.totalPages == total
    ensures IsFetchCount(server, None, total)
    ensures Truncate(Gathered(server, total), None) == Gathered(server, total)
  {
    forall j: nat | 1 <= j < total
      ensures !StopsAfter(server, None, j)
    {
      assert server[j - 1].body.totalPages == total;
    }
  }

  /** Ten items per page, three pages. */
  function TenItemPages(): Server {
    seq(3, p => Response(200, "", Page(seq(10, i => JInt(10 * p + i)), 3)))
  }

  /** Asking for five items of three ten-item pages fetches only the first
      page and returns its first five items. */
  lemma FiveOfThirty()
    ensures IsFetchCount(TenItemPages(), Some(5), 1)
    ensures Truncate(Gathered(TenItemPages(), 1), Some(5)) == seq(5, i => JInt(i))
  {
    var server := TenItemPages();
    assert server[0].body.items == seq(10, i => JInt(i));
    assert Gathered(server, 1) == Gathered(server, 0) + server[0].body.items;
    assert |Gathered(server, 1)| == 10;
  }
}
