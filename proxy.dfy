/**
 * What every package's proxy file does beyond delegating to the SDK: the
 * package-level singleton, the page loop of `getAll…Fn` and the name lookup of
 * `get…IdByNameFn`. The SDK list endpoint is an oracle: `api(k)` is the response
 * to the k-th call (the first call is `api(0)`).
 */
module Proxy {
  import opened Wrappers

  // ---------------------------------------------------------------------------
  // The list endpoint
  // ---------------------------------------------------------------------------

  /** An error from the SDK. */
  datatype ApiError = HttpError(status: int) | NameNotFound(name: string)

  /** One response of the list endpoint: an error, or a page whose `Entities` may be nil. */
  datatype PageResponse<T> = PageError(err: ApiError) | Page(entities: Option<seq<T>>, pageCount: int)

  /** The entities a response carries; nil and errors carry none. */
  function Got<T>(r: PageResponse<T>): seq<T>
  {
    if r.Page? && r.entities.Some? then r.entities.value else []
  }

  /** `Entities == nil || len(*Entities) == 0`. */
  predicate EmptyPage<T>(r: PageResponse<T>)
  {
    r.Page? && |Got(r)| == 0
  }

  /** A page that carries at least one entity. */
  predicate FullPage<T>(r: PageResponse<T>)
  {
    r.Page? && |Got(r)| > 0
  }

  /** The outcome of `getAll…Fn`: the accumulated list, or the error that discarded it. */
  datatype ListResult<T> = ListOk(items: seq<T>) | ListErr(err: ApiError)

  /** A run of `getAll…Fn`: its outcome and how many times it called the endpoint. */
  datatype Run<T> = Run(result: ListResult<T>, calls: nat)

  /**
   * getAll…Fn: an error on the first call fails; a nil or empty first page gives
   * an empty list; otherwise the first page is followed by pages 2..PageCount.
   */
  function GetAllSpec<T>(api: nat -> PageResponse<T>): Run<T>
  {
    var first := api(0);
    if first.PageError? then Run(ListErr(first.err), 1)
    else if EmptyPage(first) then Run(ListOk([]), 1)
    else LaterPages(api, 2, first.pageCount, Got(first))
  }

  /**
   * The `for pageNum := 2; pageNum <= PageCount; pageNum++` loop, from `pageNum`
   * on, with `acc` accumulated so far; page `pageNum` is the call numbered
   * `pageNum - 1`. An error discards `acc`; an empty page ends the loop.
   */
  function LaterPages<T>(api: nat -> PageResponse<T>, pageNum: nat, count: int, acc: seq<T>): Run<T>
    requires pageNum >= 2
    decreases if pageNum <= count then count - pageNum + 1 else 0
  {
    if pageNum > count then Run(ListOk(acc), pageNum - 1)
    else
      var r := api(pageNum - 1);
      if r.PageError? then Run(ListErr(r.err), pageNum)
      else if EmptyPage(r) then Run(ListOk(acc), pageNum)
      else LaterPages(api, pageNum + 1, count, acc + Got(r))
  }

  /** getAll…Fn as the proxy runs it. */
  method GetAll<T>(api: nat -> PageResponse<T>) returns (r: ListResult<T>, calls: nat)
    ensures Run(r, calls) == GetAllSpec(api)
  {
    var first := api(0);
    calls := 1;
    if first.PageError? {
      return ListErr(first.err), calls;
    }
    if EmptyPage(first) {
      return ListOk([]), calls;
    }
    var all := Got(first);
    var pageNum := 2;
    while pageNum <= first.pageCount
      invariant pageNum >= 2 && calls == pageNum - 1
      invariant LaterPages(api, pageNum, first.pageCount, all) == GetAllSpec(api)
      decreases first.pageCount - pageNum + 1
    {
      var page := api(pageNum - 1);
      calls := calls + 1;
      if page.PageError? {
        return ListErr(page.err), calls;
      }
      if EmptyPage(page) {
        break;
      }
      all := all + Got(page);
      pageNum := pageNum + 1;
    }
    r := ListOk(all);
  }

  /** The entities of the calls numbered lo..hi-1, in call order. */
  function Concat<T>(api: nat -> PageResponse<T>, lo: nat, hi: nat): seq<T>
    decreases hi
  {
    if hi <= lo then [] else Concat(api, lo, hi - 1) + Got(api(hi - 1))
  }

  lemma {:induction false} ConcatCons<T>(api: nat -> PageResponse<T>, lo: nat, hi: nat)
    requires lo < hi
    ensures Concat(api, lo, hi) == Got(api(lo)) + Concat(api, lo + 1, hi)
    decreases hi
  {
    if lo + 1 < hi {
      ConcatCons(api, lo, hi - 1);
    }
  }

  // ---------------------------------------------------------------------------
  // Properties of the page loop
  // ---------------------------------------------------------------------------

  /** The loop never calls the endpoint more than once per page it was told about. */
  lemma {:induction false} LaterPagesCalls<T>(api: nat -> PageResponse<T>, pageNum: nat, count: int, acc: seq<T>)
    requires pageNum >= 2
    ensures pageNum - 1 <= LaterPages(api, pageNum, count, acc).calls
    ensures LaterPages(api, pageNum, count, acc).calls <= if count < pageNum - 1 then pageNum - 1 else count
    decreases if pageNum <= count then count - pageNum + 1 else 0
  {
    if pageNum <= count {
      var r := api(pageNum - 1);
      if !r.PageError? && !EmptyPage(r) {
        LaterPagesCalls(api, pageNum + 1, count, acc + Got(r));
      }
    }
  }

  /** getAll…Fn makes at most max(1, PageCount) calls. */
  lemma GetAllCalls<T>(api: nat -> PageResponse<T>)
    ensures GetAllSpec(api).calls >= 1
    ensures api(0).Page? ==> GetAllSpec(api).calls <= if api(0).pageCount < 1 then 1 else api(0).pageCount
  {
    if api(0).Page? && !EmptyPage(api(0)) {
      LaterPagesCalls(api, 2, api(0).pageCount, Got(api(0)));
    }
  }

  /** When every page up to `count` carries entities, the loop appends all of them, in order. */
  lemma {:induction false} LaterPagesAllFull<T>(api: nat -> PageResponse<T>, pageNum: nat, count: nat, acc: seq<T>)
    requires 2 <= pageNum <= count + 1
    requires forall k :: pageNum - 1 <= k < count ==> FullPage(api(k))
    ensures LaterPages(api, pageNum, count, acc) == Run(ListOk(acc + Concat(api, pageNum - 1, count)), count)
    decreases count - pageNum + 1
  {
    if pageNum <= count {
      ConcatCons(api, pageNum - 1, count);
      LaterPagesAllFull(api, pageNum + 1, count, acc + Got(api(pageNum - 1)));
      assert acc + Got(api(pageNum - 1)) + Concat(api, pageNum, count)
        == acc + (Got(api(pageNum - 1)) + Concat(api, pageNum, count));
    } else {
      assert acc + Concat(api, pageNum - 1, count) == acc;
    }
  }

  /** Every one of the PageCount pages carries entities: the result is all of them, in fetch order, after PageCount calls. */
  lemma GetAllAllPages<T>(api: nat -> PageResponse<T>)
    requires api(0).Page? && api(0).pageCount >= 1
    requires forall k :: 0 <= k < api(0).pageCount ==> FullPage(api(k))
    ensures GetAllSpec(api) == Run(ListOk(Concat(api, 0, api(0).pageCount)), api(0).pageCount)
  {
    var count := api(0).pageCount;
    assert FullPage(api(0));
    LaterPagesAllFull(api, 2, count, Got(api(0)));
    ConcatCons(api, 0, count);
  }

  /** The loop stops at the first empty page `j`, keeping what came before it. */
  lemma {:induction false} LaterPagesStop<T>(api: nat -> PageResponse<T>, pageNum: nat, count: int, acc: seq<T>, j: nat)
    requires 2 <= pageNum && pageNum - 1 <= j < count
    requires forall k :: pageNum - 1 <= k < j ==> FullPage(api(k))
    ensures EmptyPage(api(j)) ==> LaterPages(api, pageNum, count, acc) == Run(ListOk(acc + Concat(api, pageNum - 1, j)), j + 1)
    ensures api(j).PageError? ==> LaterPages(api, pageNum, count, acc) == Run(ListErr(api(j).err), j + 1)
    decreases j - (pageNum - 1)
  {
    if pageNum - 1 < j {
      ConcatCons(api, pageNum - 1, j);
      LaterPagesStop(api, pageNum + 1, count, acc + Got(api(pageNum - 1)), j);
      assert acc + Got(api(pageNum - 1)) + Concat(api, pageNum, j)
        == acc + (Got(api(pageNum - 1)) + Concat(api, pageNum, j));
    } else {
      assert acc + Concat(api, pageNum - 1, j) == acc;
    }
  }

  /**
   * A later page `j` (call number j, page j + 1) ends the loop: when it is empty
   * the pages before it are returned; when it fails everything accumulated is
   * discarded and its error returned. Either way j + 1 calls were made.
   */
  lemma GetAllStopsAt<T>(api: nat -> PageResponse<T>, j: nat)
    requires FullPage(api(0)) && 1 <= j < api(0).pageCount
    requires forall k :: 1 <= k < j ==> FullPage(api(k))
    ensures EmptyPage(api(j)) ==> GetAllSpec(api) == Run(ListOk(Concat(api, 0, j)), j + 1)
    ensures api(j).PageError? ==> GetAllSpec(api) == Run(ListErr(api(j).err), j + 1)
  {
    LaterPagesStop(api, 2, api(0).pageCount, Got(api(0)), j);
    ConcatCons(api, 0, j);
  }

  /** Whatever the later pages hold, a successful result starts with the first page. */
  lemma {:induction false} LaterPagesExtend<T>(api: nat -> PageResponse<T>, pageNum: nat, count: int, acc: seq<T>)
    requires pageNum >= 2
    ensures LaterPages(api, pageNum, count, acc).result.ListOk? ==>
      acc <= LaterPages(api, pageNum, count, acc).result.items
    decreases if pageNum <= count then count - pageNum + 1 else 0
  {
    if pageNum <= count {
      var r := api(pageNum - 1);
      if !r.PageError? && !EmptyPage(r) {
        LaterPagesExtend(api, pageNum + 1, count, acc + Got(r));
        assert acc <= acc + Got(r);
      }
    }
  }

  lemma GetAllStartsWithFirstPage<T>(api: nat -> PageResponse<T>)
    ensures GetAllSpec(api).result.ListOk? ==> Got(api(0)) <= GetAllSpec(api).result.items
  {
    if api(0).Page? && !EmptyPage(api(0)) {
      LaterPagesExtend(api, 2, api(0).pageCount, Got(api(0)));
    }
  }

  // ---------------------------------------------------------------------------
  // The page number that is never sent
  // ---------------------------------------------------------------------------

  /** The page size the loop declares (and never passes on). */
  const PageSize: nat := 100

  function PageCountOf(n: nat): nat
  {
    (n + PageSize - 1) / PageSize
  }

  function Min(a: int, b: int): int
  {
    if a < b then a else b
  }

  /** A server holding `all` that answers a request for page `n` (from 1) with that page. */
  function ServerPage<T>(all: seq<T>, n: nat): PageResponse<T>
  {
    var lo := Min((if n == 0 then 0 else n - 1) * PageSize, |all|);
    var hi := Min(n * PageSize, |all|);
    Page(Some(all[lo..hi]), PageCountOf(|all|))
  }

  /**
   * The loop as written: every call is the same request with no page number, so
   * a server that serves page 1 by default answers page 1 every time.
   */
  function GetAllAsWritten<T>(all: seq<T>): Run<T>
  {
    GetAllSpec(Unpaged(all))
  }

  /** The responses the loop as written receives from that server, call after call. */
  function Unpaged<T>(all: seq<T>): nat -> PageResponse<T>
  {
    (k: nat) => ServerPage(all, 1)
  }

  /** The responses it would receive if the call for page n asked for page n. */
  function Paged<T>(all: seq<T>): nat -> PageResponse<T>
  {
    (k: nat) => ServerPage(all, k + 1)
  }

  /** The loop as intended: the call for `pageNum` requests page `pageNum`. */
  function GetAllByPageNumber<T>(all: seq<T>): Run<T>
  {
    GetAllSpec(Paged(all))
  }

  function Repeat<T>(s: seq<T>, n: nat): (r: seq<T>)
    ensures |r| == n * |s|
  {
    if n == 0 then [] else Repeat(s, n - 1) + s
  }

  lemma {:induction false} ConcatConstant<T>(api: nat -> PageResponse<T>, r: PageResponse<T>, hi: nat)
    requires forall k :: 0 <= k < hi ==> api(k) == r
    ensures Concat(api, 0, hi) == Repeat(Got(r), hi)
  {
    if hi > 0 {
      ConcatConstant(api, r, hi - 1);
    }
  }

  /** As written, a list of more than one page comes back as its first page, PageCount times over. */
  lemma GetAllAsWrittenRepeats<T>(all: seq<T>)
    requires |all| > PageSize
    ensures GetAllAsWritten(all) == Run(ListOk(Repeat(all[..PageSize], PageCountOf(|all|))), PageCountOf(|all|))
  {
    var api := Unpaged(all);
    var count := PageCountOf(|all|);
    assert Got(api(0)) == all[..PageSize];
    GetAllAllPages(api);
    ConcatConstant(api, ServerPage(all, 1), count);
  }

  /** 101 distinct entities come back as 200 entries, the first 100 twice: entity 100 is never listed. */
  lemma GetAllAsWrittenLosesEntities()
    ensures var all := seq(101, i => i);
      GetAllAsWritten(all).result.ListOk? && 100 !in GetAllAsWritten(all).result.items
  {
    var all := seq(101, i => i);
    GetAllAsWrittenRepeats(all);
    assert PageCountOf(101) == 2;
    assert Repeat(all[..100], 2) == all[..100] + all[..100];
  }

  /** Page n of a non-empty list is non-empty exactly for n in 1..PageCount. */
  lemma ServerPageFull<T>(all: seq<T>, n: nat)
    requires 1 <= n <= PageCountOf(|all|)
    ensures FullPage(ServerPage(all, n))
  {
    assert (n - 1) * PageSize < |all|;
  }

  lemma {:induction false} ConcatServer<T>(all: seq<T>, hi: nat)
    requires hi <= PageCountOf(|all|)
    ensures Concat(Paged(all), 0, hi) == all[..Min(hi * PageSize, |all|)]
  {
    if hi > 0 {
      ConcatServer(all, hi - 1);
      var lo := Min((hi - 1) * PageSize, |all|);
      var up := Min(hi * PageSize, |all|);
      assert all[..lo] + all[lo..up] == all[..up];
    }
  }

  /** With the page number sent, every entity is listed once and in order, in PageCount calls. */
  lemma GetAllByPageNumberListsAll<T>(all: seq<T>)
    ensures GetAllByPageNumber(all).result == ListOk(all)
    ensures |all| > 0 ==> GetAllByPageNumber(all).calls == PageCountOf(|all|)
  {
    var api := Paged(all);
    var count := PageCountOf(|all|);
    if |all| > 0 {
      forall k | 0 <= k < count ensures FullPage(api(k)) {
        ServerPageFull(all, k + 1);
      }
      GetAllAllPages(api);
      ConcatServer(all, count);
      assert Min(count * PageSize, |all|) == |all|;
      assert all[..|all|] == all;
    } else {
      assert EmptyPage(api(0));
    }
  }

  // ---------------------------------------------------------------------------
  // Name lookup
  // ---------------------------------------------------------------------------

  /** A listed entity: its `Id` and `Name`, both dereferenced by the callers. */
  datatype Entity = Entity(id: string, name: string)

  /** The `(id, retryable, err)` triple of `get…IdByNameFn`. */
  datatype Lookup = Lookup(id: string, retryable: bool, err: Option<ApiError>)

  /** The index of the first entity named `name`, or |es| when there is none. */
  function FirstNamed(es: seq<Entity>, name: string): (i: nat)
    ensures i <= |es|
    ensures i < |es| ==> es[i].name == name
    ensures forall j :: 0 <= j < i ==> es[j].name != name
  {
    if es == [] then 0
    else if es[0].name == name then 0
    else 1 + FirstNamed(es[1..], name)
  }

  /**
   * get…IdByNameFn on one response of the list endpoint (it fetches only the
   * first page): an error is non-retryable; no entities is retryable with no
   * error; the first exact match gives its Id; no match is retryable with an error.
   */
  function IdByNameSpec(r: PageResponse<Entity>, name: string): Lookup
  {
    if r.PageError? then Lookup("", false, Some(r.err))
    else if EmptyPage(r) then Lookup("", true, None)
    else
      var es := Got(r);
      var i := FirstNamed(es, name);
      if i < |es| then Lookup(es[i].id, false, None)
      else Lookup("", true, Some(NameNotFound(name)))
  }

  /** get…IdByNameFn as the proxy runs it: a scan with early return. */
  method IdByName(r: PageResponse<Entity>, name: string) returns (id: string, retryable: bool, err: Option<ApiError>)
    ensures Lookup(id, retryable, err) == IdByNameSpec(r, name)
  {
    if r.PageError? {
      return "", false, Some(r.err);
    }
    if EmptyPage(r) {
      return "", true, None;
    }
    var es := Got(r);
    var n := 0;
    while n < |es|
      invariant 0 <= n <= |es|
      invariant forall j :: 0 <= j < n ==> es[j].name != name
    {
      if es[n].name == name {
        FirstNamedIs(es, name, n);
        return es[n].id, false, None;
      }
      n := n + 1;
    }
    FirstNamedIs(es, name, |es|);
    return "", true, Some(NameNotFound(name));
  }

  /** FirstNamed is pinned down by its contract. */
  lemma {:induction false} FirstNamedIs(es: seq<Entity>, name: string, i: nat)
    requires i <= |es|
    requires i < |es| ==> es[i].name == name
    requires forall j :: 0 <= j < i ==> es[j].name != name
    ensures FirstNamed(es, name) == i
  {
    if es != [] && es[0].name != name {
      FirstNamedIs(es[1..], name, i - 1);
    }
  }

  /**
   * The lookup succeeds (non-retryable, no error) exactly when some listed entity
   * has the name, and then its Id is the first such entity's Id.
   */
  lemma IdByNameFound(r: PageResponse<Entity>, name: string)
    ensures var l := IdByNameSpec(r, name);
      (!l.retryable && l.err.None?) <==> (r.Page? && exists e :: e in Got(r) && e.name == name)
    ensures var l := IdByNameSpec(r, name);
      !l.retryable && l.err.None? ==>
        exists i :: 0 <= i < |Got(r)| && Got(r)[i] == Entity(l.id, name)
          && forall j :: 0 <= j < i ==> Got(r)[j].name != name
  {
    if r.Page? && !EmptyPage(r) {
      var es := Got(r);
      var i := FirstNamed(es, name);
      if i < |es| {
        assert es[i] in es;
      } else {
        forall e | e in es ensures e.name != name {
          var j :| 0 <= j < |es| && es[j] == e;
        }
      }
    }
  }

  /** The three outcomes are told apart by the triple alone. */
  lemma IdByNameOutcomes(r: PageResponse<Entity>, name: string)
    ensures var l := IdByNameSpec(r, name);
      && (r.PageError? <==> (!l.retryable && l.err.Some?))
      && (EmptyPage(r) <==> (l.retryable && l.err.None?))
      && (l.retryable && l.err.Some? <==> (FullPage(r) && forall e :: e in Got(r) ==> e.name != name))
      && (l.retryable || l.err.Some? ==> l.id == "")
  {
    IdByNameFound(r, name);
  }

  // ---------------------------------------------------------------------------
  // The package-level singleton
  // ---------------------------------------------------------------------------

  /** The SDK client configuration handed to every callback. */
  class Configuration {
    constructor()
    {
    }
  }

  /** A package's proxy: built from a configuration, it keeps it. */
  class ApiProxy {
    const clientConfig: Configuration

    /** new…Proxy. */
    constructor(config: Configuration)
      ensures clientConfig == config
    {
      clientConfig := config;
    }
  }

  /** The package variable `internalProxy`, nil until the first getter call. */
  class ProxyCache {
    var internalProxy: ApiProxy?

    constructor()
      ensures internalProxy == null
    {
      internalProxy := null;
    }

    /**
     * get…Proxy: a proxy is built, from this configuration, only while none is
     * cached; afterwards the cached one is returned and the configuration ignored.
     */
    method GetProxy(config: Configuration) returns (p: ApiProxy)
      modifies this
      ensures old(internalProxy) == null ==> fresh(p) && p.clientConfig == config
      ensures old(internalProxy) != null ==> p == old(internalProxy)
      ensures internalProxy == p
    {
      if internalProxy == null {
        internalProxy := new ApiProxy(config);
      }
      p := internalProxy;
    }
  }

  /** Two getter calls, with any configurations, give the same instance, built from the first. */
  method GetProxyTwice(cache: ProxyCache, c1: Configuration, c2: Configuration) returns (p1: ApiProxy, p2: ApiProxy)
    modifies cache
    ensures p1 == p2 && cache.internalProxy == p1
    ensures old(cache.internalProxy) == null ==> p1.clientConfig == c1
  {
    p1 := cache.GetProxy(c1);
    p2 := cache.GetProxy(c2);
  }
}
