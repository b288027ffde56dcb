/**
 * The query scope that fetches one page: it resolves the page number, the
 * initial quantity and the per-page count, computes the fetch window
 * (`skip`, `take`) under the asymmetric first-page rule, and hands the
 * fetched rows to a PreviewPaginator.
 *
 * The query builder's `count` and `get` are inputs here (the total and the
 * fetched rows), and so are the request's page number and path.
 */
module Paginated {
  import opened Wrappers
  import Php
  import Paginator

  /** The fallback initial quantity when the model sets none. */
  const DefaultInitialQuantity: int := 5

  /** The scope's own arguments. */
  datatype Call = Call(initialQuantity: Option<int>, perPage: Option<int>, pageName: string, currentPage: Option<int>)

  /**
   * What the scope learns from its surroundings: the page number and path
   * the request resolves to, and the model's initial quantity and per-page count.
   */
  datatype Env = Env(resolvedPage: int, resolvedPath: string, modelInitialQuantity: Option<int>, modelPerPage: int)

  /** The fetch range `[skip, skip + take)`. */
  datatype Window = Window(skip: int, take: int)

  /** The three numbers the scope hands to the paginator's constructor. */
  datatype PaginatorArgs = PaginatorArgs(initialQuantity: int, perPage: int, currentPage: Option<int>)

  /** `getInitialQuantity`: the model's initial quantity, or 5 when it is unset or 0. */
  function GetInitialQuantity(modelInitialQuantity: Option<int>): (r: int)
    ensures r != 0
    ensures Php.Truthy(modelInitialQuantity) ==> r == modelInitialQuantity.value
    ensures !Php.Truthy(modelInitialQuantity) ==> r == DefaultInitialQuantity
  {
    Php.Elvis(modelInitialQuantity, DefaultInitialQuantity)
  }

  /** The page number: the argument unless it is null or 0, then the request's. */
  function CurrentPage(call: Call, env: Env): (r: int)
    ensures Php.Truthy(call.currentPage) ==> r == call.currentPage.value
    ensures !Php.Truthy(call.currentPage) ==> r == env.resolvedPage
  {
    Php.Elvis(call.currentPage, env.resolvedPage)
  }

  /** The initial quantity: the argument unless null or 0, then the model's (never 0). */
  function InitialQuantity(call: Call, env: Env): (r: int)
    ensures r != 0
    ensures Php.Truthy(call.initialQuantity) ==> r == call.initialQuantity.value
    ensures !Php.Truthy(call.initialQuantity) ==> r == GetInitialQuantity(env.modelInitialQuantity)
  {
    Php.Elvis(call.initialQuantity, GetInitialQuantity(env.modelInitialQuantity))
  }

  /** The per-page count: the argument unless null or 0, then the model's. */
  function PerPage(call: Call, env: Env): (r: int)
    ensures Php.Truthy(call.perPage) ==> r == call.perPage.value
    ensures !Php.Truthy(call.perPage) ==> r == env.modelPerPage
  {
    Php.Elvis(call.perPage, env.modelPerPage)
  }

  /**
   * How many rows to fetch: the initial quantity on page 1, the per-page
   * count after; on a valid page number, the rows the page holds.
   */
  function Take(page: int, initialQuantity: int, perPage: int): (r: int)
    ensures page >= 1 ==>
              r == Paginator.ItemsBefore(page + 1, initialQuantity, perPage) - Paginator.ItemsBefore(page, initialQuantity, perPage)
  {
    if page == 1 then initialQuantity else perPage
  }

  /**
   * How many rows to pass over: none on page 1, then the first page and
   * the full pages between; on a valid page number, all the rows of the
   * pages before it.
   */
  function Skip(page: int, initialQuantity: int, perPage: int): (r: int)
    ensures page >= 1 ==> r == Paginator.ItemsBefore(page, initialQuantity, perPage)
  {
    if page == 1 then 0
    else if page >= 2 then
      Paginator.ItemsBeforeClosedForm(page, initialQuantity, perPage);
      initialQuantity + Take(page, initialQuantity, perPage) * (page - 2)
    else initialQuantity + Take(page, initialQuantity, perPage) * (page - 2)
  }

  /**
   * The window the scope asks the query builder for. For a page number of
   * at least 1 it is exactly that page's rows under the resolved sizes: it
   * starts after all rows of the earlier pages and ends where the next
   * page starts.
   */
  function FetchWindow(call: Call, env: Env): (w: Window)
    ensures var page := CurrentPage(call, env);
            page >= 1 ==>
              && w.skip == Paginator.ItemsBefore(page, InitialQuantity(call, env), PerPage(call, env))
              && w.skip + w.take == Paginator.ItemsBefore(page + 1, InitialQuantity(call, env), PerPage(call, env))
  {
    var page := CurrentPage(call, env);
    var initialQuantity := InitialQuantity(call, env);
    var perPage := PerPage(call, env);
    Window(Skip(page, initialQuantity, perPage), Take(page, initialQuantity, perPage))
  }

  /** Consecutive windows meet: each page's window ends where the next one's starts. */
  lemma WindowsTile(page: int, initialQuantity: int, perPage: int)
    requires page >= 1
    ensures Skip(page, initialQuantity, perPage) + Take(page, initialQuantity, perPage)
            == Skip(page + 1, initialQuantity, perPage)
  {
  }

  /** With positive sizes the offset strictly grows with the page number. */
  lemma {:induction false} SkipStrictlyIncreasing(m: int, n: int, initialQuantity: int, perPage: int)
    requires initialQuantity > 0 && perPage > 0
    requires 1 <= m < n
    ensures Skip(m, initialQuantity, perPage) < Skip(n, initialQuantity, perPage)
    decreases n - m
  {
    WindowsTile(n - 1, initialQuantity, perPage);
    if m < n - 1 {
      SkipStrictlyIncreasing(m, n - 1, initialQuantity, perPage);
    }
  }

  /** The page whose window holds the 0-based row `i`. */
  function PageOf(i: nat, initialQuantity: int, perPage: int): int
    requires initialQuantity > 0 && perPage > 0
  {
    if i < initialQuantity then 1 else 2 + (i - initialQuantity) / perPage
  }

  lemma PageOfContains(i: nat, initialQuantity: int, perPage: int)
    requires initialQuantity > 0 && perPage > 0
    ensures PageOf(i, initialQuantity, perPage) >= 1
    ensures var page := PageOf(i, initialQuantity, perPage);
            Skip(page, initialQuantity, perPage) <= i
            < Skip(page, initialQuantity, perPage) + Take(page, initialQuantity, perPage)
  {
    if i >= initialQuantity {
      var q := (i - initialQuantity) / perPage;
      assert i - initialQuantity == perPage * q + (i - initialQuantity) % perPage;
      assert Skip(q + 2, initialQuantity, perPage) == initialQuantity + perPage * q;
    }
  }

  /**
   * With positive sizes the windows partition the rows: row `i` lies in
   * the window of page `page` exactly when `page` is PageOf(i).
   */
  lemma WindowsPartition(i: nat, page: int, initialQuantity: int, perPage: int)
    requires initialQuantity > 0 && perPage > 0 && page >= 1
    ensures (Skip(page, initialQuantity, perPage) <= i
             < Skip(page, initialQuantity, perPage) + Take(page, initialQuantity, perPage))
            <==> page == PageOf(i, initialQuantity, perPage)
  {
    var home := PageOf(i, initialQuantity, perPage);
    PageOfContains(i, initialQuantity, perPage);
    if page < home {
      WindowsTile(page, initialQuantity, perPage);
      if page + 1 < home {
        SkipStrictlyIncreasing(page + 1, home, initialQuantity, perPage);
      }
    } else if home < page {
      WindowsTile(home, initialQuantity, perPage);
      if home + 1 < page {
        SkipStrictlyIncreasing(home + 1, page, initialQuantity, perPage);
      }
    }
  }

  /** The constructor arguments as the scope passes them: the raw `perPage` argument. */
  function ArgsAsWritten(call: Call, env: Env): (a: PaginatorArgs)
    requires call.perPage.Some?
    ensures a.perPage == call.perPage.value
    ensures a.initialQuantity == InitialQuantity(call, env) && a.currentPage == Some(CurrentPage(call, env))
  {
    PaginatorArgs(InitialQuantity(call, env), call.perPage.value, Some(CurrentPage(call, env)))
  }

  /** The constructor arguments with the resolved per-page count the window was computed from. */
  function Args(call: Call, env: Env): (a: PaginatorArgs)
    ensures a.perPage == PerPage(call, env)
    ensures a.initialQuantity == InitialQuantity(call, env) && a.currentPage == Some(CurrentPage(call, env))
  {
    PaginatorArgs(InitialQuantity(call, env), PerPage(call, env), Some(CurrentPage(call, env)))
  }

  /** `p` holds the numbers its constructor makes of the arguments `a`. */
  ghost predicate BuiltFrom<T>(p: Paginator.PreviewPaginator<T>, a: PaginatorArgs, env: Env)
    reads p
  {
    && p.initialQuantity == a.initialQuantity
    && p.perPage == a.perPage
    && p.currentPage == Paginator.PreviewPaginator<T>.SetCurrentPage(a.currentPage, env.resolvedPage)
  }

  /**
   * For a page number of at least 1, the window the scope fetches is the
   * one the paginator built from Args reports: its skip is the skipped
   * items, its take the page size, and skip + 1 the first item.
   */
  lemma WindowMatchesPaginator<T>(call: Call, env: Env, p: Paginator.PreviewPaginator<T>)
    requires CurrentPage(call, env) >= 1
    requires BuiltFrom(p, Args(call, env), env)
    ensures FetchWindow(call, env) == Window(p.SkippedItems(), p.PageSize())
    ensures FetchWindow(call, env).skip + 1 == p.FirstItem()
  {
  }

  /**
   * As written, past page 1 the fetched window and the paginator's numbers
   * agree exactly when the raw `perPage` argument is non-zero (or the
   * model's per-page count is itself 0).
   */
  lemma AsWrittenAgreesIffPerPageTruthy<T>(call: Call, env: Env, p: Paginator.PreviewPaginator<T>)
    requires call.perPage.Some? && CurrentPage(call, env) >= 2
    requires BuiltFrom(p, ArgsAsWritten(call, env), env)
    ensures FetchWindow(call, env) == Window(p.SkippedItems(), p.PageSize())
            <==> call.perPage.value != 0 || env.modelPerPage == 0
  {
  }

  /**
   * The concrete case: page 2, initial quantity 5, `perPage` 0 and a model
   * default of 15. The scope fetches rows 5..19, but the paginator's page
   * size is 0, so all 15 fetched rows are cut away.
   */
  lemma AsWrittenZeroPerPageDropsRows<T>(p: Paginator.PreviewPaginator<T>, fetched: seq<T>)
    requires BuiltFrom(p, ArgsAsWritten(Call(Some(5), Some(0), "page", Some(2)), Env(1, "/", None, 15)), Env(1, "/", None, 15))
    requires |fetched| == 15 && p.items == Php.Slice(fetched, p.PageSize())
    ensures FetchWindow(Call(Some(5), Some(0), "page", Some(2)), Env(1, "/", None, 15)) == Window(5, 15)
    ensures p.PageSize() == 0 && p.items == []
  {
  }

  /**
   * `scopePreviewPaginate` as written: computes the window, takes the rows
   * the builder returned for it, and passes the raw `perPage` on.
   */
  method PreviewPaginateAsWritten<T>(call: Call, env: Env, total: int, fetched: seq<T>)
    returns (p: Paginator.PreviewPaginator<T>, w: Window)
    requires call.perPage.Some?
    ensures w == FetchWindow(call, env)
    ensures fresh(p) && BuiltFrom(p, ArgsAsWritten(call, env), env) && p.Valid()
    ensures p.total == total && p.items == Php.Slice(fetched, p.PageSize())
    ensures p.hasMore == if |fetched| > 0 then p.FirstItem() + |fetched| - 1 < total else total != 0
    ensures p.pageName == call.pageName
    ensures p.path == Paginator.PreviewPaginator<T>.NormalizePath(env.resolvedPath)
  {
    w := FetchWindow(call, env);
    var a := ArgsAsWritten(call, env);
    var options := map["path" := env.resolvedPath, "pageName" := call.pageName];
    p := new Paginator.PreviewPaginator(fetched, total, a.initialQuantity, a.perPage, a.currentPage, options, env.resolvedPage);
  }

  /**
   * `scopePreviewPaginate` passing the resolved per-page count: the page
   * object then reports exactly the window that was fetched.
   */
  method PreviewPaginate<T>(call: Call, env: Env, total: int, fetched: seq<T>)
    returns (p: Paginator.PreviewPaginator<T>, w: Window)
    ensures w == FetchWindow(call, env)
    ensures fresh(p) && BuiltFrom(p, Args(call, env), env) && p.Valid()
    ensures p.total == total && p.items == Php.Slice(fetched, p.PageSize())
    ensures p.hasMore == if |fetched| > 0 then p.FirstItem() + |fetched| - 1 < total else total != 0
    ensures p.pageName == call.pageName
    ensures p.path == Paginator.PreviewPaginator<T>.NormalizePath(env.resolvedPath)
    ensures CurrentPage(call, env) >= 1 ==> w == Window(p.SkippedItems(), p.PageSize())
  {
    w := FetchWindow(call, env);
    var a := Args(call, env);
    var options := map["path" := env.resolvedPath, "pageName" := call.pageName];
    p := new Paginator.PreviewPaginator(fetched, total, a.initialQuantity, a.perPage, a.currentPage, options, env.resolvedPage);
    if CurrentPage(call, env) >= 1 {
      WindowMatchesPaginator(call, env, p);
    }
  }
}
