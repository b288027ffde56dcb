/**
 * Client code that relies only on the contracts of the page object and the
 * scope: five pages of a 23-row collection with 5 rows on page 1 and 10 on
 * every later page, and the effect of an oversized batch.
 */
module Scenarios {
  import opened Wrappers
  import Php
  import Paginator
  import Paginated

  method FirstPage(rows: seq<int>)
    requires |rows| == 5
  {
    var call := Paginated.Call(Some(5), Some(10), "page", Some(1));
    var env := Paginated.Env(1, "/items/", None, 15);
    var p, w := Paginated.PreviewPaginate(call, env, 23, rows);
    assert w == Paginated.Window(0, 5);
    assert p.items == rows;
    assert p.FirstItem() == 1 && p.LastItem() == Some(5);
    assert p.HasMorePages();
    Php.RTrimUnique("/items/", '/', "/items");
    assert p.path == "/items";
  }

  method MiddlePage(rows: seq<int>)
    requires |rows| == 10
  {
    var call := Paginated.Call(Some(5), Some(10), "page", Some(2));
    var env := Paginated.Env(1, "/", None, 15);
    var p, w := Paginated.PreviewPaginate(call, env, 23, rows);
    assert w == Paginated.Window(5, 10);
    assert p.FirstItem() == 6 && p.LastItem() == Some(15);
    assert p.HasMorePages();
    assert p.path == "/";
  }

  method LastPage(rows: seq<int>)
    requires |rows| == 8
  {
    var call := Paginated.Call(Some(5), Some(10), "page", Some(3));
    var env := Paginated.Env(1, "/", None, 15);
    var p, w := Paginated.PreviewPaginate(call, env, 23, rows);
    assert w == Paginated.Window(15, 10);
    assert p.FirstItem() == 16 && p.LastItem() == Some(23);
    assert !p.HasMorePages();
    var r := p.ToArray(page => "/?page=" + (if page == 1 then "1" else "n"));
    assert r.nextPageUrl == None && r.from == 16 && r.to == Some(23) && r.perPage == 10;
  }

  method EmptyCollection()
  {
    var p := new Paginator.PreviewPaginator<int>([], 0, 5, 10, Some(4), map[], 1);
    assert p.FirstItem() == 26 && p.LastItem() == None;
    assert !p.HasMorePages();
    assert p.path == "/" && p.pageName == "page";
  }

  method OverrideHasMore(rows: seq<int>, url: int -> string)
    requires |rows| == 8
  {
    var p := new Paginator.PreviewPaginator(rows, 23, 5, 10, Some(3), map[], 1);
    assert p.ToArray(url).nextPageUrl == None;
    var self := p.HasMorePagesWhen();
    assert p.HasMorePages();
    assert p.ToArray(url).nextPageUrl == Some(url(4));
    assert p.LastItem() == Some(23);
  }

  /**
   * A batch of 50 rows on page 1 of a 50-row collection is cut to 5 rows,
   * but `hasMore` was decided on all 50 (last item 50, not below 50), so
   * the page reports no more pages.
   */
  method OversizedFirstPage(rows: seq<int>)
    requires |rows| == 50
  {
    var p := new Paginator.PreviewPaginator(rows, 50, 5, 10, None, map[], 0);
    assert p.currentPage == 1 && p.items == rows[..5];
    assert p.LastItem() == Some(5);
    assert !p.HasMorePages();
  }
}
