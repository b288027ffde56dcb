/**
 * The paginator page object: one page of items whose first page holds
 * `initialQuantity` items and every later page `perPage` items.
 *
 * The object is built once from an already fetched batch of items and the
 * total row count; its only mutator afterwards is HasMorePagesWhen. All the
 * numbers it reports (page size, first and last item, skipped items) are
 * read-only expressions over its fields.
 */
module Paginator {
  import opened Wrappers
  import Php

  /** The framework's defaults when the options carry no `path` or `pageName`. */
  const DefaultPath: string := "/"
  const DefaultPageName: string := "page"

  /**
   * Reference definition of the offset of a page: the number of items on
   * all pages before page `page`, summed page by page, where page 1 holds
   * `initialQuantity` items and every later page `perPage`.
   */
  function ItemsBefore(page: nat, initialQuantity: int, perPage: int): int {
    if page <= 1 then 0
    else ItemsBefore(page - 1, initialQuantity, perPage) + (if page - 1 == 1 then initialQuantity else perPage)
  }

  /** The page-by-page sum has the closed form the paginator computes. */
  lemma {:induction false} ItemsBeforeClosedForm(page: nat, initialQuantity: int, perPage: int)
    requires page >= 2
    ensures ItemsBefore(page, initialQuantity, perPage) == initialQuantity + (page - 2) * perPage
  {
    if page > 2 {
      ItemsBeforeClosedForm(page - 1, initialQuantity, perPage);
      assert (page - 2) * perPage == (page - 3) * perPage + perPage;
    }
  }

  /** The serialisable record `toArray` builds. */
  datatype PageRecord<T> = PageRecord(
    data: seq<T>,
    currentPage: int,
    path: string,
    firstPageUrl: string,
    prevPageUrl: Option<string>,
    nextPageUrl: Option<string>,
    perPage: int,
    initialQuantity: int,
    total: int,
    from: int,
    to: Option<int>
  )

  class PreviewPaginator<T> {
    var options: map<string, string>
    var path: string
    var pageName: string
    var items: seq<T>
    var total: int
    var initialQuantity: int
    var perPage: int
    var currentPage: int
    var hasMore: bool

    /**
     * What construction establishes and HasMorePagesWhen keeps: a valid page
     * number, a path without trailing slashes (except the root), and no
     * more items than the page holds.
     */
    ghost predicate Valid()
      reads this
    {
      && currentPage >= 1
      && (path == "/" || path == [] || path[|path| - 1] != '/')
      && (PageSize() >= 0 ==> |items| <= PageSize())
    }

    /**
     * Builds the page. `resolvedPage` stands for the page number the
     * request resolver would supply; `options` may carry `path` and
     * `pageName`. The stored items are the given ones cut down to the page
     * size, but `hasMore` is decided on the given items before the cut.
     */
    constructor (items: seq<T>, total: int, initialQuantity: int, perPage: int,
                 currentPage: Option<int>, options: map<string, string>, resolvedPage: int)
      ensures this.options == options
      ensures this.pageName == (if "pageName" in options then options["pageName"] else DefaultPageName)
      ensures this.path == NormalizePath(if "path" in options then options["path"] else DefaultPath)
      ensures this.total == total && this.initialQuantity == initialQuantity && this.perPage == perPage
      ensures this.currentPage == SetCurrentPage(currentPage, resolvedPage)
      ensures this.items == Php.Slice(items, PageSize())
      ensures hasMore == if |items| > 0 then FirstItem() + |items| - 1 < total else total != 0
      ensures Valid()
    {
      this.options := options;
      this.path := if "path" in options then options["path"] else DefaultPath;
      this.pageName := if "pageName" in options then options["pageName"] else DefaultPageName;
      this.initialQuantity := initialQuantity;
      this.total := total;
      this.perPage := perPage;
      new;
      this.currentPage := SetCurrentPage(currentPage, resolvedPage);
      this.path := NormalizePath(this.path);
      SetItems(items);
    }

    /** A page number is valid when it is at least 1. */
    static predicate IsValidPageNumber(page: int) {
      page >= 1
    }

    /**
     * `setCurrentPage`: a null or zero page falls back to the resolved page;
     * whatever is then below 1 becomes 1.
     */
    static function SetCurrentPage(currentPage: Option<int>, resolvedPage: int): (page: int)
      ensures page >= 1
      ensures Php.Truthy(currentPage) && currentPage.value >= 1 ==> page == currentPage.value
      ensures !Php.Truthy(currentPage) && resolvedPage >= 1 ==> page == resolvedPage
      ensures page != 1 ==> page == (if Php.Truthy(currentPage) then currentPage.value else resolvedPage)
    {
      var page := Php.Elvis(currentPage, resolvedPage);
      if IsValidPageNumber(page) then page else 1
    }

    /** The root path is kept; any other path loses all its trailing slashes. */
    static function NormalizePath(path: string): (r: string)
      ensures path == "/" ==> r == "/"
      ensures path != "/" ==> |r| <= |path| && r == path[..|r|]
      ensures path != "/" ==> r == [] || r[|r| - 1] != '/'
      ensures path != "/" ==> forall i :: |r| <= i < |path| ==> path[i] == '/'
    {
      if path != "/" then Php.RTrim(path, '/') else path
    }

    /** `setItems`: store the items, decide `hasMore`, then cut the items to the page size. */
    method SetItems(items: seq<T>)
      modifies this
      ensures this.items == Php.Slice(items, PageSize())
      ensures hasMore == if |items| > 0 then FirstItem() + |items| - 1 < total else total != 0
      ensures options == old(options) && path == old(path) && pageName == old(pageName)
      ensures total == old(total) && initialQuantity == old(initialQuantity)
      ensures perPage == old(perPage) && currentPage == old(currentPage)
    {
      this.items := items;
      hasMore := Php.LooseLess(LastItem(), Total());
      this.items := Php.Slice(this.items, PageSize());
    }

    /**
     * The number of items this page holds: on a valid page number, the
     * distance from this page's offset to the next page's.
     */
    function PageSize(): (r: int)
      reads this
      ensures currentPage >= 1 ==>
                r == ItemsBefore(currentPage + 1, initialQuantity, perPage) - ItemsBefore(currentPage, initialQuantity, perPage)
    {
      if currentPage == 1 then initialQuantity else perPage
    }

    /** Overrides `hasMore`; nothing else changes. Returns the object itself. */
    method HasMorePagesWhen(hasMore: bool := true) returns (self: PreviewPaginator<T>)
      modifies this`hasMore
      ensures self == this && Valid() == old(Valid())
      ensures HasMorePages() == hasMore
      ensures items == old(items) && total == old(total) && currentPage == old(currentPage)
      ensures initialQuantity == old(initialQuantity) && perPage == old(perPage)
      ensures path == old(path) && pageName == old(pageName) && options == old(options)
    {
      this.hasMore := hasMore;
      self := this;
    }

    /**
     * `toArray`, given the URL builder `url` (page number to link): the
     * page's items, numbers and links.
     */
    function ToArray(url: int -> string): (r: PageRecord<T>)
      reads this
      ensures r.data == items && r.currentPage == currentPage && r.path == path
      ensures r.firstPageUrl == url(1)
      ensures r.prevPageUrl.None? <==> currentPage <= 1
      ensures r.prevPageUrl.Some? ==> r.prevPageUrl.value == url(currentPage - 1)
      ensures r.nextPageUrl.None? <==> !HasMorePages()
      ensures r.nextPageUrl.Some? ==> r.nextPageUrl.value == url(currentPage + 1)
      ensures r.perPage == perPage && r.initialQuantity == initialQuantity && r.total == total
      ensures r.from == FirstItem() && r.to == LastItem()
    {
      PageRecord(
        items, currentPage, path, url(1), PreviousPageUrl(url), NextPageUrl(url),
        perPage, GetInitialQuantity(), Total(), FirstItem(), LastItem())
    }

    /** The link to the previous page, absent on the first page. */
    function PreviousPageUrl(url: int -> string): (r: Option<string>)
      reads this
      ensures r.None? <==> currentPage <= 1
      ensures r.Some? ==> r.value == url(currentPage - 1)
    {
      if currentPage > 1 then Some(url(currentPage - 1)) else None
    }

    /** The link to the next page, present exactly when there are more pages. */
    function NextPageUrl(url: int -> string): (r: Option<string>)
      reads this
      ensures r.None? <==> !HasMorePages()
      ensures r.Some? ==> r.value == url(currentPage + 1)
    {
      if HasMorePages() then Some(url(currentPage + 1)) else None
    }

    function HasMorePages(): bool
      reads this
    {
      hasMore
    }

    function GetInitialQuantity(): int
      reads this
    {
      initialQuantity
    }

    /** Despite its name, changes nothing and returns the stored initial quantity. */
    method SetInitialQuantity(initialQuantity: int) returns (r: int)
      ensures r == this.initialQuantity
    {
      r := this.initialQuantity;
    }

    function Total(): int
      reads this
    {
      total
    }

    /**
     * The 1-based number of the first item on this page: on a valid page
     * number, one past all items on the pages before it.
     */
    function FirstItem(): (r: int)
      reads this
      ensures currentPage >= 1 ==> r == ItemsBefore(currentPage, initialQuantity, perPage) + 1
    {
      if currentPage == 1 then 1
      else if currentPage >= 2 then
        ItemsBeforeClosedForm(currentPage, initialQuantity, perPage);
        initialQuantity + (currentPage - 2) * perPage + 1
      else initialQuantity + (currentPage - 2) * perPage + 1
    }

    /**
     * The 1-based number of the last item on this page, or none when the
     * page is empty; first to last spans exactly the stored items.
     */
    function LastItem(): (r: Option<int>)
      reads this
      ensures r.None? <==> items == []
      ensures r.Some? ==> r.value - FirstItem() + 1 == |items|
    {
      if |items| > 0 then Some(FirstItem() + |items| - 1) else None
    }

    /** The number of items on the pages before this one. */
    function SkippedItems(): (r: int)
      reads this
      ensures r == FirstItem() - 1
    {
      if currentPage == 1 then 0 else initialQuantity + PageSize() * (currentPage - 2)
    }
  }

  /** The first item of the page is one past everything on the pages before it. */
  lemma FirstItemFollowsEarlierPages<T>(p: PreviewPaginator<T>)
    requires p.currentPage >= 1
    ensures p.FirstItem() == ItemsBefore(p.currentPage, p.initialQuantity, p.perPage) + 1
    ensures p.SkippedItems() == ItemsBefore(p.currentPage, p.initialQuantity, p.perPage)
  {
    if p.currentPage >= 2 {
      ItemsBeforeClosedForm(p.currentPage, p.initialQuantity, p.perPage);
    }
  }

  /** The page size is the distance from this page's first item to the next page's. */
  lemma PageSizeIsGapToNextPage<T>(p: PreviewPaginator<T>)
    requires p.currentPage >= 1
    ensures ItemsBefore(p.currentPage + 1, p.initialQuantity, p.perPage)
            == p.SkippedItems() + p.PageSize()
  {
    FirstItemFollowsEarlierPages(p);
  }

  /**
   * On a valid page the last item never runs into the next page: it is
   * numbered at most the number of items on this page and all pages before.
   */
  lemma LastItemWithinPage<T>(p: PreviewPaginator<T>)
    requires p.Valid() && p.items != [] && p.PageSize() >= 0
    ensures p.LastItem().Some?
    ensures p.LastItem().value <= ItemsBefore(p.currentPage + 1, p.initialQuantity, p.perPage)
  {
    PageSizeIsGapToNextPage(p);
  }
}
