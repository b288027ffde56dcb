# Preview paginator: a Dafny model

This project models the core of the preview paginator, a paginator in which
page 1 holds `initialQuantity` items and every later page holds `perPage`
items. It has two parts:

- **The page object** (`PreviewPaginator`, module `Paginator`, file
  `preview_paginator.dfy`). This is a class with the source's fields. Its
  constructor works step by step, like the source's. It normalises the
  current page, trims trailing slashes from the path, decides `hasMore` on
  the untruncated items, and then cuts the items down to the page size.
  `HasMorePagesWhen` is its only mutator. `PageSize`, `FirstItem`,
  `LastItem`, `SkippedItems`, `Total`, `HasMorePages`, `NextPageUrl` and
  `ToArray` are read-only functions over the fields. `ToArray` returns the
  `PageRecord` datatype, which stands for the PHP array.
- **The fetch window** of the `PreviewPaginated` query scope (module
  `Paginated`, file `preview_paginated.dfy`). Pure functions resolve the
  page number, the initial quantity (with its fallback of 5) and the
  per-page count. Two more compute `Take` and `Skip`. Two methods model
  the whole scope: one exactly as written, one with the correction
  described under "## Findings".

Module `Php` (file `php.dfy`) holds the pieces of PHP behaviour that the
core depends on:

- `?:` on an int-or-null (`Elvis`);
- `null < $total` (`LooseLess`): PHP compares both sides as booleans, so
  the result is `total != 0`;
- `rtrim` (`RTrim`);
- `Collection::slice(0, $n)`, that is, `array_slice` (`Slice`). A negative
  `$n` drops that many items from the end.

`Paginator.ItemsBefore` is an independent reference definition. It adds up
the sizes of all earlier pages one page at a time. The lemmas connect it to
the closed formulas that both files use:

- the page object's `firstItem` and `skippedItems`;
- the scope's `skip`.

`Scenarios` (`scenarios.dfy`) holds client methods. They use only the
contracts above, on a 23-row collection with pages of 5, 10, 10, and on an
oversized batch.

URLs come from a parameter `url: int -> string`, the page-number-to-link
builder. The request's resolved page number and path are parameters too
(`resolvedPage`, `Env`). So are the query builder's results: `total` for
`count()` and `fetched` for `get()`.

Three behaviours of the code are easy to misread, and the model keeps them
as written:

- `hasMore` is decided on the items as given, before truncation
  (src/PreviewPaginator.php:88 runs before :90). An oversized batch can
  therefore report no more pages even when items remain.
  `Scenarios.OversizedFirstPage` shows this case.
- `ToArray`'s `from` is always an integer (`firstItem` never returns null).
- Sizes are not checked for positivity, and no error is raised. A negative
  page size is handed to `array_slice` as it is.

`HasMorePages`, `Total` and the class's own `GetInitialQuantity` are plain
field reads with no contract of their own. The rows for `HasMorePagesWhen`,
`NextPageUrl` and `ToArray` state what they return.

## Model

| member | source | states |
|---|---|---|
| `Paginator.PreviewPaginator.constructor` | src/PreviewPaginator.php:49-63 | stores the options, total, initial quantity and per-page count. `pageName` and `path` come from the options, with defaults `page` and `/`. The path is normalised and the page number resolved. The items are the given ones cut to the page size. `hasMore` is decided on the untruncated items: `firstItem + n - 1 < total` for n > 0 given items, `total != 0` for none. The object invariant holds afterwards. |
| `Paginator.PreviewPaginator.SetCurrentPage` | src/PreviewPaginator.php:71-76 | the page is always at least 1. A truthy page of at least 1 is kept. A null or zero page falls back to the resolved page when that is at least 1. Any result other than 1 is the chosen candidate. |
| `Paginator.PreviewPaginator.NormalizePath` | src/PreviewPaginator.php:60 | `/` stays `/`. Any other path becomes its longest prefix that does not end in `/`, and everything removed is `/`. |
| `Php.RTrim` | src/PreviewPaginator.php:60 | the result is a prefix of the input and does not end in the trimmed character. The input holds only that character after the prefix. |
| `Php.Elvis` | src/PreviewPaginated.php:14 | PHP's `?:` on an int-or-null: the value when it is neither null nor 0, otherwise the fallback. |
| `Php.LooseLess` | src/PreviewPaginator.php:88 | PHP's `<` with a possibly-null left side: for an int, the arithmetic comparison. For null, both sides are compared as booleans, so the result holds exactly when the right side is non-zero. |
| `Php.Slice` | src/PreviewPaginator.php:90 | the result is a prefix of the input, in the same order. Its length is min(n, length of s) for n ≥ 0, and max(0, length of s + n) for negative n. |
| `Paginator.PreviewPaginator.SetItems` | src/PreviewPaginator.php:84-91 | the stored items are the given ones sliced to `pageSize()`. `hasMore` is computed from the untruncated count, with PHP's null-versus-int rule for an empty batch. No other field changes. |
| `Paginator.PreviewPaginator.HasMorePagesWhen` | src/PreviewPaginator.php:135-140 | afterwards `HasMorePages()` is the flag, which defaults to true. Every other field is unchanged, validity is preserved, and the object itself is returned. |
| `Paginator.PreviewPaginator.ToArray` | src/PreviewPaginator.php:169-184 | `data` is the items. `current_page`, `path`, `per_page` (= perPage), `initial_quantity` (= initialQuantity) and `total` copy the fields. `first_page_url` is url(1). `prev_page_url` is absent exactly on page ≤ 1, and otherwise is url(page-1). `next_page_url` is absent exactly when there are no more pages, and otherwise is url(page+1). `from` is `firstItem()` and `to` is `lastItem()`. |
| `Paginator.PreviewPaginator.PreviousPageUrl` | src/PreviewPaginator.php:176 | null exactly when the current page is at most 1, otherwise the link to the page before. |
| `Paginator.PreviewPaginator.NextPageUrl` | src/PreviewPaginator.php:191-196 | null exactly when `hasMorePages()` is false, otherwise the link to the next page. |
| `Paginator.PreviewPaginator.SetInitialQuantity` | src/PreviewPaginator.php:223-226 | ignores its argument, changes nothing, and returns the stored initial quantity. |
| `Paginator.PreviewPaginator.LastItem` | src/PreviewPaginator.php:253-256 | null exactly when the page holds no items. Otherwise the span from `firstItem()` to it holds exactly the page's item count. |
| `Paginator.PreviewPaginator.PageSize` | src/PreviewPaginator.php:98-101 | for a page ≥ 1, the number of items between this page's offset and the next page's offset in the page-by-page sum: `initialQuantity` on page 1, `perPage` after. |
| `Paginator.PreviewPaginator.FirstItem` | src/PreviewPaginator.php:243-246 | for a page ≥ 1, one past the number of items on all earlier pages: 1 on page 1, `initialQuantity + (N-2)*perPage + 1` on page N ≥ 2. |
| `Paginator.PreviewPaginator.SkippedItems` | src/PreviewPaginator.php:263-266 | equals `firstItem() - 1` on every page, page 1 included. |
| `Paginator.ItemsBeforeClosedForm` | src/PreviewPaginator.php:245 | for page N ≥ 2, adding up the page sizes before page N gives `initialQuantity + (N-2)*perPage`. |
| `Paginator.FirstItemFollowsEarlierPages` | src/PreviewPaginator.php:243-246 | for a page ≥ 1, `firstItem()` is one past all items on the earlier pages, and `skippedItems()` is their number. |
| `Paginator.PageSizeIsGapToNextPage` | src/PreviewPaginator.php:98-101 | for a page ≥ 1, `pageSize()` is the number of items between this page's start and the next page's start. |
| `Paginator.LastItemWithinPage` | src/PreviewPaginator.php:88-90 | on a valid non-empty page with a non-negative page size, the last item never goes past the end of this page's range. |
| `Paginated.GetInitialQuantity` | src/PreviewPaginated.php:12-15 | the model's initial quantity when truthy, otherwise 5. Never 0. |
| `Paginated.CurrentPage` | src/PreviewPaginated.php:29 | the argument page when truthy, otherwise the page resolved from the request. |
| `Paginated.PerPage` | src/PreviewPaginated.php:31 | the argument per-page count when truthy, otherwise the model's per-page count. |
| `Paginated.InitialQuantity` | src/PreviewPaginated.php:33 | the argument when truthy, otherwise `getInitialQuantity()` of the model, in both branches. Never 0. |
| `Paginated.Take` | src/PreviewPaginated.php:37 | for page N ≥ 1, the number of items page N holds in the page-by-page sum: `initialQuantity` on page 1, the per-page count after. |
| `Paginated.Skip` | src/PreviewPaginated.php:38 | for page N ≥ 1, the number of items on pages 1..N-1: 0 on page 1, and `initialQuantity + perPage*(N-2)` after. |
| `Paginated.WindowsTile` | src/PreviewPaginated.php:37-38 | for N ≥ 1, `skip(N) + take(N) == skip(N+1)`. Consecutive windows leave no gap and do not overlap. |
| `Paginated.SkipStrictlyIncreasing` | src/PreviewPaginated.php:38 | with both sizes positive, `skip` strictly increases with the page number from page 1 on. |
| `Paginated.WindowsPartition` | src/PreviewPaginated.php:37-38 | with both sizes positive, every row index lies in the window of exactly one page, both directions. |
| `Paginated.FetchWindow` | src/PreviewPaginated.php:29-38 | for a resolved page ≥ 1, the fetched window starts after all rows of the earlier pages and ends where the next page begins. |
| `Paginated.WindowMatchesPaginator` | src/PreviewPaginated.php:37-38 | for a page ≥ 1, the scope's `skip` equals the page object's `skippedItems()`, `take` equals its `pageSize()`, and `skip + 1` equals its `firstItem()`. This assumes the page object was built with the resolved sizes. |
| `Paginated.ArgsAsWritten` | src/PreviewPaginated.php:50-52 | the constructor receives the resolved initial quantity and page, but the raw `perPage` argument. |
| `Paginated.Args` | src/PreviewPaginated.php:50-52 | the corrected hand-over: the constructor receives the resolved per-page count. |
| `Paginated.AsWrittenAgreesIffPerPageTruthy` | src/PreviewPaginated.php:50-52 | as written, past page 1 the fetched window matches the page object's numbers exactly when the raw `perPage` is non-zero, or the model's per-page count is 0. |
| `Paginated.AsWrittenZeroPerPageDropsRows` | src/PreviewPaginated.php:50-52 | page 2, initial quantity 5, raw `perPage` 0, model per-page 15: the scope fetches skip 5, take 15. The page object's page size is 0, so all 15 rows are cut away. |
| `Paginated.PreviewPaginateAsWritten` | src/PreviewPaginated.php:27-53 | the scope as written. It returns the computed window and a new page object built from `ArgsAsWritten`, the fetched rows, the total and the path/pageName options. |
| `Paginated.PreviewPaginate` | src/PreviewPaginated.php:27-53 | the corrected scope. Its page object is built from `Args`, and for a page ≥ 1 reports `skippedItems()` and `pageSize()` equal to the fetched window. |

## Findings

| source | as written | input that shows it | evidently intended | confidence | as-written member | corrected member |
|---|---|---|---|---|---|---|
| src/PreviewPaginated.php:50-52 | the scope resolves the per-page count into `$loadMore` (:31) and computes the window from it. It then passes the raw `$perPage` argument to the page object, and a null argument (the default) reaches a non-nullable `int` parameter. | raw `perPage` 0, model per-page 15, page 2, initial quantity 5: 15 rows are fetched (skip 5), but the page object has page size 0 and shows none of them. The 15 assumes `$this->model->getPerPage()` returns the model's per-page count (see "## Left out") | pass the resolved per-page count, so that the page object's numbers describe the fetched window | medium, not executed | `Paginated.AsWrittenZeroPerPageDropsRows` | `Paginated.PreviewPaginate` |

## Left out

- View rendering (`links`, `render`, src/PreviewPaginator.php:110-127): it goes through the framework's view factory.
- `toJson` and `jsonSerialize` (src/PreviewPaginator.php:148-162): JSON encoding is not modelled. `ToArray` returns a record instead.
- `url()` is the framework base class's link builder and is not part of this model. It is the parameter `url: int -> string`.
- `previousPageUrl()` also comes from the framework base class, which is not part of this model. `PreviousPageUrl` follows the framework's rule: a link to `currentPage - 1` when `currentPage > 1`, otherwise null.
- `isValidPageNumber()` comes from the base class. `IsValidPageNumber` takes it as "an integer at least 1".
- `resolveCurrentPage` and `resolveCurrentPath` read the request. Their results are the parameters `resolvedPage` and `Env.resolvedPath`. The constructor resolves with the default page name, while the scope resolves with `$pageName`. The model uses one resolved value for both.
- The query builder's `count`, `skip`, `take` and `get` are not modelled. Their results are the inputs `total` and `fetched`. How the builder treats a negative offset or limit is not modelled either.
- `Container::makeWith` is a direct constructor call in the model. Passing a null `$perPage` into the constructor's `int` parameter depends on container and type-coercion behaviour, so it is not modelled. `Paginated.PreviewPaginateAsWritten` requires an integer `perPage`.
- The constructor's loop over `$options` assigns any key to a property of the same name (src/PreviewPaginator.php:53-55). Only `path` and `pageName` are modelled, read from a `map<string, string>`.
- `$this->model->getPerPage()` (src/PreviewPaginated.php:31) is a call into the model class, which is not part of this model. The model assumes it returns the model's per-page count, `Env.modelPerPage`. If `$this->model` does not resolve to an object, every call with a falsy `$perPage` fails at that line; this failure is not modelled.
- The ArrayAccess, Countable and IteratorAggregate interfaces and the `Collection` internals are not modelled. The items are a `seq`.
- PHP integers overflow into floats past 64 bits. The model's integers are unbounded.
- Paginated.WindowMatchesPaginator: requires a resolved page of at least 1. For an explicit page below 1, the scope computes a negative skip from the raw page, while the page object normalises the page to 1.
