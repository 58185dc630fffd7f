# aiokeepin base adapter, modelled in Dafny

This project models the core of `aiokeepin`, an asynchronous client for the
KeepinCRM REST API. The core has two parts.

- **The base adapter** (`aiokeepin/adapters/base.py`). It resolves every
  request path against the configured base URL and puts the API key in the
  `X-Auth-Token` header. It maps each non-2xx status code to one of the
  client's exception classes, and it forwards the `get`/`post`/`put`/`patch`/`delete`
  wrappers to `_request`. `get_paginated_items` walks a paginated listing,
  page 1, 2, 3, …, and cuts the items it gathers to `count`.
- **The exception hierarchy** (`aiokeepin/exceptions/base.py`). Five classes
  sit under `KeepinException`, which derives from Python's `BaseException`.
  `KeepinStatusError` takes `status_code` and `response` from its first two
  constructor arguments. `ValidationError` is not a status error.

Modules, one file each:

- `Wrappers` (`wrappers.dfy`): `Option` and `Result`.
- `Http` (`http.dfy`): the transport's surface. It holds JSON values, the
  request handed to the session, a response (status code, body text,
  decoded body) and the 2xx test.
- `Exceptions` (`exceptions.dfy`): the classes with their declared bases, the
  method resolution order, `issubclass`, `except` matching, and
  instantiation with its argument slots.
- `BaseAdapter` (`adapter.dfy`): URL resolution, the request that is built,
  status classification, `_request` and the five wrappers.
- `Pagination` (`pagination.dfy`): `get_paginated_items` as a loop over a
  finite server oracle, with a declarative description of where it stops
  and what it returns.

The HTTP session is a parameter. `_request` and the wrappers take a
`transport` function from the request sent to the response received.
Pagination takes `server`, a sequence of responses: the k-th fetch is
answered by `server[k - 1]`. A list response's decoded body is modelled
directly as a `Page`, holding its `items` and its `pagination.total_pages`.

Three behaviours of the code that a reader might not expect, all modelled as written:

- `ValidationError` derives from `KeepinException` only. So a 422 is not
  caught by a `KeepinStatusError` handler, and it has no `status_code` or
  `response` attribute.
- The status error reads `status_code` from argument slot 0 and `response`
  from slot 1.
- A non-empty `params` dictionary is updated in place. The caller's own
  dictionary is left holding the last page number (`CallerParamsAfter`).
  It is not copied.

## Model

| member | source | states |
|---|---|---|
| Exceptions.Base | aiokeepin/exceptions/base.py:1-36 | each class's single declared base as written in the class statements; only the root `BaseException` has none, and a base sits one level nearer the root |
| Exceptions.Mro | aiokeepin/exceptions/base.py:1-39 | the resolution order starts at the class itself, each entry is followed by its declared base, and it ends at `BaseException` (Python's `object` above it is left out of the model's order); its length is one more than the class's depth |
| Exceptions.SubclassTransitive | aiokeepin/exceptions/base.py:1-39 | `issubclass` over the declared hierarchy is transitive |
| Exceptions.SubclassAntisymmetric | aiokeepin/exceptions/base.py:1-39 | two classes that are subclasses of each other are the same class |
| Exceptions.KeepinHierarchy | aiokeepin/exceptions/base.py:1-36 | a class is one of the library's own classes exactly when it is a subclass of `KeepinException`, and none of them is a subclass of `Exception` because the root derives from `BaseException` |
| Exceptions.StatusBearingClasses | aiokeepin/exceptions/base.py:7-39 | the classes that get `status_code`/`response` are exactly the subclasses of `KeepinStatusError`; `ValidationError` is not one |
| Exceptions.Instantiate | aiokeepin/exceptions/base.py:13-15 | a status-bearing class takes `status_code` from argument 0 and `response` from argument 1, and fails with `IndexError` when given fewer than two arguments; other classes keep their args and have neither attribute |
| Exceptions.CatchAsStatusError | aiokeepin/exceptions/base.py:18-39 | an error of any status-bearing kind is caught by its own class, by `KeepinStatusError` and by `KeepinException`, and shows the same `status_code` and `response` |
| Exceptions.ValidationEscapesStatusHandler | aiokeepin/exceptions/base.py:24-27 | a `ValidationError` is a `KeepinException` that a `KeepinStatusError` handler does not catch, and it has no `status_code` or `response` |
| BaseAdapter.ResolveUrl | aiokeepin/adapters/base.py:48-49 | a path starting with `https://` is used as the URL, any other path is appended to the base URL; its properties are stated by the four lemmas below |
| BaseAdapter.ResolveUrlShape | aiokeepin/adapters/base.py:48-49 | the resolved URL ends with the path and is either the path itself or begins with the base URL |
| BaseAdapter.ResolveUrlUnchanged | aiokeepin/adapters/base.py:48-49 | a path comes out unchanged exactly when it starts with `https://` or the base URL is empty |
| BaseAdapter.ResolvedUrlIsAbsolute | aiokeepin/adapters/base.py:48-49 | with an `https://` base URL every resolved URL starts with `https://` |
| BaseAdapter.ResolveUrlIdempotent | aiokeepin/adapters/base.py:48-49 | with an `https://` base URL, resolving an already resolved URL changes nothing, so the base is never added twice |
| BaseAdapter.DefaultAdapterUrlsAreAbsolute | aiokeepin/adapters/base.py:14 | the default base URL starts with `https://`, so every URL a default adapter resolves is absolute |
| BaseAdapter.BuildRequest | aiokeepin/adapters/base.py:48-60 | the session gets the resolved URL, a header map holding only `X-Auth-Token` set to the API key, and the method, parameters and bodies unchanged |
| BaseAdapter.Classify | aiokeepin/adapters/base.py:67-75 | every failing status maps to one of the library's classes other than the root, and to `ValidationError` exactly when it is 422 |
| BaseAdapter.ClassifyTable | aiokeepin/adapters/base.py:67-75 | 401 ⇔ InvalidAPIKey, 422 ⇔ Validation, 404 ⇔ NotFound, ≥500 ⇔ InternalServer, and any other code ⇔ the generic status error, each in both directions |
| BaseAdapter.ClassifyOrderIrrelevant | aiokeepin/adapters/base.py:67-75 | testing the status branches in reverse order gives the same class, because the branches are disjoint |
| BaseAdapter.StatusError | aiokeepin/adapters/base.py:65-75 | the raised error has the classified class and args (status, text); unless the status is 422 it carries exactly that status code and body text |
| BaseAdapter.StatusErrorHandlers | aiokeepin/adapters/base.py:65-75 | every raised error is caught by `KeepinException` and not by `Exception`; it is caught by `KeepinStatusError` exactly when the status is not 422 |
| BaseAdapter.CheckStatus | aiokeepin/adapters/base.py:62-77 | a response passes exactly when its status is 2xx and is then returned unchanged; otherwise the error for its status and text is raised |
| BaseAdapter.Request | aiokeepin/adapters/base.py:39-77 | `_request` sends the built request, and it returns the transport's response exactly on 2xx or raises the error for that response's status and text |
| BaseAdapter.Decoded | aiokeepin/adapters/base.py:113-114 | `response.json()` after `_request`: the same request was sent, a successful call yields the response's decoded body, and a raised error propagates unchanged; every wrapper ends this way |
| BaseAdapter.Get | aiokeepin/adapters/base.py:99-114 | sends method `get` with the given parameters and no body, and returns the decoded body or the mapped error |
| BaseAdapter.Post | aiokeepin/adapters/base.py:79-97 | sends method `post` with the given JSON body and parameters, and returns the decoded body or the mapped error |
| BaseAdapter.Patch | aiokeepin/adapters/base.py:116-137 | sends method `patch` with the given parameters and JSON body, and returns the decoded body or the mapped error |
| BaseAdapter.Delete | aiokeepin/adapters/base.py:139-160 | sends method `delete` with the given parameters and JSON body, and returns the decoded body or the mapped error |
| BaseAdapter.Put | aiokeepin/adapters/base.py:162-183 | sends method `put` with the given parameters and JSON body, and returns the decoded body or the mapped error |
| BaseAdapter.GetRaisesDocumentedErrors | tests/test_exceptions.py:11-44 | a 401 answer to `get` raises `InvalidAPIKeyError` and a 404 raises `NotFoundError`; both are also caught as `KeepinStatusError` and show `status_code` 401 or 404 |
| Pagination.KeepGoing | aiokeepin/adapters/base.py:217-220 | the loop condition as chosen by the truthiness of `count`: `page <= total_pages`, and additionally fewer than `count` items when `count` is set |
| Pagination.StopsAfter | aiokeepin/adapters/base.py:222-233 | the loop ends after fetch k exactly when that fetch raised or the condition, evaluated with the incremented page and the `total_pages` that fetch reported, is false |
| Pagination.FirstStop | aiokeepin/adapters/base.py:217-233 | trying fetches `k`, `k + 1`, … in turn finds a fetch after which the loop stops, within the server's answers, and no fetch before it from `k` on stops the loop |
| Pagination.PageParams | aiokeepin/adapters/base.py:211-223 | the query parameters of the request for a page: the caller's dictionary (or a new empty one for `None` or `{}`) with `page` set; stated by the next row |
| Pagination.PageParamsKeepCallerKeys | aiokeepin/adapters/base.py:211-223 | each page request's parameters set `page` to that page; every other key the caller passed is sent unchanged and no other key is added; `None` and `{}` behave alike |
| Pagination.PageRequestsAt | aiokeepin/adapters/base.py:222-225 | the k-th request in the sequence is the `get` of page k |
| Pagination.FetchPage | aiokeepin/adapters/base.py:223-225 | one fetch sends the `get` of its page, and returns the page on 2xx or raises the mapped error |
| Pagination.Truncate | aiokeepin/adapters/base.py:235 | `items[:count]` is a prefix of the items: all of them without a count, otherwise `min(count, len)` of them |
| Pagination.CallerParamsAfter | aiokeepin/adapters/base.py:211-223 | a non-empty caller dictionary ends up holding the last page number, while `None` or `{}` is left as it was |
| Pagination.FetchPages | aiokeepin/adapters/base.py:217-233 | the loop makes exactly the first-stop number of fetches (at least one); fetch k requests page k; it stops at the first fetch that raises or fails the loop condition, holding either every item gathered so far or the mapped error of that fetch |
| Pagination.GetPaginatedItems | aiokeepin/adapters/base.py:209-235 | exactly the first-stop number of fetches is made (at least one); fetch k requests page k; fetching stops at the first fetch that raises or fails the loop condition; the result is the gathered items cut to `count`, or the mapped error of the last fetch |
| Pagination.GatheredPrefix | aiokeepin/adapters/base.py:227 | items only accumulate: after fewer fetches the gathered items are a prefix of those after more |
| Pagination.FetchCountIsFirstStop | aiokeepin/adapters/base.py:217-233 | the number of fetches is determined by the server's answers and `count`: a fetch count in the declarative sense (the loop stops there and at no earlier fetch) is exactly the one the step-by-step search finds |
| Pagination.UnsetCountStopRule | aiokeepin/adapters/base.py:217-233 | without a count, every fetch but the last succeeded with its page below its own `total_pages`, and the last one raised or reached it |
| Pagination.SetCountStopRule | aiokeepin/adapters/base.py:219-233 | with a positive count, every fetch but the last succeeded, left fewer than `count` items and was below `total_pages`; the last one raised, reached `count` items or reached `total_pages` |
| Pagination.ZeroCountFetchesLikeUnset | aiokeepin/adapters/base.py:217-220 | `count=0` is falsy: it fetches exactly the pages an absent count fetches, and the result cut to 0 is empty |
| Pagination.StopsAfterMonotone | aiokeepin/adapters/base.py:217-220 | any fetch that stops the loop for a larger count, or for no count, also stops it for a smaller positive count |
| Pagination.SmallerCountStopsNoLater | aiokeepin/adapters/base.py:217-233 | a smaller positive count never makes more fetches than a larger count or than no count |
| Pagination.WholeListing | aiokeepin/adapters/base.py:209-235 | against a server that answers every page and reports `total` pages, an absent count fetches exactly `total` pages and returns all their items in page order |
| Pagination.FiveOfThirty | aiokeepin/adapters/base.py:209-235 | with count 5 over three pages of ten items, only page 1 is fetched and its first five items are returned |

## Left out

- The `httpx.AsyncClient` session, the adapter's `close()`, async/await and the network round trip. These are I/O in a library outside this model. The round trip is the `transport` parameter, and for pagination the `server` sequence.
- Which statuses `raise_for_status` rejects. That is the transport library's rule; the model takes "not 2xx" (`IsSuccess`).
- Transport-level failures such as connection errors and timeouts. The adapter passes them through untranslated.
- Exception chaining (`raise … from e`). It only sets `__cause__`.
- `response.json()` decoding and failures of the JSON shape, such as a missing `items` key. A list response's body is modelled directly as a `Page`.
- Negative `count`. Python's `items[:count]` would then drop items from the end; `count` is a `nat` here.
- Logging. The logger is created but never used in the core.
- The re-export list in `aiokeepin/exceptions/__init__.py`. It has no behaviour.
- GetPaginatedItems: requires the server oracle to contain a response at which the loop stops (`Terminates`). The source trusts `total_pages`, so a server that keeps reporting more pages makes it loop forever; that run is not modelled.
- FetchPages: carries the same `Terminates` requirement as `GetPaginatedItems`, for the same reason.
- The `total_pages = 1` initial value. It is never read: the loop tests its condition after each fetch, as the source's `while True … break` does.
