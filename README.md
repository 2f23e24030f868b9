# NewEgg search client, modelled in Dafny

`NewEggClient` (scrapingtool/neweggclient.py) pulls the "shop all deals" listing from
NewEgg's search endpoint, page by page, and flattens each nested product into a record
of at most seven fields for a CSV file. This project models its three pieces of logic:

- **Page count** (`calculate_last_page_to_extract`): `Paginator.LastPage`. It is
  `ceil(no_of_products / pageSize)` when `no_of_products` is non-zero and the page size
  is positive, and no page count otherwise. A missing or non-numeric page size makes
  `page_size > 0` raise a TypeError, but only when `no_of_products` is non-zero, since
  `and` stops early.
- **Pagination loop** (`get_products`): `Client.NewEggClient.GetProducts`. It is a
  method on a class whose `queryParameters` map it rewrites in place. The HTTP call is a
  parameter, `callSearchApi: SearchApi`, a function from the query parameters of the
  request to `Some(items)` or `None`. The method is proved against two specification
  functions, `Gather` (the items collected) and `Requested` (the page indices asked for,
  returned as a ghost out-parameter). The lemmas `GatherUpTo` and `RequestedUpTo` then
  say what those are: pages 1, 2, ... in ascending order, the items joined in page
  order, and nothing requested after the first failed page.
- **Field extraction** (`get_items_details`): `Extractor.ItemDetails` for one item, and
  the method `Client.NewEggClient.GetItemsDetails` for the loop over all items. JSON is
  the datatype `Json.Json`, with Python truthiness (`Truthy`) and `dict.get` (`PyGet`).
  `Lookup` follows a path through nested objects and is the reference that the record
  is checked against: a key is present iff its source path holds a truthy value, and then
  it equals that value.

The exceptions the code raises on unexpected data are modelled as `Failure(PyError)`
results:
- `.get` on a truthy value that is not a dict raises AttributeError.
- `IMAGE_BASE_URL + name` with a name that is not a string raises TypeError.
- `page_size > 0` with a page size that is not a number raises TypeError.

`get_items_details` catches none of these. `get_products` catches only the TypeError
from `items.extend(None)`, inside its loop.

Integers are unbounded, as in Python. `math.ceil(n / d)` is modelled as exact integer
ceiling division (`CeilDiv`). The code tests `no_of_products` for truthiness, not for
being positive: a negative count gets a page count of 0 or less, and then no page is
requested. A boolean page size counts as 0 or 1, because Python's `bool` is an `int`.

## Model

| member | source | states |
|---|---|---|
| `Paginator.CeilDiv` | scrapingtool/neweggclient.py:71 | the result q is the least integer with n <= q*d, i.e. (q-1)*d < n <= q*d |
| `Paginator.LastPage` | scrapingtool/neweggclient.py:63-72 | raises TypeError iff no_of_products is non-zero and the page size is not a number; no page count iff no_of_products is 0 or the page size is <= 0; otherwise the page count is the ceiling of no_of_products / pageSize |
| `Paginator.Gather` | scrapingtool/neweggclient.py:80-89 | definition: the items collected by requesting pages lo..hi-1 in order, each page's items appended, stopping at the first request that yields nothing |
| `Paginator.Requested` | scrapingtool/neweggclient.py:83-87 | the page indices that run requests: lo, lo+1, ... in ascending order, at most hi-lo of them; the failed request is still made, nothing after it |
| `Paginator.PagesOf` | scrapingtool/neweggclient.py:83-86 | the page results for indices lo..k-1, one per index, in ascending page order |
| `Paginator.FlattenLength` | scrapingtool/neweggclient.py:86 | joining pages end to end gives a list whose length is the sum of the page lengths |
| `Paginator.GatherUpTo` | scrapingtool/neweggclient.py:80-89 | when pages lo..k-1 succeed and page k is the first failure (or k is the bound), the run returns exactly those pages joined in page order, and its length is the sum of their lengths |
| `Paginator.RequestedUpTo` | scrapingtool/neweggclient.py:83-89 | under the same conditions the run requests lo, lo+1, ..., k when page k fails, or lo, ..., bound-1 when none fails: ascending, once each, nothing after the failure |
| `Paginator.GatherFullPages` | scrapingtool/neweggclient.py:83-86 | when every request returns `size` items, pages lo..hi-1 give (hi-lo)*size items |
| `Paginator.ExclusiveRangeFallsShort` | scrapingtool/neweggclient.py:70-86 | with the source's `range(1, last_page)`, even full pages collect fewer than no_of_products items |
| `Paginator.InclusiveRangeReachesTarget` | scrapingtool/neweggclient.py:70-86 | with pages 1..last_page inclusive (`IntendedProducts`), full pages collect at least no_of_products items |
| `Extractor.WithDescription` | scrapingtool/neweggclient.py:102-108 | raises iff the description is truthy and not a dict, and then raises AttributeError; otherwise sets title, line description and bullet description from the description's truthy sub-values |
| `Extractor.WithChild` | scrapingtool/neweggclient.py:113-119 | raises iff the parent is truthy and not a dict, and then raises AttributeError; otherwise sets the key iff the parent's child value is truthy |
| `Extractor.WithImageUrl` | scrapingtool/neweggclient.py:121-124 | raises iff the image is truthy and not a dict (AttributeError) or is a dict whose truthy name is not a string (TypeError): the error is TypeError exactly in the second case; otherwise sets the URL to IMAGE_BASE_URL + name iff the name is truthy |
| `Extractor.CopiedDetails` | scrapingtool/neweggclient.py:101-119 | definition: the description, final-price, review and seller blocks run in order on an empty record, the first failing block's error escaping |
| `Extractor.DescriptionCopies` | scrapingtool/neweggclient.py:102-108 | the description block sets only its three keys, each present iff Description.X is truthy and then equal to it |
| `Extractor.PriceStage` | scrapingtool/neweggclient.py:110-111 | the final-price block adds product_final_price iff FinalPrice is truthy, equal to it, and leaves the description keys as they were |
| `Extractor.ReviewStage` | scrapingtool/neweggclient.py:113-115 | a dict or falsy Review never raises; the block adds product_rating iff Review.Rating is truthy, equal to it, and leaves the earlier keys as they were |
| `Extractor.SellerStage` | scrapingtool/neweggclient.py:117-119 | a dict or falsy Seller never raises; the block adds product_seller_name iff Seller.SellerName is truthy, equal to it, and leaves the earlier keys as they were |
| `Extractor.CopiedDetailsCopies` | scrapingtool/neweggclient.py:102-119 | the first four blocks set only the six copied keys, each present iff its source path is truthy and then equal to its value |
| `Extractor.ImageStage` | scrapingtool/neweggclient.py:121-124 | the image block keeps every key already set, adds no key but product_image_url, present iff NewImage.ImageName is truthy and then equal to IMAGE_BASE_URL + that name |
| `Extractor.ItemDetails` | scrapingtool/neweggclient.py:100-126 | definition: the record for one item, the copied blocks followed by the image block; a non-dict item raises AttributeError at its first `.get` |
| `Extractor.ItemDetailsFailsIff` | scrapingtool/neweggclient.py:100-124 | one item raises iff it is not well shaped; the error is TypeError exactly when the item is a dict whose Description, Review and Seller are dicts or falsy and whose image name is truthy and not a string, AttributeError otherwise |
| `Extractor.ItemDetailsFields` | scrapingtool/neweggclient.py:100-126 | for a well-shaped item, each of the six copied keys is present iff its path is truthy and then equals that value (so "" and 0 are omitted); product_image_url is present iff the image name is truthy and then equals IMAGE_BASE_URL + name; every key is in FIELD_NAMES |
| `Client.NewEggClient.constructor` | scrapingtool/neweggclient.py:29-45 | the client stores its query parameters, url, CSV fields, product count and file name |
| `Client.NewEggClient.GetProducts` | scrapingtool/neweggclient.py:74-89 | a page-count error escapes unchanged with no request made; otherwise the result is `Gather` and the requests are `Requested` over pages 1..last_page-1, with no request when last_page is absent or <= 1; pageIndex ends as the last index requested, and the other parameters are unchanged |
| `Client.NewEggClient.GetItemsDetails` | scrapingtool/neweggclient.py:91-127 | succeeds iff every item is well shaped, and then returns one record per item in input order, each the item's own `ItemDetails`; on failure the error is that of the first item that is not well shaped |
| `Client.DefaultLastPage` | tests/test_newegg_client.py:9-13 | 100 products at the default page size of 60 give last page 2 |
| `Client.DefaultRunFetchesOnePage` | scrapingtool/neweggclient.py:79-86 | the default client with 100 products against full 60-item pages requests page 1 only and collects 60 items |

## Findings

| source | as written | input that shows it | evidently intended | confidence | as-written member | corrected member |
|---|---|---|---|---|---|---|
| scrapingtool/neweggclient.py:83 | `for i in range(1, last_page)` stops before `last_page` | no_of_products=100, pageSize=60, every page returns 60 items: last_page is 2, only page 1 is requested, and 60 items come back | pages 1 through last_page inclusive, so full pages reach no_of_products; the docstring says "until it reach the last page", and the tests expect at least 500 products for 500 | not executed | `Paginator.ExclusiveRangeFallsShort` | `Paginator.InclusiveRangeReachesTarget` |

`Client.NewEggClient.GetProducts` keeps the range as written, so that the model does
what the program does. `Paginator.IntendedProducts` is the corrected definition.

## Left out

- `__call_search_api` (the HTTP GET with `requests`, status check, JSON decoding and
  logging) is the `SearchApi` parameter. It is a function of the query parameters alone.
  The client's `url` is fixed, so it is not passed to it. An endpoint that answers the
  same request differently over time is not modelled. An "ItemList" that is present but
  not a list (`extend` would iterate a dict's keys or a string's characters) is not
  modelled either: the oracle returns a list or nothing.
- `save_to_csv` (file output through `csv.DictWriter`) is not part of this model. It is
  library code and file I/O.
- `extract_save_products` and scrapingtool/main.py only chain the modelled calls.
- Floating point: JSON numbers with a fractional part, a float page size and the float
  division inside `math.ceil` are not modelled. Exact integer ceiling division stands in
  for the division, and it differs only for counts beyond 2^53.
- Logging, and the unused `username` and `password` constructor arguments.
- Python dicts keep insertion order; records and query parameters are Dafny maps, so
  key order is not modelled. Key order does not affect the CSV, whose column order
  comes from FIELD_NAMES.
- Aliasing of the default argument: Python's default `query_parameters` is the
  class-level QUERY_PARAMS dict itself, so the page loop also rewrites that shared
  dict. The model's client holds its own map value.
- `no_of_products` is an `int`; a `None` count behaves like 0, which the model covers.
- The tests that fetch from the live endpoint and write files are not modelled. Their
  `>= 500` expectations contradict the page loop (see Findings).
