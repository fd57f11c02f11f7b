# Kakao Local client and tools, modelled in Dafny

This project models the pure logic of `mcp-kakao-local`. That package exposes the Kakao
Local API (address geocoding, keyword and category place search, place details) as four
tools and one static resource. The transport is abstracted: each client operation receives
the reply the upstream service sent, given as a status, the text of the status error httpx raises for it, and a decoded body,
or a transport failure. The operation returns the request it issued together with the record
or exception that resulted.

Modules, leaves first:

- `Wrappers` (`wrappers.dfy`): `Option` and `Result`.
- `Decimal` (`decimal.dfy`): how Python renders an `int` in an f-string, plus the parser that
  inverts it. The status in the unexpected-error message and the place id in the detail URL
  are both rendered this way.
- `Models` (`models.dfy`, for `models.py`): the enumerations and the response records. Validation returns every
  failing field location, or the record unchanged.
- `Errors` (`errors.dfy`, for the error classes and `_handle_response_status` of
  `kakao_local_client.py`): the tagged
  client errors, their messages, the status classification, and the exceptions a tool body can
  meet.
- `Client` (`client.dfy`, for the rest of `kakao_local_client.py`): client construction from the API key, the query
  parameters of each operation, the two separate request paths (credentialed search versus
  browser-style detail), and how a reply becomes a record or an exception.
- `Server` (`server.dfy`, for `server.py`): the four tools. Each tool checks its declared argument constraints,
  then either calls the client or raises. It turns caught exceptions into
  `{success: false, error}` results. `Server` also holds the category resource.

Where the intended design and the code disagree, the model follows the code:

- The center/radius checks in `search_by_keyword` are bare `assert`s before the `try`. A
  violation is therefore raised out of the tool instead of becoming a failure result, although
  the tool layer is meant never to let an exception escape.
- Nothing checks that the number of documents is at most `pageable_count`, so
  `Models.DocumentCountNotBounded` exhibits an accepted page that is longer than the count.
- `_handle_response_status` is only reached after httpx has raised for a status outside
  200..299. Its own fall-through is for 200 alone, and `Errors.ClassifyStatus` models exactly
  that.

## Model

| member | source | states |
|---|---|---|
| Models.SortOptionMembers | src/mcp_kakao_local/models.py:9-11 | The sort option has exactly two members, with the values "distance" and "accuracy", and those values differ. |
| Models.CategoryCodesEnumerated | src/mcp_kakao_local/models.py:13-31 | The enumeration lists 18 members, every member appears in it, and no two members share a name. |
| Models.CategoryNameInjective | src/mcp_kakao_local/models.py:13-31 | Two category codes with the same name are the same code. |
| Models.OptionalFieldsDefaultToNone | src/mcp_kakao_local/models.py:38-56 | `Meta.same_name` and `PlaceDocument.distance` are `None` when not given. |
| Models.MetaErrors | src/mcp_kakao_local/models.py:38-40 | The meta errors are empty exactly when total_count >= 0 and 0 <= pageable_count <= 45. A location is reported iff it is total_count with a negative value or pageable_count outside 0..45, so nothing else is reported. |
| Models.InvalidAddressTypes | src/mcp_kakao_local/models.py:58-60 | The result lists, in increasing order, exactly the positions whose address_type is not REGION, ROAD, REGION_ADDR or ROAD_ADDR. |
| Models.AddressResponseErrors | src/mcp_kakao_local/models.py:58-72 | The error list is empty iff the response is valid. A location is listed iff it is a broken meta bound or the address_type of a document whose type is not one of the four literals, so nothing else is reported. The meta errors come first, and every later entry is a document location. |
| Models.ValidateAddressResponse | src/mcp_kakao_local/models.py:58-72 | An address response is accepted unchanged iff its meta bounds hold and every address_type is one of the four literals. On rejection, the reported list is the address-response error list, which holds exactly the broken meta bounds and the bad document positions. |
| Models.ValidateLocationSearchResponse | src/mcp_kakao_local/models.py:66-68 | A place-search response is accepted unchanged iff its meta bounds hold. On rejection, the reported locations are exactly the meta errors: the broken bounds and nothing else. |
| Models.DocumentCountNotBounded | src/mcp_kakao_local/models.py:70-72 | A response holding more documents than its pageable_count still validates. |
| Errors.ClassifyStatus | src/mcp_kakao_local/kakao_local_client.py:113-122 | No error iff the status is 200. 400, 401 and 420 give BadRequest, Auth and RateLimit, with the messages "Bad request: ", "Auth error: " and "Rate limited: " followed by the httpx error text. Any other status gives the base kind, whose message carries the status and the text. Every error raised is keyed by the given status and keeps the text. |
| Errors.Message | src/mcp_kakao_local/kakao_local_client.py:124-140 | Each subclass message starts with its own prefix ("Bad request: ", "Auth error: ", "Rate limited: ") and ends with the httpx error text. The unexpected-error message starts with "Unexpected error [status_code=" and ends with "]". |
| Errors.MessageHead | src/mcp_kakao_local/kakao_local_client.py:121-140 | The first character of a message already tells the error kind. |
| Errors.UnexpectedMessageInjective | src/mcp_kakao_local/kakao_local_client.py:121-122 | Two equal unexpected-error messages have the same status code and the same httpx error text. |
| Errors.MessageInjective | src/mcp_kakao_local/kakao_local_client.py:124-140 | Two client errors have equal messages iff they are the same error, so `str(ex)` loses neither the kind, the status nor the detail. |
| Errors.ClassifyDistinguishes | src/mcp_kakao_local/kakao_local_client.py:113-140 | For statuses other than 200, the classified error messages are equal iff both the status and the httpx error text are equal. |
| Errors.ExceptionText | src/mcp_kakao_local/server.py:61-62 | `str(ex)` of a client error is its message. For a transport or decoding failure it is the failure's reason, and for a bare assert it is empty. A validation failure's text starts with the number of failing locations. |
| Decimal.ParseShowInt | src/mcp_kakao_local/kakao_local_client.py:122 | Reading back the decimal rendering of any integer yields that integer. |
| Decimal.ShowIntInjective | src/mcp_kakao_local/kakao_local_client.py:97 | Two integers have the same decimal rendering iff they are equal. |
| Client.NewClient | src/mcp_kakao_local/kakao_local_client.py:11-20 | A missing or empty key fails with the Auth kind and the message "Auth error: missing REST API key". Any other key yields exactly three headers, and Authorization is "KakaoAK " followed by the key. |
| Client.CredentialHeaders | src/mcp_kakao_local/kakao_local_client.py:16-20 | The credentialed headers are exactly Authorization, accept and content-type, and Authorization is "KakaoAK " followed by the key. |
| Client.NewClientInjective | src/mcp_kakao_local/kakao_local_client.py:16-20 | Two clients built from non-empty keys are equal iff the keys are equal: the key survives in the Authorization header. |
| Client.AddressParams | src/mcp_kakao_local/kakao_local_client.py:26-30 | Address-lookup params are exactly query, page and size, with the given values and no null. |
| Client.KeywordCandidates | src/mcp_kakao_local/kakao_local_client.py:47-56 | Before filtering, all eight keys are present. Each optional filter holds None exactly when it is absent, and radius also holds None when it is 0. |
| Client.DropNulls | src/mcp_kakao_local/kakao_local_client.py:57 | Filtering keeps exactly the entries whose value is not None, with unchanged values. |
| Client.KeywordParams | src/mcp_kakao_local/kakao_local_client.py:47-57 | query, page, size and sort (the option's value) are always present. category_group_code (the code's name) is present iff a code is given, x/y iff a center is given, and radius iff one is given and non-zero. No value is null and no other key appears. |
| Client.KeywordParamsBuildersAgree | src/mcp_kakao_local/kakao_local_client.py:47-57 | Writing every filter (None when absent) and then dropping the None entries gives the same params as starting from query and inserting each filter only when it is given. |
| Client.KeywordFiltersOmitted | src/mcp_kakao_local/kakao_local_client.py:47-57 | With no code, no center and no radius or radius 0, only query, page, size and sort are sent. |
| Client.CategoryParams | src/mcp_kakao_local/kakao_local_client.py:72-80 | Category-search params are exactly category_group_code (name), x (longitude), y (latitude), radius, page, size and sort, and no value is null. |
| Client.KeywordParamsExtendCategoryParams | src/mcp_kakao_local/kakao_local_client.py:47-80 | With a code, a center and a non-zero radius, the keyword params are the category params for the same arguments plus the query. |
| Client.AddressParamsAreKeywordCore | src/mcp_kakao_local/kakao_local_client.py:26-57 | The address params equal the keyword params with no filter given, minus sort. |
| Client.DetailRequest | src/mcp_kakao_local/kakao_local_client.py:84-97 | The detail request goes to the panel3 URL followed by the decimal id, has no params, and carries exactly the nine fixed browser headers, so no Authorization header. |
| Client.DetailRequestInjective | src/mcp_kakao_local/kakao_local_client.py:97 | Distinct place ids yield distinct detail requests. |
| Client.DetailRequestSeparate | src/mcp_kakao_local/kakao_local_client.py:84-106 | For any client that can be built, the detail request's headers differ from the client's headers, and its URL lies outside the credentialed base URL. |
| Client.IsSuccessStatus | src/mcp_kakao_local/kakao_local_client.py:108-109 | A status is not raised for iff its hundreds digit is 2, that is, iff it lies in 200..299. |
| Client.RaisedStatusIsClassified | src/mcp_kakao_local/kakao_local_client.py:108-122 | Every status that is raised for reaches a raising branch of the status handler, keyed by that status. The fall-through for 200 is never taken. |
| Client.Receive | src/mcp_kakao_local/kakao_local_client.py:104-122 | A record is produced iff the status is 2xx and the body decoded. A transport failure or an undecodable body passes through as its own exception. Any other status raises the classified error: 400 gives BadRequest, 401 gives Auth and 420 gives RateLimit, each with the httpx error text, and every other status gives the base kind with that status and text. |
| Client.FindCoordinates | src/mcp_kakao_local/kakao_local_client.py:22-32 | The request goes to /search/address with the client headers and page 1 / size 10 by default. The result is the delivered record iff that record validates. A delivered but invalid record raises a validation failure for AddressResponse that carries the address-response error list. Any other failure is the reply's own exception. |
| Client.LocationSearchResult | src/mcp_kakao_local/kakao_local_client.py:57-58 | The result is the delivered record iff that record validates. A delivered but invalid record raises a validation failure for LocationSearchResponse, listing exactly the broken meta bounds. Otherwise the reply's own exception is raised. |
| Client.SearchByKeyword | src/mcp_kakao_local/kakao_local_client.py:34-58 | The request goes to /search/keyword with the client headers and the keyword params (sort defaults to accuracy). The result is the delivered record iff that record validates. An invalid record raises a LocationSearchResponse validation failure with the meta errors, and any other failure is the reply's own exception. |
| Client.SearchByCategory | src/mcp_kakao_local/kakao_local_client.py:60-82 | The request goes to /search/category with the client headers and the category params. The result is the delivered record iff that record validates. An invalid record raises a LocationSearchResponse validation failure with the meta errors, and any other failure is the reply's own exception. |
| Client.GetPlaceDetails | src/mcp_kakao_local/kakao_local_client.py:84-102 | The call uses the detail request. The payload is passed through iff the status is 2xx and the body decoded, and every other reply raises its own exception, the classified client error for a non-2xx status. |
| Client.KeywordSearchExtendsCategorySearch | src/mcp_kakao_local/kakao_local_client.py:34-82 | With a code, a center and a non-zero radius, a keyword search sends the category search's params plus the query, with the same headers, and gets the same result from the same reply. |
| Server.FindCoordinatesTool | src/mcp_kakao_local/server.py:46-62 | The tool rejects exactly an empty address or page < 1 and never raises. Otherwise it sends the client's address request: /search/address with the client headers, query, the unchanged page and size 10. Zero delivered documents give the fixed "No coordinates found. Check if the address is correct." failure, while a non-empty valid response is returned as is. Every client exception becomes a failure carrying its text. |
| Server.Caught | src/mcp_kakao_local/server.py:134-137 | A caught call never raises. A record is returned as is, and an exception becomes a failure carrying its text. |
| Server.SearchByKeywordTool | src/mcp_kakao_local/server.py:65-97 | The tool rejects an empty keyword, radius <= 0 or page < 1. It raises an assertion failure, with nothing sent, iff exactly one of center and radius is given. Otherwise it sends /search/keyword with the client headers, the page unchanged, size 10 and sort accuracy. The code, x, y and radius keys are each present iff that filter is given, and hold its value. A delivered valid response is returned as is, and client exceptions become failures with their text. |
| Server.SearchByCategoryTool | src/mcp_kakao_local/server.py:100-121 | The tool rejects exactly radius <= 0 or page < 1 and never raises. Otherwise it sends /search/category with the client headers and all seven category params, the page unchanged. A delivered valid response is returned as is, and client exceptions become failures with their text. |
| Server.GetPlaceTool | src/mcp_kakao_local/server.py:124-137 | The tool rejects exactly place_id < 1 and never raises. Otherwise it sends the detail request for that id, which has no Authorization header. The payload is returned iff delivered, and any failure carries its exception's text. |
| Server.CaughtClientFailuresDistinguish | src/mcp_kakao_local/server.py:134-137 | For two non-2xx replies, the caught outcomes are equal iff the statuses and the httpx error texts are equal. |
| Server.PlaceToolFailuresDistinguish | src/mcp_kakao_local/server.py:124-137 | For two non-2xx replies to the same place id, the place tool gives equal outcomes iff the statuses and the httpx error texts are equal. |
| Server.CategoryToolFailuresDistinguish | src/mcp_kakao_local/server.py:100-121 | For two non-2xx replies to the same valid category call, the tool gives equal outcomes iff the statuses and the httpx error texts are equal. |
| Server.KeywordToolExtendsCategoryTool | src/mcp_kakao_local/server.py:65-121 | With a keyword, a code, a center and a positive radius, the keyword tool has the same outcome as the category tool and sends the same headers and params plus the query. |
| Server.DictFromPairs | src/mcp_kakao_local/server.py:146 | Building a dict from pairs with distinct keys gives one entry per pair, maps each key to its value, and adds no other key. |
| Server.CategoryGroupCodeResource | src/mcp_kakao_local/server.py:140-146 | The resource has 18 entries, maps every code's name to its description, and holds no key that is not a code's name. |

## Left out

- The httpx transport is not modelled: the async client lifetime, HTTP/2, TLS, and the
  encoding of params into a query string. Each operation receives the reply (or the transport
  failure) as an input instead.
- JSON-to-record decoding and pydantic's type coercion are not modelled. A 2xx body is either
  a decoded record or undecodable. Only the declared constraints are checked on decoded
  records.
- Errors.ExceptionText: the text of a pydantic validation error is not pydantic's own rendering.
  The model writes the error count, the model name and each failing field path.
- `Reply.errorText` is an input. It stands for `str(http_error)`, which httpx writes itself from
  the status line and the request URL. The error body the service sent is discarded by the code
  and is not kept in the model either.
- The `address` and `road_address` objects of an address document are free-form maps of
  strings; their contents are not constrained.
- `PlaceDetailResponse` is imported by the client but not defined in `models.py`. The detail
  payload is an opaque type that is passed through unchanged.
- Tool arguments arrive already decoded, so the framework's parsing of the category code and
  the coordinate object is not modelled. Only the declared constraints (non-empty strings,
  page >= 1, radius > 0, place_id >= 1) are checked, and a breach is reported as `Rejected`
  with the offending argument names.
- Tool and resource registration with the host framework, the instruction text and its
  advisory backoff rule, and environment loading are not modelled. The API key is a parameter
  of `Client.NewClient`.
- Running Python with assertions disabled (`-O`) would remove the center/radius checks. The
  model keeps them, as the code is written.
