/** `KakaoLocalClient`: how each operation builds its request and how the
    reply to that request becomes a record or an exception.

    The transport is not modelled: each operation is given the reply the
    upstream service sent (or the transport failure that replaced it) and
    returns the request it issued together with its result. */
module Client {
  import opened Wrappers
  import opened Decimal
  import opened Models
  import opened Errors

  const BaseUrl := "https://dapi.kakao.com/v2/local"
  const DetailUrlPrefix := "https://place-api.map.kakao.com/places/panel3/"

  /** A query-parameter value; `Null` is Python's `None`. */
  datatype Value = Null | Str(text: string) | Int(number: int)

  type Params = map<string, Value>

  predicate NoNulls(p: Params) {
    forall k :: k in p ==> p[k] != Null
  }

  datatype Request = Request(url: string, params: Params, headers: map<string, string>)

  /** The client keeps only the headers it sends on every credentialed call. */
  datatype KakaoLocalClient = KakaoLocalClient(headers: map<string, string>)

  const AuthorizationScheme := "KakaoAK "
  const MissingKeyDetail := "missing REST API key"

  /** The headers sent with every credentialed request. */
  function CredentialHeaders(key: string): (h: map<string, string>)
    ensures h.Keys == {"Authorization", "accept", "content-type"}
    ensures h["Authorization"] == "KakaoAK " + key
  {
    map[
      "Authorization" := AuthorizationScheme + key,
      "accept" := "application/json",
      "content-type" := "application/json"]
  }

  /** Construction from the `REST_API_KEY` setting, absent or present. */
  function NewClient(restApiKey: Option<string>): (r: Result<KakaoLocalClient, ClientError>)
    ensures r.Err? <==> restApiKey.None? || |restApiKey.value| == 0
    ensures r.Err? ==> r.error.Auth? && Message(r.error) == AuthPrefix + MissingKeyDetail
    ensures r.Ok? ==> r.value.headers.Keys == {"Authorization", "accept", "content-type"}
    ensures r.Ok? ==> r.value.headers["Authorization"] == "KakaoAK " + restApiKey.value
  {
    match restApiKey
    case None => Err(Auth(MissingKeyDetail))
    case Some(key) =>
      if |key| == 0 then Err(Auth(MissingKeyDetail))
      else Ok(KakaoLocalClient(CredentialHeaders(key)))
  }

  /** Different keys give different clients: the key survives in the
      Authorization header. */
  lemma NewClientInjective(a: string, b: string)
    requires |a| > 0 && |b| > 0
    ensures NewClient(Some(a)) == NewClient(Some(b)) <==> a == b
  {
    if NewClient(Some(a)) == NewClient(Some(b)) {
      PrefixCancel(AuthorizationScheme, a, b);
    }
  }

  /** The fixed browser-style headers of the place-detail endpoint. */
  const DetailHeaders: map<string, string> := map[
    "Accept" := "application/json, text/plain, */*",
    "Accept-Encoding" := "gzip, deflate, br",
    "Accept-Language" := "en-US,en;q=0.9",
    "Connection" := "keep-alive",
    "Dnt" := "1",
    "Origin" := "https://place.map.kakao.com",
    "Referer" := "https://place.map.kakao.com/",
    "Pf" := "web",
    "User-Agent" := "Mozilla/5.0 (Macintosh; Intel Mac OS X 10_15_7) AppleWebKit/537.36 (KHTML, like Gecko) Chrome/135.0.0.0 Safari/537.36"]

  function AddressParams(address: string, page: int, size: int): (p: Params)
    ensures NoNulls(p)
    ensures p.Keys == {"query", "page", "size"}
    ensures p["query"] == Str(address) && p["page"] == Int(page) && p["size"] == Int(size)
  {
    map["query" := Str(address), "page" := Int(page), "size" := Int(size)]
  }

  /** The dict comprehension that keeps only the entries that are not `None`. */
  function DropNulls(candidates: Params): (p: Params)
    ensures NoNulls(p)
    ensures forall k :: k in p <==> k in candidates && candidates[k] != Null
    ensures forall k :: k in p ==> p[k] == candidates[k]
  {
    map k | k in candidates && candidates[k] != Null :: candidates[k]
  }

  /** Every keyword-search key, with `Null` standing for an absent filter. */
  function KeywordCandidates(
    keyword: string,
    categoryGroupCode: Option<CategoryGroupCode>,
    center: Option<Coordinate>,
    radius: Option<int>,
    page: int,
    size: int,
    sort: LocationSortOption): (c: Params)
    ensures c.Keys == {"query", "category_group_code", "x", "y", "radius", "page", "size", "sort"}
    ensures c["query"] == Str(keyword) && c["page"] == Int(page)
    ensures c["size"] == Int(size) && c["sort"] == Str(sort.Value())
    ensures c["category_group_code"] == if categoryGroupCode.Some? then Str(categoryGroupCode.value.Name()) else Null
    ensures c["x"] == if center.Some? then Str(center.value.longitude) else Null
    ensures c["y"] == if center.Some? then Str(center.value.latitude) else Null
    ensures c["radius"] == if radius.Some? && radius.value != 0 then Int(radius.value) else Null
  {
    map[
      "query" := Str(keyword),
      "category_group_code" := if categoryGroupCode.Some? then Str(categoryGroupCode.value.Name()) else Null,
      "x" := if center.Some? then Str(center.value.longitude) else Null,
      "y" := if center.Some? then Str(center.value.latitude) else Null,
      "radius" := if radius.Some? && radius.value != 0 then Int(radius.value) else Null,
      "page" := Int(page),
      "size" := Int(size),
      "sort" := Str(sort.Value())]
  }

  /** Every optional filter is first written as `Null` when absent and the
      `Null` entries are then dropped, so an absent filter has no key at all. */
  function KeywordParams(
    keyword: string,
    categoryGroupCode: Option<CategoryGroupCode>,
    center: Option<Coordinate>,
    radius: Option<int>,
    page: int,
    size: int,
    sort: LocationSortOption): (p: Params)
    ensures NoNulls(p)
    ensures p.Keys <= {"query", "category_group_code", "x", "y", "radius", "page", "size", "sort"}
    ensures "query" in p && p["query"] == Str(keyword)
    ensures "page" in p && p["page"] == Int(page)
    ensures "size" in p && p["size"] == Int(size)
    ensures "sort" in p && p["sort"] == Str(sort.Value())
    ensures "category_group_code" in p <==> categoryGroupCode.Some?
    ensures categoryGroupCode.Some? ==> p["category_group_code"] == Str(categoryGroupCode.value.Name())
    ensures ("x" in p <==> center.Some?) && ("y" in p <==> center.Some?)
    ensures center.Some? ==>
      p["x"] == Str(center.value.longitude) && p["y"] == Str(center.value.latitude)
    ensures "radius" in p <==> radius.Some? && radius.value != 0
    ensures "radius" in p ==> p["radius"] == Int(radius.value)
  {
    DropNulls(KeywordCandidates(keyword, categoryGroupCode, center, radius, page, size, sort))
  }

  /** The same parameters built the other way round: start from the
      mandatory key and insert each optional filter only when it is given. */
  function KeywordParamsByInsertion(
    keyword: string,
    categoryGroupCode: Option<CategoryGroupCode>,
    center: Option<Coordinate>,
    radius: Option<int>,
    page: int,
    size: int,
    sort: LocationSortOption): Params
  {
    var withQuery := map["query" := Str(keyword)];
    var withCode :=
      if categoryGroupCode.Some? then withQuery["category_group_code" := Str(categoryGroupCode.value.Name())]
      else withQuery;
    var withCenter :=
      if center.Some? then withCode["x" := Str(center.value.longitude)]["y" := Str(center.value.latitude)]
      else withCode;
    var withRadius :=
      if radius.Some? && radius.value != 0 then withCenter["radius" := Int(radius.value)] else withCenter;
    withRadius["page" := Int(page)]["size" := Int(size)]["sort" := Str(sort.Value())]
  }

  /** Dropping `None` entries after the fact sends exactly what conditional
      insertion would have sent. */
  lemma KeywordParamsBuildersAgree(
    keyword: string,
    categoryGroupCode: Option<CategoryGroupCode>,
    center: Option<Coordinate>,
    radius: Option<int>,
    page: int,
    size: int,
    sort: LocationSortOption)
    ensures KeywordParams(keyword, categoryGroupCode, center, radius, page, size, sort)
         == KeywordParamsByInsertion(keyword, categoryGroupCode, center, radius, page, size, sort)
  {
  }

  function CategoryParams(
    categoryGroupCode: CategoryGroupCode,
    center: Coordinate,
    radius: int,
    page: int,
    size: int,
    sort: LocationSortOption): (p: Params)
    ensures NoNulls(p)
    ensures p.Keys == {"category_group_code", "x", "y", "radius", "page", "size", "sort"}
    ensures p["category_group_code"] == Str(categoryGroupCode.Name())
    ensures p["x"] == Str(center.longitude) && p["y"] == Str(center.latitude)
    ensures p["radius"] == Int(radius)
    ensures p["page"] == Int(page) && p["size"] == Int(size) && p["sort"] == Str(sort.Value())
  {
    map[
      "category_group_code" := Str(categoryGroupCode.Name()),
      "x" := Str(center.longitude),
      "y" := Str(center.latitude),
      "radius" := Int(radius),
      "page" := Int(page),
      "size" := Int(size),
      "sort" := Str(sort.Value())]
  }

  /** A keyword search with every filter given sends the category search's
      params plus the query. */
  lemma KeywordParamsExtendCategoryParams(
    keyword: string,
    categoryGroupCode: CategoryGroupCode,
    center: Coordinate,
    radius: int,
    page: int,
    size: int,
    sort: LocationSortOption)
    requires radius != 0
    ensures KeywordParams(keyword, Some(categoryGroupCode), Some(center), Some(radius), page, size, sort)
         == CategoryParams(categoryGroupCode, center, radius, page, size, sort)["query" := Str(keyword)]
  {
  }

  /** The address lookup sends the mandatory keys of a keyword search, save
      the sort order. */
  lemma AddressParamsAreKeywordCore(address: string, page: int, size: int, sort: LocationSortOption)
    ensures AddressParams(address, page, size) == KeywordParams(address, None, None, None, page, size, sort) - {"sort"}
  {
  }

  /** With no filter given, only the four mandatory keys are sent; a zero
      radius counts as no radius. */
  lemma KeywordFiltersOmitted(keyword: string, radius: Option<int>, page: int, size: int, sort: LocationSortOption)
    requires radius.None? || radius == Some(0)
    ensures KeywordParams(keyword, None, None, radius, page, size, sort).Keys == {"query", "page", "size", "sort"}
  {
  }

  function DetailRequest(placeId: int): (r: Request)
    ensures r.url == DetailUrlPrefix + ShowInt(placeId)
    ensures r.params == map[]
    ensures r.headers == DetailHeaders
    ensures "Authorization" !in r.headers
  {
    Request(DetailUrlPrefix + ShowInt(placeId), map[], DetailHeaders)
  }

  /** Different places are fetched from different URLs. */
  lemma DetailRequestInjective(a: int, b: int)
    ensures DetailRequest(a) == DetailRequest(b) <==> a == b
  {
    if DetailRequest(a) == DetailRequest(b) {
      PrefixCancel(DetailUrlPrefix, ShowInt(a), ShowInt(b));
      ShowIntInjective(a, b);
    }
  }

  /** The place-detail request shares neither host nor headers with the
      credentialed requests of any client that could be built. */
  lemma DetailRequestSeparate(restApiKey: Option<string>, placeId: int, path: string)
    requires NewClient(restApiKey).Ok?
    ensures DetailRequest(placeId).headers != NewClient(restApiKey).value.headers
    ensures DetailRequest(placeId).url != BaseUrl + path
  {
    assert "Authorization" in NewClient(restApiKey).value.headers;
    assert DetailRequest(placeId).url[8] == 'p';
    assert (BaseUrl + path)[8] == 'd';
  }

  /** Raising for status happens for every status outside 200..299, that is
      for every status whose hundreds digit is not 2. */
  function IsSuccessStatus(status: int): (ok: bool)
    ensures ok <==> status / 100 == 2
  {
    200 <= status <= 299
  }

  /** Every status that is raised for reaches a raising branch of
      `_handle_response_status`: its fall-through for 200 is never taken. */
  lemma RaisedStatusIsClassified(status: int, errorText: string)
    requires !IsSuccessStatus(status)
    ensures ClassifyStatus(status, errorText).Some?
    ensures KeyedStatus(ClassifyStatus(status, errorText).value) == status
  {
  }

  datatype Body<T> = Decoded(record: T) | Undecodable(reason: string)

  /** What the transport hands back for one request. */
  datatype Reply<T> =
    | NoResponse(reason: string)
      /** `errorText` is `str()` of the status error httpx raises for a
          status outside 200..299; httpx writes it from the status line and
          the URL, not from the body. */
    | Received(status: int, errorText: string, body: Body<T>)

  /** A successful status carrying a well-shaped body. */
  predicate Delivered<T>(reply: Reply<T>) {
    reply.Received? && IsSuccessStatus(reply.status) && reply.body.Decoded?
  }

  /** `_get` once the request is out, and the same steps in
      `get_place_details`: raise for status, then read the body. */
  function Receive<T>(reply: Reply<T>): (r: Result<T, Exception>)
    ensures r.Ok? <==> Delivered(reply)
    ensures r.Ok? ==> r.value == reply.body.record
    ensures reply.NoResponse? ==> r == Err(TransportFailure(reply.reason))
    ensures reply.Received? && IsSuccessStatus(reply.status) && reply.body.Undecodable? ==>
      r == Err(DecodeFailure(reply.body.reason))
    ensures reply.Received? && !IsSuccessStatus(reply.status) ==>
      r == Err(ClientFailure(ClassifyStatus(reply.status, reply.errorText).value))
    ensures reply.Received? && reply.status == 400 ==> r == Err(ClientFailure(BadRequest(reply.errorText)))
    ensures reply.Received? && reply.status == 401 ==> r == Err(ClientFailure(Auth(reply.errorText)))
    ensures reply.Received? && reply.status == 420 ==> r == Err(ClientFailure(RateLimit(reply.errorText)))
    ensures reply.Received? && !IsSuccessStatus(reply.status) && reply.status !in {400, 401, 420} ==>
      r == Err(ClientFailure(Unexpected(reply.status, reply.errorText)))
  {
    match reply
    case NoResponse(reason) => Err(TransportFailure(reason))
    case Received(status, errorText, body) =>
      if IsSuccessStatus(status) then
        match body
        case Decoded(record) => Ok(record)
        case Undecodable(reason) => Err(DecodeFailure(reason))
      else Err(ClientFailure(ClassifyStatus(status, errorText).value))
  }

  /** The request an operation issued and what came of it. */
  datatype Exchange<T> = Exchange(request: Request, result: Result<T, Exception>)

  function FindCoordinates(
    client: KakaoLocalClient,
    reply: Reply<AddressResponse>,
    address: string,
    page: int := 1,
    size: int := 10): (x: Exchange<AddressResponse>)
    ensures x.request == Request(BaseUrl + "/search/address", AddressParams(address, page, size), client.headers)
    ensures x.result.Ok? <==> Delivered(reply) && ValidAddressResponse(reply.body.record)
    ensures x.result.Ok? ==> x.result.value == reply.body.record
    ensures Delivered(reply) && !ValidAddressResponse(reply.body.record) ==>
      x.result == Err(ValidationFailure("AddressResponse", AddressResponseErrors(reply.body.record)))
    ensures Delivered(reply) && !ValidAddressResponse(reply.body.record) ==>
      forall p :: p in x.result.error.locations <==> FailingAddressLocation(reply.body.record, p)
    ensures !Delivered(reply) ==> x.result == Receive(reply)
  {
    var result :=
      match Receive(reply)
      case Err(ex) => Err(ex)
      case Ok(record) =>
        match ValidateAddressResponse(record)
        case Ok(response) => Ok(response)
        case Err(locations) => Err(ValidationFailure("AddressResponse", locations));
    Exchange(Request(BaseUrl + "/search/address", AddressParams(address, page, size), client.headers), result)
  }

  /** Building a `LocationSearchResponse` from a reply; shared by both searches. */
  function LocationSearchResult(reply: Reply<LocationSearchResponse>): (r: Result<LocationSearchResponse, Exception>)
    ensures r.Ok? <==> Delivered(reply) && ValidLocationSearchResponse(reply.body.record)
    ensures r.Ok? ==> r.value == reply.body.record
    ensures Delivered(reply) && !ValidLocationSearchResponse(reply.body.record) ==>
      r.Err? && r.error.ValidationFailure? && r.error.model == "LocationSearchResponse"
    ensures Delivered(reply) && !ValidLocationSearchResponse(reply.body.record) ==>
      forall p :: p in r.error.locations <==> FailingMetaLocation(reply.body.record.meta, p)
    ensures !Delivered(reply) ==> r == Receive(reply)
  {
    match Receive(reply)
    case Err(ex) => Err(ex)
    case Ok(record) =>
      match ValidateLocationSearchResponse(record)
      case Ok(response) => Ok(response)
      case Err(locations) => Err(ValidationFailure("LocationSearchResponse", locations))
  }

  function SearchByKeyword(
    client: KakaoLocalClient,
    reply: Reply<LocationSearchResponse>,
    keyword: string,
    categoryGroupCode: Option<CategoryGroupCode>,
    center: Option<Coordinate>,
    radius: Option<int>,
    page: int := 1,
    size: int := 10,
    sort: LocationSortOption := Accuracy): (x: Exchange<LocationSearchResponse>)
    ensures x.request.url == BaseUrl + "/search/keyword"
    ensures x.request.headers == client.headers
    ensures x.request.params == KeywordParams(keyword, categoryGroupCode, center, radius, page, size, sort)
    ensures x.result.Ok? <==> Delivered(reply) && ValidLocationSearchResponse(reply.body.record)
    ensures x.result.Ok? ==> x.result.value == reply.body.record
    ensures Delivered(reply) && !ValidLocationSearchResponse(reply.body.record) ==>
      x.result == Err(ValidationFailure("LocationSearchResponse", MetaErrors(reply.body.record.meta)))
    ensures !Delivered(reply) ==> x.result == Receive(reply)
  {
    Exchange(
      Request(BaseUrl + "/search/keyword",
              KeywordParams(keyword, categoryGroupCode, center, radius, page, size, sort),
              client.headers),
      LocationSearchResult(reply))
  }

  function SearchByCategory(
    client: KakaoLocalClient,
    reply: Reply<LocationSearchResponse>,
    categoryGroupCode: CategoryGroupCode,
    center: Coordinate,
    radius: int,
    page: int := 1,
    size: int := 10,
    sort: LocationSortOption := Accuracy): (x: Exchange<LocationSearchResponse>)
    ensures x.request.url == BaseUrl + "/search/category"
    ensures x.request.headers == client.headers
    ensures x.request.params == CategoryParams(categoryGroupCode, center, radius, page, size, sort)
    ensures x.result.Ok? <==> Delivered(reply) && ValidLocationSearchResponse(reply.body.record)
    ensures x.result.Ok? ==> x.result.value == reply.body.record
    ensures Delivered(reply) && !ValidLocationSearchResponse(reply.body.record) ==>
      x.result == Err(ValidationFailure("LocationSearchResponse", MetaErrors(reply.body.record.meta)))
    ensures !Delivered(reply) ==> x.result == Receive(reply)
  {
    Exchange(
      Request(BaseUrl + "/search/category",
              CategoryParams(categoryGroupCode, center, radius, page, size, sort),
              client.headers),
      LocationSearchResult(reply))
  }

  /** The detail payload is not described by any record; it is passed on as
      received, whatever its type `D`. */
  function GetPlaceDetails<D>(reply: Reply<D>, placeId: int): (x: Exchange<D>)
    ensures x.request == DetailRequest(placeId)
    ensures x.result.Ok? <==> Delivered(reply)
    ensures x.result.Ok? ==> x.result.value == reply.body.record
    ensures !Delivered(reply) ==> x.result == Receive(reply)
  {
    Exchange(DetailRequest(placeId), Receive(reply))
  }

  /** A keyword search with every filter given is a category search with a
      query added: same headers, same reply handling. */
  lemma KeywordSearchExtendsCategorySearch(
    client: KakaoLocalClient,
    reply: Reply<LocationSearchResponse>,
    keyword: string,
    categoryGroupCode: CategoryGroupCode,
    center: Coordinate,
    radius: int,
    page: int,
    size: int,
    sort: LocationSortOption)
    requires radius != 0
    ensures var k := SearchByKeyword(client, reply, keyword, Some(categoryGroupCode), Some(center), Some(radius), page, size, sort);
            var c := SearchByCategory(client, reply, categoryGroupCode, center, radius, page, size, sort);
      && k.request.params == c.request.params["query" := Str(keyword)]
      && k.request.headers == c.request.headers
      && k.result == c.result
  {
    KeywordParamsExtendCategoryParams(keyword, categoryGroupCode, center, radius, page, size, sort);
  }
}
