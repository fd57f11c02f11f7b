/** The four tools and the category resource the server exposes.

    A tool's arguments are first checked against their declared constraints
    by the hosting framework; a call that breaks one never reaches the tool
    body. Inside the body, whatever the client raises within the `try` is
    turned into a `{success: false, error: str(ex)}` result. */
module Server {
  import opened Wrappers
  import opened Decimal
  import opened Models
  import opened Errors
  import opened Client

  const NoCoordinatesMessage := "No coordinates found. Check if the address is correct."

  /** What the host sees of one tool call. */
  datatype ToolOutcome<T> =
      /** The client's record, returned as is. */
    | Returned(value: T)
      /** `{success: false, error: error}`. */
    | Failed(error: string)
      /** An exception that left the tool body. */
    | Raised(exception: Exception)
      /** The named arguments broke their declared constraints. */
    | Rejected(arguments: set<string>)

  /** The request the call issued, if any, and its outcome. */
  datatype ToolCall<T> = ToolCall(sent: Option<Request>, outcome: ToolOutcome<T>)

  /** The `except Exception` clause around a client call. */
  function Caught<T>(r: Result<T, Exception>): (outcome: ToolOutcome<T>)
    ensures outcome.Returned? || outcome.Failed?
    ensures r.Ok? ==> outcome == Returned(r.value)
    ensures r.Err? ==> outcome == Failed(ExceptionText(r.error))
  {
    match r
    case Ok(v) => Returned(v)
    case Err(ex) => Failed(ExceptionText(ex))
  }

  function FindCoordinatesTool(
    client: KakaoLocalClient,
    reply: Reply<AddressResponse>,
    address: string,
    page: int := 1): (call: ToolCall<AddressResponse>)
    ensures call.outcome.Rejected? <==> |address| == 0 || page < 1
    ensures call.outcome.Rejected? ==>
      ("address" in call.outcome.arguments <==> |address| == 0) &&
      ("page" in call.outcome.arguments <==> page < 1)
    ensures call.sent.None? <==> call.outcome.Rejected?
    ensures !call.outcome.Raised?
    ensures call.sent.Some? ==>
      call.sent.value.params == map["query" := Str(address), "page" := Int(page), "size" := Int(10)]
    ensures call.sent.Some? ==>
      && call.sent.value.url == BaseUrl + "/search/address"
      && call.sent.value.headers == client.headers
      && call.sent.value == FindCoordinates(client, reply, address, page).request
    ensures call.outcome.Returned? ==>
      && Delivered(reply) && call.outcome.value == reply.body.record
      && ValidAddressResponse(call.outcome.value) && |call.outcome.value.documents| >= 1
    ensures call.sent.Some? && Delivered(reply) && ValidAddressResponse(reply.body.record) ==>
      call.outcome == (if |reply.body.record.documents| == 0 then Failed(NoCoordinatesMessage)
                       else Returned(reply.body.record))
    ensures call.sent.Some? ==>
      var result := FindCoordinates(client, reply, address, page).result;
      result.Err? ==> call.outcome == Failed(ExceptionText(result.error))
  {
    var invalid := (if |address| == 0 then {"address"} else {}) + (if page < 1 then {"page"} else {});
    if invalid != {} then ToolCall(None, Rejected(invalid))
    else
      var x := FindCoordinates(client, reply, address, page := page);
      var outcome :=
        match x.result
        case Err(ex) => Failed(ExceptionText(ex))
        case Ok(response) =>
          if |response.documents| == 0 then Failed(NoCoordinatesMessage) else Returned(response);
      ToolCall(Some(x.request), outcome)
  }

  /** Every argument constraint of the keyword tool holds. */
  predicate KeywordArgumentsValid(keyword: string, radius: Option<int>, page: int) {
    && |keyword| >= 1
    && (radius.None? || radius.value > 0)
    && page >= 1
  }

  /** The center/radius checks are bare assertions placed before the `try`:
      when one fails, nothing is sent and the failure is not converted. */
  function SearchByKeywordTool(
    client: KakaoLocalClient,
    reply: Reply<LocationSearchResponse>,
    keyword: string,
    categoryGroupCode: Option<CategoryGroupCode> := None,
    center: Option<Coordinate> := None,
    radius: Option<int> := None,
    page: int := 1): (call: ToolCall<LocationSearchResponse>)
    ensures call.outcome.Rejected? <==> !KeywordArgumentsValid(keyword, radius, page)
    ensures call.outcome.Rejected? ==>
      ("keyword" in call.outcome.arguments <==> |keyword| == 0) &&
      ("radius_from_center" in call.outcome.arguments <==> radius.Some? && radius.value <= 0) &&
      ("page" in call.outcome.arguments <==> page < 1)
    ensures call.outcome.Raised? <==>
      KeywordArgumentsValid(keyword, radius, page) && center.Some? != radius.Some?
    ensures call.outcome.Raised? ==> call.outcome.exception == AssertionFailure
    ensures call.sent.Some? <==>
      KeywordArgumentsValid(keyword, radius, page) && center.Some? == radius.Some?
    ensures call.sent.Some? ==>
      var p := call.sent.value.params;
      && call.sent.value.url == BaseUrl + "/search/keyword"
      && call.sent.value.headers == client.headers
      && p == KeywordParams(keyword, categoryGroupCode, center, radius, page, 10, Accuracy)
      && p["query"] == Str(keyword) && p["page"] == Int(page)
      && p["size"] == Int(10) && p["sort"] == Str("accuracy")
      && ("category_group_code" in p <==> categoryGroupCode.Some?)
      && ("x" in p <==> center.Some?) && ("y" in p <==> center.Some?)
      && ("radius" in p <==> radius.Some?)
      && (categoryGroupCode.Some? ==> p["category_group_code"] == Str(categoryGroupCode.value.Name()))
      && (center.Some? ==> p["x"] == Str(center.value.longitude) && p["y"] == Str(center.value.latitude))
      && (radius.Some? ==> p["radius"] == Int(radius.value))
    ensures call.outcome.Returned? ==>
      && Delivered(reply) && call.outcome.value == reply.body.record
      && ValidLocationSearchResponse(call.outcome.value)
    ensures call.sent.Some? && Delivered(reply) && ValidLocationSearchResponse(reply.body.record) ==>
      call.outcome == Returned(reply.body.record)
    ensures call.sent.Some? ==>
      var result := LocationSearchResult(reply);
      result.Err? ==> call.outcome == Failed(ExceptionText(result.error))
  {
    var invalid :=
      (if |keyword| == 0 then {"keyword"} else {})
      + (if radius.Some? && radius.value <= 0 then {"radius_from_center"} else {})
      + (if page < 1 then {"page"} else {});
    if invalid != {} then ToolCall(None, Rejected(invalid))
    else if center.Some? && radius.None? then ToolCall(None, Raised(AssertionFailure))
    else if radius.Some? && radius.value != 0 && center.None? then ToolCall(None, Raised(AssertionFailure))
    else
      var x := SearchByKeyword(client, reply, keyword, categoryGroupCode, center, radius, page := page);
      ToolCall(Some(x.request), Caught(x.result))
  }

  function SearchByCategoryTool(
    client: KakaoLocalClient,
    reply: Reply<LocationSearchResponse>,
    categoryGroupCode: CategoryGroupCode,
    center: Coordinate,
    radius: int,
    page: int := 1): (call: ToolCall<LocationSearchResponse>)
    ensures call.outcome.Rejected? <==> radius <= 0 || page < 1
    ensures call.outcome.Rejected? ==>
      ("radius_from_center" in call.outcome.arguments <==> radius <= 0) &&
      ("page" in call.outcome.arguments <==> page < 1)
    ensures call.sent.None? <==> call.outcome.Rejected?
    ensures !call.outcome.Raised?
    ensures call.sent.Some? ==>
      var p := call.sent.value.params;
      && call.sent.value.url == BaseUrl + "/search/category"
      && p.Keys == {"category_group_code", "x", "y", "radius", "page", "size", "sort"}
      && p["category_group_code"] == Str(categoryGroupCode.Name())
      && p["x"] == Str(center.longitude) && p["y"] == Str(center.latitude)
      && p["radius"] == Int(radius) && p["page"] == Int(page)
      && p["size"] == Int(10) && p["sort"] == Str("accuracy")
    ensures call.sent.Some? ==> call.sent.value.headers == client.headers
    ensures call.outcome.Returned? ==>
      && Delivered(reply) && call.outcome.value == reply.body.record
      && ValidLocationSearchResponse(call.outcome.value)
    ensures call.sent.Some? && Delivered(reply) && ValidLocationSearchResponse(reply.body.record) ==>
      call.outcome == Returned(reply.body.record)
    ensures call.sent.Some? ==>
      var result := LocationSearchResult(reply);
      result.Err? ==> call.outcome == Failed(ExceptionText(result.error))
  {
    var invalid :=
      (if radius <= 0 then {"radius_from_center"} else {})
      + (if page < 1 then {"page"} else {});
    if invalid != {} then ToolCall(None, Rejected(invalid))
    else
      var x := SearchByCategory(client, reply, categoryGroupCode, center, radius, page := page);
      ToolCall(Some(x.request), Caught(x.result))
  }

  function GetPlaceTool<D>(reply: Reply<D>, placeId: int): (call: ToolCall<D>)
    ensures call.outcome.Rejected? <==> placeId < 1
    ensures call.outcome.Rejected? ==> call.outcome.arguments == {"place_id"}
    ensures call.sent.None? <==> call.outcome.Rejected?
    ensures !call.outcome.Raised?
    ensures call.sent.Some? ==>
      && call.sent.value.url == DetailUrlPrefix + ShowInt(placeId)
      && "Authorization" !in call.sent.value.headers
    ensures call.sent.Some? ==> call.sent.value == DetailRequest(placeId)
    ensures call.outcome.Returned? ==> Delivered(reply) && call.outcome.value == reply.body.record
    ensures call.sent.Some? && Delivered(reply) ==> call.outcome == Returned(reply.body.record)
    ensures call.sent.Some? ==>
      var result := Receive(reply);
      result.Err? ==> call.outcome == Failed(ExceptionText(result.error))
  {
    if placeId < 1 then ToolCall(None, Rejected({"place_id"}))
    else
      var x := GetPlaceDetails(reply, placeId);
      ToolCall(Some(x.request), Caught(x.result))
  }

  /** Two error replies to the same call look alike to the host only when
      they carry the same status and the same httpx error text. */
  lemma CaughtClientFailuresDistinguish<T>(a: Reply<T>, b: Reply<T>)
    requires a.Received? && !IsSuccessStatus(a.status)
    requires b.Received? && !IsSuccessStatus(b.status)
    ensures Caught(Receive(a)) == Caught(Receive(b)) <==> a.status == b.status && a.errorText == b.errorText
  {
    ClassifyDistinguishes(a.status, a.errorText, b.status, b.errorText);
  }

  /** The place tool's failure text tells error replies apart. */
  lemma PlaceToolFailuresDistinguish<D>(a: Reply<D>, b: Reply<D>, placeId: int)
    requires placeId >= 1
    requires a.Received? && !IsSuccessStatus(a.status)
    requires b.Received? && !IsSuccessStatus(b.status)
    ensures GetPlaceTool(a, placeId).outcome == GetPlaceTool(b, placeId).outcome
      <==> a.status == b.status && a.errorText == b.errorText
  {
    CaughtClientFailuresDistinguish(a, b);
  }

  /** The category tool's failure text tells error replies apart. */
  lemma CategoryToolFailuresDistinguish(
    client: KakaoLocalClient,
    a: Reply<LocationSearchResponse>,
    b: Reply<LocationSearchResponse>,
    categoryGroupCode: CategoryGroupCode,
    center: Coordinate,
    radius: int,
    page: int)
    requires radius > 0 && page >= 1
    requires a.Received? && !IsSuccessStatus(a.status)
    requires b.Received? && !IsSuccessStatus(b.status)
    ensures SearchByCategoryTool(client, a, categoryGroupCode, center, radius, page).outcome
         == SearchByCategoryTool(client, b, categoryGroupCode, center, radius, page).outcome
      <==> a.status == b.status && a.errorText == b.errorText
  {
    CaughtClientFailuresDistinguish(a, b);
  }

  /** With every filter given and valid, the keyword tool behaves as the
      category tool does, sending the same params plus the query. */
  lemma KeywordToolExtendsCategoryTool(
    client: KakaoLocalClient,
    reply: Reply<LocationSearchResponse>,
    keyword: string,
    categoryGroupCode: CategoryGroupCode,
    center: Coordinate,
    radius: int,
    page: int)
    requires |keyword| >= 1 && radius > 0 && page >= 1
    ensures var k := SearchByKeywordTool(client, reply, keyword, Some(categoryGroupCode), Some(center), Some(radius), page);
            var c := SearchByCategoryTool(client, reply, categoryGroupCode, center, radius, page);
      && k.outcome == c.outcome
      && k.sent.Some? && c.sent.Some?
      && k.sent.value.params == c.sent.value.params["query" := Str(keyword)]
      && k.sent.value.headers == c.sent.value.headers
  {
    KeywordSearchExtendsCategorySearch(client, reply, keyword, categoryGroupCode, center, radius, page, 10, Accuracy);
  }

  /** A dict comprehension over pairs with distinct keys, in order. */
  method DictFromPairs<K, V>(pairs: seq<(K, V)>) returns (m: map<K, V>)
    requires forall i, j :: 0 <= i < j < |pairs| ==> pairs[i].0 != pairs[j].0
    ensures |m| == |pairs|
    ensures forall j :: 0 <= j < |pairs| ==> pairs[j].0 in m && m[pairs[j].0] == pairs[j].1
    ensures forall k :: k in m ==> exists j :: 0 <= j < |pairs| && pairs[j].0 == k
  {
    m := map[];
    var i := 0;
    while i < |pairs|
      invariant 0 <= i <= |pairs|
      invariant |m| == i
      invariant forall j :: 0 <= j < i ==> pairs[j].0 in m && m[pairs[j].0] == pairs[j].1
      invariant forall k :: k in m ==> exists j :: 0 <= j < i && pairs[j].0 == k
    {
      var (k, v) := pairs[i];
      m := m[k := v];
      i := i + 1;
    }
  }

  /** The category resource: every code's name mapped to its description. */
  method CategoryGroupCodeResource() returns (m: map<string, string>)
    ensures |m| == 18
    ensures forall c: CategoryGroupCode :: c.Name() in m && m[c.Name()] == c.Description()
    ensures forall k :: k in m ==> exists c: CategoryGroupCode :: c.Name() == k
  {
    var codes := AllCategoryCodes;
    CategoryCodesEnumerated(MT1);
    var pairs := seq(|codes|, j requires 0 <= j < |codes| => (codes[j].Name(), codes[j].Description()));
    m := DictFromPairs(pairs);
    forall c: CategoryGroupCode
      ensures c.Name() in m && m[c.Name()] == c.Description()
    {
      var j := CategoryIndex(c);
      assert pairs[j] == (c.Name(), c.Description());
    }
    forall k | k in m
      ensures exists c: CategoryGroupCode :: c.Name() == k
    {
      var j :| 0 <= j < |pairs| && pairs[j].0 == k;
      assert codes[j].Name() == k;
    }
  }
}
