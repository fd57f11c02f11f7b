/** The response records of the Kakao Local API and the enumerations the
    client sends, with the field constraints the records declare.

    Records are taken as already decoded from JSON; what is modelled is the
    constraint checking that runs when a record is constructed, reported as
    the list of field locations that fail, in field order. */
module Models {
  import opened Wrappers

  /** A point given as decimal strings, longitude first. */
  datatype Coordinate = Coordinate(longitude: string, latitude: string)

  datatype LocationSortOption = Distance | Accuracy {
    /** The text sent as the `sort` query parameter. */
    function Value(): string {
      match this
      case Distance => "distance"
      case Accuracy => "accuracy"
    }
  }

  lemma SortOptionMembers(o: LocationSortOption)
    ensures o == Distance || o == Accuracy
    ensures Distance.Value() == "distance" && Accuracy.Value() == "accuracy"
    ensures Distance.Value() != Accuracy.Value()
  {
  }

  /** The category groups the service understands. The constructor name is
      the code sent upstream; `Description` is the human-readable text. */
  datatype CategoryGroupCode =
    | MT1 | CS2 | PS3 | SC4 | AC5 | PK6 | OL7 | SW8 | BK9
    | CT1 | AG2 | PO3 | AT4 | AD5 | FD6 | CE7 | HP8 | PM9
  {
    function Name(): string {
      match this
      case MT1 => "MT1" case CS2 => "CS2" case PS3 => "PS3"
      case SC4 => "SC4" case AC5 => "AC5" case PK6 => "PK6"
      case OL7 => "OL7" case SW8 => "SW8" case BK9 => "BK9"
      case CT1 => "CT1" case AG2 => "AG2" case PO3 => "PO3"
      case AT4 => "AT4" case AD5 => "AD5" case FD6 => "FD6"
      case CE7 => "CE7" case HP8 => "HP8" case PM9 => "PM9"
    }

    function Description(): string {
      match this
      case MT1 => "대형마트 (Large Mart, Grocery Store)"
      case CS2 => "편의점 (Convenience Store)"
      case PS3 => "어린이집, 유치원 (Daycare, Kindergarten)"
      case SC4 => "학교 (School)"
      case AC5 => "학원 (Academy/Private Institute)"
      case PK6 => "주차장 (Parking Lot)"
      case OL7 => "주유소, 충전소 (Gas Station, Charging Station)"
      case SW8 => "지하철역 (Subway Station)"
      case BK9 => "은행 (Bank)"
      case CT1 => "문화시설 (Cultural Facility)"
      case AG2 => "중개업소 (Agency, e.g. Real Estate)"
      case PO3 => "공공기관 (Public Institution)"
      case AT4 => "관광명소 (Tourist Attraction)"
      case AD5 => "숙박 (Accommodation)"
      case FD6 => "음식점 (Restaurant)"
      case CE7 => "카페 (Cafe)"
      case HP8 => "병원 (Hospital)"
      case PM9 => "약국 (Pharmacy)"
    }
  }

  /** The members in declaration order, as iterating the enumeration yields them. */
  const AllCategoryCodes: seq<CategoryGroupCode> :=
    [MT1, CS2, PS3, SC4, AC5, PK6, OL7, SW8, BK9,
     CT1, AG2, PO3, AT4, AD5, FD6, CE7, HP8, PM9]

  lemma CategoryCodesEnumerated(c: CategoryGroupCode)
    ensures |AllCategoryCodes| == 18
    ensures c in AllCategoryCodes
    ensures forall i, j :: 0 <= i < j < |AllCategoryCodes| ==>
      AllCategoryCodes[i].Name() != AllCategoryCodes[j].Name()
  {
  }

  /** Where a member sits in the enumeration. */
  lemma CategoryIndex(c: CategoryGroupCode) returns (j: nat)
    ensures j < |AllCategoryCodes| && AllCategoryCodes[j] == c
  {
    CategoryCodesEnumerated(c);
    j :| j < |AllCategoryCodes| && AllCategoryCodes[j] == c;
  }

  /** Two members with the same name are the same member. */
  lemma CategoryNameInjective(a: CategoryGroupCode, b: CategoryGroupCode)
    ensures a.Name() == b.Name() <==> a == b
  {
  }

  /** Region/keyword analysis of a query that mixed a place name with a region. */
  datatype SameName = SameName(region: seq<string>, keyword: string, selected_region: string)

  datatype Meta = Meta(
    total_count: int,
    pageable_count: int,
    is_end: bool,
    same_name: Option<SameName> := None)

  datatype PlaceDocument = PlaceDocument(
    id: string,
    place_name: string,
    category_name: string,
    category_group_code: string,
    category_group_name: string,
    phone: string,
    address_name: string,
    road_address_name: string,
    x: string,
    y: string,
    place_url: string,
    distance: Option<string> := None)

  /** The lot- and road-address breakdowns are free-form objects. */
  type Details = map<string, string>

  datatype AddressDocument = AddressDocument(
    address_name: string,
    address_type: string,
    x: string,
    y: string,
    address: Details,
    road_address: Details)

  datatype LocationSearchResponse = LocationSearchResponse(meta: Meta, documents: seq<PlaceDocument>)

  datatype AddressResponse = AddressResponse(meta: Meta, documents: seq<AddressDocument>)

  /** An absent `same_name` or `distance` field reads as `None`. */
  lemma OptionalFieldsDefaultToNone(m: Meta, d: PlaceDocument)
    ensures Meta(m.total_count, m.pageable_count, m.is_end).same_name == None
    ensures PlaceDocument(d.id, d.place_name, d.category_name, d.category_group_code,
                          d.category_group_name, d.phone, d.address_name, d.road_address_name,
                          d.x, d.y, d.place_url).distance == None
  {
  }

  /** The service never reports more than this many pageable documents. */
  const MaxPageableCount := 45

  const AddressTypes: set<string> := {"REGION", "ROAD", "REGION_ADDR", "ROAD_ADDR"}

  predicate ValidMeta(m: Meta) {
    && 0 <= m.total_count
    && 0 <= m.pageable_count <= MaxPageableCount
  }

  predicate ValidAddressResponse(r: AddressResponse) {
    && ValidMeta(r.meta)
    && forall i :: 0 <= i < |r.documents| ==> r.documents[i].address_type in AddressTypes
  }

  predicate ValidLocationSearchResponse(r: LocationSearchResponse) {
    ValidMeta(r.meta)
  }

  /** The record fields that carry constraints, and the fields leading to them. */
  datatype Field = MetaField | TotalCount | PageableCount | Documents | AddressType {
    function Name(): string {
      match this
      case MetaField => "meta"
      case TotalCount => "total_count"
      case PageableCount => "pageable_count"
      case Documents => "documents"
      case AddressType => "address_type"
    }
  }

  /** Where a failing field sits inside a record. */
  datatype PathPart = Key(field: Field) | Index(position: nat)
  type Path = seq<PathPart>

  const TotalCountPath: Path := [Key(MetaField), Key(TotalCount)]
  const PageableCountPath: Path := [Key(MetaField), Key(PageableCount)]

  function AddressTypePath(i: nat): Path {
    [Key(Documents), Index(i), Key(AddressType)]
  }

  /** The locations of the documents at the given positions. */
  function AddressTypePaths(positions: seq<nat>): (paths: seq<Path>)
    ensures |paths| == |positions|
    ensures forall i: nat :: AddressTypePath(i) in paths <==> i in positions
    ensures forall p :: p in paths ==> |p| == 3 && p[0] == Key(Documents)
    ensures forall p :: p in paths ==> exists i: nat :: i in positions && p == AddressTypePath(i)
  {
    if |positions| == 0 then []
    else
      var rest := AddressTypePaths(positions[1..]);
      assert forall i: nat :: i in positions <==> i == positions[0] || i in positions[1..];
      assert forall i: nat :: AddressTypePath(i) == AddressTypePath(positions[0]) ==> i == positions[0] by {
        forall i: nat | AddressTypePath(i) == AddressTypePath(positions[0])
          ensures i == positions[0]
        {
          assert AddressTypePath(i)[1] == Index(i);
        }
      }
      [AddressTypePath(positions[0])] + rest
  }

  /** `p` locates a bound of `m` that is broken. */
  predicate FailingMetaLocation(m: Meta, p: Path) {
    || (p == TotalCountPath && m.total_count < 0)
    || (p == PageableCountPath && !(0 <= m.pageable_count <= MaxPageableCount))
  }

  /** `p` locates a broken meta bound or a document whose `address_type` is
      not one of the four literals. */
  predicate FailingAddressLocation(r: AddressResponse, p: Path) {
    || FailingMetaLocation(r.meta, p)
    || exists i :: 0 <= i < |r.documents| && p == AddressTypePath(i) && r.documents[i].address_type !in AddressTypes
  }

  /** The locations of a response's `meta` that break their bounds. */
  function MetaErrors(m: Meta): (errs: seq<Path>)
    ensures |errs| == 0 <==> ValidMeta(m)
    ensures TotalCountPath in errs <==> m.total_count < 0
    ensures PageableCountPath in errs <==> !(0 <= m.pageable_count <= MaxPageableCount)
    ensures forall p :: p in errs ==> p == TotalCountPath || p == PageableCountPath
    ensures forall p :: p in errs <==> FailingMetaLocation(m, p)
  {
    (if m.total_count < 0 then [TotalCountPath] else [])
    + (if 0 <= m.pageable_count <= MaxPageableCount then [] else [PageableCountPath])
  }

  /** Positions, from `from` on and in increasing order, of documents whose
      `address_type` is not one of the four literals. */
  function InvalidAddressTypes(docs: seq<AddressDocument>, from: nat): (bad: seq<nat>)
    requires from <= |docs|
    ensures forall i :: i in bad <==> from <= i < |docs| && docs[i].address_type !in AddressTypes
    ensures forall k, l :: 0 <= k < l < |bad| ==> bad[k] < bad[l]
    ensures forall k :: 0 <= k < |bad| ==> from <= bad[k]
    ensures |bad| == 0 <==> forall i :: from <= i < |docs| ==> docs[i].address_type in AddressTypes
    decreases |docs| - from
  {
    if from == |docs| then []
    else
      var rest := InvalidAddressTypes(docs, from + 1);
      if docs[from].address_type in AddressTypes then rest else [from] + rest
  }

  /** Meta locations start with "meta", document locations with "documents". */
  lemma MetaAndDocumentPathsDiffer(metaErrs: seq<Path>, docErrs: seq<Path>)
    requires forall p :: p in metaErrs ==> p == TotalCountPath || p == PageableCountPath
    requires forall p :: p in docErrs ==> |p| == 3 && p[0] == Key(Documents)
    ensures TotalCountPath !in docErrs && PageableCountPath !in docErrs
    ensures forall i: nat :: AddressTypePath(i) !in metaErrs
  {
  }

  /** Meta locations followed by document locations: the meta part comes
      first and everything after it is a document location. */
  lemma MetaThenDocuments(metaErrs: seq<Path>, docErrs: seq<Path>)
    requires forall p :: p in docErrs ==> |p| == 3 && p[0] == Key(Documents)
    ensures (metaErrs + docErrs)[..|metaErrs|] == metaErrs
    ensures forall k :: |metaErrs| <= k < |metaErrs + docErrs| ==>
      |(metaErrs + docErrs)[k]| == 3 && (metaErrs + docErrs)[k][0] == Key(Documents)
  {
    forall k | |metaErrs| <= k < |metaErrs + docErrs|
      ensures |(metaErrs + docErrs)[k]| == 3 && (metaErrs + docErrs)[k][0] == Key(Documents)
    {
      assert (metaErrs + docErrs)[k] == docErrs[k - |metaErrs|];
    }
  }

  /** Every failing location of an address response, meta bounds first. */
  function AddressResponseErrors(r: AddressResponse): (errs: seq<Path>)
    ensures |errs| == 0 <==> ValidAddressResponse(r)
    ensures TotalCountPath in errs <==> r.meta.total_count < 0
    ensures PageableCountPath in errs <==> !(0 <= r.meta.pageable_count <= MaxPageableCount)
    ensures forall i :: 0 <= i < |r.documents| ==>
      (AddressTypePath(i) in errs <==> r.documents[i].address_type !in AddressTypes)
    ensures forall p :: p in errs <==> FailingAddressLocation(r, p)
    ensures |MetaErrors(r.meta)| <= |errs| && errs[..|MetaErrors(r.meta)|] == MetaErrors(r.meta)
    ensures forall k :: |MetaErrors(r.meta)| <= k < |errs| ==> |errs[k]| == 3 && errs[k][0] == Key(Documents)
  {
    var metaErrs := MetaErrors(r.meta);
    var docErrs := AddressTypePaths(InvalidAddressTypes(r.documents, 0));
    MetaAndDocumentPathsDiffer(metaErrs, docErrs);
    MetaThenDocuments(metaErrs, docErrs);
    metaErrs + docErrs
  }

  /** The checks made when an address response is built: every failing
      location is reported, and nothing else. */
  function ValidateAddressResponse(r: AddressResponse): (res: Result<AddressResponse, seq<Path>>)
    ensures res.Ok? <==> ValidAddressResponse(r)
    ensures res.Ok? ==> res.value == r
    ensures res.Err? ==> forall p :: p in res.error <==> FailingAddressLocation(r, p)
    ensures res.Err? ==> res.error == AddressResponseErrors(r)
  {
    var errs := AddressResponseErrors(r);
    if |errs| == 0 then Ok(r) else Err(errs)
  }

  /** The checks made when a place-search response is built: only `meta`
      carries constraints. */
  function ValidateLocationSearchResponse(r: LocationSearchResponse): (res: Result<LocationSearchResponse, seq<Path>>)
    ensures res.Ok? <==> ValidLocationSearchResponse(r)
    ensures res.Ok? ==> res.value == r
    ensures res.Err? ==> (TotalCountPath in res.error <==> r.meta.total_count < 0)
    ensures res.Err? ==>
      (PageableCountPath in res.error <==> !(0 <= r.meta.pageable_count <= MaxPageableCount))
    ensures res.Err? ==> res.error == MetaErrors(r.meta)
    ensures res.Err? ==> forall p :: p in res.error <==> FailingMetaLocation(r.meta, p)
  {
    var errs := MetaErrors(r.meta);
    if |errs| == 0 then Ok(r) else Err(errs)
  }

  /** No constraint ties the number of documents to `pageable_count`: a
      page longer than the count is accepted. */
  lemma DocumentCountNotBounded()
    ensures var r := AddressResponse(Meta(0, 0, true), [AddressDocument("a", "ROAD", "1", "2", map[], map[])]);
      ValidateAddressResponse(r).Ok? && |r.documents| > r.meta.pageable_count
  {
  }
}
