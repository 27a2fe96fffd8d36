/**
 * The pydantic models of the BHL search: the simple-search parameters sent to
 * the API, and the response envelope with its publication records, together
 * with the validation pydantic performs when an envelope is built from the
 * decoded JSON body (`PublicationSearchResponse(**body)`).
 *
 * Fields are looked up by their alias (`Status`, `BHLType`, ...); keys that no
 * field declares are ignored, as pydantic does by default.
 */
module Schema {
  import opened Wrappers

  /** A decoded JSON value (numbers are kept as integers; see README). */
  datatype Json =
    | JNull
    | JBool(b: bool)
    | JNumber(n: int)
    | JString(s: string)
    | JArray(items: seq<Json>)
    | JObject(fields: map<string, Json>)

  /** pydantic's `ValidationError`, naming the model whose construction failed. */
  datatype ValidationError = ValidationError(model: string)

  function Lookup(fields: map<string, Json>, key: string): Option<Json> {
    if key in fields then Some(fields[key]) else None
  }

  // ---------------------------------------------------------------------------
  // SimplePublicationSearchParameters
  // ---------------------------------------------------------------------------

  /** `searchtype: Literal["C", "F"]`: catalog only, or catalog and full text. */
  datatype SearchType = Catalog | CatalogAndFullText {
    function Code(): string {
      match this
      case Catalog => "C"
      case CatalogAndFullText => "F"
    }
  }

  const DefaultSearchType: SearchType := Catalog
  const DefaultPage: int := 1
  const DefaultPageSize: int := 100

  /** `SimplePublicationSearchParameters`; `searchterm` has no default. */
  datatype SimpleParams = SimpleParams(searchterm: string, searchtype: SearchType, page: int, pageSize: int)

  /** The literal check on `searchtype`: only the two codes are accepted. */
  function SearchTypeFromCode(code: string): (r: Option<SearchType>)
    ensures r.Some? <==> code == "C" || code == "F"
    ensures r.Some? ==> r.value.Code() == code
  {
    if code == "C" then Some(Catalog)
    else if code == "F" then Some(CatalogAndFullText)
    else None
  }

  /**
   * Building the model from keyword arguments; an argument left out is `None`
   * here and takes the field's default. `searchterm` is a required argument.
   */
  function NewSimpleParams(searchterm: string, searchtype: Option<string>, page: Option<int>, pageSize: Option<int>)
    : (r: Result<SimpleParams, ValidationError>)
    ensures r.Ok? <==> searchtype.None? || searchtype.value == "C" || searchtype.value == "F"
    ensures r.Ok? ==> r.value.searchterm == searchterm
    ensures r.Ok? && searchtype.Some? ==> r.value.searchtype.Code() == searchtype.value
    ensures r.Ok? && searchtype.None? ==> r.value.searchtype == DefaultSearchType
    ensures r.Ok? ==> r.value.page == (if page.None? then DefaultPage else page.value)
    ensures r.Ok? ==> r.value.pageSize == (if pageSize.None? then DefaultPageSize else pageSize.value)
  {
    var kind := if searchtype.None? then Some(DefaultSearchType) else SearchTypeFromCode(searchtype.value);
    if kind.None? then
      Err(ValidationError("SimplePublicationSearchParameters"))
    else
      Ok(SimpleParams(
        searchterm,
        kind.value,
        if page.None? then DefaultPage else page.value,
        if pageSize.None? then DefaultPageSize else pageSize.value))
  }

  /** Every argument but the search term left out: catalog search, page 1, 100 per page. */
  lemma SimpleParamsDefaults(searchterm: string)
    ensures NewSimpleParams(searchterm, None, None, None) == Ok(SimpleParams(searchterm, Catalog, 1, 100))
    ensures NewSimpleParams(searchterm, None, None, None).value.searchtype.Code() == "C"
  {
  }

  /** The two codes are exactly the two search types, each way round. */
  lemma {:induction false} SearchTypeCodeRoundTrip(t: SearchType)
    ensures SearchTypeFromCode(t.Code()) == Some(t)
    ensures t.Code() == "C" || t.Code() == "F"
  {
    match t
    case Catalog =>
    case CatalogAndFullText =>
  }

  // ---------------------------------------------------------------------------
  // Publication
  // ---------------------------------------------------------------------------

  /** `BHLType: Literal["Title", "Item", "Part"]`. */
  datatype BhlType = Title | Item | Part

  /** `FoundIn: Literal["Metadata", "Text", "Both"]`. */
  datatype FoundIn = Metadata | Text | Both

  /**
   * The aliases of the nineteen optional string attributes of a publication,
   * in declaration order: item_id, title_id, volume, external_url, item_url,
   * title_url, material_type, publisher_place, publisher_name,
   * publication_date, date, part_url, part_id, genre, title, container_title,
   * series, issue, page_range.
   */
  const OptionalAliases: seq<string> := [
    "ItemID", "TitleID", "Volume", "ExternalUrl", "ItemUrl", "TitleUrl", "MaterialType",
    "PublisherPlace", "PublisherName", "PublicationDate", "Date", "PartUrl", "PartID",
    "Genre", "Title", "ContainerTitle", "Series", "Issue", "PageRange"
  ]

  /**
   * `Publication`: the two required discriminators, and the optional
   * attributes that are set, keyed by alias (an alias that is not a key is None).
   */
  datatype Publication = Publication(bhlType: BhlType, foundIn: FoundIn, attributes: map<string, string>)

  /** The value of the optional attribute with the given alias. */
  function Attribute(p: Publication, alias: string): Option<string> {
    if alias in p.attributes then Some(p.attributes[alias]) else None
  }

  function BhlTypeFrom(v: Option<Json>): (r: Option<BhlType>)
    ensures r == Some(Title) <==> v == Some(JString("Title"))
    ensures r == Some(Item) <==> v == Some(JString("Item"))
    ensures r == Some(Part) <==> v == Some(JString("Part"))
  {
    match v
    case Some(JString(s)) =>
      if s == "Title" then Some(Title)
      else if s == "Item" then Some(Item)
      else if s == "Part" then Some(Part)
      else None
    case _ => None
  }

  function FoundInFrom(v: Option<Json>): (r: Option<FoundIn>)
    ensures r == Some(Metadata) <==> v == Some(JString("Metadata"))
    ensures r == Some(Text) <==> v == Some(JString("Text"))
    ensures r == Some(Both) <==> v == Some(JString("Both"))
  {
    match v
    case Some(JString(s)) =>
      if s == "Metadata" then Some(Metadata)
      else if s == "Text" then Some(Text)
      else if s == "Both" then Some(Both)
      else None
    case _ => None
  }

  /** An `Optional[str]` field accepts an absent key, `null` or a string. */
  predicate IsOptionalString(v: Option<Json>) {
    v.None? || v.value.JNull? || v.value.JString?
  }

  /** The value an `Optional[str]` field takes: None unless a string was given. */
  function OptionalString(v: Option<Json>): Option<string> {
    if v.Some? && v.value.JString? then Some(v.value.s) else None
  }

  /** Validating one record of the `Result` list as a `Publication`. */
  function ParsePublication(j: Json): (r: Result<Publication, ValidationError>)
    ensures r.Ok? <==>
      j.JObject? &&
      BhlTypeFrom(Lookup(j.fields, "BHLType")).Some? &&
      FoundInFrom(Lookup(j.fields, "FoundIn")).Some? &&
      forall a :: a in OptionalAliases ==> IsOptionalString(Lookup(j.fields, a))
    ensures r.Ok? ==> Some(r.value.bhlType) == BhlTypeFrom(Lookup(j.fields, "BHLType"))
    ensures r.Ok? ==> Some(r.value.foundIn) == FoundInFrom(Lookup(j.fields, "FoundIn"))
    ensures r.Ok? ==> r.value.attributes.Keys <= set a | a in OptionalAliases
    ensures r.Ok? ==> forall a :: a in OptionalAliases ==> Attribute(r.value, a) == OptionalString(Lookup(j.fields, a))
  {
    if !j.JObject? then
      Err(ValidationError("Publication"))
    else
      var f := j.fields;
      var kind := BhlTypeFrom(Lookup(f, "BHLType"));
      var found := FoundInFrom(Lookup(f, "FoundIn"));
      if kind.None? || found.None? || !(forall a :: a in OptionalAliases ==> IsOptionalString(Lookup(f, a))) then
        Err(ValidationError("Publication"))
      else
        Ok(Publication(kind.value, found.value, map a | a in OptionalAliases && a in f && f[a].JString? :: f[a].s))
  }

  /** An optional attribute missing from the record defaults to None. */
  lemma MissingAttributeIsNone(j: Json, alias: string)
    requires ParsePublication(j).Ok?
    requires alias in OptionalAliases && alias !in j.fields
    ensures Attribute(ParsePublication(j).value, alias) == None
  {
  }

  /** Validating every record of the `Result` list, keeping their order. */
  function ParsePublications(items: seq<Json>): (r: Result<seq<Publication>, ValidationError>)
    ensures r.Ok? <==> forall i :: 0 <= i < |items| ==> ParsePublication(items[i]).Ok?
    ensures r.Ok? ==> |r.value| == |items|
    ensures r.Ok? ==> forall i :: 0 <= i < |items| ==> ParsePublication(items[i]) == Ok(r.value[i])
  {
    if items == [] then
      Ok([])
    else
      match ParsePublication(items[0])
      case Err(e) => Err(e)
      case Ok(p) =>
        match ParsePublications(items[1..])
        case Err(e) => Err(e)
        case Ok(ps) => Ok([p] + ps)
  }

  // ---------------------------------------------------------------------------
  // PublicationSearchResponse
  // ---------------------------------------------------------------------------

  /** `PublicationSearchResponse`: `Status` and `ErrorMessage` optional, `Result` required. */
  datatype SearchResponse = SearchResponse(status: Option<string>, errorMessage: Option<string>, result: seq<Publication>)

  /** `PublicationSearchResponse(**body)` for the decoded body of the API's reply. */
  function ParseSearchResponse(body: Json): (r: Result<SearchResponse, ValidationError>)
    ensures r.Ok? <==>
      body.JObject? &&
      IsOptionalString(Lookup(body.fields, "Status")) &&
      IsOptionalString(Lookup(body.fields, "ErrorMessage")) &&
      Lookup(body.fields, "Result").Some? && body.fields["Result"].JArray? &&
      ParsePublications(body.fields["Result"].items).Ok?
    ensures r.Ok? ==> r.value.status == OptionalString(Lookup(body.fields, "Status"))
    ensures r.Ok? ==> r.value.errorMessage == OptionalString(Lookup(body.fields, "ErrorMessage"))
  {
    if !body.JObject? then
      Err(ValidationError("PublicationSearchResponse"))
    else
      var f := body.fields;
      if !IsOptionalString(Lookup(f, "Status")) || !IsOptionalString(Lookup(f, "ErrorMessage")) then
        Err(ValidationError("PublicationSearchResponse"))
      else if "Result" !in f || !f["Result"].JArray? then
        Err(ValidationError("PublicationSearchResponse"))
      else
        match ParsePublications(f["Result"].items)
        case Err(e) => Err(e)
        case Ok(ps) => Ok(SearchResponse(OptionalString(Lookup(f, "Status")), OptionalString(Lookup(f, "ErrorMessage")), ps))
  }

  /** The result list holds the records as supplied: same number, same order, none re-sorted. */
  lemma ResultKeepsOrder(body: Json, i: nat)
    requires ParseSearchResponse(body).Ok?
    requires i < |body.fields["Result"].items|
    ensures |ParseSearchResponse(body).value.result| == |body.fields["Result"].items|
    ensures ParsePublication(body.fields["Result"].items[i]) == Ok(ParseSearchResponse(body).value.result[i])
  {
  }

  /** An envelope without `Result` fails to construct, whatever else it holds. */
  lemma ResultIsRequired(body: Json)
    requires body.JObject? && "Result" !in body.fields
    ensures ParseSearchResponse(body).Err?
  {
  }

  /** `Status` and `ErrorMessage` left out of the body are None in the envelope. */
  lemma StatusAndMessageDefaultToNone(body: Json)
    requires ParseSearchResponse(body).Ok?
    requires "Status" !in body.fields && "ErrorMessage" !in body.fields
    ensures ParseSearchResponse(body).value.status == None
    ensures ParseSearchResponse(body).value.errorMessage == None
  {
  }
}
