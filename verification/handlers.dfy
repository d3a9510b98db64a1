/**
 * The request-level logic of the nine endpoints: parameter parsing and its error statuses,
 * the fixed filter pipeline (parent-id index lookup, then zip-code equality, then name
 * search), pagination, and the embedding of parent records in single-record responses.
 * The web framework's request context is reduced to the `:id` path segment and the query
 * parameters; integer parsing is the parameter `atoi`.
 */
module Handlers {
  import opened Wrappers
  import opened Seqs
  import opened Text
  import opened Models
  import opened Index
  import opened Service
  import opened Paging

  /** A request as the handlers read it: the `:id` path segment and the query parameters. */
  datatype Request = Request(pathId: string, query: map<string, string>)

  /** A query parameter; an absent one reads as the empty string. */
  function Query(req: Request, name: string): string
  {
    if name in req.query then req.query[name] else ""
  }

  /** A JSON response: a success payload, or an error status with its message. */
  datatype Response<T> = Ok(body: T) | Error(status: int, message: string)

  // ---------------------------------------------------------------------------------------
  // Parameters

  /** An optional integer query parameter: absent (empty), a valid integer, or malformed. */
  datatype IntParam = Absent | Given(value: int) | Malformed

  /** Reads an optional integer parameter; only a non-empty value is handed to the parser. */
  function ParseParam(raw: string, atoi: string -> Option<int>): (p: IntParam)
    ensures p.Absent? <==> raw == ""
    ensures p.Malformed? <==> raw != "" && atoi(raw).None?
    ensures p.Given? <==> raw != "" && atoi(raw).Some?
    ensures p.Given? ==> p.value == atoi(raw).value
  {
    if raw == "" then Absent
    else
      match atoi(raw)
      case Some(n) => Given(n)
      case None => Malformed
  }

  /** The equality filter an accepted parameter asks for: none when it was absent. */
  function FilterOf(p: IntParam): Option<int>
  {
    if p.Given? then Some(p.value) else None
  }

  const DefaultPage := 1
  const DefaultLimit := 20
  const MaxLimit := 100

  /**
   * The page and limit of a request. A missing, unparsable or out-of-range value silently
   * keeps the default: page must be positive, limit must lie in 1..100.
   */
  function GetPaginationParams(req: Request, atoi: string -> Option<int>): (r: (int, int))
    ensures r.0 >= 1 && 1 <= r.1 <= MaxLimit
    ensures var p := ParseParam(Query(req, "page"), atoi);
      r.0 == if p.Given? && p.value > 0 then p.value else DefaultPage
    ensures var l := ParseParam(Query(req, "limit"), atoi);
      r.1 == if l.Given? && 0 < l.value <= MaxLimit then l.value else DefaultLimit
  {
    var page :=
      var pageStr := Query(req, "page");
      if pageStr != "" then
        match atoi(pageStr)
        case Some(p) => if p > 0 then p else DefaultPage
        case None => DefaultPage
      else DefaultPage;
    var limit :=
      var limitStr := Query(req, "limit");
      if limitStr != "" then
        match atoi(limitStr)
        case Some(l) => if l > 0 && l <= MaxLimit then l else DefaultLimit
        case None => DefaultLimit
      else DefaultLimit;
    (page, limit)
  }

  /**
   * Accepted pagination values are read back unchanged: a request whose page and limit
   * parse to the values another request produced yields those same values.
   */
  lemma PaginationParamsFixpoint(req: Request, req': Request, atoi: string -> Option<int>)
    requires ParseParam(Query(req', "page"), atoi) == Given(GetPaginationParams(req, atoi).0)
    requires ParseParam(Query(req', "limit"), atoi) == Given(GetPaginationParams(req, atoi).1)
    ensures GetPaginationParams(req', atoi) == GetPaginationParams(req, atoi)
  {
  }

  // ---------------------------------------------------------------------------------------
  // Filters

  /**
   * The name search: the lower-cased query occurs in the lower-cased local-language name or
   * in the lower-cased romanized name.
   */
  predicate NameMatches(nameTH: string, nameEN: string, query: string)
  {
    Contains(Lower(nameTH), Lower(query)) || Contains(Lower(nameEN), Lower(query))
  }

  /**
   * The search stage: keeps, in order, exactly the records whose names match the query.
   * An empty query (after lower-casing) skips the stage, which is also what matching
   * against it would give, since the empty string occurs everywhere.
   */
  function SearchFilter<T(==)>(xs: seq<T>, nameTH: T -> string, nameEN: T -> string, query: string): (r: seq<T>)
    ensures IsSubseq(r, xs)
    ensures multiset(r) <= multiset(xs)
    ensures forall x :: x in xs ==>
      multiset(r)[x] == if NameMatches(nameTH(x), nameEN(x), query) then multiset(xs)[x] else 0
    ensures query == "" ==> r == xs
  {
    if Lower(query) != "" then
      FilterSelects(xs, x => NameMatches(nameTH(x), nameEN(x), query));
      Filter(xs, x => NameMatches(nameTH(x), nameEN(x), query))
    else
      EveryStringContainsEmpty();
      assert IsSubseq(xs, xs) by { SubseqReflexive(xs); }
      xs
  }

  /** The search stage is a filter by any predicate that agrees with the name match. */
  lemma SearchFilterIsFilter<T>(xs: seq<T>, nameTH: T -> string, nameEN: T -> string, query: string, p: T -> bool)
    requires forall x :: x in xs ==> p(x) == NameMatches(nameTH(x), nameEN(x), query)
    ensures SearchFilter(xs, nameTH, nameEN, query) == Filter(xs, p)
  {
    if Lower(query) != "" {
      FilterExtensional(xs, x => NameMatches(nameTH(x), nameEN(x), query), p);
    } else {
      EveryStringContainsEmpty();
      FilterKeepsAll(xs, p);
    }
  }

  /** An optional equality filter on a key, as a filter stage: the identity when absent. */
  function KeyStage<T(==)>(xs: seq<T>, key: T -> int, k: Option<int>): seq<T>
  {
    if k.Some? then FilterBy(xs, key, k.value) else xs
  }

  /** A key stage is the filter by any predicate testing "no filter, or the key equals it". */
  lemma KeyStageIsFilter<T>(xs: seq<T>, key: T -> int, k: Option<int>, p: T -> bool)
    requires forall x :: x in xs ==> p(x) == (k.None? || key(x) == k.value)
    ensures KeyStage(xs, key, k) == Filter(xs, p)
  {
    if k.Some? {
      FilterByIsFilter(xs, key, k.value, p);
    } else {
      FilterKeepsAll(xs, p);
    }
  }

  // ---------------------------------------------------------------------------------------
  // Selections: the list each listing endpoint paginates

  /** The provinces a listing asks for: by geography through the index, else all; then searched. */
  function ProvinceSelection(ds: DataService, geography: Option<int>, search: string): seq<Province>
  {
    var base := if geography.Some? then ds.GetProvincesByGeography(geography.value) else ds.GetProvinces();
    SearchFilter(base, ProvinceNameTH, ProvinceNameEN, search)
  }

  /** The districts a listing asks for: by province through the index, else all; then searched. */
  function DistrictSelection(ds: DataService, province: Option<int>, search: string): seq<District>
  {
    var base := if province.Some? then ds.GetDistrictsByProvince(province.value) else ds.GetDistricts();
    SearchFilter(base, DistrictNameTH, DistrictNameEN, search)
  }

  /**
   * The sub-districts a listing asks for: by district through the index, else all; then by
   * zip code; then searched.
   */
  function SubDistrictSelection(ds: DataService, district: Option<int>, zip: Option<int>, search: string)
    : seq<SubDistrict>
  {
    SearchFilter(SubDistrictZipStage(ds, district, zip), SubDistrictNameTH, SubDistrictNameEN, search)
  }

  /** What a province listing wants, stated directly on one record. */
  predicate ProvinceWanted(p: Province, geography: Option<int>, search: string)
  {
    && (geography.None? || p.geographyId == geography.value)
    && NameMatches(p.nameTH, p.nameEN, search)
  }

  /** What a district listing wants, stated directly on one record. */
  predicate DistrictWanted(d: District, province: Option<int>, search: string)
  {
    && (province.None? || d.provinceId == province.value)
    && NameMatches(d.nameTH, d.nameEN, search)
  }

  /** What a sub-district listing wants, stated directly on one record. */
  predicate SubDistrictWanted(s: SubDistrict, district: Option<int>, zip: Option<int>, search: string)
  {
    && (district.None? || s.districtId == district.value)
    && (zip.None? || s.zipCode == zip.value)
    && NameMatches(s.nameTH, s.nameEN, search)
  }

  /**
   * The province pipeline (index lookup, then search) equals one pass over the loaded
   * provinces keeping, in load order, those the listing wants.
   */
  lemma ProvinceSelectionIsFilter(ds: DataService, geography: Option<int>, search: string, wanted: Province -> bool)
    requires Indexed(ds)
    requires forall p :: p in ds.provinces ==> wanted(p) == ProvinceWanted(p, geography, search)
    ensures ProvinceSelection(ds, geography, search) == Filter(ds.provinces, wanted)
  {
    var xs := ds.provinces;
    var byParent := (p: Province) => geography.None? || p.geographyId == geography.value;
    var bySearch := (p: Province) => NameMatches(p.nameTH, p.nameEN, search);
    var base := if geography.Some? then ds.GetProvincesByGeography(geography.value) else ds.GetProvinces();
    if geography.Some? {
      ChildrenLookupsAreFilters(ds, geography.value);
    }
    KeyStageIsFilter(xs, ProvinceParent, geography, byParent);
    assert base == Filter(xs, byParent);
    SearchFilterIsFilter(base, ProvinceNameTH, ProvinceNameEN, search, bySearch);
    FilterFuse(xs, byParent, bySearch, wanted);
  }

  /**
   * The district pipeline (index lookup, then search) equals one pass over the loaded
   * districts keeping, in load order, those the listing wants.
   */
  lemma DistrictSelectionIsFilter(ds: DataService, province: Option<int>, search: string, wanted: District -> bool)
    requires Indexed(ds)
    requires forall d :: d in ds.districts ==> wanted(d) == DistrictWanted(d, province, search)
    ensures DistrictSelection(ds, province, search) == Filter(ds.districts, wanted)
  {
    var xs := ds.districts;
    var byParent := (d: District) => province.None? || d.provinceId == province.value;
    var bySearch := (d: District) => NameMatches(d.nameTH, d.nameEN, search);
    var base := if province.Some? then ds.GetDistrictsByProvince(province.value) else ds.GetDistricts();
    if province.Some? {
      ChildrenLookupsAreFilters(ds, province.value);
    }
    KeyStageIsFilter(xs, DistrictParent, province, byParent);
    assert base == Filter(xs, byParent);
    SearchFilterIsFilter(base, DistrictNameTH, DistrictNameEN, search, bySearch);
    FilterFuse(xs, byParent, bySearch, wanted);
  }

  /**
   * The sub-district pipeline (index lookup, then zip code, then search) equals one pass
   * over the loaded sub-districts keeping, in load order, those the listing wants.
   */
  lemma SubDistrictSelectionIsFilter(ds: DataService, district: Option<int>, zip: Option<int>, search: string,
                                     wanted: SubDistrict -> bool)
    requires Indexed(ds)
    requires forall s :: s in ds.subDistricts ==> wanted(s) == SubDistrictWanted(s, district, zip, search)
    ensures SubDistrictSelection(ds, district, zip, search) == Filter(ds.subDistricts, wanted)
  {
    var xs := ds.subDistricts;
    var byBoth := (s: SubDistrict) => (district.None? || s.districtId == district.value) && (zip.None? || s.zipCode == zip.value);
    var bySearch := (s: SubDistrict) => NameMatches(s.nameTH, s.nameEN, search);
    var zipped := SubDistrictZipStage(ds, district, zip);
    SubDistrictZipStageIsFilter(ds, district, zip, byBoth);
    SearchFilterIsFilter(zipped, SubDistrictNameTH, SubDistrictNameEN, search, bySearch);
    FilterFuse(xs, byBoth, bySearch, wanted);
  }

  /** The chained sub-district stages return the loaded sub-districts in load order, some left out. */
  lemma SubDistrictSelectionInOrder(ds: DataService, district: Option<int>, zip: Option<int>, search: string)
    requires Indexed(ds)
    ensures IsSubseq(SubDistrictSelection(ds, district, zip, search), ds.subDistricts)
  {
    var both := (s: SubDistrict) => (district.None? || s.districtId == district.value) && (zip.None? || s.zipCode == zip.value);
    var zipped := SubDistrictZipStage(ds, district, zip);
    SubDistrictZipStageIsFilter(ds, district, zip, both);
    FilterIsSubseq(ds.subDistricts, both);
    SubseqTransitive(SubDistrictSelection(ds, district, zip, search), zipped, ds.subDistricts);
  }

  /** The sub-district pipeline before the search stage. */
  function SubDistrictZipStage(ds: DataService, district: Option<int>, zip: Option<int>): seq<SubDistrict>
  {
    var base := if district.Some? then ds.GetSubDistrictsByDistrict(district.value) else ds.GetSubDistricts();
    KeyStage(base, SubDistrictZip, zip)
  }

  /** The index lookup followed by the zip-code stage is one filter on parent and zip code. */
  lemma SubDistrictZipStageIsFilter(ds: DataService, district: Option<int>, zip: Option<int>,
                                    both: SubDistrict -> bool)
    requires Indexed(ds)
    requires forall s :: s in ds.subDistricts ==>
      both(s) == ((district.None? || s.districtId == district.value) && (zip.None? || s.zipCode == zip.value))
    ensures SubDistrictZipStage(ds, district, zip) == Filter(ds.subDistricts, both)
  {
    var xs := ds.subDistricts;
    var byParent := (s: SubDistrict) => district.None? || s.districtId == district.value;
    var byZip := (s: SubDistrict) => zip.None? || s.zipCode == zip.value;
    var base := if district.Some? then ds.GetSubDistrictsByDistrict(district.value) else ds.GetSubDistricts();
    if district.Some? {
      ChildrenLookupsAreFilters(ds, district.value);
    }
    KeyStageIsFilter(xs, SubDistrictParent, district, byParent);
    assert base == Filter(xs, byParent);
    KeyStageIsFilter(base, SubDistrictZip, zip, byZip);
    FilterFuse(xs, byParent, byZip, both);
  }

  // ---------------------------------------------------------------------------------------
  // Handlers

  /** GET /geographies: every geography, in load order, without pagination. */
  function GetGeographies(ds: DataService): (r: Response<seq<Geography>>)
    ensures r.Ok? && r.body == ds.geographies
  {
    Ok(ds.GetGeographies())
  }

  /** GET /provinces?geography_id=&search=&page=&limit= */
  function GetProvinces(ds: DataService, req: Request, atoi: string -> Option<int>): (r: Response<Page<Province>>)
    ensures r.Error? <==> ParseParam(Query(req, "geography_id"), atoi).Malformed?
    ensures r.Error? ==> r == Error(400, "Invalid geography_id parameter")
  {
    var geography := ParseParam(Query(req, "geography_id"), atoi);
    if geography.Malformed? then Error(400, "Invalid geography_id parameter")
    else
      var pl := GetPaginationParams(req, atoi);
      Ok(Paginate(ProvinceSelection(ds, FilterOf(geography), Query(req, "search")), pl.0, pl.1))
  }

  /** GET /provinces/:id — the province with its geography embedded. */
  function GetProvinceByID(ds: DataService, req: Request, atoi: string -> Option<int>)
    : (r: Response<ProvinceWithGeography>)
    ensures atoi(req.pathId).None? ==> r == Error(400, "Invalid province ID")
    ensures atoi(req.pathId).Some? && !ds.GetProvince(atoi(req.pathId).value).1 ==>
      r == Error(404, "Province not found")
    ensures r.Ok? <==> atoi(req.pathId).Some? && ds.GetProvince(atoi(req.pathId).value).1
  {
    match atoi(req.pathId)
    case None => Error(400, "Invalid province ID")
    case Some(id) =>
      var (province, found) := ds.GetProvince(id);
      if !found then Error(404, "Province not found")
      else
        var (geography, _) := ds.GetGeography(province.geographyId);
        Ok(ProvinceWithGeography(province, geography))
  }

  /** GET /provinces/:id/districts?search=&page=&limit= */
  function GetDistrictsByProvinceID(ds: DataService, req: Request, atoi: string -> Option<int>)
    : (r: Response<Page<District>>)
    ensures atoi(req.pathId).None? ==> r == Error(400, "Invalid province ID")
    ensures atoi(req.pathId).Some? && !ds.GetProvince(atoi(req.pathId).value).1 ==>
      r == Error(404, "Province not found")
    ensures r.Ok? <==> atoi(req.pathId).Some? && ds.GetProvince(atoi(req.pathId).value).1
  {
    match atoi(req.pathId)
    case None => Error(400, "Invalid province ID")
    case Some(provinceId) =>
      if !ds.GetProvince(provinceId).1 then Error(404, "Province not found")
      else
        var pl := GetPaginationParams(req, atoi);
        Ok(Paginate(DistrictSelection(ds, Some(provinceId), Query(req, "search")), pl.0, pl.1))
  }

  /** GET /districts?province_id=&search=&page=&limit= */
  function GetDistricts(ds: DataService, req: Request, atoi: string -> Option<int>): (r: Response<Page<District>>)
    ensures r.Error? <==> ParseParam(Query(req, "province_id"), atoi).Malformed?
    ensures r.Error? ==> r == Error(400, "Invalid province_id parameter")
  {
    var province := ParseParam(Query(req, "province_id"), atoi);
    if province.Malformed? then Error(400, "Invalid province_id parameter")
    else
      var pl := GetPaginationParams(req, atoi);
      Ok(Paginate(DistrictSelection(ds, FilterOf(province), Query(req, "search")), pl.0, pl.1))
  }

  /** GET /districts/:id — the district with its province embedded. */
  function GetDistrictByID(ds: DataService, req: Request, atoi: string -> Option<int>)
    : (r: Response<DistrictWithProvince>)
    ensures atoi(req.pathId).None? ==> r == Error(400, "Invalid district ID")
    ensures atoi(req.pathId).Some? && !ds.GetDistrict(atoi(req.pathId).value).1 ==>
      r == Error(404, "District not found")
    ensures r.Ok? <==> atoi(req.pathId).Some? && ds.GetDistrict(atoi(req.pathId).value).1
  {
    match atoi(req.pathId)
    case None => Error(400, "Invalid district ID")
    case Some(id) =>
      var (district, found) := ds.GetDistrict(id);
      if !found then Error(404, "District not found")
      else
        var (province, _) := ds.GetProvince(district.provinceId);
        Ok(DistrictWithProvince(district, province))
  }

  /** GET /districts/:id/subdistricts?search=&zip_code=&page=&limit= */
  function GetSubDistrictsByDistrictID(ds: DataService, req: Request, atoi: string -> Option<int>)
    : (r: Response<Page<SubDistrict>>)
    ensures atoi(req.pathId).None? ==> r == Error(400, "Invalid district ID")
    ensures atoi(req.pathId).Some? && !ds.GetDistrict(atoi(req.pathId).value).1 ==>
      r == Error(404, "District not found")
    ensures (atoi(req.pathId).Some? && ds.GetDistrict(atoi(req.pathId).value).1
             && ParseParam(Query(req, "zip_code"), atoi).Malformed?) ==>
      r == Error(400, "Invalid zip_code parameter")
    ensures r.Ok? <==>
      atoi(req.pathId).Some? && ds.GetDistrict(atoi(req.pathId).value).1
      && !ParseParam(Query(req, "zip_code"), atoi).Malformed?
  {
    match atoi(req.pathId)
    case None => Error(400, "Invalid district ID")
    case Some(districtId) =>
      if !ds.GetDistrict(districtId).1 then Error(404, "District not found")
      else
        var zip := ParseParam(Query(req, "zip_code"), atoi);
        if zip.Malformed? then Error(400, "Invalid zip_code parameter")
        else
          var pl := GetPaginationParams(req, atoi);
          Ok(Paginate(SubDistrictSelection(ds, Some(districtId), FilterOf(zip), Query(req, "search")), pl.0, pl.1))
  }

  /** GET /subdistricts?district_id=&search=&zip_code=&page=&limit= */
  function GetSubDistricts(ds: DataService, req: Request, atoi: string -> Option<int>)
    : (r: Response<Page<SubDistrict>>)
    ensures ParseParam(Query(req, "district_id"), atoi).Malformed? ==>
      r == Error(400, "Invalid district_id parameter")
    ensures (!ParseParam(Query(req, "district_id"), atoi).Malformed?
             && ParseParam(Query(req, "zip_code"), atoi).Malformed?) ==>
      r == Error(400, "Invalid zip_code parameter")
    ensures r.Ok? <==>
      !ParseParam(Query(req, "district_id"), atoi).Malformed? && !ParseParam(Query(req, "zip_code"), atoi).Malformed?
  {
    var district := ParseParam(Query(req, "district_id"), atoi);
    if district.Malformed? then Error(400, "Invalid district_id parameter")
    else
      var zip := ParseParam(Query(req, "zip_code"), atoi);
      if zip.Malformed? then Error(400, "Invalid zip_code parameter")
      else
        var pl := GetPaginationParams(req, atoi);
        Ok(Paginate(SubDistrictSelection(ds, FilterOf(district), FilterOf(zip), Query(req, "search")), pl.0, pl.1))
  }

  /** GET /subdistricts/:id — the sub-district with its district and that district's province embedded. */
  function GetSubDistrictByID(ds: DataService, req: Request, atoi: string -> Option<int>)
    : (r: Response<SubDistrictWithDistrict>)
    ensures atoi(req.pathId).None? ==> r == Error(400, "Invalid sub-district ID")
    ensures atoi(req.pathId).Some? && !ds.GetSubDistrict(atoi(req.pathId).value).1 ==>
      r == Error(404, "Sub-district not found")
    ensures r.Ok? <==> atoi(req.pathId).Some? && ds.GetSubDistrict(atoi(req.pathId).value).1
  {
    match atoi(req.pathId)
    case None => Error(400, "Invalid sub-district ID")
    case Some(id) =>
      var (subDistrict, found) := ds.GetSubDistrict(id);
      if !found then Error(404, "Sub-district not found")
      else
        var (district, _) := ds.GetDistrict(subDistrict.districtId);
        var (province, _) := ds.GetProvince(district.provinceId);
        Ok(SubDistrictWithDistrict(subDistrict, district, province))
  }

  // ---------------------------------------------------------------------------------------
  // What the handlers answer, stated against the loaded collections

  /**
   * A successful province listing is the requested page of the loaded provinces that the
   * request wants, in load order; the descriptor's total counts all of them.
   */
  lemma GetProvincesAnswers(ds: DataService, req: Request, atoi: string -> Option<int>, wanted: Province -> bool)
    requires Indexed(ds)
    requires forall p :: p in ds.provinces ==>
      wanted(p) == ProvinceWanted(p, FilterOf(ParseParam(Query(req, "geography_id"), atoi)), Query(req, "search"))
    ensures GetProvinces(ds, req, atoi).Ok? ==>
      GetProvinces(ds, req, atoi).body
        == Paginate(Filter(ds.provinces, wanted), GetPaginationParams(req, atoi).0, GetPaginationParams(req, atoi).1)
  {
    ProvinceSelectionIsFilter(ds, FilterOf(ParseParam(Query(req, "geography_id"), atoi)), Query(req, "search"), wanted);
  }

  /**
   * Listing the districts of a province answers 404 exactly when no loaded province has
   * the id; otherwise it is the requested page of that province's wanted districts.
   */
  lemma GetDistrictsByProvinceIDAnswers(ds: DataService, req: Request, atoi: string -> Option<int>,
                                        wanted: District -> bool)
    requires Indexed(ds)
    requires forall d :: d in ds.districts ==> wanted(d) == DistrictWanted(d, atoi(req.pathId), Query(req, "search"))
    ensures atoi(req.pathId).Some? ==>
      (GetDistrictsByProvinceID(ds, req, atoi).Ok? <==>
       exists i :: 0 <= i < |ds.provinces| && ds.provinces[i].id == atoi(req.pathId).value)
    ensures GetDistrictsByProvinceID(ds, req, atoi).Ok? ==>
      GetDistrictsByProvinceID(ds, req, atoi).body
        == Paginate(Filter(ds.districts, wanted), GetPaginationParams(req, atoi).0, GetPaginationParams(req, atoi).1)
  {
    if atoi(req.pathId).Some? {
      GetProvinceAgrees(ds, atoi(req.pathId).value);
      DistrictSelectionIsFilter(ds, atoi(req.pathId), Query(req, "search"), wanted);
    }
  }

  /** A successful district listing is the requested page of the loaded districts the request wants. */
  lemma GetDistrictsAnswers(ds: DataService, req: Request, atoi: string -> Option<int>, wanted: District -> bool)
    requires Indexed(ds)
    requires forall d :: d in ds.districts ==>
      wanted(d) == DistrictWanted(d, FilterOf(ParseParam(Query(req, "province_id"), atoi)), Query(req, "search"))
    ensures GetDistricts(ds, req, atoi).Ok? ==>
      GetDistricts(ds, req, atoi).body
        == Paginate(Filter(ds.districts, wanted), GetPaginationParams(req, atoi).0, GetPaginationParams(req, atoi).1)
  {
    DistrictSelectionIsFilter(ds, FilterOf(ParseParam(Query(req, "province_id"), atoi)), Query(req, "search"), wanted);
  }

  /**
   * Listing the sub-districts of a district answers 404 exactly when no loaded district has
   * the id, whatever the zip code says; otherwise, unless the zip code is malformed, it is
   * the requested page of that district's wanted sub-districts.
   */
  lemma GetSubDistrictsByDistrictIDAnswers(ds: DataService, req: Request, atoi: string -> Option<int>,
                                           wanted: SubDistrict -> bool)
    requires Indexed(ds)
    requires forall s :: s in ds.subDistricts ==>
      wanted(s) == SubDistrictWanted(s, atoi(req.pathId), FilterOf(ParseParam(Query(req, "zip_code"), atoi)),
                                     Query(req, "search"))
    ensures atoi(req.pathId).Some? ==>
      ((GetSubDistrictsByDistrictID(ds, req, atoi) == Error(404, "District not found")) <==>
       !exists i :: 0 <= i < |ds.districts| && ds.districts[i].id == atoi(req.pathId).value)
    ensures GetSubDistrictsByDistrictID(ds, req, atoi).Ok? ==>
      GetSubDistrictsByDistrictID(ds, req, atoi).body
        == Paginate(Filter(ds.subDistricts, wanted), GetPaginationParams(req, atoi).0, GetPaginationParams(req, atoi).1)
  {
    if atoi(req.pathId).Some? {
      GetDistrictAgrees(ds, atoi(req.pathId).value);
      SubDistrictSelectionIsFilter(ds, atoi(req.pathId), FilterOf(ParseParam(Query(req, "zip_code"), atoi)),
                                   Query(req, "search"), wanted);
    }
  }

  /** A successful sub-district listing is the requested page of the loaded sub-districts the request wants. */
  lemma GetSubDistrictsAnswers(ds: DataService, req: Request, atoi: string -> Option<int>, wanted: SubDistrict -> bool)
    requires Indexed(ds)
    requires forall s :: s in ds.subDistricts ==>
      wanted(s) == SubDistrictWanted(s, FilterOf(ParseParam(Query(req, "district_id"), atoi)),
                                     FilterOf(ParseParam(Query(req, "zip_code"), atoi)), Query(req, "search"))
    ensures GetSubDistricts(ds, req, atoi).Ok? ==>
      GetSubDistricts(ds, req, atoi).body
        == Paginate(Filter(ds.subDistricts, wanted), GetPaginationParams(req, atoi).0, GetPaginationParams(req, atoi).1)
  {
    SubDistrictSelectionIsFilter(ds, FilterOf(ParseParam(Query(req, "district_id"), atoi)),
                                 FilterOf(ParseParam(Query(req, "zip_code"), atoi)), Query(req, "search"), wanted);
  }

  /**
   * Fetching one province succeeds exactly when a loaded province has the id, and returns
   * the last such province; the embedded geography is the last loaded one with the
   * province's geography id when there is one and the zero geography otherwise, never a
   * failure.
   */
  lemma GetProvinceByIDAnswers(ds: DataService, req: Request, atoi: string -> Option<int>)
    requires Indexed(ds)
    ensures var r := GetProvinceByID(ds, req, atoi);
      && (atoi(req.pathId).Some? ==>
            (r.Ok? <==> exists i :: 0 <= i < |ds.provinces| && ds.provinces[i].id == atoi(req.pathId).value))
      && (r.Ok? ==> r.body.province in ds.provinces && r.body.province.id == atoi(req.pathId).value)
      && (r.Ok? ==> exists i :: IsLastWithKey(ds.provinces, ProvinceKey, i) && r.body.province == ds.provinces[i])
      && (r.Ok? && (exists g :: g in ds.geographies && g.id == r.body.province.geographyId) ==>
            r.body.geography in ds.geographies && r.body.geography.id == r.body.province.geographyId)
      && (r.Ok? && (exists g :: g in ds.geographies && g.id == r.body.province.geographyId) ==>
            exists i :: IsLastWithKey(ds.geographies, GeographyKey, i) && r.body.geography == ds.geographies[i])
      && (r.Ok? && !(exists g :: g in ds.geographies && g.id == r.body.province.geographyId) ==>
            r.body.geography == ZeroGeography)
  {
    if atoi(req.pathId).Some? {
      var id := atoi(req.pathId).value;
      GetProvinceAgrees(ds, id);
      var province := ds.GetProvince(id).0;
      GetGeographyAgrees(ds, province.geographyId);
    }
  }

  /**
   * Fetching one district succeeds exactly when a loaded district has the id, and returns
   * the last such district; the embedded province is the last loaded one with the
   * district's province id when there is one and the zero province otherwise, never a
   * failure.
   */
  lemma GetDistrictByIDAnswers(ds: DataService, req: Request, atoi: string -> Option<int>)
    requires Indexed(ds)
    ensures var r := GetDistrictByID(ds, req, atoi);
      && (atoi(req.pathId).Some? ==>
            (r.Ok? <==> exists i :: 0 <= i < |ds.districts| && ds.districts[i].id == atoi(req.pathId).value))
      && (r.Ok? ==> r.body.district in ds.districts && r.body.district.id == atoi(req.pathId).value)
      && (r.Ok? ==> exists i :: IsLastWithKey(ds.districts, DistrictKey, i) && r.body.district == ds.districts[i])
      && (r.Ok? && (exists p :: p in ds.provinces && p.id == r.body.district.provinceId) ==>
            r.body.province in ds.provinces && r.body.province.id == r.body.district.provinceId)
      && (r.Ok? && (exists p :: p in ds.provinces && p.id == r.body.district.provinceId) ==>
            exists i :: IsLastWithKey(ds.provinces, ProvinceKey, i) && r.body.province == ds.provinces[i])
      && (r.Ok? && !(exists p :: p in ds.provinces && p.id == r.body.district.provinceId) ==>
            r.body.province == ZeroProvince)
  {
    if atoi(req.pathId).Some? {
      var id := atoi(req.pathId).value;
      GetDistrictAgrees(ds, id);
      var district := ds.GetDistrict(id).0;
      GetProvinceAgrees(ds, district.provinceId);
    }
  }

  /**
   * Fetching one sub-district succeeds exactly when a loaded sub-district has the id, and
   * returns the last such one. The embedded district is the last loaded one with its
   * district id, or the zero district; the
   * embedded province is looked up by that embedded district's province id, so a missing
   * district leads to the lookup of province id 0.
   */
  lemma GetSubDistrictByIDAnswers(ds: DataService, req: Request, atoi: string -> Option<int>)
    requires Indexed(ds)
    ensures var r := GetSubDistrictByID(ds, req, atoi);
      && (atoi(req.pathId).Some? ==>
            (r.Ok? <==> exists i :: 0 <= i < |ds.subDistricts| && ds.subDistricts[i].id == atoi(req.pathId).value))
      && (r.Ok? ==> r.body.subDistrict in ds.subDistricts && r.body.subDistrict.id == atoi(req.pathId).value)
      && (r.Ok? ==> exists i :: IsLastWithKey(ds.subDistricts, SubDistrictKey, i) && r.body.subDistrict == ds.subDistricts[i])
      && (r.Ok? && (exists d :: d in ds.districts && d.id == r.body.subDistrict.districtId) ==>
            r.body.district in ds.districts && r.body.district.id == r.body.subDistrict.districtId)
      && (r.Ok? && (exists d :: d in ds.districts && d.id == r.body.subDistrict.districtId) ==>
            exists i :: IsLastWithKey(ds.districts, DistrictKey, i) && r.body.district == ds.districts[i])
      && (r.Ok? && !(exists d :: d in ds.districts && d.id == r.body.subDistrict.districtId) ==>
            r.body.district == ZeroDistrict)
      && (r.Ok? && (exists p :: p in ds.provinces && p.id == r.body.district.provinceId) ==>
            r.body.province in ds.provinces && r.body.province.id == r.body.district.provinceId)
      && (r.Ok? && (exists p :: p in ds.provinces && p.id == r.body.district.provinceId) ==>
            exists i :: IsLastWithKey(ds.provinces, ProvinceKey, i) && r.body.province == ds.provinces[i])
      && (r.Ok? && !(exists p :: p in ds.provinces && p.id == r.body.district.provinceId) ==>
            r.body.province == ZeroProvince)
  {
    if atoi(req.pathId).Some? {
      var id := atoi(req.pathId).value;
      GetSubDistrictAgrees(ds, id);
      var subDistrict := ds.GetSubDistrict(id).0;
      GetDistrictAgrees(ds, subDistrict.districtId);
      var district := ds.GetDistrict(subDistrict.districtId).0;
      GetProvinceAgrees(ds, district.provinceId);
    }
  }
}
