/**
 * The data service: the four collections as loaded, the id maps and the parent -> children
 * multimaps built from them once, and the read-only accessors every handler goes through.
 */
module Service {
  import opened Wrappers
  import opened Seqs
  import opened Models
  import opened Index

  datatype DataService = DataService(
    geographies: seq<Geography>,
    provinces: seq<Province>,
    districts: seq<District>,
    subDistricts: seq<SubDistrict>,
    geographyMap: map<int, Geography>,
    provinceMap: map<int, Province>,
    districtMap: map<int, District>,
    subDistrictMap: map<int, SubDistrict>,
    provincesByGeography: map<int, seq<Province>>,
    districtsByProvince: map<int, seq<District>>,
    subDistrictsByDistrict: map<int, seq<SubDistrict>>)
  {
    function GetGeographies(): seq<Geography> { geographies }
    function GetProvinces(): seq<Province> { provinces }
    function GetDistricts(): seq<District> { districts }
    function GetSubDistricts(): seq<SubDistrict> { subDistricts }

    function GetGeography(id: int): (Geography, bool) { Find(geographyMap, id, ZeroGeography) }
    function GetProvince(id: int): (Province, bool) { Find(provinceMap, id, ZeroProvince) }
    function GetDistrict(id: int): (District, bool) { Find(districtMap, id, ZeroDistrict) }
    function GetSubDistrict(id: int): (SubDistrict, bool) { Find(subDistrictMap, id, ZeroSubDistrict) }

    function GetProvincesByGeography(geographyId: int): seq<Province> { Lookup(provincesByGeography, geographyId) }
    function GetDistrictsByProvince(provinceId: int): seq<District> { Lookup(districtsByProvince, provinceId) }
    function GetSubDistrictsByDistrict(districtId: int): seq<SubDistrict> { Lookup(subDistrictsByDistrict, districtId) }
  }

  /** Every index of `ds` is the one the index builder derives from its collections. */
  predicate Indexed(ds: DataService)
  {
    && ds.geographyMap == BuildIdMap(ds.geographies, GeographyKey)
    && ds.provinceMap == BuildIdMap(ds.provinces, ProvinceKey)
    && ds.districtMap == BuildIdMap(ds.districts, DistrictKey)
    && ds.subDistrictMap == BuildIdMap(ds.subDistricts, SubDistrictKey)
    && ds.provincesByGeography == BuildChildren(ds.provinces, ProvinceParent)
    && ds.districtsByProvince == BuildChildren(ds.districts, DistrictParent)
    && ds.subDistrictsByDistrict == BuildChildren(ds.subDistricts, SubDistrictParent)
  }

  /**
   * The index builder: one pass per collection filling the id map and, for the three child
   * levels, the multimap keyed by parent id. The collections themselves are kept unchanged,
   * so the list-all accessors return them in load order.
   */
  function BuildIndexes(
    geographies: seq<Geography>, provinces: seq<Province>,
    districts: seq<District>, subDistricts: seq<SubDistrict>): (ds: DataService)
    ensures Indexed(ds)
    ensures ds.GetGeographies() == geographies && ds.GetProvinces() == provinces
    ensures ds.GetDistricts() == districts && ds.GetSubDistricts() == subDistricts
    ensures ds.geographyMap.Keys == set g | g in geographies :: g.id
    ensures ds.provinceMap.Keys == set p | p in provinces :: p.id
    ensures ds.districtMap.Keys == set d | d in districts :: d.id
    ensures ds.subDistrictMap.Keys == set s | s in subDistricts :: s.id
    ensures ds.provincesByGeography.Keys == set p | p in provinces :: p.geographyId
    ensures ds.districtsByProvince.Keys == set d | d in districts :: d.provinceId
    ensures ds.subDistrictsByDistrict.Keys == set s | s in subDistricts :: s.districtId
  {
    DataService(
      geographies, provinces, districts, subDistricts,
      BuildIdMap(geographies, GeographyKey),
      BuildIdMap(provinces, ProvinceKey),
      BuildIdMap(districts, DistrictKey),
      BuildIdMap(subDistricts, SubDistrictKey),
      BuildChildren(provinces, ProvinceParent),
      BuildChildren(districts, DistrictParent),
      BuildChildren(subDistricts, SubDistrictParent))
  }

  /** Which data file a load failure came from. */
  datatype DataFile = GeographiesFile | ProvincesFile | DistrictsFile | SubDistrictsFile

  /** A load failure: the file being loaded and the underlying read or decode error. */
  datatype LoadError = LoadError(file: DataFile, cause: string)

  /**
   * Loading: the four files are read in order, the first failure aborts with that file's
   * error, and only when all four decoded are the indexes built. Reading and decoding
   * themselves are outside the model; their outcomes are the inputs.
   */
  function LoadData(
    geographies: Result<seq<Geography>, string>, provinces: Result<seq<Province>, string>,
    districts: Result<seq<District>, string>, subDistricts: Result<seq<SubDistrict>, string>)
    : (r: Result<DataService, LoadError>)
    ensures r.Success? <==>
      geographies.Success? && provinces.Success? && districts.Success? && subDistricts.Success?
    ensures r.Success? ==>
      && Indexed(r.value)
      && r.value.geographies == geographies.value && r.value.provinces == provinces.value
      && r.value.districts == districts.value && r.value.subDistricts == subDistricts.value
    ensures geographies.Failure? ==> r == Failure(LoadError(GeographiesFile, geographies.error))
    ensures geographies.Success? && provinces.Failure? ==>
      r == Failure(LoadError(ProvincesFile, provinces.error))
    ensures geographies.Success? && provinces.Success? && districts.Failure? ==>
      r == Failure(LoadError(DistrictsFile, districts.error))
    ensures geographies.Success? && provinces.Success? && districts.Success? && subDistricts.Failure? ==>
      r == Failure(LoadError(SubDistrictsFile, subDistricts.error))
  {
    if geographies.Failure? then Failure(LoadError(GeographiesFile, geographies.error))
    else if provinces.Failure? then Failure(LoadError(ProvincesFile, provinces.error))
    else if districts.Failure? then Failure(LoadError(DistrictsFile, districts.error))
    else if subDistricts.Failure? then Failure(LoadError(SubDistrictsFile, subDistricts.error))
    else Success(BuildIndexes(geographies.value, provinces.value, districts.value, subDistricts.value))
  }

  /** Children lookups equal the collection filtered by parent id, in load order. */
  lemma ChildrenLookupsAreFilters(ds: DataService, k: int)
    requires Indexed(ds)
    ensures ds.GetProvincesByGeography(k) == FilterBy(ds.provinces, ProvinceParent, k)
    ensures ds.GetDistrictsByProvince(k) == FilterBy(ds.districts, DistrictParent, k)
    ensures ds.GetSubDistrictsByDistrict(k) == FilterBy(ds.subDistricts, SubDistrictParent, k)
  {
    ChildrenAreFilter(ds.provinces, ProvinceParent, k);
    ChildrenAreFilter(ds.districts, DistrictParent, k);
    ChildrenAreFilter(ds.subDistricts, SubDistrictParent, k);
  }

  /** A parent with no children has no key and reads as an empty list, never as an error. */
  lemma ChildlessParentReadsEmpty(ds: DataService, k: int)
    requires Indexed(ds)
    ensures (forall p :: p in ds.provinces ==> p.geographyId != k) ==>
      k !in ds.provincesByGeography && ds.GetProvincesByGeography(k) == []
    ensures (forall d :: d in ds.districts ==> d.provinceId != k) ==>
      k !in ds.districtsByProvince && ds.GetDistrictsByProvince(k) == []
    ensures (forall s :: s in ds.subDistricts ==> s.districtId != k) ==>
      k !in ds.subDistrictsByDistrict && ds.GetSubDistrictsByDistrict(k) == []
  {
  }

  /**
   * Every province sits in the list of its own geography and in no other, so the list
   * lengths over the geography keys add up to the number of provinces; likewise for
   * districts by province and sub-districts by district.
   */
  lemma ChildrenListsCoverCollections(ds: DataService, gs: seq<int>, ps: seq<int>, dsKeys: seq<int>)
    requires Indexed(ds)
    requires Distinct(gs) && forall i :: 0 <= i < |ds.provinces| ==> ds.provinces[i].geographyId in gs
    requires Distinct(ps) && forall i :: 0 <= i < |ds.districts| ==> ds.districts[i].provinceId in ps
    requires Distinct(dsKeys) && forall i :: 0 <= i < |ds.subDistricts| ==> ds.subDistricts[i].districtId in dsKeys
    ensures SumLengths(ds.provincesByGeography, gs) == |ds.provinces|
    ensures SumLengths(ds.districtsByProvince, ps) == |ds.districts|
    ensures SumLengths(ds.subDistrictsByDistrict, dsKeys) == |ds.subDistricts|
  {
    ChildrenLengthsSum(ds.provinces, ProvinceParent, gs);
    ChildrenLengthsSum(ds.districts, DistrictParent, ps);
    ChildrenLengthsSum(ds.subDistricts, SubDistrictParent, dsKeys);
  }

  /**
   * Point lookup of a geography agrees with the collection: found exactly when some
   * geography has the id, and then it is the last such geography; otherwise the zero value.
   */
  lemma GetGeographyAgrees(ds: DataService, id: int)
    requires Indexed(ds)
    ensures ds.GetGeography(id).1 <==> exists i :: 0 <= i < |ds.geographies| && ds.geographies[i].id == id
    ensures ds.GetGeography(id).1 ==>
      exists i :: IsLastWithKey(ds.geographies, GeographyKey, i) && ds.geographies[i].id == id
        && ds.GetGeography(id).0 == ds.geographies[i]
    ensures !ds.GetGeography(id).1 ==> ds.GetGeography(id).0 == ZeroGeography
  {
    FindInIdMap(ds.geographies, GeographyKey, id, ZeroGeography);
  }

  /** Point lookup of a province agrees with the collection, as for geographies. */
  lemma GetProvinceAgrees(ds: DataService, id: int)
    requires Indexed(ds)
    ensures ds.GetProvince(id).1 <==> exists i :: 0 <= i < |ds.provinces| && ds.provinces[i].id == id
    ensures ds.GetProvince(id).1 ==>
      exists i :: IsLastWithKey(ds.provinces, ProvinceKey, i) && ds.provinces[i].id == id
        && ds.GetProvince(id).0 == ds.provinces[i]
    ensures !ds.GetProvince(id).1 ==> ds.GetProvince(id).0 == ZeroProvince
  {
    FindInIdMap(ds.provinces, ProvinceKey, id, ZeroProvince);
  }

  /** Point lookup of a district agrees with the collection, as for geographies. */
  lemma GetDistrictAgrees(ds: DataService, id: int)
    requires Indexed(ds)
    ensures ds.GetDistrict(id).1 <==> exists i :: 0 <= i < |ds.districts| && ds.districts[i].id == id
    ensures ds.GetDistrict(id).1 ==>
      exists i :: IsLastWithKey(ds.districts, DistrictKey, i) && ds.districts[i].id == id
        && ds.GetDistrict(id).0 == ds.districts[i]
    ensures !ds.GetDistrict(id).1 ==> ds.GetDistrict(id).0 == ZeroDistrict
  {
    FindInIdMap(ds.districts, DistrictKey, id, ZeroDistrict);
  }

  /** Point lookup of a sub-district agrees with the collection, as for geographies. */
  lemma GetSubDistrictAgrees(ds: DataService, id: int)
    requires Indexed(ds)
    ensures ds.GetSubDistrict(id).1 <==> exists i :: 0 <= i < |ds.subDistricts| && ds.subDistricts[i].id == id
    ensures ds.GetSubDistrict(id).1 ==>
      exists i :: IsLastWithKey(ds.subDistricts, SubDistrictKey, i) && ds.subDistricts[i].id == id
        && ds.GetSubDistrict(id).0 == ds.subDistricts[i]
    ensures !ds.GetSubDistrict(id).1 ==> ds.GetSubDistrict(id).0 == ZeroSubDistrict
  {
    FindInIdMap(ds.subDistricts, SubDistrictKey, id, ZeroSubDistrict);
  }

  /** With unique ids, looking up the id of any loaded geography returns exactly that record. */
  lemma GeographyIdsRoundTrip(ds: DataService)
    requires Indexed(ds)
    requires UniqueKeys(ds.geographies, GeographyKey)
    ensures forall i :: 0 <= i < |ds.geographies| ==> ds.GetGeography(ds.geographies[i].id) == (ds.geographies[i], true)
  {
    IdMapUnique(ds.geographies, GeographyKey, ZeroGeography);
  }

  /** With unique ids, looking up the id of any loaded province returns exactly that record. */
  lemma ProvinceIdsRoundTrip(ds: DataService)
    requires Indexed(ds)
    requires UniqueKeys(ds.provinces, ProvinceKey)
    ensures forall i :: 0 <= i < |ds.provinces| ==> ds.GetProvince(ds.provinces[i].id) == (ds.provinces[i], true)
  {
    IdMapUnique(ds.provinces, ProvinceKey, ZeroProvince);
  }

  /** With unique ids, looking up the id of any loaded district returns exactly that record. */
  lemma DistrictIdsRoundTrip(ds: DataService)
    requires Indexed(ds)
    requires UniqueKeys(ds.districts, DistrictKey)
    ensures forall i :: 0 <= i < |ds.districts| ==> ds.GetDistrict(ds.districts[i].id) == (ds.districts[i], true)
  {
    IdMapUnique(ds.districts, DistrictKey, ZeroDistrict);
  }

  /** With unique ids, looking up the id of any loaded sub-district returns exactly that record. */
  lemma SubDistrictIdsRoundTrip(ds: DataService)
    requires Indexed(ds)
    requires UniqueKeys(ds.subDistricts, SubDistrictKey)
    ensures forall i :: 0 <= i < |ds.subDistricts| ==> ds.GetSubDistrict(ds.subDistricts[i].id) == (ds.subDistricts[i], true)
  {
    IdMapUnique(ds.subDistricts, SubDistrictKey, ZeroSubDistrict);
  }
}
