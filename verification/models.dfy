/**
 * The four record types of the location hierarchy — geography (region), province,
 * district (amphoe), sub-district (tambon) — and the pagination descriptor. Only the
 * fields the lookup and filter logic reads are kept.
 */
module Models {

  datatype Geography = Geography(id: int, name: string)

  datatype Province = Province(id: int, nameTH: string, nameEN: string, geographyId: int)

  datatype District = District(id: int, nameTH: string, nameEN: string, provinceId: int)

  datatype SubDistrict = SubDistrict(id: int, zipCode: int, nameTH: string, nameEN: string, districtId: int)

  /** The values a missed map lookup yields: every field at its zero value. */
  const ZeroGeography := Geography(0, "")
  const ZeroProvince := Province(0, "", "", 0)
  const ZeroDistrict := District(0, "", "", 0)
  const ZeroSubDistrict := SubDistrict(0, 0, "", "", 0)

  /** A province with the geography it belongs to embedded. */
  datatype ProvinceWithGeography = ProvinceWithGeography(province: Province, geography: Geography)

  /** A district with the province it belongs to embedded. */
  datatype DistrictWithProvince = DistrictWithProvince(district: District, province: Province)

  /** A sub-district with its district and that district's province embedded. */
  datatype SubDistrictWithDistrict =
    SubDistrictWithDistrict(subDistrict: SubDistrict, district: District, province: Province)

  /** The descriptor returned beside every paginated list. */
  datatype Pagination = Pagination(page: int, limit: int, total: int, totalPages: int)

  // Field accessors, passed to the generic index and filter functions.

  function GeographyKey(g: Geography): int { g.id }

  function ProvinceKey(p: Province): int { p.id }
  function ProvinceParent(p: Province): int { p.geographyId }
  function ProvinceNameTH(p: Province): string { p.nameTH }
  function ProvinceNameEN(p: Province): string { p.nameEN }

  function DistrictKey(d: District): int { d.id }
  function DistrictParent(d: District): int { d.provinceId }
  function DistrictNameTH(d: District): string { d.nameTH }
  function DistrictNameEN(d: District): string { d.nameEN }

  function SubDistrictKey(s: SubDistrict): int { s.id }
  function SubDistrictParent(s: SubDistrict): int { s.districtId }
  function SubDistrictZip(s: SubDistrict): int { s.zipCode }
  function SubDistrictNameTH(s: SubDistrict): string { s.nameTH }
  function SubDistrictNameEN(s: SubDistrict): string { s.nameEN }
}
