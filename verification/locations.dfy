/**
 * api/locations/index.js: answer a location query from the bundled
 * province/district/subdistrict data.  A district query takes precedence
 * over a province query, which takes precedence over no query at all.
 */
module Locations {
  import opened Wrappers

  /** The three tables of th_locations.json (its contents are not part of this model). */
  datatype LocationTables = LocationTables(
    provinces: seq<string>,
    districts: map<string, seq<string>>,
    subdistricts: map<string, seq<string>>)

  /** `req.query.province` and `req.query.district`; `None` is an absent parameter. */
  datatype LocationQuery = LocationQuery(province: Option<string>, district: Option<string>)

  datatype LocationResponse = LocationResponse(headers: map<string, string>, body: seq<string>)

  const JsonHeaders := map["Content-Type" := "application/json"]

  /** A query parameter that is present and non-empty. */
  predicate Given(p: Option<string>) {
    p.Some? && p.value != ""
  }

  /** `table[key] || []`: the listed entries, or the empty list for an unknown key. */
  function Lookup(table: map<string, seq<string>>, key: string): seq<string> {
    if key in table then table[key] else []
  }

  function HandleLocations(data: LocationTables, q: LocationQuery): (r: LocationResponse)
    ensures r.headers == JsonHeaders
  {
    var body :=
      if Given(q.district) then Lookup(data.subdistricts, q.district.value)
      else if Given(q.province) then Lookup(data.districts, q.province.value)
      else data.provinces;
    LocationResponse(JsonHeaders, body)
  }

  /** A district query decides the answer, whatever the province parameter says. */
  lemma DistrictQueryWins(data: LocationTables, q: LocationQuery, otherProvince: Option<string>)
    requires Given(q.district)
    ensures HandleLocations(data, q).body == Lookup(data.subdistricts, q.district.value)
    ensures HandleLocations(data, q.(province := otherProvince)) == HandleLocations(data, q)
  {
  }

  /** Without a district, a province query answers with that province's districts. */
  lemma ProvinceQueryAnswersDistricts(data: LocationTables, q: LocationQuery)
    requires !Given(q.district) && Given(q.province)
    ensures HandleLocations(data, q).body == Lookup(data.districts, q.province.value)
  {
  }

  /** With neither parameter the whole province list is returned. */
  lemma NoQueryAnswersProvinces(data: LocationTables, q: LocationQuery)
    requires !Given(q.district) && !Given(q.province)
    ensures HandleLocations(data, q).body == data.provinces
  {
  }

  /** An unknown key is answered with an empty list rather than an error. */
  lemma UnknownKeyAnswersEmpty(data: LocationTables, q: LocationQuery)
    requires (Given(q.district) && q.district.value !in data.subdistricts)
          || (!Given(q.district) && Given(q.province) && q.province.value !in data.districts)
    ensures HandleLocations(data, q).body == []
  {
  }
}
