# Thai location API — lookup, filter and pagination core

This project models the in-memory engine behind a small read-only REST API over the Thai
administrative hierarchy: geographies (regions) → provinces → districts (amphoe) →
sub-districts (tambon). The four collections are loaded once, in file order. The data
service then builds an id → record map per collection and a parent-id → children multimap
per parent link. Nine handlers answer requests from these indexes. The geography listing
returns every region, unpaginated. Each other listing handler answers 400 when its path id
or an integer filter (`geography_id`, `province_id`, `district_id`, `zip_code`) is
malformed, while a bad `page` or `limit` silently falls back to its default. The two
handlers under a path parent answer 404 when that parent does not exist. Each then applies,
in this order, the parent-id filter, the zip-code filter (sub-district listings only) and
the case-insensitive name search, and returns one page of the result. The three single-record handlers
return one record (404 when the id is unknown) with its parent records embedded.

Everything is pure functions over immutable datatypes:

- `wrappers.dfy`: `Option` and `Result`.
- `seqs.dfy`: the order-preserving `Filter` and the subsequence relation.
- `text.dfy`: ASCII case folding and substring containment.
- `models.dfy`: the record types and the pagination descriptor.
- `index.dfy`: the generic id-map and children-multimap folds, with their laws.
- `service.dfy`: the `DataService` state, the index builder, loading and the accessors.
- `paging.dfy`: one generic pagination function, which replaces the four identical per-type branches of the source.
- `handlers.dfy`: parameter parsing, the filter pipeline and the nine handlers.

The main theorems are:

- Every children list equals the collection filtered by parent id, in load order (`Index.ChildrenAreFilter`).
- Each listing handler's whole pipeline equals one filter over the loaded collection (`Handlers.*SelectionIsFilter`, `Handlers.*Answers`).
- Pages 1..TotalPages, concatenated, reproduce the filtered list exactly (`Paging.PagesPartition`).

The web framework's request context becomes a `Request` value: the `:id` path segment plus
the query parameters, where an absent parameter reads as `""`. Integer parsing
(`strconv.Atoi`) is a parameter `atoi: string -> Option<int>` of every handler that reads an integer.

Three behaviours of the code that the model keeps:

- The embedded-parent fields are tagged `omitempty` (models.go:74, 79, 84-85), but every single-record handler passes the address of the looked-up value whether or not the lookup succeeded. A missing parent is therefore embedded as a zero-valued record and never omitted.
- The sub-district handler embeds the district and that district's province. A missing district therefore leads to a lookup of province id 0.
- Ids are not required to be unique. When they repeat, the id map holds the last record with the id, and every point lookup returns that last record.

## Model

| member | source | states |
|---|---|---|
| `Seqs.FilterSelects` | handlers.go:52-61 | The result is a subsequence of the input, so order is kept. Each element of the input that satisfies the predicate keeps all of its copies; every other element has none. |
| `Seqs.FilterBy` | handlers.go:320-326 | The equality filter used for the zip-code stage. It keeps, in order and with all copies, exactly the records whose key equals the value. |
| `Seqs.SubseqTransitive` | handlers.go:297-339 | A subsequence of a subsequence is a subsequence of the original. |
| `Seqs.FilterFuse` | handlers.go:297-339 | Filtering by one predicate and then another equals one filter by their conjunction. |
| `Text.LowerChar` | handlers.go:55-56 | ASCII upper-case letters map to their lower-case letter (32 code points up). Every other character is unchanged. |
| `Text.Lower` | handlers.go:35 | Folding keeps the length and folds each character independently. |
| `Text.LowerIdempotent` | handlers.go:55-56 | Folding twice equals folding once, and the result has no ASCII upper-case letter. |
| `Text.Contains` | handlers.go:55-56 | True iff the substring occurs at some offset of the string. |
| `Index.BuildIdMap` | service.go:140-163 | The id map's key set is exactly the set of ids in the collection. Each stored value is a record of the collection, stored under its own id. |
| `Index.IdMapLastWins` | service.go:140-142 | When several records share an id, the map holds the last one in load order. |
| `Index.IdMapUnique` | service.go:140-163 | With unique ids, the map holds each record under its own id. |
| `Index.Find` | service.go:174-179 | A comma-ok lookup: the flag is set iff the key is present. The stored record is returned when present, the zero value otherwise. |
| `Index.FindInIdMap` | service.go:174-179 | A lookup in a built id map succeeds iff some record of the collection has the id. It then returns the last such record, and otherwise the zero value. |
| `Index.BuildChildren` | service.go:145-163 | The multimap's keys are exactly the parent ids that occur. No key holds an empty list. |
| `Index.ChildrenAreFilter` | service.go:145-163 | The children list of any parent id equals the collection filtered by that parent id, in load order. An absent key reads as the empty list. |
| `Index.ChildrenListsPartition` | service.go:145-163 | Every record appears, with all its copies, in the list of its own parent and in no other list. |
| `Index.ChildrenLengthsSum` | service.go:145-163 | Over any repetition-free list of parent ids that covers every record's parent, the children-list lengths sum to the collection length. |
| `Service.BuildIndexes` | service.go:138-164 | Builds every index from the collections and keeps the collections unchanged, so the list-all accessors return them in load order. States the key set of each of the seven maps. |
| `Service.LoadData` | service.go:51-79 | Succeeds iff all four loads succeeded, and the result is then indexed over exactly the loaded data. Otherwise it fails with the first failing file, in the order geographies, provinces, districts, sub-districts, carrying that file's error. |
| `Service.ChildrenLookupsAreFilters` | service.go:196-245 | For an indexed service, the three by-parent accessors return the collection filtered by parent id, in load order. |
| `Service.ChildlessParentReadsEmpty` | service.go:197-201 | A parent id that no child references has no key, and its accessor returns the empty list. |
| `Service.ChildrenListsCoverCollections` | service.go:145-163 | For each of the three relationships, the children-list lengths over the parent keys sum to the size of the child collection. |
| `Service.GetGeographyAgrees` | service.go:173-179 | Found iff some loaded geography has the id; the result is then the last such geography, and otherwise the zero geography. |
| `Service.GetProvinceAgrees` | service.go:188-194 | The same agreement with the collection, for provinces. |
| `Service.GetDistrictAgrees` | service.go:210-216 | The same agreement with the collection, for districts. |
| `Service.GetSubDistrictAgrees` | service.go:232-238 | The same agreement with the collection, for sub-districts. |
| `Service.GeographyIdsRoundTrip` | service.go:140-142 | When geography ids are unique, looking up the id of any loaded geography returns that geography with found = true. |
| `Service.ProvinceIdsRoundTrip` | service.go:145-149 | When province ids are unique, looking up the id of any loaded province returns that province with found = true. |
| `Service.DistrictIdsRoundTrip` | service.go:152-156 | When district ids are unique, looking up the id of any loaded district returns that district with found = true. |
| `Service.SubDistrictIdsRoundTrip` | service.go:159-163 | When sub-district ids are unique, looking up the id of any loaded sub-district returns that sub-district with found = true. |
| `Paging.TotalPages` | handlers.go:467-470 | The page count is at least 1, and exactly 1 for an empty list. For a non-empty list it is the ceiling of total / limit. |
| `Paging.Paginate` | handlers.go:410-479 | The descriptor echoes page and limit, reports the whole list's length as the total, and reports TotalPages. The page holds at most limit items. It is the run of items starting at offset (page-1)*limit: a full page, or the rest of the list near its end, or empty past the end. |
| `Paging.PagesBeyondLastAreEmpty` | handlers.go:417-425 | A page number above TotalPages yields no items. Each page up to TotalPages of a non-empty list yields at least one item. |
| `Paging.PagesUpToIsPrefix` | handlers.go:417-425 | Pages 1..n, concatenated, are the first n*limit items (the offset of page n+1), or the whole list if it is shorter. |
| `Paging.PagesPartition` | handlers.go:417-425 | Pages 1..TotalPages, concatenated in order, equal the list: no item is missing and none is repeated. |
| `Handlers.ParseParam` | handlers.go:40-47 | An empty parameter is absent. A non-empty one is a valid integer iff the parser accepts it, and malformed otherwise. |
| `Handlers.GetPaginationParams` | handlers.go:390-406 | Page is at least 1 and limit is in 1..100. A value that is absent, unparsable or out of range falls back to the default (page 1, limit 20). A value in range is used as given. |
| `Handlers.PaginationParamsFixpoint` | handlers.go:390-406 | Feeding a result back as parameters that parse to it reproduces the same result. |
| `Handlers.SearchFilter` | handlers.go:51-61 | Keeps, in order and with all copies, exactly the records where the folded query occurs in the folded Thai name or the folded English name. An empty query returns the list unchanged. |
| `Handlers.SearchFilterIsFilter` | handlers.go:129-139 | The search stage equals a filter by any predicate that agrees with the name match. This includes the empty-query shortcut. |
| `Handlers.KeyStageIsFilter` | handlers.go:250-266 | An optional equality stage equals a filter by "no filter given, or the key matches". |
| `Handlers.ProvinceSelectionIsFilter` | handlers.go:37-61 | For an indexed service, the index lookup by geography (or the whole list) followed by the search equals one filter over the loaded provinces, by geography match and name match. |
| `Handlers.DistrictSelectionIsFilter` | handlers.go:157-181 | The same equality for districts: the province filter, then the search. |
| `Handlers.SubDistrictZipStageIsFilter` | handlers.go:297-327 | The district index lookup (or the whole list) followed by the zip-code equality equals one filter over the loaded sub-districts by district match and zip match. |
| `Handlers.SubDistrictSelectionIsFilter` | handlers.go:297-339 | The district index lookup, the zip-code equality and the search, in that order, equal one filter over the loaded sub-districts by the conjunction of the three tests. |
| `Handlers.SubDistrictSelectionInOrder` | handlers.go:297-339 | The chained district, zip-code and search stages return an in-order subsequence of the loaded sub-districts. |
| `Handlers.GetGeographies` | handlers.go:23-30 | Always succeeds with every geography in load order, without pagination. |
| `Handlers.GetProvinces` | handlers.go:33-72 | Fails iff geography_id is present and malformed, and then with 400 and the message "Invalid geography_id parameter". |
| `Handlers.GetProvinceByID` | handlers.go:75-104 | A malformed id gives 400, checked before any lookup. An unknown id gives 404. Otherwise it succeeds. |
| `Handlers.GetDistrictsByProvinceID` | handlers.go:107-150 | A malformed id gives 400. An unknown province gives 404. Otherwise it succeeds. |
| `Handlers.GetDistricts` | handlers.go:153-192 | Fails iff province_id is present and malformed, and then with 400 and the message "Invalid province_id parameter". |
| `Handlers.GetDistrictByID` | handlers.go:195-224 | A malformed id gives 400. An unknown id gives 404. Otherwise it succeeds. |
| `Handlers.GetSubDistrictsByDistrictID` | handlers.go:227-289 | A malformed id gives 400. An unknown district gives 404 before zip_code is read. A malformed zip_code then gives 400. It succeeds in every other case. |
| `Handlers.GetSubDistricts` | handlers.go:292-350 | A malformed district_id gives 400 first. A malformed zip_code gives 400 next. It succeeds in every other case. |
| `Handlers.GetSubDistrictByID` | handlers.go:353-385 | A malformed id gives 400. An unknown id gives 404. Otherwise it succeeds. |
| `Handlers.GetProvincesAnswers` | handlers.go:33-72 | A successful province listing is the requested page of the loaded provinces that the request wants, in load order, and its total counts all of them. |
| `Handlers.GetDistrictsByProvinceIDAnswers` | handlers.go:107-150 | It succeeds iff a loaded province has the id. The page then comes from that province's districts that match the search. |
| `Handlers.GetDistrictsAnswers` | handlers.go:153-192 | A successful district listing is the requested page of the loaded districts that the request wants. |
| `Handlers.GetSubDistrictsByDistrictIDAnswers` | handlers.go:227-289 | It answers 404 iff no loaded district has the id, whatever zip_code holds. A success is the requested page of the district's sub-districts that pass the zip and search tests. |
| `Handlers.GetSubDistrictsAnswers` | handlers.go:292-350 | A successful sub-district listing is the requested page of the loaded sub-districts that pass the district, zip and search tests. |
| `Handlers.GetProvinceByIDAnswers` | handlers.go:85-98 | It succeeds iff a loaded province has the id, and returns the last loaded province with that id. The embedded geography is the last loaded one with the province's geography id, or the zero geography when there is none; a missing geography never causes a failure. |
| `Handlers.GetDistrictByIDAnswers` | handlers.go:205-218 | It succeeds iff a loaded district has the id, and returns the last loaded district with that id. The embedded province is the last loaded one with the district's province id, or the zero province. |
| `Handlers.GetSubDistrictByIDAnswers` | handlers.go:363-379 | It succeeds iff a loaded sub-district has the id, and returns the last loaded sub-district with that id. The embedded district is the last loaded one with its district id, or the zero district. The embedded province is the last loaded one with the embedded district's province id, or the zero province. |

## Left out

- main.go is not part of this model: server configuration, trusted proxies, CORS and security headers, route registration, the health check, static docs, port handling and `Listen` are framework glue.
- Reading the data files and decoding the JSON (service.go:82-135) is I/O and library decoding. `Service.LoadData` takes each file's decoded collection or error as input.
- The read-write lock is left out. The state never changes after loading, and every accessor is a pure function of it, so repeated identical requests give identical answers.
- Integer parsing (`strconv.Atoi`) is the parameter `atoi`. Its exact grammar and its 64-bit range check are not modelled.
- Text.LowerChar: folds only the ASCII letters A–Z and leaves every other character unchanged. Go's `strings.ToLower` applies per-character Unicode case mapping (`unicode.ToLower`), so non-ASCII upper-case letters (Latin-1, Greek, …) are not folded. Thai script has no case.
- Text.Lower: inherits the ASCII-only folding of `Text.LowerChar`, character by character.
- Text.Contains: works on characters rather than on UTF-8 bytes. For valid UTF-8 text the two agree.
- Timestamps, latitude/longitude, JSON tags and the response envelope (`status`, `message`) are left out. The logic never reads them. A response here is its payload or its error status and message.
- A children lookup for a missing key returns a nil slice in the source. When neither a zip-code stage nor a search stage follows (both rebuild the list as a non-nil slice), page 1 of it is then serialised as `null` instead of `[]`; a later page takes the `start > total` branch and serialises as `[]`. The model has no nil/empty distinction.
- Paging.Paginate: assumes unbounded integers. In the source, `(page-1)*limit` is a 64-bit Go `int` and wraps around for a huge `page`. Depending on where it lands, the request gives an empty page, a slice panic that the recover middleware (main.go:44) turns into an error response, or a wrong non-empty page (for example `page=4611686018427387905&limit=4` wraps the offset to 0 and returns the first four records). The model gives the empty page in all these cases; none of the three outcomes is modelled.
- The `default` branch of the source's pagination type switch is left out. It cannot be reached with the four record types, and the generic `Paging.Paginate` has no such case.
