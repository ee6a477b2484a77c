# Reprint form: configuration, location lookup and dropdown logic

This project models the small pieces of real logic in a reprint-card intake
form (a browser form plus serverless endpoints) and proves properties of them:

- **SQL configuration** (`buildSqlConnectionFromEnv` in `api/diag/index.js`):
  four discrete environment variables win when all are non-empty; otherwise
  server, catalog, user and password are pulled out of an ADO-style
  connection string by four patterns of the form `KEY([^D]+)`. A missing
  field means no configuration (`None`, the source's `null`).
  `ConnectionString` models those patterns. It searches positions left to
  right for the key followed by at least one non-delimiter character and
  takes the greedy run. It is proved equal to a declarative description of
  the leftmost, greedy capture group.
- **Diagnostic handler** (`api/diag/index.js`): builds the `out` report step
  by step. It records which variables are present, runs a storage check and a
  SQL check, and clears `out.ok` when either fails. Storage and database
  round trips are inputs.
- **Location lookup** (`api/locations/index.js`): a district query beats a
  province query, which beats no query. Unknown keys give an empty list.
- **Cascading dropdowns** (`client.js`): three `<select>` elements are
  objects whose option lists the change handlers reset and refill in place.
  The bundled `locationData` literal is reproduced with its key order.
- **Watermark date** (`client.js`): `day/month/year` with a one-based month,
  no padding and the year in the Thai Buddhist Era (Gregorian + 543). A
  parser for such labels serves as the partner of the round-trip proof.

Files: `wrappers.dfy` (Option), `connection_string.dfy`, `sql_config.dfy`,
`diag.dfy`, `locations.dfy`, `client_selects.dfy`, `client_date.dfy`.

Environment variables and query parameters are `Option<string>`; `None` is
JavaScript's `undefined`. The source's truthiness tests ("set and non-empty")
are `SqlConfig.Truthy` and `Locations.Given`.

## Model

| member | source | states |
|---|---|---|
| ConnectionString.RunFrom | api/diag/index.js:20-23 | the captured run is the longest delimiter-free stretch starting after the key: it is a slice of the input, holds no delimiter, and ends at a delimiter or at the end of the string |
| ConnectionString.FirstMatch | api/diag/index.js:20-23 | the position found is a match (key present, followed by at least one non-delimiter) and no earlier position matches; `None` means no position at all matches |
| ConnectionString.FirstMatchIsLeftmost | api/diag/index.js:20-23 | the search stops at the first matching position, whatever lies after it |
| ConnectionString.Capture | api/diag/index.js:20-23 | the group is absent exactly when the pattern matches nowhere; a present group is non-empty and contains no delimiter |
| ConnectionString.MaximalRunUnique | api/diag/index.js:20-23 | the greedy run after a position is unique, so the captured value is determined by the match position |
| ConnectionString.CaptureIsLeftmostGreedyGroup | api/diag/index.js:20-23 | a group `Capture` returns is the group of the leftmost match with a greedy `[^D]+` |
| ConnectionString.LeftmostGreedyGroupIsCapture | api/diag/index.js:20-23 | conversely, the group of the leftmost greedy match is exactly what `Capture` returns |
| SqlConfig.BuildSqlConnection | api/diag/index.js:5-30 | every non-null result has all four fields non-empty and `encrypt = true`, whichever path produced it |
| SqlConfig.DiscreteVariablesWin | api/diag/index.js:6-17 | with all four discrete variables non-empty the result is built from them, and `SqlConnectionString` does not affect it |
| SqlConfig.NoConnectionStringNoConfig | api/diag/index.js:18-19 | incomplete discrete variables and a missing or empty connection string give null |
| SqlConfig.ConnectionStringFields | api/diag/index.js:20-29 | on the connection-string path the result is non-null exactly when all four patterns match; the server is the leftmost greedy group of `Server=tcp:` (no comma), and catalog, user and password are the groups of their keys (no semicolon) |
| SqlConfig.ServerRunsThroughSemicolons | api/diag/index.js:20 | for every comma-free host and comma-free remainder, the server group of `Server=tcp:` + host + `;` + remainder is host + `;` + remainder: without a port suffix it runs through the following `;`-separated fields |
| Diag.Handle | api/diag/index.js:32-73 | status 200 with a JSON content type; `out.ok` equals storage-ok and sql-ok, and equivalently holds exactly when the storage variable is set, storage answers, a SQL config exists and the connection succeeds; `out.env` flags are the truthiness of the variables (`hasSqlVars` iff all four discrete variables are non-empty); missing storage variable or SQL config give the source's error messages; etag `""` becomes null |
| Locations.HandleLocations | api/locations/index.js:17-20 | every response carries `Content-Type: application/json` |
| Locations.DistrictQueryWins | api/locations/index.js:9-10 | a non-empty district query answers `Lookup(subdistricts, district)`, where `Lookup` gives the table's entry for the key, or the empty list for an unknown key, and the province parameter has no effect |
| Locations.ProvinceQueryAnswersDistricts | api/locations/index.js:11-12 | without a district, a non-empty province query answers `Lookup(districts, province)`, that province's districts or the empty list |
| Locations.NoQueryAnswersProvinces | api/locations/index.js:13-14 | with neither parameter the full province list is returned |
| Locations.UnknownKeyAnswersEmpty | api/locations/index.js:10-12 | an unknown district or province key is answered with the empty list |
| CascadingSelects.OptionsOf | client.js:29-31 | one option per name, value and text both equal to the name, in the same order |
| CascadingSelects.Keys | client.js:43 | an object's keys in `for...in` (insertion) order, one per property; used for the province keys (line 28) and a province's district keys (line 43) |
| CascadingSelects.Find | client.js:59 | `obj[key]`: a found property is one of the object's with that key; none is found exactly when the key is not among the keys; used for `locationData[province]` (line 42) and `[district]` (line 59) |
| CascadingSelects.DistinctKeyFindsEntry | client.js:59 | with distinct keys, as in every object, looking up a property's key finds that property |
| CascadingSelects.DistrictChoicesEmpty | client.js:42-48 | `DistrictChoices` (the keys listed under line 42's condition `selectedProvince && locationData[selectedProvince]`) is empty exactly when the province is empty, unknown or has no districts |
| CascadingSelects.EmptySelectionListsNothing | client.js:57-59 | with an empty province or district selection `SubdistrictChoices` (what line 59's condition lets through) is empty and `DistrictLookupThrows` (the TypeError of `locationData[province][district]`) is false |
| CascadingSelects.SubdistrictChoicesKnown | client.js:59-65 | for a known province and district (keys distinct, as in any object) `SubdistrictChoices` is that district's array |
| CascadingSelects.LocationDataShape | client.js:12-21 | the bundled data lists its two provinces in source order, its keys are distinct at province and district level, and a sample province and district expand to their literal contents |
| CascadingSelects.SelectElement.ResetTo | client.js:39 | after an `innerHTML` reset the list is the placeholder alone |
| CascadingSelects.SelectElement.AppendChild | client.js:32 | `appendChild` adds one option at the end and keeps the rest |
| CascadingSelects.AppendAll | client.js:43-48 | the loop appends one option per name, in order, after the existing ones |
| CascadingSelects.LocationSelects.constructor | client.js:27-33 | after page load the province list is the markup's options followed by every `locationData` key in key order; the other lists are as the markup left them |
| CascadingSelects.LocationSelects.OnProvinceChange | client.js:36-50 | the district list becomes the placeholder followed by `DistrictChoices`, the province's district keys (none if the province is empty or unknown); the subdistrict list becomes the placeholder alone; the province list is unchanged |
| CascadingSelects.LocationSelects.OnDistrictChange | client.js:53-67 | the subdistrict list becomes the placeholder followed by `SubdistrictChoices`, the district's subdistricts in array order (none if either selection is empty or the district is unknown); `threw` is `DistrictLookupThrows`: a non-empty unknown province raises the TypeError after the reset; province and district lists are unchanged |
| WatermarkDate.DateLabel | client.js:92 | day/month/year built from `getDate()`, `getMonth() + 1` and `getFullYear() + 543`; no contract of its own, its properties are `DateLabelRoundTrip` and `DateFieldsUnpadded` |
| WatermarkDate.IntText | client.js:92 | how the template literal writes a whole number: non-empty and slash-free, with `-` before the digits of a negative |
| WatermarkDate.DecimalText | client.js:92 | the number's text is non-empty decimal digits with no leading zero except for 0 itself, one digit exactly below 10 |
| WatermarkDate.DecimalRoundTrip | client.js:92 | reading the decimal text back gives the number |
| WatermarkDate.IntRoundTrip | client.js:92 | a whole number's text, with `-` for negatives, reads back as the number |
| WatermarkDate.DateLabelRoundTrip | client.js:92 | the date label `DateLabel` builds reads back, through the parser `ParseDateLabel` (which rejects empty, padded or malformed fields), as (day, month + 1, year + 543) |
| WatermarkDate.DateFieldsUnpadded | client.js:92 | day and month are written without zero padding: one digit below 10, two from 10 on |

## Left out

- Network round trips in `api/diag/index.js`: the blob container `exists`/`create`/`getProperties` sequence and the tedious `connect`/`close` are inputs (`StorageProbe`, `SqlProbe`), as are their error messages. A connection that never emits `connect` would leave the handler waiting forever; that is not modelled.
- The tedious `Connection` is represented by its settings (server, database, user, password, encrypt). The fixed authentication type `"default"` is not a field.
- The outer `catch` of the diagnostic handler (status 500): every step that can throw sits inside an inner `try`, so the model always answers 200.
- The general regular-expression engine: only the `KEY([^D]+)` shape the four extractions use is modelled.
- The contents of `th_locations.json`: the three tables are parameters.
- JavaScript prototype keys (`constructor`, `toString`, ...) looked up on plain objects: the model treats every table as a map of own keys, so such keys count as unknown.
- The current values of the `<select>` elements are parameters of the change handlers, not derived from a modelled user selection. The page's markup for the initial option lists is not part of this model; it is a constructor parameter.
- The clock (`new Date()`): day, zero-based month and year are parameters of `DateLabel`.
- Image preview and watermark drawing in `client.js` (`FileReader`, `Image`, canvas scaling and rotation): DOM and floating-point drawing.
- The form submit handler in `client.js` (`console.log`, `alert`, `form.reset`, `clearRect`): I/O side effects only.
- particle-network.js: floating-point animation driven by `Math.random` and `requestAnimationFrame`.
- api/requests/index.js: a diagnostic echo of headers and body through `Buffer` decoding and `JSON.stringify`, with nothing to state beyond the foreign calls.
