# geoservice_harvester_poc: a Dafny model of the per-layer harvest

The harvester reads a list of OGC sources, one line per owner (a canton, a federal
office, the geodienste.ch platform). `scraper.py` asks each source for its
capabilities, first as a WMS, then as a WMTS, then as a WFS 1.1.0. It walks the
layers (for a WMS, the children of a parent layer stand for it) and writes one CSV
line per layer. Each line is filled by the owner's own `scrape` function, when one
exists under the owner's name, or else by `scraper/default.py`. A line is written
only when `scrape` returns its record; any exception goes to the owner's error log.
`scrape_utilities.py` builds and cleans the per-canton source lists.
`check-geoservices-stats.py` compares today's dataset counts with the mean of the
previous thirty days and labels each owner's trend.

The model has these parts:

- `python.dfy`. The Python values the code relies on. An attribute is missing,
  None, or a value. An exception is a `Fault`. It also holds the string helpers.
- `capabilities.dfy`. What owslib hands the scrapers: a service with its
  identification, provider and `contents`, and a layer with its attributes.
- `record.dfy`. `layer_data`, as a class over the 18 columns. It holds the
  template of `service_result_empty()` and the CSV rendering of a record.
- `cleaning.dfy`. The `remove_newline` cleaners of the scrapers, with their laws.
- `script.dfy`. A `scrape` branch is a list of assignments to `layer_data`. One
  of them may be a `try`/`except` of several assignments. `Exec` is its meaning
  and `Perform` runs it in place on a `LayerData`. It also holds the frame
  lemmas: which entries an assignment reads and writes.
- `expr_facts.dfy` and `links.dfy`. What the recurring expressions evaluate to:
  the fallbacks, the centre and box arithmetic, and the map.geo.admin.ch links.
- `owners.dfy`. The owner scrapers as plans. A plan holds the branch chosen by
  the tests on the source URL, the branch's four groups of assignments
  (identity, description, position, map link), and how the branch ends.
- `default_scraper.dfy`, `kt_*.dfy` and `geodienste.dfy`. The branches of each
  scraper, line by line.
- `default_facts.dfy`, `kt_*_facts.dfy` and `geodienste_facts.dfy`. What a
  returned record holds in each column.
- `harvest.dfy`. `write_service_info`, the WMS → WMTS → WFS negotiation and
  `get_service_info`. These are pure specifications (`Write`, `WriteAll`,
  `Harvested`) of the code as written, where a first layer returning False or
  None leaves the file without its header, and the methods of a `Disk` class that
  changes the CSV file and the error logs in place. `Emit` is the corrected file
  write, with the header-once law proved about it.
- `layer_walk.dfy`. The `layers_done` walk of `get_service_info` and its laws.
- `source_lists.dfy`. `remove_identical_lines`, the CKAN filter of
  `get_ogc_services_for_canton` and the link filter of
  `extract_urls_with_getcapabilities`.
- `trend.dfy`. The SQL of the trend check: the window, the mean per owner, the
  ratio, the rounding and the classification.

The owner lemmas (`KtArFacts.WmsType`, `DefaultFacts.NameFallback`, …) are
about a record that `scrape` returned. The prefix of a lemma's name (Wms, Wmts,
Wfs) names the branch the record came from. Each one states the value of one
column in terms of the service, the layer and the source: `Final(O, c, m)[K] == …`
under `Returns(O, c, m)`.
The lemmas named `…Parts`, `…Free`, `…Last`, `…Later`, `…Placed`, `…In0` to `…In3` and
`…Unwritten`, and the `…Layout` and `…Value` lemmas of `DefaultFacts`, are the steps of
those proofs. They locate an assignment in its group and show that nothing later
disturbs it. They have no row below.

## Model

| member | source | states |
|---|---|---|
| Record.ColumnsComplete | scraper.py:16-20 | The record has 18 columns, each key once; every key is a column. |
| Record.Template | scraper.py:16-21 | The template holds every column: "n.a." everywhere except TITLE, NAME and ABSTRACT ("n.a") and GROUP (""). |
| Record.LayerData.constructor | scraper.py:16-21 | Evaluating the dictionary display in order gives the template, in column order. A repeated LEGEND or MAPGEO entry keeps its first position. |
| Record.LayerData.FirstDisplayLine | scraper.py:17 | The first line of the display adds OWNER … ABSTRACT in this order with their template values. |
| Record.LayerData.SecondDisplayLine | scraper.py:18 | The second line appends KEYWORDS, LEGEND, CONTACT and SERVICELINK. |
| Record.LayerData.ThirdDisplayLine | scraper.py:19 | The third line appends METADATA, UPDATE, SERVICETYPE and MAX_ZOOM. A repeated LEGEND changes only its value. |
| Record.LayerData.FourthDisplayLine | scraper.py:20 | The fourth line appends CENTER_LAT, CENTER_LON and BBOX. A repeated MAPGEO keeps its place; the record now has all 18 columns. |
| Record.LayerData.Set | scraper.py:17-20 | `d[k] = v` on a dict: a new key goes to the end, an existing key keeps its place, and only `k`'s value changes. |
| Record.LayerData.Put | scraper.py:158 | An assignment by a scraper changes one value and keeps the key order. |
| Record.LineOfRecord | scraper.py:169-179 | For a record that holds each column once, the header and the row it writes line up cell by cell: the j-th header entry names the record's j-th key and the j-th cell renders its value; no column name repeats. |
| Record.ReadBack | scraper.py:169-179 | Reading the written row back under the written header (csv.DictReader) gives each column its value as DictWriter rendered it: the text, or "" for None. |
| Record.HeaderNamesColumn | scraper.py:16-20 | Each column name leads back to its column, so two columns never share a name in the header. |
| Script.Perform | scraper.py:158-164 | Running a branch in place on `layer_data` leaves the record and the outcome that `Run` gives: values returned, or the first exception. |
| Cleaning.TagsAndControlsSpec | scraper/default.py:13-32 | The default cleaner gives "" for None and "". Its result holds no control character and no `<…>` tag, and cleaning it again changes nothing. |
| Cleaning.TagEnd | scraper/default.py:28-29 | The lazy `<.*?>` match from a '<' ends at the first '>' before any newline, or there is no match. |
| Cleaning.StripTagsLeavesNoTag | scraper/default.py:28-29 | On a line without newlines, no tag survives the tag substitution. |
| Cleaning.StripTagsSubset | scraper/default.py:28-29 | The tag substitution only deletes characters. |
| Cleaning.StripTagsFixed | scraper/default.py:28-29 | Text without tags and newlines passes through the substitution unchanged. |
| Cleaning.BlankSpec | scraper/KT_VD.py:7-12 | Each control character becomes one space and every other character stays in place. |
| Cleaning.ControlsOnlySpec | scraper/KT_ZH.py:7-12 | The KT_ZH cleaner keeps the length, leaves no control character, gives "" for None and "", and is idempotent. |
| Cleaning.CrlfOnlyKeeps | scraper/KT_BS.py:4-9 | Text without a "\r\n" pair passes through the pair-deleting cleaner unchanged. |
| Cleaning.CrlfOnlyNotIdempotent | scraper/KT_BL.py:3-8 | Deleting "\r\n" pairs in one pass can create a new pair: "\r\r\n\n" becomes "\r\n", and only a second pass gives "". |
| Cleaning.Clean | scraper/KT_AR.py:49 | Calling an undefined `remove_newline` raises NameError before the argument is used. Otherwise None and "" give "". |
| Owners.Final | scraper.py:158 | The record after `scrape` holds every column. |
| Owners.Ran | scraper.py:158 | A record that `scrape` returned comes from a branch that returns the dict and whose assignments raised nothing. |
| Owners.Silent | scraper/KT_GL.py:37-39 | A branch that assigns nothing leaves the record as it came and returns what its ending gives. |
| Owners.DoomedFirst | scraper/KT_AR.py:49 | A branch whose first group holds an assignment that always raises never returns a record. |
| Owners.Refused | scraper/KT_VD.py:16-18 | When a dispatch test raises, the record stays as it came and the exception propagates. |
| Owners.Unreturned | scraper/KT_AR.py:94-97 | A STAC source returns None, any other non-OGC source returns False, and neither touches the record. |
| Owners.KeptEntry | scraper/KT_BE.py:7-30 | A column that no assignment of the branch writes keeps its template value. |
| DefaultScraper.Final | scraper/default.py:63-240 | The default `scrape` leaves a record with every column. |
| Links.WmsLinkValue | scraper/KT_BS.py:47-50 | The WMS link is the prefix, "layers=WMS\|\|", the layer label, the service URL, "?\|\|", the layer id, the version, and the centre and zoom query. It needs a layer, a URL and a version. |
| Links.WmtsLinkValue | scraper/KT_BS.py:78-80 | The WMTS link is the prefix, "layers=WMTS\|\|", the layer label, "\|\|", the service URL, and the centre and zoom query. |
| Links.BundWmsLinkValue | scraper/default.py:213-214 | The federal WMS link names the layer by its title and uses the provider's URL, with no centre query. |
| Links.BundWmtsLinkValue | scraper/default.py:228 | The federal WMTS link is the prefix, "layers=" and the layer id. |
| Links.TypedWmsLinkValue | scraper/KT_BE.py:26-29 | KT_BE's link names the layer by SERVICETYPE and its id, then gives the service URL, the id, the version, and the centre and zoom query. |
| Links.KindWmtsLinkValue | scraper/KT_ZH.py:65-67 | KT_ZH's WMTS link takes the text after the first space of SERVICETYPE, then the layer id, the service URL, and the centre and zoom query. |
| DefaultFacts.NameFallback | scraper/default.py:73-78 | NAME is the layer's name, or its id when the layer has no `name` attribute; a None name stays None. |
| DefaultFacts.GroupFallback | scraper/default.py:85-91 | GROUP is the parent layer's name when there is a parent, else the group passed in, else "". |
| DefaultFacts.AbstractCleaned | scraper/default.py:94-95 | ABSTRACT is the cleaned abstract. |
| DefaultFacts.KeywordsJoined | scraper/default.py:98-99 | KEYWORDS is the layer's keywords joined by ", ", the None entries left out. |
| DefaultFacts.LegendOrder | scraper/default.py:102-124 | LEGEND is "" when `styles` is None; a style named "default" decides alone (its legend, or ""); else the only style's legend when there is exactly one; else the first child's "default" legend; else "". |
| DefaultFacts.ContactFallback | scraper/default.py:130-136 | CONTACT is the provider contact's email, else the provider's name; with neither, or with a provider that is None, it keeps its template value; with no provider attribute it is "". |
| DefaultFacts.ServiceLinkFallback | scraper/default.py:140-145 | SERVICELINK is `service.request` when the service has it, else `service.url`, else ""; an attribute that is None gives a None entry. |
| DefaultFacts.MetadataChain | scraper/default.py:148-161 | METADATA is the sole `metadataUrls` URL, "" for none or several. Only when that raises (no `metadataUrls`, or a sole entry without 'url') is the service metadata URL tried, then the sub-layer's; the abstract step always gives "", because `regex` is undefined there. |
| DefaultFacts.UpdateBlank | scraper/default.py:164 | UPDATE is "". |
| DefaultFacts.ZoomSeven | scraper/default.py:167 | MAX_ZOOM is 7. |
| DefaultFacts.CentreFallback | scraper/default.py:171-184 | The centre is the middle of the WGS84 box, else of the native box, else the fixed centre of Switzerland. |
| DefaultFacts.BoxFallback | scraper/default.py:187-196 | BBOX is the WGS84 box joined by spaces when it has four elements, else the fixed box. Without a WGS84 attribute, a non-empty native box has its first extent parsed into numbers, joined by spaces when there are four, else the fixed box; a None native box never reaches a returned record; no box gives the fixed box. |
| DefaultFacts.DispatchOrder | scraper/default.py:202-232 | The branch is chosen on substrings of `source['URL']`: WMS exactly when it names "WMS" or "wms"; WMTS when it names no WMS but "WMTS" or "wmts"; WFS when it names neither but "WFS" or "wfs". |
| DefaultFacts.ServiceTypeByUrl | scraper/default.py:202-236 | A returned record came from the WMS, WMTS or WFS branch, and its SERVICETYPE is "WMS", "WMTS" or "WFS" accordingly, whether or not `source['Description'] == "Bund"` picks the federal link. |
| DefaultFacts.OtherSources | scraper/default.py:237-240 | A URL that names no OGC protocol gives None for STAC and False otherwise, after the shared assignments of default.py:66-196 have run (or one of them raised); the record is never returned. |
| DefaultFacts.MapgeoShared | scraper/default.py:63-236 | All branches share the first assignments, and only the tail writes MAPGEO and SERVICETYPE. |
| DefaultFacts.WfsKeepsMapgeo | scraper/default.py:232-236 | The WFS branch leaves MAPGEO at its template value. |
| DefaultFacts.ZoomText | scraper/default.py:211 | The zoom in every default link is "7". |
| DefaultFacts.WmsMapgeo | scraper/default.py:207-211 | WMS: MAPGEO is the WMS link with the layer's title. |
| DefaultFacts.BundWmsMapgeo | scraper/default.py:212-214 | Federal WMS: MAPGEO is the federal WMS link. |
| DefaultFacts.WmtsMapgeo | scraper/default.py:223-226 | WMTS: MAPGEO is the WMTS link with the layer's id. |
| DefaultFacts.BundWmtsMapgeo | scraper/default.py:227-228 | Federal WMTS: MAPGEO is the federal WMTS link. |
| DefaultFacts.WmsLinkText | scraper/default.py:208-211 | The WMS MAPGEO written out in terms of the service and the record's centre. |
| DefaultFacts.BundWmsLinkText | scraper/default.py:213-214 | The federal WMS MAPGEO written out. |
| DefaultFacts.WmtsLinkText | scraper/default.py:224-226 | The WMTS MAPGEO written out in terms of the service and the record's centre. |
| DefaultFacts.BundWmtsLinkText | scraper/default.py:228 | The federal WMTS MAPGEO written out. |
| Harvest.StrategyByName | scraper.py:153-164 | Each owner's module is found under its own name, and only those names find a custom scraper; any other name uses the default. |
| Harvest.EmitAsWritten | scraper.py:167-180 | As written: a row is appended to an existing file; a missing file is opened for writing before `layer_data.keys()` is read, so a False or None result leaves an empty file. |
| Harvest.HeaderLost | scraper.py:167-180 | A first layer that returns False leaves an empty file, and the next row is appended to it with no header. |
| Harvest.Emit | scraper.py:167-180 | As intended: a missing file is created with the header and the row together, an existing file gets one more row, and a failed strategy leaves the file as it was. |
| Harvest.EmitKeepsHeader | scraper.py:167-180 | Writing a layer keeps the header at the head of the file, the only header line. |
| Harvest.Scraped | scraper.py:148-164 | The strategy's record holds every column. |
| Harvest.Write | scraper.py:148-190 | As written: the row is written exactly when `scrape` returned its record, to the file's end, after the header when the file was missing. A result of False or None creates the missing file empty and logs the failed `keys()`; an exception leaves the file alone. Every failure adds one log line under the owner's name, after the old ones. |
| Harvest.WrittenRow | scraper.py:167-180 | A written row is the returned record in column order, appended after the lines already there, or after the header in a new file. |
| Harvest.NegotiationOrder | scraper.py:77-86 | The first constructor that succeeds gives the service; children are followed exactly when it is a WMS; WFS is asked for version 1.1.0. |
| Harvest.WriteAllSnoc | scraper.py:113 | One more job is one more `write_service_info`. |
| Harvest.WriteAllLines | scraper.py:89-122 | As written: a run of writes appends the rows of the jobs that returned a record, in order; the header comes first only when the file was missing and the first job to reach the file returned a record; the file exists afterwards exactly when it did before or some job reached it. |
| Harvest.WriteAllLog | scraper.py:89-122 | Each job adds at most one log line, after the old ones. |
| Harvest.WriteAllExtends | scraper.py:89-122 | On an existing file, a run of writes only appends: the old lines stay in front. |
| Harvest.WriteAllFromScratch | scraper.py:89-122 | From no file: a first reaching job that returned a record gives the header and then the rows; none gives no file; a first reaching job that returned False or None gives the rows with no header at all. |
| Harvest.WriteAllKeepsHeader | scraper.py:89-122 | A run of writes on a file that exists and starts with the header keeps the header at its head. |
| Harvest.HarvestKeepsHeader | scraper.py:67-136 | A harvest keeps the header at the head of a file that exists and starts with it. |
| Harvest.HarvestAppends | scraper.py:67-136 | A harvest on an existing file only appends to it. |
| Harvest.HarvestLogsAbort | scraper.py:67-136 | A harvest keeps the old log lines in front; when it gives up, its last log line is under the owner's name. |
| Harvest.Disk.constructor | scraper.py:207-214 | A run starts with no output file and no error logs. |
| Harvest.Disk.WriteServiceInfo | scraper.py:138-190 | The method changes the files as `Write` (the code as written) says and returns whether the row was written. |
| Harvest.Disk.WriteJob | scraper.py:113 | Writing one more job of the walk extends `WriteAll` by that job. |
| Harvest.Disk.WriteChildren | scraper.py:108-114 | The inner loop writes each child not yet done, under its parent, and returns `layers_done` as `Adopt` gives it. |
| Harvest.Disk.VisitLayer | scraper.py:97-122 | One turn of the layer loop writes the jobs `Visit` gives, or stops at the exception. |
| Harvest.Disk.WalkTurn | scraper.py:97-122 | Turn `k` of the walk keeps the files in step with the walk's jobs so far. |
| Harvest.Disk.WalkLayers | scraper.py:89-122 | The layer loop writes exactly the jobs of `Walk`, in order, and ends with its fault. |
| Harvest.Disk.GetServiceInfo | scraper.py:67-136 | The files end as `Harvested` (the code as written) says, and the result says whether the harvest gave up. |
| LayerWalk.Adopted | scraper.py:108-114 | Each child not yet done is written once, under its parent and tree, and afterwards every child is done. |
| LayerWalk.Visited | scraper.py:97-122 | A turn issues fresh jobs of the two shapes; a layer it does not write was done before or has children, all done afterwards. |
| LayerWalk.WalkFresh | scraper.py:90-122 | No layer is written twice, nor one done before the walk, and `layers_done` ends as the layers written, in order. |
| LayerWalk.WalkShapes | scraper.py:106-122 | Every job is a top-level layer without children, or a child of a layer the walk met. |
| LayerWalk.WalkCovers | scraper.py:91-122 | A walk without an exception leaves every layer done, or else all of its children. |
| LayerWalk.FlatWalk | scraper.py:117-122 | Without children to follow, each layer is written once, as itself, in the order of `service.contents`. |
| Trend.MaxDate | check-geoservices-stats.py:26-27 | MAX(DATE) is a date of the table and no date is later; it is NULL only for an empty table. |
| Trend.Window | check-geoservices-stats.py:36-37 | The window keeps exactly the historic lines dated from thirty days before the newest date up to, but not including, that date. |
| Trend.History | check-geoservices-stats.py:32-41 | `hist_stats` has exactly the owners with a line in the window. |
| Trend.MeanBounded | check-geoservices-stats.py:34 | A mean lies between the smallest and the largest count of its group. |
| Trend.Classify | check-geoservices-stats.py:51-59 | The CASE arms do not overlap and cover every ratio, so the label is the one band the ratio lies in. |
| Trend.Ratio | check-geoservices-stats.py:49 | The ratio times the mean is the count times 100; a zero mean gives NULL. |
| Trend.Round1 | check-geoservices-stats.py:50 | ROUND(x, 1) is within 0.05 of x, has one decimal and keeps the sign. |
| Trend.RoundKeepsTenths | check-geoservices-stats.py:50 | A value with one decimal is kept as it is. |
| Trend.Change | check-geoservices-stats.py:50 | The change is NULL exactly when the ratio is. |
| Trend.ChangeMatchesLabel | check-geoservices-stats.py:50-59 | The change agrees with the label: zero for Stable, up for Improved, down by less than ten points for Decreased, by ten to twenty for Strongly decreased, and by twenty or more for the suspicious drop. |
| Trend.SuspiciousDrop | check-geoservices-stats.py:49-58 | With a positive mean, the alert marks exactly the counts of at most four fifths of the mean. |
| Trend.TrendOf | check-geoservices-stats.py:44-59 | The ratio exists exactly when the mean is not 0 and then is the count as a percentage of the mean; the label is the band the ratio falls in, so a positive mean gives "suspicious" exactly when the count is at most 80 % of it; the change lies within 0.05 of the ratio minus 100 (it is rounded to one decimal); without a ratio there is neither label nor change. |
| Trend.Joined | check-geoservices-stats.py:60-62 | The join has one row per current line whose owner has a historic mean, and no other row. |
| Trend.ChangeStats | check-geoservices-stats.py:23-62 | The stats table fails exactly when the current table is empty. |
| Trend.Compared | check-geoservices-stats.py:26-62 | Every row compares a current line with the mean over the thirty days before the newest date; lines of that date never enter the mean. |
| Trend.SteadyIsStable | check-geoservices-stats.py:49-52 | An owner whose count held steady over the window is Stable today, with no change. |
| Trend.StableAtMean | check-geoservices-stats.py:49-52 | A count equal to a positive mean is Stable, with no change. |
| Trend.SteadyMean | check-geoservices-stats.py:34 | A steady count is its own mean. |
| SourceLists.RemoveIdenticalLines | scrape_utilities.py:37-49 | The output holds exactly the rows of the input, each once. |
| SourceLists.GetOgcServicesForCanton | scrape_utilities.py:86-107 | A status other than 200 raises "Error <status>: <text>"; otherwise the file is the header and one row per OGC resource URL, results first, then resources. |
| SourceLists.KeptExactly | scrape_utilities.py:92-100 | An entry is kept exactly when its resource, in some result, has the format wms, wfs or wmts in any case. |
| SourceLists.FormatCaseBlind | scrape_utilities.py:94 | The format test ignores case. |
| SourceLists.CapabilitiesLinks | scrape_utilities.py:136 | The kept links are exactly the hrefs that contain "GetCapabilities", with their multiplicity and in document order. |
| SourceLists.CapabilitiesListing | scrape_utilities.py:136-143 | The file is the header and one row per kept link. |
| SourceLists.Rows | scrape_utilities.py:103-107 | The file is the header, then one row [canton, url] per URL, in order. |
| Python.SplitJoin | scraper/default.py:191 | Splitting on the separator undoes joining, for parts that do not contain it. |
| Python.Lower | scrape_utilities.py:94 | ASCII `lower()`: it keeps the length, maps each of A–Z to its lower-case letter and leaves every other character, so the wms/wfs/wmts format test decides the same on a lowered format. |
| Python.AfterFirstSpace | scraper/KT_ZH.py:65 | `partition(" ")[2]` is the text after the first space, or "" when there is no space. |
| Capabilities.Lookup | scraper/KT_SO.py:11 | `service.contents[i]` is the layer with that id, and fails exactly when no layer has it. |
| Capabilities.LayerOf | scraper/KT_SO.py:11 | The layer a call is about exists exactly when its id is a key of `service.contents`. |
| Script.FirstMarkerWins | scraper/KT_VD.py:18-40 | The `if "WMS" in type … elif` chain takes the first of WMS, WMTS, WFS, STAC whose marker the type contains, and NoBranch when it contains none; a chosen branch's marker is in the text. A None type raises instead. |
| Script.AttemptEval | scraper/KT_BS.py:25-31 | `try` keeps the body's value unless the body raised; then it is the handler's value. |
| Script.CatText | scraper/KT_AR.py:36-39 | `a + b + …` is the concatenation when every part is a string, and raises when one is not (TypeError for None). |
| Script.StoreHolds | scraper/default.py:164 | An assignment that raised nothing stores the value of its expression and changes nothing else. |
| Script.ExecKeeps | scraper/KT_SO.py:10-32 | A body changes no entry it does not assign, whether or not it raises. |
| Script.ExecAppend | scraper/KT_SO.py:10-32 | Statements run in order: the rest runs only when the prefix raised nothing. |
| Script.DoomedBodyRaises | scraper/KT_AR.py:49 | A body with an assignment that always raises, outside any try block, always raises. |
| Script.Delivered | scraper/KT_SO.py:10-32 | A branch that returned the record ran its whole body without an exception. |
| Script.Settled | scraper/default.py:63-236 | After a body that raised nothing, an entry holds its last assignment's value on the incoming record. |
| Owners.Entry | scraper/KT_SO.py:10-26 | An entry placed in one group of a returned record is its expression's value on the incoming record. |
| Owners.LateEntry | scraper/KT_SO.py:27-30 | An entry the link group assigns last is its expression's value on the final record. |
| Owners.FixedEntry | scraper/KT_VD.py:24 | A literal assignment leaves its text in the returned record. |
| Owners.ReadEntry | scraper/KT_VD.py:19-20 | A plain read leaves what it read, None as None. |
| Owners.LayerEntry | scraper/KT_BE.py:8-9 | An expression on the layer leaves its value on the layer, and the layer exists. |
| Owners.ThirdGroupEnd | scraper/KT_BS.py:69-77 | A branch whose third group ends in a statement that ran without an exception: every entry the fourth group does not write holds what that statement left. |
| ExprFacts.CleanedValue | scraper/KT_ZH.py:53 | `remove_newline(x)` that gave a value: the cleaner is defined, the read succeeded, and the value is the cleaned text. |
| ExprFacts.JoinedKeywordsRead | scraper/Geodienste.py:21 | The keywords are the layer's and then the service's, joined by ", "; both lists exist and hold no None. |
| ExprFacts.ParentNameRead | scraper/KT_BS.py:22 | GROUP is the parent's name, or "" without a parent; a missing `parent` attribute raises. |
| ExprFacts.LegendIfLegendKeyRead | scraper/KT_AR.py:51 | The test asks for a style named "legend" but reads the style named "default": without a "legend" style the value is "". |
| ExprFacts.MetadataUrlIfZeroRead | scraper/KT_BE.py:20 | `0 in metadataUrls` never holds for a list of dictionaries, so METADATA is always "". |
| ExprFacts.SoleUrlOrSpace | scraper/KT_VD.py:34-38 | METADATA is the one URL in the abstract, "" for none or several, and " " when there is no layer or no abstract. |
| ExprFacts.LegendTryChain | scraper/KT_BS.py:25-31 | LEGEND is the first child's default legend, else the layer's own, else "". |
| ExprFacts.MetadataTryChain | scraper/KT_BS.py:34-40 | METADATA is the layer's first metadata URL, else that of its first sub-layer or child, else "". |
| ExprFacts.TryOnLayer | scraper/KT_BS.py:69-77 | A try block on the layer that raised nothing: the layer exists, and the entries hold the body's values when all of them have one, else the handler's. |
| Links.TitledWmsLinkText | scraper/KT_AR.py:36-39 | At zoom 7, the WMS link names the layer by its title and ends in "&zoom=7". |
| Links.IdWmsLinkText | scraper/default.py:208-211 | The same link, naming the layer by its id. |
| Links.TitledWmtsLinkText | scraper/KT_BS.py:78-80 | At zoom 7, the WMTS link names the layer by its title. |
| Links.IdWmtsLinkText | scraper/KT_AR.py:61-63 | The same WMTS link, naming the layer by its id. |
| KtArFacts.Routes | scraper/KT_AR.py:6-97 | The branch is chosen on source['URL']: "WMS" first, then "WMTS", "WFS" and "STAC". |
| KtArFacts.WmtsFails | scraper/KT_AR.py:43-49 | The WMTS branch calls `remove_newline`, which KT_AR.py does not define, before anything else: a WMTS source never gives a record. |
| KtArFacts.WmsType | scraper/KT_AR.py:31 | WMS: SERVICETYPE is "OGC:WMS". |
| KtArFacts.WfsType | scraper/KT_AR.py:87 | WFS: SERVICETYPE is "OGC:WFS". |
| KtArFacts.WmsZoom | scraper/KT_AR.py:32 | WMS: MAX_ZOOM is 7. |
| KtArFacts.WfsZoom | scraper/KT_AR.py:88 | WFS: MAX_ZOOM is "". |
| KtArFacts.WmsAbstract | scraper/KT_AR.py:15-19 | WMS: the abstract is the layer's and its parent's when the parent has one, else the layer's own, with every "\n" deleted. |
| KtArFacts.WmsKeywords | scraper/KT_AR.py:20-25 | WMS: `keywords != "[]"` always holds, so KEYWORDS is the service's keyword list as it is. |
| KtArFacts.WmsMetadata | scraper/KT_AR.py:29 | WMS: METADATA is the URL of the sole metadata entry, or "". |
| KtArFacts.WfsAbstract | scraper/KT_AR.py:71-75 | WFS: ABSTRACT is the layer's abstract and its parent's when the parent has one, else the layer's own, with every "\n" deleted (a None abstract raises). |
| KtArFacts.WfsKeywords | scraper/KT_AR.py:76-81 | WFS: `keywords != "[]"` always holds, so KEYWORDS is the service's keyword list as it is, or None. |
| KtArFacts.WfsMetadata | scraper/KT_AR.py:85 | WFS: METADATA is the URL of the sole metadata entry, or "". |
| KtArFacts.WmsLegend | scraper/KT_AR.py:26 | The WMS legend is the legend of the style named "default", or "". |
| KtArFacts.WfsLegend | scraper/KT_AR.py:82 | The WFS legend is the legend of the only style, which must be named "default", or "". |
| KtArFacts.WmsGroup | scraper/KT_AR.py:14 | WMS: GROUP is the parent layer's name, or "" for a top layer. |
| KtArFacts.WfsName | scraper/KT_AR.py:68 | A WFS layer is named by its id. |
| KtArFacts.WfsKeepsMapgeo | scraper/KT_AR.py:65-93 | The WFS branch leaves MAPGEO as it was. |
| KtArFacts.WmsLinkHolds | scraper/KT_AR.py:36-39 | WMS: MAPGEO is its link's value on the final record. |
| KtArFacts.WmsMapgeo | scraper/KT_AR.py:36-39 | The WMS link names the layer by its title and ends with the box's centre at zoom 7. |
| KtBeFacts.Routes | scraper/KT_BE.py:5-36 | The branch is chosen on the service's type, compared with "WMS", "WMTS" and "STAC" for equality. |
| KtBeFacts.OnlyWms | scraper/KT_BE.py:5-36 | Only a WMS service gives a record: a WMTS or STAC service gives None and any other False, and neither touches the record. |
| KtBeFacts.WmsGroup | scraper/KT_BE.py:12 | WMS: GROUP is the group the caller passed, or "". |
| KtBeFacts.WmsAbstract | scraper/KT_BE.py:13-14 | WMS: the abstract joins the layer's and its parent's, both required, and deletes every "\n". |
| KtBeFacts.WmsKeywords | scraper/KT_BE.py:15-16 | WMS: KEYWORDS is the layer's keyword list as it is. |
| KtBeFacts.WmsLegend | scraper/KT_BE.py:17 | WMS: the legend is the legend of the style named "default", or "". |
| KtBeFacts.WmsMetadata | scraper/KT_BE.py:20 | WMS: METADATA is "". |
| KtBeFacts.WmsType | scraper/KT_BE.py:22 | WMS: SERVICETYPE is "WMS". |
| KtBeFacts.WmsZoom | scraper/KT_BE.py:23 | WMS: MAX_ZOOM is 7. |
| KtBeFacts.WmsKeepsBbox | scraper/KT_BE.py:7-30 | WMS: the branch assigns no BBOX, so BBOX keeps the value it came with. |
| KtBeFacts.WmsLinkHolds | scraper/KT_BE.py:26-29 | WMS: MAPGEO is its link's value on the final record. |
| KtBeFacts.WmsMapgeo | scraper/KT_BE.py:26-29 | WMS: the link names the layer "WMS\|\|" and its id, then the service's URL, the id and the version. |
| KtBlFacts.Routes | scraper/KT_BL.py:12-83 | The branch is chosen on source['URL']: "WMS" first, then "WMTS", then "WFS". |
| KtBlFacts.WmsType | scraper/KT_BL.py:28 | WMS: SERVICETYPE is "WMS". |
| KtBlFacts.WmtsType | scraper/KT_BL.py:51 | WMTS: SERVICETYPE is "WMTS". |
| KtBlFacts.WfsType | scraper/KT_BL.py:74 | WFS: SERVICETYPE is the service's own type, None when it has none. |
| KtBlFacts.WmsZoom | scraper/KT_BL.py:29 | WMS: MAX_ZOOM is 7. |
| KtBlFacts.WmtsZoom | scraper/KT_BL.py:52 | WMTS: MAX_ZOOM is 7. |
| KtBlFacts.WfsZoom | scraper/KT_BL.py:75 | WFS: MAX_ZOOM is "". |
| KtBlFacts.WmtsLat | scraper/KT_BL.py:53 | WMTS: CENTER_LAT is "47.4675". |
| KtBlFacts.WmtsLon | scraper/KT_BL.py:54 | WMTS: CENTER_LON is "7.671". |
| KtBlFacts.WmtsExtent | scraper/KT_BL.py:55 | WMTS: BBOX is "2590000.0 1240000.0 2645000.0 1275000.0 EPSG:2056". |
| KtBlFacts.WmtsAbstract | scraper/KT_BL.py:44 | WMTS: ABSTRACT is "". |
| KtBlFacts.WmtsLegend | scraper/KT_BL.py:46 | The WMTS legend tests for a style named "legend" but reads the style named "default": without a "legend" style it is "", with one it needs a "default" style with a legend. |
| KtBlFacts.WmsMetadata | scraper/KT_BL.py:26 | WMS: METADATA is "". |
| KtBlFacts.WfsMetadata | scraper/KT_BL.py:72 | WFS: METADATA is "". |
| KtBlFacts.WfsName | scraper/KT_BL.py:64 | A WFS layer is named by its id. |
| KtBlFacts.WfsKeepsMapgeo | scraper/KT_BL.py:61-79 | The WFS branch leaves MAPGEO as it was. |
| KtBlFacts.WmsLinkHolds | scraper/KT_BL.py:33-36 | WMS: MAPGEO is its link's value on the final record. |
| KtBlFacts.WmtsLinkHolds | scraper/KT_BL.py:56-58 | WMTS: MAPGEO is its link's value on the final record. |
| KtBlFacts.WmsMapgeo | scraper/KT_BL.py:33-36 | The WMS link names the layer by its title and ends with the box's centre. |
| KtBlFacts.WmtsMapgeo | scraper/KT_BL.py:56-58 | The WMTS link names the layer by its title and ends with the fixed centre. |
| KtBsFacts.Routes | scraper/KT_BS.py:14-118 | The branch is chosen on source['URL']: "WMS", then "WMTS", then the lower-case "wfs", then "STAC". |
| KtBsFacts.WmsGroup | scraper/KT_BS.py:22 | The WMS GROUP is the parent layer's name, or "" for a top layer. |
| KtBsFacts.WmsAbstract | scraper/KT_BS.py:23 | A WMS or WFS abstract is the layer's abstract and the access constraints, or the constraints alone, with every "\r\n" deleted. |
| KtBsFacts.WfsAbstract | scraper/KT_BS.py:90 | WFS: a WMS or WFS abstract is the layer's abstract and the access constraints, or the constraints alone, with every "\r\n" deleted. |
| KtBsFacts.WmtsAbstract | scraper/KT_BS.py:60 | A WMTS abstract is the service's abstract and access constraints, both required, with every "\r\n" deleted. |
| KtBsFacts.WmsKeywords | scraper/KT_BS.py:24 | WMS: KEYWORDS is the layer's keywords followed by the service's, joined by ", "; none of them is None on a returned record. |
| KtBsFacts.WmtsLegend | scraper/KT_BS.py:62 | The WMTS legend tests for a style named "legend" but reads the style named "default". |
| KtBsFacts.WmsType | scraper/KT_BS.py:42 | WMS: SERVICETYPE is the service's own type, None when it has none. |
| KtBsFacts.WfsType | scraper/KT_BS.py:109 | WFS: SERVICETYPE is "WFS". |
| KtBsFacts.WmsZoom | scraper/KT_BS.py:43 | WMS: MAX_ZOOM is 7. |
| KtBsFacts.WmtsZoom | scraper/KT_BS.py:68 | WMTS: MAX_ZOOM is 7. |
| KtBsFacts.WfsZoom | scraper/KT_BS.py:110 | WFS: MAX_ZOOM is "". |
| KtBsFacts.WfsName | scraper/KT_BS.py:87 | A WFS layer is named by its id. |
| KtBsFacts.WfsLat | scraper/KT_BS.py:111 | WFS: CENTER_LAT is the middle of the second and fourth elements of the WGS84 box. |
| KtBsFacts.WfsLon | scraper/KT_BS.py:112 | WFS: CENTER_LON is the middle of the first and third elements of the WGS84 box. |
| KtBsFacts.WfsKeepsMapgeo | scraper/KT_BS.py:83-114 | The WFS branch leaves MAPGEO as it was. |
| KtBsFacts.WmsLinkHolds | scraper/KT_BS.py:47-50 | WMS: MAPGEO is its link's value on the final record. |
| KtBsFacts.WmsMapgeo | scraper/KT_BS.py:47-50 | The WMS link names the layer by its title and ends with the box's centre at zoom 7. |
| KtBsFacts.WmtsLinkHolds | scraper/KT_BS.py:78-80 | WMTS: MAPGEO is its link's value on the final record. |
| KtBsFacts.WmtsMapgeo | scraper/KT_BS.py:78-80 | The WMTS link names the layer by its title and ends with the centre the fallback chose. |
| KtBsFacts.WmsLegend | scraper/KT_BS.py:25-31 | WMS: LEGEND is the first child's default legend, else the layer's own default legend, else "". |
| KtBsFacts.WfsLegend | scraper/KT_BS.py:101-107 | WFS: LEGEND is the first child's default legend, else the layer's own default legend, else "". |
| KtBsFacts.WmsMetadata | scraper/KT_BS.py:34-40 | WMS: METADATA is the layer's first metadata URL, else the first sub-layer's, else "". |
| KtBsFacts.WfsMetadata | scraper/KT_BS.py:92-98 | WFS: METADATA is the layer's first metadata URL, else the first child's, else "". |
| KtBsFacts.WmtsExtent | scraper/KT_BS.py:69-77 | WMTS: when boundingBoxWGS84 has four ordinates, CENTER_LAT and CENTER_LON are the middles of its second and fourth and of its first and third, and BBOX its elements joined by spaces; otherwise the except branch gives them from the first four comma-separated parts of the first boundingBox extent, which must parse as numbers. |
| KtGlFacts.Routes | scraper/KT_GL.py:11-63 | The branch is chosen on service.url: reading it raises when the service has none, and otherwise "wms", "WMTS", "wfs" and "STAC" are looked for in turn. |
| KtGlFacts.NoUrl | scraper/KT_GL.py:11-13 | A service without a URL attribute raises before the record is touched. |
| KtGlFacts.WmtsUnchanged | scraper/KT_GL.py:37-39 | The WMTS branch assigns nothing and returns the record as it came. |
| KtGlFacts.WmsGroup | scraper/KT_GL.py:19 | The WMS GROUP is the parent layer's name, or "" for a top layer. |
| KtGlFacts.WmsAbstract | scraper/KT_GL.py:20 | WMS: the abstract is the layer's own with every "\r\n" deleted. |
| KtGlFacts.WfsAbstract | scraper/KT_GL.py:47 | WFS: the abstract is the layer's own with every "\r\n" deleted. |
| KtGlFacts.WmsKeywords | scraper/KT_GL.py:21 | WMS: KEYWORDS is the layer's keywords followed by the service's, joined by ", "; none of them is None on a returned record. |
| KtGlFacts.WmsLegend | scraper/KT_GL.py:22 | The WMS legend is the legend of the style named "default", or "". |
| KtGlFacts.WfsLegend | scraper/KT_GL.py:49 | WFS: LEGEND is "". |
| KtGlFacts.WfsContact | scraper/KT_GL.py:50 | WFS: CONTACT is "". |
| KtGlFacts.WmsMetadata | scraper/KT_GL.py:25 | WMS: METADATA is "". |
| KtGlFacts.WmsType | scraper/KT_GL.py:27 | WMS: SERVICETYPE is the service's own type, None when it has none. |
| KtGlFacts.WfsType | scraper/KT_GL.py:54 | WFS: SERVICETYPE is "WFS". |
| KtGlFacts.WmsZoom | scraper/KT_GL.py:28 | WMS: MAX_ZOOM is 7. |
| KtGlFacts.WfsZoom | scraper/KT_GL.py:55 | WFS: MAX_ZOOM is "". |
| KtGlFacts.WfsLat | scraper/KT_GL.py:56 | WFS: CENTER_LAT is the middle of the second and fourth elements of the native bounding box, not the WGS84 one. |
| KtGlFacts.WfsLon | scraper/KT_GL.py:57 | WFS: CENTER_LON is the middle of the first and third elements of the native bounding box, not the WGS84 one. |
| KtGlFacts.WfsName | scraper/KT_GL.py:44 | A WFS layer is named by its id. |
| KtGlFacts.WmsLinkHolds | scraper/KT_GL.py:32-35 | WMS: MAPGEO is its link's value on the final record. |
| KtGlFacts.WmsMapgeo | scraper/KT_GL.py:32-35 | The WMS link names the layer by its id, not its title. |
| KtSoFacts.Routes | scraper/KT_SO.py:8-79 | The branch is chosen on source['URL'] by the lower-case "wms", "wmts" and "wfs", then "STAC". |
| KtSoFacts.WmsGroup | scraper/KT_SO.py:14 | WMS: GROUP is the group the caller passed, or "", in every branch. |
| KtSoFacts.WmtsGroup | scraper/KT_SO.py:39 | WMTS: GROUP is the group the caller passed, or "", in every branch. |
| KtSoFacts.WfsGroup | scraper/KT_SO.py:62 | WFS: GROUP is the group the caller passed, or "", in every branch. |
| KtSoFacts.WmsAbstract | scraper/KT_SO.py:15 | WMS: ABSTRACT is the layer's own abstract, uncleaned; None stays None. |
| KtSoFacts.WfsAbstract | scraper/KT_SO.py:63 | WFS: ABSTRACT is the layer's own abstract, uncleaned; None stays None. |
| KtSoFacts.WmtsAbstract | scraper/KT_SO.py:40 | WMTS: ABSTRACT is the service's abstract, uncleaned; None stays None. |
| KtSoFacts.WmtsLegend | scraper/KT_SO.py:42 | The WMTS legend tests for a style named "legend" but reads the style named "default". |
| KtSoFacts.WfsLegend | scraper/KT_SO.py:65 | WFS: LEGEND is "". |
| KtSoFacts.WmsMetadata | scraper/KT_SO.py:20 | WMS: METADATA is "". |
| KtSoFacts.WmsType | scraper/KT_SO.py:22 | WMS: SERVICETYPE is the service's own type, None when it has none. |
| KtSoFacts.WfsType | scraper/KT_SO.py:70 | WFS: SERVICETYPE is "WFS". |
| KtSoFacts.WmsZoom | scraper/KT_SO.py:23 | WMS: MAX_ZOOM is 7. |
| KtSoFacts.WmtsZoom | scraper/KT_SO.py:48 | WMTS: MAX_ZOOM is 7. |
| KtSoFacts.WfsZoom | scraper/KT_SO.py:71 | WFS: MAX_ZOOM is "". |
| KtSoFacts.WmtsLat | scraper/KT_SO.py:49 | WMTS: CENTER_LAT is "47.2912". |
| KtSoFacts.WmtsLon | scraper/KT_SO.py:50 | WMTS: CENTER_LON is "7.684424999999999". |
| KtSoFacts.WmtsExtent | scraper/KT_SO.py:51 | WMTS: BBOX is "783689.0 5945280.0 927163.0 6034410.0 EPSG:3857". |
| KtSoFacts.WfsName | scraper/KT_SO.py:60 | A WFS layer is named by its id. |
| KtSoFacts.WmsLinkHolds | scraper/KT_SO.py:27-30 | WMS: MAPGEO is its link's value on the final record. |
| KtSoFacts.WmsMapgeo | scraper/KT_SO.py:27-30 | The WMS link names the layer by its title and ends with the box's centre at zoom 7. |
| KtSoFacts.WmtsLinkHolds | scraper/KT_SO.py:52-54 | WMTS: MAPGEO is its link's value on the final record. |
| KtSoFacts.WmtsMapgeo | scraper/KT_SO.py:52-54 | The WMTS link names the layer by its title and ends with the fixed centre. |
| KtSoFacts.WmsContact | scraper/KT_SO.py:18 | WMS: CONTACT is the provider's name; a returned record comes from a service that has a provider. |
| KtSoFacts.WmtsContact | scraper/KT_SO.py:43 | WMTS: CONTACT is the provider's name; a returned record comes from a service that has a provider. |
| KtSoFacts.WfsContact | scraper/KT_SO.py:66 | WFS: CONTACT is the email of the provider's contact; a returned record comes from a service that has both. |
| KtSzFacts.Routes | scraper/KT_SZ.py:7-86 | The branch is chosen on source['URL']: "WMS", "WMTS", "WFS", then "STAC". |
| KtSzFacts.WmsAbstract | scraper/KT_SZ.py:16 | WMS: ABSTRACT is the parent layer's abstract; a returned record comes from a layer that has a parent. |
| KtSzFacts.WmtsAbstract | scraper/KT_SZ.py:44 | WMTS: ABSTRACT is the service's abstract; None stays None. |
| KtSzFacts.WfsAbstract | scraper/KT_SZ.py:66 | WFS: ABSTRACT is the layer's own abstract; None stays None. |
| KtSzFacts.WmsContact | scraper/KT_SZ.py:19 | WMS: CONTACT is "geoportal@sz.ch". |
| KtSzFacts.WfsContact | scraper/KT_SZ.py:69 | WFS: CONTACT is "geoportal@sz.ch". |
| KtSzFacts.WmsMetadata | scraper/KT_SZ.py:21-25 | WMS: METADATA is the only URL found in the layer's abstract, "" when there is none or several, and "" without abstract. |
| KtSzFacts.WfsMetadata | scraper/KT_SZ.py:71-75 | WFS: METADATA is the only URL found in the layer's abstract, "" when there is none or several, and "" without abstract. |
| KtSzFacts.WfsLegend | scraper/KT_SZ.py:68 | WFS: LEGEND is "". |
| KtSzFacts.WmsType | scraper/KT_SZ.py:27 | WMS: SERVICETYPE is the service's own type, None when it has none. |
| KtSzFacts.WfsType | scraper/KT_SZ.py:77 | WFS: SERVICETYPE is "OGC:WFS". |
| KtSzFacts.WmsZoom | scraper/KT_SZ.py:28 | WMS: MAX_ZOOM is 7. |
| KtSzFacts.WmtsZoom | scraper/KT_SZ.py:52 | WMTS: MAX_ZOOM is 7. |
| KtSzFacts.WfsZoom | scraper/KT_SZ.py:78 | WFS: MAX_ZOOM is "". |
| KtSzFacts.WmtsLat | scraper/KT_SZ.py:53 | WMTS: CENTER_LAT is "47.0561". |
| KtSzFacts.WmtsLon | scraper/KT_SZ.py:54 | WMTS: CENTER_LON is "8.696785". |
| KtSzFacts.WmtsExtent | scraper/KT_SZ.py:55 | WMTS: BBOX is " ". |
| KtSzFacts.WfsName | scraper/KT_SZ.py:63 | A WFS layer is named by its id. |
| KtSzFacts.WmsLinkHolds | scraper/KT_SZ.py:32-35 | WMS: MAPGEO is its link's value on the final record. |
| KtSzFacts.WmsMapgeo | scraper/KT_SZ.py:32-35 | The WMS link names the layer by its title and ends with the box's centre at zoom 7. |
| KtSzFacts.WmtsLinkHolds | scraper/KT_SZ.py:56-58 | WMTS: MAPGEO is its link's value on the final record. |
| KtSzFacts.WmtsMapgeo | scraper/KT_SZ.py:56-58 | The WMTS link names the layer by its title and ends with the fixed centre. |
| KtSzFacts.WmtsContact | scraper/KT_SZ.py:47 | WMTS: CONTACT is the provider's name, not the fixed address of the other branches. |
| KtVdFacts.Routes | scraper/KT_VD.py:16-96 | The branch is chosen on the service's type; testing a type that is None raises. |
| KtVdFacts.NoKind | scraper/KT_VD.py:16-18 | A service without a type raises before the record is touched. |
| KtVdFacts.WmsGroup | scraper/KT_VD.py:24 | The WMS GROUP is the parent layer's name, or "" for a top layer. |
| KtVdFacts.WmsAbstract | scraper/KT_VD.py:25-30 | The WMS abstract is " " for a layer without one, else the layer's abstract without its URLs and with control characters made spaces. |
| KtVdFacts.WmtsAbstract | scraper/KT_VD.py:58 | WMTS: ABSTRACT is the service's abstract, a space and its access constraints, both required, with control characters made spaces. |
| KtVdFacts.WfsAbstract | scraper/KT_VD.py:80 | WFS: ABSTRACT is the layer's own abstract with every control character turned into a space, "" when it is None or empty. |
| KtVdFacts.WmsMetadata | scraper/KT_VD.py:35-39 | The WMS METADATA is the only URL in the layer's abstract, and " " when looking for it raises. |
| KtVdFacts.WfsMetadata | scraper/KT_VD.py:85 | WFS: METADATA is "". |
| KtVdFacts.WfsLegend | scraper/KT_VD.py:82 | WFS: LEGEND is "". |
| KtVdFacts.WmtsLegend | scraper/KT_VD.py:60 | The WMTS legend tests for a style named "legend" but reads the style named "default". |
| KtVdFacts.WmsZoom | scraper/KT_VD.py:42 | WMS: MAX_ZOOM is 7. |
| KtVdFacts.WmtsZoom | scraper/KT_VD.py:66 | WMTS: MAX_ZOOM is 7. |
| KtVdFacts.WfsZoom | scraper/KT_VD.py:88 | WFS: MAX_ZOOM is "". |
| KtVdFacts.WfsName | scraper/KT_VD.py:77 | A WFS layer is named by its id. |
| KtVdFacts.WmsLinkHolds | scraper/KT_VD.py:46-49 | WMS: MAPGEO is its link's value on the final record. |
| KtVdFacts.WmsMapgeo | scraper/KT_VD.py:46-49 | The WMS link names the layer by its title and ends with the box's centre at zoom 7. |
| KtVdFacts.WmtsLinkHolds | scraper/KT_VD.py:70-72 | WMTS: MAPGEO is its link's value on the final record. |
| KtVdFacts.WmtsMapgeo | scraper/KT_VD.py:70-72 | The WMTS link names the layer by its id. |
| KtVdFacts.WmtsMetadata | scraper/KT_VD.py:63 | WMTS: METADATA is the service's serviceMetadataURL, None when that is None. |
| KtZgFacts.Routes | scraper/KT_ZG.py:13-93 | The branch is chosen on source['URL']: "WMS", "WMTS", "WFS", then "STAC". |
| KtZgFacts.WmsAbstract | scraper/KT_ZG.py:22-26 | The WMS abstract joins the layer's and its parent's when the parent has one, else it is the service's abstract; control characters become spaces. |
| KtZgFacts.WfsAbstract | scraper/KT_ZG.py:72-76 | WFS: ABSTRACT is the layer's abstract and its parent's when the parent has one, else the service's abstract, with every "\n" deleted, and "" when that is None. |
| KtZgFacts.WmtsAbstract | scraper/KT_ZG.py:49 | The WMTS abstract is the service's abstract and access constraints with control characters made spaces. |
| KtZgFacts.WmsGroup | scraper/KT_ZG.py:21 | The WMS GROUP is the parent layer's name, or "" for a top layer. |
| KtZgFacts.WmsMetadata | scraper/KT_ZG.py:31 | WMS: METADATA is "". |
| KtZgFacts.WfsLegend | scraper/KT_ZG.py:78 | WFS: LEGEND is "". |
| KtZgFacts.WmsZoom | scraper/KT_ZG.py:34 | WMS: MAX_ZOOM is 7. |
| KtZgFacts.WmtsZoom | scraper/KT_ZG.py:57 | WMTS: MAX_ZOOM is 7. |
| KtZgFacts.WfsZoom | scraper/KT_ZG.py:84 | WFS: MAX_ZOOM is "". |
| KtZgFacts.WfsName | scraper/KT_ZG.py:69 | A WFS layer is named by its id. |
| KtZgFacts.WmsLinkHolds | scraper/KT_ZG.py:38-41 | WMS: MAPGEO is its link's value on the final record. |
| KtZgFacts.WmsMapgeo | scraper/KT_ZG.py:38-41 | The WMS link names the layer by its title and ends with the box's centre at zoom 7. |
| KtZgFacts.WmtsLinkHolds | scraper/KT_ZG.py:61-63 | WMTS: MAPGEO is its link's value on the final record. |
| KtZgFacts.WmtsMapgeo | scraper/KT_ZG.py:61-63 | The WMTS link names the layer by its id. |
| KtZgFacts.WfsMetadata | scraper/KT_ZG.py:81 | WFS: the test `0 in metadataUrls` never holds, so METADATA is "". |
| KtZhFacts.Routes | scraper/KT_ZH.py:16-95 | The branch is chosen on source['URL'] by the lower-case "wms", "wmts" and "wfs"; STAC must be the whole text. |
| KtZhFacts.WmsAbstract | scraper/KT_ZH.py:25-29 | The WMS abstract joins the layer's and its parent's when the parent has one, else it is the layer's own; control characters become spaces. |
| KtZhFacts.WmtsAbstract | scraper/KT_ZH.py:53 | The WMTS abstract is the service's abstract and access constraints with control characters made spaces. |
| KtZhFacts.WfsAbstract | scraper/KT_ZH.py:77-78 | The WFS abstract is the layer's own with every "\r\n" deleted, and "" when it is None. |
| KtZhFacts.WmsGroup | scraper/KT_ZH.py:24 | The WMS GROUP is the parent layer's name, or "" for a top layer. |
| KtZhFacts.WmsMetadata | scraper/KT_ZH.py:34 | WMS: METADATA is the URL of the sole metadata entry, or "". |
| KtZhFacts.WfsMetadata | scraper/KT_ZH.py:83 | WFS: METADATA is the URL of the sole metadata entry, or "". |
| KtZhFacts.WfsLegend | scraper/KT_ZH.py:80 | WFS: LEGEND is "". |
| KtZhFacts.WmtsType | scraper/KT_ZH.py:60 | WMTS: SERVICETYPE is the service's own type, None when it has none. |
| KtZhFacts.WmsZoom | scraper/KT_ZH.py:37 | WMS: MAX_ZOOM is 7. |
| KtZhFacts.WmtsZoom | scraper/KT_ZH.py:61 | WMTS: MAX_ZOOM is 7. |
| KtZhFacts.WfsZoom | scraper/KT_ZH.py:86 | WFS: MAX_ZOOM is "". |
| KtZhFacts.WfsName | scraper/KT_ZH.py:74 | A WFS layer is named by its id. |
| KtZhFacts.WmsLinkHolds | scraper/KT_ZH.py:41-44 | WMS: MAPGEO is its link's value on the final record. |
| KtZhFacts.WmsMapgeo | scraper/KT_ZH.py:41-44 | The WMS link names the layer by its title and ends with the box's centre at zoom 7. |
| KtZhFacts.WmtsLinkHolds | scraper/KT_ZH.py:65-67 | WMTS: MAPGEO is its link's value on the final record. |
| KtZhFacts.WmtsMapgeo | scraper/KT_ZH.py:65-67 | The WMTS link names the layer by what follows the first space of the service's type, then its id and the service's URL. |
| GeodiensteFacts.Routes | scraper/Geodienste.py:7-67 | The branch is chosen on source['URL']: "WMS", then "WFS"; there is no WMTS branch and STAC must be the whole text. |
| GeodiensteFacts.WmsAbstract | scraper/Geodienste.py:16-20 | WMS: the abstract joins the layer's and its parent's when the parent has one, else it is the layer's own, with every "\n" deleted and "" for None. |
| GeodiensteFacts.WmsMetadata | scraper/Geodienste.py:25 | WMS: METADATA is the URL of the sole metadata entry, or "". |
| GeodiensteFacts.WfsAbstract | scraper/Geodienste.py:46-50 | WFS: ABSTRACT is the layer's abstract and its parent's when the parent has one, else the layer's own, with every "\n" deleted, and "" when that is None. |
| GeodiensteFacts.WfsMetadata | scraper/Geodienste.py:55 | WFS: METADATA is the URL of the sole metadata entry, or "". |
| GeodiensteFacts.WfsLegend | scraper/Geodienste.py:52 | The WFS legend is the legend of the style named "default", or "". |
| GeodiensteFacts.WmsType | scraper/Geodienste.py:27 | WMS: SERVICETYPE is "WMS". |
| GeodiensteFacts.WfsType | scraper/Geodienste.py:57 | WFS: SERVICETYPE is "WFS". |
| GeodiensteFacts.WmsZoom | scraper/Geodienste.py:28 | WMS: MAX_ZOOM is 7. |
| GeodiensteFacts.WfsZoom | scraper/Geodienste.py:58 | WFS: MAX_ZOOM is "". |
| GeodiensteFacts.WfsName | scraper/Geodienste.py:43 | A WFS layer is named by its id. |
| GeodiensteFacts.WfsKeepsMapgeo | scraper/Geodienste.py:39-63 | The WFS branch leaves MAPGEO as it was. |
| GeodiensteFacts.WmsLinkHolds | scraper/Geodienste.py:32-35 | WMS: MAPGEO is its link's value on the final record. |
| GeodiensteFacts.WmsMapgeo | scraper/Geodienste.py:32-35 | The WMS link names the layer by its title and ends with the box's centre at zoom 7. |
| GeodiensteFacts.WmsContact | scraper/Geodienste.py:23 | WMS: CONTACT is the name of the provider's contact. |
| GeodiensteFacts.WfsContact | scraper/Geodienste.py:53 | WFS: CONTACT is the name of the provider's contact. |

## Left out

- The network. The owslib constructors `WebMapService`, `WebMapTileService` and `WebFeatureService` become the `connect` parameter of `Harvest.Negotiate`, which returns a parsed service or the exception. `requests.get` in `scrape_utilities.py` becomes the `Response` value.
- `test_server` (scraper.py:39-65) and the main loop over the sources (scraper.py:219-236) are not modelled. In the source, an unreachable server gets its own error log line and `get_service_info` is not called; the model starts at `get_service_info` for a source that passed the test.
- Logging and `print`. The model keeps the error log lines as values and leaves out the console output.
- The console output, the e-mail, the DuckDB and Polars I/O and the CSV export of check-geoservices-stats.py after line 62. Only the query that builds the stats table is modelled.
- `importlib.import_module` becomes the fixed registry `Harvest.StrategyOf` of the eleven owner modules plus the default.
- Floating point is modelled as exact reals. `str(float)`, `float(text)` and `re.findall` with the URL pattern are functions of the `Host` parameter. Their outputs are not fixed, so the rounding and the text of a float are not modelled.
- Trend.Ratio: a zero mean gives NULL. SQL's division by zero is taken as NULL, the DuckDB behaviour, rather than an error.
- The row order of the SQL join is not fixed. Trend.Joined states the rows as a set with at most one row per current line, not their order.
- SourceLists.RemoveIdenticalLines: the order of a Python set is not fixed, so the contract states only which rows come out and that each comes once.
- HTML parsing (BeautifulSoup) and JSON decoding in scrape_utilities.py. The model starts from the list of `href` values and the decoded packages.
- `load_source_collection` and the reading of the source CSV are not part of this model. The harvest starts from a source record.
- Harvest.Disk.constructor: the clean-up at scraper.py:207-214 removes the CSV before the logs. When no CSV exists, `os.remove` raises before the logs are deleted, so old logs survive. The model starts every run from an empty state and does not capture those surviving logs.
- format-converter.py and configuration.py are not part of this model. The first converts the output format and the second only holds constants.
- `strftime` and date formatting. Dates are day numbers.
- Harvest.Scraped, Owners.Final and DefaultScraper.Final state only that the record keeps every column. What each branch stores is stated per owner by the lemmas above.
- Concurrency. The harvest runs its sources one after another, and so does the model.

## Findings

| source | as written | input that shows it | evidently intended | confidence | as-written member | corrected member |
|---|---|---|---|---|---|---|
| scraper.py:167-180 | On a new file, `open(..., "w")` runs before `list(layer_data.keys())`. That call raises AttributeError on a False or None result, so an empty file is left behind, and later rows are appended with no header. | A first layer whose strategy returns False, followed by a layer that returns a record. | The header is written once, before the first row. | not executed | Harvest.HeaderLost | Harvest.EmitKeepsHeader |
