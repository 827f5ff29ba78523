# GeoEco core in Dafny

This project models five parts of the GeoEco Python package (the Marine
Geospatial Ecology Tools) and proves properties of the model. It covers:

* **The R worker client** (`RWorkerProcess`).
  * It speaks JSON to a plumber server hosted by an `Rscript` child process.
  * Datetimes travel in jsonlite's "mongo" form, `{"$date": ms}`.
  * The client classifies the worker's log lines, waits for plumber to come up, and stops the worker.
  * It turns HTTP responses into values or errors and implements the `get`, `set` and `delete` item operations.
  * Files: `mongo_codec.dfy` (the JSON encoding) and `rworker.dfy` (the client class).
* **The ArcGIS glue** (`arcgis.dfy`).
  * `GeoprocessorManager` keeps the geoprocessor and the cached installation information.
  * `ArcGISDependency` holds a minimum version, products and licence levels. It checks an installation against them and describes them in English.
  * The validator decides whether a method's metadata lets it be exposed as an ArcGIS tool.
  * The two conversions map values to and from the types the geoprocessor prefers.
* **The Copernicus Marine Service (CMEMS) ARCO grid** (`cmems.dfy`).
  * It searches the catalogue for a dataset's service and variable.
  * It validates the coordinates, dimensions, depths and time axis, and derives the physical dimensions, flip flags, no-data value and depth edges.
  * It decides where each lazy property comes from.
* **The in-memory NumPy grid** (`numpy_grid.dfy`). It validates the constructor arguments, derives the shape, fills in default property values and applies overrides.
* **The ArcGIS toolbox generator** (`arctoolbox.dfy`).
  * It maps metadata types to ArcGIS data types and turns descriptions into XDoc.
  * It numbers toolsets and parameter categories in first-seen order.
  * It builds the toolbox and tool content and resource maps, and picks the module a tool script imports.
  * It chooses the next temporary directory number.
  * It models the generated script's `_ExecuteMethodAsGeoprocessingTool`: reading argument values and setting derived outputs.

Two library modules model the Python built-ins these rely on:

* `pystr.dfy`: `strip`, `lower`, `split`, `int()`, zero padding and `rsplit`.
* `pydict.dfy`: an insertion-ordered `dict` as a sequence of pairs, with `get`, item assignment and `update`.

`wrappers.dfy` holds `Option` and `Result`.

Things outside the program are parameters of the model. These are processes, the HTTP session, the catalogue service, arcpy and the file system. An "oracle" value carries what each of them returned, and the methods record the calls they make in a `calls` trace.

## Model

| member | source | states |
|---|---|---|
| MongoCodec.MillisOf | src/GeoEco/R/_RWorkerProcess.py:55 | `int(...)` truncates toward zero: the milliseconds are within one millisecond of the microseconds, on the side of zero |
| MongoCodec.RoundHalfEven | src/GeoEco/R/_RWorkerProcess.py:79 | `fromtimestamp` rounds to the nearest microsecond, ties to the even one |
| MongoCodec.EncodeDateTime | src/GeoEco/R/_RWorkerProcess.py:52-56 | a datetime becomes a single-member `{"$date": int}` object whose integer is its UTC instant truncated to milliseconds |
| MongoCodec.Encode | src/GeoEco/R/_RWorkerProcess.py:47-59 | encoding fails only with the JSON "not serializable" error; a datetime encodes as `EncodeDateTime` gives; a list or tuple becomes an array of the same length; a dict becomes an object with the same keys in the same order |
| MongoCodec.EncodeItems | src/GeoEco/R/_RWorkerProcess.py:41-59 | a list or tuple that encodes yields one JSON item per element |
| MongoCodec.EncodeEntries | src/GeoEco/R/_RWorkerProcess.py:41-59 | a dict that encodes yields one JSON member per entry |
| MongoCodec.DateFromMillis | src/GeoEco/R/_RWorkerProcess.py:78-80 | a numeric `$date` always decodes, to an aware datetime in the decoder's default zone |
| MongoCodec.DecodeMongoDates | src/GeoEco/R/_RWorkerProcess.py:78-80 | an object becomes a datetime exactly when it has one key, `$date`, whose value is an int or a float (a bool included). The datetime is in the default zone, and for an int its instant is that many milliseconds. Any other object is returned as the dict |
| MongoCodec.UnboxMongoDates | src/GeoEco/R/_RWorkerProcess.py:92-96 | a decoded array is replaced by its element exactly when it has one element and that element is a datetime; otherwise it stays a list |
| MongoCodec.Decode | src/GeoEco/R/_RWorkerProcess.py:64-96 | decoding never yields a tuple or a table; a datetime comes only from an object or an array and is in the default zone |
| MongoCodec.DecodeItems | src/GeoEco/R/_RWorkerProcess.py:92-96 | decoding an array keeps one value per item |
| MongoCodec.DecodeMembers | src/GeoEco/R/_RWorkerProcess.py:78-81 | decoding an object keeps its member names, in order |
| MongoCodec.DecodeIsNumber | src/GeoEco/R/_RWorkerProcess.py:79 | the `$date` value is accepted exactly when it decodes to an int, a float or a bool (a Python bool is an int) |
| MongoCodec.EncodeNaiveUsesDefault | src/GeoEco/R/_RWorkerProcess.py:53-54 | a naive datetime encodes as if it carried the encoder's default zone |
| MongoCodec.DateTimeRoundTrip | src/GeoEco/R/_RWorkerProcess.py:47-81 | encode then decode gives an aware datetime in the default zone, within one millisecond of the original instant, and the same instant when it was whole milliseconds |
| MongoCodec.SingletonDateTimeListUnboxed | src/GeoEco/R/_RWorkerProcess.py:92-96 | a one-element list holding a datetime comes back as the bare datetime |
| MongoCodec.DecodeArray | src/GeoEco/R/_RWorkerProcess.py:92-96 | an array decodes to a list unless it has exactly one item that decodes to a datetime, which is then unboxed |
| MongoCodec.DecodeMembersLast | src/GeoEco/R/_RWorkerProcess.py:78-81 | the last member decodes to the decoding of its own value |
| MongoCodec.DecodeObject | src/GeoEco/R/_RWorkerProcess.py:78-81 | an object decodes to a datetime exactly when all its names are `$date` (so one key survives) and the last value is numeric; otherwise it becomes a dict with duplicate names resolved last-wins |
| MongoCodec.PlainRoundTrip | src/GeoEco/R/_RWorkerProcess.py:41-96 | every value without datetimes, tables or mongo-shaped dicts survives encode then decode unchanged |
| MongoCodec.PlainItemsRoundTrip | src/GeoEco/R/_RWorkerProcess.py:41-96 | the round trip holds element by element for lists |
| MongoCodec.PlainEntriesRoundTrip | src/GeoEco/R/_RWorkerProcess.py:41-96 | the round trip holds entry by entry for dicts with unique keys |
| MongoCodec.EncodeFailsOnTables | src/GeoEco/R/_RWorkerProcess.py:59 | encoding fails, with the JSON "not serializable" error, exactly when a table occurs somewhere in the value |
| MongoCodec.ItemsFailOnTables | src/GeoEco/R/_RWorkerProcess.py:59 | the same for a list's elements |
| MongoCodec.EntriesFailOnTables | src/GeoEco/R/_RWorkerProcess.py:59 | the same for a dict's values |
| MongoCodec.WrapAtomicIff | src/GeoEco/R/_RWorkerProcess.py:788-800 | a value is wrapped as `{"value": v, atomic flag: True}` exactly when it is a datetime or a one-element list or tuple of one |
| MongoCodec.WrapUnchangedIff | src/GeoEco/R/_RWorkerProcess.py:788-807 | a value is sent unwrapped exactly when it is not datetime-like and not a dict of datetime-like values |
| MongoCodec.WrapDateTimeDict | src/GeoEco/R/_RWorkerProcess.py:806-807 | a dict of datetime-like values gains the list flag `True` and keeps every other entry; the flag is appended if new, otherwise its slot is overwritten |
| MongoCodec.WrapValue | src/GeoEco/R/_RWorkerProcess.py:788-807 | the value sent is the value itself or a dict built around it, and it holds a table exactly when the value does |
| MongoCodec.SerializeValue | src/GeoEco/R/_RWorkerProcess.py:773-813 | serialization succeeds exactly when no table occurs in the value, and then yields the object `{"value": …}` whose one member is the encoding of the wrapped value (`WrapValue`); failure is the "not serializable" error |
| MongoCodec.DateTimeLikeHasNoTable | src/GeoEco/R/_RWorkerProcess.py:788-800 | a datetime-like value, and the atomic wrapper around it, hold no table |
| MongoCodec.SetDateTimeLikeHasNoTable | src/GeoEco/R/_RWorkerProcess.py:806-807 | adding the list flag to a dict of datetime-like values keeps it serializable |
| RWorker.ProcessResponse | src/GeoEco/R/_RWorkerProcess.py:683-713 | success needs status 200. A 500 whose JSON body carries a `message` string raises R's error with exactly that message when every entry of its `cst` list, if there is one, is a string. When some entry is not a string, the `rstrip` in the log line raises AttributeError first. Every other non-200 status becomes the HTTP status error with its code and reason |
| RWorker.ProcessResponseSuccess | src/GeoEco/R/_RWorkerProcess.py:703-746 | for a 200, the outcome is:<br>• not parsing, or no Content-Type, gives `None`;<br>• a JSON body decodes with the mongo decoder, and a body that does not parse is the JSON error;<br>• an Arrow or Feather body gives its table, and one that does not read is the feather error;<br>• any other Content-Type raises naming it;<br>• parsing succeeds exactly for a JSON body or an Arrow or Feather table |
| RWorker.UnparsedResponse | src/GeoEco/R/_RWorkerProcess.py:711-713 | a successful response that is not parsed yields `None` |
| RWorker.Process500WithoutMessage | src/GeoEco/R/_RWorkerProcess.py:689-707 | a 500 whose JSON body has no `message` is reported as a plain HTTP status error |
| RWorker.ValidateKey | src/GeoEco/R/_RWorkerProcess.py:822-823 | a key is accepted exactly when it is a str whose stripped form is non-empty, and the stripped form is the name sent |
| RWorker.ValidateKeyName | src/GeoEco/R/_RWorkerProcess.py:822-833 | the name sent is a contiguous slice of the key without surrounding whitespace, and validating it again accepts it unchanged |
| RWorker.ClassifyLine | src/GeoEco/R/_RWorkerProcess.py:211-225 | on the right-stripped line: it is the ready, installing or swagger line exactly when it starts with that line's prefix, and a debug line exactly when it starts with `DEBUG:`, carrying the text after it. It is logged whole exactly when it starts with none of the four prefixes |
| RWorker.Step | src/GeoEco/R/_RWorkerProcess.py:211-225 | after one line, Ready holds exactly when it held before or the line is the ready line; the installing flag is set by an installing line and cleared by the ready line; the log gains exactly that line's records |
| RWorker.ReadStream | src/GeoEco/R/_RWorkerProcess.py:206-234 | after a stream, the installing flag is cleared; Ready holds exactly when it held before or a line read before the end of the stream is the ready line; the log gains exactly the records of the lines read, in order |
| RWorker.DecodedPrefix | src/GeoEco/R/_RWorkerProcess.py:209-210 | the lines read are the longest prefix before the end of the stream or the first line that does not decode |
| RWorker.RecordsAreReaderRecords | src/GeoEco/R/_RWorkerProcess.py:218-221 | every record the reader appends is at the stream's level, or at DEBUG with the `R:` prefix |
| RWorker.ReadyLineShift | src/GeoEco/R/_RWorkerProcess.py:206-234 | a ready line occurs in a stream exactly when it is the first line or occurs in the rest |
| RWorker.ReadStreamLog | src/GeoEco/R/_RWorkerProcess.py:206-234 | the log after a stream is the old log followed by exactly the records of the lines read, so no earlier record is rewritten and only reader records are added |
| RWorker.WaitReadyIff | src/GeoEco/R/_RWorkerProcess.py:301-304 | the startup wait returns Ready exactly when the worker became ready at some wait, and every earlier wait timed out while packages were being installed |
| RWorker.WaitTimeoutIff | src/GeoEco/R/_RWorkerProcess.py:301-304 | the startup wait times out exactly at the first wait that timed out while no installation was in progress |
| RWorker.StopKillIff | src/GeoEco/R/_RWorkerProcess.py:633-652 | Stop kills the worker exactly when waiting for it to exit did not succeed, and kills no other process |
| RWorker.StopWarnings | src/GeoEco/R/_RWorkerProcess.py:633-651 | Stop logs no warning when the worker exits in time. Otherwise it logs two: the timeout or wait-failure warning, then the killed or kill-failure warning |
| RWorker.SetBody | src/GeoEco/R/_RWorkerProcess.py:838-877 | a table is sent as a Feather body; any other value is sent as its serialized JSON, and fails exactly when serialization fails |
| RWorker.RWorkerProcess.constructor | src/GeoEco/R/_RWorkerProcess.py:98-125 | a new client holds no worker, session or port and an empty log |
| RWorker.RWorkerProcess.LogStream | src/GeoEco/R/_RWorkerProcess.py:206-234 | the reader's state after a stream is the state `ReadStream` gives for those lines |
| RWorker.RWorkerProcess.AwaitReady | src/GeoEco/R/_RWorkerProcess.py:301-304 | the wait loop returns the outcome `WaitSpec` gives, and Ready holds exactly when that outcome is Ready |
| RWorker.RWorkerProcess.Stop | src/GeoEco/R/_RWorkerProcess.py:610-662 | without a worker nothing changes; otherwise the worker and session are cleared and the calls made are `StopCalls` (the kill only when the wait failed) |
| RWorker.RWorkerProcess.Start | src/GeoEco/R/_RWorkerProcess.py:127-304 | states the outcome of every startup path:<br>• with a worker already held, nothing changes;<br>• a failed Rscript lookup closes the session;<br>• a failed spawn closes the session and leaves a worker only if it was created;<br>• a failed logging thread runs Stop;<br>• otherwise the worker and session are kept and the startup wait's outcome is returned. |
| RWorker.RWorkerProcess.Launch | src/GeoEco/R/_RWorkerProcess.py:168-304 | from port choice onward: the port is the requested one or an ephemeral one, and each failure path cleans up as in Start |
| RWorker.RWorkerProcess.Prepare | src/GeoEco/R/_RWorkerProcess.py:824-826 | the error is `PrepareError` of the state before the call; with a worker held the client is unchanged; success leaves a worker and a session that the poll found running |
| RWorker.PrepareSucceeds | src/GeoEco/R/_RWorkerProcess.py:824-826 | a request proceeds exactly when the poll did not find the worker exited and either a worker and a session were held, or Rscript was located, spawned and its threads started, and the worker became ready |
| RWorker.RWorkerProcess.SendRequest | src/GeoEco/R/_RWorkerProcess.py:830-836 | one request is appended to the trace, and its result is the processed response |
| RWorker.RWorkerProcess.Request | src/GeoEco/R/_RWorkerProcess.py:824-836 | the result is the preparation error if any, then the body error if any, else the processed response. When both succeed the request is the last call sent |
| RWorker.RWorkerProcess.GetItem | src/GeoEco/R/_RWorkerProcess.py:821-836 | an invalid key fails without touching the client. Otherwise the result is the preparation error, else the parsed response of a POST to `/get` with the stripped key, which is the last call sent |
| RWorker.RWorkerProcess.SetItem | src/GeoEco/R/_RWorkerProcess.py:838-877 | an invalid key fails without touching the client. Otherwise the result is the preparation error, else the body error, else the response of a PUT to `/set` with the stripped key and the value's body. Success returns `None` |
| RWorker.RWorkerProcess.DelItem | src/GeoEco/R/_RWorkerProcess.py:879-894 | an invalid key fails without touching the client. Otherwise the result is the preparation error, else the response of a DELETE to `/delete` with the stripped key. Success returns `None` |
| RWorker.PollAsWrittenRaisesNameError | src/GeoEco/R/_RWorkerProcess.py:753-754 | as written, a failing `poll()` makes the warning refer to an undefined `e`, raising NameError |
| RWorker.PollFailureAssumesRunning | src/GeoEco/R/_RWorkerProcess.py:748-757 | with the handler fixed, polling fails exactly when a held worker has exited, and reports its exit code |
| RWorker.RWorkerProcess.PollAsWritten | src/GeoEco/R/_RWorkerProcess.py:748-757 | as written, polling fails exactly when a worker is held and `poll()` did not report it running: with its exit code, or with NameError when `poll()` raised |
| RWorker.RWorkerProcess.Poll | src/GeoEco/R/_RWorkerProcess.py:748-757 | with the handler fixed, polling fails exactly when a worker is held and has exited, naming its exit code |
| ArcGIS.VersionKey | src/GeoEco/ArcGIS.py:154 | `ProVersion` is used exactly when present, `Version` otherwise |
| ArcGIS.VersionTextParses | src/GeoEco/ArcGIS.py:159-165 | printed versions `a.b.c` and `a.b` parse back to their numbers, with patch 0 for two parts |
| ArcGIS.SplitVersionText | src/GeoEco/ArcGIS.py:160 | splitting dotted text with dot-free parts on `.` gives those parts |
| ArcGIS.VersionPartsHaveNoDot | src/GeoEco/ArcGIS.py:160 | printed integers contain no `.` |
| ArcGIS.ParseVersion | src/GeoEco/ArcGIS.py:159-165 | the major part is `int()` of the first piece when the text splits into 2 or 3 pieces; the minor part is set only after the major parsed, the patch only after the minor. The patch is set exactly when the whole version parses, and the three then equal `ParsedVersion` |
| ArcGIS.VersionOf | src/GeoEco/ArcGIS.py:154-167 | a version is found only when the chosen key is present |
| ArcGIS.ParsedVersionParts | src/GeoEco/ArcGIS.py:161-165 | a parsed version had 2 or 3 parts, with patch 0 when it had 2 |
| ArcGIS.GeoprocessorManager.constructor | src/GeoEco/ArcGIS.py:43-50 | nothing is cached at the start |
| ArcGIS.GeoprocessorManager.GetGeoprocessor | src/GeoEco/ArcGIS.py:53-62 | the geoprocessor returned is the one the wrapper returned by `GetWrappedGeoprocessor` holds, since both globals are always set together |
| ArcGIS.GeoprocessorManager.SetGeoprocessor | src/GeoEco/ArcGIS.py:65-83 | a new geoprocessor is stored unless wrapping it raises, in which case none is kept; `None` clears it; the cached install info is untouched |
| ArcGIS.GeoprocessorManager.InitializeGeoprocessor | src/GeoEco/ArcGIS.py:128-135 | an existing geoprocessor is kept; otherwise arcpy is imported and set, failing if the import or the wrapping fails; success leaves a geoprocessor |
| ArcGIS.GeoprocessorManager.GetInstallInfoAsWritten | src/GeoEco/ArcGIS.py:138-146 | as written, an uncached call that gets a geoprocessor fails with NameError on the bare `GetWrappedGeoprocessor` and caches nothing |
| ArcGIS.GeoprocessorManager.GetInstallInfo | src/GeoEco/ArcGIS.py:138-182 | cached info is returned unchanged. Otherwise the error is `InstallInfoError`. Success stores the parsed version, the product name and, when the info gives one, the licence level. A failed patch still stores the major and minor parts already parsed, and with no geoprocessor the version is untouched |
| ArcGIS.InstallInfoSucceeds | src/GeoEco/ArcGIS.py:138-182 | the install info is read exactly when a geoprocessor is held or can be set, the version parses and the product name is present; readable info always succeeds |
| ArcGIS.PartialVersionCachedAsSuccess | src/GeoEco/ArcGIS.py:138-167 | a version `3.x` fails the first call but leaves major version 3 cached, so the second call reports success with no minor version |
| ArcGIS.GeoprocessorManager.ReadVersion | src/GeoEco/ArcGIS.py:154-167 | a missing key fails and stores nothing. A parse stores the three numbers. A failed parse reports the key, and the major and minor parts parsed before the failure are stored. Nothing but the version fields changes |
| ArcGIS.GeoprocessorManager.StoreProductNameAsWritten | src/GeoEco/ArcGIS.py:171-181 | as written, the product name goes to `_ProductName`, leaving `_ArcGISProductName` unset; the licence level is stored when present |
| ArcGIS.GeoprocessorManager.StoreProductName | src/GeoEco/ArcGIS.py:171-181 | the product name is required and goes to `_ArcGISProductName`; the licence level is stored when present |
| ArcGIS.GeoprocessorManager.GetArcGISVersion | src/GeoEco/ArcGIS.py:98-100 | the version returned is the cached triple, and a cached one is returned unchanged |
| ArcGIS.Clauses | src/GeoEco/ArcGIS.py:405-418 | the Pro clause appears exactly when no products are named or ArcGISPro is named; the Server clause exactly when Server is named |
| ArcGIS.ArcGISDependency.constructor | src/GeoEco/ArcGIS.py:309-315 | missing minor or patch versions become 0; products and licence levels are kept |
| ArcGIS.ArcGISDependency.SetVersion | src/GeoEco/ArcGIS.py:317-327 | the minimum version is replaced with missing parts as 0; products and levels are untouched |
| ArcGIS.ArcGISDependency.Check | src/GeoEco/ArcGIS.py:396-403 | success needs an accepted product and licence; a product outside the list fails with that product. With the product accepted, the version test fails with a TypeError exactly when it compares with a None part. It reports "too old" exactly when it decides so before any None part and both parts are known. When a part is None it raises the formatting TypeError instead |
| ArcGIS.PartialVersionTooOldRaises | src/GeoEco/ArcGIS.py:399-400 | with version `3.x` cached, a dependency on version 4 raises the formatting TypeError, not the "too old" error |
| ArcGIS.ArcGISDependency.Initialize | src/GeoEco/ArcGIS.py:364-403 | an uncached installation that cannot be read gives "could not verify" with that error. Otherwise the verdict is `Check` applied to the installation read from arcpy (its version, product name and licence level, or the earlier level when the info has none), or to the cached one |
| ArcGIS.ArcGISDependency.GetConstraintDescriptionStrings | src/GeoEco/ArcGIS.py:405-418 | one string: the accepted products' clauses for the minimum version joined by " or ", followed by the licence sentence when levels are given |
| ArcGIS.Description | src/GeoEco/ArcGIS.py:405-418 | the string built by appending is the clauses joined by " or ", followed by the licence levels as an English list when any are given |
| ArcGIS.CheckIsLexicographic | src/GeoEco/ArcGIS.py:396-403 | "too old" is reported exactly when the product is accepted and the version is lexicographically below the minimum; success exactly when product and licence are accepted and it is not |
| ArcGIS.LexLessOfTriples | src/GeoEco/ArcGIS.py:399 | the list comparison is major, then minor, then patch |
| ArcGIS.ProductFilter | src/GeoEco/ArcGIS.py:396-397 | a product is accepted exactly when no list (or an empty one) is given or it is in the list |
| ArcGIS.LicenseFilter | src/GeoEco/ArcGIS.py:402-403 | a licence is accepted when no (or an empty) list is given, when the level is unknown, or when it is listed |
| ArcGIS.JoinOrIsEnglish | src/GeoEco/ArcGIS.py:413-417 | joining all but the last with commas then " or " and the last is the English list |
| ArcGIS.ProductTextJoinsClauses | src/GeoEco/ArcGIS.py:406-412 | the product text is the clauses joined by " or " |
| ArcGIS.DescriptionStartsWithPro | src/GeoEco/ArcGIS.py:405-418 | the description starts with the Pro clause exactly when Pro is allowed |
| ArcGIS.UnsetProductNameRejected | src/GeoEco/ArcGIS.py:396-397 | as written, a dependency restricted to named products rejects every installation, since line 174 never sets the product it checks |
| ArcGIS.CheckArgumentDependencies | src/GeoEco/ArcGIS.py:497-501 | an argument's dependencies pass exactly when none is itself and all are parameters; failures name that argument |
| ArcGIS.CheckArgument | src/GeoEco/ArcGIS.py:489-502 | a failure is an argument error naming that argument |
| ArcGIS.CheckResultDependencies | src/GeoEco/ArcGIS.py:510-513 | a result's dependencies pass exactly when all are parameters |
| ArcGIS.CheckArgumentOk | src/GeoEco/ArcGIS.py:489-502 | the per-argument check passes exactly when the argument meets every rule |
| ArcGIS.DependenciesKnown | src/GeoEco/ArcGIS.py:497-501 | the membership and index forms of the dependency rule agree |
| ArcGIS.CheckArgumentsOk | src/GeoEco/ArcGIS.py:489-502 | the argument loop passes exactly when every argument from the start index is acceptable |
| ArcGIS.CheckResultsOk | src/GeoEco/ArcGIS.py:506-513 | the result loop passes exactly when every result is acceptable |
| ArcGIS.ValidateToolMethodIff | src/GeoEco/ArcGIS.py:468-513 | validation passes exactly when the method is exposable:<br>• an exposed instance or class method whose display name is a str, with no `_` in its names;<br>• no varargs or varkw;<br>• metadata for each parameter;<br>• every argument after the first, and every result, has metadata types and passes its display-name checks. |
| ArcGIS.ValidateToolMethod | src/GeoEco/ArcGIS.py:468-513 | an argument error is reported only when the counts agree, and it names the first unacceptable argument after `self` |
| ArcGIS.CheckArgumentsFirst | src/GeoEco/ArcGIS.py:489-502 | the error reported is for the first unacceptable argument |
| ArcGIS.FromGeoprocessor | src/GeoEco/ArcGIS.py:841-868 | simple values are kept; lists and tuples keep their length; dicts stay dicts; geoprocessor objects are wrapped |
| ArcGIS.ToGeoprocessor | src/GeoEco/ArcGIS.py:813-839 | lists and tuples keep their length |
| ArcGIS.ToFromGeoprocessor | src/GeoEco/ArcGIS.py:813-868 | converting from the geoprocessor and back gives the original value |
| ArcGIS.ToFromGeoprocessorItems | src/GeoEco/ArcGIS.py:813-868 | the round trip holds element by element |
| ArcGIS.ToFromGeoprocessorEntries | src/GeoEco/ArcGIS.py:813-868 | the round trip holds for every key and value of a dict |
| ArcGIS.FromGeoprocessorEntriesUnique | src/GeoEco/ArcGIS.py:860-861 | converting a dict's keys keeps them distinct |
| ArcGIS.FromGeoprocessorKeepsDictSize | src/GeoEco/ArcGIS.py:860-861 | a converted dict has as many entries as the original |
| CMEMS.LookupIsGet | src/GeoEco/DataProducts/CMEMS.py:100-197 | a catalogue record lookup is dict `get` |
| CMEMS.FirstMatchNone | src/GeoEco/DataProducts/CMEMS.py:188-196 | no match is found exactly when no candidate matches |
| CMEMS.FirstMatchIndex | src/GeoEco/DataProducts/CMEMS.py:188-196 | the match found is the first matching candidate |
| CMEMS.FirstMatchAppend | src/GeoEco/DataProducts/CMEMS.py:188-196 | searching a concatenation finds the first part's match, else the second's |
| CMEMS.ScanServices | src/GeoEco/DataProducts/CMEMS.py:165-196 | the service loop keeps an earlier match, else finds the first matching (service, variable) pair |
| CMEMS.ScanVariables | src/GeoEco/DataProducts/CMEMS.py:188-196 | the variable loop keeps an earlier match, else finds the first matching variable |
| CMEMS.ScanDatasets | src/GeoEco/DataProducts/CMEMS.py:118-196 | the dataset loop reports the first malformed record, else keeps an earlier match or finds the first |
| CMEMS.ScanProducts | src/GeoEco/DataProducts/CMEMS.py:100-197 | the product loop returns the first error that stops the search, otherwise the first matching candidate of all products in order, or none |
| CMEMS.ProductDatasets | src/GeoEco/DataProducts/CMEMS.py:115 | iterating a product's `datasets` raises TypeError exactly when it is a number, a bool or `None`; otherwise the records iterated are its list entries |
| CMEMS.DatasetServices | src/GeoEco/DataProducts/CMEMS.py:128-166 | only the wanted dataset with a non-empty version list can fail. It fails with the `isinstance` TypeError exactly when several versions are listed and the first is a dict with a `label` key. It fails because the first version is not a dict exactly when that version is a scalar, or a list or string that contains `label` (with several versions) or `parts`. Services found are the `services` list of the last part of the first version |
| CMEMS.ProductCandidates | src/GeoEco/DataProducts/CMEMS.py:112-150 | a product's search fails only with one of those two TypeErrors |
| CMEMS.FirstMatchIn | src/GeoEco/DataProducts/CMEMS.py:188-196 | the match found matches the variable and is one of the candidates |
| CMEMS.Selected | src/GeoEco/DataProducts/CMEMS.py:78-197 | a selected candidate matches the variable name and both its records are well formed. "No matching variable" is reported exactly when the products list exists, every product is searched without error, and no candidate matches |
| CMEMS.ServicesCandidatesOk | src/GeoEco/DataProducts/CMEMS.py:165-186 | every candidate has a well-formed service and variable |
| CMEMS.DatasetsCandidatesOk | src/GeoEco/DataProducts/CMEMS.py:128-186 | the same for the candidates of accepted datasets |
| CMEMS.ProductsCandidatesOk | src/GeoEco/DataProducts/CMEMS.py:100-186 | the same for the candidates of accepted products |
| CMEMS.SelectService | src/GeoEco/DataProducts/CMEMS.py:78-197 | the search gives `Selected`; a service found is a zarr `arco-geo-series` service holding the named variable, and both records are well formed |
| CMEMS.CoordinatesSpecValid | src/GeoEco/DataProducts/CMEMS.py:200-207 | the coordinates are accepted exactly when each id is recognised and none repeats; the dict maps each id to its record, in order |
| CMEMS.CoordinatesSpec | src/GeoEco/DataProducts/CMEMS.py:200-207 | accepted coordinates give one entry per coordinate, holding its record, in order; a failure is a non-dict, an unknown or a repeated coordinate |
| CMEMS.InvalidPrefix | src/GeoEco/DataProducts/CMEMS.py:200-207 | an invalid prefix stays invalid |
| CMEMS.CoordinateAdded | src/GeoEco/DataProducts/CMEMS.py:200-207 | the coordinate loop's step preserves the meaning of the dict |
| CMEMS.DuplicateCoordinateInvalid | src/GeoEco/DataProducts/CMEMS.py:204-205 | a repeated id makes the coordinates invalid |
| CMEMS.FreshCoordinateValid | src/GeoEco/DataProducts/CMEMS.py:206-207 | a new recognised id extends a valid prefix |
| CMEMS.CollectCoordinates | src/GeoEco/DataProducts/CMEMS.py:200-207 | the loop computes `CoordinatesSpec` |
| CMEMS.LettersSupported | src/GeoEco/DataProducts/CMEMS.py:209-221 | the dimension string is one of yx, zyx, tyx, tzyx exactly when y and x are present |
| CMEMS.DimensionsOrdered | src/GeoEco/DataProducts/CMEMS.py:209-219 | each letter appears exactly when its coordinate exists, in t, z, y, x order |
| CMEMS.DimensionsSupported | src/GeoEco/DataProducts/CMEMS.py:209-221 | the dimensions are supported exactly when latitude and longitude exist |
| CMEMS.CheckDimensions | src/GeoEco/DataProducts/CMEMS.py:209-221 | the check passes exactly when latitude and longitude exist, returning the ordered letters |
| CMEMS.CheckLonLatAttributes | src/GeoEco/DataProducts/CMEMS.py:230-233 | passes exactly when every attribute of both horizontal coordinates is numeric; otherwise it reports the first that is not |
| CMEMS.LonLatErrorAt | src/GeoEco/DataProducts/CMEMS.py:230-233 | the error reported is the first attribute, in checking order, that is not numeric |
| CMEMS.CountNonNegativeMixed | src/GeoEco/DataProducts/CMEMS.py:301-304 | the non-negative count is 0 exactly when all are negative and full exactly when none is |
| CMEMS.ReversePermutes | src/GeoEco/DataProducts/CMEMS.py:310 | reversing keeps the multiset of values |
| CMEMS.SortMonotone | src/GeoEco/DataProducts/CMEMS.py:306-310 | sorting a monotone sequence gives a strictly increasing permutation of it |
| CMEMS.NormaliseDepths | src/GeoEco/DataProducts/CMEMS.py:295-312 | the depth rules:<br>• errors for non-numeric values, mixed signs and non-monotone depths, and only in those cases;<br>• on success, the depths are strictly increasing and non-negative, and are a permutation of the absolute values. |
| CMEMS.CountDepths | src/GeoEco/DataProducts/CMEMS.py:299-303 | counting fails exactly when a value is not numeric |
| CMEMS.SortedDepths | src/GeoEco/DataProducts/CMEMS.py:306-312 | sorted depths keep their count and are non-negative |
| CMEMS.TimeUnitTokens | src/GeoEco/DataProducts/CMEMS.py:330-334 | units parse exactly when the lower-cased words are a known unit, `since`, and at least two more; the words are the text without whitespace, split |
| CMEMS.TimeUnitsIgnoreCase | src/GeoEco/DataProducts/CMEMS.py:330-334 | parsing ignores letter case |
| CMEMS.ParseTimeUnits | src/GeoEco/DataProducts/CMEMS.py:330-334 | parsed units are at least four words: a known unit, `since` and more. Together they spell the lower-cased text without whitespace. A failure names the units |
| CMEMS.ConstantStepAxis | src/GeoEco/DataProducts/CMEMS.py:349-354 | the constant-step axis fails exactly when the step is zero |
| CMEMS.ConstantStepAxisSpan | src/GeoEco/DataProducts/CMEMS.py:343-378 | milliseconds become seconds with a step 1000 times smaller; other units lose their plural `s`. When the span divides evenly, count times step covers it |
| CMEMS.TimeAxisOf | src/GeoEco/DataProducts/CMEMS.py:326-461 | the axis is the one `TimeAxisSpec` gives |
| CMEMS.TimeAxisSucceeds | src/GeoEco/DataProducts/CMEMS.py:326-461 | the time axis succeeds exactly when the units exist and parse, the `since` date parses, and there is a non-zero constant step or a non-empty numeric list of values with an inferred step. A constant step sets the increment and its unit; listed values give their count |
| CMEMS.DistinctLettersCard | src/GeoEco/DataProducts/CMEMS.py:514-532 | letters are distinct exactly when their set is as large as the string |
| CMEMS.FirstUnknown | src/GeoEco/DataProducts/CMEMS.py:514-520 | the first dimension without a letter, found exactly when some dimension is unknown |
| CMEMS.PhysicalDimensionsOf | src/GeoEco/DataProducts/CMEMS.py:514-532 | succeeds exactly when every dimension is known and the letters agree with the catalogue's; the result spells each dimension's letter, all distinct. The errors are checked in order: the first unknown dimension, then repeated letters, then a mismatch with the catalogue's dimensions |
| CMEMS.FlipFlags | src/GeoEco/DataProducts/CMEMS.py:539-548 | one flag per dimension, set exactly when its coordinates descend (depth by absolute value) |
| CMEMS.FlipMeansDescending | src/GeoEco/DataProducts/CMEMS.py:539-548 | for monotone coordinates, the flag means strictly decreasing |
| CMEMS.FlipOfDepths | src/GeoEco/DataProducts/CMEMS.py:539-548 | for depths, the flag means the absolute values strictly decrease |
| CMEMS.UnscaledNoData | src/GeoEco/DataProducts/CMEMS.py:552-573 | unsupported data types fail; others get the no-data rule's value |
| CMEMS.NoDataKind | src/GeoEco/DataProducts/CMEMS.py:563-573 | float types get a float or NaN no-data value, integer types an integer or none |
| CMEMS.Midpoints | src/GeoEco/DataProducts/CMEMS.py:632-635 | one midpoint between each pair of neighbours |
| CMEMS.ZEdgesBracketCentres | src/GeoEco/DataProducts/CMEMS.py:625-639 | every depth lies between its top edge (0 or a midpoint) and its bottom edge (a midpoint or 11000), and each bottom edge is the next top edge |
| CMEMS.ZCoords | src/GeoEco/DataProducts/CMEMS.py:625-639 | only z has coordinates. With offset -0.5 the first edge is 0 and the others are midpoints; with 0.5 the edges are midpoints and the last is 11000; otherwise the depths are returned |
| CMEMS.SourcePartition | src/GeoEco/DataProducts/CMEMS.py:67-76 | a property comes from the catalogue (the names listed at line 498), the dataset or the scaling library exactly when it is in that group |
| CMEMS.ReadCatalogue | src/GeoEco/DataProducts/CMEMS.py:78-479 | the result is `CatalogueSpec`: the error is the first failing step, in the order the `describe` call (which may raise), service selection, coordinate records, dimensions, longitude and latitude attributes, depth axis, time axis. On success the URI and standard name are non-empty, the stored values meet the catalogue checks, and they were read from the candidate `Selected` gives (the axes: `CatalogueAxes`) |
| CMEMS.ReadAxes | src/GeoEco/DataProducts/CMEMS.py:295-461 | the result is `AxesSpec`; a depth axis exists exactly when z is a dimension, and is then strictly increasing; a time axis exists exactly when t is one |
| CMEMS.AxesSucceeds | src/GeoEco/DataProducts/CMEMS.py:295-461 | the axes are read exactly when the depth record, if present, yields a depth axis and the time record, if present, yields a time axis; a depth failure is the error reported |
| CMEMS.CatalogueAxes | src/GeoEco/DataProducts/CMEMS.py:295-461 | a successful query stores a depth axis exactly when the selected variable has a `depth` record, and it is the one that record yields; likewise the time axis and the `time` record |
| CMEMS.CMEMSARCOArray.constructor | src/GeoEco/DataProducts/CMEMS.py:34-56 | the corner coordinate types are kept in t, z, y, x order and nothing is cached |
| CMEMS.CMEMSARCOArray.QueryCatalogue | src/GeoEco/DataProducts/CMEMS.py:78-479 | a cached query changes nothing. An uncached query whose `describe` call raises returns the "failed to query" error and changes nothing. Any other failed query returns the catalogue error and changes nothing. A fresh success stores exactly `CatalogueOf`'s result, read from the `Selected` candidate, and leaves the dataset values untouched |
| CMEMS.CMEMSARCOArray.StoreCatalogue | src/GeoEco/DataProducts/CMEMS.py:465-479 | the stored values are exactly the catalogue result |
| CMEMS.CMEMSARCOArray.ReadDataset | src/GeoEco/DataProducts/CMEMS.py:504-580 | opening the dataset (`_Open`, whose failure is raised at line 612) and taking the variable from it (line 507) may each raise, and each gives its own error. Otherwise it succeeds exactly when `DatasetSpec` of the data array does. A failure returns its error and changes nothing. Success stores its values, which meet the dataset checks, and leaves the catalogue values untouched |
| CMEMS.DatasetSpecFacts | src/GeoEco/DataProducts/CMEMS.py:507-580 | the dataset checks pass exactly when every dimension is known, the letters agree with the catalogue's and the data type is supported; the values then meet the dataset checks |
| CMEMS.CMEMSARCOArray.GetLazyPropertyPhysicalValue | src/GeoEco/DataProducts/CMEMS.py:63-580 | unknown and scaling properties come back with no query and no change. A catalogue or dataset property fails with the catalogue error when the uncached query fails. A catalogue property then succeeds. A dataset property fails with the open error or the variable-lookup error when that call raises. Otherwise it succeeds exactly when the dataset checks pass, and fails with their error when they do not |
| NumpyGrid.ValidateAccepts | src/GeoEco/Datasets/_NumpyGrid.py:34-60 | the arguments are accepted exactly when all of these hold:<br>• 2 to 4 dimensions, one per axis;<br>• the no-data type matches;<br>• a t dimension has its increment unit and corner type;<br>• the physical dimensions agree;<br>• the scaling arguments are all set or all unset. |
| NumpyGrid.Index | src/GeoEco/Datasets/_NumpyGrid.py:86-89 | the first position of a letter, found exactly when present |
| NumpyGrid.DeriveShape | src/GeoEco/Datasets/_NumpyGrid.py:86-89 | succeeds exactly when every dimension is a physical one; each size is the array's size along that physical axis; otherwise the first absent dimension is reported |
| NumpyGrid.FirstNotIn | src/GeoEco/Datasets/_NumpyGrid.py:86-89 | the first dimension missing from the physical order, found exactly when one is missing |
| NumpyGrid.IndexOfDistinct | src/GeoEco/Datasets/_NumpyGrid.py:86-89 | with distinct letters, a letter is found at its own position |
| NumpyGrid.DerivedShapeFollowsPhysicalOrder | src/GeoEco/Datasets/_NumpyGrid.py:86-89 | each dimension's size is taken from the axis its letter occupies in the physical order |
| NumpyGrid.ComputedDefaults | src/GeoEco/Datasets/_NumpyGrid.py:70-109 | the defaults:<br>• without t, the five t properties are `None`;<br>• coordinate dependencies default to `None` per dimension;<br>• the physical dimensions default to the dimensions;<br>• the flips default to `False` per dimension;<br>• the dimensions and data type are recorded. |
| NumpyGrid.ComputedEntries | src/GeoEco/Datasets/_NumpyGrid.py:70-109 | `get` finds each computed property under its own name |
| NumpyGrid.ApplyOverrides | src/GeoEco/Datasets/_NumpyGrid.py:111-113 | the loop computes the dict update |
| NumpyGrid.OverridesWin | src/GeoEco/Datasets/_NumpyGrid.py:111-113 | an overridden property takes the last override, and others keep the computed value |
| NumpyGrid.TestCapability | src/GeoEco/Datasets/_NumpyGrid.py:126-131 | only `setspatialreference` is supported |
| NumpyGrid.NumpyGridObject.constructor | src/GeoEco/Datasets/_NumpyGrid.py:62-115 | the object keeps its name, array shape and property values |
| NumpyGrid.NumpyGridObject.SetSpatialReference | src/GeoEco/Datasets/_NumpyGrid.py:137-138 | the spatial reference property is set, all others kept |
| NumpyGrid.Create | src/GeoEco/Datasets/_NumpyGrid.py:34-115 | invalid arguments fail with the validator's first error, and a dimension missing from the physical order fails with that error. Success gives a fresh grid with the array's shape and the name, whose properties are the computed ones for the derived shape, updated by the caller's overrides |
| NumpyGrid.IdentityOrderKeepsShape | src/GeoEco/Datasets/_NumpyGrid.py:86-89 | with the default physical order, the shape is the array's shape |
| ArcToolbox.Innermost | src/GeoEco/ArcToolbox.py:340-361 | the element type of nested sequences is a scalar type |
| ArcToolbox.GetArcGISDataType | src/GeoEco/ArcToolbox.py:340-361 | the data type is a dot-free prefix of the last segment of the ArcGIS type name |
| ArcToolbox.DataTypeStripsSuffix | src/GeoEco/ArcToolbox.py:340-361 | the suffix rules:<br>• the listed names lose `Class`;<br>• other names lose `TypeClass` if they end with it;<br>• the rest are kept whole. |
| ArcToolbox.ReplaceNewlines | src/GeoEco/ArcToolbox.py:371-372 | no newline survives |
| ArcToolbox.ReplaceNewlinesAppend | src/GeoEco/ArcToolbox.py:371-372 | replacement works piece by piece |
| ArcToolbox.ReplaceNewlinesKeepsPlainText | src/GeoEco/ArcToolbox.py:371-372 | text without newlines is unchanged |
| ArcToolbox.RestructuredTextToEsriXDoc | src/GeoEco/ArcToolbox.py:371-372 | the result is one `<xdoc>` element with no newline |
| ArcToolbox.ParagraphsReplaced | src/GeoEco/ArcToolbox.py:364-372 | a blank line between the descriptions becomes two `<br/>` |
| ArcToolbox.GetToolDescription | src/GeoEco/ArcToolbox.py:364-368 | the description is one XDoc element with no newline: the short text, plus two breaks and the long text when there is one |
| ArcToolbox.IndexOf | src/GeoEco/ArcToolbox.py:152-166 | the first position of a value, or the length when absent |
| ArcToolbox.FirstSeen | src/GeoEco/ArcToolbox.py:152-166 | the distinct values, each once, with nothing added |
| ArcToolbox.FirstSeenAppend | src/GeoEco/ArcToolbox.py:152-166 | a new value is appended, and a known one changes nothing |
| ArcToolbox.FirstSeenOrder | src/GeoEco/ArcToolbox.py:152-166 | the values are in order of first occurrence |
| ArcToolbox.NumberedStep | src/GeoEco/ArcToolbox.py:152-166 | numbering preserves "each value's number is its first-seen position plus one" |
| ArcToolbox.CategoryKeyInjective | src/GeoEco/ArcToolbox.py:158 | distinct numbers give distinct category keys |
| ArcToolbox.CategoryRefInjective | src/GeoEco/ArcToolbox.py:160 | distinct numbers give distinct category references |
| ArcToolbox.NumberCategory | src/GeoEco/ArcToolbox.py:230-235 | a new category takes the next number, and each category's number is its first-seen position |
| ArcToolbox.AddDisplayedArgument | src/GeoEco/ArcToolbox.py:218-247 | one displayed argument adds its parameter entry and its name, description and category labels |
| ArcToolbox.AddArgumentCategory | src/GeoEco/ArcToolbox.py:230-235 | the category reference is the category's first-seen number; its label is added once |
| ArcToolbox.ArgumentParameters | src/GeoEco/ArcToolbox.py:218-247 | the parameters and resource map are the updates that `ArgParams` and `ArgRcPairs` describe |
| ArcToolbox.ResultParameters | src/GeoEco/ArcToolbox.py:251-266 | the same for results |
| ArcToolbox.CreateToolContentFile | src/GeoEco/ArcToolbox.py:192-282 | the tool content and resource files are `ToolContent` and `ToolRc` |
| ArcToolbox.ToolContent | src/GeoEco/ArcToolbox.py:201-247 | the tool content is an object whose `params` member holds the parameters `ToolParams` describes |
| ArcToolbox.ToolMembersRefs | src/GeoEco/ArcToolbox.py:200-206 | the only top-level references of the tool content are `title` and `description` |
| ArcToolbox.ToolContentRefsResolve | src/GeoEco/ArcToolbox.py:201-210 | every top-level `$rc:` reference in the tool content names a key of the tool's resources |
| ArcToolbox.ToolRc | src/GeoEco/ArcToolbox.py:208-266 | the tool resources map `title` to the display name and `description` to the tool description |
| ArcToolbox.HeaderSurvives | src/GeoEco/ArcToolbox.py:208-266 | parameter keys, which all contain a dot, never overwrite `title` or `description` |
| ArcToolbox.ImportedModuleParent | src/GeoEco/ArcToolbox.py:294-296 | a public module is imported as is; a private one by its parent, which with the private segment gives the module back |
| ArcToolbox.ExecuteScriptOf | src/GeoEco/ArcToolbox.py:299-314 | the script calls `module.Class.method` on the module it imports |
| ArcToolbox.ToolsetFound | src/GeoEco/ArcToolbox.py:152-166 | the toolset of a tool's category sits at its first-seen position, with the tools so far |
| ArcToolbox.ToolsetsStepKnown | src/GeoEco/ArcToolbox.py:160-166 | a tool of a known category is appended to that toolset |
| ArcToolbox.KnownToolsetAt | src/GeoEco/ArcToolbox.py:160-166 | a known category keeps its toolset position |
| ArcToolbox.ToolsetsStepNew | src/GeoEco/ArcToolbox.py:160-166 | a new category starts an empty toolset at the end and then receives the tool |
| ArcToolbox.ToolsetKeys | src/GeoEco/ArcToolbox.py:152-166 | one toolset per category, numbered from 1 in first-seen order |
| ArcToolbox.CreateContentFiles | src/GeoEco/ArcToolbox.py:135-189 | the toolbox content, its resource map and one set of files per tool are the specified ones |
| ArcToolbox.CreateToolFiles | src/GeoEco/ArcToolbox.py:168-189 | each tool's files are its content, resources and scripts |
| ArcToolbox.NumberToolset | src/GeoEco/ArcToolbox.py:155-159 | a new category takes the next number, a known one keeps its number |
| ArcToolbox.AppendTool | src/GeoEco/ArcToolbox.py:160-166 | the toolsets after the step are those of one more tool |
| ArcToolbox.AddTool | src/GeoEco/ArcToolbox.py:152-169 | one loop step preserves the numbering, resource map and toolsets |
| ArcToolbox.ToolboxLabels | src/GeoEco/ArcToolbox.py:147-160 | the header followed by the category labels has unique keys and keeps its title and description. Category label n is the n-th category, and no other number is labelled |
| ArcToolbox.ToolboxRc | src/GeoEco/ArcToolbox.py:140-166 | the toolbox resources have unique keys, a title and a description, and label n is the n-th category first seen; no other number is labelled |
| ArcToolbox.ToolboxContent | src/GeoEco/ArcToolbox.py:140-169 | the toolbox content's `toolsets` member holds one entry per category in first-seen order; the n-th is named by category reference n and lists exactly that category's tools |
| ArcToolbox.ToolsetOfCategory | src/GeoEco/ArcToolbox.py:152-166 | a category's toolset holds exactly the tools of that category |
| ArcToolbox.ToolsetEntry | src/GeoEco/ArcToolbox.py:152-166 | the j-th toolset is numbered j+1 and holds the tools of the j-th category |
| ArcToolbox.ToolsInHas | src/GeoEco/ArcToolbox.py:160-166 | every tool is in its category's toolset |
| ArcToolbox.ToolsInPrefix | src/GeoEco/ArcToolbox.py:160-166 | toolsets only grow as tools are added |
| ArcToolbox.PublicModules | src/GeoEco/ArcToolbox.py:58 | modules whose last segment starts with `_` are dropped, and nothing else |
| ArcToolbox.NextTempNumber | src/GeoEco/ArcToolbox.py:85-87 | the next number is 0 with no temporary directories, else the last one's number plus one |
| ArcToolbox.TempNumberOrder | src/GeoEco/ArcToolbox.py:85-86 | sorted names have ordered numbers |
| ArcToolbox.TempDirName | src/GeoEco/ArcToolbox.py:87 | the name is the base, `_tmp` and digits whose value is the number. Below 10000 it matches the glob at line 85, and its number reads back |
| ArcToolbox.TempDirIsNew | src/GeoEco/ArcToolbox.py:85-88 | the chosen name is none of the existing four-digit temporary names the glob finds |
| ArcToolbox.ParamIndex | src/GeoEco/ArcToolbox.py:383 | the index of a name is its last parameter's |
| ArcToolbox.ParamNumbersGet | src/GeoEco/ArcToolbox.py:383 | the name-to-number dict finds the last parameter of each name |
| ArcToolbox.ParameterValue | src/GeoEco/ArcToolbox.py:403-412 | `#` or empty text gives the default, or `None` when the type allows `None` or there is no default; other text is parsed with the 1-based parameter number |
| ArcToolbox.ArgumentValues | src/GeoEco/ArcToolbox.py:375-414 | the argument loop fails exactly when an argument is missing from the parameters, and otherwise computes the assigned dict |
| ArcToolbox.AssignArgumentValue | src/GeoEco/ArcToolbox.py:386-412 | one argument step fails, naming the argument, exactly when its parameter is missing |
| ArcToolbox.ArgumentValuesFound | src/GeoEco/ArcToolbox.py:394-403 | values are read exactly when every displayed argument has a parameter |
| ArcToolbox.ArgumentValueOf | src/GeoEco/ArcToolbox.py:386-412 | a displayed argument gets its parameter's value; an undisplayed one gets its geoprocessor variable, if any |
| ArcToolbox.AssignedValue | src/GeoEco/ArcToolbox.py:386-412 | the same for the last assignment of each argument |
| ArcToolbox.DisplayedResults | src/GeoEco/ArcToolbox.py:430-431 | exactly the displayed results, in order |
| ArcToolbox.DerivedOutputs | src/GeoEco/ArcToolbox.py:426-434 | setting the outputs succeeds exactly when every displayed result has a parameter, giving one output per displayed result; otherwise the error names a displayed result without one |
| ArcToolbox.DerivedOutputsAsWritten | src/GeoEco/ArcToolbox.py:426-434 | as written, the loop fails in the same cases with the same error, and otherwise writes to the same parameters |
| ArcToolbox.DerivedOutputsAsWrittenMisplaced | src/GeoEco/ArcToolbox.py:426-434 | as written, a displayed result after an undisplayed one gets the undisplayed result's value |
| ArcToolbox.SetDerivedOutputs | src/GeoEco/ArcToolbox.py:426-434 | the derived outputs set are `DerivedOutputs` |
| ArcToolbox.DerivedOutputsOf | src/GeoEco/ArcToolbox.py:426-434 | each displayed result is written to its own parameter with its own value |
| ArcToolbox.DerivedOutputsFound | src/GeoEco/ArcToolbox.py:426-434 | outputs are set exactly when every displayed result has a parameter |
| ArcToolbox.ArgRcLabels | src/GeoEco/ArcToolbox.py:218-247 | category label n is the n-th argument category first seen |
| ArcToolbox.ToolCategoryLabels | src/GeoEco/ArcToolbox.py:201-247 | the tool's resources label exactly its categories, numbered from 1 |
| ArcToolbox.CategoryReferenceResolves | src/GeoEco/ArcToolbox.py:230-235 | an argument's category reference resolves to its own category's label |
| PyStr.LStrip | src/GeoEco/R/_RWorkerProcess.py:822 | the longest suffix not starting with whitespace |
| PyStr.RStrip | src/GeoEco/R/_RWorkerProcess.py:211 | the longest prefix not ending with whitespace |
| PyStr.StripIsContained | src/GeoEco/R/_RWorkerProcess.py:822 | a stripped string is a slice of the original |
| PyStr.StripIdempotent | src/GeoEco/R/_RWorkerProcess.py:822-833 | stripping twice is stripping once |
| PyStr.Lower | src/GeoEco/DataProducts/CMEMS.py:332 | ASCII letters are lower-cased one by one |
| PyStr.Words | src/GeoEco/DataProducts/CMEMS.py:332 | words are non-empty, and the first starts with the text's first character |
| PyStr.WordsHaveNoSpace | src/GeoEco/DataProducts/CMEMS.py:332 | no word holds whitespace |
| PyStr.WordsConcat | src/GeoEco/DataProducts/CMEMS.py:332 | the words together spell the text without whitespace |
| PyStr.SplitOn | src/GeoEco/ArcGIS.py:160 | at least one piece |
| PyStr.SplitJoin | src/GeoEco/ArcGIS.py:160 | the pieces hold no separator, and joining them gives the text back |
| PyStr.ParseIntSpelled | src/GeoEco/ArcGIS.py:163-165 | `int()` gives i exactly when the stripped text is a sign that fits i (none, `+` or `-`), any number of leading zeros, and the decimal spelling of the magnitude of i |
| PyStr.CanonicalDigits | src/GeoEco/ArcGIS.py:163-165 | every digit string is leading zeros followed by the canonical spelling of its value |
| PyStr.NoLeadingZeroCanonical | src/GeoEco/ArcGIS.py:163-165 | a digit string without a leading zero is the canonical spelling of its value |
| PyStr.NatToStringInjective | src/GeoEco/ArcToolbox.py:87 | distinct numbers print differently |
| PyStr.ParseIntOfIntToString | src/GeoEco/ArcGIS.py:163-165 | printed integers parse back |
| PyStr.Pad4 | src/GeoEco/ArcToolbox.py:87 | `%04i` prints digits |
| PyStr.Pad4Value | src/GeoEco/ArcToolbox.py:86-87 | the digits read back as the number, exactly four below 10000 |
| PyStr.RSplitHead | src/GeoEco/ArcToolbox.py:296 | the text before the last separator, or all of it |
| PyStr.RSplitHeadLastSegment | src/GeoEco/ArcToolbox.py:294-296 | the head, the separator and the last segment give the text back |
| PyDict.Keys | src/GeoEco/Datasets/_NumpyGrid.py:111-113 | the keys of a dict, in order |
| PyDict.Get | src/GeoEco/Datasets/_NumpyGrid.py:111-113 | `get` finds a value exactly when the key is present |
| PyDict.SetGet | src/GeoEco/Datasets/_NumpyGrid.py:111-113 | after `d[k] = v`, `k` maps to `v` and other keys keep their values; a new key goes last |
| PyDict.SetKeys | src/GeoEco/ArcToolbox.py:222-235 | assignment keeps the key order, appending a new key |
| PyDict.SetKeepsUniqueKeys | src/GeoEco/ArcToolbox.py:222-235 | assignment keeps keys unique |
| PyDict.UpdateGet | src/GeoEco/Datasets/_NumpyGrid.py:111-113 | after `update`, a key has its last new value, else its old one |
| PyDict.UpdateKeepsUniqueKeys | src/GeoEco/Datasets/_NumpyGrid.py:111-113 | `update` keeps keys unique |
| PyDict.FromPairsOfUnique | src/GeoEco/ArcToolbox.py:383 | building a dict from distinct keys keeps the pairs |
| PyDict.FromPairsSingleKey | src/GeoEco/R/_RWorkerProcess.py:79 | a dict literal with one distinct key has only repeats of it, and keeps the last value |
| PyDict.LastValueSome | src/GeoEco/ArcToolbox.py:383 | a last value exists exactly when the key occurs |
| PyDict.LastValueAppend | src/GeoEco/ArcToolbox.py:383 | the last value in a concatenation comes from the second part if it has one |

## Left out

- Process management: locating Rscript, spawning it and the Win32 job-object and Linux `prctl` code (`_RWorkerProcess.py:317-608`). The process's observable results come in as the `StartOracle` parameter.
- HTTP transport: the `requests` session is a trace of the calls made, and responses are a parameter.
- Threads, locks and events: the two log-reader threads are modelled as one sequential reader per stream. Concurrent interleaving between them is not captured.
- Tables: pyarrow tables are opaque identities. The Arrow and Feather bytes are not modelled.
- Time zones: a datetime holds a fixed UTC offset instead of a tz database, and float `timestamp()` is replaced by exact integer microseconds. Float rounding is not modelled beyond `RoundHalfEven`.
- CMEMS.ConstantStepAxis: counts the steps `(max - min + step) / step` in exact reals before truncating, where `CMEMS.py:349-352` divides floats. A span that is a whole number of steps in decimal can round just below it in binary and lose one step (minimum 0, maximum 0.7, step 0.1 gives 7 in Python and 8 here). NaN and infinite attributes cannot occur in the model.
- CMEMS `since` time (`CMEMS.py:336-339`): whether `strptime` parses the date and time after `since` is the boolean `sinceParses` of the catalogue query. The date itself is not modelled.
- NumpyGrid.Create: `ValidateMethodInvocation` (`_NumpyGrid.py:30`), the check of every argument against its declared metadata type, is not modelled. `Validate` models the additional checks from line 32 on.
- ArcToolbox.CreateContentFiles: the tool name is the last part of the class name followed by the method name (`ArcToolbox.py:168`). Two methods whose classes share that last part and whose names match get the same tool name. In the source the second `os.makedirs` at line 197 then raises. The model emits two file sets under the same name, and its toolset lists hold the name twice.
- ArcToolbox.TempDirName: the glob at `ArcToolbox.py:85` sees only four-digit suffixes. After `_tmp9999` the next directory is `_tmp10000`, which later runs do not see, so a later run chooses it again and `os.makedirs` at line 88 raises. `TempDirIsNew` promises only that the name is not among the globbed names.
- `RWorkerProcess.__len__`, `__iter__`, `_GetVariableNames`, `Eval` and the context-manager methods `__enter__`, `__exit__` and `__del__`: these are not part of this model.
- RWorker.PrepareError: the wait observations are a finite sequence, so running out of them yields `StartupPending`. The loop at `_RWorkerProcess.py:301-304` has no such outcome: it blocks until the worker is ready, or until a wait times out with no installation running. `StartupPending` exists only because the model is finite.
- RWorker.RWorkerProcess.Stop: does not clear Ready; the source does not clear it either.
- RWorker.RWorkerProcess.SetItem: the body is computed before the worker is started, whereas the source serializes after `Start`. Serialization is pure, so the outcome is the same.
- ArcGIS.ArcGISDependency.SetVersion: omits the call through the undefined `cls` at `ArcGIS.py:318`. As written, every call raises NameError before storing anything. The constructor calls `SetVersion` at line 313, so it raises too, and no `ArcGISDependency` can be built. The `ArcGISDependency` members model the class as evidently intended, without that line.
- ArcGISExtensionDependency (`ArcGIS.py:421-466`) and the geoprocessor file operations RefreshCatalog, ArcGISObjectExists, Delete, Copy, Move and GetUniqueLayerName (`ArcGIS.py:184-306`): these are not part of this model.
- `_ArcGISObjectWrapper`: its attribute reflection and weak references are not modelled. A wrapped object is a tagged value.
- Logging: Logger calls are not modelled, except the records the worker's log reader writes and the warnings `Stop` logs (`StopWarnings`).
- CMEMS lon/lat numerics (`CMEMS.py:234-291`): left out. Lines 264 and 266 also read `coordIncrements[-2]` before line 268 assigns it.
- CMEMS time-step inference from listed values (`CMEMS.py:414-459`): the inferred step or error is a parameter of `TimeAxisOf`. Line 441 onward read `.microseconds` from a list.
- CMEMS multi-version dataset selection (`CMEMS.py:138-152`): when more than one version is listed and the first version has a `label` key, the one-argument `isinstance` at line 141 raises TypeError, and the model returns that error. When the first version has no `label`, the warning is not modelled and version 0 is used, as in the source. A first version that is not a dict raises TypeError at line 141 or 159 when `in` or the subscript cannot apply, and the model returns `VersionNotDict`.
- The copernicusmarine and xarray calls (`describe`, `_Open`, the variable subscript, `_Close`, `_ReadNumpyArray`): what they return, or the fact that they raise, is a parameter. Which exception they raise is not modelled. An `_Open` that succeeds before a failed variable lookup leaves the dataset open in the source, and the model does not track that.
- NumpyGrid `_ReadNumpyArray`, `_WriteNumpyArray` (array slicing) and `CreateFromGrid`: not modelled.
- ArcToolbox side effects: directories, files, zip archives, renames and `importlib` enumeration are not modelled. The generated files are values, and the script templates are represented by their varying parts.
- ArcToolbox line 49: the `len()` on a glob generator is not modelled.
- A type's parser for ArcGIS parameter text is opaque: the model records that the value is parsed, with the parsed text and parameter number.
- ArcToolbox line 429: wrapping a single result in a tuple is not modelled separately. Results are always a sequence with one entry per result metadata.
- Python's equal keys `1 == 1.0 == True` in dicts: keys are compared structurally.
- MongoCodec.DateFromMillis: never fails. `fromtimestamp` raises for a timestamp outside the platform's range, and that error is not modelled.
- PyStr.Lower: lowers ASCII letters only. Python's `str.lower()` folds all of Unicode, for example the Kelvin sign to `k`, and `İ` to two characters. The result can differ from Python's only in non-ASCII characters. The only one that lowers to an ASCII letter is the Kelvin sign, and no unit word or `since` contains `k`, so the time parser's outcome is the same.
- PyStr.ParseInt: rejects underscores between digits and non-ASCII decimal digits, which Python's `int()` accepts. Versions printed by ArcGIS contain neither.
- The validator's lookups of the module, class and method (`ArcGIS.py:474-478`): the model starts from the method's metadata and its `inspect` argument list, so these assertions are not modelled.
- NumpyGrid.ComputedDefaults: states the defaults by their position in the computed list rather than through `get`. `ComputedEntries` connects the two.

## Findings

| source | as written | input that shows it | evidently intended | confidence | as-written member | corrected member |
|---|---|---|---|---|---|---|
| src/GeoEco/ArcGIS.py:174 | the product name is stored in `_ProductName`, but `_ArcGISProductName` is what `GetArcGISProductName` and the dependency check read | a dependency with `productNames=['ArcGISPro']` on any installation | store it in `_ArcGISProductName` | not executed | ArcGIS.GeoprocessorManager.StoreProductNameAsWritten, ArcGIS.UnsetProductNameRejected | ArcGIS.GeoprocessorManager.StoreProductName |
| src/GeoEco/ArcGIS.py:145 | bare `GetWrappedGeoprocessor()` is not defined at module level | any first call of `_GetArcGISInstallInfo` after the geoprocessor initialises | `GeoprocessorManager.GetWrappedGeoprocessor()` | not executed | ArcGIS.GeoprocessorManager.GetInstallInfoAsWritten | ArcGIS.GeoprocessorManager.GetInstallInfo |
| src/GeoEco/R/_RWorkerProcess.py:754 | the `except:` handler formats `e`, which is unbound | a held worker whose `poll()` raises | `except Exception as e:`, then assume the worker is running | not executed | RWorker.PollAsWrittenRaisesNameError | RWorker.PollFailureAssumesRunning |
| src/GeoEco/ArcToolbox.py:432-433 | the derived output is set from `results[r]`, the count of displayed results so far, not from `results[i]` | results `count` (not displayed) then `path` (displayed): the path parameter receives the count | `results[i]` | not executed | ArcToolbox.DerivedOutputsAsWrittenMisplaced | ArcToolbox.SetDerivedOutputs, ArcToolbox.DerivedOutputsOf |
