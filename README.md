# LDS replication core in Dafny

This project models the core of the LINZ Data Service (LDS) replication scripts:
- how WFS request addresses and API keys are built and checked (RequestBuilder, LDSDataStore);
- how PostgreSQL connection strings are checked and built (PostgreSQLDataStore);
- how a TransferProcessor run reconciles the advertised layers with the configured ones, picks
  full, automatic-incremental or date-range replication, and moves each layer's last-modified
  watermark;
- how ConfigWrapper merges a user configuration file over the main one.

Every Python exception the core raises becomes a `Failure` of `Common.Result`, with the kind of
exception in `Common.Error`. The code's LDSUtilities helpers are not part of this model. They are
function values in `Common.Utilities` (checkCQL, splitLayerName, getLayerNameFromURL,
checkDateFormat, checkLayerName, cropChangeset). `datetime.strptime` and `urlopen` are function
parameters of the processor. So every property proved here holds whatever those helpers do.

Objects the code mutates are classes whose methods state their whole new state:
- `LDSDataStore.LdsSource`: filter, incremental flag, the last data source read;
- `TransferProcessor.Destination`: the watermark map and the log of writes, clock reads and marks;
- `TransferProcessor.Processor`: `src`, `dst`, `lnl`;
- `ConfigWrapper.ConfigWrapper`: the user, main and layer readers.

Each replication method is proved equal to a specification function over a value snapshot
(`World`). The lemmas about those functions state what a run does to the watermarks and the log.

Behaviours the model keeps exactly as the code has them:
- `'%Y-%M-%d'` reads the middle field of a date as minutes. Dates therefore order by year, then
  day, then that field (`TransferProcessor.Later`).
- A command-line CQL filter wins even when it is empty (`TransferProcessor.Precedence`).
- `lstrip('v:x')` strips any leading run of the characters `v`, `:` and `x`, not a prefix
  (`Text.LStrip`).
- Date-range mode with layer `ALL` transfers a layer literally named `ALL`. It does not expand
  the name to the working list (`TransferProcessor.Processor.DispatchTouches`).
- `validateAPIKey` uses `re.search`, so a longer string that contains 32 hex digits passes.
- The 2.0.0 connection-string check requires `/key=<32 hex>/`. The address form shown in the
  file's own comments (`services;key=...`, lines 106-107) is therefore rejected
  (`RequestBuilder.V200AddressRejected`). The 2.0.0 `getCapabilities` builds that rejected form
  itself.

Where the design description and the code differ, the model follows the code:
- The description intersects layer names after normalising them. The code intersects the raw
  names (`v:x123` against the configured names) and strips afterwards
  (LDSIncremental/LDSReader/TransferProcessor.py:132).
- The description validates the inputs before any network access. The code fetches the
  capabilities document and reads the configured layer names first, and validates afterwards
  (LDSIncremental/LDSReader/TransferProcessor.py:124-154). `ProcessLDS` states that a rejected
  run leaves the destination untouched.

## Model

| member | source | states |
|---|---|---|
| RequestBuilder.SelectVariant | LDSReplicate/lds/RequestBuilder.py:61-71 | '1.0.0', '1.0' and '1.1.0' select the 1.1.0 builder; '2.0.0' and '2.0' select the 2.0 builder; every other version fails with UnknownDSVersion carrying that version |
| RequestBuilder.ValidateAPIKey | LDSReplicate/lds/RequestBuilder.py:73-78 | succeeds exactly when the key contains 32 consecutive hex digits in either case; on success the answer is always true (never False); otherwise MalformedConnectionString, and a missing key is a TypeError |
| RequestBuilder.ExtractAPIKey | LDSReplicate/lds/RequestBuilder.py:80-85 | the key is the 32 hex digits of the first `/<hex>/v/x` or `/<hex>/wfs?`; with no match the result is None, or a MalformedConnectionString exactly when raise_err is set |
| RequestBuilder.ExtractedKeyIsValid | LDSReplicate/lds/RequestBuilder.py:80-85 | every extracted key is 32 characters long and passes validateAPIKey |
| RequestBuilder.InitialKey | LDSReplicate/lds/RequestBuilder.py:48-52 | with no connection string the configured key is kept; with one, the key is None exactly when the string has no key path |
| RequestBuilder.ValidV110KeyPasses | LDSReplicate/lds/RequestBuilder.py:51-55 | a connection string the 1.1.0 check accepts always yields a key that passes validateAPIKey, so construction cannot fail on the key |
| RequestBuilder.GetInstance | LDSReplicate/lds/RequestBuilder.py:44-71 | an unknown version fails first; then a key (from the connection string when one is given) that fails validation fails construction; otherwise a fresh builder of the selected variant holds the parameters, the key and the connection string |
| RequestBuilder.HostOk | LDSReplicate/lds/RequestBuilder.py:120 | the host check holds exactly when the variant's service root occurs in the string, ignoring case (see also line 216) |
| RequestBuilder.KeyOk | LDSReplicate/lds/RequestBuilder.py:122 | the 1.1.0 key check holds exactly when a `/<hex>/v/x` or `/<hex>/wfs?` key path occurs; the 2.0 check exactly when `/key=<hex>/` occurs (see also line 218) |
| RequestBuilder.WfsOk | LDSReplicate/lds/RequestBuilder.py:124 | the service check holds exactly when `wfs?` occurs, ignoring case (see also line 220) |
| RequestBuilder.ConnStrCheck | LDSReplicate/lds/RequestBuilder.py:116-129 | succeeds exactly when all four checks pass; each failure names the first check that fails, in the code's order; success returns the string and the layer named in it (see also lines 212-225) |
| RequestBuilder.NoDashFailsV200 | LDSReplicate/lds/RequestBuilder.py:120 | an http address without a '-' can never pass the 2.0 host check |
| RequestBuilder.V200AddressHasHost | LDSReplicate/lds/RequestBuilder.py:106-121 | the documented `services;key=` address form passes the http and host checks |
| RequestBuilder.V200AddressHasNoKeyParam | LDSReplicate/lds/RequestBuilder.py:106-122 | the documented `services;key=` address form contains no `/key=<hex>/` |
| RequestBuilder.V200AddressRejected | LDSReplicate/lds/RequestBuilder.py:106-123 | so the 2.0 check rejects the documented address form with the missing-key error |
| RequestBuilder.RewriteIsQuery | LDSReplicate/lds/RequestBuilder.py:151 | the two substitutions turn `base##p1##...##pn` into the query `base?p1&...&pn` when no part holds a '#' of its own (see also lines 177, 250, 277) |
| RequestBuilder.RequestBuilder.constructor | LDSReplicate/lds/RequestBuilder.py:44-58 | the builder holds the six configured parameters, the key and the connection string |
| RequestBuilder.RequestBuilder.GetCapabilitiesIsQuery | LDSReplicate/lds/RequestBuilder.py:111-114 | 1.1.0: `url+key+/wfs` queried with service=WFS, version=1.1.0, request=GetCapabilities; 2.0: `url+services;key=+key+/wfs` with the configured service and request=GetCapabilities (see also lines 203-209) |
| RequestBuilder.RequestBuilder.FilterAppended | LDSReplicate/lds/RequestBuilder.py:87-101 | the filter suffix is one more query parameter `cql_filter=<checked cql>`, and only when a filter is configured |
| RequestBuilder.RequestBuilder.RawFeatureRequestIsQuery | LDSReplicate/lds/RequestBuilder.py:142-151 | the GetFeature string is the query of the parameters service, version, request=GetFeature, typeName, view parameters, outputFormat and the filter, in that order |
| RequestBuilder.RequestBuilder.SourceURI | LDSReplicate/lds/RequestBuilder.py:134-153 | 1.1.0 with no layer answers None; with a connection string the result is that string exactly when it passes the check and names the requested layer, else the check's error or a layer mismatch; 2.0 with no layer and no connection string is a TypeError (see also lines 230-252) |
| RequestBuilder.RequestBuilder.SourceURIIsQuery | LDSReplicate/lds/RequestBuilder.py:142-153 | without a connection string the address is `url+key+/wfs` queried with the GetFeature parameters for the layer (see also lines 242-252) |
| RequestBuilder.RequestBuilder.DatesMatch | LDSReplicate/lds/RequestBuilder.py:162 | the dates match exactly when each given date's first ten characters, after `from:` or `to:`, match somewhere in the string as a pattern in which `.` stands for any character but a newline (see also line 262) |
| RequestBuilder.RequestBuilder.DottedDateMatches | LDSReplicate/lds/RequestBuilder.py:162 | a date written with dots matches the same date written with dashes in the connection string, as the pattern search lets it |
| Text.DotPatternLiteral | LDSReplicate/lds/RequestBuilder.py:162 | every literal occurrence of the date pattern is a match, and a date without `.` matches exactly where it occurs literally |
| RequestBuilder.RequestBuilder.SourceURIIncremental | LDSReplicate/lds/RequestBuilder.py:155-179 | with a connection string: success, answering the string, exactly when it passes the check, names the layer and holds the dates; errors in the code's order; without one, TypeError exactly when the layer or a date is missing (see also lines 255-279) |
| RequestBuilder.RequestBuilder.SourceURIIncrementalIsQuery | LDSReplicate/lds/RequestBuilder.py:166-179 | the incremental address is `url+key+<split layer>-changeset/wfs` queried for typeName `<layer>-changeset` with `viewparams=from:<f>;to:<t>` before outputFormat (see also lines 266-279) |
| RequestBuilder.RequestBuilder.SourceURIFeatureCount | LDSReplicate/lds/RequestBuilder.py:181-187 | fails, with a TypeError, exactly when no layer is given (see also lines 281-287) |
| RequestBuilder.RequestBuilder.FeatureCountIsQuery | LDSReplicate/lds/RequestBuilder.py:184-185 | the count address is `url+key+/wfs` queried with service, version, request=GetFeature, resultType=hits and typeName (see also lines 284-285) |
| RequestBuilder.RequestBuilder.FeatureCountMatchesSourceURI | LDSReplicate/lds/RequestBuilder.py:181-187 | with the optional parts absent, the count address is the feature address with resultType=hits inserted before typeName (see also lines 242-252) |
| LDSDataStore.FindAll | LDSIncremental/LDSReader/LDSDataStore.py:98-101 | every name found is `v:x` followed by one or more digits |
| LDSDataStore.FindAllListing | LDSIncremental/LDSReader/LDSDataStore.py:98-101 | the finder recovers exactly the listed names, in order, from a run of `<Name>v:xN</Name>` elements |
| LDSDataStore.FindAllElement | LDSIncremental/LDSReader/LDSDataStore.py:98-101 | a `<Name>` element of a layer id at the head of a line contributes that id first, then the finds of the rest |
| LDSDataStore.FindAllSkips | LDSIncremental/LDSReader/LDSDataStore.py:98-101 | text in which no match starts contributes nothing: the finds are those of what follows it |
| LDSDataStore.FindAllFirstElement | LDSIncremental/LDSReader/LDSDataStore.py:98-101 | a `<Name>` element of a layer id anywhere in a line is found, as the first id, when no match starts before it |
| LDSDataStore.NamesIn | LDSIncremental/LDSReader/LDSDataStore.py:97-103 | every collected name is a layer id |
| LDSDataStore.FetchLayerNames | LDSIncremental/LDSReader/LDSDataStore.py:93-103 | the loop collects the finds of each line in line order, equal to NamesIn of the lines, all layer ids |
| LDSDataStore.LdsSource.constructor | LDSIncremental/LDSReader/LDSDataStore.py:25-33 | a fresh source holds the connection string and configuration, with no incremental flag and nothing read |
| LDSDataStore.LdsSource.SetFilter | LDSIncremental/LDSReader/TransferProcessor.py:213 | sets the filter and nothing else |
| LDSDataStore.LdsSource.SetIncremental | LDSIncremental/LDSReader/TransferProcessor.py:216 | sets the incremental flag and nothing else |
| LDSDataStore.LdsSource.Read | LDSIncremental/LDSReader/LDSDataStore.py:107-110 | the data source becomes the address read, and the read is logged |
| LDSDataStore.LdsSource.GetCapabilitiesIsQuery | LDSIncremental/LDSReader/LDSDataStore.py:37-43 | a connection string is answered as is; otherwise `url+key+/wfs` queried with service=WFS, the version and request=GetCapabilities |
| LDSDataStore.LdsSource.BuildCQLStr | LDSIncremental/LDSReader/LDSDataStore.py:84-91 | no filter gives the empty string; a filter gives checkCQL of it, appended with no separator |
| LDSDataStore.LdsSource.SourceURI | LDSIncremental/LDSReader/LDSDataStore.py:46-55 | a connection string is answered as is; otherwise TypeError exactly when no layer is given |
| LDSDataStore.LdsSource.SourceURIIncr | LDSIncremental/LDSReader/LDSDataStore.py:58-68 | a connection string is answered as is; otherwise TypeError exactly when no layer is given |
| LDSDataStore.LdsSource.SourceURIIncrd | LDSIncremental/LDSReader/LDSDataStore.py:70-81 | a connection string is answered as is; otherwise TypeError exactly when the layer or a date is missing |
| LDSDataStore.LdsSource.TypedRequestIsQuery | LDSIncremental/LDSReader/LDSDataStore.py:53 | the common head is `url+key+<path>` queried with service, version, request=GetFeature and typeName (see also lines 66, 79) |
| LDSDataStore.LdsSource.SourceURIIsQuery | LDSIncremental/LDSReader/LDSDataStore.py:50-55 | the feature address is that query plus outputFormat, followed by the filter suffix |
| LDSDataStore.LdsSource.SourceURIIncrIsQuery | LDSIncremental/LDSReader/LDSDataStore.py:62-68 | the changeset address uses `<split layer>-changeset/wfs` and typeName `<layer>-changeset` |
| LDSDataStore.LdsSource.SourceURIIncrdIsQuery | LDSIncremental/LDSReader/LDSDataStore.py:74-81 | the dated changeset address adds `viewparams=from:<f>;to:<t>` before outputFormat |
| PostgreSQLDataStore.ValidateConnStr | LDSIncremental/LDSReader/PostgreSQLDataStore.py:65-78 | accepts exactly a `PG:` string (any case) holding `dbname='\S+'`, `host='\S+'` and `port='\d+'`; each rejection names the first missing part in the code's order; an accepted string only loses quote characters and never grows |
| PostgreSQLDataStore.SubSchemaOnlyDropsQuotes | LDSIncremental/LDSReader/PostgreSQLDataStore.py:77-78 | the active_schema rewrite changes nothing but quote characters |
| PostgreSQLDataStore.SubSchemaIdentity | LDSIncremental/LDSReader/PostgreSQLDataStore.py:78 | a string without `active_schema='` is left unchanged |
| PostgreSQLDataStore.SubSchemaUnquotes | LDSIncremental/LDSReader/PostgreSQLDataStore.py:78 | `active_schema='<value>'` followed by white space or the end loses both quotes |
| PostgreSQLDataStore.Part | LDSIncremental/LDSReader/PostgreSQLDataStore.py:87-91 | a parameter is written as ` name'value'` unless it is missing or only white space, in which case it is omitted |
| PostgreSQLDataStore.PgStore.constructor | LDSIncremental/LDSReader/PostgreSQLDataStore.py:54 | the store holds host, port, dbname, schema, user and password |
| PostgreSQLDataStore.PgStore.CommonURI | LDSIncremental/LDSReader/PostgreSQLDataStore.py:82-94 | a connection string is checked and rewritten by validateConnStr; otherwise the result is `PG:dbname='<dbname>'` (a missing name shown as None) followed by the host, port, user, password and active_schema parts in that order, each left out when its value is None or only white space |
| PostgreSQLDataStore.PgStore.DestinationURI | LDSIncremental/LDSReader/PostgreSQLDataStore.py:57-63 | the destination and source addresses are the same |
| PostgreSQLDataStore.PgStore.BuiltHasDbName | LDSIncremental/LDSReader/PostgreSQLDataStore.py:92 | a non-blank database name is found by the dbname check |
| PostgreSQLDataStore.PgStore.BuiltHasHost | LDSIncremental/LDSReader/PostgreSQLDataStore.py:90-92 | a host without white space is found by the host check |
| PostgreSQLDataStore.PgStore.BuiltHasPort | LDSIncremental/LDSReader/PostgreSQLDataStore.py:91-92 | an all-digit port is found by the port check |
| PostgreSQLDataStore.PgStore.BuiltStringValidates | LDSIncremental/LDSReader/PostgreSQLDataStore.py:65-92 | a string the store builds from such parameters passes its own validateConnStr |
| ConfigWrapper.SectionOf | LDSIncremental/LDSReader/ConfigWrapper.py:141-162 | exactly PostgreSQL, MSSQLSpatial, FileGDB, SQLite and WFS have a section; SQLite reads the SpatiaLite section and MSSQLSpatial the MSSQL one |
| ConfigWrapper.Merge | LDSIncremental/LDSReader/ConfigWrapper.py:164 | as long as the longer list; position i is the user value unless it is None (an empty string still wins), else the main value, with None past a list's end |
| ConfigWrapper.MergeWithoutUser | LDSIncremental/LDSReader/ConfigWrapper.py:139 | with no user list the merge is the main list (see also line 164) |
| ConfigWrapper.MergeIdempotent | LDSIncremental/LDSReader/ConfigWrapper.py:164 | merging a list over itself changes nothing |
| ConfigWrapper.MergeAssociative | LDSIncremental/LDSReader/ConfigWrapper.py:164 | overrides stack: merging a over (b over c) equals (a over b) over c |
| ConfigWrapper.FullUserOverrides | LDSIncremental/LDSReader/ConfigWrapper.py:164 | a user list with every position present, at least as long as the main list, replaces it |
| ConfigWrapper.ConfigWrapper.constructor | LDSIncremental/LDSReader/ConfigWrapper.py:28-47 | the main reader is `../ldsincr.conf`; a user reader `../<file>` exists exactly when a file is named; no layer reader is set |
| ConfigWrapper.ConfigWrapper.SetupMainConfig | LDSIncremental/LDSReader/ConfigWrapper.py:41-47 | the user reader is reset to `../<file>` or to none, the main reader is `../ldsincr.conf`, and the layer reader is untouched |
| ConfigWrapper.ConfigWrapper.SetupLayerConfig | LDSIncremental/LDSReader/ConfigWrapper.py:50-52 | sets the layer reader and nothing else |
| ConfigWrapper.ConfigWrapper.ReadDSParameters | LDSIncremental/LDSReader/ConfigWrapper.py:137-167 | None exactly for an unrecognised driver; with no user file, the main section unchanged; with one, position by position the user value unless None, else the main value |
| Text.LStrip | LDSIncremental/LDSReader/TransferProcessor.py:132 | drops the longest leading run of characters from the set and keeps the rest in order; the first kept character is outside the set |
| TransferProcessor.LaterIsStrictOrder | LDSIncremental/LDSReader/TransferProcessor.py:215 | the date comparison is a strict order |
| TransferProcessor.MiddleFieldRanksBelowDay | LDSIncremental/LDSReader/TransferProcessor.py:215 | in the same year, a later day wins over an earlier day even when its middle field is smaller |
| TransferProcessor.Precedence | LDSIncremental/LDSReader/TransferProcessor.py:225-232 | a command-line filter wins, even an empty one; then a non-empty configured filter; then a non-empty layer filter; else none; an empty result can only come from the command line |
| TransferProcessor.PrecedenceSticks | LDSIncremental/LDSReader/TransferProcessor.py:213-232 | once a filter is chosen, choosing again with it as the configured filter keeps it, whatever the next layer's filter is |
| TransferProcessor.StripLayerId | LDSIncremental/LDSReader/TransferProcessor.py:132 | for a layer id `v:xN`, lstrip('v:x') leaves exactly the digits N |
| TransferProcessor.StrippedInsert | LDSIncremental/LDSReader/TransferProcessor.py:132 | the stripped names of a set with one more name add that name's stripped form |
| TransferProcessor.WorkingLayers | LDSIncremental/LDSReader/TransferProcessor.py:132 | one entry per name in both lists, and the entries are exactly the stripped forms of those shared names |
| TransferProcessor.StrippedLayerIds | LDSIncremental/LDSReader/TransferProcessor.py:128-132 | for layer ids, y is a stripped name exactly when `v:x`+y is in the set |
| TransferProcessor.StampOf | LDSIncremental/LDSReader/TransferProcessor.py:202 | the last-modified date of a layer is its watermark, or the destination's default when it has none |
| TransferProcessor.Destination.constructor | LDSIncremental/LDSReader/TransferProcessor.py:124-130 | a destination holds its configured layers, filters, addresses, clock and watermarks, with an empty log |
| TransferProcessor.Destination.GetCurrent | LDSIncremental/LDSReader/TransferProcessor.py:188-203 | answers the clock at the number of logged events and logs the reading |
| TransferProcessor.Destination.Write | LDSIncremental/LDSReader/TransferProcessor.py:186 | logs a write of the source's data set to the address, and changes no watermark (see also line 218) |
| TransferProcessor.Destination.SetLastModified | LDSIncremental/LDSReader/TransferProcessor.py:188 | sets the layer's watermark, keeps the others, and logs the mark (see also line 219) |
| TransferProcessor.SameExceptCompose | LDSIncremental/LDSReader/TransferProcessor.py:178-195 | changes confined to two layer lists, one after the other, are confined to their concatenation |
| TransferProcessor.WriteCountAppend | LDSIncremental/LDSReader/TransferProcessor.py:186 | the writes of two logs add up (see also line 218) |
| TransferProcessor.ModeOf | LDSIncremental/LDSReader/TransferProcessor.py:158-168 | full replication exactly when a date is 'ALL'; automatic exactly when neither is and one is missing; date range exactly when both are given and neither is 'ALL' |
| TransferProcessor.Processor.constructor | LDSIncremental/LDSReader/TransferProcessor.py:42-69 | the processor holds the layer, dates, source string and filter as given, with no datastores yet |
| TransferProcessor.Processor.Checked | LDSIncremental/LDSReader/TransferProcessor.py:139-154 | accepts exactly well-formed given dates and an accepted layer; a bad to-date is reported before a bad from-date, which is reported before the layer |
| TransferProcessor.Processor.DefinedIncremental | LDSIncremental/LDSReader/TransferProcessor.py:208-222 | the new source and destination state and the result are those of DefinedStep |
| TransferProcessor.Processor.AutoIncrementLayer | LDSIncremental/LDSReader/TransferProcessor.py:200-205 | the new state and the result are those of AutoStep |
| TransferProcessor.Processor.FullReplicateLayer | LDSIncremental/LDSReader/TransferProcessor.py:184-188 | the new state is that of FullStep |
| TransferProcessor.Processor.FullReplicate | LDSIncremental/LDSReader/TransferProcessor.py:174-181 | 'ALL' replicates every working layer in order; any other name replicates that layer |
| TransferProcessor.Processor.AutoIncrement | LDSIncremental/LDSReader/TransferProcessor.py:192-197 | 'ALL' runs the automatic step on each working layer in order, stopping at the first error; any other name runs it once |
| TransferProcessor.Processor.AutoAllStops | LDSIncremental/LDSReader/TransferProcessor.py:194-195 | once a layer fails, the later layers change nothing |
| TransferProcessor.Processor.ProcessLDS | LDSIncremental/LDSReader/TransferProcessor.py:107-168 | a fresh source on the given string; one working layer per shared name, and y is one exactly when `v:x`+y is advertised and configured; rejected inputs fail with the validation error and leave the destination untouched; otherwise the run is the dispatch of the checked inputs |
| TransferProcessor.Processor.DefinedStepEffect | LDSIncremental/LDSReader/TransferProcessor.py:208-222 | the filter is set by precedence first; the step fails exactly when a date cannot be parsed; when the to-date is later, one read and a write to the layer's address are followed by a mark that moves only that layer's watermark to the to-date; otherwise nothing but the filter changes; success answers the to-date |
| TransferProcessor.Processor.NoEarlierTransitive | LDSIncremental/LDSReader/TransferProcessor.py:215 | "not earlier" between watermarks chains |
| TransferProcessor.Processor.AutoStepMovesForward | LDSIncremental/LDSReader/TransferProcessor.py:200-219 | an automatic step changes at most that layer's watermark, and never moves it to an earlier date |
| TransferProcessor.Processor.AutoStepBalanced | LDSIncremental/LDSReader/TransferProcessor.py:200-218 | an automatic step only extends the log, and each read is matched by one write |
| TransferProcessor.Processor.AutoAllMovesForward | LDSIncremental/LDSReader/TransferProcessor.py:192-197 | an automatic run over layers changes only their watermarks and moves none of them backward |
| TransferProcessor.Processor.AutoAllBalanced | LDSIncremental/LDSReader/TransferProcessor.py:192-197 | an automatic run only extends the log, with as many writes as reads |
| TransferProcessor.Processor.FullStepEffect | LDSIncremental/LDSReader/TransferProcessor.py:184-188 | a full step reads the layer's source address, writes it to the layer's destination, then takes the destination's current time after the write and sets that layer's watermark, and only that one, to it; the log grows by exactly the write, the reading and the mark, in that order; the filter is left alone |
| TransferProcessor.Processor.FullAllStamps | LDSIncremental/LDSReader/TransferProcessor.py:174-181 | after a full run every listed layer has a watermark that is a clock reading taken during the run, and no other watermark changed |
| TransferProcessor.Processor.FullAllCounts | LDSIncremental/LDSReader/TransferProcessor.py:174-181 | a full run reads and writes once per listed layer and leaves the filter |
| TransferProcessor.Processor.AutoAllKeepsFilter | LDSIncremental/LDSReader/TransferProcessor.py:194-213 | once a filter that precedence keeps is in place, an automatic run over any layers keeps it |
| TransferProcessor.Processor.DispatchTouches | LDSIncremental/LDSReader/TransferProcessor.py:158-181 | a run changes only the watermarks of the working layers when the layer is 'ALL' in full or automatic mode, and otherwise only the named layer's, 'ALL' included in date-range mode (see also lines 192-197) |

## Left out

- Network, file and driver I/O. `urlopen` is the `fetch` parameter, a function from the
  capabilities address to its lines. `driver.Open` is recorded as the data source read. A
  destination write is a logged event. The configuration readers' section contents are the
  `contents` parameter of `ConfigWrapper.ConfigWrapper`.
- `datetime.strptime` is the `strptime` parameter; a `None` answer stands for its ValueError.
  Calendar validation of dates is not modelled, only the (year, day, middle-field) order.
- `getCurrent` is the destination's `clock`, read at the number of events logged so far.
  `getLastModified` for a layer without a watermark answers the destination's `never` value.
  The abstract DataStore holding these is not part of this model.
- Logging, including the reference to `self.ldslog` at
  LDSIncremental/LDSReader/TransferProcessor.py:70. That attribute does not exist, so the
  Python constructor raises when a CQL string is given; the model constructs normally.
- `layer is 'ALL'` is modelled as string equality. Python's identity test depends on string
  interning.
- TransferProcessor.Processor.Checked: `checkLayerName` is assumed to reject a missing layer.
  The model reports a missing layer as the layer error rather than calling the helper with None.
- The TypeError of Python's `+` on None is modelled for the URI builders' optional arguments.
  Other None misuse (None passed where the code never checks) is excluded by the types.
- `destination_str` and the `processLDS2*` wrappers only construct concrete datastores.
- `getLayerNames` of ConfigWrapper forwards to the layer-file reader, which is not part of
  this model.
- `buildIndex` and `versionCheck` of PostgreSQLDataStore run SQL, and `gdal.SetConfigOption`
  is a driver call.
- ProjectionReference and ESRIDataStore are OSR foreign calls. The two `ldsreplicate.py`
  command-line scripts are argument parsing and process exit.
- LDSUtilities (checkCQL, splitLayerName, getLayerNameFromURL, checkDateFormat, checkLayerName,
  cropChangeset) is not part of this model. Its functions are parameters, so no property depends
  on what they compute.
- The order of `set(...)` iteration in the working layer list is not fixed by Python.
  `WorkingLayers` states its contents and length, not its order.
- RequestBuilder.RequestBuilder.DatesMatch: the date is a regular expression in
  `re.search('from:'+fromdate[:10], valid)`. The model gives `.` its wildcard meaning and
  reads every other character literally. A date holding another metacharacter (`*`, `+`, `?`,
  `(`, `[`, `\`, `^`, `$`, `|`, `{`) is compared literally, where the code interprets it or
  raises `re.error`.
