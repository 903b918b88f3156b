# Air-quality reshaping proxy and in-memory feature list, modelled in Dafny

The repository holds two small Go HTTP services.

- `Redirect/airq.go` is a proxy for the Hong Kong AQHI feeds. A request with
  `data_type=data` fetches the page `past_24_pollutant.js`. The handler pulls
  out the JavaScript array assigned to `station_24_data` and keeps only the
  stations of a fixed coordinate table. It groups the records into one GeoJSON
  Feature per station, holding that station's measurements in arrival order.
  The flags `last` and `recent` trim every list to its last or its first
  element. A request with `data_type=repo` extracts the arrays `aqhi_report`
  and `aqhi_forecast` from `forecast_aqhi.js`; each of the two fails on its
  own. Every extracted array is cached raw in a temporary file named after
  its key, for 300 seconds.
- `Trial/trial.go` keeps a process-wide slice of GeoJSON features. It serves
  list, get, create, update and delete requests on it, addressed by index.

The model is split by concern:

- `results.dfy`: Option and Result.
- `encoding.dfy`: UTF-8 and the `%x` rendering that name cache files.
- `json.dfy`: decoded JSON values.
- `stations.dfy`: the coordinate table.
- `cache.dfy`: the file cache. It is a class whose map field is the
  directory.
- `extraction.dfy`: the regular-expression extraction, as a pure function on
  bytes.
- `fetch.dfy`: `fetchAndExtractJSON`.
- `reshape.dfy`: the grouping and trimming loops of `getData`, proved equal to
  a specification function.
- `handler.dfy`: `getData`, `getAQHIReportAndForecast` and `handleRequest`.
- `features.dfy`: the Trial feature list. It is a class with a `seq` field.

The request-level methods `FetchAndExtract`, `GetData`,
`GetReportAndForecast` and `HandleRequest` are proved to return, and to leave
in the cache, exactly what the pure functions `Fetched`, `DataOf`, `ReportOf`
and `Dispatch` give for the old cache and the inputs. The grouping and
trimming methods `GroupRecords` and `BuildCollection` change no state. They
are proved to return `Grouped` and `Reshaped` of their inputs. The
properties the services promise are lemmas about those functions. `Cache.Get`
is proved to agree with `Lookup`, and `Cache.Set` and the five `FeatureList`
methods state their new state directly in their postconditions.

The network, the JSON decoder, the clock and the outcome of reading a file
are inputs:

- `Env` holds the clock, whether reading a file succeeds, and the network's
  answer.
- `Parser` is the JSON decoder.

The handlers are parameterised by a `Config`: the three pages and the
coordinate table. `Handler.Live` holds the values in the Go source. The
proofs hold for every configuration, except that `ForecastIndependentOfReport`
needs the report and the forecast to use different cache keys.
`LiveKeysDistinct` proves that they do for `Live`.

Go's regular expression here has no `(?s)` flag, so `.` does not match a
newline. An array literal that spans several lines is therefore not found.

## Model

| member | source | states |
|---|---|---|
| Encoding.Utf8Char | Redirect/airq.go:43 | a character's UTF-8 encoding is 1 to 4 bytes. The first byte announces the length, and the others are continuation bytes. |
| Encoding.CodePointOfUtf8Char | Redirect/airq.go:43 | decoding a character's UTF-8 bytes gives the character back |
| Encoding.Utf8 | Redirect/airq.go:43 | a string's bytes are at least as many as its characters, and empty only for the empty string |
| Encoding.Utf8Injective | Redirect/airq.go:43 | different strings have different UTF-8 bytes |
| Encoding.Hex | Redirect/airq.go:43 | `%x` writes two lower-case hex digits per byte |
| Encoding.UnhexHex | Redirect/airq.go:43 | the hex rendering reads back to the original bytes |
| Encoding.HexInjective | Redirect/airq.go:43 | different byte strings have different hex renderings |
| TtlCache.FileNameInjective | Redirect/airq.go:43 | two keys share the file name `aqhi_cache_<hex>` only if they are equal |
| TtlCache.Cache.constructor | Redirect/airq.go:42-57 | the cache is whatever directory the process finds, including fresh files left by an earlier run |
| TtlCache.Cache.Get | Redirect/airq.go:42-52 | found if and only if the key's file exists, is strictly younger than `ttl` seconds and reads successfully. Then the data is the file's bytes; otherwise it is empty. The result agrees with `Lookup`. |
| TtlCache.Cache.Set | Redirect/airq.go:54-57 | the key's file now holds the data with the current time; no other file changes |
| TtlCache.SetThenGet | Redirect/airq.go:42-57 | a write is read back unchanged by a lookup within the TTL |
| TtlCache.ExpiredIsMiss | Redirect/airq.go:45 | an entry at least `ttl` seconds old is a miss |
| TtlCache.SetOtherKey | Redirect/airq.go:54-57 | writing one key leaves every other key's lookup unchanged |
| Extraction.FindClose | Redirect/airq.go:79-80 | finds the first `];` after the `[` that leaves a non-empty, newline-free body, or there is none |
| Extraction.Locate | Redirect/airq.go:79-80 | finds the leftmost start that has a match and the shortest match there, or says that no start matches |
| Extraction.Extract | Redirect/airq.go:79-84 | no capture if and only if nothing matches `var <name> = [.+?];`. Otherwise the capture lies between the literal prefix and `;` of the leftmost, shortest match. It is `[`, one or more newline-free bytes, `]`. |
| Extraction.CaptureShape | Redirect/airq.go:79 | every match captures `[`, at least one newline-free byte, `]` |
| Extraction.LeftmostShortestUnique | Redirect/airq.go:80 | the leftmost-shortest match is unique, so the capture is determined |
| Extraction.ExtractAssignment | Redirect/airq.go:79-80 | a single-line array assigned at the start of a body, with no `];` inside it, is extracted exactly as written |
| Extraction.EmptyArrayNotFound | Redirect/airq.go:79-84 | `var <name> = [];` is not found, because `.+?` needs at least one byte |
| FetchExtract.FetchAndExtract | Redirect/airq.go:59-94 | the result and the new cache are those of `Fetched`, the specification of the control flow |
| FetchExtract.HitSkipsNetwork | Redirect/airq.go:60-66 | a fresh entry that parses is returned from the cache whatever the network says, and the cache is unchanged |
| FetchExtract.UncachedTransportError | Redirect/airq.go:68-77 | with no usable entry, a failed GET or body read is returned as it is, and nothing is cached |
| FetchExtract.UncachedCapture | Redirect/airq.go:79-93 | with no usable entry, a capture that parses is returned, and the raw capture is cached under the key with the current time |
| FetchExtract.FailureWritesNothing | Redirect/airq.go:68-90 | every failed call leaves the cache as it was |
| FetchExtract.WriteIsRawCapture | Redirect/airq.go:86-93 | a success without the cache came from a body with a capture. The parse of that capture is returned, and the capture's own bytes are cached. |
| FetchExtract.MissingVariableScenario | Redirect/airq.go:79-84 | when no match exists and nothing is cached, the result is "variable not found" and the cache is unchanged |
| FetchExtract.SecondCallWithinTtl | Redirect/airq.go:59-94 | success is idempotent within 300 seconds: a second call returns the same array from the cache and leaves the cache alone |
| FetchExtract.FetchedIsLocal | Redirect/airq.go:60-61 | the result depends only on the key's own cache file |
| FetchExtract.FetchedTouchesOwnFile | Redirect/airq.go:92 | no file but the key's own changes |
| FetchExtract.CacheKeysCollide | Redirect/airq.go:60 | the key runs URL and name together, so different pairs can share an entry |
| Reshape.Flatten | Redirect/airq.go:104-105 | flattening well-shaped data yields only records that carry a string station name |
| Reshape.FlattenAppend | Redirect/airq.go:104-105 | flattening visits the outer items in order |
| Reshape.MeasureCopiesEightKeys | Redirect/airq.go:109-118 | a measurement has exactly the eight keys. Each one holds the record's value, or nil where the record lacks the key. |
| Reshape.ReadingsAbsent | Redirect/airq.go:120-121 | a station with no record has no readings |
| Reshape.ReadingsSnoc | Redirect/airq.go:134-137 | a record appends its measurement to its own station's list and to no other list |
| Reshape.ReadingsAppend | Redirect/airq.go:104-141 | each station's readings follow the record order across concatenation |
| Reshape.ReadingsMembers | Redirect/airq.go:104-141 | a measurement is in a station's list if and only if some record of that station produced it |
| Reshape.ReadingsCount | Redirect/airq.go:104-141 | a station's list holds one measurement per record of that station |
| Reshape.KnownSnoc | Redirect/airq.go:108 | a record adds its station to the output exactly when the table knows the station |
| Reshape.KnownIff | Redirect/airq.go:108 | a station is in the output if and only if the table knows it and some record names it |
| Reshape.GroupedSnocUnknown | Redirect/airq.go:108 | a record of an unknown station leaves the grouping as it was |
| Reshape.GroupedSnocNew | Redirect/airq.go:120-132 | a station's first record creates its feature with a singleton list |
| Reshape.GroupedSnocAppend | Redirect/airq.go:133-139 | a later record appends its measurement to that station's list |
| Reshape.UnknownStationIgnored | Redirect/airq.go:104-108 | adding a record of a station outside the table changes nothing in the output, and it is no error |
| Reshape.ReshapedShape | Redirect/airq.go:121-132 | every output key is a station of the table. Each feature has type "Feature", a Point at exactly the table's [longitude, latitude] and the station's own name. |
| Reshape.ReshapedFrom | Redirect/airq.go:144-147 | a map holding the trimmed feature of every known station is the collection's mapping |
| Reshape.TrimSingleton | Redirect/airq.go:149-159 | with a flag set, a non-empty list becomes one element: the last with `last`, otherwise the first |
| Reshape.TrimUnchanged | Redirect/airq.go:149-159 | without a flag, or on an empty list, the list is unchanged |
| Reshape.TrimLastWins | Redirect/airq.go:153-157 | `last` takes precedence over `recent` |
| Reshape.TrimIdempotent | Redirect/airq.go:149-159 | trimming twice is trimming once |
| Reshape.TrimThree | Redirect/airq.go:149-159 | [m0, m1, m2] becomes [m2] with `last`, [m0] with only `recent`, and stays as it is with neither |
| Reshape.AddRecords | Redirect/airq.go:105-141 | the inner loop extends the grouping of the records seen so far by one outer item's records |
| Reshape.GroupRecords | Redirect/airq.go:103-142 | the nested loops build the grouping of all flattened records |
| Reshape.TrimFeatures | Redirect/airq.go:149-160 | the trimming loop trims every station's list and keeps the other fields and the same stations |
| Reshape.BuildCollection | Redirect/airq.go:103-162 | grouping then trimming gives the `Reshaped` collection |
| Handler.GetData | Redirect/airq.go:96-163 | the result and the new cache are those of `DataOf`: the fetch's error, the reshaped collection, or the panic of a bad shape |
| Handler.GetReportAndForecast | Redirect/airq.go:165-185 | the two entries and the new cache are those of `ReportOf`. Each entry is its parsed array or its own "No match found for <name>." |
| Handler.HandleRequest | Redirect/airq.go:187-212 | the reply and the new cache are those of `Dispatch` |
| Handler.InvalidDataType | Redirect/airq.go:203-205 | any other `data_type` gets "Invalid data_type." and touches no cache file |
| Handler.BadFlagIsFalse | Redirect/airq.go:191-192 | an unparsable `last` or `recent` reads as false |
| Handler.DataReplies | Redirect/airq.go:197-209 | "data" replies with the fetch's error text, the panic of a bad shape, or the reshaped collection. Its stations all belong to the table. |
| Handler.LiveKeysDistinct | Redirect/airq.go:166-176 | the report and the forecast are cached under different keys |
| Handler.ForecastIndependentOfReport | Redirect/airq.go:165-181 | the forecast entry is the same however the report's fetch went |
| Handler.PartialFailure | Redirect/airq.go:167-181 | with nothing cached, a failed report fetch beside a forecast page that assigns a parsable single-line array gives the report's error object and that array |
| FeatureStore.FeatureList.constructor | Trial/trial.go:33-48 | the list starts as the single "Chek Lap Kok" feature |
| FeatureStore.FeatureList.GetFeatures | Trial/trial.go:61-68 | a "FeatureCollection" holding the current list in order |
| FeatureStore.FeatureList.GetFeature | Trial/trial.go:70-85 | 400 for an unparsable id. 404 when the id is outside `0 <= id < len`. Otherwise the feature at the id. |
| FeatureStore.FeatureList.CreateFeature | Trial/trial.go:87-104 | 400 on a decode failure, with the list unchanged. Otherwise the list grows by the decoded feature with geometry Point (113, 22), which is also the reply. The geometry invariant holds. |
| FeatureStore.FeatureList.UpdateFeature | Trial/trial.go:106-132 | checks in order: 400 for an id, 404, 400 for a body; each leaves the list unchanged. Otherwise only the id's entry changes, to the decoded feature with its old geometry, at the same length. |
| FeatureStore.FeatureList.DeleteFeature | Trial/trial.go:134-150 | 400, or 404, with the list unchanged. Otherwise 204: one element fewer, earlier elements kept and later ones shifted down one index. |

## Left out

- HTTP (gorilla/mux routing, headers, status lines, `ListenAndServe`) is not modelled. The upstream GET and body read are one input `Response`: a body or an error message.
- JSON decoding is the `Parser` input, and JSON encoding of replies is not modelled. Replies are datatypes (`Reply`, `Field`), not serialised bytes.
- `strconv.Atoi` and the Trial request decoder arrive as already-parsed `Result` inputs, because they are standard-library parsers.
- The temporary directory is a map from file name to (bytes, mtime). `os.TempDir`, file permissions and stat errors other than a missing file are not modelled. Write failures, which the source ignores, are not modelled either.
- Time is an integer nanosecond clock given per call. The `int64` overflow of `time.Duration` is not modelled, because it cannot occur for a TTL of 300 seconds.
- Logging of failed extractions and decodes is not modelled: it changes no state and no reply.
- Concurrency is not modelled. net/http runs handlers concurrently, so the cache files and the Trial slice race; the model runs calls one after another.
- Floating-point values (coordinates, temperatures, JSON numbers) are reals. They are only stored and copied.
- The type assertions of `getData` that panic on upstream data of the wrong shape give `Panicked`/`Aborted`. What net/http then does with the connection is not modelled.
- Go map iteration order is not modelled. The grouping result does not depend on it, and the trimming loop takes its keys in any order.
- The grouping and trimming loops of `getData` are three methods (`AddRecords`, `GroupRecords`, `TrimFeatures`) on immutable maps, not one function updating nested Go maps in place. Aliasing between `features` and `result` is not modelled, because `result` is only read after both loops.
- The URLs, variable names and coordinate table are a `Config` parameter in the handler proofs. `Handler.Live` gives the source's values.
- FeatureStore.FeatureList.DeleteFeature: the slice splice writes into the shared backing array. The model states the resulting sequence only, not aliasing with earlier slices.
