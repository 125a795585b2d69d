# openbymadata, modelled in Dafny

openbymadata is a Go client for the free market-data API of BYMA, the Buenos
Aires stock exchange. This project models its core: the five-minute
freshness cache, the cache-first accessors, the lookup helpers, the error
classification tables, the retry policy, the OHLCV zip and the JSON field
getters. It then proves what each promises.

Modules follow the source files:

- `Types` is `types.go`: errors, the HTTP status table, the retry rule and the default options.
- `Format` renders and parses decimal integers, the part of `%d` that error messages use.
- `Entities` is `internal/api/types.go`: each entity is reduced to its symbol plus an opaque payload.
- `Helpers` is `internal/helpers/securities.go`: the find, batch and search helpers, and ASCII lower-casing and substring search.
- `Cache` is `internal/cache/cache.go`: a class with one slot field per bulk collection and a map of income-statement slots.
- `Api` is `internal/api/client.go`: the `doRequest` retry loop, the status check of `makeRequest`, `buildURL` and `applyDictionary`.
- `History` is `ConvertToHistoricalData` in `internal/api/history.go`.
- `Conversion` is `internal/utils/conversion.go`, over a JSON value datatype.
- `Fetchers` stands for the per-endpoint fetchers. It is an oracle that answers the n-th request for an endpoint with `respond(endpoint, n)` and logs every request.
- `OpenBymaData` is `client.go`: the option merge of `NewClient`, and the `Client` class with its cache-first accessors and composite lookups.

The clock is an explicit `now` parameter in nanoseconds. The sleep between
retries is recorded in a list of waits instead of being slept.

The eleven `GetX`/`SetX` pairs of the cache are textually identical. They
are modelled by one `Get(c)` and one `Set(c)` indexed by a `Category`. The
eleven cached bulk accessors of `client.go` are likewise modelled by one
`Client.GetCollection(c)`.

The composite lookups each call three accessors in a row. In the model that
sequence is factored into `Client.FetchThree`, which calls `GetCollection`
for the first collection and `Client.FetchTwo` for the other two.

The client's state is also described as a value, `OpenBymaData.World`: the
cache's contents as a `Cache.Snapshot` (None when caching is off), how many
times each endpoint has been requested, and how the exchange answers.
`World.Step(c, now)` is the state an accessor call leaves: a hit changes
nothing; a miss makes one request and stores a success stamped `now`; an
error stores nothing. `World.StepThree` chains three such calls and stops
at the first error. One call reads the clock once: the freshness check,
the store's timestamp and all three accessors of a composite use that
single `now` (see "## Left out"). Every accessor and composite lookup of `Client` ensures
that its new state is the corresponding step of its old state. The lemmas
about steps then give what the calls leave in the cache and what a later
call will find there.

Search matches a contiguous, case-insensitive piece of the symbol.
Searching "APP" among the cedears AAPL and AAP finds neither
(`Helpers.SearchNoMatchExample`), and searching "aap" finds both
(`Helpers.SearchExample`).

The documentation of GetSecurity (client.go:577-585) shows a caller
checking for a BYMAError with code INVALID_TICKER when a symbol is
unknown. The code returns a plain formatted message instead
(internal/helpers/securities.go:32). The model follows the code, and
`OpenBymaData.SecurityNotFoundIsText` states it.

## Model

| member | source | states |
|---|---|---|
| Format.NatToString | types.go:241-242 | The decimal text of a number is non-empty, all digits, without a leading zero |
| Format.IntToString | types.go:241-242 | The decimal text starts with '-' exactly for negative numbers |
| Format.NatToStringRoundTrip | types.go:241-242 | Parsing the decimal text of n gives back n |
| Format.IntToStringInjective | types.go:241-242 | Different status codes have different decimal texts |
| Types.BymaErrorText | types.go:190-195 | Without an underlying error the text is code + ": " + message; with one, that text is a strict prefix |
| Types.WithUnderlying | types.go:203-210 | The copy differs from the receiver only in Underlying |
| Types.WithStatusCode | types.go:213-220 | The copy differs from the receiver only in StatusCode |
| Types.NewBymaError | types.go:223-228 | The new error has the given code and message, status 0 and no underlying error |
| Types.MapHTTPError | types.go:231-244 | 401 gives UNAUTHORIZED "Unauthorized access", 429 RATE_LIMITED "Rate limit exceeded", 500/502/503 API_UNAVAILABLE "BYMA API is unavailable", 408 TIMEOUT "Request timeout", anything else HTTP_ERROR "HTTP error <code>"; StatusCode is always the input and there is no underlying error |
| Types.IsRetryable | types.go:247-257 | Only a BYMAError itself can be retryable; TIMEOUT, API_UNAVAILABLE and RATE_LIMITED always are; HTTP_ERROR is iff its status is >= 500; every other code never is |
| Types.MapHTTPErrorRetryable | types.go:231-257 | The error of status c is retryable iff c is 408 or 429 or c >= 500 |
| Types.ErrorExamples | client_test.go:243-297 | The unit test's cases: INVALID_RESPONSE is not retryable, API_UNAVAILABLE with an underlying error and TIMEOUT with status 408 are, and 404 maps to HTTP_ERROR with status 404 |
| Types.DefaultClientOptions | types.go:147-156 | BaseURL https://open.bymadata.com.ar, Timeout 30 s, RetryAttempts 3, the no-op logger, no HTTP client, EnableCache true |
| Helpers.FirstIndex | internal/helpers/securities.go:36-43 | The index found carries the symbol and no lower index does; None iff no record carries it |
| Helpers.FindIn | internal/helpers/securities.go:36-43 | Success iff some record carries the symbol; then the first such record is returned; otherwise "<kind> <symbol> not found" |
| Helpers.IndexOfSymbol | internal/helpers/securities.go:37-41 | The early-return index loop finds exactly the first matching index |
| Helpers.FindSecurityInCollection | internal/helpers/securities.go:36-43 | The lowest-index security with the symbol, or "security <symbol> not found" |
| Helpers.FindOptionBySymbol | internal/helpers/securities.go:72-79 | The lowest-index option with the symbol, or "option <symbol> not found" |
| Helpers.FindFutureBySymbol | internal/helpers/securities.go:82-89 | The lowest-index future with the symbol, or "future <symbol> not found" |
| Helpers.FirstIndexAppend | internal/helpers/securities.go:10-33 | The first match in a ++ b is the first match in a, else the first in b shifted by \|a\| |
| Helpers.FindFirstOfIsFindInConcat | internal/helpers/securities.go:10-33 | Searching three collections in priority order equals searching their concatenation |
| Helpers.FirstCollectionWins | internal/helpers/securities.go:10-33 | A symbol present in the first collection is always answered from it |
| Helpers.FindSecurityBySymbol | internal/helpers/securities.go:10-33 | The bluechip, else the cedear, else the galpone with the symbol, or "security <symbol> not found" |
| Helpers.FindBondBySymbol | internal/helpers/securities.go:46-69 | The same priority over bonds, short-term bonds and corporate bonds, or "bond <symbol> not found" |
| Helpers.LastIndex | internal/helpers/securities.go:97-99 | The index found carries the symbol and no higher index does; None iff no record carries it |
| Helpers.SymbolMapEntry | internal/helpers/securities.go:97-99 | A symbol is a key of a lookup map iff some record carries it, and it maps to the last such record |
| Helpers.HasSymbolLastIndex | internal/helpers/securities.go:97-99 | A symbol occurs in a collection iff it has a last index there |
| Helpers.HasSymbolConcat | internal/helpers/securities.go:112-120 | A symbol occurs in the concatenation iff it occurs in one of the three collections |
| Helpers.Batch | internal/helpers/securities.go:112-121 | Keys are exactly the requested symbols found in some map; each value comes from the bluechip map, else the cedear map, else the galpone map |
| Helpers.BatchSnoc | internal/helpers/securities.go:112-121 | One more requested symbol adds at most its own entry |
| Helpers.MultipleSecuritiesKeys | internal/helpers/securities.go:92-124 | A symbol is in the result iff it was requested and occurs in one of the collections; unfound symbols are left out |
| Helpers.MultipleSecuritiesPriority | internal/helpers/securities.go:112-120 | A bluechip beats a cedear, which beats a galpone, and within a collection the last duplicate wins |
| Helpers.DuplicateHandlingDiffers | internal/helpers/securities.go:97-99 | With a duplicated symbol the batch map keeps the later record while FindSecurityInCollection keeps the first |
| Helpers.BuildSymbolMap | internal/helpers/securities.go:96-99 | The fill loop builds exactly the lookup map |
| Helpers.GetMultipleSecurities | internal/helpers/securities.go:92-124 | The loops build exactly the batch result |
| Helpers.LowerIdempotent | internal/helpers/securities.go:170-180 | Lower-casing twice is lower-casing once |
| Helpers.ToLower | internal/helpers/securities.go:170-180 | Same length; 'A'..'Z' become lower case and every other character is unchanged |
| Helpers.SimpleContains | internal/helpers/securities.go:183-203 | True iff some i in 0..\|s\|-\|substr\| has s[i..i+\|substr\|] == substr |
| Helpers.StringContains | internal/helpers/securities.go:163-167 | True iff the lower-cased text occurs in the lower-cased symbol |
| Helpers.Contains | internal/helpers/securities.go:155-160 | Case-insensitive occurrence; always true for the empty text, false when the text is longer than the symbol |
| Helpers.OccursNeedsRoom | internal/helpers/securities.go:183-203 | A text longer than the symbol never occurs in it |
| Helpers.EmptyTextMatches | internal/helpers/securities.go:155-160 | The empty text matches every symbol |
| Helpers.MatchesTextIgnoresCase | internal/helpers/securities.go:155-167 | Changing ASCII case in the symbol or the text does not change the match |
| Helpers.Matching | internal/helpers/securities.go:130-135 | The filtered collection is no longer than the collection |
| Helpers.MatchingMembers | internal/helpers/securities.go:130-135 | A record is kept iff it is in the collection and its symbol matches |
| Helpers.MatchingAppend | internal/helpers/securities.go:127-152 | Filtering distributes over concatenation |
| Helpers.SearchIsMatchingOfConcat | internal/helpers/securities.go:127-152 | The search result is the matching records of bluechips ++ cedears ++ galpones, in order, and no longer than the three together |
| Helpers.MatchingAll | internal/helpers/securities.go:127-152 | A collection whose every symbol matches is kept whole |
| Helpers.EmptySearchReturnsAll | internal/helpers/securities.go:127-152 | The empty text returns bluechips, then cedears, then galpones |
| Helpers.SearchExample | internal/helpers/securities.go:155-167 | Searching "aap" among the cedears AAPL and AAP returns both, in order |
| Helpers.SearchNoMatchExample | internal/helpers/securities.go:155-167 | Searching "APP" among AAPL and AAP returns nothing |
| Helpers.AppendMatching | internal/helpers/securities.go:130-135 | One append loop adds exactly the matching records, in order |
| Helpers.SearchSecurities | internal/helpers/securities.go:127-152 | The three loops build exactly the search result |
| Cache.Cache.constructor | internal/cache/cache.go:74-79 | New: every slot and the income map empty, duration five minutes |
| Cache.Snapshot.Put | internal/cache/cache.go:98-106 | Storing a slot for one collection makes it that collection's slot and leaves the others, the income statements and the duration as they were |
| Cache.Cache.IsFresh | internal/cache/cache.go:82-84 | Fresh iff now is before timestamp + duration; a timestamp fresh now was fresh at every earlier time |
| Cache.Cache.Get | internal/cache/cache.go:87-95 | Found iff the slot exists and now - timestamp < duration; absent and stale slots both give no data; nothing changes |
| Cache.Cache.Set | internal/cache/cache.go:98-106 | The contents become the old contents with the slot (data, now) put in: every other slot and the income map are unchanged; Get returns data on [now, now + duration) and nothing after |
| Cache.Cache.GetIncomeStatement | internal/cache/cache.go:329-337 | The same freshness rule on the slot of exactly this ticker |
| Cache.Cache.SetIncomeStatement | internal/cache/cache.go:340-348 | Only this ticker's slot changes; other tickers and every bulk slot read as before |
| Cache.Cache.Describe | internal/cache/cache.go:355-363 | count = number of records, age = now - timestamp, fresh by the Get rule |
| Cache.Cache.GetInfo | internal/cache/cache.go:351-385 | Keys only among bluechips, cedears and galpones, each present iff its slot exists (stale or not), described by Describe; fresh iff Get would find it |
| Cache.Cache.Clear | internal/cache/cache.go:388-404 | Every slot and the income map are empty, so every Get misses; clearing an empty cache changes nothing |
| Api.MakeRequest | internal/api/client.go:226-268 | Success iff a response arrived with status in [200, 300) and a readable body, which is returned; other statuses give "HTTP error <status>" |
| Api.ApiClient.BuildURL | internal/api/client.go:271-273 | Base URL, then /vanoms-be-core/rest/api/bymadata/free/, then the endpoint |
| Api.BuildURLInjective | internal/api/client.go:271-273 | Different endpoints give different URLs |
| Api.ApiClient.ApplyDictionary | internal/api/client.go:309-321 | The translation when the dictionary has one, else the symbol itself |
| Api.ApplyDictionaryIdentity | internal/api/client.go:309-321 | A nil or empty dictionary leaves every symbol unchanged |
| Api.IsRetryableAttempt | internal/api/client.go:324-327 | Every error is retried |
| Api.DoRequest | internal/api/client.go:196-223 | At most retryAttempts + 1 attempts; the first success is returned at once; before attempt k >= 1 the wait is k seconds; after retryAttempts + 1 failures the error is "request failed after <n> attempts" wrapping the last failure |
| History.Unzip | internal/api/history.go:98-106 | Not a source function: the reference inverse of ConvertToHistoricalData, splitting bars into the six OHLCV arrays (the struct at the cited lines), all of one length |
| History.ConvertToHistoricalData | internal/api/history.go:74-96 | Error iff some array's length differs from Time's; otherwise one bar per index made of the i-th elements, and unzipping the bars gives the input back |
| History.ZipUnzips | internal/api/history.go:84-93 | Bars built index by index unzip to the original arrays |
| History.UnzipZips | internal/api/history.go:85-92 | Bar i is made of the i-th elements of the unzipped arrays |
| Conversion.GetString | internal/utils/conversion.go:8-15 | The string held under the key, else "" |
| Conversion.GetFloat64 | internal/utils/conversion.go:18-32 | A float is returned as is, an integer converted, and 0 for an absent key or a non-numeric value |
| Conversion.TruncateTowardZero | internal/utils/conversion.go:42-45 | Go's float-to-integer conversion drops the fraction toward zero |
| Conversion.GetInt64 | internal/utils/conversion.go:35-49 | An integer is returned unchanged, a float truncated toward zero, and 0 for an absent key or a non-numeric value |
| Conversion.GetTime | internal/utils/conversion.go:52-72 | The parsed time of a string value, and the zero time for an absent key, a non-string value or an unparsable string |
| Fetchers.Upstream.Fetch | client.go:284-287 | One request: the oracle's next answer for the endpoint, counted once and logged |
| OpenBymaData.MergeOptions | client.go:153-169 | No options or a nil option give the defaults; the result always has EnableCache true and no HTTP client |
| OpenBymaData.MergeOptionsFieldRule | client.go:155-169 | BaseURL, Timeout, RetryAttempts and Logger are taken from the caller exactly when non-empty, positive or non-nil |
| OpenBymaData.MergedOptionsUsable | client.go:155-169 | Merged options always have a URL, a positive timeout and retry count, and a logger |
| OpenBymaData.EnableCacheNeverRead | client.go:155-169 | Options that differ only in EnableCache merge to the same result |
| OpenBymaData.Gather | client.go:591-609 | All three collections when every call succeeded, else the first error in call order |
| OpenBymaData.Client.constructor | client.go:153-189 | NewClient: the merged URL, timeout and retries, and a new, empty cache is always created |
| OpenBymaData.Client.GetCollection | client.go:277-294 | Returns the cached slice on a hit, else the upstream's answer; requests only on a miss; the new state is the old state's Step |
| OpenBymaData.Client.GetIncomeStatement | client.go:536-553 | The same hit, miss and error rule on the slot of this ticker; the new state is the old state's StepIncome |
| OpenBymaData.Client.FetchThree | client.go:591-606 | The three collections or the first error, with requests only for misses, in order, none after the first error; the new state is StepThree of the old |
| OpenBymaData.Client.FetchTwo | client.go:597-606 | The same for the second and third collections; the new state is StepTwo of the old |
| OpenBymaData.Client.GetSecurity | client.go:591-609 | The first error of bluechips, cedears, galpones, else FindSecurityBySymbol on them; the new state is StepThree of the old |
| OpenBymaData.Client.GetBond | client.go:671-688 | The first error of bonds, short-term bonds, corporate bonds, else FindBondBySymbol on them; the new state is StepThree of the old |
| OpenBymaData.Client.GetMultipleSecurities | client.go:760-778 | The first error of the three security collections, else the batch map over them; the new state is StepThree of the old |
| OpenBymaData.Client.SearchSecurities | client.go:781-798 | The first error of the three security collections, else the search result over them; the new state is StepThree of the old |
| OpenBymaData.Client.GetBluechip | client.go:612-619 | The bluechips' error, else the first bluechip with the symbol; the new state is the old state's Step for bluechips |
| OpenBymaData.Client.GetCedear | client.go:651-658 | The cedears' error, else the first cedear with the symbol; the new state is the old state's Step for cedears |
| OpenBymaData.Client.GetGalpone | client.go:661-668 | The galpones' error, else the first galpone with the symbol; the new state is the old state's Step for galpones |
| OpenBymaData.Client.GetOption | client.go:691-698 | The options' error, else the first option with the symbol; the new state is the old state's Step for options |
| OpenBymaData.Client.GetFuture | client.go:701-708 | The futures' error, else the first future with the symbol; the new state is the old state's Step for futures |
| OpenBymaData.Client.GetCacheInfo | client.go:841-846 | The cache's diagnostic map, or an empty map without a cache |
| OpenBymaData.Client.ClearCache | client.go:894-898 | Afterwards every accessor misses and goes to the upstream |
| OpenBymaData.StepOnHit | client.go:277-282 | A hit changes nothing and makes no request |
| OpenBymaData.StepSlots | client.go:277-294 | After an accessor call, its slot holds the answer stamped now after a successful miss and is unchanged after a hit or an error; every other slot, the income statements and the duration are untouched |
| OpenBymaData.StepFailureStoresNothing | client.go:284-287 | An error leaves the cache as it was |
| OpenBymaData.StepWithoutCache | client.go:277-294 | Without a cache every call requests, and no cache appears |
| OpenBymaData.StepFrame | client.go:277-294 | An accessor call for one collection does not change whether, or with what, any other endpoint is answered, at any time |
| OpenBymaData.SlotAfterFrame | client.go:277-294 | An accessor call for one collection leaves another collection's slot, answer and next slot as they were |
| OpenBymaData.StepKeepsFresh | client.go:277-294 | After a successful miss at now, every call in [now, now + duration) is a hit with the same data |
| OpenBymaData.StepSucceeds | client.go:277-294 | After a successful call, the same call at the same instant is a hit with the same answer |
| OpenBymaData.StepIncomeSlots | client.go:536-553 | GetIncomeStatement changes no bulk slot and no other ticker's entry, and stores a successful miss under its ticker |
| OpenBymaData.StepTwoSlots | client.go:597-606 | The slots the last two calls of a composite lookup leave; the third collection keeps its slot when the second fails |
| OpenBymaData.StepThreeSlots | client.go:589-609 | A composite lookup leaves each collection it reached as its accessor would, keeps the slots of collections after the first error, and touches no other slot or the income statements |
| OpenBymaData.StepThreeFresh | client.go:589-609 | After a successful composite lookup, all three collections are hits at the same instant, with the same collections and no request |
| OpenBymaData.StepThreeIdempotent | client.go:589-609 | Repeating a successful composite lookup at the same instant changes nothing |
| OpenBymaData.AllFreshChangesNothing | client.go:589-609 | With the three collections fresh a composite lookup leaves the state as it was |
| OpenBymaData.SecurityNotFoundIsText | internal/helpers/securities.go:32 | GetSecurity for a symbol in none of the collections fails with the plain message "security <symbol> not found", not with a BYMAError |
| OpenBymaData.NoRequestWhenAllFresh | client.go:591-609 | With the three collections fresh a composite lookup makes no request and cannot fail |
| OpenBymaData.FirstErrorShortCircuits | client.go:591-609 | When the first collection fails, only it is requested, its error is returned and the cache is as it was |
| OpenBymaData.NilCacheAlwaysRequests | client.go:277-294 | Without a cache a successful composite lookup requests all three collections |
| OpenBymaData.RepeatedCedearLookups | client.go:651-658 | Two cedear lookups within five minutes make at most one request once the collection was fetched |
| OpenBymaData.RepeatedSecurityLookups | client.go:589-609 | Two security lookups at the same instant: once the first has all three collections, the second makes no request and searches the same collections |

## Left out

- Concurrency: the read-write mutexes of the cache and the HTTP client are not modelled; every operation runs sequentially.
- Wall clock and sleeping: `time.Now`, `time.Since` and `time.Sleep` become the `now` parameter and the recorded waits.
- HTTP transport: building requests, headers, TLS, `initializeSession` and response logging are not modelled. An attempt is an abstract outcome, and the dictionary is a constructor parameter.
- JSON decoding: `parseAPIResponse` and every `json.Unmarshal` are not modelled. The per-endpoint fetchers, including the futures' price scaling, are the `Fetchers.Upstream` oracle.
- Entity fields: every entity is a symbol plus an opaque payload. News records have no symbol in the source; theirs is never read.
- `GetHistory` and `GetHistoryLastDays` are network I/O plus the clock, and they are not modelled. Neither are the history and working-day pass-throughs of `client.go`.
- `ParseTradeTime` is left out, because it falls back to the current time.
- Conversion.GetTime: the RFC 3339 and fallback layouts are one `parse` parameter; date parsing itself is not modelled.
- Conversion.GetFloat64: integers convert exactly; rounding above 2^53 is not modelled.
- Conversion.GetInt64: out-of-range floats, whose conversion Go leaves implementation-defined, are not modelled; float32 and float64 are both reals.
- History.ConvertToHistoricalData: prices are reals, because they are only carried through.
- Types.BymaErrorText: the text with an underlying error uses `%v` of an arbitrary error; only its prefix is stated.
- Logging: `loggerAdapter`, `NoOpLogger` and every log call are left out; a logger is only a value in the options.
- `context.Context` is accepted but never consulted by the source, so it is dropped.
- Strings are sequences of characters; the Go code works on bytes. For ASCII symbols the two agree.
- OpenBymaData.Client.constructor: a nil cache cannot come out of NewClient, since EnableCache is always true. The accessors still handle a nil cache as the source does.
- Aliasing: the cache's getters return the stored slice itself (internal/cache/cache.go:92, 114, 136 and the other getters), and the helpers return pointers into the caller's slices (`&bluechips[i]` at internal/helpers/securities.go:14, 39, 98). In the model Client.GetCollection, Helpers.FindSecurityInCollection and Helpers.GetMultipleSecurities return values, so a caller that mutates a returned record or slice, and thereby the cache, is not modelled.
- History.ConvertToHistoricalData: a nil *OHLCV is dereferenced and panics (internal/api/history.go:76); the model takes the OHLCV as a value, so that panic is not modelled.
- OpenBymaData.World.Step, OpenBymaData.Client.GetCollection and OpenBymaData.Client.FetchThree: one clock value per call. The freshness check, the store's timestamp and all three accessors of a composite lookup use the single `now` of the call. The source reads the clock again for each accessor's freshness check (internal/cache/cache.go:82-84, client.go:591-606), and stamps a stored slot with `time.Now()` after the fetch and its retries have returned (internal/cache/cache.go:104, client.go:284-291). So the model does not capture three effects: a slot's timestamp and age in GetCacheInfo being later by the fetch's duration; a slot expiring correspondingly later; and a slot going stale in the middle of a composite lookup, which in the source makes a later accessor miss and request again. The lemmas that speak of "the same instant" (StepSlots, StepThreeFresh, StepThreeIdempotent, RepeatedSecurityLookups) are about this single-clock model.
