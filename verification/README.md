# trade: caching proxy and query builders, in Dafny

This project models two parts of the `trade` Go service.

The first part is the **caching reverse proxy** (`proxy/cache.go` and `proxy/server.go`).
- Every inbound request gets a content fingerprint: its method, then its request URI, then each header name followed by that name's values, then its body bytes.
- A cache maps fingerprints to (timestamp, response) entries. All entries share one timeout.
- `ServeHTTP` looks the request up.
  - A fresh entry is replayed.
  - A missing or stale entry is forwarded to the backend, the answer is upserted into the cache, and then it is relayed to the client.
  - Any other lookup error, which can only be an unreadable body, is answered with 502.

The second part is the **AQL query builder and URL parameter parsers** (`arango.go`, `paginate.go`, `request.go`, `currency.go`).
- `FilterKeyFromURLElement` reads `"op value"` filter parameters.
- `ArangoQueryBuilder` and `FilterQueryBuilder` append clause templates to one shared `*strings.Builder`.
- `BuildFilterQueryFromURLParams` assembles a whole query from URL parameters.
- `NewPaginate` and `Extract` read `sort` and `limit`, and `NewQueryMap` collects route parameters.
- `Currency.String` names a currency.

## How the Go code is represented

- **Strings and bytes.** Go strings in the query builders are `string`. Strings and bodies in the proxy are byte sequences (`Http.Bytes`).
- **Shared `strings.Builder`.** The builder is a `GoStrings.Builder<T>` object. `ArangoQueryBuilder` is a datatype holding a reference to it. Every copy of a builder value therefore appends to the same text, exactly as the Go value receivers do. Each builder method is a `method` whose contract gives the new text as the old text plus a clause.
- **Body streams.** A body is an `Http.Stream` object.
  - `io.ReadAll` either returns everything and leaves the stream empty, or fails and leaves it untouched.
  - Two holders of one stream see each other's reads. This sharing is what produces the findings below.
- **Headers.** An `http.Header` is a sequence of (name, values) pairs in the order one `range` visits them.
- **Cache.** The cache is the class `ProxyCache.Cache<R>` with a `contents` map field. `Fetch` and `Upsert` use the pure `Lookup` and `Fingerprint` functions as their specification.
- **Time.** The two clock readings a request involves, `time.Since` in `Fetch` and `time.Now` in `Upsert`, are the integer parameters `now` and `stored`; `time.Duration` is an integer.
- **The backend.** The backend is an `Http.Upstream` value, chosen per request:
  - `http.NewRequest` fails;
  - the connection fails;
  - or the backend answers with a status, a header and a body, whose stream may break before it is read.
- **HTTP client and writer.** `Http.Client.Do` reads the request body to the end and records what was sent. `Http.ResponseWriter` records header pairs, the first status written (`Write` implies 200) and the body bytes. `Delivered` is the status the client receives once the handler returns: the one written, or the 200 net/http sends for a handler that wrote none.
- **Library functions.** `strings.Split`, `strings.Join`, `strings.ToLower` (ASCII only), `strconv.Atoi` (following `ParseInt`'s scan, including its clamping), `%d`, `url.Values.Get` and `chi.URLParam` are written out in `gostrings.dfy`, `strconv.dfy` and `url.dfy`.

## Behaviour worth knowing

- **Upsert before reading the body.** The backend's response is upserted before its body is read (`proxy/server.go:64-71`). An answer whose body then fails to read stays cached, with its broken stream, until the timeout.
- **Forward failures.** A failure to build the forward request, to reach the backend or to read its answer only logs and returns (`proxy/server.go:48-74`). The handler writes nothing, so net/http answers the client with 200 and an empty body.
- **Unreadable inbound body.** An unreadable inbound body makes `Fetch` fail with an error other than not-found or stale. That branch answers 502 (`proxy/server.go:85-87`).
- **Quirks kept as checkable behaviour.**
  - `Sort` with two or more fields lists field 0 twice.
  - `BuildFilterQueryFromURLParams` appends its SORT and LIMIT clauses twice.
  - `NewPaginate` never stores the sort fields it parses.

## Model

| member | source | states |
|---|---|---|
| ProxyCache.WriteStrings | proxy/cache.go:59-69 | the builder gains the strings in order, and the count returned is the sum of their lengths |
| ProxyCache.TotalLengthIsLength | proxy/cache.go:59-69 | the sum of the lengths `writeStrings` reports is the length of the text it appended |
| ProxyCache.Key | proxy/cache.go:22-55 | the key is method ++ URI ++ (each header name ++ its values) ++ the body bytes read; the request then holds a new body stream with exactly those bytes, and the old one is drained; an unreadable body gives the read error and the request keeps its body |
| ProxyCache.FingerprintCollides | proxy/cache.go:22-54 | the key is not injective: `/a` with body `b` and `/ab` with no body share one key |
| ProxyCache.LookupCases | proxy/cache.go:89-96 | not found iff the key is absent; stale iff present and `now - Timestamp >= timeout`; the stored entry iff present and strictly younger than the timeout |
| ProxyCache.LookupAfterStore | proxy/cache.go:99-112 | after storing under k, a lookup of k finds the new entry before the timeout and stale from then on; every other key finds what it found before |
| ProxyCache.Cache.NewCache | proxy/cache.go:76-81 | a new cache is empty, so every lookup is not-found, and it keeps the given timeout |
| ProxyCache.Cache.Fetch | proxy/cache.go:83-97 | an unreadable body gives the body error (not not-found or stale); otherwise the result is the lookup of the request's key at `now`; the cache is never changed |
| ProxyCache.Cache.Upsert | proxy/cache.go:99-112 | stores (now, resp) under the request's key, overwriting any old entry and leaving every other key alone; an unreadable body gives the error and leaves the map unchanged |
| ProxyCache.UpsertThenFetch | proxy/cache.go:83-112 | `Upsert` then `Fetch` of the same request finds exactly the stored response until the timeout, and reports stale from then on |
| Http.Stream.ReadAll | proxy/cache.go:44-47 | `io.ReadAll` returns all unread bytes and leaves the stream empty, or fails and leaves it as it was |
| Http.Client.Do | proxy/server.go:48-61 | the attempted request carries the given method, URL, header and the bytes read from the body stream; an unreachable backend gives an error; an answer becomes a response with a new body stream holding the answer's body, broken when the answer's is |
| Http.ResponseWriter.AddHeader | proxy/server.go:76-80 | appends one header pair and changes nothing else |
| Http.ResponseWriter.WriteHeader | proxy/server.go:81 | the first status written is the one sent |
| Http.ResponseWriter.Write | proxy/server.go:82 | appends the bytes, sending status 200 first when no status was written |
| Http.AddHeaders | proxy/server.go:76-80 | the writer gains every value of every header name, in order, and its status and body are unchanged |
| ProxyServer.Server.New | proxy/server.go:36-42 | the server has the configuration, an empty cache with timeout `CACHE_TIMEOUT` and a client that has sent nothing |
| ProxyServer.Server.Forward | proxy/server.go:47-83 | a failure to build the request contacts no one and writes nothing; otherwise exactly one request goes to `SERVER_ADDRESS` with the inbound method, header and body; an unreachable backend leaves the writer and cache untouched; an answer is cached at `stored` under the empty-body key, with its own stream; a readable answer is relayed with exactly its status, header values and body, a broken one leaves the writer untouched and stays cached with its unread, failing stream |
| ProxyServer.Server.Replay | proxy/server.go:90-101 | a cached entry is replayed with its status, header values and whatever its body stream still holds, and that stream is drained; an unreadable cached body leaves the writer untouched and the stream as it was |
| ProxyServer.Server.ServeHTTP | proxy/server.go:44-102 | an unreadable body gets 502 with no forward and no upsert; a fresh entry (looked up at `now`) is replayed with no upstream call and no cache change, and no other cached body is read; a missing or stale entry is forwarded, cached at `stored` under the empty-body key, and relayed; whenever nothing is written, the client receives 200 with an empty body |
| ProxyServer.Send | proxy/server.go:76-82 | a client sent nothing yet gets exactly the snapshot's header values, status and body |
| ProxyServer.SnapshotServer.New | proxy/server.go:36-42 | the corrected server starts with an empty cache with timeout `CACHE_TIMEOUT` |
| ProxyServer.SnapshotServer.ServeHTTP | proxy/server.go:44-102 | corrected dispatch: the request keeps its body; a fresh entry is replayed byte for byte without the backend; a missing or stale one is forwarded with the request's body and a readable answer is stored at `stored` under the request's own key and relayed; no readable answer gives 502 and leaves the cache as it was |
| ProxyFindings.FirstRequest | proxy/server.go:57-82 | on a new server, a forwarded request is relayed in full, but its entry is keyed without the body and its cached body stream is empty |
| ProxyFindings.DrainedBodyReplayed | proxy/server.go:64-71 | a repeated `GET /` within the timeout is a hit that replays status 200 with an empty body, where the first got `hi` |
| ProxyFindings.PostedTwice | proxy/server.go:48-64 | two identical `POST /` requests with body `x` both reach the backend, and the only cache entry is under the empty-body key |
| ProxyFindings.BodyLeftOutOfKey | proxy/server.go:48-64 | after that, a `POST /` with no body is answered from the cache (201) without reaching the backend |
| ProxyFindings.SnapshotReplayed | proxy/server.go:90-101 | with the correction, the repeated `GET /` replays body `hi` |
| ProxyFindings.SnapshotPostedTwice | proxy/cache.go:22-55 | with the correction, the second `x` request is a hit and the entry is keyed with its body |
| ProxyFindings.SnapshotKeysOnBody | proxy/cache.go:22-55 | with the correction, the bodiless `POST /` is a different request and is forwarded; the unreachable backend gives its client 502 |
| ProxyFindings.RepeatWithinTimeout | proxy/server.go:44-102 | with the correction, for any cache state, a request that misses and is answered, repeated within the timeout with the same method, URI, header and body, gives the second client exactly the first answer, and only one request reaches the backend |
| ProxyFindings.UnreachableReportedOk | proxy/server.go:57-61 | a request whose forward cannot reach the backend is reported to its client as 200 with an empty body |
| ProxyFindings.BrokenBodyCached | proxy/server.go:64-74 | an answer whose body breaks is reported as 200 with an empty body, and a repeat within the timeout is a hit on the broken entry that again gets 200 with an empty body, without the backend being asked |
| ProxyFindings.SnapshotUnreachableIs502 | proxy/server.go:57-61 | with the correction, an unreachable backend is reported to the client as 502 |
| ProxyFindings.SnapshotBrokenNotCached | proxy/server.go:64-74 | with the correction, a broken answer is reported as 502 and not cached, so the repeat reaches the backend and relays its body |
| GoStrings.Split | request.go:28 | `strings.Split` never returns an empty list, and no piece contains the separator |
| GoStrings.JoinOfSplit | request.go:28 | joining the pieces with the separator gives back the string |
| GoStrings.SplitOfJoin | arango.go:281 | splitting a join of separator-free pieces gives back the pieces |
| GoStrings.ToLower | request.go:35 | the result has the same length as its input, and each character is lower-cased (ASCII) |
| Strconv.Atoi | request.go:44-49 | succeeds exactly on an optional sign plus digits whose value fits in 64 bits, returning that value; a syntax error comes with 0, a range error with the crossed bound |
| Strconv.ParseUintSpec | request.go:45 | the unsigned scan succeeds exactly on non-empty digit strings up to 2^64-1, with their value |
| Strconv.AtoiOfItoa | arango.go:323-326 | `Atoi` reads back every 64-bit number `%d` prints, as `Limit` writes it |
| Sorting.AsksDescendingCases | request.go:35 | a sort piece is descending exactly when its second word is `desc` in any mix of cases |
| Currencies.String | currency.go:5-19 | `Dollars` (0) is "dollars", `Apples` (1) is "apples", and exactly every other value is "unknown" |
| Pagination.NewPaginate | paginate.go:9-51 | no sort fields are ever returned; the limit is 1000 when absent and otherwise whatever `Atoi` returns, error discarded (0 for a malformed number); the discarded parse has one field per comma piece, named by its first word, DESC only for a second word `desc` |
| RequestParams.Extract | request.go:17-52 | one sort key per comma piece, in order, with the first word as field and DESC only for a second word `desc`; the limit is 10 when absent; a limit `Atoi` rejects fails with Atoi's error and the zero result |
| RequestParams.NewQueryMap | request.go:64-72 | fails exactly when some required parameter is empty, naming one of them, with an empty map; otherwise every requested parameter has an entry holding its route value, possibly "", and nothing else has one |
| Arango.OperatorFor | arango.go:247-254 | a word maps to the empty operator exactly when it is not in `OPERATOR_MAP` |
| Arango.FormatValueQuotes | arango.go:271-278 | a string value becomes that string between two double quotes; any other value is unchanged |
| Arango.FilterKeyFromURLElement | arango.go:280-295 | the field is the key; a value without a space is `== value`; the value is always a string without spaces; with a space the operator is a known one or empty |
| Arango.FilterKeyOfWords | arango.go:288-294 | with two or more words, the operator comes from `OPERATOR_MAP[word 0]` (empty when unknown) and the value is word 1; later words are ignored |
| Arango.NewArangoQueryBuilder | arango.go:302-309 | a new builder whose text is exactly `FOR x IN <collection>` |
| Arango.Sort | arango.go:311-321 | appends the SORT clause and keeps the prior text: nothing for no fields, otherwise `\n\tSORT x.F0 D0`, then `, x.F D` for every field when there are two or more |
| Arango.SortClauseLists | arango.go:311-321 | with two or more fields, the SORT clause lists field 0 and then every field, field 0 again included, joined by `, ` |
| Arango.Limit | arango.go:323-326 | appends `\n\tLIMIT n` |
| Arango.Paginate | arango.go:328-330 | appends exactly what `Sort(p.SortFields...)` then `Limit(p.Limit)` append |
| Arango.Filter | arango.go:332-335 | appends `\n\tFILTER x.field op value` and returns a filter builder on the same text |
| Arango.Done | arango.go:337-340 | appends `\n\tRETURN x` |
| Arango.And | arango.go:354-357 | appends ` && x.field op value` |
| Arango.Or | arango.go:359-362 | appends the or-junction (two vertical bars) and `x.field op value` |
| Arango.Not | arango.go:364-367 | appends ` NOT x.field op value` |
| Arango.FilterTextOne | arango.go:207-211 | the FILTER clause of one key is `\n\tFILTER` and its condition |
| Arango.FilterTextSnoc | arango.go:215-222 | each further key extends the FILTER clause by the junction and its condition |
| Arango.OpenFilter | arango.go:205-212 | the first parameter with a value opens the FILTER clause; when none has one, nothing is written |
| Arango.ExtendFilter | arango.go:214-224 | each later parameter with a value is added with the or-junction (two vertical bars) when `inclusive=true` and with ` && ` otherwise |
| Arango.BuildFilterQueryFromURLParams | arango.go:200-232 | no parameter names leave the builder untouched; otherwise the text gains the FILTER clause over every parameter with a value, then SORT+LIMIT twice, then `RETURN x`; the error is always nil |

## Left out

- Concurrency: net/http runs handlers at the same time and `contents` has no lock. Each request is served here as one sequential step.
- The clock: `time.Since` in `Fetch` and `time.Now` in `Upsert` are replaced by the `now` and `stored` parameters, which callers choose freely.
- The network: the backend is the `Upstream` value. `http.DefaultClient`'s redirects, timeouts and transport details are not modelled.
- Go's random map iteration order. A header is one fixed sequence, so the model takes one iteration order as given. In Go, two identical requests with several header names can iterate them differently and so get different keys.
- Partial reads: a body that fails is modelled as failing before returning any bytes.
- Failed writes: `strings.Builder` never reports a write error, so the error branches after writes in `key` and `writeStrings` never run and are not modelled.
- Header mutation after `WriteHeader` and the `Content-Type` sniffing `Write` does are not modelled. The writer records only what the handler adds.
- Logging: `log.Println` calls are left out. Their branches return without writing, as modelled.
- `Run`, `Ping`, the database client and repositories, the HTTP handlers, routes, services and data-only type files: these are wiring and foreign I/O, not logic of the modelled core.
- URL decoding: the parsers take already-decoded query maps (`url.Values`).
- `strings.ToLower` is ASCII-only here. No non-ASCII character lowers to one of `d`, `e`, `s`, `c`, so the `desc` comparison is not affected.
- `strconv.Atoi` follows `ParseInt`'s general scan. Go's fast path for short inputs gives the same results.
- Build inconsistencies: `DEFAULT_LIMIT` is declared in both `request.go` and `paginate.go`, and each model uses its own file's value. `proxy.NewServer`, called from the proxy command, is not part of this model.
- `Arango.String`: `String()` is the function that reads the shared text. It has no contract of its own beyond that.
- `NewFilterKey` and `NewFilterQueryBuilder` are constructors without logic. They are datatype constructors here.
- `FormatValue`'s `%v` text for a non-string value is carried as given (`Value.Other`). Go's formatting of arbitrary values is not modelled.

## Findings

| source | as written | input that shows it | evidently intended | confidence | as-written member | corrected member |
|---|---|---|---|---|---|---|
| proxy/server.go:64-71 | `Upsert(r, *resp)` caches a copy of the response whose `Body` is the same stream the relay then drains with `io.ReadAll`, so every later hit replays an empty body | `GET /` answered with body `hi`, then the same `GET /` within the timeout: the second client gets status 200 and no body | a hit replays the body the backend sent | not executed | ProxyFindings.DrainedBodyReplayed | ProxyFindings.SnapshotReplayed |
| proxy/server.go:48-64 | `key` restores `r.Body` as a buffer, the forward request sends that same buffer (draining it), and `Upsert` then computes the key of a request whose body is empty | `POST /` with body `x` twice: both reach the backend; a later `POST /` with no body is answered from their entry | the entry is stored under the key `Fetch` computed, body included, so the repeat is a hit and the bodiless request is not | not executed | ProxyFindings.BodyLeftOutOfKey | ProxyFindings.SnapshotKeysOnBody |
| proxy/server.go:48-61 | a failure to build or send the forward request is only logged and the handler returns without writing, so net/http reports success | `GET /` with the backend unreachable: the client gets 200 and no body | a backend that cannot be reached is reported as 502 Bad Gateway, as the other lookup failure is | not executed | ProxyFindings.UnreachableReportedOk | ProxyFindings.SnapshotUnreachableIs502 |
| proxy/server.go:64-74 | the answer is cached before its body is read; when that read fails the handler returns without writing, and the entry with its broken stream is replayed the same way until the timeout | `GET /` answered with a body that breaks, then the same `GET /` 1 unit later: both clients get 200 and no body, and the backend is asked once | an answer whose body cannot be read is reported as 502 and not cached | not executed | ProxyFindings.BrokenBodyCached | ProxyFindings.SnapshotBrokenNotCached |

The corrected server is `ProxyServer.SnapshotServer`.
- It forwards a copy of the inbound body.
- It reads the backend's body once and caches the bytes.
- Its `ServeHTTP` contract stores entries under the request's own key.
- It answers 502 when the backend gives no readable answer.
- `ProxyFindings.RepeatWithinTimeout` proves the property the cache is for: a repeat within the timeout gets exactly the first answer, and only one request reaches the backend.
