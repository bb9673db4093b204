# rustcost-dashboard query layer, modelled in Dafny

This project models the data-fetching core of the rustcost dashboard. The
core has five parts:

- **The query cache.** `SimpleQueryClient` keeps one entry per key. An entry
  holds the data, the error, the pending promise and `updatedAt`. The cache
  serves fresh data, joins a request already in flight, or calls the fetcher
  once. It records the outcome, strips the promise in `.finally`, and can
  invalidate one key or all keys.
- **The consumer binding.** `useFetch` serialises its key and initialises its
  `data`, `error` and `isLoading` state cells from the cache. Its effect `run`
  guards every write after the `await` with a per-run `cancelled` flag. `refetch` invalidates the
  key and then runs `execute`.
- **Metrics query keys.** `normalizeArrayParam`, `serializeMetricsParams` and
  `buildMetricsQueryKey` are written down over a model of `JSON.stringify`.
- **Info request shaping.** `buildInfoUrl` and `serializeParams` build the
  path and drop undefined parameters.
- **Pagination.** `usePagination` keeps the page size (`limit`) and the
  `offset`. `updateLimit` clamps the page size into [1, 100] and `prevPage`
  stops at offset 0. The initial values are taken as given, unclamped, so the
  offset is guaranteed to stay non-negative from a start with a page size of at least 1
  and an offset of at least 0, and with a reset page size of at least 1.

Modules, one per file:

- `Optional` (optional.dfy): an `Option` type. It models both `undefined` and
  JavaScript's optional fields.
- `ApiConstants` (constants.dfy): the base path, the page-size constants and
  the metric resources.
- `Json` (json.dfy): `JSON.stringify` on the values the core writes. It also
  has a reader for that output. The round trip `Parse(Text(v)) ==
  Some(Canon(v))` proves that two values get the same text exactly when they
  are equal once `undefined` has been normalised away. Both kinds of cache key
  rely on this.
- `QueryCache` (query_cache.dfy): the cache as pure step functions over a
  `map`. The class `QueryClient` uses them.
  - A promise is identified by its attempt number. `attempts` lists every
    fetcher call ever made, so `|attempts|` is the number of fetcher
    invocations.
  - `fetchQuery` is split at its `await` points into three steps:
    - `Start`: the synchronous part.
    - `Complete`: the `.then`/`.catch` write.
    - `Finalize`: the `.finally`.
- `UseFetch` (use_fetch.dfy): `serializeKey` and the class `Fetch`. `Fetch`
  holds the three state cells, the `cancelled` flag of each effect run, and
  the suspended `await`s, indexed by ticket. Its events are:
  - the effect running (`Activate`);
  - the cleanup (`Deactivate`);
  - a settled promise resuming its consumer (`Settle`);
  - `refetch` (`Refetch`);
  - a later render with possibly another key or other options (`Rerender`).
- `MetricsKey` (metrics_key.dfy), `InfoClient` (info_client.dfy) and
  `Pagination` (pagination.dfy).

Time is the parameter `now`. The outcome of a fetcher call is the parameter
`outcome` of `Complete`. Which promise settles first is the caller's choice of
which event to apply.

### Behaviour worth knowing

- A failed refresh drops the data cached earlier. The `.catch` callback writes
  `{ error, updatedAt }` over the whole entry
  (src/app/providers/QueryProvider.tsx:52, `QueryCache.FailedRefreshDropsData`).
- A consumer that holds data never fetches from its effect. The effect returns
  as soon as `data` is truthy, whatever its age
  (src/shared/hooks/useFetch.ts:79-82, `UseFetch.Fetch.Activate`).
- The same holds when the key changes. A new render recomputes the serialised
  key, but the state cells keep the previous key's data and error. The effect
  re-runs for the new key, sees that data, and fetches nothing
  (src/shared/hooks/useFetch.ts:40-47, 79-82 and 111,
  `UseFetch.Fetch.KeyChangeKeepsOldData`).
- The `.finally` callback removes whatever promise the entry holds when it
  runs. After an invalidation that can be the promise of a later attempt, so
  the next call starts yet another attempt
  (src/app/providers/QueryProvider.tsx:55-61,
  `QueryCache.FinalizeDropsLaterPromise`).
- `refetch` invalidates the key even when the query is disabled, and then
  returns the data it already had (src/shared/hooks/useFetch.ts:113-116 and
  50-52, `UseFetch.Fetch.Refetch`).
- An empty metric list is truthy and is written as `"metric":""`. An empty
  metric string is falsy and is left out. The two give different keys
  (src/entities/metrics/model/utils.ts:6-11,
  `MetricsKey.EmptyMetricListIsNotEmptyString`).
- The pagination overrides are not clamped. `usePagination({limit: -5})`
  followed by `nextPage` reaches offset -5, and `{offset: -3}` starts there
  (src/shared/hooks/usePagination.ts:15-18, `Pagination.UnclampedOverrides`).

## Model

| member | source | states |
|---|---|---|
| QueryCache.ServesFresh | src/app/providers/QueryProvider.tsx:33-38 | Fresh data is served only when data is cached, the write time and the stale time are non-zero, and `now` is less than one stale time after the write. Missing data, a zero stale time or a zero write time rule it out. |
| QueryCache.FreshnessOnlyExpires | src/app/providers/QueryProvider.tsx:33-38 | Data that is fresh at some time was fresh at every earlier time. |
| QueryCache.HasPending | src/app/providers/QueryProvider.tsx:42 | An entry is pending if and only if it holds a promise. A missing entry holds none. |
| QueryCache.EntryOf | src/app/providers/QueryProvider.tsx:30 | A cached key gives its entry. A missing key gives an entry with no data, no error, no promise and no write time, as `current?.` reads it. |
| QueryCache.Truthy | src/app/providers/QueryProvider.tsx:35-36 | A missing number is falsy, and a present one is truthy if and only if it is not 0. |
| QueryCache.DataOf | src/app/providers/QueryProvider.tsx:67-69 | The entry's data, or nothing for a missing key. |
| QueryCache.ErrorOf | src/app/providers/QueryProvider.tsx:71-73 | The entry's error, or nothing for a missing key. |
| QueryCache.StartStep | src/app/providers/QueryProvider.tsx:30-64 | Returns the cached data, leaving the cache unchanged, exactly when the entry has data, a non-zero `updatedAt`, a non-zero stale time and `now - updatedAt < staleTime`. Otherwise it returns the pending promise unchanged exactly when there is one. Otherwise it starts a new attempt and sets the entry to the old entry plus that promise. No other key changes. |
| QueryCache.CompleteStep | src/app/providers/QueryProvider.tsx:47-54 | The entry becomes exactly `{data, updatedAt: now}` on success, or `{error, updatedAt: now}` on failure, with no promise. Every other key is kept. |
| QueryCache.FinalizeStep | src/app/providers/QueryProvider.tsx:55-61 | Removes whatever promise the entry for the key holds and changes nothing else. The set of keys stays the same. |
| QueryCache.InvalidateStep | src/app/providers/QueryProvider.tsx:75-81 | A non-empty key removes exactly that entry. A missing or empty key clears the whole cache. |
| QueryCache.StartAll | src/app/providers/QueryProvider.tsx:25-65 | A run of calls produces one result per call. |
| QueryCache.StartsWhilePending | src/app/providers/QueryProvider.tsx:42-44 | While a promise is pending, any number of calls leave the cache unchanged and invoke no fetcher. Each call gets fresh data or that same promise. |
| QueryCache.SingleFlight | src/app/providers/QueryProvider.tsx:42-63 | Any run of calls for one key, with no completion in between, invokes the fetcher at most once. It invokes it exactly once when the first call finds neither fresh data nor a pending promise. |
| QueryCache.InvalidateThenStart | src/app/providers/QueryProvider.tsx:75-78 | A call right after invalidating its key always starts a new attempt. |
| QueryCache.FreshWindow | src/app/providers/QueryProvider.tsx:33-40 | After a success at time t, a call is served from the cache if and only if t is non-zero, the stale time is non-zero and `now - t < staleTime`. Otherwise it fetches again. |
| QueryCache.FailedRefreshDropsData | src/app/providers/QueryProvider.tsx:51-54 | A failed refresh after a success leaves no data and only the new error. |
| QueryCache.LastCompletionWins | src/app/providers/QueryProvider.tsx:47-54 | Of two completions, the later one alone decides the entry. |
| QueryCache.FinalizeDropsLaterPromise | src/app/providers/QueryProvider.tsx:55-61 | A call would join the pending promise, but after a `.finally` strips it the same call starts a new attempt. |
| QueryCache.QueryClient.constructor | src/app/providers/QueryProvider.tsx:23 | The client starts with an empty cache and no fetcher calls. |
| QueryCache.QueryClient.GetQueryData | src/app/providers/QueryProvider.tsx:67-69 | Returns the entry's data, or nothing for a missing key. |
| QueryCache.QueryClient.GetQueryError | src/app/providers/QueryProvider.tsx:71-73 | Returns the entry's error, or nothing for a missing key. |
| QueryCache.QueryClient.Start | src/app/providers/QueryProvider.tsx:30-64 | The cache makes the `StartStep` transition. One fetcher call is recorded exactly when an attempt starts. Every registered promise still belongs to a running attempt for its own key. |
| QueryCache.QueryClient.Complete | src/app/providers/QueryProvider.tsx:47-54 | The cache makes the `CompleteStep` transition. The promise settles with the same value or error. |
| QueryCache.QueryClient.Finalize | src/app/providers/QueryProvider.tsx:55-61 | The cache makes the `FinalizeStep` transition for the attempt's key, and the attempt is settled. |
| QueryCache.QueryClient.InvalidateQuery | src/app/providers/QueryProvider.tsx:75-81 | The cache makes the `InvalidateStep` transition. Recorded fetcher calls are untouched. |
| UseFetch.SerializeKey | src/shared/hooks/useFetch.ts:23-24 | A string key is used unchanged. An array key becomes text that starts with `[` and reads back as the array. |
| UseFetch.ArrayKeysCollideOnlyWhenEqual | src/shared/hooks/useFetch.ts:23-24 | Two array keys share a cache entry if and only if they are equal once `undefined` elements are read as `null` and `undefined` members are dropped. |
| UseFetch.TextAndArrayKeysMeet | src/shared/hooks/useFetch.ts:23-24 | The string `"[1]"` and the array `[1]` name the same entry. |
| UseFetch.InitialView | src/shared/hooks/useFetch.ts:41-47 | The data comes from the cache. The error comes from the cache only when the query is enabled. Loading is on if and only if the query is enabled and no data is cached. |
| UseFetch.SettleView | src/shared/hooks/useFetch.ts:60-67 | When a settlement is acted on, success sets the data and clears the error, failure sets the error and keeps the data, and loading ends. |
| UseFetch.Fetch.constructor | src/shared/hooks/useFetch.ts:38-47 | The defaults are enabled and a 30000 ms stale time. The key is serialised. The state cells start as in `InitialView`. |
| UseFetch.Fetch.Deactivate | src/shared/hooks/useFetch.ts:107-109 | The cleanup sets the live run's `cancelled` flag and changes no state cell. |
| UseFetch.Fetch.Activate | src/shared/hooks/useFetch.ts:71-105 | Every earlier run is cancelled. When disabled, nothing else happens and the cache is untouched. When data is held, loading is cleared and nothing is fetched. Otherwise loading is set and the cache makes the `StartStep` transition. |
| UseFetch.Fetch.BeginRun | src/shared/hooks/useFetch.ts:76 | A new run gets its own `cancelled` flag, which is clear, and becomes the live run. Nothing else changes. |
| UseFetch.Fetch.Await | src/shared/hooks/useFetch.ts:85-89 | The cache makes the `StartStep` transition, and a fetcher call is recorded exactly when an attempt starts. The suspended code is filed under a fresh ticket. |
| UseFetch.Fetch.Settle | src/shared/hooks/useFetch.ts:84-102 | A resumed run writes its state cells, as in `SettleView`, if and only if its `cancelled` flag is clear. `execute` always writes, and returns the value or nothing. |
| UseFetch.Fetch.Refetch | src/shared/hooks/useFetch.ts:113-116 | The key is always invalidated. When disabled, the call returns the held data with no fetch. When enabled, the fetcher is called exactly once and loading is set. |
| UseFetch.Fetch.Rerender | src/shared/hooks/useFetch.ts:38-47 | A later render sets the serialised key, `enabled` and `staleTime` from the new arguments. The state cells, the runs and the suspended code are unchanged. |
| UseFetch.Fetch.KeyChangeKeepsOldData | src/shared/hooks/useFetch.ts:40-111 | After a render with any key while data is held, the effect starts no attempt, leaves the cache alone, and keeps the previous data and error. |
| Json.EscapeChar | src/shared/hooks/useFetch.ts:24 | A character is written as itself if and only if it is not `"`, not `\` and not below U+0020. U+007F and U+0080 to U+009F are written as themselves. An escape never starts with `"`. |
| Json.Quote | src/shared/hooks/useFetch.ts:24 | A string literal is at least two characters longer than the string, starts and ends with `"`, and is the string between quotes when no character needs escaping. |
| Json.Escape | src/shared/hooks/useFetch.ts:24 | The escaped text is never shorter than the string, and is the string itself when no character needs escaping. |
| Json.IntText | src/shared/hooks/useFetch.ts:24 | A number's text is non-empty, starts with `-` if and only if the number is negative, and is otherwise all decimal digits. |
| Json.Items | src/shared/hooks/useFetch.ts:24 | The items' text is empty if and only if the array is. Otherwise it starts with the first item's text, and one `undefined` item is written as `null`. |
| Json.Text | src/shared/hooks/useFetch.ts:24 | The text is never empty. `null`, and `undefined` where it is written at all (as an array item), appear as `null`. A string starts with `"`. An array is written between `[` and `]`, and an object between `{` and `}`. |
| Json.Members | src/entities/metrics/model/utils.ts:42-47 | The members' text is empty if and only if every member is undefined. Otherwise it starts with the first written name's `"`. |
| Json.Stringify | src/entities/metrics/model/utils.ts:42-47 | `undefined` alone gives no text. Any other value gives its JSON text. |
| Json.ParseText | src/shared/hooks/useFetch.ts:24 | The JSON text of a value reads back as that value, with `undefined` normalised. |
| Json.TextInjective | src/entities/metrics/model/utils.ts:42-47 | Two values have the same JSON text if and only if their normalised forms are equal. |
| ApiConstants.MetricResource.Name | src/shared/api/constants.ts:3-10 | Each resource name is a non-empty lower-case word. |
| MetricsKey.MetricsSeries.Name | src/entities/metrics/model/types.ts:4 | Each series name is non-empty. |
| MetricsKey.Get | src/entities/metrics/model/utils.ts:16-24 | A property that is not there reads as undefined. A defined value read is one of the parameters' entries. |
| MetricsKey.Falsy | src/entities/metrics/model/utils.ts:7 | `undefined`, `""` and `0` are falsy. Any other string or number is truthy, and so is every list, the empty one included. |
| MetricsKey.Join | src/entities/metrics/model/utils.ts:10 | The join of `[]` is empty, and a one-item list joins to its item. Any join starts with the first item. With a non-empty separator, the join is empty if and only if the list is `[]` or `[""]`. |
| MetricsKey.NormalizeArrayParam | src/entities/metrics/model/utils.ts:6-11 | A falsy value becomes undefined. A list becomes its comma-join. Any other value is kept. |
| MetricsKey.SerializeMetricsParams | src/entities/metrics/model/utils.ts:13-35 | Exactly the seven fields, in their fixed order, each taken from the parameters, with `metric` normalised. |
| MetricsKey.ResourceNamesDistinct | src/shared/api/constants.ts:3-10 | Resource names are equal if and only if the resources are. |
| MetricsKey.SeriesNamesDistinct | src/entities/metrics/model/types.ts:4 | Series names are equal if and only if the series are. |
| MetricsKey.KeyObject | src/entities/metrics/model/utils.ts:42-47 | The object has exactly the members `scope: "metrics"`, `resource`, `series` and `params`, in that order. `params` holds the serialised fields. |
| MetricsKey.BuildMetricsQueryKey | src/entities/metrics/model/utils.ts:37-47 | The key is object text starting with `{` that reads back as the key object, with `undefined` fields dropped. |
| MetricsKey.CanonKeyObject | src/entities/metrics/model/utils.ts:42-47 | What the key records is the key object with only the defined fields under `params`. |
| MetricsKey.KeyIdentifiesQuery | src/entities/metrics/model/utils.ts:37-47 | Two keys are equal if and only if resource, series and the present (name, value) fields are equal. |
| MetricsKey.KeyDependsOnlyOnFields | src/entities/metrics/model/utils.ts:13-35 | Parameters that agree on the seven fields give the same key, whatever else they hold and in whatever order. |
| MetricsKey.UndefinedIsAbsent | src/entities/metrics/model/utils.ts:42-47 | `{limit: 10, offset: undefined}` gives the same key as `{limit: 10}`, and `{limit: 10, offset: 5}` the same key as `{offset: 5, limit: 10}`. |
| MetricsKey.UndefinedFieldIsAbsent | src/entities/metrics/model/utils.ts:16-24 | Adding a property whose value is `undefined`, under a name not yet present, does not change the key. |
| MetricsKey.GetEntry | src/entities/metrics/model/utils.ts:16-24 | When no name repeats, reading a property gives the value of its one entry. |
| MetricsKey.OrderDoesNotMatter | src/entities/metrics/model/utils.ts:16-24 | Two parameter objects with the same entries, in any order and with no repeated name, give the same key. |
| MetricsKey.MissingParamsAreEmpty | src/entities/metrics/model/utils.ts:14 | Missing parameters give the same key as `{}`, and no fields. |
| MetricsKey.MetricListIsJoined | src/entities/metrics/model/utils.ts:10 | A metric list gives the same key as its comma-join, when that join is not empty. |
| MetricsKey.MetricPairIsJoined | src/entities/metrics/model/utils.ts:10 | `["a", "b"]` and `"a,b"` give the same key. |
| MetricsKey.EmptyMetricListIsNotEmptyString | src/entities/metrics/model/utils.ts:6-11 | `metric: []` and `metric: ""` give different keys. |
| MetricsKey.Present | src/entities/metrics/model/utils.ts:42-47 | Exactly the defined fields are kept. |
| InfoClient.InfoSeries.Name | src/entities/info/api/client.ts:5 | Only `metadata` and `configuration` exist, and both names are non-empty. |
| InfoClient.BuildInfoUrl | src/entities/info/api/client.ts:10-11 | The path is `/api/v1` + `/info/` + resource + `/` + series. |
| InfoClient.ParseInfoUrl | src/entities/info/api/client.ts:10-11 | Whatever it reads back rebuilds the same path. |
| InfoClient.ParseBuildInfoUrl | src/entities/info/api/client.ts:10-11 | Every info path reads back as its resource and series. |
| InfoClient.InfoUrlInjective | src/entities/info/api/client.ts:10-11 | Two paths are equal if and only if their resources and series are. |
| InfoClient.SerializeParams | src/entities/info/api/client.ts:13-18 | An entry is in the output if and only if it is in the input and defined. Nothing is added. The output equals the input when nothing is undefined. |
| InfoClient.Defined | src/entities/info/api/client.ts:14-16 | An entry is kept if and only if its value is not undefined. |
| InfoClient.DefinedConcat | src/entities/info/api/client.ts:14-17 | Filtering a concatenation concatenates the filtered parts, so order is preserved. |
| InfoClient.DefinedSingle | src/entities/info/api/client.ts:14-16 | A single entry is kept exactly when it is defined. |
| InfoClient.SerializeParamsIdempotent | src/entities/info/api/client.ts:13-18 | Serialising twice is the same as serialising once. |
| InfoClient.MissingParamsGiveEmpty | src/entities/info/api/client.ts:13 | Missing parameters give an empty object. |
| InfoClient.MakeRequest | src/entities/info/api/client.ts:23-30 | A GET request whose path reads back as (resource, series) and whose parameters are exactly `serializeParams(params)`, the defined entries. |
| InfoClient.ResourceClient.MetadataRequest | src/entities/info/api/client.ts:38 | A GET request for the resource's metadata path, with the defined parameters. |
| InfoClient.ResourceClient.ConfigurationRequest | src/entities/info/api/client.ts:39 | A GET request for the resource's configuration path, with the defined parameters. |
| Pagination.InitialLimit | src/shared/hooks/usePagination.ts:15-17 | Returns the override when there is one, unclamped, and otherwise 25. |
| Pagination.InitialOffset | src/shared/hooks/usePagination.ts:18 | Returns the override when there is one, and otherwise 0. |
| Pagination.Max | src/shared/hooks/usePagination.ts:31 | `Math.max` of two numbers is one of them and at least both. |
| Pagination.Min | src/shared/hooks/usePagination.ts:21 | `Math.min` of two numbers is one of them and at most both. |
| Pagination.ClampLimit | src/shared/hooks/usePagination.ts:21 | The result lies in [1, 100]. It is the input when the input is already in range, and the nearest bound otherwise. |
| Pagination.Apply | src/shared/hooks/usePagination.ts:20-37 | `updateLimit(n)` sets the page size to `ClampLimit(n)`, which lies in [1, 100], and the offset to 0. `nextPage` adds one page. `prevPage` goes back one page, or to 0. `reset` restores the initial page size and offset 0. |
| Pagination.ApplyKeepsSane | src/shared/hooks/usePagination.ts:20-37 | From a page size of at least 1 and an offset of at least 0, with a reset size of at least 1, every operation keeps both. |
| Pagination.RunKeepsSane | src/shared/hooks/usePagination.ts:20-37 | From a page size of at least 1 and an offset of at least 0, with a reset page size of at least 1, any sequence of operations keeps the page size at least 1 and the offset at least 0. |
| Pagination.UnclampedOverrides | src/shared/hooks/usePagination.ts:15-18 | A page size override of -5 followed by `nextPage` reaches offset -5, and an offset override of -3 starts at -3. |
| Pagination.NextThenPrev | src/shared/hooks/usePagination.ts:26-32 | From a non-negative offset, going one page forward and then back returns to the same state. |
| Pagination.PrevOnFirstPage | src/shared/hooks/usePagination.ts:30-32 | On the first page, with a non-negative page size, `prevPage` leaves the state unchanged. |
| Pagination.UpdateLimitWithCurrentSize | src/shared/hooks/usePagination.ts:20-24 | Calling `updateLimit` again with the page size it just set keeps the state. |
| Pagination.PaginationState.constructor | src/shared/hooks/usePagination.ts:14-18 | The initial page size and offset are the overrides, or their defaults. |
| Pagination.PaginationState.Rerender | src/shared/hooks/usePagination.ts:34-37 | A later render keeps the page size and the offset. `reset` then restores the new `initial?.limit ?? 25`. |
| Pagination.PaginationState.UpdateLimit | src/shared/hooks/usePagination.ts:20-24 | The state after `updateLimit(n)` is as in `Apply`: page size `ClampLimit(n)` and offset 0. |
| Pagination.PaginationState.NextPage | src/shared/hooks/usePagination.ts:26-28 | The offset grows by the current page size, and the page size is unchanged. |
| Pagination.PaginationState.PrevPage | src/shared/hooks/usePagination.ts:30-32 | The offset is `max(offset - limit, 0)`, so it is never negative, and the page size is unchanged. |
| Pagination.PaginationState.Reset | src/shared/hooks/usePagination.ts:34-37 | The offset is 0 and the page size is the initial one. |

## Left out

- Payloads are treated as truthy. A fetched value is never `undefined`, `0`, `""` or `false`, so `!data` in the effect means that no data is held. Errors are never `undefined`.
- JavaScript numbers are modelled as unbounded integers. `NaN`, fractions, infinities and the way `JSON.stringify` writes such numbers are not modelled, and neither is `Math.max`/`Math.min` on `NaN`.
- Real promises, the event loop and `Date.now()` are not modelled. Each `await` boundary becomes a separate event, so any interleaving can be replayed, and time is the parameter `now`.
- React itself is not modelled: the scheduling of renders, `useMemo`/`useCallback` identity, `deps` change detection and stale closures. Each render after the first becomes `Rerender`, each run of the effect becomes `Activate`, and each method reads the current state cells. Which renders re-run the effect is the caller's choice of events.
- Unmounting is not modelled separately from the effect's cleanup (`Deactivate`).
- `execute` on its own is modelled only through `refetch`. The hook returns no other path to it.
- The HTTP transport (`request` in src/shared/api/http.ts) is not part of this model. `makeFetcher` is modelled as the request it hands over (`InfoClient.MakeRequest`).
- `Object.entries` lists integer-like keys first. Parameters are instead taken in the order given.
- Property names are not checked for uniqueness. A parameters object in this model is a list of entries, and a property is looked up by its first entry.
- `JSON.stringify` is modelled only for the values the core writes: `undefined`, `null`, booleans, integers, strings, arrays and plain objects. `toJSON`, `Date`, `BigInt`, symbols and cycles are not modelled.
- String escaping follows `JSON.stringify` for characters below U+0020, `"` and `\`. Strings here are sequences of Unicode scalar values, so the lone surrogates that `JSON.stringify` writes as `\u` escapes cannot occur.
- The provider component and the `useQueryClient` context lookup (src/app/providers/QueryProvider.tsx:84-107) are not modelled. The client is passed in explicitly.
