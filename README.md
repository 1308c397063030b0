# Last-value query of IoTDB, modelled in Dafny

This project models the last query of IoTDB's `LastQueryExecutor`. The
query answers, for each selected time series, its most recent
`TimeValuePair`. The model covers three parts of it.

- The last-value resolver. Each series is first looked up in the
  per-series last cache. The cache's answer is filtered by the query's
  global time filter. Series the cache does not know become `restPaths`.
  For those, readers are built while the storage engine's merge lock is
  held. The lock is released, and then the readers are scanned. With
  caching enabled, each scanned result is written back to the cache.
- Row assembly. Every slot that holds a pair becomes one row. The row
  has the pair's timestamp, the series label and the value cell.
- The final sort by time, applied when the query is not ascending.

Modules:

- `Series` (`series.dfy`): paths with their aliases, data types, values,
  time-value pairs and the filter. It holds `SatisfyFilter`.
- `Collaborators` (`collaborators.dfy`): the metadata manager's last
  cache, the merge lock, the data sources and the last point readers. They
  are one `Engine` object. The engine's `Storage` value fixes their
  answers, per series id. It also holds `updateLastCache`, the metadata
  manager's rule for merging a pair into a cache entry, which the model
  leaves uninterpreted. Every call is appended to `Engine.trace`, so
  properties can speak about which calls happen and in what order.
  `CacheAfter` folds the merge rule over the writes of a trace. It gives
  the cache a sequence of calls leaves behind.
- `Resolution` (`resolution.dfy`): what the resolver computes and which
  calls it makes, as functions:
  - `Resolve`, built from `CachedSlots`, `Missed`, `ReadersFor`,
    `BuildFrom`, `ScanFrom` and `Filled`;
  - the lemmas about `Resolve`.
- `Rows` (`rows.dfy`):
  - row assembly (`AssembleRows`);
  - the list data set;
  - its sort as a stable insertion sort (`TimeDescending`);
  - the lemmas about both.
- `QueryExecutor` (`executor.dfy`): the source's methods as imperative
  code over the `Engine`, with loops and invariants. Each method is proved
  to return what `Resolve` or `LastRows` specifies. Each is also proved to
  make exactly the calls `Resolve` lists.
- `ReaderIndexing` (`reader_indexing.dfy`): the reader-indexing finding
  below, and the corrected resolver.

The cache switch `CACHE_ENABLED` is a static configuration constant in the
source. Here it is the parameter `cacheEnabled`.

Two behaviours of the code are easy to expect otherwise. The model
follows the code in both.

- The cache answers a pair or `null`, and `null` is always a miss. The
  read side has no answer meaning "known to have no data". Whether a
  series whose last scan found nothing is scanned again on the next query
  depends on what the metadata manager stores for a null pair. The model
  leaves that merge rule open (see `Collaborators.Storage` under
  "## Left out").
- The readers are built from the first `restPaths.size()` input series,
  not from the missed series. See "## Findings".

## Model

| member | source | states |
|---|---|---|
| Collaborators.Engine.GetCachedLast | server/src/main/java/org/apache/iotdb/db/query/executor/LastQueryExecutor.java:215-229 | The cached last pair of a series, or None (null, a miss) when the cache holds none. The lookup is recorded and the cache is unchanged. |
| Collaborators.Engine.UpdateLastCache | server/src/main/java/org/apache/iotdb/db/query/executor/LastQueryExecutor.java:231-233 | The given pair (null included) is merged into the path's cache entry by the metadata manager's merge rule, and the write is recorded. The cache becomes CacheAfter of that one write. |
| Collaborators.Engine.MergeLock | server/src/main/java/org/apache/iotdb/db/query/executor/LastQueryExecutor.java:152 | The merge lock over restPaths either fails (the source throws) or is taken and recorded. |
| Collaborators.Engine.MergeUnLock | server/src/main/java/org/apache/iotdb/db/query/executor/LastQueryExecutor.java:162-164 | The release of the merge lock is recorded. |
| Collaborators.Engine.OpenLastPointReader | server/src/main/java/org/apache/iotdb/db/query/executor/LastQueryExecutor.java:155-160 | Acquiring the data source either fails or yields the reader built from the path, its data type and its device's measurement set. A successful build is recorded. |
| Collaborators.Engine.ReadLastPoint | server/src/main/java/org/apache/iotdb/db/query/executor/LastQueryExecutor.java:171 | The scan is recorded. It returns the series' real last point, or the read error. |
| Series.SatisfyFilter | server/src/main/java/org/apache/iotdb/db/query/executor/LastQueryExecutor.java:237-240 | With no filter every pair passes. With a filter, a pair passes exactly when the filter accepts its timestamp and value. |
| Resolution.Missed | server/src/main/java/org/apache/iotdb/db/query/executor/LastQueryExecutor.java:195-197 | restPaths has exactly as many entries as there are unresolved slots. |
| Resolution.CachedSlots | server/src/main/java/org/apache/iotdb/db/query/executor/LastQueryExecutor.java:182-204 | One slot per path. A slot is resolved exactly when caching is enabled and the cache holds the path's series. A slot that holds a pair holds the cached pair of its path. |
| Resolution.ReadersFor | server/src/main/java/org/apache/iotdb/db/query/executor/LastQueryExecutor.java:154-160 | One reader per unresolved slot, the k-th built from seriesPaths[k] and dataTypes[k]. |
| Resolution.BuildFrom | server/src/main/java/org/apache/iotdb/db/query/executor/LastQueryExecutor.java:154-161 | Building the readers from index i on succeeds exactly when no data source among them fails. |
| Resolution.ScanFrom | server/src/main/java/org/apache/iotdb/db/query/executor/LastQueryExecutor.java:166-176 | The scan from reader index on succeeds exactly when no read among the remaining readers fails. |
| Resolution.Filled | server/src/main/java/org/apache/iotdb/db/query/executor/LastQueryExecutor.java:166-177 | Filling keeps the length, resolves every slot, and keeps every slot that was already resolved. |
| Resolution.LockedScan | server/src/main/java/org/apache/iotdb/db/query/executor/LastQueryExecutor.java:150-177 | A successful build and scan returns one slot per input path. |
| Resolution.ResolveMisses | server/src/main/java/org/apache/iotdb/db/query/executor/LastQueryExecutor.java:146-177 | After the cache read, a successful call returns one slot per input path. |
| Resolution.Resolve | server/src/main/java/org/apache/iotdb/db/query/executor/LastQueryExecutor.java:136-178 | A successful resolution returns one slot per input path. When it succeeds or fails is ResolveSuccess. |
| Resolution.ResolveSuccess | server/src/main/java/org/apache/iotdb/db/query/executor/LastQueryExecutor.java:136-178 | With n missed paths: it succeeds exactly when n is 0 or the merge lock over restPaths succeeds and neither the data source nor the read of any of the first n input series fails. A failed lock gives the merge-lock error. Otherwise a failing data source gives the data-source error. Otherwise a failing read gives the read error. |
| Resolution.ResolveAligned | server/src/main/java/org/apache/iotdb/db/query/executor/LastQueryExecutor.java:166-177 | On success every slot is resolved. A cache-resolved slot is returned as read. The unresolved slot j takes the unfiltered last point of the series whose reader sits at j's rank among the misses. |
| Resolution.CacheHitResolution | server/src/main/java/org/apache/iotdb/db/query/executor/LastQueryExecutor.java:193-203 | A cache hit that fails the filter becomes (true, null). One that passes, or meets no filter, becomes (true, pair). Neither slot is overwritten by a scan: the result keeps it. (A misplaced reader may still scan the hit's series; see ## Findings.) |
| Resolution.CacheMissScanned | server/src/main/java/org/apache/iotdb/db/query/executor/LastQueryExecutor.java:194-197 | A series the cache does not know is a miss. Its path sits in restPaths at its rank. On success its slot becomes (true, scan of the reader at that rank). |
| Resolution.ResolveFastPath | server/src/main/java/org/apache/iotdb/db/query/executor/LastQueryExecutor.java:146-148 | With no missed path the cache's slots are returned as they are. The only calls are the cache lookups: no lock, no reader, no scan, no write. |
| Resolution.ResolveLockDiscipline | server/src/main/java/org/apache/iotdb/db/query/executor/LastQueryExecutor.java:150-171 | The merge lock is taken once exactly when some path missed and locking succeeds, else never. It is released as often as it is taken, also when building a reader fails. Every reader is built while it is held. Every scan comes after its release. |
| Resolution.ResolveMissesLocks | server/src/main/java/org/apache/iotdb/db/query/executor/LastQueryExecutor.java:146-171 | The same lock discipline for the calls that follow any sequence of cache lookups. |
| Resolution.ResolveWriteBack | server/src/main/java/org/apache/iotdb/db/query/executor/LastQueryExecutor.java:168-176 | With caching enabled, a successful call writes the cache once per missed slot and for no hit. The write at a slot's rank writes that slot's path with the slot's final, unfiltered pair, null included. With caching disabled no cache read or write happens. |
| Resolution.ResolveMissesWriteBack | server/src/main/java/org/apache/iotdb/db/query/executor/LastQueryExecutor.java:168-176 | With caching enabled, the written paths of a successful call are exactly restPaths, in order. The written pairs are the scanned slots' final pairs. |
| Resolution.CacheAfterWrites | server/src/main/java/org/apache/iotdb/db/query/executor/LastQueryExecutor.java:168-176 | The cache after any calls is the cache with their written pairs merged, in order, into the entries of their written paths. |
| Resolution.ResolveFinalCache | server/src/main/java/org/apache/iotdb/db/query/executor/LastQueryExecutor.java:168-176 | With caching disabled a query leaves the cache as it was. With caching enabled and success, the cache is the old one with the k-th reader's scan result merged into the entry of the k-th missed path, for each k in order. |
| Resolution.ResolveMissesNoCacheCalls | server/src/main/java/org/apache/iotdb/db/query/executor/LastQueryExecutor.java:172-174 | With caching disabled, the calls after the cache read include no cache access. |
| Resolution.CacheDisabledScansAll | server/src/main/java/org/apache/iotdb/db/query/executor/LastQueryExecutor.java:187-192 | With caching disabled every slot is a miss and restPaths is the whole input. On success slot k holds the last point of path k. |
| Resolution.FilterIgnoredWhenCacheDisabled | server/src/main/java/org/apache/iotdb/db/query/executor/LastQueryExecutor.java:187-203 | With caching disabled the filter has no influence on the result or on the calls. |
| Resolution.BuildFromEvents | server/src/main/java/org/apache/iotdb/db/query/executor/LastQueryExecutor.java:154-161 | The reader-construction loop makes no call other than building readers. |
| Resolution.ScanFromEvents | server/src/main/java/org/apache/iotdb/db/query/executor/LastQueryExecutor.java:168-176 | The scan loop only scans, and writes the cache when caching is enabled. |
| Resolution.ScanFromWrites | server/src/main/java/org/apache/iotdb/db/query/executor/LastQueryExecutor.java:168-176 | A successful scan loop writes, in order, the paths of the unresolved slots, with the scan results of the readers in order. |
| Resolution.MissedAt | server/src/main/java/org/apache/iotdb/db/query/executor/LastQueryExecutor.java:195-197 | The path of the unresolved slot j is the entry of restPaths at j's rank. |
| Resolution.RankInRange | server/src/main/java/org/apache/iotdb/db/query/executor/LastQueryExecutor.java:167-171 | The reader index an unresolved slot consumes is within the reader list. |
| Rows.AssembleRows | server/src/main/java/org/apache/iotdb/db/query/executor/LastQueryExecutor.java:94-120 | One row per slot that holds a pair. |
| Rows.AssembleRowsAt | server/src/main/java/org/apache/iotdb/db/query/executor/LastQueryExecutor.java:94-120 | The row of pair-holding slot j sits at the count of the pair-holding slots before it, and every later pair-holding slot has its row further on, so rows keep input order. The row's timestamp is the pair's. Its value cell is null exactly when the pair's value is null. Its label is tsAlias, else the full path with the measurement alias, else the full path. |
| Rows.CountFoundPrefix | server/src/main/java/org/apache/iotdb/db/query/executor/LastQueryExecutor.java:94-120 | The number of pair-holding slots grows with the prefix, strictly past a pair-holding slot: this is what puts rows in input order. |
| Rows.Label | server/src/main/java/org/apache/iotdb/db/query/executor/LastQueryExecutor.java:99-107 | The label is tsAlias when set, else device.measurementAlias when that is set, else device.measurement. |
| Rows.NoPairNoRows | server/src/main/java/org/apache/iotdb/db/query/executor/LastQueryExecutor.java:95 | Slots without pairs give no rows. |
| Rows.TimeDescending | server/src/main/java/org/apache/iotdb/db/query/executor/LastQueryExecutor.java:122-124 | The sort keeps the number of rows. |
| Rows.LastRows | server/src/main/java/org/apache/iotdb/db/query/executor/LastQueryExecutor.java:94-125 | The result has one row per slot that holds a pair. |
| Rows.TimeDescendingSorted | server/src/main/java/org/apache/iotdb/db/query/executor/LastQueryExecutor.java:122-124 | The sort orders rows from the latest timestamp down. It is a permutation of its input. |
| Rows.TimeDescendingStable | server/src/main/java/org/apache/iotdb/db/query/executor/LastQueryExecutor.java:122-124 | The sort is stable: the rows of any one timestamp keep their input order. |
| Rows.LastRowsOrder | server/src/main/java/org/apache/iotdb/db/query/executor/LastQueryExecutor.java:94-125 | For an ascending query, the rows are in input order. Otherwise they are the same rows sorted from the latest timestamp down, with ties in input order. |
| Rows.ListDataSet.PutRecord | server/src/main/java/org/apache/iotdb/db/query/executor/LastQueryExecutor.java:118 | Appends the record. |
| Rows.ListDataSet.SortByTime | server/src/main/java/org/apache/iotdb/db/query/executor/LastQueryExecutor.java:123 | The records become their stable descending sort by time. |
| QueryExecutor.LastCacheAccessor.constructor | server/src/main/java/org/apache/iotdb/db/query/executor/LastQueryExecutor.java:211-213 | The accessor remembers its series path. |
| QueryExecutor.LastCacheAccessor.Read | server/src/main/java/org/apache/iotdb/db/query/executor/LastQueryExecutor.java:215-229 | Returns the cached last pair of its path, or None (a miss). One lookup is recorded and the cache is unchanged. |
| QueryExecutor.LastCacheAccessor.Write | server/src/main/java/org/apache/iotdb/db/query/executor/LastQueryExecutor.java:231-233 | Merges the pair into the cache entry of its own path, and records that one write. |
| QueryExecutor.ReadLastPairsFromCache | server/src/main/java/org/apache/iotdb/db/query/executor/LastQueryExecutor.java:180-205 | The slot list is CachedSlots, so a disabled cache gives all misses. restPaths holds the missed paths in order: the whole input when the cache is disabled. There is one accessor per path for its own path, or none when the cache is disabled. The exact cache lookups are recorded: one per path, or none. |
| QueryExecutor.ReadThroughAccessors | server/src/main/java/org/apache/iotdb/db/query/executor/LastQueryExecutor.java:193-203 | The read loop yields CachedSlots, the restPaths of its misses, and one recorded lookup per path in order. |
| QueryExecutor.SlotOf | server/src/main/java/org/apache/iotdb/db/query/executor/LastQueryExecutor.java:195-202 | A null cache answer is a miss. A pair the filter rejects is (true, null). Any other pair is (true, pair). |
| QueryExecutor.CalculateLastPairForSeriesLocally | server/src/main/java/org/apache/iotdb/db/query/executor/LastQueryExecutor.java:136-178 | Returns Resolve's result or error. It makes exactly Resolve's calls, in order. The cache it leaves is the old cache with Resolve's writes merged in, in order (CacheAfter). |
| QueryExecutor.ResolveRestPaths | server/src/main/java/org/apache/iotdb/db/query/executor/LastQueryExecutor.java:146-177 | After the cache read, it returns ResolveMisses' result or error, makes exactly its calls, and leaves the cache with their writes merged in. |
| QueryExecutor.BuildAndScan | server/src/main/java/org/apache/iotdb/db/query/executor/LastQueryExecutor.java:150-177 | Once the merge lock is held: LockedScan's result and calls, with the cache after their writes. |
| QueryExecutor.BuildUnderLock | server/src/main/java/org/apache/iotdb/db/query/executor/LastQueryExecutor.java:151-164 | Builds the readers (BuildFrom's calls), then releases the lock whether or not building failed. The cache is unchanged. It returns the readers, or the data-source error. |
| QueryExecutor.BuildReaders | server/src/main/java/org/apache/iotdb/db/query/executor/LastQueryExecutor.java:154-161 | It builds the readers from seriesPaths[i] and dataTypes[i] for i below the miss count, and makes BuildFrom's calls. It stops with the data-source error at the first failing series. |
| QueryExecutor.ScanRestPaths | server/src/main/java/org/apache/iotdb/db/query/executor/LastQueryExecutor.java:166-177 | Makes exactly ScanFrom's calls and merges its writes into the cache. On success the k-th unresolved slot holds the k-th reader's last point (Filled). Otherwise it returns the read error. |
| QueryExecutor.ScanStep | server/src/main/java/org/apache/iotdb/db/query/executor/LastQueryExecutor.java:169-175 | One iteration keeps the scan loop's invariant, trace and cache included, or ends in a failed read that makes the whole scan fail, with the cache after the calls made so far. |
| QueryExecutor.ScanSlot | server/src/main/java/org/apache/iotdb/db/query/executor/LastQueryExecutor.java:171-174 | One read of the reader. Then, with caching enabled and a successful read, one write-back of its result through the accessor of that slot. The cache becomes CacheAfter of these calls. |
| QueryExecutor.LastQueryExecutor.constructor | server/src/main/java/org/apache/iotdb/db/query/executor/LastQueryExecutor.java:67-76 | The executor keeps the selected series, their data types and the optional filter. |
| QueryExecutor.LastQueryExecutor.CalculateLastPairForSeries | server/src/main/java/org/apache/iotdb/db/query/executor/LastQueryExecutor.java:128-134 | The local resolver, called with the plan's device-to-measurements map: its result, its calls and the cache they leave. |
| QueryExecutor.LastQueryExecutor.Execute | server/src/main/java/org/apache/iotdb/db/query/executor/LastQueryExecutor.java:84-126 | The resolver's error propagates. Otherwise a fresh data set holds LastRows of the resolved slots. The calls are exactly Resolve's, and the cache ends with their writes merged in. |
| QueryExecutor.AssembleDataSet | server/src/main/java/org/apache/iotdb/db/query/executor/LastQueryExecutor.java:94-124 | A fresh data set whose records are LastRows: the assembled rows, sorted by time when the query is not ascending. |
| ReaderIndexing.IntendedReaders | server/src/main/java/org/apache/iotdb/db/query/executor/LastQueryExecutor.java:154-160 | The corrected readers, one per unresolved slot. |
| ReaderIndexing.ResolveIntended | server/src/main/java/org/apache/iotdb/db/query/executor/LastQueryExecutor.java:136-178 | The corrected resolver returns one slot per path on success. |
| ReaderIndexing.ResolveIntendedScansOwnSeries | server/src/main/java/org/apache/iotdb/db/query/executor/LastQueryExecutor.java:154-171 | With readers built from restPaths, every missed slot takes the last point of its own series. Every hit keeps its cached, filtered answer. |
| ReaderIndexing.AsWrittenIntendedWhenCacheDisabled | server/src/main/java/org/apache/iotdb/db/query/executor/LastQueryExecutor.java:154-159 | With caching disabled the code as written and the corrected resolver agree exactly. |
| ReaderIndexing.AsWrittenIntendedOnMissPrefix | server/src/main/java/org/apache/iotdb/db/query/executor/LastQueryExecutor.java:154-171 | When every miss comes before every hit, the code as written and the corrected resolver agree exactly. |
| ReaderIndexing.ReaderIndexCounterexample | server/src/main/java/org/apache/iotdb/db/query/executor/LastQueryExecutor.java:154-173 | Take a cached series a followed by an uncached series b. As written, b's slot receives a's last point, and b's cache entry is written with it. The corrected resolver gives b its own last point. |

## Left out

- `IndexerManager.java` and `RocksDBDeviceTimeIndexer.java` are not part of this model. They belong to the device time index, which the last query does not call.
- The internals of the metadata manager are not modelled:
  - the tree lookup `getNodeByPath`;
  - the `MetadataException` fallback to `getLastCache`;
  - the `node` field that `LastCacheAccessor` hands to `updateLastCache`.

  A read is the cache's answer for the path, or a miss.
- Collaborators.Storage: how `updateLastCache` merges a pair into a cache entry, for example keeping the later timestamp, is metadata-manager code. The model leaves the merge rule uninterpreted, so no property depends on it.
- `getQueryDataSource` and the `LastPointReader` internals are not modelled:
  - the query context;
  - file and chunk selection;
  - the `Long.MAX_VALUE` bound.

  A reader's answer is the storage's last point for its path, or an error.
- Resolution.FilterApplicable: when a filter is present, it requires every cached pair of a selected series to have a value. For a cached pair with a null value the source dereferences the null at line 239 and throws a `NullPointerException`. That failure is not modelled.
- Series.Path.FullPath: the full path of a series is rendered as device + "." + measurement. `PartialPath` rendering and escaping are not modelled.
- Rows.RecordOf: `getStringValue` has no model; it is an uninterpreted parameter `render`. The `Binary` wrapping of the text fields is not modelled.
- Rows.TimeDescending: `ListDataSet.sortByTime` lives outside the core. Its comparator is taken to be a stable sort from the latest timestamp down.
- The result set's column header constants (`COLUMN_TIMESERIES`, `COLUMN_VALUE`) and its column types are not modelled.
- The cast of the query expression to `GlobalTimeExpression` is not modelled. The resolver receives the optional filter directly.
- Concurrency is not modelled: other writers to the cache, and the merge lock's exclusion of compaction. The lock is modelled as recorded acquire and release calls.
- `Pair` objects are values (`Slot`). The source creates a fresh pair per slot and alias-free mutation of its fields is the same as replacing the slot.
- Floating-point values are modelled as reals and play no part in any property.
- The source's two-argument constructor leaves the expression null; the model's constructor takes the filter as an argument, None for that case.

## Findings

| source | as written | input that shows it | evidently intended | confidence | as-written member | corrected member |
|---|---|---|---|---|---|---|
| server/src/main/java/org/apache/iotdb/db/query/executor/LastQueryExecutor.java:154-159 | The k-th reader is built from `seriesPaths.get(k)` and `dataTypes.get(k)` for k < `restPaths.size()`. The scan hands it to the k-th unresolved slot. | Series [a, b] with a cached and b not: restPaths = [b], but the one reader scans a. b's slot gets a's last point, and that point is written into b's cache entry. | Build the k-th reader from `restPaths.get(k)` and its own data type, so every missed slot is filled from its own series. | high, not executed | ReaderIndexing.ReaderIndexCounterexample | ReaderIndexing.ResolveIntendedScansOwnSeries |

The executor methods in `QueryExecutor` reproduce the code as written. The
corrected `ReaderIndexing.ResolveIntended` shares every part of it except
the readers (`LockedScan` is the common part). The two agree whenever
caching is disabled (`ReaderIndexing.AsWrittenIntendedWhenCacheDisabled`)
and, more generally, whenever every miss comes before every hit
(`ReaderIndexing.AsWrittenIntendedOnMissPrefix`).
