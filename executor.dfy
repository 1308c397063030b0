/**
 * LastQueryExecutor: the last-value resolver (readLastPairsFromCache and
 * calculateLastPairForSeriesLocally) and the row assembly of execute, as
 * imperative code over the collaborators of `Engine`. Each method is proved
 * to compute what `Resolution.Resolve` and `Rows.LastRows` specify and to
 * make exactly the calls `Resolve` lists.
 */
module QueryExecutor {
  import opened Wrappers
  import opened Series
  import opened Collaborators
  import opened Resolution
  import opened Rows

  /** A plan's parts that execute reads: the result order and the device grouping. */
  datatype LastQueryPlan = LastQueryPlan(ascending: bool, deviceToMeasurements: map<string, set<string>>)

  /** Reads and writes the last cache of one series. */
  class LastCacheAccessor {
    const path: Path

    constructor (seriesPath: Path)
      ensures path == seriesPath
    {
      path := seriesPath;
    }

    /** The cached last pair, or None (a Java null) when there is none. */
    method Read(engine: Engine) returns (pair: Option<TimeValuePair>)
      modifies engine
      ensures pair == Lookup(engine.lastCache, path)
      ensures engine.lastCache == old(engine.lastCache)
      ensures engine.trace == old(engine.trace) + [CacheRead(path)]
    {
      pair := engine.GetCachedLast(path);
    }

    /** Merges the pair into the cache entry of its path. */
    method Write(engine: Engine, pair: Option<TimeValuePair>)
      modifies engine
      ensures engine.lastCache == CacheAfter(engine.storage, old(engine.lastCache), [CacheWritten(path, pair)])
      ensures engine.trace == old(engine.trace) + [CacheWritten(path, pair)]
    {
      engine.UpdateLastCache(path, pair);
    }
  }

  /**
   * readLastPairsFromCache: one slot per path, a miss for each path the cache
   * does not know (every path when caching is disabled), and restPaths, the
   * paths of the misses. The source reads through the accessor list, which is
   * empty when caching is disabled; here that loop sits in the enabled branch.
   */
  method ReadLastPairsFromCache(engine: Engine, seriesPaths: seq<Path>, filter: Option<Filter>, cacheEnabled: bool)
    returns (resultContainer: seq<Slot>, cacheAccessors: seq<LastCacheAccessor>, restPaths: seq<Path>)
    requires FilterApplicable(filter, engine.lastCache, seriesPaths, cacheEnabled)
    modifies engine
    ensures engine.lastCache == old(engine.lastCache)
    ensures engine.trace == old(engine.trace) + CacheReads(seriesPaths, cacheEnabled)
    ensures resultContainer == CachedSlots(cacheEnabled, old(engine.lastCache), filter, seriesPaths)
    ensures restPaths == Missed(resultContainer, seriesPaths)
    ensures |cacheAccessors| == (if cacheEnabled then |seriesPaths| else 0)
    ensures forall i :: 0 <= i < |cacheAccessors| ==> cacheAccessors[i].path == seriesPaths[i]
  {
    ghost var expected := CachedSlots(cacheEnabled, engine.lastCache, filter, seriesPaths);
    resultContainer, cacheAccessors, restPaths := [], [], [];
    if cacheEnabled {
      for i := 0 to |seriesPaths|
        invariant |cacheAccessors| == i
        invariant forall k :: 0 <= k < i ==> cacheAccessors[k].path == seriesPaths[k]
        invariant engine.lastCache == old(engine.lastCache) && engine.trace == old(engine.trace)
      {
        var accessor := new LastCacheAccessor(seriesPaths[i]);
        cacheAccessors := cacheAccessors + [accessor];
      }
      resultContainer, restPaths := ReadThroughAccessors(engine, cacheAccessors, seriesPaths, filter);
    } else {
      restPaths := seriesPaths;
      for i := 0 to |seriesPaths|
        invariant resultContainer == expected[..i]
      {
        resultContainer := resultContainer + [Slot(false, None)];
      }
      MissedAllMisses(resultContainer, seriesPaths);
    }
  }

  /**
   * The read loop of readLastPairsFromCache: each accessor's cached pair
   * becomes a miss (and its path joins restPaths), a filtered-out hit
   * (true, null), or a hit (true, pair).
   */
  method ReadThroughAccessors(engine: Engine, cacheAccessors: seq<LastCacheAccessor>, seriesPaths: seq<Path>,
                              filter: Option<Filter>)
    returns (resultContainer: seq<Slot>, restPaths: seq<Path>)
    requires |cacheAccessors| == |seriesPaths|
    requires forall i :: 0 <= i < |cacheAccessors| ==> cacheAccessors[i].path == seriesPaths[i]
    requires FilterApplicable(filter, engine.lastCache, seriesPaths, true)
    modifies engine
    ensures engine.lastCache == old(engine.lastCache)
    ensures engine.trace == old(engine.trace) + CacheReads(seriesPaths, true)
    ensures resultContainer == CachedSlots(true, old(engine.lastCache), filter, seriesPaths)
    ensures restPaths == Missed(resultContainer, seriesPaths)
  {
    ghost var expected := CachedSlots(true, engine.lastCache, filter, seriesPaths);
    resultContainer, restPaths := [], [];
    for i := 0 to |cacheAccessors|
      invariant engine.lastCache == old(engine.lastCache)
      invariant engine.trace == old(engine.trace) + CacheReads(seriesPaths[..i], true)
      invariant resultContainer == expected[..i]
      invariant restPaths == Missed(resultContainer, seriesPaths[..i])
    {
      CachedSlotsStep(old(engine.lastCache), filter, seriesPaths, i, resultContainer, restPaths);
      ghost var readSoFar := CacheReads(seriesPaths[..i], true);
      var tvPair := cacheAccessors[i].Read(engine);
      assert (old(engine.trace) + readSoFar) + [CacheRead(seriesPaths[i])] ==
             old(engine.trace) + (readSoFar + [CacheRead(seriesPaths[i])]);
      var slot := SlotOf(filter, tvPair);
      if !slot.left {
        restPaths := restPaths + [seriesPaths[i]];
      }
      resultContainer := resultContainer + [slot];
    }
    assert seriesPaths[..|seriesPaths|] == seriesPaths;
  }

  /**
   * The slot for one cached pair: a null pair is a miss, a pair the filter
   * rejects is resolved to (true, null), any other pair is resolved to itself.
   */
  method SlotOf(filter: Option<Filter>, tvPair: Option<TimeValuePair>) returns (slot: Slot)
    requires filter.Some? && tvPair.Some? ==> tvPair.value.value.Some?
    ensures slot == ResolveCached(filter, tvPair)
  {
    if tvPair.None? {
      slot := Miss;
    } else if !SatisfyFilter(filter, tvPair.value) {
      slot := Slot(true, None);
    } else {
      slot := Slot(true, tvPair);
    }
  }

  /**
   * calculateLastPairForSeriesLocally: the slot list and the calls of
   * `Resolve`. The readers are built, as in the source, from seriesPaths[i]
   * and dataTypes[i] for i < restPaths.size(), while the merge lock is held; the
   * lock is released (the source's `finally`) whether or not building fails.
   */
  method CalculateLastPairForSeriesLocally(engine: Engine, seriesPaths: seq<Path>, dataTypes: seq<DataType>,
                                           expression: Option<Filter>,
                                           deviceMeasurementsMap: map<string, set<string>>, cacheEnabled: bool)
    returns (r: Result<seq<Slot>, QueryError>)
    requires |dataTypes| == |seriesPaths|
    requires FilterApplicable(expression, engine.lastCache, seriesPaths, cacheEnabled)
    modifies engine
    ensures var o := Resolve(engine.storage, old(engine.lastCache), seriesPaths, dataTypes, expression,
                             deviceMeasurementsMap, cacheEnabled);
            r == o.result && engine.trace == old(engine.trace) + o.events &&
            engine.lastCache == CacheAfter(engine.storage, old(engine.lastCache), o.events)
  {
    var resultContainer, cacheAccessors, restPaths := ReadLastPairsFromCache(engine, seriesPaths, expression, cacheEnabled);
    ghost var lookups := CacheReads(seriesPaths, cacheEnabled);
    r := ResolveRestPaths(engine, resultContainer, cacheAccessors, restPaths, seriesPaths, dataTypes,
                          deviceMeasurementsMap, cacheEnabled);
    ghost var m := ResolveMisses(engine.storage, resultContainer, seriesPaths, dataTypes,
                                 deviceMeasurementsMap, cacheEnabled);
    EventsAssoc(old(engine.trace), lookups, m.events);
    CacheReadsNoWrites(engine.storage, old(engine.lastCache), seriesPaths, cacheEnabled);
    CacheAfterAppend(engine.storage, old(engine.lastCache), lookups, m.events);
  }

  /**
   * The rest of calculateLastPairForSeriesLocally, once the cache has been
   * read: return the cache's answers when nothing missed; otherwise build the
   * readers under the merge lock, release it, and scan.
   */
  method ResolveRestPaths(engine: Engine, resultContainer: seq<Slot>, cacheAccessors: seq<LastCacheAccessor>,
                          restPaths: seq<Path>, seriesPaths: seq<Path>, dataTypes: seq<DataType>,
                          deviceMeasurementsMap: map<string, set<string>>, cacheEnabled: bool)
    returns (r: Result<seq<Slot>, QueryError>)
    requires |resultContainer| == |seriesPaths| == |dataTypes|
    requires restPaths == Missed(resultContainer, seriesPaths)
    requires cacheEnabled ==> |cacheAccessors| == |seriesPaths|
    requires forall i :: 0 <= i < |cacheAccessors| && i < |seriesPaths| ==> cacheAccessors[i].path == seriesPaths[i]
    modifies engine
    ensures var m := ResolveMisses(engine.storage, resultContainer, seriesPaths, dataTypes,
                                   deviceMeasurementsMap, cacheEnabled);
            r == m.result && engine.trace == old(engine.trace) + m.events &&
            engine.lastCache == CacheAfter(engine.storage, old(engine.lastCache), m.events)
  {
    if |restPaths| == 0 {
      return Ok(resultContainer);
    }

    var locked := engine.MergeLock(restPaths);
    if !locked {
      return Err(MergeLockError);
    }
    r := BuildAndScan(engine, old(engine.trace), old(engine.lastCache), resultContainer, cacheAccessors,
                      restPaths, seriesPaths, dataTypes, deviceMeasurementsMap, cacheEnabled);
  }

  /**
   * calculateLastPairForSeriesLocally once the merge lock over restPaths is
   * held: build the readers, release the lock, and scan if building succeeded.
   */
  method BuildAndScan(engine: Engine, ghost trace0: seq<Event>, ghost cache0: map<SeriesId, TimeValuePair>,
                      resultContainer: seq<Slot>, cacheAccessors: seq<LastCacheAccessor>,
                      restPaths: seq<Path>, seriesPaths: seq<Path>, dataTypes: seq<DataType>,
                      deviceMeasurementsMap: map<string, set<string>>, cacheEnabled: bool)
    returns (r: Result<seq<Slot>, QueryError>)
    requires |resultContainer| == |seriesPaths| == |dataTypes|
    requires |restPaths| == CountMisses(resultContainer)
    requires cacheEnabled ==> |cacheAccessors| == |seriesPaths|
    requires forall i :: 0 <= i < |cacheAccessors| && i < |seriesPaths| ==> cacheAccessors[i].path == seriesPaths[i]
    requires engine.trace == trace0 + [Event.MergeLock(restPaths)] && engine.lastCache == cache0
    modifies engine
    ensures var l := LockedScan(engine.storage, resultContainer, seriesPaths, restPaths,
                                ReadersFor(seriesPaths, dataTypes, deviceMeasurementsMap, |restPaths|), cacheEnabled);
            r == l.result && engine.trace == trace0 + l.events &&
            engine.lastCache == CacheAfter(engine.storage, cache0, l.events)
  {
    ghost var readers := ReadersFor(seriesPaths, dataTypes, deviceMeasurementsMap, |restPaths|);
    ghost var built := BuildFrom(engine.storage, readers, 0);
    ghost var lockedTrace := [Event.MergeLock(restPaths)] + built.events + [MergeUnlock];
    var readerList := BuildUnderLock(engine, seriesPaths, dataTypes, deviceMeasurementsMap, |restPaths|);
    EventsAssoc(trace0, [Event.MergeLock(restPaths)], built.events);
    EventsAssoc(trace0, [Event.MergeLock(restPaths)] + built.events, [MergeUnlock]);
    LockedNoWrites(engine.storage, cache0, restPaths, readers);
    if readerList.Err? {
      return Err(readerList.error);
    }

    assert resultContainer[0..] == resultContainer;
    ghost var scan := ScanFrom(engine.storage, resultContainer, readers, seriesPaths, cacheEnabled, 0, 0);
    r := ScanRestPaths(engine, resultContainer, readerList.value, cacheAccessors, seriesPaths, cacheEnabled);
    EventsAssoc(trace0, lockedTrace, scan.events);
    CacheAfterAppend(engine.storage, cache0, lockedTrace, scan.events);
  }

  /** The source's `try` and its `finally`: build the readers, then release the merge lock in any case. */
  method BuildUnderLock(engine: Engine, seriesPaths: seq<Path>, dataTypes: seq<DataType>,
                        deviceMeasurementsMap: map<string, set<string>>, n: nat)
    returns (r: Result<seq<LastPointReader>, QueryError>)
    requires n <= |seriesPaths| == |dataTypes|
    modifies engine
    ensures var readers := ReadersFor(seriesPaths, dataTypes, deviceMeasurementsMap, n);
            var b := BuildFrom(engine.storage, readers, 0);
            engine.lastCache == old(engine.lastCache) &&
            engine.trace == old(engine.trace) + b.events + [MergeUnlock] &&
            r == (if b.ok then Ok(readers) else Err(DataSourceError))
  {
    r := BuildReaders(engine, seriesPaths, dataTypes, deviceMeasurementsMap, n);
    engine.MergeUnLock();
  }

  /**
   * The body of the source's `try`: one reader per missed path, built from
   * seriesPaths[i] and dataTypes[i] for i < n, stopping at the first data
   * source that cannot be acquired.
   */
  method BuildReaders(engine: Engine, seriesPaths: seq<Path>, dataTypes: seq<DataType>,
                      deviceMeasurementsMap: map<string, set<string>>, n: nat)
    returns (r: Result<seq<LastPointReader>, QueryError>)
    requires n <= |seriesPaths| == |dataTypes|
    modifies engine
    ensures var readers := ReadersFor(seriesPaths, dataTypes, deviceMeasurementsMap, n);
            var b := BuildFrom(engine.storage, readers, 0);
            engine.lastCache == old(engine.lastCache) && engine.trace == old(engine.trace) + b.events &&
            r == (if b.ok then Ok(readers) else Err(DataSourceError))
  {
    ghost var readers := ReadersFor(seriesPaths, dataTypes, deviceMeasurementsMap, n);
    ghost var built: seq<Event> := [];
    var readerList: seq<LastPointReader> := [];
    for i := 0 to n
      invariant |readerList| == i && forall k :: 0 <= k < i ==> readerList[k] == readers[k]
      invariant engine.lastCache == old(engine.lastCache)
      invariant engine.trace == old(engine.trace) + built
      invariant BuildFrom(engine.storage, readers, 0) ==
                Phase(BuildFrom(engine.storage, readers, i).ok, built + BuildFrom(engine.storage, readers, i).events)
    {
      BuildFromStep(engine.storage, readers, i, built);
      assert readers[i] == NewReader(seriesPaths[i], dataTypes[i], deviceMeasurementsMap);
      var reader := engine.OpenLastPointReader(seriesPaths[i], dataTypes[i], deviceMeasurementsMap);
      if reader.Err? {
        return Err(reader.error);
      }
      built := built + [ReaderBuilt(reader.value)];
      readerList := readerList + [reader.value];
    }
    assert readerList == readers;
    return Ok(readerList);
  }

  /**
   * The scan loop: each unresolved slot, in order, takes the next reader's
   * last point and, with caching enabled, writes it back through its own
   * position's accessor; the first failing read aborts.
   */
  method ScanRestPaths(engine: Engine, resultContainer: seq<Slot>, readerList: seq<LastPointReader>,
                       cacheAccessors: seq<LastCacheAccessor>, seriesPaths: seq<Path>, cacheEnabled: bool)
    returns (r: Result<seq<Slot>, QueryError>)
    requires |resultContainer| == |seriesPaths|
    requires CountMisses(resultContainer[0..]) == |readerList|
    requires cacheEnabled ==> |cacheAccessors| == |seriesPaths|
    requires forall i :: 0 <= i < |cacheAccessors| && i < |seriesPaths| ==> cacheAccessors[i].path == seriesPaths[i]
    modifies engine
    ensures var s := ScanFrom(engine.storage, resultContainer, readerList, seriesPaths, cacheEnabled, 0, 0);
            engine.lastCache == CacheAfter(engine.storage, old(engine.lastCache), s.events) &&
            engine.trace == old(engine.trace) + s.events &&
            r == (if s.ok then Ok(Filled(resultContainer, ScanResults(engine.storage, readerList)))
                  else Err(ReadError))
  {
    ghost var slots := resultContainer;
    ghost var st := engine.storage;
    ghost var results := ScanResults(st, readerList);
    ghost var total := ScanFrom(st, slots, readerList, seriesPaths, cacheEnabled, 0, 0);
    ghost var scanned: seq<Event> := [];
    assert ScanAt(total, scanned, st, slots, readerList, seriesPaths, cacheEnabled, 0, 0);
    var container := resultContainer;
    var index := 0;
    for i := 0 to |container|
      invariant ScanLoop(engine, old(engine.trace), old(engine.lastCache), total, scanned, container, slots,
                         readerList, seriesPaths, cacheEnabled, i, index)
    {
      var failed;
      container, index, scanned, failed :=
        ScanStep(engine, old(engine.trace), old(engine.lastCache), total, scanned, container, slots,
                 readerList, cacheAccessors, seriesPaths, cacheEnabled, i, index);
      if failed {
        return Err(ReadError);
      }
    }
    assert ScanFrom(st, slots, readerList, seriesPaths, cacheEnabled, |slots|, index).events == [];
    assert total.events == scanned;
    FilledPointwise(container, slots, results);
    return Ok(container);
  }

  /** The invariant of the scan loop at slot i, with `index` readers consumed and the calls `scanned` made. */
  ghost predicate ScanLoop(engine: Engine, trace0: seq<Event>, cache0: map<SeriesId, TimeValuePair>, total: Phase,
                           scanned: seq<Event>, container: seq<Slot>, slots: seq<Slot>,
                           readerList: seq<LastPointReader>, seriesPaths: seq<Path>, cacheEnabled: bool,
                           i: nat, index: nat)
    reads engine
  {
    CountMisses(slots) == |readerList| &&
    FilledUpTo(container, slots, ScanResults(engine.storage, readerList), i) &&
    index == Rank(slots, i) &&
    engine.lastCache == CacheAfter(engine.storage, cache0, scanned) && engine.trace == trace0 + scanned &&
    ScanAt(total, scanned, engine.storage, slots, readerList, seriesPaths, cacheEnabled, i, index)
  }

  /**
   * One iteration of the scan loop: a resolved slot is passed over; an
   * unresolved one is scanned and, on success, filled and written back.
   */
  method ScanStep(engine: Engine, ghost trace0: seq<Event>, ghost cache0: map<SeriesId, TimeValuePair>,
                  ghost total: Phase, ghost scanned: seq<Event>, container: seq<Slot>, ghost slots: seq<Slot>,
                  readerList: seq<LastPointReader>, cacheAccessors: seq<LastCacheAccessor>,
                  seriesPaths: seq<Path>, cacheEnabled: bool, i: nat, index: nat)
    returns (container': seq<Slot>, index': nat, ghost scanned': seq<Event>, failed: bool)
    requires i < |container|
    requires cacheEnabled ==> |cacheAccessors| == |seriesPaths|
    requires forall k :: 0 <= k < |cacheAccessors| && k < |seriesPaths| ==> cacheAccessors[k].path == seriesPaths[k]
    requires ScanLoop(engine, trace0, cache0, total, scanned, container, slots,
                      readerList, seriesPaths, cacheEnabled, i, index)
    modifies engine
    ensures failed ==> !total.ok && engine.trace == trace0 + total.events &&
                       engine.lastCache == CacheAfter(engine.storage, cache0, total.events)
    ensures !failed ==> ScanLoop(engine, trace0, cache0, total, scanned', container', slots,
                                 readerList, seriesPaths, cacheEnabled, i + 1, index')
  {
    ghost var results := ScanResults(engine.storage, readerList);
    RankStep(slots, i);
    container', index', scanned', failed := container, index, scanned, false;
    if !container[i].left {
      RankInRange(slots, i);
      ScanPastMiss(total, scanned, engine.storage, slots, readerList, seriesPaths, cacheEnabled, i, index);
      var point := ScanSlot(engine, readerList[index], cacheAccessors, seriesPaths, i, cacheEnabled);
      ghost var step := [Scanned(readerList[index].path)] +
                        (if point.Ok? && cacheEnabled then [CacheWritten(seriesPaths[i], point.value)] else []);
      CacheAfterAppend(engine.storage, cache0, scanned, step);
      if point.Err? {
        assert total.events == scanned + step;
        failed := true;
        return;
      }
      scanned' := scanned + step;
      assert results[index] == point.value;
      FillStep(container, slots, results, i);
      container' := container[i := Slot(true, point.value)];
      index' := index + 1;
    } else {
      ScanPastHit(total, scanned, engine.storage, slots, readerList, seriesPaths, cacheEnabled, i, index);
      FillStep(container, slots, results, i);
    }
  }

  /**
   * One unresolved slot of the scan loop: the reader's readLastPoint and, with
   * caching enabled and the read successful, the write-back through the
   * accessor of position i.
   */
  method ScanSlot(engine: Engine, reader: LastPointReader, cacheAccessors: seq<LastCacheAccessor>,
                  seriesPaths: seq<Path>, i: nat, cacheEnabled: bool)
    returns (point: Result<Option<TimeValuePair>, QueryError>)
    requires i < |seriesPaths|
    requires cacheEnabled ==> i < |cacheAccessors| && cacheAccessors[i].path == seriesPaths[i]
    modifies engine
    ensures point == if engine.storage.readFails(reader.path.Id()) then Err(ReadError)
                     else Ok(engine.storage.lastPoint(reader.path.Id()))
    ensures var step := [Scanned(reader.path)] +
                        (if point.Ok? && cacheEnabled then [CacheWritten(seriesPaths[i], point.value)] else []);
            engine.trace == old(engine.trace) + step &&
            engine.lastCache == CacheAfter(engine.storage, old(engine.lastCache), step)
  {
    point := engine.ReadLastPoint(reader);
    assert CacheAfter(engine.storage, old(engine.lastCache), [Scanned(reader.path)]) == old(engine.lastCache);
    if point.Ok? && cacheEnabled {
      cacheAccessors[i].Write(engine, point.value);
      CacheAfterAppend(engine.storage, old(engine.lastCache), [Scanned(reader.path)],
                       [CacheWritten(seriesPaths[i], point.value)]);
    }
  }

  /** The executor of one last query. */
  class LastQueryExecutor {
    const selectedSeries: seq<Path>
    const dataTypes: seq<DataType>
    const expression: Option<Filter>

    constructor (selectedSeries: seq<Path>, dataTypes: seq<DataType>, expression: Option<Filter>)
      ensures this.selectedSeries == selectedSeries && this.dataTypes == dataTypes
      ensures this.expression == expression
    {
      this.selectedSeries := selectedSeries;
      this.dataTypes := dataTypes;
      this.expression := expression;
    }

    /** calculateLastPairForSeries: the local resolver with the plan's device grouping. */
    method CalculateLastPairForSeries(engine: Engine, plan: LastQueryPlan, cacheEnabled: bool)
      returns (r: Result<seq<Slot>, QueryError>)
      requires |dataTypes| == |selectedSeries|
      requires FilterApplicable(expression, engine.lastCache, selectedSeries, cacheEnabled)
      modifies engine
      ensures var o := Resolve(engine.storage, old(engine.lastCache), selectedSeries, dataTypes, expression,
                               plan.deviceToMeasurements, cacheEnabled);
              r == o.result && engine.trace == old(engine.trace) + o.events &&
              engine.lastCache == CacheAfter(engine.storage, old(engine.lastCache), o.events)
    {
      r := CalculateLastPairForSeriesLocally(engine, selectedSeries, dataTypes, expression,
                                             plan.deviceToMeasurements, cacheEnabled);
    }

    /**
     * execute: the rows of `LastRows` over the resolver's slots, in a fresh
     * data set, or the resolver's error.
     */
    method Execute(engine: Engine, plan: LastQueryPlan, cacheEnabled: bool, render: Value -> string)
      returns (r: Result<ListDataSet, QueryError>)
      requires |dataTypes| == |selectedSeries|
      requires FilterApplicable(expression, engine.lastCache, selectedSeries, cacheEnabled)
      modifies engine
      ensures var o := Resolve(engine.storage, old(engine.lastCache), selectedSeries, dataTypes, expression,
                               plan.deviceToMeasurements, cacheEnabled);
              engine.trace == old(engine.trace) + o.events &&
              engine.lastCache == CacheAfter(engine.storage, old(engine.lastCache), o.events) &&
              (o.result.Err? ==> r == Err(o.result.error)) &&
              (o.result.Ok? ==> r.Ok? && fresh(r.value) &&
                                r.value.records == LastRows(selectedSeries, o.result.value, plan.ascending, render))
    {
      var calculated := CalculateLastPairForSeries(engine, plan, cacheEnabled);
      if calculated.Err? {
        return Err(calculated.error);
      }
      var dataSet := AssembleDataSet(selectedSeries, calculated.value, plan.ascending, render);
      return Ok(dataSet);
    }
  }

  /**
   * The row loop and the sort of execute: one record per slot holding a
   * pair, then sortByTime unless the query is ascending.
   */
  method AssembleDataSet(selectedSeries: seq<Path>, lastPairList: seq<Slot>, ascending: bool, render: Value -> string)
    returns (dataSet: ListDataSet)
    requires |lastPairList| == |selectedSeries|
    ensures fresh(dataSet)
    ensures dataSet.records == LastRows(selectedSeries, lastPairList, ascending, render)
  {
    dataSet := new ListDataSet();
    for i := 0 to |lastPairList|
      invariant dataSet.records == AssembleRows(selectedSeries[..i], lastPairList[..i], render)
    {
      assert lastPairList[..i + 1][..i] == lastPairList[..i];
      assert selectedSeries[..i + 1][..i] == selectedSeries[..i];
      if lastPairList[i].right.Some? {
        var lastTimeValuePair := lastPairList[i].right.value;
        var pathField := Label(selectedSeries[i]);
        var valueField := if lastTimeValuePair.value.Some? then Some(render(lastTimeValuePair.value.value))
                          else None;
        dataSet.PutRecord(Row(lastTimeValuePair.timestamp, pathField, valueField));
      }
    }
    assert lastPairList[..|lastPairList|] == lastPairList;
    assert selectedSeries[..|selectedSeries|] == selectedSeries;
    if !ascending {
      dataSet.SortByTime();
    }
  }
}
