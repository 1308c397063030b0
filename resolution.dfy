/**
 * What calculateLastPairForSeriesLocally computes, as functions of its
 * inputs and of the collaborators' answers: the slot list read from the
 * cache, the missed paths, the readers, the scan, and the calls made.
 */
module Resolution {
  import opened Wrappers
  import opened Series
  import opened Collaborators

  /**
   * Pair<Boolean, TimeValuePair>: `left` says the slot is resolved; `right` is
   * the last pair found, None when there is none (absent, filtered or deleted).
   */
  datatype Slot = Slot(left: bool, right: Option<TimeValuePair>)

  /** An unresolved slot, `new Pair<>(false, null)`. */
  const Miss := Slot(false, None)

  /** Success or failure of a phase, and the calls it made. */
  datatype Phase = Phase(ok: bool, events: seq<Event>)

  /** The resolver's result and every call it made, in order. */
  datatype Outcome = Outcome(result: Result<seq<Slot>, QueryError>, events: seq<Event>)

  /** The source dereferences the value of a cached pair whenever a filter is present. */
  predicate FilterApplicable(filter: Option<Filter>, cache: map<SeriesId, TimeValuePair>,
                             paths: seq<Path>, cacheEnabled: bool)
  {
    filter.Some? && cacheEnabled ==>
      forall i :: 0 <= i < |paths| && paths[i].Id() in cache ==> cache[paths[i].Id()].value.Some?
  }

  /** The slot for one cache answer: a null answer is a miss; a hit is filtered. */
  function ResolveCached(filter: Option<Filter>, cached: Option<TimeValuePair>): Slot
    requires filter.Some? && cached.Some? ==> cached.value.value.Some?
  {
    match cached
    case None => Miss
    case Some(pair) => if SatisfyFilter(filter, pair) then Slot(true, Some(pair)) else Slot(true, None)
  }

  /** readLastPairsFromCache's slot list: all misses when caching is disabled. */
  function CachedSlots(cacheEnabled: bool, cache: map<SeriesId, TimeValuePair>,
                       filter: Option<Filter>, paths: seq<Path>): (slots: seq<Slot>)
    requires FilterApplicable(filter, cache, paths, cacheEnabled)
    ensures |slots| == |paths|
    ensures forall i :: 0 <= i < |paths| ==> (slots[i].left <==> cacheEnabled && paths[i].Id() in cache)
    ensures forall i :: 0 <= i < |paths| && slots[i].right.Some? ==>
              cacheEnabled && slots[i].right == Lookup(cache, paths[i])
  {
    seq(|paths|, i requires 0 <= i < |paths| =>
      if cacheEnabled then ResolveCached(filter, Lookup(cache, paths[i])) else Miss)
  }

  /** The cache lookups readLastPairsFromCache makes: one per path, none when disabled. */
  function CacheReads(paths: seq<Path>, cacheEnabled: bool): seq<Event>
  {
    if cacheEnabled then seq(|paths|, i requires 0 <= i < |paths| => CacheRead(paths[i])) else []
  }

  /** One step of the cache read loop: slot i joins the prefix, and its path joins restPaths on a miss. */
  lemma CachedSlotsStep(cache: map<SeriesId, TimeValuePair>, filter: Option<Filter>, paths: seq<Path>, i: nat,
                        slots: seq<Slot>, rest: seq<Path>)
    requires FilterApplicable(filter, cache, paths, true) && i < |paths|
    requires slots == CachedSlots(true, cache, filter, paths)[..i]
    requires rest == Missed(slots, paths[..i])
    ensures var slot := ResolveCached(filter, Lookup(cache, paths[i]));
            slots + [slot] == CachedSlots(true, cache, filter, paths)[..i + 1] &&
            (if slot.left then rest else rest + [paths[i]]) == Missed(slots + [slot], paths[..i + 1]) &&
            CacheReads(paths[..i + 1], true) == CacheReads(paths[..i], true) + [CacheRead(paths[i])]
  {
    var slot := ResolveCached(filter, Lookup(cache, paths[i]));
    MissedAppend(slots, paths[..i], [slot], [paths[i]]);
    assert paths[..i + 1] == paths[..i] + [paths[i]];
  }

  /** One step of the reader-construction loop, given that readers 0 .. i-1 made the calls `built`. */
  lemma BuildFromStep(st: Storage, readers: seq<LastPointReader>, i: nat, built: seq<Event>)
    requires i < |readers|
    requires BuildFrom(st, readers, 0) == Phase(BuildFrom(st, readers, i).ok, built + BuildFrom(st, readers, i).events)
    ensures st.dataSourceFails(readers[i].path.Id()) ==> BuildFrom(st, readers, 0) == Phase(false, built)
    ensures !st.dataSourceFails(readers[i].path.Id()) ==>
              BuildFrom(st, readers, 0) ==
              Phase(BuildFrom(st, readers, i + 1).ok,
                    (built + [ReaderBuilt(readers[i])]) + BuildFrom(st, readers, i + 1).events)
  {
    if !st.dataSourceFails(readers[i].path.Id()) {
      var later := BuildFrom(st, readers, i + 1).events;
      assert built + ([ReaderBuilt(readers[i])] + later) == (built + [ReaderBuilt(readers[i])]) + later;
    } else {
      assert built + [] == built;
    }
  }

  /** The number of unresolved slots. */
  function CountMisses(s: seq<Slot>): (n: nat)
    ensures n <= |s|
  {
    if s == [] then 0 else (if s[0].left then 0 else 1) + CountMisses(s[1..])
  }

  /** The number of unresolved slots before position j, i.e. the reader index slot j consumes. */
  function Rank(s: seq<Slot>, j: nat): nat
    requires j <= |s|
  {
    CountMisses(s[..j])
  }

  /** restPaths: the paths of the unresolved slots, in order. */
  function Missed<T>(s: seq<Slot>, xs: seq<T>): (rest: seq<T>)
    requires |s| == |xs|
    ensures |rest| == CountMisses(s)
  {
    if s == [] then [] else (if s[0].left then [] else [xs[0]]) + Missed(s[1..], xs[1..])
  }

  /** The readers the source builds: from seriesPaths[k] and dataTypes[k] for k < restPaths.size(). */
  function ReadersFor(paths: seq<Path>, types: seq<DataType>,
                      deviceMeasurements: map<string, set<string>>, n: nat): (readers: seq<LastPointReader>)
    requires n <= |paths| == |types|
    ensures |readers| == n
    ensures forall k :: 0 <= k < n ==> readers[k].path == paths[k] && readers[k].dataType == types[k]
  {
    seq(n, k requires 0 <= k < n => NewReader(paths[k], types[k], deviceMeasurements))
  }

  /** What each reader's readLastPoint returns. */
  function ScanResults(st: Storage, readers: seq<LastPointReader>): seq<Option<TimeValuePair>>
  {
    seq(|readers|, k requires 0 <= k < |readers| => st.lastPoint(readers[k].path.Id()))
  }

  lemma RankInRange(s: seq<Slot>, j: nat)
    requires j < |s| && !s[j].left
    ensures Rank(s, j) < CountMisses(s)
  {
    assert s == s[..j] + s[j..];
    CountMissesAppend(s[..j], s[j..]);
  }

  /** The slot list after the scan: the k-th unresolved slot takes the k-th result. */
  function Filled(s: seq<Slot>, results: seq<Option<TimeValuePair>>): (c: seq<Slot>)
    requires CountMisses(s) == |results|
    ensures |c| == |s|
    ensures forall j :: 0 <= j < |s| ==> c[j].left && (s[j].left ==> c[j] == s[j])
  {
    seq(|s|, j requires 0 <= j < |s| =>
      if s[j].left then s[j] else (RankInRange(s, j); Slot(true, results[Rank(s, j)])))
  }

  /**
   * The reader-construction loop from reader i on, run while the merge lock
   * is held. It succeeds exactly when no data source from reader i on fails.
   */
  function BuildFrom(st: Storage, readers: seq<LastPointReader>, i: nat): (r: Phase)
    requires i <= |readers|
    ensures r.ok <==> forall k :: i <= k < |readers| ==> !st.dataSourceFails(readers[k].path.Id())
    decreases |readers| - i
  {
    if i == |readers| then Phase(true, [])
    else if st.dataSourceFails(readers[i].path.Id()) then Phase(false, [])
    else
      var later := BuildFrom(st, readers, i + 1);
      Phase(later.ok, [ReaderBuilt(readers[i])] + later.events)
  }

  /**
   * The scan loop from slot i on, with `index` readers already consumed. Every
   * remaining reader is read, so it succeeds exactly when none of their reads fails.
   */
  function ScanFrom(st: Storage, s: seq<Slot>, readers: seq<LastPointReader>, paths: seq<Path>,
                    cacheEnabled: bool, i: nat, index: nat): (r: Phase)
    requires i <= |s| == |paths|
    requires index + CountMisses(s[i..]) == |readers|
    ensures r.ok <==> forall k :: index <= k < |readers| ==> !st.readFails(readers[k].path.Id())
    decreases |s| - i
  {
    if i == |s| then Phase(true, [])
    else
      assert s[i..] == [s[i]] + s[i + 1..];
      if s[i].left then ScanFrom(st, s, readers, paths, cacheEnabled, i + 1, index)
      else
        var reader := readers[index];
        if st.readFails(reader.path.Id()) then Phase(false, [Scanned(reader.path)])
        else
          var written := if cacheEnabled then [CacheWritten(paths[i], st.lastPoint(reader.path.Id()))] else [];
          var later := ScanFrom(st, s, readers, paths, cacheEnabled, i + 1, index + 1);
          Phase(later.ok, [Scanned(reader.path)] + written + later.events)
  }

  /** The scan loop's state after the calls `done`: the whole loop is `done` followed by the rest. */
  ghost predicate ScanAt(total: Phase, done: seq<Event>, st: Storage, s: seq<Slot>, readers: seq<LastPointReader>,
                         paths: seq<Path>, cacheEnabled: bool, i: nat, index: nat)
  {
    i <= |s| == |paths| && index + CountMisses(s[i..]) == |readers| &&
    total.ok == ScanFrom(st, s, readers, paths, cacheEnabled, i, index).ok &&
    total.events == done + ScanFrom(st, s, readers, paths, cacheEnabled, i, index).events
  }

  /** A resolved slot makes no call. */
  lemma ScanPastHit(total: Phase, done: seq<Event>, st: Storage, s: seq<Slot>, readers: seq<LastPointReader>,
                    paths: seq<Path>, cacheEnabled: bool, i: nat, index: nat)
    requires ScanAt(total, done, st, s, readers, paths, cacheEnabled, i, index)
    requires i < |s| && s[i].left
    ensures ScanAt(total, done, st, s, readers, paths, cacheEnabled, i + 1, index)
  {
    assert s[i..] == [s[i]] + s[i + 1..];
  }

  /** An unresolved slot consumes the next reader; a failing read ends the loop unsuccessfully. */
  lemma ScanPastMiss(total: Phase, done: seq<Event>, st: Storage, s: seq<Slot>, readers: seq<LastPointReader>,
                     paths: seq<Path>, cacheEnabled: bool, i: nat, index: nat)
    requires ScanAt(total, done, st, s, readers, paths, cacheEnabled, i, index)
    requires i < |s| && !s[i].left
    ensures index < |readers|
    ensures st.readFails(readers[index].path.Id()) ==> !total.ok && total.events == done + [Scanned(readers[index].path)]
    ensures !st.readFails(readers[index].path.Id()) ==>
              var point := st.lastPoint(readers[index].path.Id());
              var step := [Scanned(readers[index].path)] +
                          (if cacheEnabled then [CacheWritten(paths[i], point)] else []);
              ScanAt(total, done + step, st, s, readers, paths, cacheEnabled, i + 1, index + 1)
  {
    assert s[i..] == [s[i]] + s[i + 1..];
    var reader := readers[index];
    if !st.readFails(reader.path.Id()) {
      var step := [Scanned(reader.path)] +
                  (if cacheEnabled then [CacheWritten(paths[i], st.lastPoint(reader.path.Id()))] else []);
      var later := ScanFrom(st, s, readers, paths, cacheEnabled, i + 1, index + 1);
      assert ScanFrom(st, s, readers, paths, cacheEnabled, i, index).events == step + later.events;
      assert done + (step + later.events) == (done + step) + later.events;
    }
  }

  /** Slot j of the filled list. */
  lemma FilledAt(s: seq<Slot>, results: seq<Option<TimeValuePair>>, j: nat)
    requires CountMisses(s) == |results| && j < |s|
    ensures |Filled(s, results)| == |s|
    ensures !s[j].left ==> Rank(s, j) < |results|
    ensures Filled(s, results)[j] == if s[j].left then s[j] else Slot(true, results[Rank(s, j)])
  {
    if !s[j].left {
      RankInRange(s, j);
    }
  }

  /** Slot c is what the filled list holds at position j. */
  ghost predicate FilledSlot(c: Slot, s: seq<Slot>, results: seq<Option<TimeValuePair>>, j: nat)
  {
    j < |s| && (if s[j].left then c == s[j] else Rank(s, j) < |results| && c == Slot(true, results[Rank(s, j)]))
  }

  /** The first i slots of c are those of the filled list, the others those of s. */
  ghost predicate FilledUpTo(c: seq<Slot>, s: seq<Slot>, results: seq<Option<TimeValuePair>>, i: nat)
  {
    |c| == |s| && i <= |s| &&
    (forall j :: 0 <= j < i ==> FilledSlot(c[j], s, results, j)) &&
    (forall j :: i <= j < |s| ==> c[j] == s[j])
  }

  /** Filling slot i, with the result at its rank when it is unresolved. */
  lemma FillStep(c: seq<Slot>, s: seq<Slot>, results: seq<Option<TimeValuePair>>, i: nat)
    requires FilledUpTo(c, s, results, i) && i < |s| && Rank(s, i) <= |results|
    requires !s[i].left ==> Rank(s, i) < |results|
    ensures s[i].left ==> FilledUpTo(c, s, results, i + 1)
    ensures !s[i].left ==> FilledUpTo(c[i := Slot(true, results[Rank(s, i)])], s, results, i + 1)
  {
  }

  /** A list that agrees with the filled list at every position is the filled list. */
  lemma FilledPointwise(c: seq<Slot>, s: seq<Slot>, results: seq<Option<TimeValuePair>>)
    requires CountMisses(s) == |results| && |c| == |s|
    requires forall j :: 0 <= j < |c| ==> FilledSlot(c[j], s, results, j)
    ensures c == Filled(s, results)
  {
  }

  /**
   * calculateLastPairForSeriesLocally after the cache has been read into
   * `slots`: the fast path, or the merge lock, the readers and the scan, with
   * the calls made after the cache lookups.
   */
  function ResolveMisses(st: Storage, slots: seq<Slot>, paths: seq<Path>, types: seq<DataType>,
                         deviceMeasurements: map<string, set<string>>, cacheEnabled: bool): (o: Outcome)
    requires |slots| == |paths| == |types|
    ensures o.result.Ok? ==> |o.result.value| == |paths|
  {
    var rest := Missed(slots, paths);
    if |rest| == 0 then Outcome(Ok(slots), [])
    else if st.mergeLockFails(rest) then Outcome(Err(MergeLockError), [])
    else LockedScan(st, slots, paths, rest, ReadersFor(paths, types, deviceMeasurements, |rest|), cacheEnabled)
  }

  /**
   * With the merge lock taken over `rest`: build `readers`, release the lock
   * (also when building fails), then scan, one reader per unresolved slot.
   */
  function LockedScan(st: Storage, slots: seq<Slot>, paths: seq<Path>, rest: seq<Path>,
                      readers: seq<LastPointReader>, cacheEnabled: bool): (o: Outcome)
    requires |slots| == |paths| && CountMisses(slots) == |readers|
    ensures o.result.Ok? ==> |o.result.value| == |paths|
  {
    var built := BuildFrom(st, readers, 0);
    var locked := [MergeLock(rest)] + built.events + [MergeUnlock];
    if !built.ok then Outcome(Err(DataSourceError), locked)
    else
      assert slots[0..] == slots;
      var scan := ScanFrom(st, slots, readers, paths, cacheEnabled, 0, 0);
      if !scan.ok then Outcome(Err(ReadError), locked + scan.events)
      else Outcome(Ok(Filled(slots, ScanResults(st, readers))), locked + scan.events)
  }

  /**
   * calculateLastPairForSeriesLocally: the slot list it returns (or the error
   * it throws) and the calls it makes, in order: the cache lookups, then those
   * of `ResolveMisses`.
   */
  function Resolve(st: Storage, cache: map<SeriesId, TimeValuePair>, paths: seq<Path>,
                   types: seq<DataType>, filter: Option<Filter>,
                   deviceMeasurements: map<string, set<string>>, cacheEnabled: bool): (o: Outcome)
    requires |types| == |paths|
    requires FilterApplicable(filter, cache, paths, cacheEnabled)
    ensures o.result.Ok? ==> |o.result.value| == |paths|
  {
    var slots := CachedSlots(cacheEnabled, cache, filter, paths);
    var m := ResolveMisses(st, slots, paths, types, deviceMeasurements, cacheEnabled);
    Outcome(m.result, CacheReads(paths, cacheEnabled) + m.events)
  }

  // ---------------------------------------------------------------------
  // Counting unresolved slots and the missed paths.

  lemma {:induction false} CountMissesAppend(a: seq<Slot>, b: seq<Slot>)
    ensures CountMisses(a + b) == CountMisses(a) + CountMisses(b)
  {
    if a == [] {
      assert a + b == b;
    } else {
      assert (a + b)[1..] == a[1..] + b;
      CountMissesAppend(a[1..], b);
    }
  }

  /** Rank steps by one exactly at an unresolved slot. */
  lemma RankStep(s: seq<Slot>, j: nat)
    requires j < |s|
    ensures Rank(s, j + 1) == Rank(s, j) + (if s[j].left then 0 else 1)
  {
    assert s[..j + 1] == s[..j] + [s[j]];
    CountMissesAppend(s[..j], [s[j]]);
  }

  lemma {:induction false} MissedAppend<T>(s1: seq<Slot>, p1: seq<T>, s2: seq<Slot>, p2: seq<T>)
    requires |s1| == |p1| && |s2| == |p2|
    ensures Missed(s1 + s2, p1 + p2) == Missed(s1, p1) + Missed(s2, p2)
  {
    if s1 == [] {
      assert s1 + s2 == s2 && p1 + p2 == p2;
    } else {
      assert (s1 + s2)[1..] == s1[1..] + s2 && (p1 + p2)[1..] == p1[1..] + p2;
      MissedAppend(s1[1..], p1[1..], s2, p2);
    }
  }

  /** The path of the unresolved slot j sits in restPaths at j's rank. */
  lemma {:induction false} MissedAt<T>(s: seq<Slot>, paths: seq<T>, j: nat)
    requires |s| == |paths| && j < |s| && !s[j].left
    ensures Rank(s, j) < |Missed(s, paths)|
    ensures Missed(s, paths)[Rank(s, j)] == paths[j]
  {
    RankInRange(s, j);
    if j > 0 {
      assert s[..j][1..] == s[1..][..j - 1];
      MissedAt(s[1..], paths[1..], j - 1);
    }
  }

  /** With every slot unresolved, restPaths is the whole input. */
  lemma {:induction false} MissedAllMisses<T>(s: seq<Slot>, paths: seq<T>)
    requires |s| == |paths|
    requires forall j :: 0 <= j < |s| ==> !s[j].left
    ensures Missed(s, paths) == paths
  {
    if s != [] {
      MissedAllMisses(s[1..], paths[1..]);
    }
  }

  /** When every slot before n is unresolved, slot j < n consumes reader j. */
  lemma {:induction false} RankOnMissPrefix(s: seq<Slot>, j: nat)
    requires j <= |s|
    requires forall k :: 0 <= k < j ==> !s[k].left
    ensures Rank(s, j) == j
  {
    if j > 0 {
      RankOnMissPrefix(s, j - 1);
      RankStep(s, j - 1);
    }
  }

  /** No unresolved slot means every slot is resolved. */
  lemma NoMissesAllResolved(s: seq<Slot>)
    requires CountMisses(s) == 0
    ensures forall j :: 0 <= j < |s| ==> s[j].left
  {
    forall j | 0 <= j < |s| ensures s[j].left {
      if !s[j].left { RankInRange(s, j); }
    }
  }

  // ---------------------------------------------------------------------
  // Properties of the resolver.

  /**
   * The result is positionally aligned with the input: one slot per path,
   * every slot resolved, a slot resolved from the cache is returned as it was
   * read, and an unresolved slot j takes the last point scanned by the reader
   * at j's rank, unfiltered.
   */
  lemma ResolveAligned(st: Storage, cache: map<SeriesId, TimeValuePair>, paths: seq<Path>,
                       types: seq<DataType>, filter: Option<Filter>,
                       dm: map<string, set<string>>, cacheEnabled: bool)
    requires |types| == |paths|
    requires FilterApplicable(filter, cache, paths, cacheEnabled)
    ensures var o := Resolve(st, cache, paths, types, filter, dm, cacheEnabled);
            var slots := CachedSlots(cacheEnabled, cache, filter, paths);
            o.result.Ok? ==>
              |o.result.value| == |paths| &&
              forall j :: 0 <= j < |paths| ==>
                o.result.value[j].left &&
                (slots[j].left ==> o.result.value[j] == slots[j]) &&
                (!slots[j].left ==> Rank(slots, j) < |paths| &&
                                    o.result.value[j].right == st.lastPoint(paths[Rank(slots, j)].Id()))
  {
    var slots := CachedSlots(cacheEnabled, cache, filter, paths);
    if CountMisses(slots) == 0 {
      NoMissesAllResolved(slots);
    } else {
      forall j | 0 <= j < |paths| && !slots[j].left ensures Rank(slots, j) < CountMisses(slots) {
        RankInRange(slots, j);
      }
    }
  }

  /**
   * A cache hit is resolved without a scan: one that fails the filter yields
   * (true, null), one that passes (or meets no filter) yields (true, pair).
   * Neither is among the missed paths.
   */
  lemma CacheHitResolution(st: Storage, cache: map<SeriesId, TimeValuePair>, paths: seq<Path>,
                           types: seq<DataType>, filter: Option<Filter>,
                           dm: map<string, set<string>>, j: nat)
    requires |types| == |paths| && j < |paths|
    requires FilterApplicable(filter, cache, paths, true)
    requires paths[j].Id() in cache
    ensures var pair := cache[paths[j].Id()];
            var slots := CachedSlots(true, cache, filter, paths);
            var o := Resolve(st, cache, paths, types, filter, dm, true);
            slots[j] == (if filter.None? || filter.value.satisfy(pair.timestamp, pair.value.value)
                         then Slot(true, Some(pair)) else Slot(true, None)) &&
            (o.result.Ok? ==> o.result.value[j] == slots[j])
  {
    ResolveAligned(st, cache, paths, types, filter, dm, true);
  }

  /** A series the cache does not know is resolved by a scan. */
  lemma CacheMissScanned(st: Storage, cache: map<SeriesId, TimeValuePair>, paths: seq<Path>,
                         types: seq<DataType>, filter: Option<Filter>,
                         dm: map<string, set<string>>, cacheEnabled: bool, j: nat)
    requires |types| == |paths| && j < |paths|
    requires FilterApplicable(filter, cache, paths, cacheEnabled)
    requires !cacheEnabled || paths[j].Id() !in cache
    ensures var slots := CachedSlots(cacheEnabled, cache, filter, paths);
            var o := Resolve(st, cache, paths, types, filter, dm, cacheEnabled);
            slots[j] == Miss && Rank(slots, j) < CountMisses(slots) &&
            Missed(slots, paths)[Rank(slots, j)] == paths[j] &&
            (o.result.Ok? ==> o.result.value[j] == Slot(true, st.lastPoint(paths[Rank(slots, j)].Id())))
  {
    var slots := CachedSlots(cacheEnabled, cache, filter, paths);
    MissedAt(slots, paths, j);
    ResolveAligned(st, cache, paths, types, filter, dm, cacheEnabled);
  }

  /**
   * Fast path: with no missed path the cache results are returned as read,
   * and the only calls are the cache lookups: no merge lock, no reader, no scan,
   * no cache write.
   */
  lemma ResolveFastPath(st: Storage, cache: map<SeriesId, TimeValuePair>, paths: seq<Path>,
                        types: seq<DataType>, filter: Option<Filter>,
                        dm: map<string, set<string>>, cacheEnabled: bool)
    requires |types| == |paths|
    requires FilterApplicable(filter, cache, paths, cacheEnabled)
    requires |Missed(CachedSlots(cacheEnabled, cache, filter, paths), paths)| == 0
    ensures var o := Resolve(st, cache, paths, types, filter, dm, cacheEnabled);
            o.result == Ok(CachedSlots(cacheEnabled, cache, filter, paths)) &&
            o.events == CacheReads(paths, cacheEnabled) &&
            forall k :: 0 <= k < |o.events| ==> o.events[k].CacheRead?
  {
  }

  ghost predicate OnlyReaderBuilt(t: seq<Event>)
  {
    forall k :: 0 <= k < |t| ==> t[k].ReaderBuilt?
  }

  ghost predicate OnlyScanCalls(t: seq<Event>, cacheEnabled: bool)
  {
    forall k :: 0 <= k < |t| ==> t[k].Scanned? || (cacheEnabled && t[k].CacheWritten?)
  }

  /** Every event of the reader-construction loop is a ReaderBuilt. */
  lemma {:induction false} BuildFromEvents(st: Storage, readers: seq<LastPointReader>, i: nat)
    requires i <= |readers|
    ensures OnlyReaderBuilt(BuildFrom(st, readers, i).events)
    decreases |readers| - i
  {
    if i < |readers| && !st.dataSourceFails(readers[i].path.Id()) {
      BuildFromEvents(st, readers, i + 1);
      var later := BuildFrom(st, readers, i + 1).events;
      var e := [ReaderBuilt(readers[i])] + later;
      assert BuildFrom(st, readers, i).events == e;
      forall k | 0 <= k < |e| ensures e[k].ReaderBuilt? {
        if k > 0 { assert e[k] == later[k - 1]; }
      }
    }
  }

  /** Every event of the scan loop is a Scanned, or a CacheWritten when caching is enabled. */
  lemma {:induction false} ScanFromEvents(st: Storage, s: seq<Slot>, readers: seq<LastPointReader>,
                                          paths: seq<Path>, cacheEnabled: bool, i: nat, index: nat)
    requires i <= |s| == |paths|
    requires index + CountMisses(s[i..]) == |readers|
    ensures OnlyScanCalls(ScanFrom(st, s, readers, paths, cacheEnabled, i, index).events, cacheEnabled)
    decreases |s| - i
  {
    if i < |s| {
      assert s[i..] == [s[i]] + s[i + 1..];
      if s[i].left {
        ScanFromEvents(st, s, readers, paths, cacheEnabled, i + 1, index);
        assert ScanFrom(st, s, readers, paths, cacheEnabled, i, index) ==
               ScanFrom(st, s, readers, paths, cacheEnabled, i + 1, index);
      } else if !st.readFails(readers[index].path.Id()) {
        ScanFromEvents(st, s, readers, paths, cacheEnabled, i + 1, index + 1);
        var reader := readers[index];
        var written := if cacheEnabled then [CacheWritten(paths[i], st.lastPoint(reader.path.Id()))] else [];
        var later := ScanFrom(st, s, readers, paths, cacheEnabled, i + 1, index + 1).events;
        var e := [Scanned(reader.path)] + written + later;
        assert ScanFrom(st, s, readers, paths, cacheEnabled, i, index).events == e;
        forall k | 0 <= k < |e| ensures e[k].Scanned? || (cacheEnabled && e[k].CacheWritten?) {
          if k > |written| { assert e[k] == later[k - 1 - |written|]; }
        }
      }
    }
  }

  /** The number of MergeLock and of MergeUnlock calls. */
  function LockCount(t: seq<Event>): nat
  {
    if t == [] then 0 else (if t[0].MergeLock? then 1 else 0) + LockCount(t[1..])
  }

  function UnlockCount(t: seq<Event>): nat
  {
    if t == [] then 0 else (if t[0].MergeUnlock? then 1 else 0) + UnlockCount(t[1..])
  }

  lemma {:induction false} LockCountAppend(a: seq<Event>, b: seq<Event>)
    ensures LockCount(a + b) == LockCount(a) + LockCount(b)
    ensures UnlockCount(a + b) == UnlockCount(a) + UnlockCount(b)
  {
    if a == [] {
      assert a + b == b;
    } else {
      assert (a + b)[1..] == a[1..] + b;
      LockCountAppend(a[1..], b);
    }
  }

  lemma {:induction false} NoLockEvents(t: seq<Event>)
    requires forall k :: 0 <= k < |t| ==> !t[k].MergeLock? && !t[k].MergeUnlock?
    ensures LockCount(t) == 0 && UnlockCount(t) == 0
  {
    if t != [] {
      NoLockEvents(t[1..]);
    }
  }

  /** Every scan happens after some release of the merge lock. */
  ghost predicate ReleasedBeforeScan(t: seq<Event>)
  {
    forall j :: 0 <= j < |t| && t[j].Scanned? ==> exists u :: 0 <= u < j && t[u].MergeUnlock?
  }

  /** Every reader is built after the merge lock is taken and before it is released. */
  ghost predicate BuiltUnderLock(t: seq<Event>)
  {
    forall j :: 0 <= j < |t| && t[j].ReaderBuilt? ==>
      (exists l :: 0 <= l < j && t[l].MergeLock?) && (exists u :: j < u < |t| && t[u].MergeUnlock?)
  }

  ghost predicate OnlyCacheReads(t: seq<Event>)
  {
    forall k :: 0 <= k < |t| ==> t[k].CacheRead?
  }

  /** A trace without the merge lock: no reader is built and nothing is scanned. */
  lemma UnlockedTrace(t: seq<Event>)
    requires OnlyCacheReads(t)
    ensures LockCount(t) == 0 && UnlockCount(t) == 0
    ensures BuiltUnderLock(t) && ReleasedBeforeScan(t)
  {
    NoLockEvents(t);
  }

  /** A trace that takes the merge lock: reads, lock, builds, unlock, scans. It locks and unlocks once. */
  lemma LockedTraceCounts(pre: seq<Event>, rest: seq<Path>, builds: seq<Event>, scans: seq<Event>, cacheEnabled: bool)
    requires OnlyCacheReads(pre) && OnlyReaderBuilt(builds) && OnlyScanCalls(scans, cacheEnabled)
    ensures var t := pre + [MergeLock(rest)] + builds + [MergeUnlock] + scans;
            LockCount(t) == 1 && UnlockCount(t) == 1
  {
    NoLockEvents(pre);
    NoLockEvents(builds);
    NoLockEvents(scans);
    LockCountAppend(pre, [MergeLock(rest)]);
    LockCountAppend(pre + [MergeLock(rest)], builds);
    LockCountAppend(pre + [MergeLock(rest)] + builds, [MergeUnlock]);
    LockCountAppend(pre + [MergeLock(rest)] + builds + [MergeUnlock], scans);
  }

  /** In the same trace, readers are built under the lock and scans follow its release. */
  lemma LockedTraceOrder(pre: seq<Event>, rest: seq<Path>, builds: seq<Event>, scans: seq<Event>, cacheEnabled: bool)
    requires OnlyCacheReads(pre) && OnlyReaderBuilt(builds) && OnlyScanCalls(scans, cacheEnabled)
    ensures var t := pre + [MergeLock(rest)] + builds + [MergeUnlock] + scans;
            BuiltUnderLock(t) && ReleasedBeforeScan(t)
  {
    var t := pre + [MergeLock(rest)] + builds + [MergeUnlock] + scans;
    var l, u := |pre|, |pre| + 1 + |builds|;
    assert t[l].MergeLock? && t[u].MergeUnlock?;
    assert forall k :: 0 <= k < l ==> t[k] == pre[k];
    assert forall k :: l < k < u ==> t[k] == builds[k - l - 1];
    assert forall k :: u < k < |t| ==> t[k] == scans[k - u - 1];
    forall j | 0 <= j < |t| && t[j].ReaderBuilt?
      ensures (exists l' :: 0 <= l' < j && t[l'].MergeLock?) &&
              (exists u' :: j < u' < |t| && t[u'].MergeUnlock?)
    {
      assert l < j < u;
    }
    forall j | 0 <= j < |t| && t[j].Scanned?
      ensures exists u' :: 0 <= u' < j && t[u'].MergeUnlock?
    {
      assert u < j;
    }
  }

  /** The lock discipline of the calls after the cache lookups `pre`. */
  lemma ResolveMissesLocks(st: Storage, slots: seq<Slot>, paths: seq<Path>, types: seq<DataType>,
                           dm: map<string, set<string>>, cacheEnabled: bool, pre: seq<Event>)
    requires |slots| == |paths| == |types|
    requires OnlyCacheReads(pre)
    ensures var t := pre + ResolveMisses(st, slots, paths, types, dm, cacheEnabled).events;
            var rest := Missed(slots, paths);
            LockCount(t) == UnlockCount(t) &&
            LockCount(t) == (if |rest| == 0 || st.mergeLockFails(rest) then 0 else 1) &&
            BuiltUnderLock(t) && ReleasedBeforeScan(t)
  {
    var m := ResolveMisses(st, slots, paths, types, dm, cacheEnabled);
    var rest := Missed(slots, paths);
    if |rest| == 0 || st.mergeLockFails(rest) {
      assert pre + m.events == pre;
      UnlockedTrace(pre);
    } else {
      var readers := ReadersFor(paths, types, dm, |rest|);
      var built := BuildFrom(st, readers, 0);
      BuildFromEvents(st, readers, 0);
      var locked := [MergeLock(rest)] + built.events + [MergeUnlock];
      var scans: seq<Event> := [];
      if built.ok {
        assert slots[0..] == slots;
        scans := ScanFrom(st, slots, readers, paths, cacheEnabled, 0, 0).events;
        ScanFromEvents(st, slots, readers, paths, cacheEnabled, 0, 0);
        assert m.events == locked + scans;
      } else {
        assert m.events == locked + scans;
      }
      assert pre + m.events == pre + [MergeLock(rest)] + built.events + [MergeUnlock] + scans;
      LockedTraceCounts(pre, rest, built.events, scans, cacheEnabled);
      LockedTraceOrder(pre, rest, built.events, scans, cacheEnabled);
    }
  }

  /**
   * The merge lock is taken at most once and only when some path missed the
   * cache; it is released exactly as often as it is taken (also when building
   * a reader failed); readers are built only while it is held; and every scan
   * comes after its release.
   */
  lemma ResolveLockDiscipline(st: Storage, cache: map<SeriesId, TimeValuePair>, paths: seq<Path>,
                              types: seq<DataType>, filter: Option<Filter>,
                              dm: map<string, set<string>>, cacheEnabled: bool)
    requires |types| == |paths|
    requires FilterApplicable(filter, cache, paths, cacheEnabled)
    ensures var o := Resolve(st, cache, paths, types, filter, dm, cacheEnabled);
            var rest := Missed(CachedSlots(cacheEnabled, cache, filter, paths), paths);
            LockCount(o.events) == UnlockCount(o.events) &&
            LockCount(o.events) == (if |rest| == 0 || st.mergeLockFails(rest) then 0 else 1) &&
            BuiltUnderLock(o.events) && ReleasedBeforeScan(o.events)
  {
    var slots := CachedSlots(cacheEnabled, cache, filter, paths);
    ResolveMissesLocks(st, slots, paths, types, dm, cacheEnabled, CacheReads(paths, cacheEnabled));
  }

  // ---------------------------------------------------------------------
  // Cache write-back.

  /** The paths and the pairs of the CacheWritten events, in order. */
  function WrittenPaths(t: seq<Event>): seq<Path>
  {
    if t == [] then [] else (if t[0].CacheWritten? then [t[0].path] else []) + WrittenPaths(t[1..])
  }

  function WrittenPairs(t: seq<Event>): seq<Option<TimeValuePair>>
  {
    if t == [] then [] else (if t[0].CacheWritten? then [t[0].pair] else []) + WrittenPairs(t[1..])
  }

  lemma {:induction false} WrittenAppend(a: seq<Event>, b: seq<Event>)
    ensures WrittenPaths(a + b) == WrittenPaths(a) + WrittenPaths(b)
    ensures WrittenPairs(a + b) == WrittenPairs(a) + WrittenPairs(b)
  {
    WrittenPathsAppend(a, b);
    WrittenPairsAppend(a, b);
  }

  lemma {:induction false} WrittenPathsAppend(a: seq<Event>, b: seq<Event>)
    ensures WrittenPaths(a + b) == WrittenPaths(a) + WrittenPaths(b)
  {
    if a == [] {
      assert a + b == b;
    } else {
      assert (a + b)[0] == a[0] && (a + b)[1..] == a[1..] + b;
      WrittenPathsAppend(a[1..], b);
    }
  }

  lemma {:induction false} WrittenPairsAppend(a: seq<Event>, b: seq<Event>)
    ensures WrittenPairs(a + b) == WrittenPairs(a) + WrittenPairs(b)
  {
    if a == [] {
      assert a + b == b;
    } else {
      assert (a + b)[0] == a[0] && (a + b)[1..] == a[1..] + b;
      WrittenPairsAppend(a[1..], b);
    }
  }

  lemma {:induction false} NothingWritten(t: seq<Event>)
    requires forall k :: 0 <= k < |t| ==> !t[k].CacheWritten?
    ensures WrittenPaths(t) == [] && WrittenPairs(t) == []
  {
    if t != [] {
      NothingWritten(t[1..]);
    }
  }

  /**
   * A successful scan loop with caching enabled writes, in order, the paths of
   * the unresolved slots from i on, with the scan results from reader `index` on.
   */
  lemma {:induction false} ScanFromWrites(st: Storage, s: seq<Slot>, readers: seq<LastPointReader>,
                                          paths: seq<Path>, i: nat, index: nat)
    requires i <= |s| == |paths|
    requires index + CountMisses(s[i..]) == |readers|
    requires ScanFrom(st, s, readers, paths, true, i, index).ok
    ensures var e := ScanFrom(st, s, readers, paths, true, i, index).events;
            WrittenPaths(e) == Missed(s[i..], paths[i..]) &&
            WrittenPairs(e) == ScanResults(st, readers)[index..]
    decreases |s| - i
  {
    var e := ScanFrom(st, s, readers, paths, true, i, index).events;
    if i == |s| {
      assert ScanResults(st, readers)[index..] == [];
    } else {
      assert s[i..] == [s[i]] + s[i + 1..];
      assert s[i..][1..] == s[i + 1..] && paths[i..][1..] == paths[i + 1..];
      if s[i].left {
        ScanFromWrites(st, s, readers, paths, i + 1, index);
      } else {
        var reader := readers[index];
        var w := [CacheWritten(paths[i], st.lastPoint(reader.path.Id()))];
        var later := ScanFrom(st, s, readers, paths, true, i + 1, index + 1);
        assert e == [Scanned(reader.path)] + w + later.events;
        ScanFromWrites(st, s, readers, paths, i + 1, index + 1);
        WrittenAppend([Scanned(reader.path)] + w, later.events);
        WrittenAppend([Scanned(reader.path)], w);
        assert WrittenPaths([Scanned(reader.path)]) == [];
        assert WrittenPairs([Scanned(reader.path)]) == [];
        assert ScanResults(st, readers)[index..] ==
               [st.lastPoint(reader.path.Id())] + ScanResults(st, readers)[index + 1..];
      }
    }
  }

  /** The events after the lookups, with caching enabled: the writes of a successful call. */
  lemma {:induction false} ResolveMissesWriteBack(st: Storage, slots: seq<Slot>, paths: seq<Path>,
                                                  types: seq<DataType>, dm: map<string, set<string>>)
    requires |slots| == |paths| == |types|
    ensures var m := ResolveMisses(st, slots, paths, types, dm, true);
            m.result.Ok? ==>
              WrittenPaths(m.events) == Missed(slots, paths) &&
              |WrittenPairs(m.events)| == CountMisses(slots) &&
              WrittenPairs(m.events) == ScanResults(st, ReadersFor(paths, types, dm, CountMisses(slots))) &&
              forall j :: 0 <= j < |paths| && !slots[j].left ==>
                Rank(slots, j) < CountMisses(slots) &&
                WrittenPairs(m.events)[Rank(slots, j)] == m.result.value[j].right
  {
    var m := ResolveMisses(st, slots, paths, types, dm, true);
    var rest := Missed(slots, paths);
    if |rest| == 0 {
      NoMissesAllResolved(slots);
      assert ScanResults(st, ReadersFor(paths, types, dm, 0)) == [];
    } else if !st.mergeLockFails(rest) {
      var readers := ReadersFor(paths, types, dm, |rest|);
      var built := BuildFrom(st, readers, 0);
      BuildFromEvents(st, readers, 0);
      NothingWritten(built.events);
      var locked := [MergeLock(rest)] + built.events + [MergeUnlock];
      WrittenAppend([MergeLock(rest)], built.events);
      WrittenAppend([MergeLock(rest)] + built.events, [MergeUnlock]);
      assert WrittenPaths([MergeLock(rest)]) == [] && WrittenPairs([MergeLock(rest)]) == [];
      assert WrittenPaths([MergeUnlock]) == [] && WrittenPairs([MergeUnlock]) == [];
      assert WrittenPaths(locked) == [] && WrittenPairs(locked) == [];
      if built.ok {
        assert slots[0..] == slots && paths[0..] == paths;
        var scan := ScanFrom(st, slots, readers, paths, true, 0, 0);
        WrittenAppend(locked, scan.events);
        if scan.ok {
          ScanFromWrites(st, slots, readers, paths, 0, 0);
          var results := ScanResults(st, readers);
          assert results[0..] == results;
          forall j | 0 <= j < |paths| && !slots[j].left
            ensures Rank(slots, j) < CountMisses(slots) &&
                    WrittenPairs(m.events)[Rank(slots, j)] == m.result.value[j].right
          {
            RankInRange(slots, j);
          }
        }
      }
    }
  }

  /** The events after the lookups, with caching disabled: no cache read or write. */
  lemma ResolveMissesNoCacheCalls(st: Storage, slots: seq<Slot>, paths: seq<Path>,
                                  types: seq<DataType>, dm: map<string, set<string>>)
    requires |slots| == |paths| == |types|
    ensures var e := ResolveMisses(st, slots, paths, types, dm, false).events;
            forall k :: 0 <= k < |e| ==> !e[k].CacheRead? && !e[k].CacheWritten?
  {
    var rest := Missed(slots, paths);
    if |rest| != 0 && !st.mergeLockFails(rest) {
      var readers := ReadersFor(paths, types, dm, |rest|);
      BuildFromEvents(st, readers, 0);
      assert slots[0..] == slots;
      ScanFromEvents(st, slots, readers, paths, false, 0, 0);
    }
  }

  /**
   * Write-back: with caching enabled, a successful call writes the cache once
   * per unresolved slot and for no other slot: the write at j's rank writes
   * path j with j's final, unfiltered, pair (null included). With caching
   * disabled nothing is read from or written to the cache.
   */
  lemma ResolveWriteBack(st: Storage, cache: map<SeriesId, TimeValuePair>, paths: seq<Path>,
                         types: seq<DataType>, filter: Option<Filter>,
                         dm: map<string, set<string>>, cacheEnabled: bool)
    requires |types| == |paths|
    requires FilterApplicable(filter, cache, paths, cacheEnabled)
    ensures var o := Resolve(st, cache, paths, types, filter, dm, cacheEnabled);
            var slots := CachedSlots(cacheEnabled, cache, filter, paths);
            (o.result.Ok? && cacheEnabled ==>
              |WrittenPaths(o.events)| == |WrittenPairs(o.events)| == CountMisses(slots) &&
              forall j :: 0 <= j < |paths| && !slots[j].left ==>
                Rank(slots, j) < CountMisses(slots) &&
                WrittenPaths(o.events)[Rank(slots, j)] == paths[j] &&
                WrittenPairs(o.events)[Rank(slots, j)] == o.result.value[j].right) &&
            (!cacheEnabled ==> forall k :: 0 <= k < |o.events| ==>
                                 !o.events[k].CacheRead? && !o.events[k].CacheWritten?)
  {
    var slots := CachedSlots(cacheEnabled, cache, filter, paths);
    var lookups := CacheReads(paths, cacheEnabled);
    var m := ResolveMisses(st, slots, paths, types, dm, cacheEnabled);
    if cacheEnabled {
      NothingWritten(lookups);
      WrittenAppend(lookups, m.events);
      ResolveMissesWriteBack(st, slots, paths, types, dm);
      forall j | 0 <= j < |paths| && !slots[j].left
        ensures Rank(slots, j) < |Missed(slots, paths)| && Missed(slots, paths)[Rank(slots, j)] == paths[j]
      {
        MissedAt(slots, paths, j);
      }
    } else {
      ResolveMissesNoCacheCalls(st, slots, paths, types, dm);
      assert lookups + m.events == m.events;
    }
  }

  /**
   * With caching disabled every slot misses, restPaths is the whole input,
   * slot k receives the scan of path k, and the filter plays no part.
   */
  lemma CacheDisabledScansAll(st: Storage, cache: map<SeriesId, TimeValuePair>, paths: seq<Path>,
                              types: seq<DataType>, filter: Option<Filter>,
                              dm: map<string, set<string>>)
    requires |types| == |paths|
    ensures var slots := CachedSlots(false, cache, filter, paths);
            var o := Resolve(st, cache, paths, types, filter, dm, false);
            (forall j :: 0 <= j < |paths| ==> slots[j] == Miss) &&
            Missed(slots, paths) == paths &&
            (o.result.Ok? ==> forall k :: 0 <= k < |paths| ==>
                                o.result.value[k] == Slot(true, st.lastPoint(paths[k].Id())))
  {
    var slots := CachedSlots(false, cache, filter, paths);
    MissedAllMisses(slots, paths);
    forall k | 0 <= k < |paths| ensures Rank(slots, k) == k {
      RankOnMissPrefix(slots, k);
    }
    ResolveAligned(st, cache, paths, types, filter, dm, false);
  }

  /** With caching disabled the filter plays no part at all. */
  lemma FilterIgnoredWhenCacheDisabled(st: Storage, cache: map<SeriesId, TimeValuePair>, paths: seq<Path>,
                                       types: seq<DataType>, filter: Option<Filter>, filter': Option<Filter>,
                                       dm: map<string, set<string>>)
    requires |types| == |paths|
    ensures Resolve(st, cache, paths, types, filter, dm, false) ==
            Resolve(st, cache, paths, types, filter', dm, false)
  {
    assert CachedSlots(false, cache, filter, paths) == CachedSlots(false, cache, filter', paths);
  }

  /**
   * When the resolver fails, and with which error: with some path missed, a
   * failing merge lock, then any failing data source of the readers built
   * (those of the first restPaths.size() input series, in the code as
   * written), then any failing read among them. It succeeds when nothing
   * missed or none of these fails.
   */
  lemma ResolveSuccess(st: Storage, cache: map<SeriesId, TimeValuePair>, paths: seq<Path>,
                       types: seq<DataType>, filter: Option<Filter>,
                       dm: map<string, set<string>>, cacheEnabled: bool)
    requires |types| == |paths|
    requires FilterApplicable(filter, cache, paths, cacheEnabled)
    ensures var rest := Missed(CachedSlots(cacheEnabled, cache, filter, paths), paths);
            var n := |rest|;
            var r := Resolve(st, cache, paths, types, filter, dm, cacheEnabled).result;
            n <= |paths| &&
            (r.Ok? <==> n == 0 || (!st.mergeLockFails(rest) &&
                                   forall k :: 0 <= k < n ==>
                                     !st.dataSourceFails(paths[k].Id()) && !st.readFails(paths[k].Id()))) &&
            (n > 0 && st.mergeLockFails(rest) ==> r == Err(MergeLockError)) &&
            (n > 0 && !st.mergeLockFails(rest) && (exists k :: 0 <= k < n && st.dataSourceFails(paths[k].Id())) ==>
               r == Err(DataSourceError)) &&
            (n > 0 && !st.mergeLockFails(rest) && (forall k :: 0 <= k < n ==> !st.dataSourceFails(paths[k].Id())) &&
             (exists k :: 0 <= k < n && st.readFails(paths[k].Id())) ==>
               r == Err(ReadError))
  {
    var slots := CachedSlots(cacheEnabled, cache, filter, paths);
    var rest := Missed(slots, paths);
    if |rest| > 0 && !st.mergeLockFails(rest) {
      var readers := ReadersFor(paths, types, dm, |rest|);
      assert slots[0..] == slots;
      assert forall k :: 0 <= k < |rest| ==> readers[k].path == paths[k];
    }
  }

  // ---------------------------------------------------------------------
  // The last cache a query leaves behind.

  /** The cache after merging pairs[k] into the entry of ps[k], for each k in order. */
  function MergeAll(st: Storage, cache: map<SeriesId, TimeValuePair>, ps: seq<Path>,
                    pairs: seq<Option<TimeValuePair>>): map<SeriesId, TimeValuePair>
    requires |ps| == |pairs|
    decreases |ps|
  {
    if ps == [] then cache
    else MergeAll(st, st.updateLastCache(cache, ps[0].Id(), pairs[0]), ps[1..], pairs[1..])
  }

  /** The cache after some calls is the cache after their writes, in order. */
  lemma {:induction false} CacheAfterWrites(st: Storage, cache: map<SeriesId, TimeValuePair>, t: seq<Event>)
    ensures |WrittenPaths(t)| == |WrittenPairs(t)|
    ensures CacheAfter(st, cache, t) == MergeAll(st, cache, WrittenPaths(t), WrittenPairs(t))
    decreases |t|
  {
    if t != [] {
      var next := if t[0].CacheWritten? then st.updateLastCache(cache, t[0].path.Id(), t[0].pair) else cache;
      CacheAfterWrites(st, next, t[1..]);
      var ps, pairs := WrittenPaths(t), WrittenPairs(t);
      if t[0].CacheWritten? {
        assert ps == [t[0].path] + WrittenPaths(t[1..]) && pairs == [t[0].pair] + WrittenPairs(t[1..]);
        assert ps[0] == t[0].path && ps[1..] == WrittenPaths(t[1..]);
        assert pairs[0] == t[0].pair && pairs[1..] == WrittenPairs(t[1..]);
      } else {
        assert ps == WrittenPaths(t[1..]) && pairs == WrittenPairs(t[1..]);
      }
    }
  }

  /** The cache lookups leave the cache as it is. */
  lemma CacheReadsNoWrites(st: Storage, cache: map<SeriesId, TimeValuePair>, paths: seq<Path>, cacheEnabled: bool)
    ensures CacheAfter(st, cache, CacheReads(paths, cacheEnabled)) == cache
  {
    CacheAfterNoWrites(st, cache, CacheReads(paths, cacheEnabled));
  }

  /** Taking the merge lock, building readers and releasing the lock leave the cache as it is. */
  lemma LockedNoWrites(st: Storage, cache: map<SeriesId, TimeValuePair>, rest: seq<Path>,
                       readers: seq<LastPointReader>)
    ensures CacheAfter(st, cache, [MergeLock(rest)] + BuildFrom(st, readers, 0).events + [MergeUnlock]) == cache
  {
    var b := BuildFrom(st, readers, 0).events;
    BuildFromEvents(st, readers, 0);
    var t := [MergeLock(rest)] + b + [MergeUnlock];
    forall k | 0 <= k < |t| ensures !t[k].CacheWritten? {
      if 0 < k < |t| - 1 {
        assert t[k] == b[k - 1];
      }
    }
    CacheAfterNoWrites(st, cache, t);
  }

  /**
   * The last cache a query leaves: unchanged with caching disabled; with
   * caching enabled and success, the scan result of each reader merged, in
   * order, into the entry of the missed path it was handed to.
   */
  lemma ResolveFinalCache(st: Storage, cache: map<SeriesId, TimeValuePair>, paths: seq<Path>,
                          types: seq<DataType>, filter: Option<Filter>,
                          dm: map<string, set<string>>, cacheEnabled: bool)
    requires |types| == |paths|
    requires FilterApplicable(filter, cache, paths, cacheEnabled)
    ensures var rest := Missed(CachedSlots(cacheEnabled, cache, filter, paths), paths);
            var o := Resolve(st, cache, paths, types, filter, dm, cacheEnabled);
            |rest| <= |paths| &&
            (!cacheEnabled ==> CacheAfter(st, cache, o.events) == cache) &&
            (cacheEnabled && o.result.Ok? ==>
               CacheAfter(st, cache, o.events) ==
               MergeAll(st, cache, rest, ScanResults(st, ReadersFor(paths, types, dm, |rest|))))
  {
    var slots := CachedSlots(cacheEnabled, cache, filter, paths);
    var lookups := CacheReads(paths, cacheEnabled);
    var m := ResolveMisses(st, slots, paths, types, dm, cacheEnabled);
    var o := Resolve(st, cache, paths, types, filter, dm, cacheEnabled);
    assert o.events == lookups + m.events;
    if !cacheEnabled {
      ResolveWriteBack(st, cache, paths, types, filter, dm, cacheEnabled);
      CacheAfterNoWrites(st, cache, o.events);
    } else if o.result.Ok? {
      CacheAfterWrites(st, cache, o.events);
      NothingWritten(lookups);
      WrittenAppend(lookups, m.events);
      ResolveMissesWriteBack(st, slots, paths, types, dm);
      assert WrittenPaths(o.events) == WrittenPaths(m.events) == Missed(slots, paths);
      assert WrittenPairs(o.events) == WrittenPairs(m.events);
    }
  }
}
