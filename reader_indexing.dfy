/**
 * The reader indexing of calculateLastPairForSeriesLocally. The source
 * builds its k-th reader from seriesPaths[k] and dataTypes[k], although the
 * scan hands the k-th reader's result to the k-th unresolved slot, whose
 * series is restPaths[k]. The two agree when the misses form a prefix of the
 * input (always, with caching disabled), and differ as soon as a cache hit
 * comes before a miss. `Resolution.Resolve` models the code as written; this
 * module exhibits the discrepancy and proves the intended behaviour of the
 * corrected definition, which builds the k-th reader from restPaths[k].
 */
module ReaderIndexing {
  import opened Wrappers
  import opened Series
  import opened Collaborators
  import opened Resolution

  /** The intended readers: one per unresolved slot, from that slot's own path and data type. */
  function IntendedReaders(slots: seq<Slot>, paths: seq<Path>, types: seq<DataType>,
                           deviceMeasurements: map<string, set<string>>): (readers: seq<LastPointReader>)
    requires |slots| == |paths| == |types|
    ensures |readers| == CountMisses(slots)
  {
    var rest := Missed(slots, paths);
    var restTypes := Missed(slots, types);
    seq(|rest|, k requires 0 <= k < |rest| => NewReader(rest[k], restTypes[k], deviceMeasurements))
  }

  /** calculateLastPairForSeriesLocally with the intended readers. */
  function ResolveIntended(st: Storage, cache: map<SeriesId, TimeValuePair>, paths: seq<Path>,
                           types: seq<DataType>, filter: Option<Filter>,
                           deviceMeasurements: map<string, set<string>>, cacheEnabled: bool): (o: Outcome)
    requires |types| == |paths|
    requires FilterApplicable(filter, cache, paths, cacheEnabled)
    ensures o.result.Ok? ==> |o.result.value| == |paths|
  {
    var slots := CachedSlots(cacheEnabled, cache, filter, paths);
    var rest := Missed(slots, paths);
    var m :=
      if |rest| == 0 then Outcome(Ok(slots), [])
      else if st.mergeLockFails(rest) then Outcome(Err(MergeLockError), [])
      else LockedScan(st, slots, paths, rest, IntendedReaders(slots, paths, types, deviceMeasurements), cacheEnabled);
    Outcome(m.result, CacheReads(paths, cacheEnabled) + m.events)
  }

  /**
   * The corrected resolver gives every slot that missed the cache the last
   * point of its own series, and every cache hit its cached (filtered) answer.
   */
  lemma ResolveIntendedScansOwnSeries(st: Storage, cache: map<SeriesId, TimeValuePair>, paths: seq<Path>,
                                      types: seq<DataType>, filter: Option<Filter>,
                                      dm: map<string, set<string>>, cacheEnabled: bool)
    requires |types| == |paths|
    requires FilterApplicable(filter, cache, paths, cacheEnabled)
    ensures var o := ResolveIntended(st, cache, paths, types, filter, dm, cacheEnabled);
            var slots := CachedSlots(cacheEnabled, cache, filter, paths);
            o.result.Ok? ==>
              forall j :: 0 <= j < |paths| ==>
                (slots[j].left ==> o.result.value[j] == slots[j]) &&
                (!slots[j].left ==> o.result.value[j] == Slot(true, st.lastPoint(paths[j].Id())))
  {
    var o := ResolveIntended(st, cache, paths, types, filter, dm, cacheEnabled);
    var slots := CachedSlots(cacheEnabled, cache, filter, paths);
    var rest := Missed(slots, paths);
    if o.result.Ok? {
      if |rest| == 0 {
        NoMissesAllResolved(slots);
      } else {
        var readers := IntendedReaders(slots, paths, types, dm);
        var results := ScanResults(st, readers);
        assert o.result.value == Filled(slots, results);
        forall j | 0 <= j < |paths|
          ensures (slots[j].left ==> o.result.value[j] == slots[j]) &&
                  (!slots[j].left ==> o.result.value[j] == Slot(true, st.lastPoint(paths[j].Id())))
        {
          FilledAt(slots, results, j);
          if !slots[j].left {
            MissedAt(slots, paths, j);
          }
        }
      }
    }
  }

  /** With caching disabled every slot misses, and the code as written is the corrected resolver. */
  lemma AsWrittenIntendedWhenCacheDisabled(st: Storage, cache: map<SeriesId, TimeValuePair>, paths: seq<Path>,
                                          types: seq<DataType>, filter: Option<Filter>,
                                          dm: map<string, set<string>>)
    requires |types| == |paths|
    ensures Resolve(st, cache, paths, types, filter, dm, false) ==
            ResolveIntended(st, cache, paths, types, filter, dm, false)
  {
    var slots := CachedSlots(false, cache, filter, paths);
    MissedAllMisses(slots, paths);
    MissedAllMisses(slots, types);
    assert IntendedReaders(slots, paths, types, dm) == ReadersFor(paths, types, dm, |paths|);
  }

  /** Every miss comes before every hit. */
  ghost predicate MissesFirst(s: seq<Slot>)
  {
    forall i, j :: 0 <= i < j < |s| && !s[j].left ==> !s[i].left
  }

  /** A list of hits counts no miss. */
  lemma {:induction false} AllHitsNoMisses(s: seq<Slot>)
    requires forall j :: 0 <= j < |s| ==> s[j].left
    ensures CountMisses(s) == 0
  {
    if s != [] {
      AllHitsNoMisses(s[1..]);
    }
  }

  /** When the misses come first, they are the first CountMisses(s) slots. */
  lemma {:induction false} MissesFirstPrefix(s: seq<Slot>)
    requires MissesFirst(s)
    ensures forall k :: 0 <= k < CountMisses(s) ==> !s[k].left
  {
    if s != [] {
      if s[0].left {
        assert forall j :: 0 <= j < |s| ==> s[j].left;
        AllHitsNoMisses(s);
      } else {
        var t := s[1..];
        assert MissesFirst(t) by {
          forall i, j | 0 <= i < j < |t| && !t[j].left ensures !t[i].left {
            assert t[i] == s[i + 1] && t[j] == s[j + 1];
          }
        }
        MissesFirstPrefix(t);
        forall k | 0 < k < CountMisses(s) ensures !s[k].left {
          assert s[k] == t[k - 1];
        }
      }
    }
  }

  /**
   * When every miss comes before every hit, the code as written builds the
   * readers of the missed series and agrees with the corrected resolver.
   */
  lemma AsWrittenIntendedOnMissPrefix(st: Storage, cache: map<SeriesId, TimeValuePair>, paths: seq<Path>,
                                      types: seq<DataType>, filter: Option<Filter>,
                                      dm: map<string, set<string>>, cacheEnabled: bool)
    requires |types| == |paths|
    requires FilterApplicable(filter, cache, paths, cacheEnabled)
    requires MissesFirst(CachedSlots(cacheEnabled, cache, filter, paths))
    ensures Resolve(st, cache, paths, types, filter, dm, cacheEnabled) ==
            ResolveIntended(st, cache, paths, types, filter, dm, cacheEnabled)
  {
    var slots := CachedSlots(cacheEnabled, cache, filter, paths);
    var n := CountMisses(slots);
    MissesFirstPrefix(slots);
    var rest, restTypes := Missed(slots, paths), Missed(slots, types);
    forall k | 0 <= k < n ensures rest[k] == paths[k] && restTypes[k] == types[k] {
      RankOnMissPrefix(slots, k);
      MissedAt(slots, paths, k);
      MissedAt(slots, types, k);
    }
    assert IntendedReaders(slots, paths, types, dm) == ReadersFor(paths, types, dm, n);
  }

  /**
   * The code as written, on two series a and b where a is cached (no filter)
   * and b is not: restPaths is [b], but its one reader is built from a, so
   * slot 1 receives a's last point and b's cache entry is written with it.
   * The corrected resolver gives slot 1 the last point of b.
   */
  lemma ReaderIndexCounterexample()
    ensures var a := Path("root.sg", "s1", None, None);
            var b := Path("root.sg", "s2", None, None);
            var pointA := TimeValuePair(10, Some(IntValue(100)));
            var pointB := TimeValuePair(20, Some(IntValue(200)));
            var st := Storage(id => if id == a.Id() then Some(pointA) else Some(pointB),
                              ps => false, id => false, id => false, (c, id, v) => c);
            var cache := map[a.Id() := TimeValuePair(5, Some(IntValue(1)))];
            var o := Resolve(st, cache, [a, b], [INT32, INT32], None, map[], true);
            var fixed := ResolveIntended(st, cache, [a, b], [INT32, INT32], None, map[], true);
            o.result.Ok? && o.result.value[1] == Slot(true, Some(pointA)) &&
            CacheWritten(b, Some(pointA)) in o.events &&
            fixed.result.Ok? && fixed.result.value[1] == Slot(true, Some(pointB))
  {
    var a := Path("root.sg", "s1", None, None);
    var b := Path("root.sg", "s2", None, None);
    var pointA := TimeValuePair(10, Some(IntValue(100)));
    var pointB := TimeValuePair(20, Some(IntValue(200)));
    var st := Storage(id => if id == a.Id() then Some(pointA) else Some(pointB),
                      ps => false, id => false, id => false, (c, id, v) => c);
    var cache := map[a.Id() := TimeValuePair(5, Some(IntValue(1)))];
    var paths, types, dm := [a, b], [INT32, INT32], map[];
    assert a.Id() != b.Id();
    var slots := CachedSlots(true, cache, None, paths);
    assert slots == [Slot(true, Some(TimeValuePair(5, Some(IntValue(1))))), Miss];
    assert slots[1..] == [Miss] && slots[1..][1..] == [];
    assert Missed(slots, paths) == [b];
    assert Missed(slots, types) == [INT32];
    RankStep(slots, 0);
    assert Rank(slots, 1) == 0;

    var asWritten := ReadersFor(paths, types, dm, 1);
    assert asWritten == [NewReader(a, INT32, dm)];
    assert slots[0..] == slots && slots[1..] == [Miss] && slots[2..] == [];
    var scan := ScanFrom(st, slots, asWritten, paths, true, 0, 0);
    assert ScanFrom(st, slots, asWritten, paths, true, 2, 1) == Phase(true, []);
    assert ScanFrom(st, slots, asWritten, paths, true, 1, 0) ==
           Phase(true, [Scanned(a), CacheWritten(b, Some(pointA))]);
    assert scan == ScanFrom(st, slots, asWritten, paths, true, 1, 0);
    assert BuildFrom(st, asWritten, 1) == Phase(true, []);
    var built := BuildFrom(st, asWritten, 0);
    assert built.ok;
    var o := Resolve(st, cache, paths, types, None, dm, true);
    var tail := [MergeLock([b])] + built.events + [MergeUnlock] + scan.events;
    assert o.events == CacheReads(paths, true) + tail;
    assert tail[|tail| - 1] == CacheWritten(b, Some(pointA));
    assert o.events[|o.events| - 1] == CacheWritten(b, Some(pointA));
    FilledAt(slots, ScanResults(st, asWritten), 1);

    var intended := IntendedReaders(slots, paths, types, dm);
    assert intended == [NewReader(b, INT32, dm)];
    FilledAt(slots, ScanResults(st, intended), 1);
  }
}
