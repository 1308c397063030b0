/**
 * The collaborators the last-value resolver calls into: the metadata
 * manager's per-series last cache, the storage engine's merge lock, the
 * query resource manager's data sources and the last point readers. Their
 * behaviour is given by a `Storage` value; every call is recorded, in order,
 * in the engine's `trace`, so that properties about which calls happen and
 * in which order can be stated.
 */
module Collaborators {
  import opened Wrappers
  import opened Series

  /** The exceptions the resolver lets escape. */
  datatype QueryError =
    | MergeLockError   // StorageEngine.mergeLock threw
    | DataSourceError  // QueryResourceManager.getQueryDataSource threw
    | ReadError        // LastPointReader.readLastPoint threw

  /** A LastPointReader, as far as it is determined by its constructor's arguments. */
  datatype LastPointReader = LastPointReader(path: Path, dataType: DataType,
                                             deviceMeasurements: Option<set<string>>)

  /**
   * What the storage engine and the metadata manager answer, left
   * uninterpreted: the last point of a series, whether the merge lock, a data
   * source or a read fails, and the cache that updateLastCache leaves after
   * merging a pair into it. Everything but the merge lock depends on the
   * series only, not on the aliases a path carries.
   */
  datatype Storage = Storage(
    lastPoint: SeriesId -> Option<TimeValuePair>,
    mergeLockFails: seq<Path> -> bool,
    dataSourceFails: SeriesId -> bool,
    readFails: SeriesId -> bool,
    updateLastCache: (map<SeriesId, TimeValuePair>, SeriesId, Option<TimeValuePair>) -> map<SeriesId, TimeValuePair>)

  /** One call into a collaborator. */
  datatype Event =
    | CacheRead(path: Path)
    | CacheWritten(path: Path, pair: Option<TimeValuePair>)
    | MergeLock(paths: seq<Path>)
    | MergeUnlock
    | ReaderBuilt(reader: LastPointReader)
    | Scanned(path: Path)

  /** The cached last pair of a series; None is the Java `null`, a miss. */
  function Lookup(cache: map<SeriesId, TimeValuePair>, path: Path): Option<TimeValuePair>
  {
    if path.Id() in cache then Some(cache[path.Id()]) else None
  }

  /** deviceMeasurementsMap.get(device), which is null for an absent device. */
  function MeasurementsOf(deviceMeasurements: map<string, set<string>>, path: Path): Option<set<string>>
  {
    if path.device in deviceMeasurements then Some(deviceMeasurements[path.device]) else None
  }

  /** The reader the resolver constructs for `path`. */
  function NewReader(path: Path, dataType: DataType, deviceMeasurements: map<string, set<string>>): LastPointReader
  {
    LastPointReader(path, dataType, MeasurementsOf(deviceMeasurements, path))
  }

  /** The last cache after the calls `t`: each cache write merges its pair in, other calls leave it. */
  function CacheAfter(st: Storage, cache: map<SeriesId, TimeValuePair>, t: seq<Event>): map<SeriesId, TimeValuePair>
    decreases |t|
  {
    if t == [] then cache
    else
      var next := if t[0].CacheWritten? then st.updateLastCache(cache, t[0].path.Id(), t[0].pair) else cache;
      CacheAfter(st, next, t[1..])
  }

  lemma {:induction false} CacheAfterAppend(st: Storage, cache: map<SeriesId, TimeValuePair>, a: seq<Event>, b: seq<Event>)
    ensures CacheAfter(st, cache, a + b) == CacheAfter(st, CacheAfter(st, cache, a), b)
    decreases |a|
  {
    if a == [] {
      assert a + b == b;
    } else {
      assert (a + b)[0] == a[0] && (a + b)[1..] == a[1..] + b;
      var next := if a[0].CacheWritten? then st.updateLastCache(cache, a[0].path.Id(), a[0].pair) else cache;
      CacheAfterAppend(st, next, a[1..], b);
    }
  }

  /** Calls that write nothing leave the cache as it is. */
  lemma {:induction false} CacheAfterNoWrites(st: Storage, cache: map<SeriesId, TimeValuePair>, t: seq<Event>)
    requires forall k :: 0 <= k < |t| ==> !t[k].CacheWritten?
    ensures CacheAfter(st, cache, t) == cache
    decreases |t|
  {
    if t != [] {
      assert !t[0].CacheWritten?;
      CacheAfterNoWrites(st, cache, t[1..]);
    }
  }

  /** Regrouping appended calls. */
  lemma EventsAssoc(a: seq<Event>, b: seq<Event>, c: seq<Event>)
    ensures (a + b) + c == a + (b + c)
  {
  }

  /** The process-wide collaborators and the log of calls made to them. */
  class Engine {
    const storage: Storage
    var lastCache: map<SeriesId, TimeValuePair>
    var trace: seq<Event>

    constructor (storage: Storage, lastCache: map<SeriesId, TimeValuePair>)
      ensures this.storage == storage && this.lastCache == lastCache && trace == []
    {
      this.storage := storage;
      this.lastCache := lastCache;
      trace := [];
    }

    /** The metadata manager's cached last pair of `path`. */
    method GetCachedLast(path: Path) returns (pair: Option<TimeValuePair>)
      modifies this
      ensures pair == Lookup(lastCache, path)
      ensures lastCache == old(lastCache) && trace == old(trace) + [CacheRead(path)]
    {
      pair := Lookup(lastCache, path);
      trace := trace + [CacheRead(path)];
    }

    /** updateLastCache: merges the pair into the cache entry of the series, as the metadata manager decides. */
    method UpdateLastCache(path: Path, pair: Option<TimeValuePair>)
      modifies this
      ensures lastCache == storage.updateLastCache(old(lastCache), path.Id(), pair)
      ensures lastCache == CacheAfter(storage, old(lastCache), [CacheWritten(path, pair)])
      ensures trace == old(trace) + [CacheWritten(path, pair)]
    {
      lastCache := storage.updateLastCache(lastCache, path.Id(), pair);
      trace := trace + [CacheWritten(path, pair)];
    }

    /** StorageEngine.mergeLock over the storage groups of `paths`; false when it throws. */
    method MergeLock(paths: seq<Path>) returns (locked: bool)
      modifies this
      ensures locked == !storage.mergeLockFails(paths)
      ensures lastCache == old(lastCache)
      ensures trace == old(trace) + (if locked then [Event.MergeLock(paths)] else [])
    {
      locked := !storage.mergeLockFails(paths);
      if locked {
        trace := trace + [Event.MergeLock(paths)];
      }
    }

    /** StorageEngine.mergeUnLock. */
    method MergeUnLock()
      modifies this
      ensures lastCache == old(lastCache) && trace == old(trace) + [MergeUnlock]
    {
      trace := trace + [MergeUnlock];
    }

    /** getQueryDataSource followed by the LastPointReader constructor. */
    method OpenLastPointReader(path: Path, dataType: DataType, deviceMeasurements: map<string, set<string>>)
      returns (r: Result<LastPointReader, QueryError>)
      modifies this
      ensures r == if storage.dataSourceFails(path.Id()) then Err(DataSourceError)
                   else Ok(NewReader(path, dataType, deviceMeasurements))
      ensures lastCache == old(lastCache)
      ensures trace == old(trace) + (if r.Ok? then [ReaderBuilt(r.value)] else [])
    {
      if storage.dataSourceFails(path.Id()) {
        r := Err(DataSourceError);
      } else {
        var reader := NewReader(path, dataType, deviceMeasurements);
        trace := trace + [ReaderBuilt(reader)];
        r := Ok(reader);
      }
    }

    /** LastPointReader.readLastPoint: the last visible point of the reader's series. */
    method ReadLastPoint(reader: LastPointReader) returns (r: Result<Option<TimeValuePair>, QueryError>)
      modifies this
      ensures r == if storage.readFails(reader.path.Id()) then Err(ReadError)
                   else Ok(storage.lastPoint(reader.path.Id()))
      ensures lastCache == old(lastCache) && trace == old(trace) + [Scanned(reader.path)]
    {
      trace := trace + [Scanned(reader.path)];
      r := if storage.readFails(reader.path.Id()) then Err(ReadError) else Ok(storage.lastPoint(reader.path.Id()));
    }
  }
}
