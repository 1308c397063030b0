/** Option and Result, standing for Java's nullable references and thrown exceptions. */
module Wrappers {
  datatype Option<T> = None | Some(value: T)

  datatype Result<T, E> = Ok(value: T) | Err(error: E)
}

/**
 * The values a last query works on: series paths, data types, time-value
 * pairs and the optional global filter.
 */
module Series {
  import opened Wrappers

  /** A Java `long`: timestamps are 64-bit. */
  type Int64 = x: int | -0x8000_0000_0000_0000 <= x < 0x8000_0000_0000_0000

  /** TSDataType: the scalar kind of a series; it parameterises a reader only. */
  datatype DataType = BOOLEAN | INT32 | INT64 | FLOAT | DOUBLE | TEXT

  /** TsPrimitiveType: one stored value (floating point is modelled by reals). */
  datatype Value =
    | BooleanValue(b: bool)
    | IntValue(i: int)
    | LongValue(l: int)
    | FloatValue(f: real)
    | DoubleValue(d: real)
    | TextValue(s: string)

  /**
   * TimeValuePair: a point. A pair whose `value` is None is a real timestamp
   * whose recorded value is null, which is not the same as "no point".
   */
  datatype TimeValuePair = TimeValuePair(timestamp: Int64, value: Option<Value>)

  /** The identity of a series in the metadata tree: device and measurement. */
  type SeriesId = (string, string)

  /** PartialPath: a series with its optional display aliases. */
  datatype Path = Path(device: string, measurement: string,
                       measurementAlias: Option<string>, tsAlias: Option<string>)
  {
    function Id(): SeriesId { (device, measurement) }

    function FullPath(): string { device + "." + measurement }

    function FullPathWithAlias(): string
      requires measurementAlias.Some?
    {
      device + "." + measurementAlias.value
    }
  }

  /** Filter: the library's predicate over a timestamp and a value, left uninterpreted. */
  datatype Filter = Filter(satisfy: (Int64, Value) -> bool)

  /**
   * satisfyFilter: an absent filter always passes; a present one is asked about
   * the pair's timestamp and value. The source dereferences the value, so a
   * caller must not hand a null-valued pair to a present filter.
   */
  predicate SatisfyFilter(filter: Option<Filter>, pair: TimeValuePair): (r: bool)
    requires filter.Some? ==> pair.value.Some?
    ensures filter.None? ==> r
    ensures filter.Some? ==> (r <==> filter.value.satisfy(pair.timestamp, pair.value.value))
  {
    filter.None? || filter.value.satisfy(pair.timestamp, pair.value.value)
  }
}
