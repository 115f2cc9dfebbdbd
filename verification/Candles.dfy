/** Candles and timeframes (domain/models/candle.py, domain/enums/timeframe.py). */
module Candles {
  import opened Sorting

  const MICROSECONDS: int := 1_000_000

  datatype Timeframe =
    OneMinute | FiveMinutes | FifteenMinutes | ThirtyMinutes | OneHour | FourHours | OneDay
  {
    function Seconds(): (s: int)
      ensures s >= 60
    {
      match this
      case OneMinute => 60
      case FiveMinutes => 300
      case FifteenMinutes => 900
      case ThirtyMinutes => 1800
      case OneHour => 3600
      case FourHours => 14400
      case OneDay => 86400
    }

    /** The duration in microseconds, the unit of every timestamp in this model. */
    function Duration(): (d: int)
      ensures d >= 60 * MICROSECONDS
    {
      Seconds() * MICROSECONDS
    }
  }

  /** The timeframes in microseconds, each by the next shorter one. */
  lemma Durations()
    ensures OneMinute.Duration() == 60_000_000
    ensures FiveMinutes.Duration() == 5 * OneMinute.Duration()
    ensures FifteenMinutes.Duration() == 3 * FiveMinutes.Duration()
    ensures ThirtyMinutes.Duration() == 2 * FifteenMinutes.Duration()
    ensures OneHour.Duration() == 2 * ThirtyMinutes.Duration()
    ensures FourHours.Duration() == 4 * OneHour.Duration()
    ensures OneDay.Duration() == 6 * FourHours.Duration()
  {}

  /** `timestamp` is the open time in microseconds since the epoch. */
  datatype CandleRecord = CandleRecord(
    exchange: string, symbol: string, timeframe: Timeframe, timestamp: int,
    open: real, high: real, low: real, close: real)

  /** What the model validator lets exist: positive prices inside the high-low range. */
  predicate ValidOhlc(c: CandleRecord) {
    0.0 < c.low <= c.open <= c.high && c.low <= c.close <= c.high
  }

  type Candle = c: CandleRecord | ValidOhlc(c)
    witness CandleRecord("", "", OneMinute, 0, 1.0, 1.0, 1.0, 1.0)

  function OpenTime(c: Candle): Key {
    (c.timestamp, 0)
  }
}
