/** Market data and signals shared by the whole engine: timestamps, klines
    (OHLCV candles) and the per-candle trade actions an indicator emits. */
module Market {

  datatype Option<T> = None | Some(value: T)

  /** A calendar month, January is 1. */
  type Month = m: int | 1 <= m <= 12 witness 1

  /** A naive date-time. Only the fields the core reads are given meaning;
      no calendar arithmetic is modelled. */
  datatype Timestamp = Timestamp(year: int, month: Month, day: nat, hour: nat, minute: nat, second: nat)

  /** One OHLCV bar of the feed. Prices are exact reals. */
  datatype Kline = Kline(
    startTime: Timestamp,
    endTime: Timestamp,
    open: real,
    high: real,
    low: real,
    close: real,
    volume: real)

  /** The signal strength an action carries (an unsigned byte). */
  type Strength = x: int | 0 <= x < 256

  /** A trade signal. `NoAction` is the signal that asks for nothing. */
  datatype Action = Buy(strength: Strength) | Sell(strength: Strength) | NoAction
}
