/** The value types shared across the engine: candles and trade signals.
    Time stamps are abstracted to integers. */
module Types {

  datatype Option<T> = None | Some(value: T)

  /** One price candle (a "kline"). */
  datatype Kline = Kline(Time: int, Open: real, High: real, Low: real, Close: real, Volume: real)

  /** A trade intent: direction 1 is long and -1 is short; `Size` is in units of the base asset. */
  datatype Signal = Signal(Symbol: string, Direction: int, EntryPrice: real, StopLoss: real, Size: real, Time: int)
}
