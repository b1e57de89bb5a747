/** The DCA indicator as the traders see it: the instance behind the
    `Indicator` interface, once for each entry point a trader may call, and
    what each decision rule does with its signals. */
module DcaTrading {
  import opened Market
  import opened TradingRules
  import opened Traders
  import opened Backtest
  import opened Dca

  /** The instance behind the trader's indicator interface when the trader
      calls the kline step, as the generic trader does: it seeds the sentinel
      and carries the last start time. */
  const DcaIndicator: Indicator<Timestamp> :=
    Indicator((k: Kline) => Some(Sentinel),
              (s: Timestamp, k: Kline) => Output(k.startTime, [MonthChangeSignal(s, k.startTime)]))

  /** Driven through the interface, the indicator emits exactly the vectors
      the instance emits when fed the same candles. */
  lemma {:induction false} DcaIndicatorSignals(last: Timestamp, candles: seq<Kline>)
    ensures SignalsOf(DcaIndicator, last, candles) == SignalsOver(last, candles)
    decreases |candles|
  {
    if candles != [] {
      DcaIndicatorSignals(candles[0].startTime, candles[1..]);
    }
  }

  /** A HODL decision rule on the kline step reads signal 0, which is always
      there, so the backtest never panics. */
  lemma {:induction false} DcaHodlRunCompletes(protocol: Protocol, fee: TradingFee, size: StakeSize,
                                               klines: seq<Kline>, e: EngineState<Timestamp>)
    requires e.pos <= |klines| && FeeDefined(fee) && Priced(klines)
    ensures Run(Config(Hodl, protocol, fee, size, DcaIndicator), klines, e).completed
  {
    var c := Config(Hodl, protocol, fee, size, DcaIndicator);
    assert forall s: Timestamp, k: Kline :: |c.indicator.next(s, k).signals| == 1;
    RunCompletes(c, klines, e);
  }

  /** A MACD decision rule on the kline step reads signal 1, which is never
      there, so its first session on a kline panics. */
  lemma DcaMacdPanics(protocol: Protocol, fee: TradingFee, size: StakeSize,
                      klines: seq<Kline>, e: EngineState<Timestamp>)
    requires e.pos < |klines| && FeeDefined(fee) && Priced(klines)
    ensures SessionStep(Config(Macd, protocol, fee, size, DcaIndicator), klines, e).outcome.Panicked?
  {
  }

  /** The same instance when the trader calls the generic step instead, as
      the older traders do: no signals, and the state never moves. */
  const DcaCandleIndicator: Indicator<Timestamp> :=
    Indicator((k: Kline) => Some(Sentinel), (s: Timestamp, k: Kline) => Output(s, []))

  /** On the generic step every decision rule finds its signal missing, so
      the first session on a kline panics, whatever the strategy. */
  lemma DcaCandleStepPanics(strategy: Strategy, protocol: Protocol, fee: TradingFee, size: StakeSize,
                            klines: seq<Kline>, e: EngineState<Timestamp>)
    requires e.pos < |klines| && FeeDefined(fee) && Priced(klines)
    ensures SessionStep(Config(strategy, protocol, fee, size, DcaCandleIndicator), klines, e).outcome.Panicked?
  {
  }
}
