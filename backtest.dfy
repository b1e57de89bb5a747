/** The backtest driver: set up the account, build the trader (which takes
    the first kline), then run trading sessions until the feed is
    exhausted, marking the account to market after every processed kline. */
module Backtest {
  import opened Market
  import opened Accounts
  import opened TradingRules
  import opened Traders

  /** The cash every backtest starts with. */
  const StartFund: real := 1000.0

  /** The MACD trader's wiring: the whole fund at a 0.5% fee. */
  const MacdStake: StakeSize := FixPercentage(1.0)
  const MacdFee: TradingFee := PercentageFee(0.005)

  /** The snapshots marking to market after each of `ks`, in order. */
  function MarksOf(ks: seq<Kline>): (r: seq<Snapshot>)
    ensures |r| == |ks|
    ensures forall i :: 0 <= i < |ks| ==> r[i] == Snapshot(ks[i].endTime, ks[i].close)
  {
    if ks == [] then [] else [Snapshot(ks[0].endTime, ks[0].close)] + MarksOf(ks[1..])
  }

  /** Where a run stops and whether it ran the feed to its end (`false`
      is a panic of the decision rule). */
  datatype RunResult<S> = RunResult(final: EngineState<S>, completed: bool)

  /** The backtest loop from engine state `e`. */
  function Run<S>(c: Config<S>, klines: seq<Kline>, e: EngineState<S>): (r: RunResult<S>)
    requires e.pos <= |klines| && FeeDefined(c.tradingFee) && Priced(klines)
    ensures e.pos <= r.final.pos <= |klines|
    ensures r.completed ==> r.final.pos == |klines|
    ensures !r.completed ==> r.final.pos > e.pos
    decreases |klines| - e.pos
  {
    var s := SessionStep(c, klines, e);
    match s.outcome
    case Exhausted => RunResult(s.next, true)
    case Panicked => RunResult(s.next, false)
    case Processed(k) =>
      Run(c, klines, s.next.(account := MarkEffect(s.next.account, k.endTime, k.close)))
  }

  /** The number of klines a run processed: all that were left if it
      completed, all but the one it panicked on otherwise. */
  function ProcessedCount<S>(e: EngineState<S>, r: RunResult<S>): (n: nat)
    requires e.pos <= r.final.pos && (!r.completed ==> r.final.pos > e.pos)
    ensures e.pos + n <= r.final.pos
  {
    if r.completed then r.final.pos - e.pos else r.final.pos - 1 - e.pos
  }

  /** The account is marked to market exactly once per processed kline, at
      its end time and close, in feed order, and nothing else touches the
      history. */
  lemma {:induction false} RunMarksEveryKline<S>(c: Config<S>, klines: seq<Kline>, e: EngineState<S>)
    requires e.pos <= |klines| && FeeDefined(c.tradingFee) && Priced(klines)
    ensures var r := Run(c, klines, e);
            r.final.account.history ==
              e.account.history + MarksOf(klines[e.pos..e.pos + ProcessedCount(e, r)])
    decreases |klines| - e.pos
  {
    var s := SessionStep(c, klines, e);
    match s.outcome
    case Exhausted =>
      assert klines[e.pos..e.pos] == [];
    case Panicked =>
      assert klines[e.pos..e.pos] == [];
    case Processed(k) =>
      var e1 := s.next.(account := MarkEffect(s.next.account, k.endTime, k.close));
      RunMarksEveryKline(c, klines, e1);
      var r := Run(c, klines, e1);
      var n := ProcessedCount(e1, r);
      assert Run(c, klines, e) == r;
      assert e1.pos == e.pos + 1;
      assert ProcessedCount(e, r) == n + 1;
      assert e1.account.history == e.account.history + [Snapshot(k.endTime, k.close)];
      var ks := klines[e.pos..e1.pos + n];
      assert ks[0] == k;
      assert ks[1..] == klines[e1.pos..e1.pos + n];
      assert MarksOf(ks) == [Snapshot(k.endTime, k.close)] + MarksOf(ks[1..]);
  }

  /** Each processed kline adds at most one trade, and earlier trades stay. */
  lemma {:induction false} RunTradesBounded<S>(c: Config<S>, klines: seq<Kline>, e: EngineState<S>)
    requires e.pos <= |klines| && FeeDefined(c.tradingFee) && Priced(klines)
    ensures var r := Run(c, klines, e);
            |e.account.trades| <= |r.final.account.trades| <= |e.account.trades| + (r.final.pos - e.pos) &&
            r.final.account.trades[..|e.account.trades|] == e.account.trades
    decreases |klines| - e.pos
  {
    var s := SessionStep(c, klines, e);
    match s.outcome
    case Exhausted =>
    case Panicked =>
    case Processed(k) =>
      var e1 := s.next.(account := MarkEffect(s.next.account, k.endTime, k.close));
      RunTradesBounded(c, klines, e1);
      var t0, t1, t2 := e.account.trades, e1.account.trades, Run(c, klines, e1).final.account.trades;
      assert t2[..|t1|] == t1;
      assert t1[..|t0|] == t0;
      assert t2[..|t0|] == t2[..|t1|][..|t0|];
  }

  /** The indicator always emits the entry the decision rule reads. */
  ghost predicate EmitsDecidingSignal<S(!new)>(c: Config<S>)
  {
    forall s: S, k: Kline :: |c.indicator.next(s, k).signals| > SignalIndex(c.strategy)
  }

  /** With an indicator that always emits the deciding signal, the run never
      panics: it stops exactly when the feed is exhausted. */
  lemma {:induction false} RunCompletes<S(!new)>(c: Config<S>, klines: seq<Kline>, e: EngineState<S>)
    requires e.pos <= |klines| && FeeDefined(c.tradingFee) && Priced(klines)
    requires EmitsDecidingSignal(c)
    ensures Run(c, klines, e).completed
    decreases |klines| - e.pos
  {
    if e.pos < |klines| {
      var out := c.indicator.next(e.indicator, klines[e.pos]);
      assert |out.signals| > SignalIndex(c.strategy);
      var s := SessionStep(c, klines, e);
      assert s.outcome.Processed?;
      var k := s.outcome.kline;
      RunCompletes(c, klines, s.next.(account := MarkEffect(s.next.account, k.endTime, k.close)));
    }
  }

  /** A run that starts without a short position never ends with one. */
  lemma {:induction false} RunKeepsPositionNonNegative<S>(c: Config<S>, klines: seq<Kline>, e: EngineState<S>)
    requires e.pos <= |klines| && FeeDefined(c.tradingFee) && Priced(klines)
    requires e.account.quantity >= 0.0
    ensures Run(c, klines, e).final.account.quantity >= 0.0
    decreases |klines| - e.pos
  {
    SessionKeepsPositionNonNegative(c, klines, e);
    var s := SessionStep(c, klines, e);
    if s.outcome.Processed? {
      var k := s.outcome.kline;
      RunKeepsPositionNonNegative(c, klines, s.next.(account := MarkEffect(s.next.account, k.endTime, k.close)));
    }
  }

  /** The decision rule answers "no action" on every candle. */
  ghost predicate AlwaysIdle<S(!new)>(c: Config<S>)
  {
    forall s: S, k: Kline :: DetermineTrade(c.strategy, c.indicator.next(s, k).signals) == Some(NoAction)
  }

  /** A strategy that never acts leaves fund, position and trades as they were
      for the whole run, while the history still gains one snapshot per kline. */
  lemma {:induction false} IdleRunKeepsAccount<S(!new)>(c: Config<S>, klines: seq<Kline>, e: EngineState<S>)
    requires e.pos <= |klines| && FeeDefined(c.tradingFee) && Priced(klines)
    requires AlwaysIdle(c)
    ensures var r := Run(c, klines, e);
            r.completed &&
            r.final.account.availableFund == e.account.availableFund &&
            r.final.account.quantity == e.account.quantity &&
            r.final.account.trades == e.account.trades &&
            |r.final.account.history| == |e.account.history| + |klines| - e.pos
    decreases |klines| - e.pos
  {
    if e.pos < |klines| {
      SessionDispatch(c, klines, e);
      assert DetermineTrade(c.strategy, c.indicator.next(e.indicator, klines[e.pos]).signals) == Some(NoAction);
      var s := SessionStep(c, klines, e);
      var k := s.outcome.kline;
      IdleRunKeepsAccount(c, klines, s.next.(account := MarkEffect(s.next.account, k.endTime, k.close)));
    }
  }

  /** With the MACD wiring, the first buy from the starting account spends
      more than the starting fund: under the assumed `open` contract the
      fund goes negative. */
  lemma WiredMacdFirstBuyOverdraws<S>(protocol: Protocol, indicator: Indicator<S>, t: Timestamp, price: real)
    requires price > 0.0
    ensures var c := Config(Macd, protocol, MacdFee, MacdStake, indicator);
            BuyEffect(c, AccountState(StartFund, 0.0, [], []), t, price).availableFund < 0.0
  {
    FullStakeOverspends(protocol, 0.005, StartFund, price);
  }

  /** Staking the whole starting fund at price 100 with a zero percentage
      fee buys 10 units and spends the fund exactly. */
  lemma WholeFundBuyWithoutFee<S>(c: Config<S>, t: Timestamp)
    requires c.stakeSize == FixPercentage(1.0) && c.tradingFee == PercentageFee(0.0)
    ensures var r := BuyEffect(c, AccountState(StartFund, 0.0, [], []), t, 100.0);
            r.availableFund == 0.0 && r.quantity == 10.0 && r.trades == [Opened(t, 10.0, 100.0, 0.0)]
  {
  }

  /** With a 50% fee the same buy charges a fee equal to the stake, buys 20
      units and leaves the fund at minus the starting fund. */
  lemma WholeFundBuyAtHalfFee<S>(c: Config<S>, t: Timestamp)
    requires c.stakeSize == FixPercentage(1.0) && c.tradingFee == PercentageFee(0.5)
    ensures var r := BuyEffect(c, AccountState(StartFund, 0.0, [], []), t, 100.0);
            r.availableFund == -1000.0 && r.quantity == 20.0 && r.trades == [Opened(t, 20.0, 100.0, 1000.0)]
  {
  }

  /** A run of the trader built from the downloaded klines: the trader took
      the first one, so a completed run leaves one snapshot per remaining kline. */
  lemma BacktestFromFirstKline<S>(c: Config<S>, klines: seq<Kline>, state: S)
    requires 1 <= |klines| && FeeDefined(c.tradingFee) && Priced(klines)
    ensures var r := Run(c, klines, EngineState(1, state, AccountState(StartFund, 0.0, [], [])));
            r.completed ==> r.final.account.history == MarksOf(klines[1..]) &&
                            |r.final.account.history| == |klines| - 1
  {
    var e := EngineState(1, state, AccountState(StartFund, 0.0, [], []));
    RunMarksEveryKline(c, klines, e);
    if Run(c, klines, e).completed {
      assert 1 + ProcessedCount(e, Run(c, klines, e)) == |klines|;
      assert klines[1..1 + ProcessedCount(e, Run(c, klines, e))] == klines[1..];
    }
  }

  /** The backtest loop: sessions until the feed is exhausted (or the
      decision rule panics), a mark to market after each processed kline. */
  method RunBacktest<S>(trader: Trader<S>, account: Account) returns (completed: bool)
    requires trader.Valid() && FeeDefined(trader.config.tradingFee) && Priced(trader.feed.klines)
    modifies trader, trader.feed, account
    ensures trader.Valid()
    ensures var r := Run(trader.config, trader.feed.klines, old(EngineOf(trader, account)));
            completed == r.completed && EngineOf(trader, account) == r.final
    ensures old(account.position.quantity) >= 0.0 ==> account.position.quantity >= 0.0
    ensures |account.trades| == |old(account.trades)| ==> account.position.cost == old(account.position.cost)
  {
    ghost var goal := Run(trader.config, trader.feed.klines, EngineOf(trader, account));
    if account.position.quantity >= 0.0 {
      RunKeepsPositionNonNegative(trader.config, trader.feed.klines, EngineOf(trader, account));
    }
    while true
      invariant trader.Valid()
      invariant Run(trader.config, trader.feed.klines, EngineOf(trader, account)) == goal
      invariant |old(account.trades)| <= |account.trades|
      invariant |account.trades| == |old(account.trades)| ==> account.position.cost == old(account.position.cost)
      decreases |trader.feed.klines| - trader.feed.pos
    {
      var kline := trader.NextTradeSession(account);
      match kline
      case Exhausted =>
        return true;
      case Panicked =>
        return false;
      case Processed(k) =>
        account.MarkToMarket(k.endTime, k.close);
    }
  }

  /** A fresh account holding the starting fund and no position; it panics
      (here: returns null) when no klines were fetched. */
  method InitialiseAccount(klines: seq<Kline>) returns (account: Account?)
    ensures |klines| == 0 <==> account == null
    ensures account != null ==>
              fresh(account) &&
              account.State() == AccountState(StartFund, 0.0, [], []) &&
              account.position == Position(0.0, 0.0) &&
              account.startTime == klines[0].startTime
  {
    if |klines| == 0 {
      return null;
    }
    var startTime := klines[0].startTime;
    var startPosition := Position(0.0, 0.0);
    account := new Account(StartFund, startPosition, startTime);
  }

  /** The MACD trader as the driver wires it. */
  method InitialiseMacdTrader<S>(feed: KlineFeed, indicator: Indicator<S>) returns (t: Trader?<S>)
    requires feed.Valid()
    modifies feed
    ensures feed.Valid()
    ensures old(feed.pos) == |feed.klines| ==> t == null && feed.pos == old(feed.pos)
    ensures old(feed.pos) < |feed.klines| ==>
              feed.pos == old(feed.pos) + 1 &&
              (t != null <==> indicator.init(feed.klines[old(feed.pos)]).Some?) &&
              (t != null ==> t.indicatorState == indicator.init(feed.klines[old(feed.pos)]).value)
    ensures t != null ==> fresh(t) && t.feed == feed &&
                          t.config == Config(Macd, Current, MacdFee, MacdStake, indicator)
  {
    t := NewMacdTrader(feed, MacdFee, MacdStake, Current, indicator);
  }

  /** The driver's whole run on the downloaded klines: account, trader,
      backtest. `finished` says the run reached the end of the feed. */
  method BacktestDownloaded<S>(klines: seq<Kline>, indicator: Indicator<S>) returns (account: Account?, finished: bool)
    requires Priced(klines)
    ensures finished ==> account != null && |klines| >= 1 &&
                         account.history == MarksOf(klines[1..]) &&
                         |account.history| == |klines| - 1
    ensures account != null ==> account.position.quantity >= 0.0
  {
    var feed := new KlineFeed(klines);
    account := InitialiseAccount(klines);
    if account == null {
      return null, false;
    }
    var trader := InitialiseMacdTrader(feed, indicator);
    if trader == null {
      return account, false;
    }
    ghost var e := EngineOf(trader, account);
    finished := RunBacktest(trader, account);
    BacktestFromFirstKline(trader.config, klines, e.indicator);
  }
}
