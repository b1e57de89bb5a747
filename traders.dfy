/** The generic trader protocol: pull a kline from the feed, advance the
    indicator, let the strategy's decision rule pick one action from the
    signal vector, and execute it on the account. The MACD and HODL traders
    are instances that differ in which signal decides and in how they are
    constructed. */
module Traders {
  import opened Market
  import opened Accounts
  import opened TradingRules

  /** The concrete traders; each reads one entry of the signal vector. */
  datatype Strategy = Macd | Hodl

  /** The entry of the signal vector a strategy's decision rule reads. */
  function SignalIndex(strategy: Strategy): nat
  {
    match strategy
    case Macd => 1
    case Hodl => 0
  }

  /** The decision rule. `None` is the panic of unwrapping a missing entry. */
  function DetermineTrade(strategy: Strategy, signals: seq<Action>): (r: Option<Action>)
    ensures strategy == Macd ==> (r.Some? <==> |signals| >= 2) && (r.Some? ==> r.value == signals[1])
    ensures strategy == Hodl ==> (r.Some? <==> |signals| >= 1) && (r.Some? ==> r.value == signals[0])
  {
    var i := SignalIndex(strategy);
    if i < |signals| then Some(signals[i]) else None
  }

  /** What an indicator returns for one candle: its next state and its signals. */
  datatype Output<S> = Output(state: S, signals: seq<Action>)

  /** An indicator whose arithmetic is not modelled: `init` seeds a state from
      a first candle (or fails), `next` advances it by one candle. */
  datatype Indicator<!S> = Indicator(init: Kline -> Option<S>, next: (S, Kline) -> Output<S>)

  /** The signal vectors an indicator in state `s` emits, one per candle,
      when fed `candles` in order. */
  function SignalsOf<S>(ind: Indicator<S>, s: S, candles: seq<Kline>): (r: seq<seq<Action>>)
    ensures |r| == |candles|
    ensures |candles| > 0 ==> r[0] == ind.next(s, candles[0]).signals
    decreases |candles|
  {
    if candles == [] then []
    else
      var out := ind.next(s, candles[0]);
      [out.signals] + SignalsOf(ind, out.state, candles[1..])
  }

  /** Everything fixed when a trader is built. */
  datatype Config<!S> = Config(
    strategy: Strategy,
    protocol: Protocol,
    tradingFee: TradingFee,
    stakeSize: StakeSize,
    indicator: Indicator<S>)

  /** What one trading session reports: the feed was empty, one kline was
      processed, or the decision rule panicked. */
  datatype Session = Exhausted | Processed(kline: Kline) | Panicked

  /** Every kline's close can be divided by, as the buy quantity requires. */
  ghost predicate Priced(klines: seq<Kline>)
  {
    forall i :: 0 <= i < |klines| ==> klines[i].close != 0.0
  }

  /** The account after a buy signal at `(t, price)`: an `open` with the
      computed quantity, price and fee exactly when the quantity is positive. */
  function BuyEffect<S>(c: Config<S>, a: AccountState, t: Timestamp, price: real): (r: AccountState)
    requires price != 0.0 && FeeDefined(c.tradingFee)
    ensures var stake := Stake(c.protocol, c.stakeSize, a.availableFund);
            var fee := BuyFee(c.tradingFee, stake);
            var q := (stake + fee) / price;
            (q > 0.0 ==> r == OpenEffect(a, t, q, price, fee)) && (q <= 0.0 ==> r == a)
  {
    match BuyOrder(c.protocol, c.stakeSize, c.tradingFee, a.availableFund, price)
    case None => a
    case Some(o) => OpenEffect(a, t, o.quantity, o.price, o.fee)
  }

  /** The account after a sell signal at `(t, price)`: a `close` of the whole
      position exactly when there is one, which leaves the position empty. */
  function SellEffect<S>(c: Config<S>, a: AccountState, t: Timestamp, price: real): (r: AccountState)
    ensures var q := a.quantity;
            (q > 0.0 ==> r == CloseEffect(a, t, q, price, SellFee(c.tradingFee, price, q)) &&
                         r.quantity == 0.0) &&
            (q <= 0.0 ==> r == a)
  {
    match SellOrder(c.tradingFee, price, a.quantity)
    case None => a
    case Some(o) => CloseEffect(a, t, o.quantity, o.price, o.fee)
  }

  /** The state one trading session reads and writes: the feed position,
      the indicator state and the account. */
  datatype EngineState<S> = EngineState(pos: nat, indicator: S, account: AccountState)

  datatype Stepped<S> = Stepped(next: EngineState<S>, outcome: Session)

  /** One trading session over the feed `klines`. */
  function SessionStep<S>(c: Config<S>, klines: seq<Kline>, e: EngineState<S>): (r: Stepped<S>)
    requires e.pos <= |klines| && FeeDefined(c.tradingFee) && Priced(klines)
    ensures r.outcome.Exhausted? <==> e.pos == |klines|
    ensures r.outcome.Exhausted? ==> r.next == e
    ensures !r.outcome.Exhausted? ==>
              r.next.pos == e.pos + 1 &&
              r.next.indicator == c.indicator.next(e.indicator, klines[e.pos]).state
    ensures r.outcome.Processed? ==> r.outcome.kline == klines[e.pos]
    ensures r.outcome.Panicked? ==> r.next.account == e.account
    ensures r.next.account.history == e.account.history
    ensures |e.account.trades| <= |r.next.account.trades| <= |e.account.trades| + 1
    ensures r.next.account.trades[..|e.account.trades|] == e.account.trades
  {
    if e.pos == |klines| then Stepped(e, Exhausted)
    else
      var k := klines[e.pos];
      var out := c.indicator.next(e.indicator, k);
      var e1 := e.(pos := e.pos + 1, indicator := out.state);
      match DetermineTrade(c.strategy, out.signals)
      case None => Stepped(e1, Panicked)
      case Some(action) =>
        assert k.close != 0.0;
        var a := match action
          case Buy(_) => BuyEffect(c, e.account, k.endTime, k.close)
          case Sell(_) => SellEffect(c, e.account, k.endTime, k.close)
          case NoAction => e.account;
        Stepped(e1.(account := a), Processed(k))
  }

  /** A session that processes a kline trades at that kline's end time and
      close, runs at most one of buy or sell, and for any action other than
      Buy or Sell leaves the account as it was. */
  lemma SessionDispatch<S>(c: Config<S>, klines: seq<Kline>, e: EngineState<S>)
    requires e.pos < |klines| && FeeDefined(c.tradingFee) && Priced(klines)
    ensures var k := klines[e.pos];
            var d := DetermineTrade(c.strategy, c.indicator.next(e.indicator, k).signals);
            var r := SessionStep(c, klines, e);
            (d.None? <==> r.outcome.Panicked?) &&
            (d.Some? && d.value.Buy? ==> r.next.account == BuyEffect(c, e.account, k.endTime, k.close)) &&
            (d.Some? && d.value.Sell? ==> r.next.account == SellEffect(c, e.account, k.endTime, k.close)) &&
            (d.Some? && d.value.NoAction? ==> r.next.account == e.account)
  {
    assert klines[e.pos].close != 0.0;
  }

  /** A session on a sell signal leaves no position behind whenever it sells. */
  lemma SellLiquidates<S>(c: Config<S>, a: AccountState, t: Timestamp, price: real)
    requires a.quantity > 0.0
    ensures SellEffect(c, a, t, price).quantity == 0.0
    ensures SellEffect(c, a, t, price).trades == a.trades + [Closed(t, a.quantity, price, SellFee(c.tradingFee, price, a.quantity))]
  {
  }

  /** No session sells more than is held: a position that is not short
      stays not short, since a buy only adds a positive quantity and a sell
      closes exactly the quantity held. */
  lemma SessionKeepsPositionNonNegative<S>(c: Config<S>, klines: seq<Kline>, e: EngineState<S>)
    requires e.pos <= |klines| && FeeDefined(c.tradingFee) && Priced(klines)
    requires e.account.quantity >= 0.0
    ensures SessionStep(c, klines, e).next.account.quantity >= 0.0
  {
    if e.pos < |klines| {
      SessionDispatch(c, klines, e);
    }
  }

  /** The kline iterator the trader pulls from. Once exhausted it keeps
      answering `None`. */
  class KlineFeed {
    const klines: seq<Kline>
    var pos: nat

    ghost predicate Valid()
      reads this
    {
      pos <= |klines|
    }

    constructor (klines: seq<Kline>)
      ensures Valid() && this.klines == klines && pos == 0
    {
      this.klines := klines;
      pos := 0;
    }

    method Next() returns (r: Option<Kline>)
      requires Valid()
      modifies this
      ensures Valid()
      ensures old(pos) < |klines| ==> r == Some(klines[old(pos)]) && pos == old(pos) + 1
      ensures old(pos) == |klines| ==> r == None && pos == old(pos)
    {
      if pos < |klines| {
        r := Some(klines[pos]);
        pos := pos + 1;
      } else {
        r := None;
      }
    }
  }

  class Trader<S> {
    const config: Config<S>
    const feed: KlineFeed
    var indicatorState: S

    ghost predicate Valid()
      reads this, feed
    {
      feed.Valid()
    }

    constructor (config: Config<S>, feed: KlineFeed, state: S)
      ensures this.config == config && this.feed == feed && indicatorState == state
    {
      this.config := config;
      this.feed := feed;
      indicatorState := state;
    }

    method ExecuteBuy(t: Timestamp, price: real, account: Account)
      requires price != 0.0 && FeeDefined(config.tradingFee)
      modifies account
      ensures account.State() == BuyEffect(config, old(account.State()), t, price)
      ensures |account.trades| == |old(account.trades)| ==> account.position.cost == old(account.position.cost)
    {
      var fund := account.availableFund;
      var stake := Stake(config.protocol, config.stakeSize, fund);
      var fee := BuyFee(config.tradingFee, stake);
      var quantity := BuyQuantity(stake, fee, price);
      if quantity > 0.0 {
        account.Open(t, quantity, price, fee);
      }
    }

    method ExecuteSell(t: Timestamp, price: real, account: Account)
      modifies account
      ensures account.State() == SellEffect(config, old(account.State()), t, price)
      ensures |account.trades| == |old(account.trades)| ==> account.position.cost == old(account.position.cost)
    {
      var currentPosition := account.position.quantity;
      var fee := SellFee(config.tradingFee, price, currentPosition);
      if currentPosition > 0.0 {
        account.Close(t, currentPosition, price, fee);
      }
    }

    method NextTradeSession(account: Account) returns (r: Session)
      requires Valid() && FeeDefined(config.tradingFee) && Priced(feed.klines)
      modifies this, feed, account
      ensures Valid()
      ensures var s := SessionStep(config, feed.klines, old(EngineOf(this, account)));
              EngineOf(this, account) == s.next && r == s.outcome
      ensures |account.trades| == |old(account.trades)| ==> account.position.cost == old(account.position.cost)
    {
      var kline := feed.Next();
      match kline
      case None =>
        r := Exhausted;
      case Some(k) =>
        var out := config.indicator.next(indicatorState, k);
        indicatorState := out.state;
        var action := DetermineTrade(config.strategy, out.signals);
        match action
        case None =>
          r := Panicked;
        case Some(Buy(_)) =>
          assert k.close != 0.0;
          ExecuteBuy(k.endTime, k.close, account);
          r := Processed(k);
        case Some(Sell(_)) =>
          ExecuteSell(k.endTime, k.close, account);
          r := Processed(k);
        case Some(NoAction) =>
          r := Processed(k);
    }
  }

  /** The part of the world one session reads and writes. */
  ghost function EngineOf<S>(t: Trader<S>, a: Account): EngineState<S>
    reads t, t.feed, a
  {
    EngineState(t.feed.pos, t.indicatorState, a.State())
  }

  /** Building a trader takes the feed's first kline to seed the indicator;
      it panics (here: returns null) on an empty feed or a failed seed. */
  method NewTrader<S>(strategy: Strategy, feed: KlineFeed, tradingFee: TradingFee, stakeSize: StakeSize,
                      protocol: Protocol, indicator: Indicator<S>) returns (t: Trader?<S>)
    requires feed.Valid()
    modifies feed
    ensures feed.Valid()
    ensures old(feed.pos) == |feed.klines| ==> t == null && feed.pos == old(feed.pos)
    ensures old(feed.pos) < |feed.klines| ==>
              feed.pos == old(feed.pos) + 1 &&
              (t != null <==> indicator.init(feed.klines[old(feed.pos)]).Some?) &&
              (t != null ==> t.indicatorState == indicator.init(feed.klines[old(feed.pos)]).value)
    ensures t != null ==> fresh(t) && t.feed == feed &&
                          t.config == Config(strategy, protocol, tradingFee, stakeSize, indicator)
  {
    var first := feed.Next();
    match first
    case None =>
      t := null;
    case Some(k) =>
      match indicator.init(k)
      case None =>
        t := null;
      case Some(state) =>
        t := new Trader(Config(strategy, protocol, tradingFee, stakeSize, indicator), feed, state);
  }

  /** The MACD trader: decides on signal 1, with the given fee and stake. */
  method NewMacdTrader<S>(feed: KlineFeed, tradingFee: TradingFee, stakeSize: StakeSize,
                          protocol: Protocol, indicator: Indicator<S>) returns (t: Trader?<S>)
    requires feed.Valid()
    modifies feed
    ensures feed.Valid()
    ensures old(feed.pos) == |feed.klines| ==> t == null && feed.pos == old(feed.pos)
    ensures old(feed.pos) < |feed.klines| ==>
              feed.pos == old(feed.pos) + 1 &&
              (t != null <==> indicator.init(feed.klines[old(feed.pos)]).Some?) &&
              (t != null ==> t.indicatorState == indicator.init(feed.klines[old(feed.pos)]).value)
    ensures t != null ==> fresh(t) && t.feed == feed &&
                          t.config == Config(Macd, protocol, tradingFee, stakeSize, indicator)
  {
    t := NewTrader(Macd, feed, tradingFee, stakeSize, protocol, indicator);
  }

  /** The HODL trader: decides on signal 0 and always stakes the whole fund,
      whatever stake it is given. */
  method NewHodlTrader<S>(feed: KlineFeed, tradingFee: TradingFee, stakeSize: StakeSize,
                          protocol: Protocol, indicator: Indicator<S>) returns (t: Trader?<S>)
    requires feed.Valid()
    modifies feed
    ensures feed.Valid()
    ensures old(feed.pos) == |feed.klines| ==> t == null && feed.pos == old(feed.pos)
    ensures old(feed.pos) < |feed.klines| ==>
              feed.pos == old(feed.pos) + 1 &&
              (t != null <==> indicator.init(feed.klines[old(feed.pos)]).Some?) &&
              (t != null ==> t.indicatorState == indicator.init(feed.klines[old(feed.pos)]).value)
    ensures t != null ==> fresh(t) && t.feed == feed &&
                          t.config == Config(Hodl, protocol, tradingFee, FixPercentage(1.0), indicator)
  {
    t := NewTrader(Hodl, feed, tradingFee, FixPercentage(1.0), protocol, indicator);
  }
}
