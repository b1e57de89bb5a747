/** The dollar-cost-averaging indicator: it buys whenever a candle starts in
    a different calendar month from the previous one. Its only state is the
    start time of the last candle it saw. */
module Dca {
  import opened Market

  /** The last timestamp an instance starts with: 2000-01-01 00:00:00, a
      January. */
  const Sentinel: Timestamp := Timestamp(2000, 1, 1, 0, 0, 0)

  /** The indicator's configured size: no input values and one signal. */
  const DcaSize: (nat, nat) := (0, 1)

  /** The signal for a candle starting at `current` after one that started
      at `last`. Only the month is compared; the year is not. */
  function MonthChangeSignal(last: Timestamp, current: Timestamp): (a: Action)
    ensures a == Buy(1) <==> current.month != last.month
    ensures a != Buy(1) ==> a == NoAction
  {
    if current.month != last.month then Buy(1) else NoAction
  }

  class DcaInstance {
    var lastTimestamp: Timestamp

    /** Initialisation ignores the candle and starts from the sentinel. */
    constructor Init(candle: Kline)
      ensures lastTimestamp == Sentinel
    {
      lastTimestamp := Sentinel;
    }

    /** The generic indicator step emits no signals and keeps the state. */
    method Next(candle: Kline) returns (signals: seq<Action>)
      ensures signals == []
    {
      signals := [];
    }

    /** The kline step: one signal, Buy(1) on a month change, and the
        candle's start time becomes the last timestamp either way. */
    method NextKline(candle: Kline) returns (signals: seq<Action>)
      modifies this
      ensures |signals| == DcaSize.1
      ensures signals == [MonthChangeSignal(old(lastTimestamp), candle.startTime)]
      ensures lastTimestamp == candle.startTime
    {
      var currentTime := candle.startTime;
      var currentMonth := currentTime.month;
      var lastMonth := lastTimestamp.month;
      var action := if currentMonth != lastMonth then Buy(1) else NoAction;
      lastTimestamp := currentTime;
      signals := [action];
    }
  }

  /** The signals an instance whose last timestamp is `last` emits, one
      vector per candle, when fed `candles` in order. */
  function SignalsOver(last: Timestamp, candles: seq<Kline>): (r: seq<seq<Action>>)
    ensures |r| == |candles|
    decreases |candles|
  {
    if candles == [] then []
    else [[MonthChangeSignal(last, candles[0].startTime)]] + SignalsOver(candles[0].startTime, candles[1..])
  }

  /** Fed in order, the instance buys on candle `i` exactly when its month
      differs from the month of the candle before it (of `last` for the
      first candle). */
  lemma {:induction false} SignalsOverAt(last: Timestamp, candles: seq<Kline>, i: nat)
    requires i < |candles|
    ensures var previous := if i == 0 then last else candles[i - 1].startTime;
            SignalsOver(last, candles)[i] == [MonthChangeSignal(previous, candles[i].startTime)]
    decreases i
  {
    if i > 0 {
      SignalsOverAt(candles[0].startTime, candles[1..], i - 1);
      assert candles[1..][i - 1] == candles[i];
      if i > 1 {
        assert candles[1..][i - 2] == candles[i - 1];
      }
    }
  }

  /** From a fresh instance, the first candle buys exactly when it does not
      start in January: a January first candle emits no action. */
  lemma FirstCandleBuysUnlessJanuary(candles: seq<Kline>)
    requires |candles| > 0
    ensures SignalsOver(Sentinel, candles)[0] == [Buy(1)] <==> candles[0].startTime.month != 1
    ensures candles[0].startTime.month == 1 ==> SignalsOver(Sentinel, candles)[0] == [NoAction]
  {
    SignalsOverAt(Sentinel, candles, 0);
  }

  /** Two candles in the same month of different years do not buy. */
  lemma YearIsIgnored(last: Timestamp, current: Timestamp)
    requires last.month == current.month && last.year != current.year
    ensures MonthChangeSignal(last, current) == NoAction
  {
  }

  /** The number of buys among one-signal vectors. */
  function BuyCount(vectors: seq<seq<Action>>): (n: nat)
    ensures n <= |vectors|
  {
    if vectors == [] then 0
    else (if vectors[0] == [Buy(1)] then 1 else 0) + BuyCount(vectors[1..])
  }

  /** Candles within one month after the first buy at most once. */
  lemma {:induction false} OneMonthBuysAtMostOnce(last: Timestamp, candles: seq<Kline>, m: Month)
    requires forall i :: 0 <= i < |candles| ==> candles[i].startTime.month == m
    ensures BuyCount(SignalsOver(last, candles)) <= 1
    ensures last.month == m ==> BuyCount(SignalsOver(last, candles)) == 0
    decreases |candles|
  {
    if candles != [] {
      var rest := SignalsOver(candles[0].startTime, candles[1..]);
      OneMonthBuysAtMostOnce(candles[0].startTime, candles[1..], m);
      assert SignalsOver(last, candles)[1..] == rest;
    }
  }
}
