/** How a buy or a sell is sized and charged: the stake taken from the
    available fund, the trading fee, and the order quantity. These are the
    pure parts of the execution protocol; the trader applies them to an
    account. */
module TradingRules {
  import opened Market

  datatype TradingFee = FixFee(amount: real) | PercentageFee(rate: real)

  datatype StakeSize = FixAmount(amount: real) | FixPercentage(rate: real)

  /** The two revisions of the protocol. `Current` refuses a fixed stake
      larger than the available fund; `Legacy` takes it regardless. */
  datatype Protocol = Current | Legacy

  /** What the engine passes to the account for one trade. */
  datatype Order = Order(quantity: real, price: real, fee: real)

  /** The buy fee `stake * p / (1 - p)` is defined only for `p != 1`. */
  predicate FeeDefined(fee: TradingFee)
  {
    fee.PercentageFee? ==> fee.rate != 1.0
  }

  /** The cash committed to a buy, before fees. */
  function Stake(protocol: Protocol, size: StakeSize, fund: real): (stake: real)
    ensures size.FixPercentage? ==> stake == fund * size.rate
    ensures size.FixAmount? && (size.amount <= fund || protocol == Legacy) ==> stake == size.amount
    ensures size.FixAmount? && size.amount > fund && protocol == Current ==> stake == 0.0
  {
    match size
    case FixAmount(amount) =>
      if protocol == Legacy || amount <= fund then amount else 0.0
    case FixPercentage(pct) => fund * pct
  }

  /** The fee charged on a buy of `stake`. A percentage fee is grossed up:
      it is exactly the fraction `rate` of the whole outlay `stake + fee`. */
  function BuyFee(fee: TradingFee, stake: real): (r: real)
    requires FeeDefined(fee)
    ensures fee.FixFee? ==> r == fee.amount
    ensures fee.PercentageFee? ==> r == (stake + r) * fee.rate
  {
    match fee
    case FixFee(f) => f
    case PercentageFee(pct) =>
      var r := stake * pct / (1.0 - pct);
      assert r * (1.0 - pct) == stake * pct;
      r
  }

  /** The fee charged on a sale of `quantity` at `price`: the fixed fee, or
      the fraction `rate` of the proceeds. */
  function SellFee(fee: TradingFee, price: real, quantity: real): (r: real)
    ensures fee.FixFee? ==> r == fee.amount
    ensures fee.PercentageFee? ==> r == price * quantity * fee.rate
  {
    match fee
    case FixFee(f) => f
    case PercentageFee(pct) => price * quantity * pct
  }

  /** The quantity whose value at `price` is the whole outlay. */
  function BuyQuantity(stake: real, fee: real, price: real): (q: real)
    requires price != 0.0
    ensures q * price == stake + fee
  {
    (stake + fee) / price
  }

  /** The order a buy places, if any: one is placed exactly when the
      computed quantity is positive, and it is worth the whole outlay. */
  function BuyOrder(protocol: Protocol, size: StakeSize, fee: TradingFee, fund: real, price: real): (r: Option<Order>)
    requires price != 0.0 && FeeDefined(fee)
    ensures var stake := Stake(protocol, size, fund);
            var f := BuyFee(fee, stake);
            (r.Some? <==> (stake + f) / price > 0.0) &&
            (r.Some? ==> r.value.price == price && r.value.fee == f &&
                         r.value.quantity > 0.0 && r.value.quantity * price == stake + f)
  {
    var stake := Stake(protocol, size, fund);
    var f := BuyFee(fee, stake);
    var q := BuyQuantity(stake, f, price);
    if q > 0.0 then Some(Order(q, price, f)) else None
  }

  /** The order a sell places, if any: the whole position, and only when
      there is a position to sell. */
  function SellOrder(fee: TradingFee, price: real, position: real): (r: Option<Order>)
    ensures r.Some? <==> position > 0.0
    ensures r.Some? ==> r.value.quantity == position && r.value.price == price &&
                        r.value.fee == SellFee(fee, price, position)
  {
    var f := SellFee(fee, price, position);
    if position > 0.0 then Some(Order(position, price, f)) else None
  }

  /** Under the current protocol a buy never commits more than the fund, as
      long as the fund is not negative and a percentage stake is at most 1. */
  lemma StakeWithinFund(size: StakeSize, fund: real)
    requires fund >= 0.0
    requires size.FixPercentage? ==> 0.0 <= size.rate <= 1.0
    ensures Stake(Current, size, fund) <= fund
  {
    if size.FixPercentage? {
      assert fund * size.rate <= fund * 1.0;
    }
  }

  /** The legacy protocol takes a fixed stake even beyond the fund. */
  lemma LegacyStakeExceedsFund(amount: real, fund: real)
    requires amount > fund
    ensures Stake(Legacy, FixAmount(amount), fund) > fund
    ensures Stake(Current, FixAmount(amount), fund) == 0.0
  {
  }

  /** The two protocols agree everywhere except on a fixed stake above the fund. */
  lemma ProtocolsAgreeWithinFund(size: StakeSize, fund: real)
    requires size.FixAmount? ==> size.amount <= fund
    ensures Stake(Current, size, fund) == Stake(Legacy, size, fund)
  {
  }

  /** The fee formula is the only value that is the fraction `rate` of the outlay. */
  lemma {:induction false} BuyFeeUnique(rate: real, stake: real, f: real)
    requires rate != 1.0
    requires f == (stake + f) * rate
    ensures f == BuyFee(PercentageFee(rate), stake)
  {
    var g := BuyFee(PercentageFee(rate), stake);
    var k := 1.0 - rate;
    assert f * k == stake * rate;
    assert g * k == stake * rate;
    calc {
      f;
      (f * k) / k;
      (g * k) / k;
      g;
    }
  }

  /** Nothing bounds the outlay by the fund: staking the whole fund with a
      percentage fee always spends more than the fund holds. */
  lemma FullStakeOverspends(protocol: Protocol, rate: real, fund: real, price: real)
    requires 0.0 < rate < 1.0 && fund > 0.0 && price > 0.0
    ensures var r := BuyOrder(protocol, FixPercentage(1.0), PercentageFee(rate), fund, price);
            r.Some? && r.value.quantity * price > fund
  {
    var f := BuyFee(PercentageFee(rate), fund * 1.0);
    var k := 1.0 - rate;
    assert f == (fund * rate) / k;
    assert (fund * rate) / k == (fund * rate) * (1.0 / k);
    assert 1.0 / k > 0.0;
    assert fund * rate > 0.0;
    assert f > 0.0;
    assert (fund + f) / price > 0.0;
  }
}
