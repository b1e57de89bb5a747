/** The account the engine trades on. Its own bookkeeping is outside this
    model; what is kept here is an assumed, minimal contract: every call
    of `Open`, `Close` and `MarkToMarket` is recorded with exactly the
    arguments the engine passed, the position quantity moves by the
    quantity traded, and the available fund moves by the cash that
    changes hands. The cost basis of the position is kept by the account
    object alone: no contract here says how a trade changes it. */
module Accounts {
  import opened Market

  datatype Position = Position(quantity: real, cost: real)

  /** The record of one `open` or `close` call. */
  datatype TradeRecord =
    | Opened(timestamp: Timestamp, quantity: real, price: real, fee: real)
    | Closed(timestamp: Timestamp, quantity: real, price: real, fee: real)

  /** The record of one `mark_to_market` call. */
  datatype Snapshot = Snapshot(timestamp: Timestamp, price: real)

  /** What the engine can observe of an account at one moment: the fund,
      the quantity held, and the records of the calls made on it. */
  datatype AccountState = AccountState(
    availableFund: real,
    quantity: real,
    trades: seq<TradeRecord>,
    history: seq<Snapshot>)

  /** Opening buys `quantity` at `price`: the outlay `quantity * price`
      leaves the fund and the quantity joins the position. */
  function OpenEffect(s: AccountState, t: Timestamp, quantity: real, price: real, fee: real): (r: AccountState)
    ensures r.quantity - s.quantity == quantity
    ensures s.availableFund - r.availableFund == quantity * price
    ensures r.trades == s.trades + [Opened(t, quantity, price, fee)]
    ensures r.history == s.history
  {
    AccountState(
      s.availableFund - quantity * price,
      s.quantity + quantity,
      s.trades + [Opened(t, quantity, price, fee)],
      s.history)
  }

  /** Closing sells `quantity` at `price`: the proceeds net of the fee join
      the fund and the quantity leaves the position. */
  function CloseEffect(s: AccountState, t: Timestamp, quantity: real, price: real, fee: real): (r: AccountState)
    ensures s.quantity - r.quantity == quantity
    ensures r.availableFund - s.availableFund == quantity * price - fee
    ensures r.trades == s.trades + [Closed(t, quantity, price, fee)]
    ensures r.history == s.history
  {
    AccountState(
      s.availableFund + quantity * price - fee,
      s.quantity - quantity,
      s.trades + [Closed(t, quantity, price, fee)],
      s.history)
  }

  /** Marking to market appends one snapshot and changes nothing else. */
  function MarkEffect(s: AccountState, t: Timestamp, price: real): (r: AccountState)
    ensures r.history == s.history + [Snapshot(t, price)]
    ensures r.availableFund == s.availableFund && r.quantity == s.quantity && r.trades == s.trades
  {
    s.(history := s.history + [Snapshot(t, price)])
  }

  class Account {
    var availableFund: real
    var position: Position
    var trades: seq<TradeRecord>
    var history: seq<Snapshot>
    const startTime: Timestamp

    /** The observable state; the position's cost is not part of it. */
    function State(): AccountState
      reads this
    {
      AccountState(availableFund, position.quantity, trades, history)
    }

    /** A new account holds the given fund and position and has no records. */
    constructor (startFund: real, startPosition: Position, start: Timestamp)
      ensures State() == AccountState(startFund, startPosition.quantity, [], [])
      ensures position == startPosition && startTime == start
    {
      availableFund := startFund;
      position := startPosition;
      trades := [];
      history := [];
      startTime := start;
    }

    method Open(t: Timestamp, quantity: real, price: real, fee: real)
      modifies this
      ensures State() == OpenEffect(old(State()), t, quantity, price, fee)
    {
      availableFund := availableFund - quantity * price;
      position := position.(quantity := position.quantity + quantity);
      trades := trades + [Opened(t, quantity, price, fee)];
    }

    method Close(t: Timestamp, quantity: real, price: real, fee: real)
      modifies this
      ensures State() == CloseEffect(old(State()), t, quantity, price, fee)
    {
      availableFund := availableFund + quantity * price - fee;
      position := position.(quantity := position.quantity - quantity);
      trades := trades + [Closed(t, quantity, price, fee)];
    }

    method MarkToMarket(t: Timestamp, price: real)
      modifies this
      ensures State() == MarkEffect(old(State()), t, price)
      ensures position == old(position)
    {
      history := history + [Snapshot(t, price)];
    }
  }
}
