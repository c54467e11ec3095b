/**
 Histories as they are run: transactions one after the other on one exchange.
 */
module Sessions {
  import opened Ids
  import opened FixedPoint
  import opened Amm
  import opened Book
  import opened World
  import opened Keeper
  import opened Trading
  import opened Histories

  /** What users do with positions. */
  method TradeCall(e: Exchange, sender: User, c: Call)
    requires e.Valid()
    requires c.OpenPosition? || c.AddSize? || c.PartialClose? || c.ClosePosition? || c.Liquidate? || c.AutoDeleverage?
    modifies e
    ensures e.Valid() && e.State() == Done(old(e.State()), sender, c)
  {
    hide Coherent, Enabled, OpenDone, CanOpen, AddSizeDone, CanAddSize, PartialCloseDone, CanPartialClose, CloseDone,
      CanClose, CanLiquidate, DeleverageDone, CanDeleverage, HasActive;
    var r;
    match c
    case OpenPosition(m, token, amount, leverage, isLong, locked) =>
      r := e.OpenPosition(sender, m, token, amount, leverage, isLong, locked);
    case AddSize(id, amount, leverage, locked) => r := e.AddSize(sender, id, amount, leverage, locked);
    case PartialClose(id, close, paid) => r := e.PartialClose(sender, id, close, paid);
    case ClosePosition(id, paid) => r := e.ClosePosition(sender, id, paid);
    case Liquidate(id, paid) => r := e.Liquidate(id, paid);
    case AutoDeleverage(id, cut, paid) => r := e.AutoDeleverage(id, cut, paid);
  }

  /** What users do with accounts and collateral. */
  method AccountCall(e: Exchange, sender: User, c: Call)
    requires e.Valid() && (c.CreateVault? || c.AddCollateral? || c.RemoveCollateral?)
    modifies e
    ensures e.Valid() && e.State() == Done(old(e.State()), sender, c)
  {
    hide Coherent, Enabled, Moved, AddCollateralDone, CanAddCollateral, RemoveCollateralDone, CanRemoveCollateral;
    var r;
    match c
    case CreateVault => r := e.CreateVault(sender);
    case AddCollateral(id, amount, locked) => r := e.AddCollateral(sender, id, amount, locked);
    case RemoveCollateral(id, amount, paid) => r := e.RemoveCollateral(sender, id, amount, paid);
  }

  /** Orders that open. */
  method OpenOrderCall(e: Exchange, sender: User, c: Call)
    requires e.Valid() && (c.PlaceLimitOrder? || c.PlaceStopLimitOrder?)
    modifies e
    ensures e.Valid() && e.State() == Done(old(e.State()), sender, c)
  {
    hide Coherent, Enabled, Moved, CanPlace;
    var r;
    match c
    case PlaceLimitOrder(m, isLong, trigger, size, leverage, token, amount) =>
      r := e.PlaceOrder(sender, m, isLong, Limit, trigger, trigger, size, leverage, token, amount);
    case PlaceStopLimitOrder(m, isLong, trigger, limit, size, leverage, token, amount) =>
      r := e.PlaceOrder(sender, m, isLong, StopLimit, trigger, limit, size, leverage, token, amount);
  }

  /** What else users and keepers do with orders. */
  method OrderCall(e: Exchange, sender: User, c: Call)
    requires e.Valid()
    requires c.PlaceTakeProfit? || c.PlaceStopLoss? || c.CancelOrder? || c.ExecuteOrder?
    modifies e
    ensures e.Valid() && e.State() == Done(old(e.State()), sender, c)
  {
    hide Coherent, Enabled, Moved, CanPlaceClose, CanCancel, CanExecute, FillDone;
    var r;
    match c
    case PlaceTakeProfit(id, trigger) => r := e.PlaceCloseOrder(sender, id, trigger, TakeProfit);
    case PlaceStopLoss(id, trigger) => r := e.PlaceCloseOrder(sender, id, trigger, StopLoss);
    case CancelOrder(o) => r := e.CancelOrder(sender, o);
    case ExecuteOrder(o, locked) => r := e.ExecuteOrder(o, locked);
  }

  /** What keepers do. */
  method KeeperCall(e: Exchange, sender: User, c: Call)
    requires e.Valid()
    requires c.ExecuteCycle? || c.ExecutePriceCycle? || c.BatchUpdatePrices? || c.UpdateFundingRate?
    modifies e
    ensures e.Valid() && e.State() == Done(old(e.State()), sender, c)
  {
    hide Coherent, CycleDone, CycleGoesThrough, Prepared, CanUpdatePrices, PushAll, Refreshed;
    var r, done;
    match c
    case ExecuteCycle(cycle) => done := e.ExecuteCycle(cycle);
    case ExecutePriceCycle(ms, prices) => done := e.ExecutePriceCycle(ms, prices);
    case BatchUpdatePrices(ms, prices) => r := e.BatchUpdatePrices(ms, prices);
    case UpdateFundingRate(m) => e.UpdateFundingRate(m);
  }

  /** What administrators do with pools. */
  method PoolCall(e: Exchange, sender: User, c: Call)
    requires e.Valid() && c.InitializePool?
    modifies e
    ensures e.Valid() && e.State() == Done(old(e.State()), sender, c)
  {
    hide Coherent, MulFp, PoolOf, MarkPrice;
    var r := e.InitializePool(c.m, c.price, c.liquidity, c.damping);
  }

  /** What else administrators do. */
  method AdminCall(e: Exchange, sender: User, c: Call)
    requires e.Valid() && (c.SyncToOracle? || c.Configure?)
    modifies e
    ensures e.Valid() && e.State() == Done(old(e.State()), sender, c)
  {
    hide Coherent, SyncOne, PoolOf;
    CoherentIsDamped(e.State());
    match c
    case SyncToOracle(m) =>
      SyncedOneIsValid(e.State(), m);
      var r := e.SyncToOracle(m);
    case Configure(s) => e.Configure(s);
  }

  /** One transaction: it leaves exactly the state `After` says. */
  method Transact(e: Exchange, tx: Tx)
    requires e.Valid()
    modifies e
    ensures e.Valid() && e.State() == After(old(e.State()), tx)
  {
    hide Coherent, Done;
    e.Tick(e.blockTimestamp + tx.seconds);
    match tx.call {
      case OpenPosition(_, _, _, _, _, _) => TradeCall(e, tx.sender, tx.call);
      case AddSize(_, _, _, _) => TradeCall(e, tx.sender, tx.call);
      case PartialClose(_, _, _) => TradeCall(e, tx.sender, tx.call);
      case ClosePosition(_, _) => TradeCall(e, tx.sender, tx.call);
      case Liquidate(_, _) => TradeCall(e, tx.sender, tx.call);
      case AutoDeleverage(_, _, _) => TradeCall(e, tx.sender, tx.call);
      case ExecuteCycle(_) => KeeperCall(e, tx.sender, tx.call);
      case ExecutePriceCycle(_, _) => KeeperCall(e, tx.sender, tx.call);
      case BatchUpdatePrices(_, _) => KeeperCall(e, tx.sender, tx.call);
      case UpdateFundingRate(_) => KeeperCall(e, tx.sender, tx.call);
      case InitializePool(_, _, _, _) => PoolCall(e, tx.sender, tx.call);
      case SyncToOracle(_) => AdminCall(e, tx.sender, tx.call);
      case Configure(_) => AdminCall(e, tx.sender, tx.call);
      case CreateVault => AccountCall(e, tx.sender, tx.call);
      case AddCollateral(_, _, _) => AccountCall(e, tx.sender, tx.call);
      case RemoveCollateral(_, _, _) => AccountCall(e, tx.sender, tx.call);
      case PlaceLimitOrder(_, _, _, _, _, _, _) => OpenOrderCall(e, tx.sender, tx.call);
      case PlaceStopLimitOrder(_, _, _, _, _, _, _, _) => OpenOrderCall(e, tx.sender, tx.call);
      case _ => OrderCall(e, tx.sender, tx.call);
    }
  }

  /** What an exchange starts from. */
  function Genesis(settings: Settings, now: nat): World {
    World(EMPTY, map[], map[], map[], map[], map[], {}, settings, now)
  }

  /** A whole history on a fresh exchange leaves exactly the state `History` says. */
  method Session(settings: Settings, now: nat, txs: seq<Tx>) returns (e: Exchange)
    requires now > 0
    ensures fresh(e) && e.Valid() && Coherent(Genesis(settings, now))
    ensures e.State() == History(Genesis(settings, now), txs)
  {
    hide Coherent, After;
    e := new Exchange(settings, now);
    for i := 0 to |txs|
      invariant fresh(e) && e.Valid() && Coherent(Genesis(settings, now))
      invariant e.State() == History(Genesis(settings, now), txs[..i])
    {
      assert txs[..i + 1][..i] == txs[..i];
      Transact(e, txs[i]);
    }
    assert txs[..|txs|] == txs;
  }
}
