/**
 Whole histories of the exchange: transactions of any users, keepers and administrators, in any order.  What they leave,
 the moves they make on the book, and what holds of every history.
 */
module Histories {
  import opened FixedPoint
  import opened Ids
  import opened Amm
  import opened Book
  import opened BookRuns
  import opened World
  import opened Twap
  import opened Keeper
  import opened Trading

  /** The entry points, with what they read from outside the books: whether the token transfers they ask for, into the
      exchange (`locked`) or out of it (`paid`), succeed. */
  datatype Call =
    | CreateVault
    | OpenPosition(m: Market, token: Token, amount: nat, leverage: nat, isLong: bool, locked: bool)
    | AddSize(id: nat, amount: nat, leverage: nat, locked: bool)
    | PartialClose(id: nat, close: nat, paid: bool)
    | ClosePosition(id: nat, paid: bool)
    | AddCollateral(id: nat, amount: nat, locked: bool)
    | RemoveCollateral(id: nat, amount: nat, paid: bool)
    | Liquidate(id: nat, paid: bool)
    | AutoDeleverage(id: nat, cut: nat, paid: bool)
    | PlaceLimitOrder(m: Market, isLong: bool, trigger: nat, size: nat, leverage: nat, token: Token, amount: nat)
    | PlaceStopLimitOrder(m: Market, isLong: bool, trigger: nat, limit: nat, size: nat, leverage: nat, token: Token,
                          amount: nat)
    | PlaceTakeProfit(id: nat, trigger: nat)
    | PlaceStopLoss(id: nat, trigger: nat)
    | CancelOrder(o: nat)
    | ExecuteOrder(o: nat, locked: bool)
    | ExecuteCycle(c: Cycle)
    | ExecutePriceCycle(ms: seq<Market>, prices: seq<nat>)
    | BatchUpdatePrices(ms: seq<Market>, prices: seq<nat>)
    | InitializePool(m: Market, price: nat, liquidity: nat, damping: nat)
    | SyncToOracle(m: Market)
    | UpdateFundingRate(m: Market)
    | Configure(s: Settings)

  /** A call, and how many seconds its block is later than the one before. */
  datatype Tx = Tx(sender: User, seconds: nat, call: Call)

  // ---------------------------------------------------------------- one call

  function LimitOrder(sender: User, m: Market, isLong: bool, trigger: nat, size: nat, leverage: nat, token: Token,
                      amount: nat): Order {
    Order(sender, m, isLong, Limit, trigger, trigger, size, leverage, token, amount, true)
  }

  function StopLimitOrder(sender: User, m: Market, isLong: bool, trigger: nat, limit: nat, size: nat, leverage: nat,
                          token: Token, amount: nat): Order {
    Order(sender, m, isLong, StopLimit, trigger, limit, size, leverage, token, amount, true)
  }

  predicate CanInitialize(w: World, m: Market, price: nat, liquidity: nat, damping: nat) {
    && price > 0 && liquidity > 0 && 0 < damping <= BPS && m in w.settings.markets
    && PoolOf(w.pools, m).base == 0
  }

  /** What a call does to the book, other than a keeper's cycle: one move, when all its checks pass. */
  datatype Step = None | Makes(v: Move)

  function StepOf(w: World, sender: User, c: Call): Step
    requires Coherent(w) && !c.ExecuteCycle?
  {
    match c
    case OpenPosition(m, token, amount, leverage, isLong, locked) =>
      if CanOpen(w, sender, m, token, amount, leverage, isLong, locked) then
        Makes(OpenMove(w, sender, m, token, amount, leverage, isLong))
      else None
    case AddSize(id, amount, leverage, locked) =>
      if CanAddSize(w, sender, id, amount, leverage, locked) then Makes(AddSizeMove(w, id, amount, leverage)) else None
    case PartialClose(id, close, paid) =>
      if CanPartialClose(w, sender, id, close, paid) then Makes(PartialCloseMove(w, id, close)) else None
    case ClosePosition(id, paid) => if CanClose(w, sender, id, paid) then Makes(CloseMove(w, id)) else None
    case AddCollateral(id, amount, locked) =>
      if CanAddCollateral(w, sender, id, amount, locked) then Makes(AddCollateralMove(w, id, amount)) else None
    case RemoveCollateral(id, amount, paid) =>
      if CanRemoveCollateral(w, sender, id, amount, paid) then
        RemoveCollateralFields(w, sender, id, amount, paid);
        Makes(RemoveCollateralMove(w, id, amount))
      else None
    case Liquidate(id, paid) => if CanLiquidate(w, id, paid) then Makes(CloseMove(w, id)) else None
    case AutoDeleverage(id, cut, paid) =>
      if CanDeleverage(w, id, cut, paid) then Makes(DeleverageMove(w, id, cut)) else None
    case PlaceLimitOrder(m, isLong, trigger, size, leverage, token, amount) =>
      PlaceStep(w, LimitOrder(sender, m, isLong, trigger, size, leverage, token, amount))
    case PlaceStopLimitOrder(m, isLong, trigger, limit, size, leverage, token, amount) =>
      PlaceStep(w, StopLimitOrder(sender, m, isLong, trigger, limit, size, leverage, token, amount))
    case PlaceTakeProfit(id, trigger) => PlaceCloseStep(w, sender, id, trigger, TakeProfit)
    case PlaceStopLoss(id, trigger) => PlaceCloseStep(w, sender, id, trigger, StopLoss)
    case CancelOrder(o) => if CanCancel(w, sender, o) then Makes(Cancel(o, sender)) else None
    case ExecuteOrder(o, locked) => if CanExecute(w, o, locked) then Makes(FillMove(w, o, true)) else None
    case _ => None
  }

  function PlaceStep(w: World, o: Order): Step {
    if CanPlace(w, o) then Makes(Place(o)) else None
  }

  function PlaceCloseStep(w: World, sender: User, id: nat, trigger: nat, kind: Kind): Step {
    if CanPlaceClose(w, sender, id, trigger) then Makes(Place(CloseOrder(w, sender, id, trigger, kind))) else None
  }

  /** The state a call leaves; a call that fails leaves the state it found. */
  function Done(w: World, sender: User, c: Call): World
    requires Coherent(w)
  {
    match c
    case CreateVault => w.(vaults := w.vaults + {sender})
    case OpenPosition(m, token, amount, leverage, isLong, locked) =>
      if CanOpen(w, sender, m, token, amount, leverage, isLong, locked) then
        OpenIsEnabled(w, sender, m, token, amount, leverage, isLong, locked);
        OpenDone(w, sender, m, token, amount, leverage, isLong)
      else w
    case AddSize(id, amount, leverage, locked) =>
      if CanAddSize(w, sender, id, amount, leverage, locked) then
        AddSizeIsEnabled(w, sender, id, amount, leverage, locked);
        AddSizeDone(w, id, amount, leverage)
      else w
    case PartialClose(id, close, paid) =>
      if CanPartialClose(w, sender, id, close, paid) then
        PartialCloseIsEnabled(w, sender, id, close, paid);
        PartialCloseDone(w, id, close)
      else w
    case ClosePosition(id, paid) =>
      if CanClose(w, sender, id, paid) then
        CloseIsEnabled(w, id);
        CloseDone(w, id)
      else w
    case AddCollateral(id, amount, locked) =>
      if CanAddCollateral(w, sender, id, amount, locked) then
        AddCollateralFields(w, sender, id, amount, locked);
        AddCollateralDone(w, id, amount)
      else w
    case RemoveCollateral(id, amount, paid) =>
      if CanRemoveCollateral(w, sender, id, amount, paid) then
        RemoveCollateralFields(w, sender, id, amount, paid);
        RemoveCollateralDone(w, id, amount)
      else w
    case Liquidate(id, paid) =>
      if CanLiquidate(w, id, paid) then
        LiquidatedIsActive(w, id, paid); CloseIsEnabled(w, id);
        CloseDone(w, id)
      else w
    case AutoDeleverage(id, cut, paid) =>
      if CanDeleverage(w, id, cut, paid) then
        DeleverageIsEnabled(w, id, cut, paid);
        DeleverageDone(w, id, cut)
      else w
    case PlaceLimitOrder(m, isLong, trigger, size, leverage, token, amount) =>
      Placed(w, LimitOrder(sender, m, isLong, trigger, size, leverage, token, amount))
    case PlaceStopLimitOrder(m, isLong, trigger, limit, size, leverage, token, amount) =>
      Placed(w, StopLimitOrder(sender, m, isLong, trigger, limit, size, leverage, token, amount))
    case PlaceTakeProfit(id, trigger) => ClosePlaced(w, sender, id, trigger, TakeProfit)
    case PlaceStopLoss(id, trigger) => ClosePlaced(w, sender, id, trigger, StopLoss)
    case CancelOrder(o) =>
      if CanCancel(w, sender, o) then
        Moved(w, Cancel(o, sender), 0, false)
      else w
    case ExecuteOrder(o, locked) =>
      if CanExecute(w, o, locked) then
        FillIsEnabled(w, o, true);
        FillDone(w, o, true)
      else w
    case ExecuteCycle(c) => CycleDone(w, c)
    case ExecutePriceCycle(ms, prices) => Prepared(w, ms, prices).world
    case BatchUpdatePrices(ms, prices) => if CanUpdatePrices(w, ms, prices) then PushAll(w, ms, prices).world else w
    case InitializePool(m, price, liquidity, damping) =>
      if CanInitialize(w, m, price, liquidity, damping) then
        w.(pools := w.pools[m := Pool(liquidity, MulFp(liquidity, price), w.now, damping)])
      else w
    case SyncToOracle(m) => w.(pools := SyncOne(w.pools, Price(w, m), m, w.now))
    case UpdateFundingRate(m) => Refreshed(w, m)
    case Configure(s) => w.(settings := s)
  }

  function Placed(w: World, o: Order): World
    requires o.active && Opens(o.kind)
  {
    if CanPlace(w, o) then Moved(w, Place(o), 0, false) else w
  }

  function ClosePlaced(w: World, sender: User, id: nat, trigger: nat, kind: Kind): World
    requires Coherent(w) && !Opens(kind)
  {
    if CanPlaceClose(w, sender, id, trigger) then
      PlaceCloseIsEnabled(w, sender, id, trigger, kind);
      Moved(w, Place(CloseOrder(w, sender, id, trigger, kind)), 0, false)
    else w
  }

  /** The moves of a call. */
  function MovesOf(w: World, sender: User, c: Call): seq<Move>
    requires Coherent(w)
  {
    if c.ExecuteCycle? then CycleMoves(w, c.c) else Listed(StepOf(w, sender, c))
  }

  function Listed(s: Step): seq<Move> {
    match s
    case None => []
    case Makes(v) => [v]
  }

  // ---------------------------------------------------------------- every call is a legal run of moves

  /** The state is coherent and its book is where the moves lead. */
  ghost predicate Reaches(w: World, vs: seq<Move>, w': World) {
    Coherent(w') && Legal(w.book, vs) && w'.book == Final(w.book, vs)
  }

  lemma ReachesByOne(w: World, v: Move, w': World)
    requires Enabled(w.book, v) && Coherent(w') && w'.book == Apply(w.book, v)
    ensures Reaches(w, [v], w')
  {
    hide Coherent, Enabled, Apply;
    OneMove(w.book, v);
  }

  lemma Stays(w: World, w': World)
    requires Coherent(w') && w'.book == w.book
    ensures Reaches(w, [], w')
  {
    hide Coherent;
  }

  lemma OpenPositionReaches(w: World, sender: User, m: Market, token: Token, amount: nat, leverage: nat, isLong: bool,
                            locked: bool)
    requires Coherent(w)
    ensures Reaches(w, MovesOf(w, sender, OpenPosition(m, token, amount, leverage, isLong, locked)),
                    Done(w, sender, OpenPosition(m, token, amount, leverage, isLong, locked)))
  {
    hide Coherent, Enabled, Apply, CanOpen;
    if CanOpen(w, sender, m, token, amount, leverage, isLong, locked) {
      OpenIsEnabled(w, sender, m, token, amount, leverage, isLong, locked);
      OpenDoneIsValid(w, sender, m, token, amount, leverage, isLong);
      ReachesByOne(w, OpenMove(w, sender, m, token, amount, leverage, isLong),
                   OpenDone(w, sender, m, token, amount, leverage, isLong));
    } else {
      Stays(w, w);
    }
  }

  lemma AddSizeReaches(w: World, sender: User, id: nat, amount: nat, leverage: nat, locked: bool)
    requires Coherent(w)
    ensures Reaches(w, MovesOf(w, sender, AddSize(id, amount, leverage, locked)),
                    Done(w, sender, AddSize(id, amount, leverage, locked)))
  {
    hide Coherent, Enabled, Apply, CanAddSize;
    if CanAddSize(w, sender, id, amount, leverage, locked) {
      AddSizeIsEnabled(w, sender, id, amount, leverage, locked);
      AddSizeDoneIsValid(w, sender, id, amount, leverage, locked);
      ReachesByOne(w, AddSizeMove(w, id, amount, leverage), AddSizeDone(w, id, amount, leverage));
    } else {
      Stays(w, w);
    }
  }

  lemma PartialCloseReaches(w: World, sender: User, id: nat, close: nat, paid: bool)
    requires Coherent(w)
    ensures Reaches(w, MovesOf(w, sender, PartialClose(id, close, paid)),
                    Done(w, sender, PartialClose(id, close, paid)))
  {
    hide Coherent, Enabled, Apply, CanPartialClose;
    if CanPartialClose(w, sender, id, close, paid) {
      PartialCloseIsEnabled(w, sender, id, close, paid); PartialCloseDoneIsValid(w, sender, id, close, paid);
      ReachesByOne(w, PartialCloseMove(w, id, close), PartialCloseDone(w, id, close));
    } else {
      Stays(w, w);
    }
  }

  lemma ClosePositionReaches(w: World, sender: User, id: nat, paid: bool)
    requires Coherent(w)
    ensures Reaches(w, MovesOf(w, sender, ClosePosition(id, paid)), Done(w, sender, ClosePosition(id, paid)))
  {
    hide Coherent, Enabled, Apply, Stale;
    if CanClose(w, sender, id, paid) {
      CloseIsEnabled(w, id); CloseDoneIsValid(w, id);
      ReachesByOne(w, CloseMove(w, id), CloseDone(w, id));
    } else {
      Stays(w, w);
    }
  }

  lemma AddCollateralReaches(w: World, sender: User, id: nat, amount: nat, locked: bool)
    requires Coherent(w)
    ensures Reaches(w, MovesOf(w, sender, AddCollateral(id, amount, locked)),
                    Done(w, sender, AddCollateral(id, amount, locked)))
  {
    hide Coherent, Enabled, Apply, CanAddCollateral;
    if CanAddCollateral(w, sender, id, amount, locked) {
      AddCollateralFields(w, sender, id, amount, locked);
      ReachesByOne(w, AddCollateralMove(w, id, amount), AddCollateralDone(w, id, amount));
    } else {
      Stays(w, w);
    }
  }

  lemma RemoveCollateralReaches(w: World, sender: User, id: nat, amount: nat, paid: bool)
    requires Coherent(w)
    ensures Reaches(w, MovesOf(w, sender, RemoveCollateral(id, amount, paid)),
                    Done(w, sender, RemoveCollateral(id, amount, paid)))
  {
    hide Coherent, Enabled, Apply, CanRemoveCollateral;
    if CanRemoveCollateral(w, sender, id, amount, paid) {
      RemoveCollateralFields(w, sender, id, amount, paid);
      ReachesByOne(w, RemoveCollateralMove(w, id, amount), RemoveCollateralDone(w, id, amount));
    } else {
      Stays(w, w);
    }
  }

  lemma LiquidateReaches(w: World, sender: User, id: nat, paid: bool)
    requires Coherent(w)
    ensures Reaches(w, MovesOf(w, sender, Liquidate(id, paid)), Done(w, sender, Liquidate(id, paid)))
  {
    hide Coherent, Enabled, Apply, CanLiquidate;
    if CanLiquidate(w, id, paid) {
      LiquidatedIsActive(w, id, paid); CloseIsEnabled(w, id); CloseDoneIsValid(w, id);
      ReachesByOne(w, CloseMove(w, id), CloseDone(w, id));
    } else {
      Stays(w, w);
    }
  }

  lemma AutoDeleverageReaches(w: World, sender: User, id: nat, cut: nat, paid: bool)
    requires Coherent(w)
    ensures Reaches(w, MovesOf(w, sender, AutoDeleverage(id, cut, paid)),
                    Done(w, sender, AutoDeleverage(id, cut, paid)))
  {
    hide Coherent, Enabled, Apply, CanDeleverage;
    if CanDeleverage(w, id, cut, paid) {
      DeleverageIsEnabled(w, id, cut, paid); DeleverageIsValid(w, id, cut, paid);
      ReachesByOne(w, DeleverageMove(w, id, cut), DeleverageDone(w, id, cut));
    } else {
      Stays(w, w);
    }
  }

  lemma CancelOrderReaches(w: World, sender: User, o: nat)
    requires Coherent(w)
    ensures Reaches(w, MovesOf(w, sender, CancelOrder(o)), Done(w, sender, CancelOrder(o)))
  {
    hide Coherent, Apply;
    if CanCancel(w, sender, o) {
      MovedIsValid(w, Cancel(o, sender), 0, false);
      ReachesByOne(w, Cancel(o, sender), Moved(w, Cancel(o, sender), 0, false));
    } else {
      Stays(w, w);
    }
  }

  lemma ExecuteOrderReaches(w: World, sender: User, o: nat, locked: bool)
    requires Coherent(w)
    ensures Reaches(w, MovesOf(w, sender, ExecuteOrder(o, locked)), Done(w, sender, ExecuteOrder(o, locked)))
  {
    hide Coherent, Enabled, Apply, Openable, HasRoom, Lockable, FillMove, TradeIn;
    OpenableIsListed(w, o);
    if CanExecute(w, o, locked) {
      FillIsEnabled(w, o, true); FillDoneIsValid(w, o, true);
      ReachesByOne(w, FillMove(w, o, true), FillDone(w, o, true));
    } else {
      Stays(w, w);
    }
  }

  lemma PlaceReaches(w: World, o: Order)
    requires Coherent(w) && o.active && Opens(o.kind)
    ensures Reaches(w, Listed(PlaceStep(w, o)), Placed(w, o))
  {
    hide Coherent, Apply, ToUsd;
    if CanPlace(w, o) {
      MovedIsValid(w, Place(o), 0, false);
      ReachesByOne(w, Place(o), Moved(w, Place(o), 0, false));
    } else {
      Stays(w, w);
    }
  }

  lemma PlaceCloseReaches(w: World, sender: User, id: nat, trigger: nat, kind: Kind)
    requires Coherent(w) && !Opens(kind)
    ensures Reaches(w, Listed(PlaceCloseStep(w, sender, id, trigger, kind)), ClosePlaced(w, sender, id, trigger, kind))
  {
    hide Coherent, Enabled, Apply;
    CoherentIsSound(w);
    if CanPlaceClose(w, sender, id, trigger) {
      var v := Place(CloseOrder(w, sender, id, trigger, kind));
      PlaceCloseIsEnabled(w, sender, id, trigger, kind);
      MovedIsValid(w, v, 0, false);
      ReachesByOne(w, v, Moved(w, v, 0, false));
    } else {
      Stays(w, w);
    }
  }

  lemma OrdersReach(w: World, sender: User, c: Call)
    requires Coherent(w)
    requires c.PlaceLimitOrder? || c.PlaceStopLimitOrder? || c.PlaceTakeProfit? || c.PlaceStopLoss?
    ensures Reaches(w, MovesOf(w, sender, c), Done(w, sender, c))
  {
    hide Coherent, Placed, PlaceStep, ClosePlaced, PlaceCloseStep, Reaches;
    match c
    case PlaceLimitOrder(m, isLong, trigger, size, leverage, token, amount) =>
      PlaceReaches(w, LimitOrder(sender, m, isLong, trigger, size, leverage, token, amount));
    case PlaceStopLimitOrder(m, isLong, trigger, limit, size, leverage, token, amount) =>
      PlaceReaches(w, StopLimitOrder(sender, m, isLong, trigger, limit, size, leverage, token, amount));
    case PlaceTakeProfit(id, trigger) => PlaceCloseReaches(w, sender, id, trigger, TakeProfit);
    case PlaceStopLoss(id, trigger) => PlaceCloseReaches(w, sender, id, trigger, StopLoss);
  }

  lemma PricesReach(w: World, sender: User, c: Call)
    requires Coherent(w) && (c.ExecutePriceCycle? || c.BatchUpdatePrices? || c.UpdateFundingRate?)
    ensures MovesOf(w, sender, c) == [] && Reaches(w, [], Done(w, sender, c))
  {
    hide Coherent, CanUpdatePrices, PushAll, Prepared, Refreshed, Reaches;
    CoherentIsDamped(w);
    match c {
      case ExecutePriceCycle(ms, prices) => PreparedIsValid(w, ms, prices);
      case BatchUpdatePrices(ms, prices) =>
        if CanUpdatePrices(w, ms, prices) { CanPushAll(w, ms, prices); PushAllIsValid(w, ms, prices); }
      case UpdateFundingRate(m) => RefreshIsValid(w, m);
    }
    Stays(w, Done(w, sender, c));
  }

  lemma AdminReaches(w: World, sender: User, c: Call)
    requires Coherent(w) && (c.CreateVault? || c.InitializePool? || c.SyncToOracle? || c.Configure?)
    ensures MovesOf(w, sender, c) == [] && Reaches(w, [], Done(w, sender, c))
  {
    hide Coherent, CanInitialize, SyncOne, Reaches;
    CoherentIsDamped(w);
    match c {
      case InitializePool(m, price, liquidity, damping) =>
        if CanInitialize(w, m, price, liquidity, damping) { InitializedIsValid(w, m, price, liquidity, damping); }
      case SyncToOracle(m) => SyncedOneIsValid(w, m);
      case CreateVault => SameBook(w, Done(w, sender, c));
      case Configure(_) => SameBook(w, Done(w, sender, c));
    }
    Stays(w, Done(w, sender, c));
  }

  lemma CanPushAll(w: World, ms: seq<Market>, prices: seq<nat>)
    requires CanUpdatePrices(w, ms, prices)
    ensures |ms| == |prices|
  {
  }

  /** The invariant does not look at the vaults or the settings. */
  lemma SameBook(w: World, w': World)
    requires Coherent(w) && w' == w.(vaults := w'.vaults, settings := w'.settings)
    ensures Coherent(w')
  {
    hide Sound, Under, Damped;
  }

  lemma InitializedIsValid(w: World, m: Market, price: nat, liquidity: nat, damping: nat)
    requires Coherent(w) && CanInitialize(w, m, price, liquidity, damping)
    ensures Coherent(w.(pools := w.pools[m := Pool(liquidity, MulFp(liquidity, price), w.now, damping)]))
  {
    hide Sound, Under, Chronological, MulFp;
  }

  lemma SyncedOneIsValid(w: World, m: Market)
    requires Coherent(w)
    ensures Coherent(w.(pools := SyncOne(w.pools, Price(w, m), m, w.now)))
  {
    hide Sound, Under, Chronological;
  }

  /** Every call is a legal run of moves to a coherent state. */
  lemma CallReaches(w: World, sender: User, c: Call)
    requires Coherent(w)
    ensures Reaches(w, MovesOf(w, sender, c), Done(w, sender, c))
  {
    hide *;
    match c
    case OpenPosition(m, token, amount, leverage, isLong, locked) =>
      OpenPositionReaches(w, sender, m, token, amount, leverage, isLong, locked);
    case AddSize(id, amount, leverage, locked) => AddSizeReaches(w, sender, id, amount, leverage, locked);
    case PartialClose(id, close, paid) => PartialCloseReaches(w, sender, id, close, paid);
    case ClosePosition(id, paid) => ClosePositionReaches(w, sender, id, paid);
    case AddCollateral(id, amount, locked) => AddCollateralReaches(w, sender, id, amount, locked);
    case RemoveCollateral(id, amount, paid) => RemoveCollateralReaches(w, sender, id, amount, paid);
    case Liquidate(id, paid) => LiquidateReaches(w, sender, id, paid);
    case AutoDeleverage(id, cut, paid) => AutoDeleverageReaches(w, sender, id, cut, paid);
    case CancelOrder(o) => CancelOrderReaches(w, sender, o);
    case ExecuteOrder(o, locked) => ExecuteOrderReaches(w, sender, o, locked);
    case ExecuteCycle(cycle) => CycleReaches(w, sender, cycle);
    case PlaceLimitOrder(_, _, _, _, _, _, _) => OrdersReach(w, sender, c);
    case PlaceStopLimitOrder(_, _, _, _, _, _, _, _) => OrdersReach(w, sender, c);
    case PlaceTakeProfit(_, _) => OrdersReach(w, sender, c);
    case PlaceStopLoss(_, _) => OrdersReach(w, sender, c);
    case ExecutePriceCycle(_, _) => PricesReach(w, sender, c);
    case BatchUpdatePrices(_, _) => PricesReach(w, sender, c);
    case UpdateFundingRate(_) => PricesReach(w, sender, c);
    case _ => AdminReaches(w, sender, c);
  }

  lemma CycleReaches(w: World, sender: User, c: Cycle)
    requires Coherent(w)
    ensures Reaches(w, MovesOf(w, sender, ExecuteCycle(c)), Done(w, sender, ExecuteCycle(c)))
  {
    hide Coherent, Legal, Final, CycleDone, CycleMoves;
    CycleIsLegal(w, c);
  }

  // ---------------------------------------------------------------- histories

  function Later(w: World, seconds: nat): World {
    w.(now := w.now + seconds)
  }

  function After(w: World, tx: Tx): World
    requires Coherent(w)
    ensures Coherent(After(w, tx))
  {
    LaterIsValid(w, w.now + tx.seconds);
    CallReaches(Later(w, tx.seconds), tx.sender, tx.call);
    Done(Later(w, tx.seconds), tx.sender, tx.call)
  }

  /** The state a history leaves. */
  function History(w: World, txs: seq<Tx>): World
    requires Coherent(w)
    ensures Coherent(History(w, txs))
  {
    if txs == [] then w else After(History(w, txs[..|txs| - 1]), txs[|txs| - 1])
  }

  function TxMoves(w: World, tx: Tx): seq<Move>
    requires Coherent(w)
  {
    LaterIsValid(w, w.now + tx.seconds);
    MovesOf(Later(w, tx.seconds), tx.sender, tx.call)
  }

  function HistoryMoves(w: World, txs: seq<Tx>): seq<Move>
    requires Coherent(w)
  {
    if txs == [] then []
    else HistoryMoves(w, txs[..|txs| - 1]) + TxMoves(History(w, txs[..|txs| - 1]), txs[|txs| - 1])
  }

  lemma TxReaches(w: World, tx: Tx)
    requires Coherent(w)
    ensures Reaches(w, TxMoves(w, tx), After(w, tx))
  {
    hide Coherent, MovesOf, Done, Legal, Final;
    LaterIsValid(w, w.now + tx.seconds);
    CallReaches(Later(w, tx.seconds), tx.sender, tx.call);
  }

  /** Every history is a legal run of moves on the book, to a coherent state. */
  lemma {:induction false} HistoryReaches(w: World, txs: seq<Tx>)
    requires Coherent(w)
    ensures Reaches(w, HistoryMoves(w, txs), History(w, txs))
    decreases |txs|
  {
    hide Coherent, Legal, Final, TxMoves, After;
    if txs == [] {
      NoMoves(w.book);
    } else {
      var p, tx := txs[..|txs| - 1], txs[|txs| - 1];
      HistoryReaches(w, p);
      TxReaches(History(w, p), tx);
      RunsJoin(w.book, HistoryMoves(w, p), TxMoves(History(w, p), tx));
    }
  }
}
