/**
 The storage that all facets share, as a value, and what each operation of the facets makes of it: when it goes through,
 the move it makes on the book, and the state it leaves.  The facets themselves are in Trading.dfy.
 */
module World {
  import opened FixedPoint
  import opened LibPosition
  import opened Ids
  import opened Amm
  import opened Twap
  import opened Funding
  import opened Book
  import opened BookRuns
  import opened Settlement

  datatype MarketConfig = MarketConfig(enabled: bool, maxLeverage: nat, maintenanceBps: nat, maxOpenInterest: nat)

  const NO_MARKET := MarketConfig(false, 0, 0, 0)

  /** What administrators set.  A limit of 0 is no limit, a staleness of 0 the default; `decimals` is 0 for a token
      nobody registered. */
  datatype Settings = Settings(paused: bool, pausedMarkets: set<Market>, markets: map<Market, MarketConfig>,
                               accepted: set<Token>, decimals: map<Token, nat>, maxStaleness: nat, minPositionSize: nat,
                               minOrderSize: nat, takerFeeBps: nat, makerFeeBps: nat, liquidationFeeBps: nat,
                               maxDeviationBps: nat, maxFundingRate: int)

  const DEFAULT_STALENESS: nat := 120

  /** The window of the average that funding uses: 15 minutes. */
  const TWAP_WINDOW: nat := 900

  /** `now` is the time of the current block. */
  datatype World = World(book: Book, funding: map<Market, FundingState>, pools: map<Market, Pool>,
                         history: map<Market, seq<PricePoint>>, prices: map<Market, nat>, times: map<Market, nat>,
                         vaults: set<User>, settings: Settings, now: nat)

  function Config(s: Settings, m: Market): MarketConfig {
    if m in s.markets then s.markets[m] else NO_MARKET
  }

  function Decimals(s: Settings, t: Token): nat {
    if t in s.decimals then s.decimals[t] else 0
  }

  predicate Halted(s: Settings, m: Market) {
    s.paused || m in s.pausedMarkets
  }

  function Price(w: World, m: Market): nat {
    if m in w.prices then w.prices[m] else 0
  }

  function HistoryOf(w: World, m: Market): seq<PricePoint> {
    if m in w.history then w.history[m] else []
  }

  predicate Stale(w: World, m: Market) {
    var limit := if w.settings.maxStaleness == 0 then DEFAULT_STALENESS else w.settings.maxStaleness;
    w.now > (if m in w.times then w.times[m] else 0) + limit
  }

  /** What is left of an amount of collateral when a fee has been taken from it. */
  function AfterFee(s: Settings, token: Token, amount: nat, size: nat, feeBps: nat): nat {
    var fee := UsdToTokens(Decimals(s, token), TradingFee(size, feeBps));
    if amount > fee then amount - fee else 0
  }

  function ToUsd(s: Settings, token: Token, amount: nat): nat {
    NormalizeToUsd(Decimals(s, token), amount)
  }

  // ---------------------------------------------------------------- the invariant

  /** Nothing is dated after the current block, and blocks have positive times. */
  ghost predicate Dated(w: World) {
    && 0 < w.now
    && (forall m <- w.history :: Chronological(w.history[m], w.now))
    && (forall m <- w.funding :: Underway(w.funding[m], w.now))
  }

  ghost predicate Coherent(w: World) {
    Sound(w.book) && Under(w.book) && Damped(w.pools) && Dated(w)
  }

  /** A move on the book, with or without accruing the market's funding and trading in its pool. */
  function Moved(w: World, v: Move, m: Market, accrues: bool): World
    requires Enabled(w.book, v)
  {
    w.(book := Apply(w.book, v),
       funding := if accrues then w.funding[m := Accrue(FundingOf(w.funding, m), w.now)] else w.funding)
  }

  function Traded(w: World, m: Market, size: nat, isLong: bool, isOpen: bool): World {
    w.(pools := TradeIn(w.pools, m, size, isLong, isOpen))
  }

  lemma MovedIsValid(w: World, v: Move, m: Market, accrues: bool)
    requires Coherent(w) && Enabled(w.book, v)
    ensures Coherent(Moved(w, v, m, accrues))
  {
    hide Sound, Under, Damped, Apply, Enabled, Chronological;
    MovesKeepSound(w.book, v);
    MovesKeepUnder(w.book, v);
  }

  lemma TradedIsValid(w: World, m: Market, size: nat, isLong: bool, isOpen: bool)
    requires Coherent(w)
    ensures Coherent(Traded(w, m, size, isLong, isOpen))
  {
    hide Sound, Under, Chronological;
  }

  // ---------------------------------------------------------------- opening

  /** The market order's own way with the fee: one that would eat all collateral is not taken. */
  function OpeningCollateral(s: Settings, token: Token, amount: nat, size: nat): nat {
    var fee := UsdToTokens(Decimals(s, token), TradingFee(size, s.takerFeeBps));
    if 0 < fee < amount then amount - fee else amount
  }

  function OpeningSize(s: Settings, token: Token, amount: nat, leverage: nat): nat {
    MulFp(ToUsd(s, token, amount), leverage)
  }

  function OpenedPosition(w: World, sender: User, m: Market, token: Token, amount: nat, leverage: nat,
                          isLong: bool): Position {
    var size := OpeningSize(w.settings, token, amount, leverage);
    var net := OpeningCollateral(w.settings, token, amount, size);
    Position(sender, m, isLong, size, ToUsd(w.settings, token, net), token, net,
             ExecutionPrice(PoolOf(w.pools, m), Price(w, m), size, isLong),
             Index(Accrue(FundingOf(w.funding, m), w.now), isLong), true)
  }

  function OpenMove(w: World, sender: User, m: Market, token: Token, amount: nat, leverage: nat, isLong: bool): Move {
    Open(Config(w.settings, m).maxOpenInterest, OpenedPosition(w, sender, m, token, amount, leverage, isLong))
  }

  predicate CanOpen(w: World, sender: User, m: Market, token: Token, amount: nat, leverage: nat, isLong: bool,
                    funded: bool) {
    !HasActive(w.book, sender, m) && MayOpen(w, sender, m, token, amount, leverage, isLong, funded)
  }

  /** All that opening asks for, except that the user holds nothing in the market yet. */
  predicate MayOpen(w: World, sender: User, m: Market, token: Token, amount: nat, leverage: nat, isLong: bool,
                    funded: bool) {
    var p := OpenedPosition(w, sender, m, token, amount, leverage, isLong);
    && !Halted(w.settings, m) && Config(w.settings, m).enabled && token in w.settings.accepted
    && p.size >= w.settings.minPositionSize
    && ValidLeverage(p.size, ToUsd(w.settings, token, amount), Config(w.settings, m).maxLeverage)
    && WithinCap(w.book, p, Config(w.settings, m).maxOpenInterest)
    && !Stale(w, m) && p.entry > 0 && sender in w.vaults && funded
  }

  function OpenDone(w: World, sender: User, m: Market, token: Token, amount: nat, leverage: nat, isLong: bool): World
    requires Enabled(w.book, OpenMove(w, sender, m, token, amount, leverage, isLong))
  {
    var size := OpeningSize(w.settings, token, amount, leverage);
    Traded(Moved(w, OpenMove(w, sender, m, token, amount, leverage, isLong), m, true), m, size, isLong, true)
  }

  // ---------------------------------------------------------------- changing

  /** The position with the market's funding accrued to now and settled. */
  function SettledNow(w: World, id: nat): Position
    requires id in w.book.positions
  {
    var p := w.book.positions[id];
    Settled(p, Accrue(FundingOf(w.funding, p.market), w.now), Decimals(w.settings, p.token))
  }

  predicate Owns(w: World, sender: User, id: nat) {
    IsActive(w.book, id) && w.book.positions[id].user == sender
  }

  function AddedSize(w: World, id: nat, amount: nat, leverage: nat): nat
    requires id in w.book.positions
  {
    OpeningSize(w.settings, w.book.positions[id].token, amount, leverage)
  }

  /** A settled position after an addition, at the oracle price. */
  function GrownPosition(w: World, id: nat, amount: nat, leverage: nat): Position
    requires id in w.book.positions
  {
    var p, added := SettledNow(w, id), AddedSize(w, id, amount, leverage);
    var net := AfterFee(w.settings, p.token, amount, added, w.settings.takerFeeBps);
    p.(size := p.size + added, collateral := p.collateral + net,
       collateralUsd := p.collateralUsd + ToUsd(w.settings, p.token, net),
       entry := CalculateAverageEntryPrice(p.size, p.entry, added, Price(w, p.market)))
  }

  predicate CanAddSize(w: World, sender: User, id: nat, amount: nat, leverage: nat, funded: bool) {
    && Owns(w, sender, id) && !Halted(w.settings, w.book.positions[id].market) && !Stale(w, w.book.positions[id].market)
    && funded
    && var p := w.book.positions[id];
       ValidLeverage(AddedSize(w, id, amount, leverage), ToUsd(w.settings, p.token, amount),
                     Config(w.settings, p.market).maxLeverage)
  }

  function AddSizeMove(w: World, id: nat, amount: nat, leverage: nat): Move
    requires id in w.book.positions
  {
    Adjust(id, GrownPosition(w, id, amount, leverage))
  }

  function AddSizeDone(w: World, id: nat, amount: nat, leverage: nat): World
    requires id in w.book.positions && Enabled(w.book, AddSizeMove(w, id, amount, leverage))
  {
    var p := w.book.positions[id];
    Traded(Moved(w, AddSizeMove(w, id, amount, leverage), p.market, true), p.market, AddedSize(w, id, amount, leverage),
           p.isLong, true)
  }

  /** A transfer out to the user's account, if there is something to transfer. */
  predicate CanPay(w: World, user: User, payout: nat, paid: bool) {
    payout > 0 ==> user in w.vaults && paid
  }

  function TakerFee(w: World, token: Token, size: nat): nat {
    UsdToTokens(Decimals(w.settings, token), TradingFee(size, w.settings.takerFeeBps))
  }

  function PartialClosePayout(w: World, id: nat, close: nat): nat
    requires id in w.book.positions && 0 < close < w.book.positions[id].size
  {
    SettledNowKeeps(w, id);
    var p := SettledNow(w, id);
    var fraction := DivFp(close, p.size);
    PayoutOf(MulFp(p.collateral, fraction),
             MulFpSigned(CalculatePnl(p.isLong, p.size, p.entry, Price(w, p.market)), fraction),
             TakerFee(w, p.token, close), Decimals(w.settings, p.token))
  }

  predicate CanPartialClose(w: World, sender: User, id: nat, close: nat, paid: bool) {
    && Owns(w, sender, id) && 0 < close < w.book.positions[id].size
    && w.book.positions[id].size - close >= w.settings.minPositionSize && !Stale(w, w.book.positions[id].market)
    && CanPay(w, sender, PartialClosePayout(w, id, close), paid)
  }

  function PartialCloseMove(w: World, id: nat, close: nat): Move
    requires id in w.book.positions && 0 < close < w.book.positions[id].size
  {
    SettledNowKeeps(w, id);
    Adjust(id, Reduced(SettledNow(w, id), close))
  }

  function PartialCloseDone(w: World, id: nat, close: nat): World
    requires id in w.book.positions && 0 < close < w.book.positions[id].size
    requires Enabled(w.book, PartialCloseMove(w, id, close))
  {
    var p := w.book.positions[id];
    Traded(Moved(w, PartialCloseMove(w, id, close), p.market, true), p.market, close, p.isLong, false)
  }

  /** What a position pays out when it is closed at the present price. */
  function ClosePayout(w: World, p: Position): nat {
    PayoutOf(p.collateral, CalculatePnl(p.isLong, p.size, p.entry, Price(w, p.market)), TakerFee(w, p.token, p.size),
             Decimals(w.settings, p.token))
  }

  predicate CanClose(w: World, sender: User, id: nat, paid: bool) {
    && Owns(w, sender, id) && !Stale(w, w.book.positions[id].market)
    && CanPay(w, sender, ClosePayout(w, SettledNow(w, id)), paid)
  }

  function CloseMove(w: World, id: nat): Move
    requires id in w.book.positions
  {
    Shut(id, SettledNow(w, id))
  }

  /** What a close and a liquidation leave: settled, out of open interest, out of the pool. */
  function CloseDone(w: World, id: nat): World
    requires id in w.book.positions && Enabled(w.book, CloseMove(w, id))
  {
    var p := w.book.positions[id];
    Traded(Moved(w, CloseMove(w, id), p.market, true), p.market, p.size, p.isLong, false)
  }

  predicate Rewards(w: World, remaining: nat) {
    0 < KeeperReward(remaining, w.settings.liquidationFeeBps) <= remaining
  }

  /** A liquidation transfers a reward to whoever makes it, and what is left to the user's account, if there is one. */
  predicate Distributes(w: World, p: Position) {
    var remaining := Remaining(p, Price(w, p.market), Decimals(w.settings, p.token));
    Rewards(w, remaining) || (remaining > Penalty(remaining, w.settings.liquidationFeeBps) && p.user in w.vaults)
  }

  predicate CanLiquidate(w: World, id: nat, paid: bool) {
    && IsActive(w.book, id) && (Distributes(w, SettledNow(w, id)) ==> paid)
    && var p := w.book.positions[id];
       BelowMaintenance(p, FundingOf(w.funding, p.market), w.now, Price(w, p.market),
                        Config(w.settings, p.market).maintenanceBps, Decimals(w.settings, p.token))
  }

  function DeleveragePayout(w: World, p: Position, cut: nat): nat
    requires 0 < cut <= p.size
  {
    var fraction := DivFp(cut, p.size);
    var profit := MulFpSigned(CalculatePnl(p.isLong, p.size, p.entry, Price(w, p.market)), fraction);
    MulFp(p.collateral, fraction) + UsdToTokens(Decimals(w.settings, p.token), if profit > 0 then profit else 0)
  }

  predicate CanDeleverage(w: World, id: nat, cut: nat, paid: bool) {
    && IsActive(w.book, id) && 0 < cut <= w.book.positions[id].size
    && var p := w.book.positions[id];
       && CalculatePnl(p.isLong, p.size, p.entry, Price(w, p.market)) > 0
       && (DeleveragePayout(w, p, cut) > 0 && p.user in w.vaults ==> paid)
  }

  /** Deleveraging does not settle funding; taking the whole size closes the position. */
  function DeleverageMove(w: World, id: nat, cut: nat): Move
    requires id in w.book.positions && 0 < cut <= w.book.positions[id].size
  {
    var p := Reduced(w.book.positions[id], cut);
    if p.size == 0 then Shut(id, p) else Adjust(id, p)
  }

  function DeleverageDone(w: World, id: nat, cut: nat): World
    requires id in w.book.positions && 0 < cut <= w.book.positions[id].size
    requires Enabled(w.book, DeleverageMove(w, id, cut))
  {
    Moved(w, DeleverageMove(w, id, cut), 0, false)
  }

  predicate CanAddCollateral(w: World, sender: User, id: nat, amount: nat, funded: bool) {
    Owns(w, sender, id) && amount > 0 && funded
  }

  function AddCollateralMove(w: World, id: nat, amount: nat): Move
    requires id in w.book.positions
  {
    var p := w.book.positions[id];
    Adjust(id, p.(collateral := p.collateral + amount,
                  collateralUsd := p.collateralUsd + ToUsd(w.settings, p.token, amount)))
  }

  function AddCollateralDone(w: World, id: nat, amount: nat): World
    requires id in w.book.positions && Enabled(w.book, AddCollateralMove(w, id, amount))
  {
    Moved(w, AddCollateralMove(w, id, amount), 0, false)
  }

  /** Settling may leave less than what is asked for; the subtraction fails then. */
  predicate CanRemoveCollateral(w: World, sender: User, id: nat, amount: nat, paid: bool) {
    && Owns(w, sender, id) && 0 < amount < w.book.positions[id].collateral && !Stale(w, w.book.positions[id].market)
    && CanPay(w, sender, amount, paid)
    && var p, config := SettledNow(w, id), Config(w.settings, w.book.positions[id].market);
       var left := p.collateralUsd - ToUsd(w.settings, p.token, amount);
       && left > 0 && amount <= p.collateral && ValidLeverage(p.size, left, config.maxLeverage)
       && CalculateMarginRatio(p.isLong, left, p.size, p.entry, Price(w, p.market)) >= 2 * config.maintenanceBps
       && left + CalculatePnl(p.isLong, p.size, p.entry, Price(w, p.market)) > 0
  }

  function RemoveCollateralMove(w: World, id: nat, amount: nat): Move
    requires id in w.book.positions
    requires amount <= SettledNow(w, id).collateral
    requires ToUsd(w.settings, SettledNow(w, id).token, amount) <= SettledNow(w, id).collateralUsd
  {
    var p := SettledNow(w, id);
    Adjust(id, p.(collateral := p.collateral - amount,
                  collateralUsd := p.collateralUsd - ToUsd(w.settings, p.token, amount)))
  }

  function RemoveCollateralDone(w: World, id: nat, amount: nat): World
    requires id in w.book.positions && amount <= SettledNow(w, id).collateral
    requires ToUsd(w.settings, SettledNow(w, id).token, amount) <= SettledNow(w, id).collateralUsd
    requires Enabled(w.book, RemoveCollateralMove(w, id, amount))
  {
    Moved(w, RemoveCollateralMove(w, id, amount), w.book.positions[id].market, true)
  }

  // ---------------------------------------------------------------- orders

  predicate CanPlace(w: World, o: Order) {
    && !w.settings.paused && Config(w.settings, o.market).enabled && o.token in w.settings.accepted
    && o.trigger > 0 && o.size > 0 && o.leverage > 0 && o.collateral > 0 && o.size >= w.settings.minOrderSize
    && o.user in w.vaults
    && ValidLeverage(o.size, ToUsd(w.settings, o.token, o.collateral), Config(w.settings, o.market).maxLeverage)
  }

  predicate CanPlaceClose(w: World, sender: User, id: nat, trigger: nat) {
    !w.settings.paused && trigger > 0 && Owns(w, sender, id)
  }

  /** A take-profit or stop-loss order: the position's own terms, no collateral. */
  function CloseOrder(w: World, sender: User, id: nat, trigger: nat, kind: Kind): Order
    requires id in w.book.positions
  {
    var p := w.book.positions[id];
    Order(sender, p.market, p.isLong, kind, trigger, trigger, p.size, 0, p.token, 0, true)
  }

  predicate CanCancel(w: World, sender: User, o: nat) {
    OrderActive(w.book, o) && w.book.orders[o].user == sender
  }

  /** The position an opening order becomes, with the market's funding accrued or not. */
  function OrderedPosition(w: World, o: Order, accrued: bool): Position {
    var net := AfterFee(w.settings, o.token, o.collateral, o.size, w.settings.makerFeeBps);
    var fs := FundingOf(w.funding, o.market);
    Position(o.user, o.market, o.isLong, o.size, ToUsd(w.settings, o.token, net), o.token, net, Price(w, o.market),
             Index(if accrued then Accrue(fs, w.now) else fs, o.isLong), true)
  }

  function Cap(w: World, m: Market): nat {
    Config(w.settings, m).maxOpenInterest
  }

  /** The checks every order has to pass before its price is looked at. */
  predicate Eligible(w: World, o: nat) {
    && OrderActive(w.book, o) && !Halted(w.settings, w.book.orders[o].market)
    && Price(w, w.book.orders[o].market) > 0
  }

  predicate Due(w: World, o: nat) {
    Eligible(w, o) && Triggered(w.book.orders[o], Price(w, w.book.orders[o].market))
  }

  /** A due opening order that has everything but the collateral and the room under the cap. */
  predicate Openable(w: World, o: nat) {
    && Due(w, o) && Opens(w.book.orders[o].kind)
    && !HasActive(w.book, w.book.orders[o].user, w.book.orders[o].market)
    && Config(w.settings, w.book.orders[o].market).enabled && w.book.orders[o].user in w.vaults
  }

  predicate HasRoom(w: World, o: nat)
    requires o in w.book.orders
  {
    var order := w.book.orders[o];
    Side(Interest(w.book, order.market), order.isLong) + order.size <= Cap(w, order.market)
  }

  function FillMove(w: World, o: nat, accrued: bool): Move
    requires o in w.book.orders
  {
    var order := w.book.orders[o];
    Fill(o, Price(w, order.market), Cap(w, order.market), OrderedPosition(w, order, accrued))
  }

  function FillDone(w: World, o: nat, accrues: bool): World
    requires o in w.book.orders && Enabled(w.book, FillMove(w, o, accrues))
  {
    var order := w.book.orders[o];
    Traded(Moved(w, FillMove(w, o, accrues), order.market, accrues), order.market, order.size, order.isLong, true)
  }

  /** The owner's account locks the collateral; it refuses to lock nothing. */
  predicate Lockable(w: World, o: nat, funded: bool)
    requires o in w.book.orders
  {
    funded && w.book.orders[o].collateral > 0
  }

  /** The single-order path: a close order gets as far as the lock. */
  predicate CanExecute(w: World, o: nat, funded: bool) {
    Openable(w, o) && Lockable(w, o, funded) && HasRoom(w, o)
  }

  // ---------------------------------------------------------------- what the checks imply

  lemma SettledNowKeeps(w: World, id: nat)
    requires id in w.book.positions
    ensures var p := w.book.positions[id];
            && SameHolder(SettledNow(w, id), p) && SettledNow(w, id).size == p.size
            && SettledNow(w, id).active == p.active && SettledNow(w, id).token == p.token
            && SettledNow(w, id).entry == p.entry
  {
    var p := w.book.positions[id];
    SettledKeeps(p, Accrue(FundingOf(w.funding, p.market), w.now), Decimals(w.settings, p.token));
  }

  lemma OpenIsEnabled(w: World, sender: User, m: Market, token: Token, amount: nat, leverage: nat, isLong: bool,
                      funded: bool)
    requires CanOpen(w, sender, m, token, amount, leverage, isLong, funded)
    ensures Enabled(w.book, OpenMove(w, sender, m, token, amount, leverage, isLong))
  {
    hide ToUsd, MulFp, DivFp, ExecutionPrice, Accrue, OpeningCollateral;
  }

  lemma AddSizeIsEnabled(w: World, sender: User, id: nat, amount: nat, leverage: nat, funded: bool)
    requires CanAddSize(w, sender, id, amount, leverage, funded)
    ensures Enabled(w.book, AddSizeMove(w, id, amount, leverage))
    ensures GrownPosition(w, id, amount, leverage).size ==
            w.book.positions[id].size + AddedSize(w, id, amount, leverage)
    ensures AddedSize(w, id, amount, leverage) > 0
  {
    hide ToUsd, MulFp, DivFp, SettledNow, CalculateAverageEntryPrice, AfterFee;
    SettledNowKeeps(w, id);
  }

  lemma PartialCloseIsEnabled(w: World, sender: User, id: nat, close: nat, paid: bool)
    requires CanPartialClose(w, sender, id, close, paid)
    ensures Enabled(w.book, PartialCloseMove(w, id, close))
  {
    hide MulFp, DivFp, SettledNow, PartialClosePayout;
    SettledNowKeeps(w, id);
  }

  lemma CloseIsEnabled(w: World, id: nat)
    requires IsActive(w.book, id)
    ensures Enabled(w.book, CloseMove(w, id))
  {
    hide SettledNow;
    SettledNowKeeps(w, id);
  }

  lemma DeleverageIsEnabled(w: World, id: nat, cut: nat, paid: bool)
    requires CanDeleverage(w, id, cut, paid)
    ensures Enabled(w.book, DeleverageMove(w, id, cut))
  {
    hide MulFp, DivFp, CalculatePnl, DeleveragePayout;
  }

  lemma ActiveHasSize(b: Book, id: nat)
    requires Sound(b) && IsActive(b, id)
    ensures b.positions[id].size > 0
  {
  }

  lemma AddCollateralIsEnabled(w: World, sender: User, id: nat, amount: nat, funded: bool)
    requires Sound(w.book) && CanAddCollateral(w, sender, id, amount, funded)
    ensures Enabled(w.book, AddCollateralMove(w, id, amount))
  {
    hide Sound, ToUsd;
    ActiveHasSize(w.book, id);
  }

  lemma RemoveCollateralIsEnabled(w: World, sender: User, id: nat, amount: nat, paid: bool)
    requires Sound(w.book) && CanRemoveCollateral(w, sender, id, amount, paid)
    ensures Enabled(w.book, RemoveCollateralMove(w, id, amount))
  {
    hide Sound, ToUsd, SettledNow, CalculateMarginRatio, CalculatePnl, DivFp;
    ActiveHasSize(w.book, id);
    SettledNowKeeps(w, id);
  }

  lemma PlaceCloseIsEnabled(w: World, sender: User, id: nat, trigger: nat, kind: Kind)
    requires Sound(w.book) && CanPlaceClose(w, sender, id, trigger) && !Opens(kind)
    ensures Enabled(w.book, Place(CloseOrder(w, sender, id, trigger, kind)))
  {
    hide Sound;
    ActiveHasSize(w.book, id);
  }

  lemma FillIsEnabled(w: World, o: nat, accrued: bool)
    requires Openable(w, o)
    ensures HasRoom(w, o) <==> Enabled(w.book, FillMove(w, o, accrued))
    ensures !HasRoom(w, o) <==> Enabled(w.book, UncountedMove(w, o))
  {
    hide Triggered, AfterFee, ToUsd, Accrue;
  }

  /** The fill the keeper's batch makes beyond the cap. */
  function UncountedMove(w: World, o: nat): Move
    requires o in w.book.orders
  {
    var order := w.book.orders[o];
    FillUncounted(o, Price(w, order.market), Cap(w, order.market), OrderedPosition(w, order, false))
  }
}
