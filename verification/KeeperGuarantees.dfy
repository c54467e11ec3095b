/**
 What orders, liquidations, prices, pools and funding rates ask for and leave, read off the records before and after.
 */
module KeeperGuarantees {
  import opened FixedPoint
  import opened Margin
  import opened LibPosition
  import opened Ids
  import opened Amm
  import opened Twap
  import opened Funding
  import opened Book
  import opened BookRuns
  import opened Settlement
  import opened World
  import opened Keeper
  import opened Trading
  import opened Histories
  import opened Guarantees

  // ---------------------------------------------------------------- placing and cancelling orders

  /** What an order that opens a position asks for. */
  ghost predicate PlacingTerms(w: World, o: Order) {
    var usd := NormalizeToUsd(Places(w, o.token), o.collateral);
    && !w.settings.paused && Terms(w, o.market).enabled && o.token in w.settings.accepted && o.user in w.vaults
    && o.trigger > 0 && o.size > 0 && o.leverage > 0 && o.collateral > 0 && o.size >= w.settings.minOrderSize
    && usd > 0 && o.size * W < (Terms(w, o.market).maxLeverage + 1) * usd
  }

  /** The order is recorded under the next id; nothing else changes. */
  ghost predicate Recorded(w: World, w': World, o: Order) {
    var id := w.book.nextOrderId + 1;
    w' == w.(book := w.book.(nextOrderId := id, orders := w.book.orders[id := o]))
  }

  lemma PlacingGuards(w: World, o: Order)
    ensures CanPlace(w, o) <==> PlacingTerms(w, o)
  {
    Reads(w, o.market, o.token, o.isLong);
    ReadsAmounts(w, o.token, o.collateral, 0, 0, 0);
    LeverageIsExact(o.size, NormalizeToUsd(Places(w, o.token), o.collateral), Terms(w, o.market).maxLeverage);
    hide ValidLeverage, NormalizeToUsd, ToUsd, Places, Decimals, Terms, Config;
  }

  lemma PlacedIs(w: World, o: Order)
    requires o.active && Opens(o.kind)
    ensures Placed(w, o) != w <==> PlacingTerms(w, o)
    ensures Placed(w, o) != w ==> Recorded(w, Placed(w, o), o)
  {
    PlacingGuards(w, o);
    if CanPlace(w, o) { PlaceApplies(w.book, o); }
    hide CanPlace, PlacingTerms, Apply;
  }

  /** Orders that open: a limit order's limit is its trigger. */
  lemma LimitOrdersGive(w: World, sender: User, m: Market, isLong: bool, trigger: nat, size: nat, leverage: nat,
                        token: Token, amount: nat)
    requires Coherent(w)
    ensures var w' := Done(w, sender, PlaceLimitOrder(m, isLong, trigger, size, leverage, token, amount));
            var o := Order(sender, m, isLong, Limit, trigger, trigger, size, leverage, token, amount, true);
            (w' != w <==> PlacingTerms(w, o)) && (w' != w ==> Recorded(w, w', o))
  {
    PlacedIs(w, LimitOrder(sender, m, isLong, trigger, size, leverage, token, amount));
    hide Coherent, Placed, PlacingTerms, Recorded;
  }

  lemma StopLimitOrdersGive(w: World, sender: User, m: Market, isLong: bool, trigger: nat, limit: nat, size: nat,
                            leverage: nat, token: Token, amount: nat)
    requires Coherent(w)
    ensures var w' := Done(w, sender, PlaceStopLimitOrder(m, isLong, trigger, limit, size, leverage, token, amount));
            var o := Order(sender, m, isLong, StopLimit, trigger, limit, size, leverage, token, amount, true);
            (w' != w <==> PlacingTerms(w, o)) && (w' != w ==> Recorded(w, w', o))
  {
    PlacedIs(w, StopLimitOrder(sender, m, isLong, trigger, limit, size, leverage, token, amount));
    hide Coherent, Placed, PlacingTerms, Recorded;
  }

  /** A take-profit or stop-loss order: for the owner of an open position, on that position's terms and without
      collateral of its own. */
  ghost predicate CloseRecorded(w: World, w': World, sender: User, id: nat, trigger: nat, kind: Kind) {
    if !w.settings.paused && trigger > 0 && OwnedBy(w, sender, id) then
      var p := w.book.positions[id];
      Recorded(w, w', Order(sender, p.market, p.isLong, kind, trigger, trigger, p.size, 0, p.token, 0, true))
    else w' == w
  }

  lemma PlacingCloses(w: World, sender: User, id: nat, trigger: nat)
    requires Coherent(w)
    ensures CloseRecorded(w, Done(w, sender, PlaceTakeProfit(id, trigger)), sender, id, trigger, TakeProfit)
    ensures CloseRecorded(w, Done(w, sender, PlaceStopLoss(id, trigger)), sender, id, trigger, StopLoss)
  {
    ClosePlacedIs(w, sender, id, trigger, TakeProfit);
    ClosePlacedIs(w, sender, id, trigger, StopLoss);
    hide Coherent, CloseRecorded, ClosePlaced;
  }

  lemma ClosePlacedIs(w: World, sender: User, id: nat, trigger: nat, kind: Kind)
    requires Coherent(w) && !Opens(kind)
    ensures CloseRecorded(w, ClosePlaced(w, sender, id, trigger, kind), sender, id, trigger, kind)
  {
    if CanPlaceClose(w, sender, id, trigger) {
      CoherentIsSound(w);
      PlaceCloseIsEnabled(w, sender, id, trigger, kind);
      PlaceApplies(w.book, CloseOrder(w, sender, id, trigger, kind));
    }
    hide Coherent, Sound, Enabled, Apply;
  }

  /** Only its user cancels an order, once. */
  lemma CancellingGives(w: World, sender: User, o: nat)
    requires Coherent(w)
    ensures var w' := Done(w, sender, CancelOrder(o));
            if o in w.book.orders && w.book.orders[o].active && w.book.orders[o].user == sender then
              w' == w.(book := w.book.(orders := w.book.orders[o := w.book.orders[o].(active := false)]))
            else w' == w
  {
    if CanCancel(w, sender, o) { CancelApplies(w.book, o, sender); }
    hide Coherent, Apply;
  }

  // ---------------------------------------------------------------- executing orders

  /** The order is looked at: it is active, its market is not paused and has a price. */
  predicate LookedAt(w: World, o: nat) {
    && o in w.book.orders && w.book.orders[o].active && !w.settings.paused
    && w.book.orders[o].market !in w.settings.pausedMarkets && OraclePrice(w, w.book.orders[o].market) > 0
  }

  /** The price is not strictly on the side on which the order waits. */
  predicate Reached(w: World, o: nat) {
    LookedAt(w, o) && !MustWait(w.book.orders[o], OraclePrice(w, w.book.orders[o].market))
  }

  /** An opening order that its user's account can be asked to lock the collateral for. */
  ghost predicate Opening(w: World, o: nat) {
    && Reached(w, o)
    && var order := w.book.orders[o];
       && (order.kind.Limit? || order.kind.StopLimit?) && !Holds(w, order.user, order.market)
       && Terms(w, order.market).enabled && order.user in w.vaults
  }

  predicate RoomFor(w: World, o: nat)
    requires o in w.book.orders
  {
    var order := w.book.orders[o];
    OpenSize(w, order.market, order.isLong) + order.size <= Terms(w, order.market).maxOpenInterest
  }

  ghost predicate Closing(w: World, o: nat) {
    && Reached(w, o)
    && var order := w.book.orders[o];
       && (order.kind.TakeProfit? || order.kind.StopLoss?) && Holds(w, order.user, order.market)
  }

  lemma TriggersAre(o: Order, price: nat)
    ensures Triggered(o, price) <==> !MustWait(o, price)
    ensures Opens(o.kind) <==> o.kind.Limit? || o.kind.StopLimit?
  {
  }

  lemma OrdersAre(w: World, o: nat)
    requires Coherent(w)
    ensures Eligible(w, o) <==> LookedAt(w, o)
    ensures Due(w, o) <==> Reached(w, o)
    ensures Openable(w, o) <==> Opening(w, o)
    ensures Closable(w, o) <==> Closing(w, o)
    ensures o in w.book.orders ==> (HasRoom(w, o) <==> RoomFor(w, o))
  {
    if o in w.book.orders {
      var order := w.book.orders[o];
      Reads(w, order.market, order.token, order.isLong);
      ReadsHolds(w, order.user, order.market);
      TriggersAre(order, OraclePrice(w, order.market));
    }
    hide Coherent, Holds, HasActive, Triggered, MustWait, Price, OraclePrice, Opens, Config, Terms, Interest, Side,
      OpenSize,
      Halted;
  }

  /** The position a filled order becomes: at the oracle price, with what the maker's fee leaves of the collateral. */
  ghost predicate FilledFor(w: World, o: nat, p: Position, index: int) {
    && o in w.book.orders
    && var order := w.book.orders[o];
       var fee := FeeOn(w, order.token, order.size, w.settings.makerFeeBps);
       var net := if fee < order.collateral then order.collateral - fee else 0;
       p == Position(order.user, order.market, order.isLong, order.size, NormalizeToUsd(Places(w, order.token), net),
                     order.token, net, OraclePrice(w, order.market), index, true)
  }

  lemma FilledForIs(w: World, order: Order, fs: FundingState)
    ensures var fee := FeeOn(w, order.token, order.size, w.settings.makerFeeBps);
            var net := if fee < order.collateral then order.collateral - fee else 0;
            FilledPosition(w, order, fs) ==
            Position(order.user, order.market, order.isLong, order.size, NormalizeToUsd(Places(w, order.token), net),
                     order.token, net, OraclePrice(w, order.market), if order.isLong then fs.long else fs.short, true)
  {
    Reads(w, order.market, order.token, order.isLong);
    var fee := FeeOn(w, order.token, order.size, w.settings.makerFeeBps);
    var net := if fee < order.collateral then order.collateral - fee else 0;
    ReadsAmounts(w, order.token, order.collateral, order.size, w.settings.makerFeeBps, 0);
    ReadsAmounts(w, order.token, net, 0, 0, 0);
    hide NormalizeToUsd, ToUsd, Places, FeeOn, AfterFee;
  }

  /** The single-order path: it fills an opening order that has room and can be locked, and nothing else. */
  lemma ExecutionGives(w: World, sender: User, o: nat, locked: bool)
    requires Coherent(w)
    ensures var w' := Done(w, sender, ExecuteOrder(o, locked));
            && (w' != w <==> ExecutionTerms(w, o, locked))
            && (w' != w ==>
                  && o in w.book.orders
                  && var order := w.book.orders[o];
                     Fills(w, w', o, IndexAt(w, order.market, order.isLong))
                     && Trades(w, w', order.market, order.size, order.isLong, true))
  {
    ExecutionGuards(w, o, locked);
    ExecutionIsDone(w, sender, o, locked);
    if CanExecute(w, o, locked) { FillsIt(w, o, locked); }
    hide *;
  }

  ghost predicate ExecutionTerms(w: World, o: nat, locked: bool) {
    Opening(w, o) && RoomFor(w, o) && locked && w.book.orders[o].collateral > 0
  }

  lemma ExecutionGuards(w: World, o: nat, locked: bool)
    requires Coherent(w)
    ensures CanExecute(w, o, locked) <==> ExecutionTerms(w, o, locked)
  {
    OrdersAre(w, o);
    OpenableIsListed(w, o);
    hide Coherent, Opening, RoomFor, Openable, HasRoom;
  }

  lemma ExecutionIsDone(w: World, sender: User, o: nat, locked: bool)
    requires Coherent(w)
    ensures var w', can := Done(w, sender, ExecuteOrder(o, locked)), CanExecute(w, o, locked);
            && (!can ==> w' == w)
            && (can ==> o in w.book.orders && Enabled(w.book, FillMove(w, o, true)) && w' == FillDone(w, o, true))
  {
    hide Coherent, CanExecute, FillMove, FillDone, Enabled, HasRoom, FilledWorld, FilledPosition;
    if CanExecute(w, o, locked) { ExecuteFields(w, o, locked); }
  }

  lemma FillsIt(w: World, o: nat, locked: bool)
    requires CanExecute(w, o, locked)
    ensures o in w.book.orders && Enabled(w.book, FillMove(w, o, true)) && FillDone(w, o, true) != w
    ensures var order, w' := w.book.orders[o], FillDone(w, o, true);
            Fills(w, w', o, IndexAt(w, order.market, order.isLong))
            && Trades(w, w', order.market, order.size, order.isLong, true)
  {
    ExecuteFields(w, o, locked);
    var order := w.book.orders[o];
    var fs := Accrue(FundingOf(w.funding, order.market), w.now);
    IndexesAre(w, order.market, order.isLong);
    FilledForIs(w, order, fs);
    TradesIs(w, FillDone(w, o, true), order.market, order.size, order.isLong, true);
    hide CanExecute, IndexAt, Accrue, TradeIn, Trades, Enabled, NormalizeToUsd, FeeOn, FillMove, FillDone,
      FilledPosition;
  }

  /** The order has become the next position, which its user holds, and is done with. */
  ghost predicate Fills(w: World, w': World, o: nat, index: int) {
    var id := w.book.nextPositionId + 1;
    && id in w'.book.positions && FilledFor(w, o, w'.book.positions[id], index)
    && w'.book.positions == w.book.positions[id := w'.book.positions[id]] && w'.book.nextPositionId == id
    && w'.book.orders == w.book.orders[o := w.book.orders[o].(active := false)]
  }

  // ---------------------------------------------------------------- the keeper's orders

  /** A position as the paths see it that settle funding without accruing it. */
  function OnRecord(w: World, p: Position): Position {
    var index := IndexOnRecord(w, p.market, p.isLong);
    p.(collateral := TokensLeft(w, p, Owed(p, index)), collateralUsd := DollarsLeft(w, p, Owed(p, index)), index :=
       index)
  }

  lemma OnRecordIs(w: World, p: Position)
    ensures OnRecord(w, p) == Settled(p, FundingOf(w.funding, p.market), Decimals(w.settings, p.token))
  {
    IndexesAre(w, p.market, p.isLong);
    SettledIs(w, p, FundingOf(w.funding, p.market));
    hide TokensLeft, DollarsLeft, Owed, Settled, IndexAt, Accrue;
  }

  /** The position is the one the order's user holds in its market. */
  predicate HeldForOrder(w: World, o: nat, id: nat) {
    && o in w.book.orders && id in w.book.positions && w.book.positions[id].active
    && w.book.positions[id].user == w.book.orders[o].user && w.book.positions[id].market == w.book.orders[o].market
  }

  /** Closing what the order's user holds transfers something to the user's account. */
  ghost predicate PaysFor(w: World, o: nat) {
    exists id: nat :: HeldForOrder(w, o, id) && ClosingPays(w, OnRecord(w, w.book.positions[id])) > 0
                      && w.book.orders[o].user in w.vaults
  }

  lemma HeldForIs(w: World, o: nat)
    requires Coherent(w) && Closable(w, o)
    ensures HeldForOrder(w, o, HeldFor(w, o)) && forall id: nat :: HeldForOrder(w, o, id) ==> id == HeldFor(w, o)
  {
    CoherentIsSound(w);
    NetMode(w.book, w.book.orders[o].user, w.book.orders[o].market);
    hide Coherent, Sound, Triggered;
  }

  lemma PaysForIs(w: World, o: nat)
    requires Coherent(w) && Closable(w, o)
    ensures PaysOut(w, o) <==> PaysFor(w, o)
  {
    HeldForIs(w, o);
    var p := w.book.positions[HeldFor(w, o)];
    OnRecordIs(w, p);
    SettledKeeps(p, FundingOf(w.funding, p.market), Decimals(w.settings, p.token));
    PayoutsAre(w, OnRecord(w, p));
    hide Coherent, Closable, ClosePayout, ClosingPays, Settled, OnRecord, HeldFor;
  }

  /** The transfer that the order asks for is made: the lock of some collateral, or the payout, if there is one. */
  ghost predicate Transferred(w: World, o: nat, transfers: bool)
    requires o in w.book.orders
  {
    if w.book.orders[o].kind.Limit? || w.book.orders[o].kind.StopLimit? then
      transfers && w.book.orders[o].collateral > 0
    else PaysFor(w, o) ==> transfers
  }

  /** The keeper's answer: an order waits exactly while the price is strictly on its waiting side; the batch is aborted
      exactly for a transfer that is not made; an order is executed exactly when it can be, and has room if it opens. */
  lemma KeeperAnswers(w: World, o: nat, transfers: bool)
    requires Coherent(w)
    ensures var v := OrderVerdict(w, o, transfers);
            && (v.Waiting? <==> LookedAt(w, o) && !Reached(w, o))
            && (v.Aborted? <==> (Opening(w, o) || Closing(w, o)) && !Transferred(w, o, transfers))
            && (v.Executed? <==> && (Closing(w, o) || (Opening(w, o) && RoomFor(w, o)))
                                 && Transferred(w, o, transfers))
  {
    OrdersAre(w, o);
    if Closable(w, o) { PaysForIs(w, o); }
    ListedKinds(w, o);
    hide Coherent, Opening, Closing, RoomFor, LookedAt, Reached, PaysFor, Openable, Closable, HasRoom, Eligible, Due,
      PaysOut;
  }

  lemma ListedKinds(w: World, o: nat)
    ensures Openable(w, o) || Closable(w, o) ==> Due(w, o)
    ensures Due(w, o) ==> o in w.book.orders && Eligible(w, o)
    ensures Openable(w, o) ==> w.book.orders[o].kind.Limit? || w.book.orders[o].kind.StopLimit?
    ensures Closable(w, o) ==> w.book.orders[o].kind.TakeProfit? || w.book.orders[o].kind.StopLoss?
  {
    hide Triggered, HasActive, Config;
  }

  /** What the keeper's order leaves.  An opening order whose collateral is locked becomes a position; only if there is
      room is it counted and the order done with.  A close order ends what its user holds, settled at the recorded
      indexes.  Any other leaves everything as it was. */
  lemma KeeperLeaves(w: World, o: nat, transfers: bool)
    requires Coherent(w)
    ensures var w' := OrderDone(w, o, transfers);
            && (!(Opening(w, o) || Closing(w, o)) || !Transferred(w, o, transfers) ==> w' == w)
            && (Opening(w, o) && Transferred(w, o, transfers) ==>
                  KeeperFills(w, w', o))
            && (Closing(w, o) && Transferred(w, o, transfers) ==>
                  forall id: nat :: HeldForOrder(w, o, id) ==> KeeperCloses(w, w', o, id))
  {
    OrdersAre(w, o);
    ListedKinds(w, o);
    if Closable(w, o) {
      PaysForIs(w, o);
      HeldForIs(w, o);
      if CanFillClose(w, o, transfers) { KeeperClosesIt(w, o, transfers); }
    } else if Openable(w, o) && Lockable(w, o, transfers) {
      KeeperFillsIt(w, o, transfers);
    }
    KeeperStays(w, o, transfers);
    hide Coherent, Opening, Closing, RoomFor, LookedAt, Reached, PaysFor, Openable, Closable, HasRoom, Eligible, Due,
      PaysOut, KeeperFills, KeeperCloses, OrderDone, HeldFor, HeldForOrder;
  }

  lemma KeeperStays(w: World, o: nat, transfers: bool)
    ensures !(Openable(w, o) && Lockable(w, o, transfers)) && !CanFillClose(w, o, transfers) ==>
              OrderDone(w, o, transfers) == w
  {
    hide Openable, Closable, Lockable, HasRoom, PaysOut;
  }

  /** The order's position is created at the recorded index; with room it is counted and traded, and the order is done
      with; without, the order stays, and nothing is counted. */
  ghost predicate KeeperFills(w: World, w': World, o: nat) {
    var id := w.book.nextPositionId + 1;
    && o in w.book.orders
    && var order := w.book.orders[o];
       && id in w'.book.positions
       && FilledFor(w, o, w'.book.positions[id], IndexOnRecord(w, order.market, order.isLong))
       && w'.book.positions == w.book.positions[id := w'.book.positions[id]] && w'.book.nextPositionId == id
       && w'.funding == w.funding
       && if RoomFor(w, o) then
            && Counts(w, w', order.market, order.size, order.isLong, true)
            && w'.book.orders == w.book.orders[o := order.(active := false)]
          else w'.book.interest == w.book.interest && w'.pools == w.pools && w'.book.orders == w.book.orders
  }

  lemma KeeperFillsIt(w: World, o: nat, transfers: bool)
    requires Coherent(w) && Openable(w, o) && Lockable(w, o, transfers)
    ensures KeeperFills(w, OrderDone(w, o, transfers), o)
  {
    OrdersAre(w, o);
    OpenableIsListed(w, o);
    var fs := FundingOf(w.funding, w.book.orders[o].market);
    if HasRoom(w, o) {
      KeeperFillFields(w, o, transfers);
      CountedFill(w, o, fs);
    } else {
      KeeperOverrunFields(w, o, transfers);
      UncountedFill(w, o, fs);
    }
    hide *;
  }

  lemma CountedFill(w: World, o: nat, fs: FundingState)
    requires o in w.book.orders && RoomFor(w, o) && fs == FundingOf(w.funding, w.book.orders[o].market)
    ensures KeeperFills(w, FilledWorld(w, o, FilledPosition(w, w.book.orders[o], fs)), o)
  {
    var order := w.book.orders[o];
    var p := FilledPosition(w, order, fs);
    FilledForIs(w, order, fs);
    IndexesAre(w, order.market, order.isLong);
    CountsIs(w, FilledWorld(w, o, p), order.market, order.size, order.isLong, true);
    hide RoomFor, Counts, NormalizeToUsd, FeeOn, TradeIn, FilledPosition, IndexAt, Accrue;
  }

  lemma UncountedFill(w: World, o: nat, fs: FundingState)
    requires o in w.book.orders && !RoomFor(w, o) && fs == FundingOf(w.funding, w.book.orders[o].market)
    ensures var order, id := w.book.orders[o], w.book.nextPositionId + 1;
            KeeperFills(w, w.(book := w.book.(nextPositionId := id,
                                              positions := w.book.positions[id := FilledPosition(w, order, fs)],
                                              held := w.book.held[(order.user, order.market) := id])), o)
  {
    var order := w.book.orders[o];
    FilledForIs(w, order, fs);
    IndexesAre(w, order.market, order.isLong);
    hide RoomFor, Counts, NormalizeToUsd, FeeOn, TradeIn, FilledPosition, IndexAt, Accrue;
  }

  ghost predicate KeeperCloses(w: World, w': World, o: nat, id: nat) {
    && o in w.book.orders && id in w.book.positions
    && var p := w.book.positions[id];
       && w'.book.positions == w.book.positions[id := OnRecord(w, p).(active := false)]
       && w'.book.orders == w.book.orders[o := w.book.orders[o].(active := false)]
       && Counts(w, w', p.market, p.size, p.isLong, false) && w'.funding == w.funding
       && w'.book.nextPositionId == w.book.nextPositionId
  }

  lemma KeeperClosesIt(w: World, o: nat, transfers: bool)
    requires CanFillClose(w, o, transfers)
    ensures KeeperCloses(w, OrderDone(w, o, transfers), o, HeldFor(w, o))
  {
    KeeperCloseFields(w, o, transfers);
    var p := w.book.positions[HeldFor(w, o)];
    OnRecordIs(w, p);
    CountsIs(w, OrderDone(w, o, transfers), p.market, p.size, p.isLong, false);
    hide CanFillClose, Counts, OrderDone, TradeIn, Settled, OnRecord;
  }

  /** Whatever the keeper executes is executed on its side: the entry of a position filled for a limit order is never
      worse than the trigger, for a stop-limit order it lies between trigger and limit; a take-profit order closes on
      the winning side of its trigger, a stop-loss order on the losing side. */
  lemma ExecutedAtItsPrice(w: World, o: nat, transfers: bool)
    requires Coherent(w) && OrderDone(w, o, transfers) != w
    ensures o in w.book.orders
    ensures var order, price := w.book.orders[o], OraclePrice(w, w.book.orders[o].market);
            && OnItsSide(order, price)
            && (order.kind.Limit? || order.kind.StopLimit? ==>
                  var id := w.book.nextPositionId + 1;
                  && id in OrderDone(w, o, transfers).book.positions
                  && OnItsSide(order, OrderDone(w, o, transfers).book.positions[id].entry))
  {
    KeeperLeaves(w, o, transfers);
    hide Coherent, OrderDone, Holds, PaysFor, Counts, RoomFor, HeldForOrder, IndexOnRecord, KeeperCloses;
  }

  /** The single-order path fills at such a price too. */
  lemma FilledAtItsPrice(w: World, sender: User, o: nat, locked: bool)
    requires Coherent(w) && Done(w, sender, ExecuteOrder(o, locked)) != w
    ensures o in w.book.orders
    ensures var id, w' := w.book.nextPositionId + 1, Done(w, sender, ExecuteOrder(o, locked));
            id in w'.book.positions && OnItsSide(w.book.orders[o], w'.book.positions[id].entry)
  {
    ExecutionGives(w, sender, o, locked);
    hide Coherent, Holds, Trades, RoomFor, Done;
  }

  /** How many orders of a list get an answer, each at its turn. */
  function Tally(w: World, os: seq<Turn>, v: Verdict): nat {
    if os == [] then 0
    else
      var last := os[|os| - 1];
      Tally(w, os[..|os| - 1], v) +
      if OrderVerdict(RunBatch(w, os[..|os| - 1]).world, last.id, last.transfers) == v then 1 else 0
  }

  /** A batch that goes through counts what it executed and what failed, and everything else is waiting. */
  lemma {:induction false} BatchTallies(w: World, os: seq<Turn>)
    requires RunBatch(w, os).done
    ensures RunBatch(w, os).executed == Tally(w, os, Executed) && RunBatch(w, os).failed == Tally(w, os, Failed)
    ensures Tally(w, os, Executed) + Tally(w, os, Failed) + Tally(w, os, Waiting) == |os|
    decreases |os|
  {
    hide OrderVerdict, OrderDone, OrderMoves;
    if os != [] {
      var last := os[|os| - 1];
      assert !OrderVerdict(RunBatch(w, os[..|os| - 1]).world, last.id, last.transfers).Aborted?;
      BatchTallies(w, os[..|os| - 1]);
    }
  }

  // ---------------------------------------------------------------- the keeper's liquidations

  /** Margin below maintenance, with the collateral as recorded. */
  ghost predicate ShortOnRecord(w: World, id: nat) {
    && id in w.book.positions
    && var p := w.book.positions[id];
       var price, maintenance := OraclePrice(w, p.market), Terms(w, p.market).maintenanceBps;
       && p.active && price > 0 && maintenance > 0
       && BPS * (p.collateralUsd + CalculatePnl(p.isLong, p.size, p.entry, price)) < p.size * maintenance
  }

  /** A liquidation rewards whoever makes it, out of what the equity is worth. */
  ghost predicate RewardDue(w: World, id: nat)
    requires id in w.book.positions
  {
    var p := w.book.positions[id];
    var equity := p.collateralUsd + CalculatePnl(p.isLong, p.size, p.entry, OraclePrice(w, p.market));
    var worth := if equity > 0 then UsdToTokens(Places(w, p.token), equity) else 0;
    0 < KeeperReward(worth, w.settings.liquidationFeeBps) <= worth
  }

  lemma ShortOnRecordIs(w: World, id: nat)
    requires Coherent(w)
    ensures Liquidatable(w, id) <==> ShortOnRecord(w, id)
    ensures forall transfers: bool :: Unrewarded(w, id, transfers) <==>
              ShortOnRecord(w, id) && RewardDue(w, id) && !transfers
  {
    CoherentIsSound(w);
    if IsActive(w.book, id) {
      ActiveHasSize(w.book, id);
      var p := w.book.positions[id];
      Reads(w, p.market, p.token, p.isLong);
      MarginCheckIsExact(p.isLong, p.collateralUsd, p.size, p.entry, OraclePrice(w, p.market),
                         Terms(w, p.market).maintenanceBps);
      hide Coherent, Sound, CalculatePnl, CalculateMarginRatio, KeeperReward, UsdToTokens, Places, Decimals, Terms,
        Config,
        Price, OraclePrice;
    } else {
      hide RecordedBelowMaintenance, Rewards, RewardDue;
    }
  }

  /** A pass that goes through ends exactly the listed positions below maintenance, and changes no other record. */
  lemma PassEnds(w: World, ids: seq<Turn>, id: nat)
    requires Coherent(w) && RunPass(w, ids).done && id in w.book.positions
    ensures var w', p := RunPass(w, ids).world, w.book.positions[id];
            && w' == w.(book := w'.book) && id in w'.book.positions
            && w'.book.positions[id] ==
               if (exists t <- ids :: t.id == id) && ShortOnRecord(w, id) then p.(active := false) else p
  {
    PassLiquidates(w, ids, id);
    ShortOnRecordIs(w, id);
    hide Coherent, RunPass, Liquidatable, ShortOnRecord, Unrewarded, RewardDue;
  }

  /** It is undone exactly when some listed position is below maintenance and its reward, at its first entry, is not
      transferred. */
  lemma PassIsUndone(w: World, ids: seq<Turn>)
    requires Coherent(w)
    ensures !RunPass(w, ids).done <==>
            exists i: nat :: i < |ids| && (forall j: nat :: j < i ==> ids[j].id != ids[i].id)
                             && ShortOnRecord(w, ids[i].id) && RewardDue(w, ids[i].id) && !ids[i].transfers
  {
    PassGoesThrough(w, ids);
    forall i: nat | i < |ids|
      ensures FailsAt(w, ids, i) <==>
              && (forall j: nat :: j < i ==> ids[j].id != ids[i].id)
              && ShortOnRecord(w, ids[i].id) && RewardDue(w, ids[i].id) && !ids[i].transfers
    {
      FailsWhere(w, ids, i);
    }
    hide Coherent, RunPass, FailsAt, ShortOnRecord, RewardDue;
  }

  lemma FailsWhere(w: World, ids: seq<Turn>, i: nat)
    requires Coherent(w) && i < |ids|
    ensures FailsAt(w, ids, i) <==>
            && (forall j: nat :: j < i ==> ids[j].id != ids[i].id)
            && ShortOnRecord(w, ids[i].id) && RewardDue(w, ids[i].id) && !ids[i].transfers
  {
    ShortOnRecordIs(w, ids[i].id);
    hide Coherent, ShortOnRecord, RewardDue, Unrewarded;
    if t :| t in ids[..i] && t.id == ids[i].id {
      var j: nat :| j < i && ids[..i][j] == t;
      assert ids[j].id == ids[i].id;
    }
    if j: nat :| j < i && ids[j].id == ids[i].id { assert ids[..i][j] in ids[..i]; }
  }

  // ---------------------------------------------------------------- prices

  /** A market's price after the entries of a list. */
  function LastPrice(w: World, ms: seq<Market>, prices: seq<nat>, m: Market): nat
    requires |ms| == |prices|
  {
    if ms == [] then OraclePrice(w, m)
    else if ms[|ms| - 1] == m then prices[|ms| - 1]
    else LastPrice(w, ms[..|ms| - 1], prices[..|ms| - 1], m)
  }

  /** The entries of a list for one market, dated now. */
  function Listings(ms: seq<Market>, prices: seq<nat>, m: Market, now: nat): seq<PricePoint>
    requires |ms| == |prices|
  {
    if ms == [] then []
    else
      Listings(ms[..|ms| - 1], prices[..|ms| - 1], m, now) +
      if ms[|ms| - 1] == m then [PricePoint(prices[|ms| - 1], now)] else []
  }

  /** The i-th price is positive and within the deviation from what precedes it, whether on record or on the list. */
  predicate Acceptable(w: World, ms: seq<Market>, prices: seq<nat>, i: nat)
    requires |ms| == |prices| && i < |ms|
  {
    var last, limit := LastPrice(w, ms[..i], prices[..i], ms[i]), w.settings.maxDeviationBps;
    prices[i] > 0 && (last == 0 || limit == 0 || Abs(prices[i] - last) * BPS < (limit + 1) * last)
  }

  lemma DeviationIs(w: World, m: Market, price: nat)
    ensures CanPush(w, m, price) <==>
            && price > 0
            && var last, limit := OraclePrice(w, m), w.settings.maxDeviationBps;
               last == 0 || limit == 0 || Abs(price - last) * BPS < (limit + 1) * last
  {
    var last, limit := OraclePrice(w, m), w.settings.maxDeviationBps;
    if last > 0 { WithinLimit(Abs(price - last), last, limit); }
    hide Abs;
  }

  lemma WithinLimit(deviation: nat, last: nat, limit: nat)
    requires last > 0
    ensures deviation * BPS / last <= limit <==> deviation * BPS < (limit + 1) * last
  {
    var q := deviation * BPS / last;
    Ratio(deviation * BPS, last, q);
    if q <= limit { Scale(q + 1, limit + 1, last); } else { Scale(limit + 1, q, last); }
  }

  /** What the records hold for a market after a list: the last price listed, the listed ones at the end of the history
      in order, and the present time if there are any. */
  ghost predicate TakenIn(w: World, w': World, ms: seq<Market>, prices: seq<nat>, m: Market)
    requires |ms| == |prices|
  {
    && w'.settings == w.settings && w'.now == w.now && OraclePrice(w', m) == LastPrice(w, ms, prices, m)
    && HistoryOf(w', m) == HistoryOf(w, m) + Listings(ms, prices, m, w.now)
    && DatedAt(w', m) == if m in ms then w.now else DatedAt(w, m)
  }

  function DatedAt(w: World, m: Market): nat {
    if m in w.times then w.times[m] else 0
  }

  /** A list of prices is taken exactly when all of it is acceptable. */
  lemma {:induction false} PricesGoIn(w: World, ms: seq<Market>, prices: seq<nat>)
    requires |ms| == |prices|
    ensures PushAll(w, ms, prices).done <==> forall i: nat :: i < |ms| ==> Acceptable(w, ms, prices, i)
    ensures PushAll(w, ms, prices).done ==>
              forall m: Market :: TakenIn(w, PushAll(w, ms, prices).world, ms, prices, m)
    ensures OnlyPrices(w, PushAll(w, ms, prices).world)
    decreases |ms|
  {
    if ms == [] {
      forall m: Market ensures TakenIn(w, w, ms, prices, m) { NothingTaken(w, ms, prices, m); }
    } else {
      var n := |ms| - 1;
      var before := PushAll(w, ms[..n], prices[..n]);
      PricesGoIn(w, ms[..n], prices[..n]);
      AcceptableNext(w, ms, prices);
      if before.done {
        assert TakenIn(w, before.world, ms[..n], prices[..n], ms[n]);
        DeviationIs(before.world, ms[n], prices[n]);
        forall m: Market ensures TakenIn(w, Pushed(before.world, ms[n], prices[n]), ms, prices, m) {
          TakesIn(w, before.world, ms, prices, m);
        }
      }
      PushedOnly(before.world, ms[n], prices[n]);
      hide Acceptable, CanPush, Pushed, LastPrice, Listings, OraclePrice, TakenIn;
    }
  }

  /** Nothing but prices, their dates and their history has changed. */
  predicate OnlyPrices(w: World, w': World) {
    w' == w.(prices := w'.prices, times := w'.times, history := w'.history)
  }

  lemma NothingTaken(w: World, ms: seq<Market>, prices: seq<nat>, m: Market)
    requires ms == [] && prices == []
    ensures TakenIn(w, w, ms, prices, m)
  {
  }

  lemma PushedOnly(w: World, m: Market, price: nat)
    ensures OnlyPrices(w, Pushed(w, m, price))
  {
  }

  lemma AcceptableNext(w: World, ms: seq<Market>, prices: seq<nat>)
    requires |ms| == |prices| && ms != []
    ensures var n := |ms| - 1;
            && ((forall i: nat :: i < |ms| ==> Acceptable(w, ms, prices, i)) <==>
                && (forall i: nat :: i < n ==> Acceptable(w, ms[..n], prices[..n], i))
                && Acceptable(w, ms, prices, n))
            && var last, limit := LastPrice(w, ms[..n], prices[..n], ms[n]), w.settings.maxDeviationBps;
               Acceptable(w, ms, prices, n) <==>
               prices[n] > 0 && (last == 0 || limit == 0 || Abs(prices[n] - last) * BPS < (limit + 1) * last)
  {
    var n := |ms| - 1;
    forall i: nat | i < n ensures Acceptable(w, ms[..n], prices[..n], i) == Acceptable(w, ms, prices, i) {
      assert ms[..n][..i] == ms[..i] && prices[..n][..i] == prices[..i];
    }
    hide LastPrice;
  }

  lemma TakesIn(w: World, before: World, ms: seq<Market>, prices: seq<nat>, m: Market)
    requires |ms| == |prices| && ms != []
    requires TakenIn(w, before, ms[..|ms| - 1], prices[..|ms| - 1], m)
    ensures TakenIn(w, Pushed(before, ms[|ms| - 1], prices[|ms| - 1]), ms, prices, m)
  {
    var n := |ms| - 1;
    assert m in ms <==> m in ms[..n] || m == ms[n] by { assert ms == ms[..n] + [ms[n]]; }
  }

  /** The oracle's own entry point: all of a list that is not empty, for markets that exist, or nothing. */
  lemma PriceUpdatesGive(w: World, sender: User, ms: seq<Market>, prices: seq<nat>)
    requires Coherent(w)
    ensures var w' := Done(w, sender, BatchUpdatePrices(ms, prices));
            && (w' != w <==>
                && |ms| == |prices| && ms != [] && (forall m <- ms :: m in w.settings.markets)
                && forall i: nat :: i < |ms| ==> Acceptable(w, ms, prices, i))
            && (w' != w ==> w' == PushAll(w, ms, prices).world)
  {
    if |ms| == |prices| && ms != [] {
      PricesGoIn(w, ms, prices);
      SomethingTaken(w, ms, prices);
    }
    hide Coherent, PushAll, Acceptable, TakenIn;
  }

  lemma SomethingTaken(w: World, ms: seq<Market>, prices: seq<nat>)
    requires |ms| == |prices| && ms != []
    ensures !TakenIn(w, w, ms, prices, ms[0])
  {
    ListedOnce(ms, prices, w.now);
    hide Listings, LastPrice;
  }

  lemma {:induction false} ListedOnce(ms: seq<Market>, prices: seq<nat>, now: nat)
    requires |ms| == |prices| && ms != []
    ensures Listings(ms, prices, ms[0], now) != []
    decreases |ms|
  {
    if |ms| > 1 { ListedOnce(ms[..|ms| - 1], prices[..|ms| - 1], now); }
  }

  // ---------------------------------------------------------------- pools

  /** A sync takes the quote reserve a damped step toward the base reserve's worth at the oracle price, and is dated
      now. */
  ghost predicate PulledTo(w: World, w': World, m: Market) {
    var p, p' := ReservesOf(w, m), ReservesOf(w', m);
    var target := p.base * OraclePrice(w, m) / W;
    && w' == w.(pools := w.pools[m := p'])
    && p'.base == p.base && p'.damping == p.damping && p'.lastSync == w.now
    && (p.quote <= p'.quote <= target || target <= p'.quote <= p.quote)
    && Abs(p'.quote - target) == Abs(p.quote - target) - Abs(p.quote - target) * p.damping / BPS
  }

  lemma SyncGives(w: World, sender: User, m: Market)
    requires Coherent(w)
    ensures var w' := Done(w, sender, SyncToOracle(m));
            if ReservesOf(w, m).base > 0 && OraclePrice(w, m) > 0 then PulledTo(w, w', m) else w' == w
  {
    CoherentIsDamped(w);
    var p := ReservesOf(w, m);
    Reads(w, m, 0, true);
    SyncIs(w, m);
    hide Coherent, SyncOne, PulledTo, OraclePrice, Price;
  }

  lemma SyncIs(w: World, m: Market)
    requires Damped(w.pools)
    ensures var w' := w.(pools := SyncOne(w.pools, OraclePrice(w, m), m, w.now));
            if ReservesOf(w, m).base > 0 && OraclePrice(w, m) > 0 then PulledTo(w, w', m) else w' == w
  {
    var p, price := ReservesOf(w, m), OraclePrice(w, m);
    Reads(w, m, 0, true);
    if p.base > 0 { PullShrinksGap(p.quote, TargetQuote(p, price), p.damping); }
    hide Pull, OraclePrice, Price;
  }

  /** A pool is set up once per market, at the given price; its mark price is that price, up to rounding. */
  lemma InitializingGives(w: World, sender: User, m: Market, price: nat, liquidity: nat, damping: nat)
    requires Coherent(w)
    ensures var w', p := Done(w, sender, InitializePool(m, price, liquidity, damping)), ReservesOf(w, m);
            if price > 0 && liquidity > 0 && 0 < damping <= 10000 && m in w.settings.markets && p.base == 0 then
              && w' == w.(pools := w.pools[m := Pool(liquidity, liquidity * price / W, w.now, damping)])
              && var mark := DivFp(liquidity * price / W, liquidity);
                 mark <= price && (price - mark - 1) * liquidity < W
            else w' == w
  {
    if liquidity > 0 { InitialMark(liquidity, price); }
    hide Coherent, DivFp;
  }

  // ---------------------------------------------------------------- funding rates

  /** The imbalance of a market's open interest, as a share of it. */
  function Imbalance(w: World, m: Market): nat {
    var long, short := OpenSize(w, m, true), OpenSize(w, m, false);
    if long + short == 0 then 0
    else
      Funding.NotNegative(Abs(long - short), W, long + short);
      Abs(long - short) * W / (long + short)
  }

  /** The rate is right for the pool, the prices and the open interest on record: no rate without a pool; the sign of
      the premium of the mark over the average price; in size the premium's share of a second, rounded down, enlarged by
      the imbalance, rounded down, and cut off at the maximum. */
  ghost predicate FairRate(w: World, m: Market, rate: int) {
    var p := ReservesOf(w, m);
    var average := MeanPrice(if m in w.history then w.history[m] else [], 900, w.now);
    average > 0 ==>
      && (p.base == 0 ==> rate == 0)
      && (p.base > 0 ==>
            var mark := p.quote * W / p.base;
            var premium := Abs(mark - average) * W / average / 86400;
            var full, limit := premium * (W + Imbalance(w, m)) / W, w.settings.maxFundingRate;
            && (mark >= average ==> rate >= 0) && (mark <= average ==> rate <= 0)
            && Abs(rate) == if limit > 0 && full > limit then limit else full)
  }

  /** A refresh leaves the market with the indexes of now and a fair rate; without an average price the rate stays. */
  lemma RefreshGives(w: World, sender: User, m: Market)
    requires Coherent(w)
    ensures var w' := Done(w, sender, UpdateFundingRate(m));
            w' == w.(funding := w'.funding) && RefreshedFor(w, w', m)
            && forall other: Market :: other != m ==> FundingOf(w'.funding, other) == FundingOf(w.funding, other)
  {
    RefreshIs(w, m);
    hide Coherent, Refreshed, RefreshedFor, FundingOf;
  }

  ghost predicate RefreshedFor(w: World, w': World, m: Market) {
    && m in w'.funding && w'.funding[m].last == w.now
    && (forall isLong: bool :: IndexOnRecord(w', m, isLong) == IndexAt(w, m, isLong))
    && FairRate(w, m, w'.funding[m].rate)
    && (MeanPrice(if m in w.history then w.history[m] else [], 900, w.now) == 0 ==>
          w'.funding[m].rate == if m in w.funding then w.funding[m].rate else 0)
  }

  lemma RefreshIs(w: World, m: Market)
    ensures var w' := Refreshed(w, m);
            w' == w.(funding := w'.funding) && RefreshedFor(w, w', m)
            && forall other: Market :: other != m ==> FundingOf(w'.funding, other) == FundingOf(w.funding, other)
  {
    IndexesAre(w, m, true);
    IndexesAre(w, m, false);
    var average := MeanPrice(if m in w.history then w.history[m] else [], 900, w.now);
    if average > 0 { RateIsFair(w, m, average); }
    hide MeanPrice, RateAt, FairRate, IndexAt;
  }

  lemma RateIsFair(w: World, m: Market, average: nat)
    requires average > 0 && average == MeanPrice(if m in w.history then w.history[m] else [], 900, w.now)
    ensures FairRate(w, m, RateAt(w, m, average))
  {
    var p, long, short := ReservesOf(w, m), OpenSize(w, m, true), OpenSize(w, m, false);
    Reads(w, m, 0, true);
    Reads(w, m, 0, false);
    var mark := if p.base > 0 then p.quote * W / p.base else average;
    RateFollowsPremium(mark, average, long, short, w.settings.maxFundingRate);
    RateIsPremiumShare(mark, average, long, short, w.settings.maxFundingRate);
    hide FundingRate, MeanPrice, OpenSize, ReservesOf, PoolOf, Abs;
  }

  /** After a price cycle every listed market's rate is fair for the pool, the prices and the open interest that the
      cycle leaves, and its pool has been pulled, once for every time it is listed, toward the last price listed for
      it. */
  ghost predicate Cycled(w: World, w': World, ms: seq<Market>, prices: seq<nat>, m: Market)
    requires |ms| == |prices|
  {
    && SameBooks(w, w') && TakenIn(w, w', ms, prices, m)
    && (m in ms ==> m in w'.funding && FairRate(w', m, w'.funding[m].rate))
    && (m !in ms ==> FundingOf(w'.funding, m) == FundingOf(w.funding, m))
    && PulledBy(ReservesOf(w, m), ReservesOf(w', m), LastPrice(w, ms, prices, m), Times(m, ms))
  }

  /** A price cycle is all or nothing. */
  lemma CyclesAreFair(w: World, sender: User, ms: seq<Market>, prices: seq<nat>, m: Market)
    requires Coherent(w)
    ensures var w' := Done(w, sender, ExecutePriceCycle(ms, prices));
            if |ms| == |prices| && forall i: nat :: i < |ms| ==> Acceptable(w, ms, prices, i) then
              Cycled(w, w', ms, prices, m)
            else w' == w
  {
    PricedIsDone(w, sender, ms, prices);
    PreparedSteps(w, ms, prices);
    if |ms| == |prices| {
      PricesGoIn(w, ms, prices);
      PushAllIsValid(w, ms, prices);
      var pushed := PushAll(w, ms, prices).world;
      assert TakenIn(w, pushed, ms, prices, m) || !PushAll(w, ms, prices).done;
      if PushAll(w, ms, prices).done { CyclesFrom(w, pushed, ms, prices, m); }
    }
    hide Coherent, PushAll, Acceptable, Cycled, TakenIn, Done, Prepared, SyncAll, RefreshAll, Damped;
  }

  lemma PricedIsDone(w: World, sender: User, ms: seq<Market>, prices: seq<nat>)
    requires Coherent(w)
    ensures Damped(w.pools) && Done(w, sender, ExecutePriceCycle(ms, prices)) == Prepared(w, ms, prices).world
  {
    CoherentIsDamped(w);
    hide Coherent, Prepared;
  }

  lemma CyclesFrom(w: World, pushed: World, ms: seq<Market>, prices: seq<nat>, m: Market)
    requires |ms| == |prices| && Coherent(w) && Coherent(pushed) && SameBooks(w, pushed) && OnlyPrices(w, pushed)
    requires TakenIn(w, pushed, ms, prices, m)
    ensures Damped(pushed.pools)
    ensures var synced := pushed.(pools := SyncAll(pushed.pools, pushed.prices, ms, pushed.now));
            Cycled(w, RefreshAll(synced, ms), ms, prices, m)
  {
    CoherentIsDamped(pushed);
    CycledIs(w, pushed, ms, prices, m);
    hide Coherent, Cycled, TakenIn, SyncAll, RefreshAll, Damped;
  }

  lemma CycledIs(w: World, pushed: World, ms: seq<Market>, prices: seq<nat>, m: Market)
    requires |ms| == |prices| && Damped(pushed.pools) && pushed.pools == w.pools && SameBooks(w, pushed)
    requires TakenIn(w, pushed, ms, prices, m) && pushed.funding == w.funding
    ensures Cycled(w, RefreshAll(Synced(pushed, ms), ms), ms, prices, m)
  {
    AllFair(Synced(pushed, ms), ms, m);
    PassPulls(pushed, ms, m);
    hide SyncAll, RefreshAll, FairRate, PulledBy, LastPrice, Listings, FundingOf, Times, Damped;
  }

  ghost predicate PulledBy(p: Pool, p': Pool, price: nat, n: nat) {
    && p'.base == p.base && p'.damping == p.damping
    && (p.damping <= BPS ==> p'.quote == if p.base == 0 || price == 0 then p.quote
                             else Pulls(p.quote, p.base * price / W, p.damping, n))
  }

  lemma PassPulls(w: World, ms: seq<Market>, m: Market)
    requires Damped(w.pools)
    ensures PulledBy(ReservesOf(w, m), ReservesOf(Synced(w, ms), m), OraclePrice(w, m), Times(m, ms))
  {
    if m in w.pools { PassPullsListed(w.pools, w.prices, ms, w.now, m); }
    hide SyncAll, Pulls, Times;
  }

  lemma {:induction false} AllFair(w: World, ms: seq<Market>, m: Market)
    ensures var w' := RefreshAll(w, ms);
            && w' == w.(funding := w'.funding)
            && (m in ms ==> m in w'.funding && FairRate(w', m, w'.funding[m].rate))
            && (m !in ms ==> FundingOf(w'.funding, m) == FundingOf(w.funding, m))
    decreases |ms|
  {
    if ms != [] {
      var n := |ms| - 1;
      var before := RefreshAll(w, ms[..n]);
      AllFair(w, ms[..n], m);
      RefreshIs(before, ms[n]);
      FairAnywhere(before, Refreshed(before, ms[n]), m);
      assert m in ms <==> m in ms[..n] || m == ms[n] by { assert ms == ms[..n] + [ms[n]]; }
      hide Refreshed, FairRate, IndexOnRecord, IndexAt;
    }
  }

  /** A rate is fair by pools, prices, open interest and time. */
  lemma FairAnywhere(w: World, w': World, m: Market)
    requires w' == w.(funding := w'.funding)
    ensures forall rate: int :: FairRate(w', m, rate) == FairRate(w, m, rate)
  {
    hide MeanPrice;
  }

  // ---------------------------------------------------------------- the whole cycle

  /** The positions created since are there, and each was entered at its market's price. */
  ghost predicate EnteredAtPrice(w: World, w': World) {
    && w.book.nextPositionId <= w'.book.nextPositionId
    && forall id: nat :: w.book.nextPositionId < id <= w'.book.nextPositionId ==>
         id in w'.book.positions
         && w'.book.positions[id].entry == OraclePrice(w, w'.book.positions[id].market)
  }

  lemma OrderFrame(w: World, o: nat, transfers: bool)
    ensures var w' := OrderDone(w, o, transfers); w' == w.(book := w'.book, pools := w'.pools)
  {
    hide *;
    if CanExecute(w, o, transfers) {
      KeeperFillFields(w, o, transfers);
      FilledFrame(w, o, FilledPosition(w, w.book.orders[o], FundingOf(w.funding, w.book.orders[o].market)));
    } else if Overruns(w, o, transfers) {
      KeeperOverrunFields(w, o, transfers);
    } else if CanFillClose(w, o, transfers) {
      KeeperCloseFields(w, o, transfers);
    } else {
      OtherOrders(w, o, transfers);
    }
  }

  lemma FilledFrame(w: World, o: nat, p: Position)
    requires o in w.book.orders
    ensures var w' := FilledWorld(w, o, p); w' == w.(book := w'.book, pools := w'.pools)
  {
    hide TradeIn;
  }

  lemma OtherOrders(w: World, o: nat, transfers: bool)
    requires !CanExecute(w, o, transfers) && !Overruns(w, o, transfers) && !CanFillClose(w, o, transfers)
    ensures OrderDone(w, o, transfers) == w
  {
    hide CanExecute, Overruns, CanFillClose;
  }

  lemma OrderEntersAtPrice(w: World, at: World, o: nat, transfers: bool)
    requires Coherent(at) && EnteredAtPrice(w, at) && at.prices == w.prices
    ensures EnteredAtPrice(w, OrderDone(at, o, transfers))
  {
    KeeperLeaves(at, o, transfers);
    if (Opening(at, o) || Closing(at, o)) && Transferred(at, o, transfers) {
      if Closing(at, o) {
        HoldsOne(at, o);
        var id: nat :| HeldForOrder(at, o, id);
        OrderCloses(w, at, OrderDone(at, o, transfers), o, id);
      } else {
        OrderFills(w, at, OrderDone(at, o, transfers), o);
      }
    }
    hide *;
  }

  lemma HoldsOne(w: World, o: nat)
    requires Closing(w, o)
    ensures exists id: nat :: HeldForOrder(w, o, id)
  {
    hide MustWait;
    var order := w.book.orders[o];
    var id: nat :| id in w.book.positions && w.book.positions[id].active && w.book.positions[id].user == order.user
                   && w.book.positions[id].market == order.market;
    assert HeldForOrder(w, o, id);
  }

  lemma OrderCloses(w: World, at: World, at': World, o: nat, id: nat)
    requires EnteredAtPrice(w, at) && KeeperCloses(at, at', o, id)
    ensures EnteredAtPrice(w, at')
  {
    hide OraclePrice, TokensLeft, DollarsLeft, Owed, Counts;
  }

  lemma OrderFills(w: World, at: World, at': World, o: nat)
    requires EnteredAtPrice(w, at) && at.prices == w.prices && KeeperFills(at, at', o)
    ensures EnteredAtPrice(w, at')
  {
    hide Counts, RoomFor, FeeOn, NormalizeToUsd, IndexOnRecord;
  }

  lemma {:induction false} BatchEntersAtPrice(w: World, os: seq<Turn>)
    requires Coherent(w)
    ensures var b := RunBatch(w, os).world;
            EnteredAtPrice(w, b) && b == w.(book := b.book, pools := b.pools)
    decreases |os|
  {
    hide Coherent, OrderDone, OrderVerdict, OrderMoves, EnteredAtPrice;
    if os == [] {
      NothingEntered(w);
    } else {
      var b, last := RunBatch(w, os[..|os| - 1]), os[|os| - 1];
      BatchEntersAtPrice(w, os[..|os| - 1]);
      BatchIsLegal(w, os[..|os| - 1]);
      NothingEntered(w);
      OrderFrame(b.world, last.id, last.transfers);
      OrderEntersAtPrice(w, b.world, last.id, last.transfers);
    }
  }

  lemma NothingEntered(w: World)
    ensures EnteredAtPrice(w, w)
  {
  }

  lemma {:induction false} PassOpensNone(w: World, ids: seq<Turn>)
    ensures RunPass(w, ids).world.book.nextPositionId == w.book.nextPositionId
    decreases |ids|
  {
    hide Liquidatable, Unrewarded;
    if ids != [] { PassOpensNone(w, ids[..|ids| - 1]); }
  }

  lemma PassKeepsEntries(w: World, at: World, ids: seq<Turn>)
    requires EnteredAtPrice(w, at)
    ensures EnteredAtPrice(w, RunPass(at, ids).world)
  {
    PassOpensNone(at, ids);
    forall id: nat | id in at.book.positions
      ensures id in RunPass(at, ids).world.book.positions
      ensures RunPass(at, ids).world.book.positions[id].entry == at.book.positions[id].entry
      ensures RunPass(at, ids).world.book.positions[id].market == at.book.positions[id].market
    {
      PassLiquidates(at, ids, id);
    }
    hide RunPass, OraclePrice;
  }

  /** What a cycle asks for: acceptable prices; that no order, at its turn, and no liquidation, after the orders, asks
      for a transfer that is not made. */
  ghost predicate CycleTerms(w: World, c: Cycle)
    requires Coherent(w)
  {
    CoherentIsDamped(w);
    && |c.markets| == |c.prices| && (forall i: nat :: i < |c.markets| ==> Acceptable(w, c.markets, c.prices, i))
    && var priced := Prepared(w, c.markets, c.prices).world;
       var traded := RunBatch(priced, c.orders).world;
       && (forall i: nat :: i < |c.orders| ==>
             var at, turn := AtTurn(priced, c.orders, i), c.orders[i];
             Opening(at, turn.id) || Closing(at, turn.id) ==> Transferred(at, turn.id, turn.transfers))
       && !exists i: nat :: i < |c.ids| && (forall j: nat :: j < i ==> c.ids[j].id != c.ids[i].id)
                            && ShortOnRecord(traded, c.ids[i].id) && RewardDue(traded, c.ids[i].id)
                            && !c.ids[i].transfers
  }

  lemma RefusedIs(w: World, o: nat, transfers: bool)
    requires Coherent(w)
    ensures Refused(w, o, transfers) <==> (Opening(w, o) || Closing(w, o)) && !Transferred(w, o, transfers)
  {
    KeeperAnswers(w, o, transfers);
    hide Coherent, Opening, Closing, Transferred, Openable, Closable;
  }

  lemma BatchTermsAre(w: World, os: seq<Turn>)
    requires Coherent(w)
    ensures RunBatch(w, os).done <==>
            forall i: nat :: i < |os| ==>
              var at, turn := AtTurn(w, os, i), os[i];
              Opening(at, turn.id) || Closing(at, turn.id) ==> Transferred(at, turn.id, turn.transfers)
  {
    BatchGoesThrough(w, os);
    forall i: nat | i < |os|
      ensures var at, turn := AtTurn(w, os, i), os[i];
              Refused(at, turn.id, turn.transfers) <==>
              (Opening(at, turn.id) || Closing(at, turn.id)) && !Transferred(at, turn.id, turn.transfers)
    {
      BatchIsLegal(w, os[..i]);
      RefusedIs(AtTurn(w, os, i), os[i].id, os[i].transfers);
    }
    hide Coherent, RunBatch, Opening, Closing, Refused, Transferred;
  }

  lemma CycleTermsAre(w: World, c: Cycle)
    requires Coherent(w)
    ensures CycleDone(w, c) == if CycleTerms(w, c)
                               then RunPass(RunBatch(Prepared(w, c.markets, c.prices).world, c.orders).world,
                                            c.ids).world
                               else w
  {
    CoherentIsDamped(w);
    PreparedIsValid(w, c.markets, c.prices);
    var priced := Prepared(w, c.markets, c.prices).world;
    if |c.markets| == |c.prices| { PricesGoIn(w, c.markets, c.prices); }
    BatchTermsAre(priced, c.orders);
    BatchIsLegal(priced, c.orders);
    PassIsUndone(RunBatch(priced, c.orders).world, c.ids);
    hide Coherent, RunBatch, RunPass, PushAll, RefreshAll, Synced, Acceptable, Opening, Closing, Transferred,
      ShortOnRecord,
      RewardDue, AtTurn;
  }

  /** A whole cycle, prices first: it is all or nothing; the prices and rates it brings stay; all it opens is entered at
      those prices; and it leaves none of its listed positions below maintenance. */
  ghost predicate CycleLeaves(w: World, w': World, c: Cycle)
    requires Coherent(w) && |c.markets| == |c.prices|
  {
    CoherentIsDamped(w);
    var priced := Prepared(w, c.markets, c.prices).world;
    && w' == priced.(book := w'.book, pools := w'.pools)
    && (forall m: Market :: Cycled(w, priced, c.markets, c.prices, m))
    && (forall id: nat :: w.book.nextPositionId < id <= w'.book.nextPositionId ==>
          && id in w'.book.positions
          && var p := w'.book.positions[id]; p.entry == LastPrice(w, c.markets, c.prices, p.market))
    && (forall t <- c.ids :: !ShortOnRecord(w', t.id))
  }

  lemma CycleGives(w: World, sender: User, c: Cycle)
    requires Coherent(w)
    ensures var w' := Done(w, sender, ExecuteCycle(c));
            if CycleTerms(w, c) then CycleLeaves(w, w', c) else w' == w
  {
    CycleTermsAre(w, c);
    if CycleTerms(w, c) { CycleEnds(w, c); }
    hide Coherent, CycleTerms, CycleLeaves, CycleDone;
  }

  lemma PassFrame(w: World, ids: seq<Turn>)
    requires Coherent(w)
    ensures var w' := RunPass(w, ids).world; Coherent(w') && w' == w.(book := w'.book)
  {
    PassLiquidates(w, ids, 0);
    PassIsLegal(w, ids);
    hide Coherent, RunPass;
  }

  lemma PricesOfCycle(w: World, c: Cycle, m: Market)
    requires Coherent(w) && CycleTerms(w, c)
    ensures Damped(w.pools) && |c.markets| == |c.prices|
            && Cycled(w, Prepared(w, c.markets, c.prices).world, c.markets, c.prices, m)
  {
    CoherentIsDamped(w);
    CyclesAreFair(w, 0, c.markets, c.prices, m);
    PricedIsDone(w, 0, c.markets, c.prices);
    PricesAreTerms(w, c);
    hide *;
  }

  lemma PricesAreTerms(w: World, c: Cycle)
    requires Coherent(w) && CycleTerms(w, c)
    ensures |c.markets| == |c.prices| && forall i: nat :: i < |c.markets| ==> Acceptable(w, c.markets, c.prices, i)
  {
    hide Coherent, Prepared, Acceptable, RunBatch, Opening, Closing, Transferred, ShortOnRecord, RewardDue;
  }

  /** A pass that goes through leaves none of its positions below maintenance. */
  lemma PassSpares(w: World, ids: seq<Turn>, t: Turn)
    requires Coherent(w) && RunPass(w, ids).done && t in ids
    ensures !ShortOnRecord(RunPass(w, ids).world, t.id)
  {
    PassFrame(w, ids);
    PassLeavesNone(w, ids, t.id);
    ShortOnRecordIs(RunPass(w, ids).world, t.id);
    hide Coherent, RunPass, ShortOnRecord, Liquidatable, Unrewarded;
  }

  lemma CycleEnds(w: World, c: Cycle)
    requires Coherent(w) && CycleTerms(w, c)
    ensures |c.markets| == |c.prices| && CycleLeaves(w, CycleDone(w, c), c)
  {
    CoherentIsDamped(w);
    CycleTermsAre(w, c);
    PreparedIsValid(w, c.markets, c.prices);
    var priced := Prepared(w, c.markets, c.prices).world;
    var traded := RunBatch(priced, c.orders).world;
    var last := RunPass(traded, c.ids).world;
    BatchEntersAtPrice(priced, c.orders);
    BatchIsLegal(priced, c.orders);
    PassKeepsEntries(priced, traded, c.ids);
    PassFrame(traded, c.ids);
    forall m: Market ensures Cycled(w, priced, c.markets, c.prices, m) { PricesOfCycle(w, c, m); }
    PassOfCycle(w, c);
    forall t | t in c.ids ensures !ShortOnRecord(last, t.id) { PassSpares(traded, c.ids, t); }
    hide *;
    EntriesOfCycle(w, priced, last, c);
  }

  lemma PassOfCycle(w: World, c: Cycle)
    requires Coherent(w) && CycleTerms(w, c)
    ensures Damped(w.pools) && |c.markets| == |c.prices|
    ensures RunPass(RunBatch(Prepared(w, c.markets, c.prices).world, c.orders).world, c.ids).done
  {
    CoherentIsDamped(w);
    PreparedIsValid(w, c.markets, c.prices);
    var priced := Prepared(w, c.markets, c.prices).world;
    BatchIsLegal(priced, c.orders);
    PassIsUndone(RunBatch(priced, c.orders).world, c.ids);
    hide Coherent, Prepared, Acceptable, RunBatch, RunPass, Opening, Closing, Transferred, ShortOnRecord, RewardDue,
      SameBooks;
  }

  lemma EntriesOfCycle(w: World, priced: World, last: World, c: Cycle)
    requires Coherent(w) && |c.markets| == |c.prices| && Damped(w.pools)
    requires priced == Prepared(w, c.markets, c.prices).world
    requires forall m: Market :: Cycled(w, priced, c.markets, c.prices, m)
    requires last == priced.(book := last.book, pools := last.pools) && EnteredAtPrice(priced, last)
    requires forall t <- c.ids :: !ShortOnRecord(last, t.id)
    ensures CycleLeaves(w, last, c)
  {
    forall id: nat | priced.book.nextPositionId < id <= last.book.nextPositionId
      ensures id in last.book.positions
      ensures var p := last.book.positions[id]; p.entry == LastPrice(w, c.markets, c.prices, p.market)
    {
      var m := last.book.positions[id].market;
      assert Cycled(w, priced, c.markets, c.prices, m);
    }
    assert Cycled(w, priced, c.markets, c.prices, 0);
    hide Coherent, Prepared, ShortOnRecord, FairRate, PulledBy, LastPrice, Listings, FundingOf, Times, OraclePrice;
  }
}
