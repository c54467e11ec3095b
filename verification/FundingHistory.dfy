/**
 Funding over histories of the exchange: what a position's collateral gains and loses while it is open, against the
 clock that charges every second.
 */
module FundingHistory {
  import opened FixedPoint
  import opened LibPosition
  import opened Ids
  import opened Amm
  import opened Twap
  import opened Funding
  import opened Book
  import opened BookRuns
  import opened Settlement
  import opened World
  import opened Keeper
  import opened Trading
  import opened Histories
  import opened HistoryRuns
  import FundingRuns

  /** The exchange's books for one position, as the funding ledger sees them. */
  function Page(w: World, id: nat): FundingRuns.Ledger
    requires id in w.book.positions
  {
    var p := w.book.positions[id];
    FundingRuns.Ledger(FundingOf(w.funding, p.market), p.isLong, p.size, p.index, 0)
  }

  // ---------------------------------------------------------------- what a call means for a position

  /** The refreshes of a market in a pass over a list of markets. */
  function Refreshes(w: World, ms: seq<Market>, m: Market): seq<FundingRuns.Event> {
    if ms == [] then []
    else
      var before := RefreshAll(w, ms[..|ms| - 1]);
      Refreshes(w, ms[..|ms| - 1], m) +
      if ms[|ms| - 1] == m then [FundingRuns.Refresh(w.now, RefreshedFunding(before, m).rate)] else []
  }

  /** The refreshes of a price cycle. */
  function CycleEvents(w: World, ms: seq<Market>, prices: seq<nat>, m: Market): seq<FundingRuns.Event>
    requires Damped(w.pools)
  {
    if |ms| == |prices| && PushAll(w, ms, prices).done then
      Refreshes(Synced(PushAll(w, ms, prices).world, ms), ms, m)
    else []
  }

  function Poked(w: World, id: nat, m: Market): seq<FundingRuns.Event>
    requires id in w.book.positions
  {
    if m == w.book.positions[id].market then [FundingRuns.Poke(w.now)] else []
  }

  /** What a call means for the funding of position `id`. */
  function EventsOf(w: World, sender: User, c: Call, id: nat): seq<FundingRuns.Event>
    requires Coherent(w)
  {
    if id !in w.book.positions then []
    else
      var m := w.book.positions[id].market;
      if c.ExecuteCycle? then
        if CycleGoesThrough(w, c.c) then CycleEvents(w, c.c.markets, c.c.prices, m) else []
      else if c.ExecutePriceCycle? then CycleEvents(w, c.ms, c.prices, m)
      else if c.UpdateFundingRate? then
        if c.m == m then [FundingRuns.Refresh(w.now, RefreshedFunding(w, m).rate)] else []
      else if c.AddCollateral? then []
      else if c.AutoDeleverage? then
        match StepOf(w, sender, c)
        case Makes(Adjust(changed, p)) => if changed == id then [FundingRuns.Deleverage(w.now, p.size)] else []
        case _ => []
      else
        match StepOf(w, sender, c)
        case Makes(Adjust(changed, p)) =>
          if changed == id then [FundingRuns.Resize(w.now, p.size)] else Poked(w, id, p.market)
        case Makes(Open(_, p)) => Poked(w, id, p.market)
        case Makes(Fill(_, _, _, p)) => Poked(w, id, p.market)
        case Makes(Shut(_, p)) => Poked(w, id, p.market)
        case _ => []
  }

  /** The call settles the position's funding and leaves it open. */
  predicate Settles(w: World, sender: User, c: Call, id: nat)
    requires Coherent(w)
  {
    && id in w.book.positions && !c.ExecuteCycle? && !c.AddCollateral? && !c.AutoDeleverage?
    && StepOf(w, sender, c).Makes? && StepOf(w, sender, c).v.Adjust? && StepOf(w, sender, c).v.id == id
  }

  /** What a settlement of the position would charge now. */
  function Charge(w: World, id: nat): int
    requires id in w.book.positions
  {
    var p := w.book.positions[id];
    MulFpSigned(p.size, Index(Accrue(FundingOf(w.funding, p.market), w.now), p.isLong) - p.index)
  }

  /** The collateral on record covers what a settlement would charge now. */
  predicate Covered(w: World, id: nat)
    requires id in w.book.positions
  {
    Covers(w.book.positions[id], Charge(w, id), Decimals(w.settings, w.book.positions[id].token))
  }

  /** What a settlement forgives: the charge beyond the dollars on record, when the collateral does not cover it.  (It
      is negative where the tokens fall short and the dollars on record do not.) */
  function Forgiven(w: World, sender: User, c: Call, id: nat): int
    requires Coherent(w)
  {
    if Settles(w, sender, c, id) && !Covered(w, id) then Charge(w, id) - w.book.positions[id].collateralUsd else 0
  }

  /** The part of the collateral that goes with the part of a position that is closed. */
  function ShareTaken(p: Position, cut: nat): int {
    if 0 < cut <= p.size then Reduced(p, cut).collateralUsd - p.collateralUsd else 0
  }

  function AddedUsd(w: World, id: nat, amount: nat, leverage: nat): int
    requires id in w.book.positions
  {
    var token := w.book.positions[id].token;
    ToUsd(w.settings, token,
          AfterFee(w.settings, token, amount, AddedSize(w, id, amount, leverage), w.settings.takerFeeBps))
  }

  /** The dollars a call itself puts into the position's collateral or takes out of it, funding apart, if it goes
      through. */
  function Flow(w: World, c: Call, id: nat): int {
    if id !in w.book.positions then 0
    else
      match c
      case AddSize(changed, amount, leverage, _) => if changed == id then AddedUsd(w, id, amount, leverage) else 0
      case AddCollateral(changed, amount, _) =>
        if changed == id then ToUsd(w.settings, w.book.positions[id].token, amount) else 0
      case RemoveCollateral(changed, amount, _) =>
        if changed == id then 0 - ToUsd(w.settings, w.book.positions[id].token, amount) else 0
      case PartialClose(changed, close, _) => if changed == id then ShareTaken(SettledNow(w, id), close) else 0
      case AutoDeleverage(changed, cut, _) => if changed == id then ShareTaken(w.book.positions[id], cut) else 0
      case _ => 0
  }

  function FlowOf(w: World, sender: User, c: Call, id: nat): int
    requires Coherent(w)
  {
    if !c.ExecuteCycle? && StepOf(w, sender, c).Makes? then Flow(w, c, id) else 0
  }

  // ---------------------------------------------------------------- the market's funding after a call

  lemma PassKeepsFunding(w: World, ids: seq<Turn>)
    ensures RunPass(w, ids).world.funding == w.funding
  {
    PassLiquidates(w, ids, 0);
    hide RunPass;
  }

  lemma OrderKeepsFunding(w: World, o: nat, transfers: bool)
    ensures OrderDone(w, o, transfers).funding == w.funding
  {
    hide Apply, Openable, HasRoom, Lockable, Closable, TradeIn, FillMove, UncountedMove, FillCloseMove, Enabled;
  }

  lemma {:induction false} BatchKeepsFunding(w: World, os: seq<Turn>)
    ensures RunBatch(w, os).world.funding == w.funding
    decreases |os|
  {
    hide OrderDone, OrderVerdict, OrderMoves;
    if os != [] {
      BatchKeepsFunding(w, os[..|os| - 1]);
      OrderKeepsFunding(RunBatch(w, os[..|os| - 1]).world, os[|os| - 1].id, os[|os| - 1].transfers);
    }
  }

  /** A pass over the markets is, for each market, its refreshes. */
  lemma {:induction false} RefreshesAre(w: World, ms: seq<Market>, id: nat)
    requires Coherent(w) && id in w.book.positions
    ensures var w', es := RefreshAll(w, ms), Refreshes(w, ms, w.book.positions[id].market);
            && SameBooks(w, w') && Page(w', id) == FundingRuns.Run(Page(w, id), es)
            && forall e <- es :: e.Refresh? && e.at == w.now
    decreases |ms|
  {
    hide Coherent, RefreshedFunding;
    RefreshAllIsValid(w, ms);
    if ms != [] {
      var p, m := ms[..|ms| - 1], ms[|ms| - 1];
      RefreshesAre(w, p, id);
      RefreshAllIsValid(w, p);
      var before := RefreshAll(w, p);
      var market := w.book.positions[id].market;
      RefreshIsAnEvent(before, m, id);
      assert Refreshes(w, p, market) + [] == Refreshes(w, p, market);
      RunSnoc(Page(w, id), Refreshes(w, p, market), FundingRuns.Refresh(w.now, RefreshedFunding(before, m).rate));
    }
  }

  lemma RefreshIsAnEvent(w: World, m: Market, id: nat)
    requires Coherent(w) && id in w.book.positions
    ensures SameBooks(w, Refreshed(w, m))
    ensures Page(Refreshed(w, m), id) ==
            if m == w.book.positions[id].market then
              FundingRuns.Step(Page(w, id), FundingRuns.Refresh(w.now, RefreshedFunding(w, m).rate))
            else Page(w, id)
  {
    hide Coherent, MeanPrice, RateAt, Accrue;
  }

  lemma {:induction false} RunSnoc(l: FundingRuns.Ledger, es: seq<FundingRuns.Event>, e: FundingRuns.Event)
    ensures FundingRuns.Run(l, es + [e]) == FundingRuns.Step(FundingRuns.Run(l, es), e)
    decreases |es|
  {
    hide FundingRuns.Step;
    if es == [] {
      assert [] + [e] == [e] && [e][1..] == [];
    } else {
      assert (es + [e])[1..] == es[1..] + [e];
      RunSnoc(FundingRuns.Step(l, es[0]), es[1..], e);
    }
  }

  // ---------------------------------------------------------------- the record of a position after a call

  lemma StaysAsItWas(b: Book, v: Move, id: nat)
    requires Sound(b) && Enabled(b, v) && IsActive(b, id) && IsActive(Apply(b, v), id)
    ensures Apply(b, v).positions[id] == if v.Adjust? && v.id == id then v.p else b.positions[id]
  {
  }

  lemma {:induction false} RunStays(b: Book, vs: seq<Move>, id: nat)
    requires Sound(b) && Legal(b, vs) && IsActive(b, id) && IsActive(Final(b, vs), id)
    requires forall v <- vs :: !v.Adjust?
    ensures Final(b, vs).positions[id] == b.positions[id]
    decreases |vs|
  {
    hide Sound, Enabled, Apply;
    if vs != [] {
      assert vs[0] in vs;
      var b' := Apply(b, vs[0]);
      MovesKeepSound(b, vs[0]);
      StepPersists(b, vs[0], id);
      IdsAreForGood(b', vs[1..], id);
      StaysAsItWas(b, vs[0], id);
      RunStays(b', vs[1..], id);
    }
  }

  /** Unless the call adjusts it, a position that stays open keeps its record. */
  lemma CallRecord(w: World, sender: User, c: Call, id: nat)
    requires Coherent(w) && !c.ExecuteCycle? && IsActive(w.book, id) && IsActive(Done(w, sender, c).book, id)
    ensures var s := StepOf(w, sender, c);
            Done(w, sender, c).book.positions[id] ==
            if s.Makes? && s.v.Adjust? && s.v.id == id then s.v.p else w.book.positions[id]
  {
    hide Coherent, Done, StepOf, Enabled, Apply, Sound, Under;
    CoherentIsSound(w);
    CallReaches(w, sender, c);
    match StepOf(w, sender, c)
    case None =>
    case Makes(v) =>
      OneIsEnabled(w.book, v);
      StaysAsItWas(w.book, v, id);
  }

  // ---------------------------------------------------------------- the market's funding after a call

  function Accrued(w: World, m: Market): map<Market, FundingState> {
    w.funding[m := Accrue(FundingOf(w.funding, m), w.now)]
  }

  function FundingAfter(w: World, c: Call, s: Step): map<Market, FundingState> {
    if c.UpdateFundingRate? then w.funding[c.m := RefreshedFunding(w, c.m)]
    else if c.AddCollateral? || c.AutoDeleverage? then w.funding
    else
      match s
      case Makes(Open(_, p)) => Accrued(w, p.market)
      case Makes(Adjust(_, p)) => Accrued(w, p.market)
      case Makes(Shut(_, p)) => Accrued(w, p.market)
      case Makes(Fill(_, _, _, p)) => Accrued(w, p.market)
      case _ => w.funding
  }

  lemma OpenPositionFunding(w: World, sender: User, m: Market, token: Token, amount: nat, leverage: nat, isLong: bool,
                            locked: bool)
    requires Coherent(w)
    ensures var c := OpenPosition(m, token, amount, leverage, isLong, locked);
            Done(w, sender, c).funding == FundingAfter(w, c, StepOf(w, sender, c))
  {
    hide Coherent, Enabled, Apply, Accrue, TradeIn, SettledNow, ToUsd, CanOpen, OpenDone;
    if CanOpen(w, sender, m, token, amount, leverage, isLong, locked) {
      OpenIsEnabled(w, sender, m, token, amount, leverage, isLong, locked);
      OpenFields(w, sender, m, token, amount, leverage, isLong);
    }
  }

  lemma AddSizeFunding(w: World, sender: User, id: nat, amount: nat, leverage: nat, locked: bool)
    requires Coherent(w)
    ensures var c := AddSize(id, amount, leverage, locked);
            Done(w, sender, c).funding == FundingAfter(w, c, StepOf(w, sender, c))
  {
    hide Coherent, Enabled, Apply, Accrue, TradeIn, SettledNow, ToUsd, CanAddSize, AddSizeDone, GrownPosition,
      AddedSize;
    if CanAddSize(w, sender, id, amount, leverage, locked) {
      AddSizeFields(w, sender, id, amount, leverage, locked);
      AddSizeGrows(w, sender, id, amount, leverage, locked);
    }
  }

  lemma PartialCloseFunding(w: World, sender: User, id: nat, close: nat, paid: bool)
    requires Coherent(w)
    ensures var c := PartialClose(id, close, paid);
            Done(w, sender, c).funding == FundingAfter(w, c, StepOf(w, sender, c))
  {
    hide Coherent, Enabled, Apply, Accrue, TradeIn, SettledNow, ToUsd, CanPartialClose, PartialCloseDone, Reduced;
    if CanPartialClose(w, sender, id, close, paid) {
      PartialCloseFields(w, sender, id, close, paid);
      SettledNowKeeps(w, id);
      ReducedKeeps(SettledNow(w, id), close);
    }
  }

  lemma ClosePositionFunding(w: World, sender: User, id: nat, paid: bool)
    requires Coherent(w)
    ensures var c := ClosePosition(id, paid); Done(w, sender, c).funding == FundingAfter(w, c, StepOf(w, sender, c))
  {
    hide Coherent, Enabled, Apply, Accrue, TradeIn, SettledNow, ToUsd, CloseDone, Stale;
    if CanClose(w, sender, id, paid) {
      CloseFields(w, id);
      SettledNowKeeps(w, id);
    }
  }

  lemma LiquidateFunding(w: World, sender: User, id: nat, paid: bool)
    requires Coherent(w)
    ensures var c := Liquidate(id, paid); Done(w, sender, c).funding == FundingAfter(w, c, StepOf(w, sender, c))
  {
    hide Coherent, Enabled, Apply, Accrue, TradeIn, SettledNow, ToUsd, CanLiquidate, CloseDone;
    if CanLiquidate(w, id, paid) {
      LiquidatedIsActive(w, id, paid);
      CloseFields(w, id);
      SettledNowKeeps(w, id);
    }
  }

  lemma RemoveCollateralFunding(w: World, sender: User, id: nat, amount: nat, paid: bool)
    requires Coherent(w)
    ensures var c := RemoveCollateral(id, amount, paid);
            Done(w, sender, c).funding == FundingAfter(w, c, StepOf(w, sender, c))
  {
    hide Coherent, Enabled, Apply, Accrue, TradeIn, SettledNow, ToUsd, CanRemoveCollateral, RemoveCollateralDone;
    if CanRemoveCollateral(w, sender, id, amount, paid) {
      RemoveCollateralFields(w, sender, id, amount, paid);
      SettledNowKeeps(w, id);
    }
  }

  lemma AutoDeleverageFunding(w: World, sender: User, id: nat, cut: nat, paid: bool)
    requires Coherent(w)
    ensures var c := AutoDeleverage(id, cut, paid);
            Done(w, sender, c).funding == FundingAfter(w, c, StepOf(w, sender, c))
  {
    hide Coherent, Enabled, Apply, Accrue, TradeIn, SettledNow, ToUsd, CanDeleverage, Reduced;
    if CanDeleverage(w, id, cut, paid) {
      DeleverageFields(w, id, cut, paid);
    }
  }

  lemma ExecuteOrderFunding(w: World, sender: User, o: nat, locked: bool)
    requires Coherent(w)
    ensures var c := ExecuteOrder(o, locked); Done(w, sender, c).funding == FundingAfter(w, c, StepOf(w, sender, c))
  {
    hide Coherent, Enabled, Apply, Accrue, Accrued, OrderedPosition, CanExecute, FillDone, Price, Cap;
    if CanExecute(w, o, locked) { FilledFunding(w, o, locked); }
  }

  lemma FilledFunding(w: World, o: nat, locked: bool)
    requires CanExecute(w, o, locked)
    ensures o in w.book.orders && Enabled(w.book, FillMove(w, o, true))
    ensures FillDone(w, o, true).funding == Accrued(w, w.book.orders[o].market)
    ensures OrderedPosition(w, w.book.orders[o], true).market == w.book.orders[o].market
  {
    FillIsEnabled(w, o, true);
    OpenableIsListed(w, o);
    hide Enabled, Apply, Accrue, TradeIn, AfterFee, ToUsd, Index, Openable, HasRoom, Lockable;
  }

  lemma MarketFunding(w: World, sender: User, c: Call)
    requires Coherent(w) && (c.AddCollateral? || c.BatchUpdatePrices? || c.UpdateFundingRate?)
    ensures Done(w, sender, c).funding == FundingAfter(w, c, StepOf(w, sender, c))
  {
    hide Coherent, Apply, Accrue, CanAddCollateral, CanUpdatePrices, PushAll, RefreshedFunding;
    match c
    case BatchUpdatePrices(ms, prices) =>
      if CanUpdatePrices(w, ms, prices) {
        CanPushAll(w, ms, prices);
        PushKeepsFunding(w, ms, prices);
      }
    case _ =>
  }

  lemma AdminFunding(w: World, sender: User, c: Call)
    requires Coherent(w) && (c.InitializePool? || c.SyncToOracle? || c.CreateVault? || c.Configure?)
    ensures Done(w, sender, c).funding == FundingAfter(w, c, StepOf(w, sender, c))
  {
    hide Coherent, SyncOne, CanInitialize, MulFp;
  }

  lemma OrderFunding(w: World, sender: User, c: Call)
    requires Coherent(w)
    requires c.PlaceLimitOrder? || c.PlaceStopLimitOrder? || c.PlaceTakeProfit? || c.PlaceStopLoss? || c.CancelOrder?
    ensures Done(w, sender, c).funding == FundingAfter(w, c, StepOf(w, sender, c))
  {
    hide Coherent, Apply, Accrue, CanPlace, CanPlaceClose, CanCancel, RefreshedFunding;
  }

  lemma CallFunding(w: World, sender: User, c: Call)
    requires Coherent(w) && !c.ExecuteCycle? && !c.ExecutePriceCycle?
    ensures Done(w, sender, c).funding == FundingAfter(w, c, StepOf(w, sender, c))
  {
    hide *;
    match c
    case OpenPosition(m, token, amount, leverage, isLong, locked) =>
      OpenPositionFunding(w, sender, m, token, amount, leverage, isLong, locked);
    case AddSize(id, amount, leverage, locked) => AddSizeFunding(w, sender, id, amount, leverage, locked);
    case PartialClose(id, close, paid) => PartialCloseFunding(w, sender, id, close, paid);
    case ClosePosition(id, paid) => ClosePositionFunding(w, sender, id, paid);
    case Liquidate(id, paid) => LiquidateFunding(w, sender, id, paid);
    case AutoDeleverage(id, cut, paid) => AutoDeleverageFunding(w, sender, id, cut, paid);
    case RemoveCollateral(id, amount, paid) => RemoveCollateralFunding(w, sender, id, amount, paid);
    case ExecuteOrder(o, locked) => ExecuteOrderFunding(w, sender, o, locked);
    case PlaceLimitOrder(_, _, _, _, _, _, _) => OrderFunding(w, sender, c);
    case PlaceStopLimitOrder(_, _, _, _, _, _, _, _) => OrderFunding(w, sender, c);
    case PlaceTakeProfit(_, _) => OrderFunding(w, sender, c);
    case PlaceStopLoss(_, _) => OrderFunding(w, sender, c);
    case CancelOrder(_) => OrderFunding(w, sender, c);
    case AddCollateral(_, _, _) => MarketFunding(w, sender, c);
    case BatchUpdatePrices(_, _) => MarketFunding(w, sender, c);
    case UpdateFundingRate(_) => MarketFunding(w, sender, c);
    case _ => AdminFunding(w, sender, c);
  }

  lemma {:induction false} PushKeepsFunding(w: World, ms: seq<Market>, prices: seq<nat>)
    requires |ms| == |prices|
    ensures PushAll(w, ms, prices).world.funding == w.funding
    decreases |ms|
  {
    hide CanPush;
    if ms != [] { PushKeepsFunding(w, ms[..|ms| - 1], prices[..|ms| - 1]); }
  }

  // ---------------------------------------------------------------- a change to the position, field by field

  /** What a settlement does to the record: the index is the present one, and the charge leaves the collateral, or all
      the collateral goes. */
  lemma SettlementIs(w: World, id: nat)
    requires id in w.book.positions
    ensures var p, q := w.book.positions[id], SettledNow(w, id);
            && q.index == Index(Accrue(FundingOf(w.funding, p.market), w.now), p.isLong)
            && q.market == p.market && q.isLong == p.isLong && q.size == p.size && q.token == p.token
            && q.collateralUsd == if Covered(w, id) then p.collateralUsd - Charge(w, id) else 0
  {
    hide UsdToTokens, Accrue, MulFpSigned;
    SettledNowKeeps(w, id);
  }

  /** A change that settles first: the new record is the settled one with what the call itself puts in or takes out. */
  lemma SettledChange(w: World, sender: User, c: Call, id: nat)
    requires Coherent(w) && Settles(w, sender, c, id)
    ensures var p, q := StepOf(w, sender, c).v.p, SettledNow(w, id);
            && p.index == q.index && p.market == q.market && p.isLong == q.isLong
            && p.collateralUsd == q.collateralUsd + FlowOf(w, sender, c, id)
  {
    hide Coherent, CanAddSize, CanPartialClose, CanRemoveCollateral, CanOpen, CanClose, CanLiquidate, CanPlace,
      CanPlaceClose, CanCancel, CanExecute, SettledNow, AddedSize, AfterFee, ToUsd, CalculateAverageEntryPrice, MulFp,
      DivFp;
    SettledNowKeeps(w, id);
    match c
    case RemoveCollateral(_, amount, paid) =>
      RemoveCollateralFields(w, sender, id, amount, paid);
    case PartialClose(_, close, paid) =>
      PartialCloseFields(w, sender, id, close, paid);
      ReducedKeeps(SettledNow(w, id), close);
    case _ =>
  }

  /** A change that does not settle leaves the index as it was. */
  lemma PlainChange(w: World, sender: User, c: Call, id: nat)
    requires Coherent(w) && (c.AddCollateral? || c.AutoDeleverage?)
    requires var s := StepOf(w, sender, c); s.Makes? && s.v.Adjust? && s.v.id == id
    ensures id in w.book.positions
    ensures var p, q := StepOf(w, sender, c).v.p, w.book.positions[id];
            && p.index == q.index && p.market == q.market && p.isLong == q.isLong
            && (c.AddCollateral? ==> p.size == q.size)
            && p.collateralUsd == q.collateralUsd + FlowOf(w, sender, c, id)
  {
    hide Coherent, CanAddCollateral, CanDeleverage, ToUsd, MulFp, DivFp;
    match c
    case AddCollateral(_, amount, locked) => AddCollateralFields(w, sender, id, amount, locked);
    case AutoDeleverage(_, cut, paid) =>
      DeleverageFields(w, id, cut, paid);
      ReducedKeeps(w.book.positions[id], cut);
  }

  // ---------------------------------------------------------------- one call

  /** The page after a call is what the ledger makes of the call's events; what the ledger charges leaves the
      collateral, and nothing else does but what the call itself takes out, and what is forgiven stays. */
  ghost predicate Accounts(w: World, w': World, es: seq<FundingRuns.Event>, flow: int, id: nat) {
    && id in w.book.positions && id in w'.book.positions
    && w'.book.positions[id].market == w.book.positions[id].market
    && var l := FundingRuns.Run(Page(w, id), es);
       && Page(w', id) == l.(paid := 0)
       && w'.book.positions[id].collateralUsd == w.book.positions[id].collateralUsd - l.paid + flow
  }

  lemma NoEvent(l: FundingRuns.Ledger)
    ensures FundingRuns.Run(l, []) == l
  {
  }

  lemma OneEvent(l: FundingRuns.Ledger, e: FundingRuns.Event)
    ensures FundingRuns.Run(l, [e]) == FundingRuns.Step(l, e)
  {
    assert [e][1..] == [];
  }

  /** The call settles the position, and changes it. */
  lemma SettlingAccounts(w: World, sender: User, c: Call, id: nat)
    requires Coherent(w) && Settles(w, sender, c, id) && !c.UpdateFundingRate? && !c.ExecutePriceCycle?
    requires IsActive(w.book, id) && IsActive(Done(w, sender, c).book, id)
    ensures Accounts(w, Done(w, sender, c), EventsOf(w, sender, c, id),
                     FlowOf(w, sender, c, id) + Forgiven(w, sender, c, id), id)
  {
    hide Coherent, Done, StepOf, Accrue, SettledNow, FlowOf, Covered, MulFpSigned;
    CallRecord(w, sender, c, id);
    CallFunding(w, sender, c);
    SettledChange(w, sender, c, id);
    SettlementIs(w, id);
    var p := StepOf(w, sender, c).v.p;
    OneEvent(Page(w, id), FundingRuns.Resize(w.now, p.size));
  }

  /** The call changes the position without settling it. */
  lemma PlainAccounts(w: World, sender: User, c: Call, id: nat)
    requires Coherent(w) && (c.AddCollateral? || c.AutoDeleverage?)
    requires var s := StepOf(w, sender, c); s.Makes? && s.v.Adjust? && s.v.id == id
    requires IsActive(w.book, id) && IsActive(Done(w, sender, c).book, id)
    ensures Accounts(w, Done(w, sender, c), EventsOf(w, sender, c, id),
                     FlowOf(w, sender, c, id) + Forgiven(w, sender, c, id), id)
  {
    hide Coherent, Done, StepOf, Accrue, FlowOf, Covered;
    CallRecord(w, sender, c, id);
    CallFunding(w, sender, c);
    PlainChange(w, sender, c, id);
    NoEvent(Page(w, id));
    OneEvent(Page(w, id), FundingRuns.Deleverage(w.now, StepOf(w, sender, c).v.p.size));
  }

  /** The page, if the record is as it was. */
  lemma PageAfter(w: World, w': World, id: nat)
    requires id in w.book.positions && id in w'.book.positions && w'.book.positions[id] == w.book.positions[id]
    ensures Page(w', id) == Page(w, id).(fs := FundingOf(w'.funding, w.book.positions[id].market))
  {
  }

  /** The events of a call that is about something else say what becomes of the market's funding. */
  lemma EventsOfOthers(w: World, sender: User, c: Call, id: nat)
    requires Coherent(w) && !c.ExecuteCycle? && !c.ExecutePriceCycle? && id in w.book.positions
    requires var s := StepOf(w, sender, c); !(s.Makes? && s.v.Adjust? && s.v.id == id)
    requires c.UpdateFundingRate? ==> StepOf(w, sender, c).None?
    ensures FundingRuns.Run(Page(w, id), EventsOf(w, sender, c, id)) ==
            Page(w, id).(fs := FundingOf(FundingAfter(w, c, StepOf(w, sender, c)), w.book.positions[id].market))
  {
    hide Coherent, StepOf, Accrue, RefreshedFunding;
    var m := w.book.positions[id].market;
    NoEvent(Page(w, id));
    OneEvent(Page(w, id), FundingRuns.Poke(w.now));
    RefreshedIs(w, m);
    OneEvent(Page(w, id), FundingRuns.Refresh(w.now, RefreshedFunding(w, m).rate));
  }

  lemma RefreshSteps(w: World, sender: User, c: Call)
    requires Coherent(w)
    ensures c.UpdateFundingRate? ==> StepOf(w, sender, c).None?
  {
  }

  /** The call is about something else. */
  lemma OtherAccounts(w: World, sender: User, c: Call, id: nat)
    requires Coherent(w) && !c.ExecuteCycle? && !c.ExecutePriceCycle?
    requires var s := StepOf(w, sender, c); !(s.Makes? && s.v.Adjust? && s.v.id == id)
    requires IsActive(w.book, id) && IsActive(Done(w, sender, c).book, id)
    ensures Accounts(w, Done(w, sender, c), EventsOf(w, sender, c, id),
                     FlowOf(w, sender, c, id) + Forgiven(w, sender, c, id), id)
  {
    hide Coherent, Done, StepOf, EventsOf, FundingAfter, FlowOf, Covered;
    FlowsNot(w, sender, c, id);
    CallRecord(w, sender, c, id);
    CallFunding(w, sender, c);
    RefreshSteps(w, sender, c);
    EventsOfOthers(w, sender, c, id);
    PageAfter(w, Done(w, sender, c), id);
  }

  lemma RefreshedIs(w: World, m: Market)
    ensures RefreshedFunding(w, m) == Accrue(FundingOf(w.funding, m), w.now).(rate := RefreshedFunding(w, m).rate)
  {
    hide MeanPrice, RateAt, Accrue;
  }

  lemma FlowsNot(w: World, sender: User, c: Call, id: nat)
    requires Coherent(w) && !c.ExecuteCycle? && IsActive(w.book, id) && IsActive(Done(w, sender, c).book, id)
    requires var s := StepOf(w, sender, c); !(s.Makes? && s.v.Adjust? && s.v.id == id)
    ensures FlowOf(w, sender, c, id) == 0
  {
    hide Coherent, CanAddSize, CanPartialClose, CanRemoveCollateral, CanOpen, CanClose, CanLiquidate, CanPlace,
      CanPlaceClose, CanCancel, CanExecute, CanAddCollateral, SettledNow, AddedSize, AfterFee, ToUsd, Reduced,
      ShareTaken, AddedUsd, Apply;
    if c.AutoDeleverage? && CanDeleverage(w, c.id, c.cut, c.paid) {
      DeleverageFields(w, c.id, c.cut, c.paid);
    }
  }

  /** A price cycle refreshes the markets it is given and leaves every position alone. */
  lemma PreparedAccounts(w: World, ms: seq<Market>, prices: seq<nat>, id: nat)
    requires Coherent(w) && id in w.book.positions
    ensures Damped(w.pools)
    ensures var w', es := Prepared(w, ms, prices).world, CycleEvents(w, ms, prices, w.book.positions[id].market);
            && SameBooks(w, w') && Page(w', id) == FundingRuns.Run(Page(w, id), es)
            && forall e <- es :: e.Refresh? && e.at == w.now
  {
    hide Coherent, PushAll, Refreshes, RefreshAll;
    PreparedSteps(w, ms, prices);
    PreparedIsValid(w, ms, prices);
    NoEvent(Page(w, id));
    if |ms| == |prices| && PushAll(w, ms, prices).done {
      var pushed := PushAll(w, ms, prices).world;
      PushAllIsValid(w, ms, prices);
      PushKeepsFunding(w, ms, prices);
      SyncedIsValid(pushed, ms);
      RefreshesAre(Synced(pushed, ms), ms, id);
    }
  }

  /** A keeper's cycle, as far as a position that stays open is concerned: its prices refresh the market. */
  lemma CycleAccounts(w: World, sender: User, c: Cycle, id: nat)
    requires Coherent(w) && IsActive(w.book, id) && IsActive(Done(w, sender, ExecuteCycle(c)).book, id)
    ensures var call := ExecuteCycle(c);
            && FlowOf(w, sender, call, id) == 0
            && Accounts(w, Done(w, sender, call), EventsOf(w, sender, call, id),
                        FlowOf(w, sender, call, id) + Forgiven(w, sender, call, id), id)
  {
    hide Coherent, Prepared, CycleEvents, RunBatch, RunPass, Legal, Final, Enabled, Sound, Covered, Under;
    CoherentIsDamped(w);
    NoEvent(Page(w, id));
    if CycleGoesThrough(w, c) {
      var prepared := Prepared(w, c.markets, c.prices).world;
      PreparedIsValid(w, c.markets, c.prices);
      PreparedAccounts(w, c.markets, c.prices, id);
      BatchAccounts(prepared, c, id);
    }
  }

  /** The orders and liquidations of a cycle leave a position that stays open, and the market's funding, alone. */
  lemma BatchAccounts(w: World, c: Cycle, id: nat)
    requires Coherent(w) && id in w.book.positions && IsActive(w.book, id)
    requires var b := RunBatch(w, c.orders); b.done && IsActive(RunPass(b.world, c.ids).world.book, id)
    ensures var end := RunPass(RunBatch(w, c.orders).world, c.ids).world;
            && id in end.book.positions && end.book.positions[id] == w.book.positions[id] && end.funding == w.funding
  {
    hide Coherent, RunBatch, RunPass, Legal, Final, Sound;
    var b := RunBatch(w, c.orders);
    BatchIsLegal(w, c.orders);
    BatchIsChecked(w, c.orders);
    BatchKeepsFunding(w, c.orders);
    PassIsLegal(b.world, c.ids);
    PassKeepsFunding(b.world, c.ids);
    CoherentIsSound(w);
    CoherentIsSound(b.world);
    IdsAreForGood(w.book, b.moves, id);
    IdsAreForGood(b.world.book, RunPass(b.world, c.ids).moves, id);
    RunStays(w.book, b.moves, id);
    RunStays(b.world.book, RunPass(b.world, c.ids).moves, id);
  }

  lemma PriceCycleAccounts(w: World, sender: User, c: Call, id: nat)
    requires Coherent(w) && c.ExecutePriceCycle? && IsActive(w.book, id)
    ensures FlowOf(w, sender, c, id) == 0
    ensures Accounts(w, Done(w, sender, c), EventsOf(w, sender, c, id),
                     FlowOf(w, sender, c, id) + Forgiven(w, sender, c, id), id)
  {
    hide Coherent, Prepared, CycleEvents, Covered;
    CoherentIsDamped(w);
    PreparedAccounts(w, c.ms, c.prices, id);
  }

  /** Every call, as far as a position that stays open is concerned. */
  lemma CallAccounts(w: World, sender: User, c: Call, id: nat)
    requires Coherent(w) && IsActive(w.book, id) && IsActive(Done(w, sender, c).book, id)
    ensures Accounts(w, Done(w, sender, c), EventsOf(w, sender, c, id),
                     FlowOf(w, sender, c, id) + Forgiven(w, sender, c, id), id)
  {
    hide Accounts, Coherent, Done, EventsOf, FlowOf, Forgiven, StepOf;
    if c.ExecuteCycle? {
      CycleAccounts(w, sender, c.c, id);
    } else if c.ExecutePriceCycle? {
      PriceCycleAccounts(w, sender, c, id);
    } else {
      var s := StepOf(w, sender, c);
      if s.Makes? && s.v.Adjust? && s.v.id == id {
        AdjustsOnlyWhenTrading(w, sender, c);
        if c.AddCollateral? || c.AutoDeleverage? {
          PlainAccounts(w, sender, c, id);
        } else {
          SettlingAccounts(w, sender, c, id);
        }
      } else {
        OtherAccounts(w, sender, c, id);
      }
    }
  }

  lemma AdjustsOnlyWhenTrading(w: World, sender: User, c: Call)
    requires Coherent(w) && !c.ExecuteCycle? && !c.ExecutePriceCycle?
    ensures StepOf(w, sender, c).Makes? ==> !c.UpdateFundingRate?
  {
  }

  /** All events of a call happen now. */
  lemma EventsAreNow(w: World, sender: User, c: Call, id: nat)
    requires Coherent(w)
    ensures forall e <- EventsOf(w, sender, c, id) :: e.at == w.now
  {
    hide Coherent, CycleEvents, RefreshedFunding, StepOf;
    if id in w.book.positions {
      if c.ExecuteCycle? { PreparedAccounts(w, c.c.markets, c.c.prices, id); }
      if c.ExecutePriceCycle? { PreparedAccounts(w, c.ms, c.prices, id); }
    }
  }

  // ---------------------------------------------------------------- histories

  function EventsOver(w: World, txs: seq<Tx>, id: nat): seq<FundingRuns.Event>
    requires Coherent(w)
  {
    if txs == [] then []
    else
      var p, tx := txs[..|txs| - 1], txs[|txs| - 1];
      EventsOver(w, p, id) + EventsOf(Found(History(w, p), tx), tx.sender, tx.call, id)
  }

  /** The dollars that went into the position's collateral, less those that were taken out, funding apart. */
  function FlowsOver(w: World, txs: seq<Tx>, id: nat): int
    requires Coherent(w)
  {
    if txs == [] then 0
    else
      var p, tx := txs[..|txs| - 1], txs[|txs| - 1];
      FlowsOver(w, p, id) + FlowOf(Found(History(w, p), tx), tx.sender, tx.call, id)
  }

  /** What the settlements of a history forgive. */
  function ForgivenOver(w: World, txs: seq<Tx>, id: nat): int
    requires Coherent(w)
  {
    if txs == [] then 0
    else
      var p, tx := txs[..|txs| - 1], txs[|txs| - 1];
      ForgivenOver(w, p, id) + Forgiven(Found(History(w, p), tx), tx.sender, tx.call, id)
  }

  lemma {:induction false} PaidAdds(l: FundingRuns.Ledger, paid: int, es: seq<FundingRuns.Event>)
    ensures FundingRuns.Run(l.(paid := paid), es) ==
            FundingRuns.Run(l, es).(paid := paid - l.paid + FundingRuns.Run(l, es).paid)
    decreases |es|
  {
    hide MulFpSigned, Accrue;
    if es != [] {
      var l' := FundingRuns.Step(l, es[0]);
      assert FundingRuns.Step(l.(paid := paid), es[0]) == l'.(paid := paid - l.paid + l'.paid);
      PaidAdds(l', paid - l.paid + l'.paid, es[1..]);
    }
  }

  lemma AccountsJoin(w: World, mid: World, w': World, es: seq<FundingRuns.Event>, fs: seq<FundingRuns.Event>, flow: int,
                     more: int, id: nat)
    requires Accounts(w, mid, es, flow, id) && Accounts(mid, w', fs, more, id)
    ensures Accounts(w, w', es + fs, flow + more, id)
  {
    var l := FundingRuns.Run(Page(w, id), es);
    FundingRuns.RunConcat(Page(w, id), FundingRuns.Clock(0, 0, true, 0, 0), es, fs);
    PaidAdds(Page(mid, id), l.paid, fs);
  }

  /** A position open at the end has been open all along. */
  lemma WasActive(w: World, p: seq<Tx>, tx: Tx, id: nat)
    requires Coherent(w) && IsActive(w.book, id) && IsActive(After(History(w, p), tx).book, id)
    ensures IsActive(History(w, p).book, id)
  {
    hide Coherent, History, HistoryMoves, After, TxMoves, Legal, Final;
    CoherentIsSound(w);
    CoherentIsSound(History(w, p));
    HistoryReaches(w, p);
    IdsAreForGood(w.book, HistoryMoves(w, p), id);
    TxReaches(History(w, p), tx);
    IdsAreForGood(History(w, p).book, TxMoves(History(w, p), tx), id);
  }

  lemma FoundIs(w: World, tx: Tx, id: nat)
    requires Coherent(w) && id in w.book.positions
    ensures Accounts(w, Found(w, tx), [], 0, id)
    ensures Found(w, tx).book == w.book && Found(w, tx).now == w.now + tx.seconds
    ensures After(w, tx) == Done(Found(w, tx), tx.sender, tx.call)
  {
    hide Coherent, Done;
    NoEvent(Page(w, id));
  }

  lemma {:induction false} HistoryAccounts(w: World, txs: seq<Tx>, id: nat)
    requires Coherent(w) && IsActive(w.book, id) && IsActive(History(w, txs).book, id)
    ensures Accounts(w, History(w, txs), EventsOver(w, txs, id), FlowsOver(w, txs, id) + ForgivenOver(w, txs, id), id)
    decreases |txs|
  {
    hide Coherent, Accounts, After, Done, EventsOf, FlowOf, Forgiven, Found;
    if txs == [] {
      StartAccounts(w, id);
    } else {
      var p, tx := txs[..|txs| - 1], txs[|txs| - 1];
      var before := History(w, p);
      var found := Found(before, tx);
      WasActive(w, p, tx, id);
      HistoryAccounts(w, p, id);
      FoundIs(before, tx, id);
      CallAccounts(found, tx.sender, tx.call, id);
      var es := EventsOf(found, tx.sender, tx.call, id);
      var change := FlowOf(found, tx.sender, tx.call, id) + Forgiven(found, tx.sender, tx.call, id);
      AccountsJoin(before, found, After(before, tx), [], es, 0, change, id);
      assert [] + es == es;
      AccountsJoin(w, before, After(before, tx), EventsOver(w, p, id), es, FlowsOver(w, p, id) + ForgivenOver(w, p, id),
                   change, id);
    }
  }

  lemma StartAccounts(w: World, id: nat)
    requires id in w.book.positions
    ensures Accounts(w, w, [], 0, id)
  {
    NoEvent(Page(w, id));
  }

  // ---------------------------------------------------------------- against the clock

  /** The clock for a position: it starts now and charges every second. */
  function ClockOf(w: World, id: nat): FundingRuns.Clock
    requires id in w.book.positions
  {
    var p := w.book.positions[id];
    FundingRuns.Clock(w.now, FundingOf(w.funding, p.market).rate, p.isLong, p.size, 0)
  }

  lemma {:induction false} InOrderJoin(time: nat, es: seq<FundingRuns.Event>, fs: seq<FundingRuns.Event>, now: nat)
    requires FundingRuns.InOrder(time, es) && time <= now
    requires (forall e <- es :: e.at <= now) && (forall e <- fs :: e.at == now)
    ensures FundingRuns.InOrder(time, es + fs)
    decreases |es| + |fs|
  {
    if es != [] {
      assert (es + fs)[1..] == es[1..] + fs;
      InOrderJoin(es[0].at, es[1..], fs, now);
    } else if fs != [] {
      assert es + fs == fs;
      InOrderJoin(now, [], fs[1..], now);
      assert [] + fs[1..] == fs[1..];
    }
  }

  lemma {:induction false} HistoryInOrder(w: World, txs: seq<Tx>, id: nat)
    requires Coherent(w)
    ensures FundingRuns.InOrder(w.now, EventsOver(w, txs, id))
    ensures w.now <= History(w, txs).now && forall e <- EventsOver(w, txs, id) :: e.at <= History(w, txs).now
    decreases |txs|
  {
    hide Coherent, EventsOf, After, FundingRuns.InOrder, Found;
    if txs == [] {
      Nothing(w.now);
    } else {
      var p, tx := txs[..|txs| - 1], txs[|txs| - 1];
      HistoryInOrder(w, p, id);
      var before := History(w, p);
      TimeGoesOn(before, tx);
      EventsAreNow(Found(before, tx), tx.sender, tx.call, id);
      InOrderJoin(w.now, EventsOver(w, p, id), EventsOf(Found(before, tx), tx.sender, tx.call, id),
                  before.now + tx.seconds);
    }
  }

  lemma Nothing(time: nat)
    ensures FundingRuns.InOrder(time, [])
  {
  }

  lemma TimeGoesOn(w: World, tx: Tx)
    requires Coherent(w)
    ensures Found(w, tx).now == w.now + tx.seconds && After(w, tx).now == w.now + tx.seconds
  {
    hide Coherent, Done;
    if tx.call.Configure? {
      ConfiguringTakesNoTime(Found(w, tx), tx.sender, tx.call);
    } else {
      SettingsKept(Found(w, tx), tx.sender, tx.call);
    }
  }

  lemma ConfiguringTakesNoTime(w: World, sender: User, c: Call)
    requires Coherent(w) && c.Configure?
    ensures Done(w, sender, c).now == w.now
  {
    hide Coherent;
  }

  lemma {:induction false} ClockStopsBy(c: FundingRuns.Clock, es: seq<FundingRuns.Event>, now: nat)
    requires c.time <= now && forall e <- es :: e.at <= now
    ensures FundingRuns.Chimes(c, es).time <= now
    decreases |es|
  {
    if es != [] {
      assert es[0] in es;
      if c.time <= es[0].at { FundingRuns.Ticks(c, es[0].at); }
      ClockStopsBy(FundingRuns.Chime(c, es[0]), es[1..], now);
    }
  }

  /** A position that stays open over a history: what has left its collateral, flows apart, with what settling forgave
      and what is pending at the end, adds up to what every second cost and what was pending at the start, less what
      deleveraging let lapse, but for less than one unit of rounding per settlement.  It does not matter who touched the
      market, nor how often. */
  lemma CollateralFollowsTheClock(w: World, txs: seq<Tx>, id: nat)
    requires Coherent(w) && IsActive(w.book, id) && IsActive(History(w, txs).book, id)
    ensures id in History(w, txs).book.positions
    ensures FundingRuns.Chimes(ClockOf(w, id), EventsOver(w, txs, id)).time <= History(w, txs).now
    ensures var end, es, start := History(w, txs), EventsOver(w, txs, id), Page(w, id);
            var clock := FundingRuns.TickTo(FundingRuns.Chimes(ClockOf(w, id), es), end.now);
            Abs(W * (Taken(w, txs, id) + ForgivenOver(w, txs, id)) + FundingRuns.Pending(Page(end, id), end.now) -
                FundingRuns.Pending(start, w.now) - clock.owed + FundingRuns.Lapsed(start, es)) <=
            FundingRuns.Payments(es) * (W - 1)
  {
    hide Coherent, FlowsOver, EventsOver, ForgivenOver, History, FundingRuns.Lapsed, FundingRuns.Payments,
      FundingRuns.InOrder, FundingRuns.Run, FundingRuns.Chimes, FundingRuns.IndexNow;
    var end, es, start, c := History(w, txs), EventsOver(w, txs, id), Page(w, id), ClockOf(w, id);
    HistoryAccounts(w, txs, id);
    HistoryInOrder(w, txs, id);
    StartsOnTheSamePage(w, id);
    FundingRuns.RunKeepsPace(start, c, es);
    ClockStopsBy(c, es, end.now);
    FundingRuns.TimePasses(FundingRuns.Run(start, es), FundingRuns.Chimes(c, es), end.now);
  }

  /** What has left a position's collateral over a history, flows apart. */
  function Taken(w: World, txs: seq<Tx>, id: nat): int
    requires Coherent(w) && id in w.book.positions && id in History(w, txs).book.positions
  {
    w.book.positions[id].collateralUsd + FlowsOver(w, txs, id) - History(w, txs).book.positions[id].collateralUsd
  }

  /** Over a history the collateral pays exactly what the ledger charges if and only if nothing is forgiven in all; in
      any case the difference is what is forgiven.  A single settlement forgives nothing if and only if the collateral
      covers its charge or is all of it. */
  lemma PaidUnlessForgiven(w: World, txs: seq<Tx>, id: nat)
    requires Coherent(w) && IsActive(w.book, id) && IsActive(History(w, txs).book, id)
    ensures id in History(w, txs).book.positions
    ensures var charged := FundingRuns.Run(Page(w, id), EventsOver(w, txs, id)).paid;
            && charged - Taken(w, txs, id) == ForgivenOver(w, txs, id)
            && (Taken(w, txs, id) == charged <==> ForgivenOver(w, txs, id) == 0)
    ensures forall sender: User, c: Call ::
              Forgiven(w, sender, c, id) == 0 <==>
              !Settles(w, sender, c, id) || Covered(w, id) || Charge(w, id) == w.book.positions[id].collateralUsd
  {
    hide Coherent, FlowsOver, EventsOver, ForgivenOver, History, Settles, Covered, Charge, FundingRuns.Run;
    HistoryAccounts(w, txs, id);
  }

  lemma StartsOnTheSamePage(w: World, id: nat)
    requires Coherent(w) && id in w.book.positions
    ensures FundingRuns.SamePage(Page(w, id), ClockOf(w, id))
  {
    hide Sound, Under, Damped, Chronological;
  }
}
