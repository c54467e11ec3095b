/**
 What holds of every history: when open interest is the sum over positions, how many positions an order opens, and when
 the caps on open interest hold.
 */
module HistoryRuns {
  import opened Ids
  import opened Amm
  import opened Settlement
  import opened FixedPoint
  import opened LibPosition
  import opened Funding
  import opened Book
  import opened BookRuns
  import opened World
  import opened Keeper
  import opened Trading
  import opened Histories

  // ---------------------------------------------------------------- which calls leave a fill uncounted

  /** A keeper's cycle that goes through although one of its orders, at its turn, overruns the cap. */
  ghost predicate CallOverruns(w: World, c: Call)
    requires Coherent(w)
  {
    && c.ExecuteCycle? && CycleGoesThrough(w, c.c)
    && BatchOverruns(Prepared(w, c.c.markets, c.c.prices).world, c.c.orders)
  }

  lemma StepIsCounted(w: World, sender: User, c: Call)
    requires Coherent(w) && !c.ExecuteCycle?
    ensures StepOf(w, sender, c).Makes? ==> !StepOf(w, sender, c).v.FillUncounted?
  {
    hide CanOpen, CanAddSize, CanPartialClose, CanClose, CanLiquidate, CanAddCollateral, CanRemoveCollateral,
      CanDeleverage, CanPlace, CanPlaceClose, CanCancel, CanExecute, Reduced;
  }

  lemma CallCounts(w: World, sender: User, c: Call)
    requires Coherent(w)
    ensures (exists v <- MovesOf(w, sender, c) :: v.FillUncounted?) <==> CallOverruns(w, c)
  {
    hide Coherent, CycleGoesThrough, BatchOverruns, StepOf, Prepared;
    CoherentIsDamped(w);
    if c.ExecuteCycle? {
      CycleCounts(w, c.c);
    } else {
      StepIsCounted(w, sender, c);
    }
  }

  lemma CycleCounts(w: World, c: Cycle)
    requires Coherent(w) && Damped(w.pools)
    ensures (exists v <- CycleMoves(w, c) :: v.FillUncounted?) <==>
            CycleGoesThrough(w, c) && BatchOverruns(Prepared(w, c.markets, c.prices).world, c.orders)
  {
    hide Coherent, BatchOverruns, Prepared, RunBatch, RunPass, Legal, Final;
    if CycleGoesThrough(w, c) {
      var prepared := Prepared(w, c.markets, c.prices).world;
      PreparedIsValid(w, c.markets, c.prices);
      BatchIsLegal(prepared, c.orders);
      BatchCounts(prepared, c.orders);
      var b := RunBatch(prepared, c.orders);
      PassIsLegal(b.world, c.ids);
      JoinedCounts(b.moves, RunPass(b.world, c.ids).moves);
    }
  }

  lemma JoinedCounts(vs: seq<Move>, ws: seq<Move>)
    requires forall v <- ws :: v.Shut?
    ensures (exists v <- vs + ws :: v.FillUncounted?) <==> (exists v <- vs :: v.FillUncounted?)
  {
  }

  // ---------------------------------------------------------------- open interest over histories

  /** The state a transaction's call finds. */
  function Found(w: World, tx: Tx): World
    requires Coherent(w)
    ensures Coherent(Found(w, tx))
  {
    LaterIsValid(w, w.now + tx.seconds);
    Later(w, tx.seconds)
  }

  /** The i-th transaction is a cycle that leaves a fill uncounted. */
  ghost predicate OverrunsAt(w: World, txs: seq<Tx>, i: nat)
    requires Coherent(w) && i < |txs|
  {
    CallOverruns(Found(History(w, txs[..i]), txs[i]), txs[i].call)
  }

  ghost predicate HistoryOverruns(w: World, txs: seq<Tx>)
    requires Coherent(w)
  {
    exists i: nat :: i < |txs| && OverrunsAt(w, txs, i)
  }

  lemma SameTurn(w: World, txs: seq<Tx>, i: nat)
    requires Coherent(w) && i < |txs| - 1
    ensures OverrunsAt(w, txs, i) == OverrunsAt(w, txs[..|txs| - 1], i)
  {
    hide Coherent, CallOverruns, History, Found;
    assert txs[..|txs| - 1][..i] == txs[..i];
  }

  lemma HistoryOverrunsSnoc(w: World, txs: seq<Tx>)
    requires Coherent(w) && txs != []
    ensures HistoryOverruns(w, txs) <==> HistoryOverruns(w, txs[..|txs| - 1]) || OverrunsAt(w, txs, |txs| - 1)
  {
    hide Coherent, OverrunsAt;
    var p := txs[..|txs| - 1];
    if i: nat :| i < |txs| && OverrunsAt(w, txs, i) {
      if i < |p| { SameTurn(w, txs, i); }
    }
    if i: nat :| i < |p| && OverrunsAt(w, p, i) { SameTurn(w, txs, i); }
  }

  lemma {:induction false} HistoryCounts(w: World, txs: seq<Tx>)
    requires Coherent(w)
    ensures (exists v <- HistoryMoves(w, txs) :: v.FillUncounted?) <==> HistoryOverruns(w, txs)
    decreases |txs|
  {
    hide Coherent, CallOverruns, HistoryOverruns, History, MovesOf, Found;
    if txs == [] {
      NoTurns(w);
    } else {
      var p, tx := txs[..|txs| - 1], txs[|txs| - 1];
      HistoryCounts(w, p);
      HistoryOverrunsSnoc(w, txs);
      TxCounts(History(w, p), tx);
    }
  }

  lemma NoTurns(w: World)
    requires Coherent(w)
    ensures !HistoryOverruns(w, [])
  {
  }

  lemma TxCounts(w: World, tx: Tx)
    requires Coherent(w)
    ensures (exists v <- TxMoves(w, tx) :: v.FillUncounted?) <==> CallOverruns(Found(w, tx), tx.call)
  {
    hide Coherent, CallOverruns, MovesOf;
    CallCounts(Found(w, tx), tx.sender, tx.call);
  }

  /** Over any history from an exact state, open interest is the sum over positions after every single move if and only
      if no cycle that goes through finds an order, at its turn, due, openable, lockable and without room under the
      cap. */
  lemma OpenInterestOverHistories(w: World, txs: seq<Tx>)
    requires Coherent(w) && Exact(w.book)
    ensures Legal(w.book, HistoryMoves(w, txs))
    ensures ExactThroughout(w.book, HistoryMoves(w, txs)) <==> !HistoryOverruns(w, txs)
    ensures !HistoryOverruns(w, txs) ==> Exact(History(w, txs).book)
  {
    hide Sound, Under, Damped, Dated, Legal, Exact, ExactThroughout, NoneBeyondCap, HistoryOverruns, HistoryMoves,
      History;
    var vs := HistoryMoves(w, txs);
    HistoryReaches(w, txs);
    HistoryCounts(w, txs);
    OpenInterestIsSum(w.book, vs);
    BeyondCapIsUncounted(w.book, vs);
    ExactAtEnd(w.book, vs);
  }

  lemma {:induction false} ExactAtEnd(b: Book, vs: seq<Move>)
    requires Legal(b, vs)
    ensures ExactThroughout(b, vs) ==> Exact(Final(b, vs))
    decreases |vs|
  {
    hide Exact, Enabled, Apply;
    if vs != [] { ExactAtEnd(Apply(b, vs[0]), vs[1..]); }
  }

  // ---------------------------------------------------------------- positions of an order

  /** How often a call finds order `o` beyond the cap. */
  function CallOverrunsOf(w: World, c: Call, o: nat): nat
    requires Coherent(w)
  {
    if c.ExecuteCycle? && CycleGoesThrough(w, c.c) then
      OverrunsOf(Prepared(w, c.c.markets, c.c.prices).world, c.c.orders, o)
    else 0
  }

  function HistoryOverrunsOf(w: World, txs: seq<Tx>, o: nat): nat
    requires Coherent(w)
  {
    if txs == [] then 0
    else
      HistoryOverrunsOf(w, txs[..|txs| - 1], o) +
      CallOverrunsOf(Found(History(w, txs[..|txs| - 1]), txs[|txs| - 1]), txs[|txs| - 1].call, o)
  }

  lemma CallUncounted(w: World, sender: User, c: Call, o: nat)
    requires Coherent(w)
    ensures UncountedFills(MovesOf(w, sender, c), o) == CallOverrunsOf(w, c, o)
  {
    hide Coherent, CycleGoesThrough, StepOf, Prepared, OverrunsOf;
    CoherentIsDamped(w);
    if c.ExecuteCycle? {
      CycleUncounted(w, c.c, o);
    } else {
      StepIsCounted(w, sender, c);
    }
  }

  lemma CycleUncounted(w: World, c: Cycle, o: nat)
    requires Coherent(w) && Damped(w.pools)
    ensures UncountedFills(CycleMoves(w, c), o) ==
            if CycleGoesThrough(w, c) then OverrunsOf(Prepared(w, c.markets, c.prices).world, c.orders, o) else 0
  {
    hide Coherent, Prepared, RunBatch, RunPass, Legal, Final, OverrunsOf;
    if CycleGoesThrough(w, c) {
      var prepared := Prepared(w, c.markets, c.prices).world;
      PreparedIsValid(w, c.markets, c.prices);
      BatchIsLegal(prepared, c.orders);
      BatchUncounted(prepared, c.orders, o);
      var b := RunBatch(prepared, c.orders);
      PassIsLegal(b.world, c.ids);
      UncountedJoin(b.moves, RunPass(b.world, c.ids).moves, o);
      ShutsAreCounted(RunPass(b.world, c.ids).moves, o);
    }
  }

  lemma {:induction false} ShutsAreCounted(vs: seq<Move>, o: nat)
    requires forall v <- vs :: v.Shut?
    ensures UncountedFills(vs, o) == 0
    decreases |vs|
  {
    if vs != [] {
      assert vs[0] in vs;
      ShutsAreCounted(vs[1..], o);
    }
  }

  lemma {:induction false} HistoryUncounted(w: World, txs: seq<Tx>, o: nat)
    requires Coherent(w)
    ensures UncountedFills(HistoryMoves(w, txs), o) == HistoryOverrunsOf(w, txs, o)
    decreases |txs|
  {
    hide Coherent, CallOverrunsOf, History, MovesOf;
    if txs != [] {
      var p, tx := txs[..|txs| - 1], txs[|txs| - 1];
      HistoryUncounted(w, p, o);
      CallUncounted(Found(History(w, p), tx), tx.sender, tx.call, o);
      UncountedJoin(HistoryMoves(w, p), TxMoves(History(w, p), tx), o);
    }
  }

  /** Over any history, the positions opened for an order: one for every turn in a cycle at which it was beyond the cap,
      and one more if it was filled in the end. */
  lemma PositionsOverHistories(w: World, txs: seq<Tx>, o: nat)
    requires Coherent(w)
    ensures PositionsFrom(HistoryMoves(w, txs), o) ==
            HistoryOverrunsOf(w, txs, o) + One(Filled(HistoryMoves(w, txs), o))
    ensures HistoryOverrunsOf(w, txs, o) == 0 ==> PositionsFrom(HistoryMoves(w, txs), o) <= 1
  {
    hide Sound, Under, Damped, Dated, Legal, HistoryMoves, History, HistoryOverrunsOf, Filled;
    var vs := HistoryMoves(w, txs);
    HistoryReaches(w, txs);
    HistoryUncounted(w, txs, o);
    PositionsOfAnOrder(w.book, vs, o);
    BeyondCapAreUncounted(w.book, vs, o);
  }

  // ---------------------------------------------------------------- caps

  ghost predicate Capped(b: Book, s: Settings) {
    forall m: Market, isLong: bool :: Side(Interest(b, m), isLong) <= Config(s, m).maxOpenInterest
  }

  /** A size added that takes open interest past the cap, or limits set below what is open. */
  ghost predicate Uncaps(w: World, sender: User, c: Call) {
    match c
    case AddSize(id, amount, leverage, locked) =>
      && CanAddSize(w, sender, id, amount, leverage, locked)
      && var p := w.book.positions[id];
         Side(Interest(w.book, p.market), p.isLong) + AddedSize(w, id, amount, leverage) > Cap(w, p.market)
    case Configure(s) => !Capped(w.book, s)
    case _ => false
  }

  /** A move that checks the cap, or does not add to open interest. */
  predicate Checked(s: Settings, b: Book, v: Move) {
    match v
    case Open(cap, p) => cap == Config(s, p.market).maxOpenInterest
    case Fill(_, _, cap, p) => cap == Config(s, p.market).maxOpenInterest
    case Adjust(id, p) => id in b.positions && p.size <= b.positions[id].size
    case _ => true
  }

  lemma MoveKeepsCaps(b: Book, s: Settings, v: Move)
    requires Capped(b, s) && Enabled(b, v) && Checked(s, b, v)
    ensures Capped(Apply(b, v), s)
  {
    forall m: Market, isLong: bool
      ensures Side(Interest(Apply(b, v), m), isLong) <= Config(s, m).maxOpenInterest
    {
      assert Side(Interest(b, m), isLong) <= Config(s, m).maxOpenInterest;
    }
  }

  lemma AddSizeCaps(b: Book, s: Settings, id: nat, p: Position)
    requires Capped(b, s) && Enabled(b, Adjust(id, p)) && p.size > b.positions[id].size
    ensures Capped(Apply(b, Adjust(id, p)), s) <==>
            Side(Interest(b, p.market), p.isLong) + (p.size - b.positions[id].size) <=
              Config(s, p.market).maxOpenInterest
  {
    var b' := Apply(b, Adjust(id, p));
    assert Side(Interest(b', p.market), p.isLong) ==
      Side(Interest(b, p.market), p.isLong) + (p.size - b.positions[id].size);
    forall m: Market, isLong: bool | m != p.market || isLong != p.isLong
      ensures Side(Interest(b', m), isLong) <= Config(s, m).maxOpenInterest
    {
      assert Side(Interest(b', m), isLong) == Side(Interest(b, m), isLong);
    }
  }

  lemma StepIsChecked(w: World, sender: User, c: Call)
    requires Coherent(w) && !c.ExecuteCycle? && !c.AddSize? && StepOf(w, sender, c).Makes?
    ensures Checked(w.settings, w.book, StepOf(w, sender, c).v)
  {
    hide CanOpen, CanAddSize, CanLiquidate, CanPlace, CanCancel, Openable, HasRoom, Lockable, SettledNow, ToUsd,
      CalculateMarginRatio, CalculatePnl, ValidLeverage, MulFp, DivFp, Stale;
    match c
    case PartialClose(id, _, _) => SettledNowKeeps(w, id);
    case RemoveCollateral(id, _, _) => SettledNowKeeps(w, id);
    case ExecuteOrder(o, _) => OpenableIsListed(w, o);
    case _ =>
  }

  lemma TradesKeepSettings(w: World, sender: User, c: Call)
    requires Coherent(w)
    requires c.OpenPosition? || c.AddSize? || c.PartialClose? || c.ClosePosition? || c.Liquidate?
             || c.AutoDeleverage? ||
             c.ExecuteOrder?
    ensures Done(w, sender, c).settings == w.settings && Done(w, sender, c).now == w.now
  {
    hide Coherent, Apply, Accrue, TradeIn, CanOpen, CanAddSize, CanPartialClose, CanClose, CanLiquidate,
      CanDeleverage, CanExecute;
  }

  lemma PricesKeepSettings(w: World, sender: User, c: Call)
    requires Coherent(w) && (c.ExecutePriceCycle? || c.BatchUpdatePrices? || c.UpdateFundingRate?)
    ensures Done(w, sender, c).settings == w.settings && Done(w, sender, c).now == w.now
  {
    hide Coherent, CanUpdatePrices, PushAll, Prepared, RefreshedFunding;
    match c
    case ExecutePriceCycle(ms, prices) => PreparedIsValid(w, ms, prices);
    case BatchUpdatePrices(ms, prices) =>
      if CanUpdatePrices(w, ms, prices) { CanPushAll(w, ms, prices); PushAllIsValid(w, ms, prices); }
    case _ =>
  }

  lemma MarketsKeepSettings(w: World, sender: User, c: Call)
    requires Coherent(w) && (c.ExecuteCycle? || c.InitializePool? || c.SyncToOracle? || c.CreateVault?)
    ensures Done(w, sender, c).settings == w.settings && Done(w, sender, c).now == w.now
  {
    hide Coherent, CycleDone, SyncOne, CanInitialize, MulFp;
    match c
    case ExecuteCycle(cycle) => CycleKeepsSettings(w, cycle);
    case _ =>
  }

  lemma OrdersKeepSettings(w: World, sender: User, c: Call)
    requires Coherent(w)
    requires c.PlaceLimitOrder? || c.PlaceStopLimitOrder? || c.PlaceTakeProfit? || c.PlaceStopLoss? || c.CancelOrder? ||
             c.AddCollateral? || c.RemoveCollateral?
    ensures Done(w, sender, c).settings == w.settings && Done(w, sender, c).now == w.now
  {
    hide Coherent, Apply, Accrue, CanAddCollateral, CanRemoveCollateral, CanPlace, CanPlaceClose, CanCancel;
  }

  /** Only administrators change the settings. */
  lemma SettingsKept(w: World, sender: User, c: Call)
    requires Coherent(w) && !c.Configure?
    ensures Done(w, sender, c).settings == w.settings && Done(w, sender, c).now == w.now
  {
    hide *;
    match c
    case OpenPosition(_, _, _, _, _, _) => TradesKeepSettings(w, sender, c);
    case AddSize(_, _, _, _) => TradesKeepSettings(w, sender, c);
    case PartialClose(_, _, _) => TradesKeepSettings(w, sender, c);
    case ClosePosition(_, _) => TradesKeepSettings(w, sender, c);
    case Liquidate(_, _) => TradesKeepSettings(w, sender, c);
    case AutoDeleverage(_, _, _) => TradesKeepSettings(w, sender, c);
    case ExecuteOrder(_, _) => TradesKeepSettings(w, sender, c);
    case PlaceLimitOrder(_, _, _, _, _, _, _) => OrdersKeepSettings(w, sender, c);
    case PlaceStopLimitOrder(_, _, _, _, _, _, _, _) => OrdersKeepSettings(w, sender, c);
    case PlaceTakeProfit(_, _) => OrdersKeepSettings(w, sender, c);
    case PlaceStopLoss(_, _) => OrdersKeepSettings(w, sender, c);
    case CancelOrder(_) => OrdersKeepSettings(w, sender, c);
    case AddCollateral(_, _, _) => OrdersKeepSettings(w, sender, c);
    case RemoveCollateral(_, _, _) => OrdersKeepSettings(w, sender, c);
    case ExecutePriceCycle(_, _) => PricesKeepSettings(w, sender, c);
    case BatchUpdatePrices(_, _) => PricesKeepSettings(w, sender, c);
    case UpdateFundingRate(_) => PricesKeepSettings(w, sender, c);
    case _ => MarketsKeepSettings(w, sender, c);
  }

  lemma CycleKeepsSettings(w: World, c: Cycle)
    requires Coherent(w)
    ensures Damped(w.pools) && CycleDone(w, c).settings == w.settings && CycleDone(w, c).now == w.now
  {
    hide Coherent, Prepared, RunBatch, RunPass, Legal, Final;
    CoherentIsDamped(w);
    if CycleGoesThrough(w, c) {
      var prepared := Prepared(w, c.markets, c.prices).world;
      PreparedIsValid(w, c.markets, c.prices);
      BatchIsLegal(prepared, c.orders);
      PassIsLegal(RunBatch(prepared, c.orders).world, c.ids);
    }
  }

  /** The fills of a batch are checked against the market's cap, and nothing else in it adds to open interest. */
  ghost predicate AllChecked(s: Settings, vs: seq<Move>) {
    forall v <- vs :: !v.Open? && !v.Adjust? && (v.Fill? ==> v.cap == Config(s, v.p.market).maxOpenInterest)
  }

  lemma {:induction false} BatchIsChecked(w: World, os: seq<Turn>)
    requires Coherent(w)
    ensures AllChecked(w.settings, RunBatch(w, os).moves)
    decreases |os|
  {
    hide Coherent, OrderDone, OrderVerdict, OrderMoves, Legal, Final;
    if os != [] {
      var p := os[..|os| - 1];
      BatchIsChecked(w, p);
      BatchIsLegal(w, p);
      OrderIsChecked(RunBatch(w, p).world, os[|p|].id, os[|p|].transfers);
    }
  }

  lemma OrderIsChecked(w: World, o: nat, transfers: bool)
    ensures AllChecked(w.settings, OrderMoves(w, o, transfers))
  {
    hide Openable, HasRoom, Lockable, Due;
    OpenableIsListed(w, o);
  }

  lemma {:induction false} RunKeepsCaps(b: Book, s: Settings, vs: seq<Move>)
    requires Capped(b, s) && Legal(b, vs) && AllChecked(s, vs)
    ensures Capped(Final(b, vs), s)
    decreases |vs|
  {
    hide Capped, Enabled, Apply;
    if vs != [] {
      assert vs[0] in vs;
      MoveKeepsCaps(b, s, vs[0]);
      RunKeepsCaps(Apply(b, vs[0]), s, vs[1..]);
    }
  }

  lemma CycleKeepsCaps(w: World, c: Cycle)
    requires Coherent(w) && Capped(w.book, w.settings)
    ensures Damped(w.pools) && Capped(CycleDone(w, c).book, w.settings)
  {
    hide Coherent, Capped, Prepared, RunBatch, RunPass, Legal, Final;
    CoherentIsDamped(w);
    if CycleGoesThrough(w, c) {
      var prepared := Prepared(w, c.markets, c.prices).world;
      PreparedIsValid(w, c.markets, c.prices);
      BatchIsLegal(prepared, c.orders);
      BatchIsChecked(prepared, c.orders);
      var b := RunBatch(prepared, c.orders);
      PassIsLegal(b.world, c.ids);
      RunKeepsCaps(prepared.book, w.settings, b.moves);
      RunKeepsCaps(b.world.book, w.settings, RunPass(b.world, c.ids).moves);
    }
  }

  lemma AddSizeKeepsCaps(w: World, sender: User, id: nat, amount: nat, leverage: nat, locked: bool)
    requires Coherent(w) && Capped(w.book, w.settings)
    ensures var c := AddSize(id, amount, leverage, locked);
            Capped(Done(w, sender, c).book, w.settings) <==> !Uncaps(w, sender, c)
  {
    hide Coherent, Capped, Enabled, Apply, CanAddSize, Accrue, TradeIn;
    if CanAddSize(w, sender, id, amount, leverage, locked) {
      AddSizeIsEnabled(w, sender, id, amount, leverage, locked);
      AddSizeGrows(w, sender, id, amount, leverage, locked);
      AddSizeCaps(w.book, w.settings, id, GrownPosition(w, id, amount, leverage));
    }
  }

  lemma AddSizeGrows(w: World, sender: User, id: nat, amount: nat, leverage: nat, locked: bool)
    requires CanAddSize(w, sender, id, amount, leverage, locked)
    ensures id in w.book.positions
    ensures var p, was := GrownPosition(w, id, amount, leverage), w.book.positions[id];
            p.market == was.market && p.isLong == was.isLong
              && p.size == was.size + AddedSize(w, id, amount, leverage) > was.size
  {
    AddSizeIsEnabled(w, sender, id, amount, leverage, locked);
    hide SettledNow, AddedSize, AfterFee, ToUsd, CalculateAverageEntryPrice, ValidLeverage, Stale;
    SettledNowKeeps(w, id);
  }

  lemma OthersKeepCaps(w: World, sender: User, c: Call)
    requires Coherent(w) && Capped(w.book, w.settings) && !c.ExecuteCycle? && !c.AddSize? && !c.Configure?
    ensures Capped(Done(w, sender, c).book, w.settings) && Done(w, sender, c).settings == w.settings
  {
    hide Coherent, Capped, Done, StepOf, Enabled, Apply, Checked;
    CallReaches(w, sender, c);
    SettingsKept(w, sender, c);
    match StepOf(w, sender, c)
    case None =>
    case Makes(v) =>
      StepIsChecked(w, sender, c);
      OneIsEnabled(w.book, v);
      MoveKeepsCaps(w.book, w.settings, v);
  }

  lemma OneIsEnabled(b: Book, v: Move)
    requires Legal(b, [v])
    ensures Enabled(b, v) && Final(b, [v]) == Apply(b, v)
  {
    OneMove(b, v);
  }

  /** From within the caps, a call leads out of them if and only if it adds a size that does not fit, or is an
      administrator setting a limit below what is open. */
  lemma CallKeepsCaps(w: World, sender: User, c: Call)
    requires Coherent(w) && Capped(w.book, w.settings)
    ensures Capped(Done(w, sender, c).book, Done(w, sender, c).settings) <==> !Uncaps(w, sender, c)
  {
    hide Coherent, Capped, CycleDone, AddSizeDone, CanAddSize, AddedSize;
    match c
    case ExecuteCycle(cycle) =>
      CycleKeepsSettings(w, cycle);
      CycleKeepsCaps(w, cycle);
    case AddSize(id, amount, leverage, locked) =>
      AddSizeKeepsCaps(w, sender, id, amount, leverage, locked);
      SettingsKept(w, sender, c);
    case Configure(s) =>
    case _ => OthersKeepCaps(w, sender, c);
  }

  /** The i-th transaction leads out of the caps. */
  ghost predicate UncapsAt(w: World, txs: seq<Tx>, i: nat)
    requires Coherent(w) && i < |txs|
  {
    Uncaps(Found(History(w, txs[..i]), txs[i]), txs[i].sender, txs[i].call)
  }

  ghost predicate CappedAt(w: World, txs: seq<Tx>, i: nat)
    requires Coherent(w) && i <= |txs|
  {
    Capped(History(w, txs[..i]).book, History(w, txs[..i]).settings)
  }

  lemma TurnKeepsCaps(w: World, txs: seq<Tx>, i: nat)
    requires Coherent(w) && i < |txs| && CappedAt(w, txs, i)
    ensures CappedAt(w, txs, i + 1) <==> !UncapsAt(w, txs, i)
  {
    hide Coherent, Capped, Uncaps, Done;
    assert txs[..i + 1][..i] == txs[..i];
    var at := Found(History(w, txs[..i]), txs[i]);
    CallKeepsCaps(at, txs[i].sender, txs[i].call);
  }

  /** Over any history that starts within the caps, open interest stays within them if and only if no transaction, at
      its turn, adds a size that does not fit or sets a limit below what is open. */
  lemma CapsOverHistories(w: World, txs: seq<Tx>)
    requires Coherent(w) && Capped(w.book, w.settings)
    ensures (forall i: nat :: i <= |txs| ==> CappedAt(w, txs, i)) <==>
            (forall i: nat :: i < |txs| ==> !UncapsAt(w, txs, i))
  {
    hide Coherent, CappedAt, UncapsAt, Capped;
    if forall i: nat :: i < |txs| ==> !UncapsAt(w, txs, i) {
      forall i: nat | i <= |txs| ensures CappedAt(w, txs, i) { CapsUpTo(w, txs, i); }
    }
    if forall i: nat :: i <= |txs| ==> CappedAt(w, txs, i) {
      forall i: nat | i < |txs| ensures !UncapsAt(w, txs, i) { TurnKeepsCaps(w, txs, i); }
    }
  }

  lemma {:induction false} CapsUpTo(w: World, txs: seq<Tx>, n: nat)
    requires Coherent(w) && Capped(w.book, w.settings) && n <= |txs|
    requires forall i: nat :: i < n ==> !UncapsAt(w, txs, i)
    ensures CappedAt(w, txs, n)
  {
    hide Coherent, Capped, CappedAt, UncapsAt;
    if n == 0 {
      StartsCapped(w, txs);
    } else {
      CapsUpTo(w, txs, n - 1);
      TurnKeepsCaps(w, txs, n - 1);
    }
  }

  lemma StartsCapped(w: World, txs: seq<Tx>)
    requires Coherent(w) && Capped(w.book, w.settings)
    ensures CappedAt(w, txs, 0)
  {
    hide Coherent, Capped;
  }
}
