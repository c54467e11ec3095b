/**
 The keeper's cycle as a value: push prices, sync the pools, refresh the funding rates, then execute orders and
 liquidate positions one by one.  Each step sees the state its predecessors left.
 */
module Keeper {
  import opened FixedPoint
  import opened Ids
  import opened Amm
  import opened Twap
  import opened Funding
  import opened Book
  import opened BookRuns
  import opened Settlement
  import opened World

  // ---------------------------------------------------------------- one order

  /** An entry of a keeper's list, and whether the token transfers that its execution asks for succeed: the lock of an
      opening order, the payout of a close order, the reward for a liquidation. */
  datatype Turn = Turn(id: nat, transfers: bool)

  datatype Verdict = Executed | Failed | Waiting | Aborted

  /** A due order that asks for a transfer which fails, and reverts the whole batch with it: an opening order whose
      collateral is not locked, or a close order whose payout is not made. */
  predicate Refused(w: World, o: nat, transfers: bool) {
    || (Openable(w, o) && !Lockable(w, o, transfers))
    || (Closable(w, o) && PaysOut(w, o) && !transfers)
  }

  /** A due opening order with everything but room under the cap: its position is created all the same. */
  predicate Overruns(w: World, o: nat, transfers: bool) {
    Openable(w, o) && Lockable(w, o, transfers) && !HasRoom(w, o)
  }

  /** A due close order whose owner holds some position in the market. */
  predicate Closable(w: World, o: nat) {
    Due(w, o) && !Opens(w.book.orders[o].kind) && HasActive(w.book, w.book.orders[o].user, w.book.orders[o].market)
  }

  function HeldFor(w: World, o: nat): nat
    requires o in w.book.orders
  {
    HeldBy(w.book, w.book.orders[o].user, w.book.orders[o].market)
  }

  /** On this path funding is settled on the indexes as they are, without accruing. */
  function SettledFor(w: World, o: nat): Position
    requires Closable(w, o)
  {
    var p := w.book.positions[HeldFor(w, o)];
    Settled(p, FundingOf(w.funding, p.market), Decimals(w.settings, p.token))
  }

  /** Closing for the order transfers something to its owner's account. */
  predicate PaysOut(w: World, o: nat)
    requires Closable(w, o)
  {
    ClosePayout(w, SettledFor(w, o)) > 0 && SettledFor(w, o).user in w.vaults
  }

  function FillCloseMove(w: World, o: nat): Move
    requires Closable(w, o)
  {
    FillClose(o, Price(w, w.book.orders[o].market), SettledFor(w, o))
  }

  lemma FillCloseIsEnabled(w: World, o: nat)
    requires Closable(w, o)
    ensures Enabled(w.book, FillCloseMove(w, o))
  {
    hide Triggered, Settled;
    var p := w.book.positions[HeldFor(w, o)];
    SettledKeeps(p, FundingOf(w.funding, p.market), Decimals(w.settings, p.token));
  }

  /** A due close order whose payout, if it has one, is made. */
  predicate CanFillClose(w: World, o: nat, transfers: bool) {
    Closable(w, o) && (PaysOut(w, o) ==> transfers)
  }

  function OrderVerdict(w: World, o: nat, transfers: bool): Verdict {
    if Refused(w, o, transfers) then Aborted
    else if CanExecute(w, o, transfers) || CanFillClose(w, o, transfers) then Executed
    else if Eligible(w, o) && !Due(w, o) then Waiting
    else Failed
  }

  /** The moves of one order of a batch: at most one, and one that is not counted exactly when the order overruns the
      cap. */
  function OrderMoves(w: World, o: nat, transfers: bool): seq<Move> {
    if CanExecute(w, o, transfers) then [FillMove(w, o, false)]
    else if Overruns(w, o, transfers) then [UncountedMove(w, o)]
    else if CanFillClose(w, o, transfers) then [FillCloseMove(w, o)]
    else []
  }

  function OrderDone(w: World, o: nat, transfers: bool): World {
    if CanExecute(w, o, transfers) then
      FillIsEnabled(w, o, false);
      FillDone(w, o, false)
    else if Overruns(w, o, transfers) then
      FillIsEnabled(w, o, false);
      Moved(w, UncountedMove(w, o), 0, false)
    else if CanFillClose(w, o, transfers) then
      FillCloseIsEnabled(w, o);
      CloseOrderDone(w, o)
    else w
  }

  function CloseOrderDone(w: World, o: nat): World
    requires Closable(w, o) && Enabled(w.book, FillCloseMove(w, o))
  {
    var p := w.book.positions[HeldFor(w, o)];
    Traded(Moved(w, FillCloseMove(w, o), 0, false), p.market, p.size, p.isLong, false)
  }

  lemma OpenableIsListed(w: World, o: nat)
    ensures Openable(w, o) ==> o in w.book.orders
    ensures Closable(w, o) ==> o in w.book.orders && HeldFor(w, o) in w.book.positions
  {
  }

  lemma OrderIsLegal(w: World, o: nat, transfers: bool)
    requires Coherent(w)
    ensures Coherent(OrderDone(w, o, transfers)) && OrderDone(w, o, transfers).settings == w.settings
            && OrderDone(w, o, transfers).now == w.now
    ensures Legal(w.book, OrderMoves(w, o, transfers))
    ensures OrderDone(w, o, transfers).book == Final(w.book, OrderMoves(w, o, transfers))
  {
    hide Coherent, Enabled, Apply, Openable, HasRoom, Closable, PaysOut, Lockable, FillMove, UncountedMove,
      FillCloseMove, TradeIn;
    NoMoves(w.book);
    OpenableIsListed(w, o);
    if CanExecute(w, o, transfers) {
      FillIsEnabled(w, o, false);
      var v, order := FillMove(w, o, false), w.book.orders[o];
      OneMove(w.book, v);
      MovedIsValid(w, v, order.market, false);
      TradedIsValid(Moved(w, v, order.market, false), order.market, order.size, order.isLong, true);
    } else if Overruns(w, o, transfers) {
      FillIsEnabled(w, o, false);
      OneMove(w.book, UncountedMove(w, o));
      MovedIsValid(w, UncountedMove(w, o), 0, false);
    } else if CanFillClose(w, o, transfers) {
      FillCloseIsEnabled(w, o);
      CloseOrderIsValid(w, o);
      OneMove(w.book, FillCloseMove(w, o));
    }
  }

  lemma CloseOrderIsValid(w: World, o: nat)
    requires Coherent(w) && Closable(w, o) && Enabled(w.book, FillCloseMove(w, o))
    ensures Coherent(CloseOrderDone(w, o))
    ensures CloseOrderDone(w, o).book == Apply(w.book, FillCloseMove(w, o))
            && CloseOrderDone(w, o).settings == w.settings && CloseOrderDone(w, o).now == w.now
  {
    hide Coherent, Enabled, Apply, FillCloseMove, TradeIn;
    var p := w.book.positions[HeldFor(w, o)];
    MovedIsValid(w, FillCloseMove(w, o), 0, false);
    TradedIsValid(Moved(w, FillCloseMove(w, o), 0, false), p.market, p.size, p.isLong, false);
  }

  /** An order of a batch opens a position exactly when it is due, openable and can be locked, room or no room: the
      position it asked for, under the next id, the only one its user then holds in the market.  Only room ends the
      order. */
  lemma OrderOpensExactly(w: World, o: nat, transfers: bool)
    requires Coherent(w)
    ensures OrderDone(w, o, transfers).book.nextPositionId != w.book.nextPositionId <==>
            Openable(w, o) && Lockable(w, o, transfers)
    ensures Openable(w, o) && Lockable(w, o, transfers) ==>
              var b, b', order, id := w.book, OrderDone(w, o, transfers).book, w.book.orders[o],
                w.book.nextPositionId + 1;
              && (forall i: nat :: IsActive(b, i) ==>
                  b.positions[i].user != order.user || b.positions[i].market != order.market)
              && b'.nextPositionId == id && b'.positions == b.positions[id := OrderedPosition(w, order, false)]
              && HeldBy(b', order.user, order.market) == id
              && (OrderActive(b', o) <==> !HasRoom(w, o))
  {
    CoherentIsSound(w);
    OpenableIsListed(w, o);
    if Openable(w, o) && Lockable(w, o, transfers) {
      OpensFree(w, o);
      OrderOpens(w, o, transfers);
    } else {
      OrderOpensNone(w, o, transfers);
    }
    hide *;
  }

  lemma OrderOpens(w: World, o: nat, transfers: bool)
    requires o in w.book.orders && Openable(w, o) && Lockable(w, o, transfers)
    ensures var b, b' := w.book, OrderDone(w, o, transfers).book;
            var order, id := b.orders[o], b.nextPositionId + 1;
            && b'.nextPositionId == id && b'.positions == b.positions[id := OrderedPosition(w, order, false)]
            && HeldBy(b', order.user, order.market) == id
            && (OrderActive(b', o) <==> !HasRoom(w, o))
  {
    FillIsEnabled(w, o, false);
    hide Enabled, Apply, Openable, OrderedPosition, TradeIn, HasRoom, Lockable, HeldBy, OrderActive;
    FillIs(w.book, if HasRoom(w, o) then FillMove(w, o, false) else UncountedMove(w, o));
  }

  lemma OrderOpensNone(w: World, o: nat, transfers: bool)
    requires Openable(w, o) ==> o in w.book.orders && !Lockable(w, o, transfers)
    ensures OrderDone(w, o, transfers).book.nextPositionId == w.book.nextPositionId
  {
    hide Openable, HasRoom, Lockable, Triggered, Settled, PaysOut, TradeIn;
  }

  lemma CoherentIsSound(w: World)
    requires Coherent(w)
    ensures Sound(w.book)
  {
  }

  lemma OpensFree(w: World, o: nat)
    requires Sound(w.book) && Openable(w, o)
    ensures var order := w.book.orders[o];
            forall i: nat :: IsActive(w.book, i) ==>
              w.book.positions[i].user != order.user || w.book.positions[i].market != order.market
  {
    hide Sound, Triggered;
    NetMode(w.book, w.book.orders[o].user, w.book.orders[o].market);
  }

  lemma FillIs(b: Book, v: Move)
    requires Enabled(b, v) && (v.Fill? || v.FillUncounted?)
    ensures var o, b', id := b.orders[v.order], Apply(b, v), b.nextPositionId + 1;
            && b'.nextPositionId == id && b'.positions == b.positions[id := v.p] && HeldBy(b', o.user, o.market) == id
            && (OrderActive(b', v.order) <==> v.FillUncounted?)
  {
  }

  // ---------------------------------------------------------------- a batch of orders

  /** What a batch has come to.  An aborted batch leaves the state it started from. */
  datatype Batch = Batch(done: bool, world: World, executed: nat, failed: nat, moves: seq<Move>)

  function RunBatch(w: World, os: seq<Turn>): Batch {
    if os == [] then Batch(true, w, 0, 0, [])
    else
      var b, o := RunBatch(w, os[..|os| - 1]), os[|os| - 1];
      if !b.done then b else AfterOrder(w, b, o)
  }

  function AfterOrder(w: World, b: Batch, o: Turn): Batch {
    var v := OrderVerdict(b.world, o.id, o.transfers);
    if v.Aborted? then Batch(false, w, 0, 0, [])
    else
      Batch(true, OrderDone(b.world, o.id, o.transfers),
            b.executed + if v.Executed? then 1 else 0, b.failed + if v.Failed? then 1 else 0,
            b.moves + OrderMoves(b.world, o.id, o.transfers))
  }

  /** The state in which the i-th order of a batch is looked at. */
  function AtTurn(w: World, os: seq<Turn>, i: nat): World
    requires i <= |os|
  {
    RunBatch(w, os[..i]).world
  }

  /** A batch goes through if and only if no order on the list, at its turn, is due and asks for a transfer that
      fails. */
  lemma {:induction false} BatchGoesThrough(w: World, os: seq<Turn>)
    ensures RunBatch(w, os).done <==> forall i :: 0 <= i < |os| ==>
            !Refused(AtTurn(w, os, i), os[i].id, os[i].transfers)
    decreases |os|
  {
    hide Refused, OrderDone, OrderMoves, CanExecute, CanFillClose, Closable;
    if os != [] {
      var p := os[..|os| - 1];
      BatchGoesThrough(w, p);
      forall i | 0 <= i < |p| ensures os[..i] == p[..i] && os[i] == p[i] {}
      assert os[..|os| - 1] == p;
      LastOrder(w, os);
      if RunBatch(w, os).done {
        forall i | 0 <= i < |os| ensures !Refused(AtTurn(w, os, i), os[i].id, os[i].transfers) {
          if i < |p| { assert AtTurn(w, p, i) == AtTurn(w, os, i); }
        }
      } else if RunBatch(w, p).done {
        assert Refused(AtTurn(w, os, |p|), os[|p|].id, os[|p|].transfers);
      } else {
        var i :| 0 <= i < |p| && Refused(AtTurn(w, p, i), p[i].id, p[i].transfers);
        assert Refused(AtTurn(w, os, i), os[i].id, os[i].transfers);
      }
    }
  }

  lemma LastOrder(w: World, os: seq<Turn>)
    requires os != []
    ensures var b := RunBatch(w, os[..|os| - 1]);
            RunBatch(w, os).done <==> b.done && !Refused(b.world, os[|os| - 1].id, os[|os| - 1].transfers)
  {
    hide Refused, OrderDone, OrderMoves, CanExecute, CanFillClose, Closable;
  }

  /** A batch is a legal run of moves from the state it started from. */
  lemma {:induction false} BatchIsLegal(w: World, os: seq<Turn>)
    requires Coherent(w)
    ensures var b := RunBatch(w, os);
            && Coherent(b.world) && Legal(w.book, b.moves) && b.world.book == Final(w.book, b.moves)
            && b.world.settings == w.settings && b.world.now == w.now && (!b.done ==> b.world == w && b.moves == [])
    decreases |os|
  {
    hide Coherent, Legal, Final, OrderDone, OrderMoves, OrderVerdict;
    NoMoves(w.book);
    if os != [] {
      var b, o := RunBatch(w, os[..|os| - 1]), os[|os| - 1];
      BatchIsLegal(w, os[..|os| - 1]);
      OrderIsLegal(b.world, o.id, o.transfers);
      RunsJoin(w.book, b.moves, OrderMoves(b.world, o.id, o.transfers));
    }
  }

  /** Some order of the list, at its turn, overruns the cap. */
  ghost predicate BatchOverruns(w: World, os: seq<Turn>) {
    exists i :: 0 <= i < |os| && Overruns(AtTurn(w, os, i), os[i].id, os[i].transfers)
  }

  lemma OverrunsSnoc(w: World, os: seq<Turn>)
    requires os != []
    ensures BatchOverruns(w, os) <==>
            || BatchOverruns(w, os[..|os| - 1])
            || Overruns(RunBatch(w, os[..|os| - 1]).world, os[|os| - 1].id, os[|os| - 1].transfers)
  {
    hide Overruns, RunBatch;
    var p := os[..|os| - 1];
    forall i | 0 <= i < |p| ensures AtTurn(w, os, i) == AtTurn(w, p, i) && os[i] == p[i] {
      assert os[..i] == p[..i];
    }
    assert AtTurn(w, os, |p|) == RunBatch(w, p).world;
    if i :| 0 <= i < |os| && Overruns(AtTurn(w, os, i), os[i].id, os[i].transfers) {
      if i < |p| { assert Overruns(AtTurn(w, p, i), p[i].id, p[i].transfers); }
    }
    if i :| 0 <= i < |p| && Overruns(AtTurn(w, p, i), p[i].id, p[i].transfers) {
      assert Overruns(AtTurn(w, os, i), os[i].id, os[i].transfers);
    }
  }

  /** A batch that goes through leaves a fill uncounted exactly when some order, at its turn, overruns the cap. */
  lemma {:induction false} BatchCounts(w: World, os: seq<Turn>)
    ensures RunBatch(w, os).done ==>
              ((exists v <- RunBatch(w, os).moves :: v.FillUncounted?) <==> BatchOverruns(w, os))
    decreases |os|
  {
    hide Overruns, OrderDone, OrderVerdict, OrderMoves, BatchOverruns;
    if os == [] {
      NoOverrun(w);
    } else if RunBatch(w, os).done {
      var p, b := os[..|os| - 1], RunBatch(w, os[..|os| - 1]);
      BatchCounts(w, p);
      OverrunsSnoc(w, os);
      OrderCounts(b.world, os[|p|].id, os[|p|].transfers);
      assert RunBatch(w, os).moves == b.moves + OrderMoves(b.world, os[|p|].id, os[|p|].transfers);
    }
  }

  lemma NoOverrun(w: World)
    ensures !BatchOverruns(w, [])
  {
  }

  lemma OrderCounts(w: World, o: nat, transfers: bool)
    ensures (exists v <- OrderMoves(w, o, transfers) :: v.FillUncounted?) <==> Overruns(w, o, transfers)
  {
    hide Openable, HasRoom, Lockable, Due;
    if Overruns(w, o, transfers) { assert OrderMoves(w, o, transfers)[0].FillUncounted?; }
  }

  /** How often a batch finds an order beyond the cap: its turns at which it overruns. */
  function OverrunsOf(w: World, os: seq<Turn>, o: nat): nat {
    if os == [] then 0
    else
      OverrunsOf(w, os[..|os| - 1], o) +
      One(os[|os| - 1].id == o && Overruns(RunBatch(w, os[..|os| - 1]).world, o, os[|os| - 1].transfers))
  }

  lemma {:induction false} BatchUncounted(w: World, os: seq<Turn>, o: nat)
    ensures RunBatch(w, os).done ==>
              UncountedFills(RunBatch(w, os).moves, o) == OverrunsOf(w, os, o)
    decreases |os|
  {
    hide Overruns, OrderDone, OrderVerdict, OrderMoves;
    if os != [] && RunBatch(w, os).done {
      var p, b, last := os[..|os| - 1], RunBatch(w, os[..|os| - 1]), os[|os| - 1];
      BatchUncounted(w, p, o);
      UncountedJoin(b.moves, OrderMoves(b.world, last.id, last.transfers), o);
      OrderUncounted(b.world, last.id, last.transfers, o);
    }
  }

  lemma OrderUncounted(w: World, last: nat, transfers: bool, o: nat)
    ensures UncountedFills(OrderMoves(w, last, transfers), o) == One(last == o && Overruns(w, o, transfers))
  {
    hide Openable, HasRoom, Lockable, Due;
    var vs := OrderMoves(w, last, transfers);
    if vs != [] { assert vs[1..] == []; }
  }

  // ---------------------------------------------------------------- a pass of liquidations

  /** Liquidatable as recorded: the pass does not settle funding. */
  predicate Liquidatable(w: World, id: nat) {
    && IsActive(w.book, id)
    && var p := w.book.positions[id];
       RecordedBelowMaintenance(p, Price(w, p.market), Config(w.settings, p.market).maintenanceBps)
  }

  /** A liquidatable position whose liquidation asks for a reward that cannot be transferred: it reverts the whole
      cycle. */
  predicate Unrewarded(w: World, id: nat, transfers: bool) {
    && Liquidatable(w, id) && !transfers
    && var p := w.book.positions[id];
       Rewards(w, Remaining(p, Price(w, p.market), Decimals(w.settings, p.token)))
  }

  /** What a pass has come to.  An aborted one leaves the state it started from. */
  datatype Pass = Pass(done: bool, world: World, executed: nat, failed: nat, moves: seq<Move>)

  function RecordedShut(w: World, id: nat): Move
    requires id in w.book.positions
  {
    Shut(id, w.book.positions[id])
  }

  function RunPass(w: World, ids: seq<Turn>): Pass {
    if ids == [] then Pass(true, w, 0, 0, [])
    else
      var a := RunPass(w, ids[..|ids| - 1]);
      if !a.done then a else AfterPosition(w, a, ids[|ids| - 1])
  }

  function AfterPosition(w: World, a: Pass, t: Turn): Pass {
    if Unrewarded(a.world, t.id, t.transfers) then Pass(false, w, 0, 0, [])
    else if Liquidatable(a.world, t.id) then
      Pass(true, Moved(a.world, RecordedShut(a.world, t.id), 0, false), a.executed + 1, a.failed,
           a.moves + [RecordedShut(a.world, t.id)])
    else a.(failed := a.failed + 1)
  }

  lemma {:induction false} PassIsLegal(w: World, ids: seq<Turn>)
    requires Coherent(w)
    ensures var a := RunPass(w, ids);
            && Coherent(a.world) && Legal(w.book, a.moves) && a.world.book == Final(w.book, a.moves)
            && a.world.settings == w.settings && a.world.now == w.now
            && |a.moves| == a.executed && (forall v <- a.moves :: v.Shut?)
            && if a.done then a.executed + a.failed == |ids| else a == Pass(false, w, 0, 0, [])
    decreases |ids|
  {
    hide Coherent, Legal, Final, Liquidatable, Unrewarded;
    NoMoves(w.book);
    if ids != [] {
      var a, id := RunPass(w, ids[..|ids| - 1]), ids[|ids| - 1].id;
      PassIsLegal(w, ids[..|ids| - 1]);
      if Liquidatable(a.world, id) {
        ShutIsEnabled(a.world, id);
        MovedIsValid(a.world, RecordedShut(a.world, id), 0, false);
        OneMove(a.world.book, RecordedShut(a.world, id));
        RunsJoin(w.book, a.moves, [RecordedShut(a.world, id)]);
      }
    }
  }

  lemma ShutIsEnabled(w: World, id: nat)
    requires Liquidatable(w, id)
    ensures Enabled(w.book, RecordedShut(w, id))
  {
    hide RecordedBelowMaintenance;
  }

  ghost predicate Listed(ids: seq<Turn>, id: nat) {
    exists t <- ids :: t.id == id
  }

  lemma ListedSnoc(ids: seq<Turn>, id: nat)
    requires ids != []
    ensures Listed(ids, id) <==> Listed(ids[..|ids| - 1], id) || ids[|ids| - 1].id == id
  {
    assert ids == ids[..|ids| - 1] + [ids[|ids| - 1]];
    assert ids[|ids| - 1] in ids;
  }

  /** The pass, if it is not undone, closes exactly the listed positions that are liquidatable as recorded, and touches
      no other record. */
  lemma {:induction false} PassLiquidates(w: World, ids: seq<Turn>, id: nat)
    ensures RunPass(w, ids).world == w.(book := RunPass(w, ids).world.book)
    ensures !RunPass(w, ids).done ==> RunPass(w, ids).world == w
    ensures id in RunPass(w, ids).world.book.positions <==> id in w.book.positions
    ensures RunPass(w, ids).done && id in w.book.positions ==>
              RunPass(w, ids).world.book.positions[id] ==
              if Listed(ids, id) && Liquidatable(w, id) then w.book.positions[id].(active := false)
                else w.book.positions[id]
    decreases |ids|
  {
    hide Liquidatable, Unrewarded, Listed;
    if ids == [] {
      NoneListed(id);
    } else {
      var p, last := ids[..|ids| - 1], ids[|ids| - 1].id;
      ListedSnoc(ids, id);
      PassLiquidates(w, p, id);
      PassLiquidates(w, p, last);
      StillLiquidatable(w, RunPass(w, p).world, last);
      ShutTouchesOne(RunPass(w, p).world, last, id);
    }
  }

  lemma NoneListed(id: nat)
    ensures !Listed([], id)
  {
  }

  /** Whether a position is liquidatable, and its liquidation rewarded, depends on its record, the price and the
      settings. */
  lemma StillLiquidatable(w: World, w': World, id: nat)
    requires w' == w.(book := w'.book)
    requires id in w'.book.positions <==> id in w.book.positions
    ensures id in w.book.positions && w'.book.positions[id] == w.book.positions[id] ==>
              && (Liquidatable(w', id) <==> Liquidatable(w, id))
              && forall transfers: bool :: Unrewarded(w', id, transfers) == Unrewarded(w, id, transfers)
    ensures id in w.book.positions && w'.book.positions[id] == w.book.positions[id].(active := false) ==>
            !Liquidatable(w', id)
    ensures id !in w.book.positions ==> !Liquidatable(w', id)
  {
    hide RecordedBelowMaintenance, Remaining;
  }

  lemma ShutTouchesOne(w: World, last: nat, id: nat)
    ensures Liquidatable(w, last) ==>
              && last in w.book.positions
              && var w' := Moved(w, RecordedShut(w, last), 0, false);
                 && w' == w.(book := w'.book) && w'.book.positions.Keys == w.book.positions.Keys
                 && (id in w.book.positions ==>
                      w'.book.positions[id] ==
                      if id == last then w.book.positions[id].(active := false) else w.book.positions[id])
  {
    hide RecordedBelowMaintenance;
  }

  /** None of the listed positions is left liquidatable. */
  lemma PassLeavesNone(w: World, ids: seq<Turn>, id: nat)
    requires Listed(ids, id) && RunPass(w, ids).done
    ensures !Liquidatable(RunPass(w, ids).world, id)
  {
    hide RecordedBelowMaintenance;
    PassLiquidates(w, ids, id);
  }

  /** The first entry for its position is one that the pass cannot make. */
  ghost predicate FailsAt(w: World, ids: seq<Turn>, i: nat)
    requires i < |ids|
  {
    !Listed(ids[..i], ids[i].id) && Unrewarded(w, ids[i].id, ids[i].transfers)
  }

  /** A pass goes through if and only if no entry that is the first for its position asks, in the state before the pass,
      for a reward that cannot be transferred. */
  lemma {:induction false} PassGoesThrough(w: World, ids: seq<Turn>)
    ensures RunPass(w, ids).done <==> forall i: nat :: i < |ids| ==> !FailsAt(w, ids, i)
    decreases |ids|
  {
    hide Liquidatable, Unrewarded, Listed, FailsAt;
    if ids != [] {
      var n := |ids| - 1;
      var p := ids[..n];
      PassGoesThrough(w, p);
      LastOfPass(w, ids);
      forall i: nat | i < n ensures FailsAt(w, ids, i) == FailsAt(w, p, i) { SameTurnOfPass(w, ids, i); }
    }
  }

  lemma SameTurnOfPass(w: World, ids: seq<Turn>, i: nat)
    requires i < |ids| - 1
    ensures FailsAt(w, ids, i) == FailsAt(w, ids[..|ids| - 1], i)
  {
    hide Listed, Unrewarded;
    assert ids[..|ids| - 1][..i] == ids[..i];
  }

  lemma LastOfPass(w: World, ids: seq<Turn>)
    requires ids != []
    ensures RunPass(w, ids).done <==> RunPass(w, ids[..|ids| - 1]).done && !FailsAt(w, ids, |ids| - 1)
  {
    var p, last := ids[..|ids| - 1], ids[|ids| - 1];
    UnrewardedIsLiquidatable(w, last);
    UnrewardedIsLiquidatable(RunPass(w, p).world, last);
    hide Liquidatable, Unrewarded, Listed;
    PassLiquidates(w, p, last.id);
    StillLiquidatable(w, RunPass(w, p).world, last.id);
  }

  lemma UnrewardedIsLiquidatable(w: World, t: Turn)
    ensures Unrewarded(w, t.id, t.transfers) ==> Liquidatable(w, t.id) && t.id in w.book.positions
  {
    hide RecordedBelowMaintenance, Remaining;
  }

  // ---------------------------------------------------------------- prices, pools, funding rates

  /** A positive price that does not move further from the last one than the limit allows. */
  predicate CanPush(w: World, m: Market, price: nat) {
    && price > 0
    && var last := Price(w, m);
       last == 0 || w.settings.maxDeviationBps == 0 || Abs(price - last) * BPS / last <= w.settings.maxDeviationBps
  }

  function Pushed(w: World, m: Market, price: nat): World {
    w.(prices := w.prices[m := price], times := w.times[m := w.now],
       history := w.history[m := HistoryOf(w, m) + [PricePoint(price, w.now)]])
  }

  /** What prices, pools and funding rates have nothing to do with. */
  predicate SameBooks(w: World, w': World) {
    w'.book == w.book && w'.settings == w.settings && w'.vaults == w.vaults && w'.now == w.now
  }

  datatype Pushing = Pushing(done: bool, world: World)

  function PushAll(w: World, ms: seq<Market>, prices: seq<nat>): Pushing
    requires |ms| == |prices|
    ensures PushAll(w, ms, prices).world.pools == w.pools
  {
    if ms == [] then Pushing(true, w)
    else
      var n := |ms| - 1;
      var b := PushAll(w, ms[..n], prices[..n]);
      if !b.done then b
      else if CanPush(b.world, ms[n], prices[n]) then Pushing(true, Pushed(b.world, ms[n], prices[n]))
      else Pushing(false, w)
  }

  lemma {:induction false} PushAllIsValid(w: World, ms: seq<Market>, prices: seq<nat>)
    requires Coherent(w) && |ms| == |prices|
    ensures Coherent(PushAll(w, ms, prices).world) && SameBooks(w, PushAll(w, ms, prices).world)
    ensures !PushAll(w, ms, prices).done ==> PushAll(w, ms, prices).world == w
    decreases |ms|
  {
    hide Coherent, CanPush, Pushed;
    if ms != [] {
      var n := |ms| - 1;
      PushAllIsValid(w, ms[..n], prices[..n]);
      PushIsValid(PushAll(w, ms[..n], prices[..n]).world, ms[n], prices[n]);
    }
  }

  lemma PushIsValid(w: World, m: Market, price: nat)
    requires Coherent(w)
    ensures Coherent(Pushed(w, m, price)) && SameBooks(w, Pushed(w, m, price))
  {
    hide Sound, Under, Damped;
    if m in w.history { HistoryGrows(w.history[m], price, w.now); }
  }

  lemma HistoryGrows(h: seq<PricePoint>, price: nat, now: nat)
    requires Chronological(h, now)
    ensures Chronological(h + [PricePoint(price, now)], now)
  {
  }

  function Synced(w: World, ms: seq<Market>): World
    requires Damped(w.pools)
  {
    w.(pools := SyncAll(w.pools, w.prices, ms, w.now))
  }

  lemma SyncedIsValid(w: World, ms: seq<Market>)
    requires Coherent(w)
    ensures Coherent(Synced(w, ms)) && SameBooks(w, Synced(w, ms))
  {
    hide Sound, Under, Damped, Chronological;
  }

  /** The rate for an index price: from the pool's mark price, or none without a pool, and the present open interest. */
  function RateAt(w: World, m: Market, index: nat): int
    requires index > 0
  {
    var p, oi := PoolOf(w.pools, m), Interest(w.book, m);
    FundingRate(if p.base > 0 then MarkPrice(p) else index, index, oi.long, oi.short, w.settings.maxFundingRate)
  }

  /** The market's funding, accrued at the old rate and given the new one; without an index price the old rate stays. */
  function RefreshedFunding(w: World, m: Market): FundingState {
    var accrued, index := Accrue(FundingOf(w.funding, m), w.now), MeanPrice(HistoryOf(w, m), TWAP_WINDOW, w.now);
    if index == 0 then accrued else accrued.(rate := RateAt(w, m, index))
  }

  function Refreshed(w: World, m: Market): World {
    w.(funding := w.funding[m := RefreshedFunding(w, m)])
  }

  function RefreshAll(w: World, ms: seq<Market>): World {
    if ms == [] then w else Refreshed(RefreshAll(w, ms[..|ms| - 1]), ms[|ms| - 1])
  }

  lemma {:induction false} RefreshAllIsValid(w: World, ms: seq<Market>)
    requires Coherent(w)
    ensures Coherent(RefreshAll(w, ms)) && SameBooks(w, RefreshAll(w, ms))
    decreases |ms|
  {
    hide Coherent, Refreshed;
    if ms != [] {
      RefreshAllIsValid(w, ms[..|ms| - 1]);
      RefreshIsValid(RefreshAll(w, ms[..|ms| - 1]), ms[|ms| - 1]);
    }
  }

  lemma RefreshIsValid(w: World, m: Market)
    requires Coherent(w)
    ensures Coherent(Refreshed(w, m)) && SameBooks(w, Refreshed(w, m))
  {
    hide Sound, Under, Damped, Chronological, RateAt, MeanPrice;
  }

  // ---------------------------------------------------------------- the cycle

  /** Everything a cycle is given. */
  datatype Cycle = Cycle(markets: seq<Market>, prices: seq<nat>, orders: seq<Turn>, ids: seq<Turn>)

  /** The state in which a cycle's orders are looked at, if the prices are accepted. */
  function Prepared(w: World, ms: seq<Market>, prices: seq<nat>): Pushing
    requires Damped(w.pools)
  {
    if |ms| != |prices| then Pushing(false, w)
    else
      var pushed := PushAll(w, ms, prices);
      if !pushed.done then Pushing(false, w) else Pushing(true, RefreshAll(Synced(pushed.world, ms), ms))
  }

  predicate CycleGoesThrough(w: World, c: Cycle)
    requires Damped(w.pools)
  {
    && Prepared(w, c.markets, c.prices).done
    && var b := RunBatch(Prepared(w, c.markets, c.prices).world, c.orders);
       b.done && RunPass(b.world, c.ids).done
  }

  function CycleDone(w: World, c: Cycle): World
    requires Damped(w.pools)
  {
    if !CycleGoesThrough(w, c) then w
    else RunPass(RunBatch(Prepared(w, c.markets, c.prices).world, c.orders).world, c.ids).world
  }

  function CycleMoves(w: World, c: Cycle): seq<Move>
    requires Damped(w.pools)
  {
    if !CycleGoesThrough(w, c) then []
    else
      var b := RunBatch(Prepared(w, c.markets, c.prices).world, c.orders);
      b.moves + RunPass(b.world, c.ids).moves
  }

  lemma PreparedIsValid(w: World, ms: seq<Market>, prices: seq<nat>)
    requires Coherent(w)
    ensures Coherent(Prepared(w, ms, prices).world) && SameBooks(w, Prepared(w, ms, prices).world)
  {
    hide Coherent, PushAll, RefreshAll, Synced;
    CoherentIsDamped(w);
    if |ms| == |prices| {
      PushAllIsValid(w, ms, prices);
      var pushed := PushAll(w, ms, prices);
      if pushed.done {
        SyncedIsValid(pushed.world, ms);
        RefreshAllIsValid(Synced(pushed.world, ms), ms);
      }
    }
  }

  lemma CoherentIsDamped(w: World)
    requires Coherent(w)
    ensures Damped(w.pools)
  {
  }

  lemma CycleIsLegal(w: World, c: Cycle)
    requires Coherent(w)
    ensures Coherent(CycleDone(w, c)) && Legal(w.book, CycleMoves(w, c))
    ensures CycleDone(w, c).book == Final(w.book, CycleMoves(w, c))
  {
    hide Coherent, Legal, Final, RunBatch, RunPass, Prepared;
    NoMoves(w.book);
    CoherentIsDamped(w);
    if CycleGoesThrough(w, c) {
      var prepared := Prepared(w, c.markets, c.prices).world;
      var b := RunBatch(prepared, c.orders);
      PreparedIsValid(w, c.markets, c.prices);
      BatchIsLegal(prepared, c.orders);
      PassIsLegal(b.world, c.ids);
      RunsJoin(w.book, b.moves, RunPass(b.world, c.ids).moves);
    }
  }
}
