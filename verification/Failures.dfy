/**
 Histories that show what a single entry of a keeper's list can do to a whole cycle, and an addition to a position to
 the cap of its market.  All of them start like the one of OrderTwice.dfy: Bob has a position, Alice's order waits.
 */
module Failures {
  import opened FixedPoint
  import opened LibPosition
  import opened Ids
  import opened Amm
  import opened Twap
  import opened Funding
  import opened Book
  import opened BookRuns
  import opened Settlement
  import opened World
  import opened Keeper
  import opened Trading
  import opened Histories
  import opened HistoryRuns
  import opened Sessions
  import opened OrderTwice

  /** The state is coherent and a history from an empty exchange under LIMITS leads to it. */
  ghost predicate Reached(w: World) {
    Coherent(w) && Coherent(Genesis(LIMITS, 1)) && exists txs: seq<Tx> :: History(Genesis(LIMITS, 1), txs) == w
  }

  lemma LeadsThere(txs: seq<Tx>, w: World)
    requires Leads(txs, w, 0)
    ensures Reached(w)
  {
    hide Coherent, History;
    assert History(Genesis(LIMITS, 1), txs) == w;
  }

  lemma OpenedIsReached()
    ensures Reached(Opened())
  {
    hide Leads, Reached;
    BeforeTheCycle();
    LeadsThere(TXS[..5], Opened());
  }

  // ---------------------------------------------------------------- one entry and the cycle

  /** A cycle that brings no prices and has one order to look at, goes through unless that order is refused. */
  lemma OneOrderCycle(w: World, t: Turn)
    requires Coherent(w)
    ensures Damped(w.pools)
    ensures var c := Cycle([], [], [t], []);
            && (CycleGoesThrough(w, c) <==> !Refused(w, t.id, t.transfers))
            && (Refused(w, t.id, t.transfers) ==> CycleDone(w, c) == w)
  {
    hide Coherent, OrderDone, OrderMoves, OrderVerdict, Refused;
    CoherentIsDamped(w);
    RefusedIsAborted(w, t);
    assert Prepared(w, [], []) == Pushing(true, w);
    assert [t][..0] == [];
    assert RunBatch(w, []) == Batch(true, w, 0, 0, []);
    assert RunBatch(w, [t]) == AfterOrder(w, Batch(true, w, 0, 0, []), t);
  }

  lemma RefusedIsAborted(w: World, t: Turn)
    ensures OrderVerdict(w, t.id, t.transfers).Aborted? <==> Refused(w, t.id, t.transfers)
  {
    hide Refused, CanExecute, CanFillClose, Eligible, Due;
  }

  /** A cycle with nothing but one liquidation goes through unless its reward cannot be transferred. */
  lemma OneLiquidationCycle(w: World, t: Turn)
    requires Coherent(w)
    ensures Damped(w.pools)
    ensures var c := Cycle([], [], [], [t]);
            && (CycleGoesThrough(w, c) <==> !Unrewarded(w, t.id, t.transfers))
            && (Unrewarded(w, t.id, t.transfers) ==> CycleDone(w, c) == w)
  {
    hide Coherent, Unrewarded, Liquidatable;
    CoherentIsDamped(w);
    assert Prepared(w, [], []) == Pushing(true, w);
    assert RunBatch(w, []) == Batch(true, w, 0, 0, []);
    assert [t][..0] == [];
    assert RunPass(w, []) == Pass(true, w, 0, 0, []);
    assert RunPass(w, [t]) == AfterPosition(w, Pass(true, w, 0, 0, []), t);
  }

  // ---------------------------------------------------------------- a lock that is refused

  /** Alice's order takes a cycle down when her collateral is not locked, and does not when it is. */
  lemma LockTakesCycleDown()
    ensures Reached(Opened()) && Damped(Opened().pools)
    ensures !CycleGoesThrough(Opened(), Cycle([], [], [Turn(1, false)], []))
    ensures CycleGoesThrough(Opened(), Cycle([], [], [Turn(1, true)], []))
  {
    OpenedIsReached();
    NoRoom();
    NotLocked();
    hide Refused, CycleGoesThrough, Coherent, History;
    OneOrderCycle(Opened(), Turn(1, false));
    OneOrderCycle(Opened(), Turn(1, true));
  }

  lemma NotLocked()
    ensures Refused(Opened(), 1, false)
  {
  }

  // ---------------------------------------------------------------- a payout that is not made

  const PROFIT := Order(BOB, ETH, true, TakeProfit, W, W, 6000, 0, USDX, 0, true)

  /** Bob has placed a take-profit order on his position. */
  function Protected(): World {
    Opened().(book := Opened().book.(nextOrderId := 2, orders := Opened().book.orders[2 := PROFIT]))
  }

  lemma BobProtects()
    requires Coherent(Opened())
    ensures Done(Opened(), BOB, PlaceTakeProfit(1, W)) == Protected()
  {
    hide Coherent;
    assert CanPlaceClose(Opened(), BOB, 1, W);
  }

  lemma ProtectedIsReached()
    ensures Reached(Protected())
  {
    hide Leads, Reached, Done;
    BeforeTheCycle();
    Next(TXS[..5], Opened(), 0, Tx(BOB, 0, PlaceTakeProfit(1, W)));
    BobProtects();
    LeadsThere(TXS[..5] + [Tx(BOB, 0, PlaceTakeProfit(1, W))], Protected());
  }

  /** The order is due and pays out Bob's collateral. */
  lemma ProfitPaysOut()
    ensures Closable(Protected(), 2) && PaysOut(Protected(), 2)
  {
    SettlesNothing(BOB);
    hide Settled, Accrue;
    assert Closable(Protected(), 2);
    assert SettledFor(Protected(), 2) == Held(BOB);
    assert CalculatePnl(true, 6000, W, W) == 0;
    assert TakerFee(Protected(), USDX, 6000) == 0;
  }

  /** Bob's take-profit order takes a cycle down when its payout is not made, and does not when it is. */
  lemma PayoutTakesCycleDown()
    ensures Reached(Protected()) && Damped(Protected().pools)
    ensures !CycleGoesThrough(Protected(), Cycle([], [], [Turn(2, false)], []))
    ensures CycleGoesThrough(Protected(), Cycle([], [], [Turn(2, true)], []))
  {
    ProtectedIsReached();
    ProfitPaysOut();
    ClosableIsNotOpenable(Protected(), 2);
    hide Closable, PaysOut, Openable, CycleGoesThrough, Coherent, History, Protected;
    OneOrderCycle(Protected(), Turn(2, false));
    OneOrderCycle(Protected(), Turn(2, true));
  }

  lemma ClosableIsNotOpenable(w: World, o: nat)
    requires Closable(w, o)
    ensures !Openable(w, o)
  {
  }

  // ---------------------------------------------------------------- a reward that is not transferred

  /** The price has fallen to a thirtieth. */
  function Fallen(): World {
    Pushed(Opened(), ETH, W / 30)
  }

  lemma PriceFalls()
    requires Coherent(Opened())
    ensures Done(Opened(), BOB, BatchUpdatePrices([ETH], [W / 30])) == Fallen()
  {
    hide Coherent, PushAll, CanPush, Pushed;
    FallIsFree();
    OnePush(Opened(), ETH, W / 30);
    assert CanUpdatePrices(Opened(), [ETH], [W / 30]);
  }

  lemma FallIsFree()
    ensures CanPush(Opened(), ETH, W / 30)
  {
  }

  lemma FallenIsReached()
    ensures Reached(Fallen())
  {
    hide Leads, Reached, Done;
    BeforeTheCycle();
    Next(TXS[..5], Opened(), 0, Tx(BOB, 0, BatchUpdatePrices([ETH], [W / 30])));
    PriceFalls();
    LeadsThere(TXS[..5] + [Tx(BOB, 0, BatchUpdatePrices([ETH], [W / 30]))], Fallen());
  }

  /** Bob has lost 5800 of his 6000: his position is below maintenance, and the reward for closing it is 6. */
  lemma BobIsShort()
    ensures Unrewarded(Fallen(), 1, false) && !Unrewarded(Fallen(), 1, true)
  {
    LossOf5800();
    hide CalculatePnl;
    assert Fallen().book.positions[1] == Held(BOB) && Price(Fallen(), ETH) == W / 30;
    assert CalculateMarginRatio(true, 6000, 6000, W, W / 30) == 333;
    assert Remaining(Held(BOB), W / 30, 18) == 200;
    assert Penalty(200, 500) == 10 && KeeperReward(200, 500) == 6;
  }

  lemma LossOf5800()
    ensures CalculatePnl(true, 6000, W, W / 30) == -5800
  {
    assert DivFpSigned(W / 30 - W, W) == W / 30 - W;
  }

  /** The liquidation of Bob's position takes a cycle down when its reward is not transferred, and does not when it
      is. */
  lemma RewardTakesCycleDown()
    ensures Reached(Fallen()) && Damped(Fallen().pools)
    ensures !CycleGoesThrough(Fallen(), Cycle([], [], [], [Turn(1, false)]))
    ensures CycleGoesThrough(Fallen(), Cycle([], [], [], [Turn(1, true)]))
  {
    FallenIsReached();
    BobIsShort();
    hide Unrewarded, CycleGoesThrough, Coherent, History, Fallen;
    OneLiquidationCycle(Fallen(), Turn(1, false));
    OneLiquidationCycle(Fallen(), Turn(1, true));
  }

  // ---------------------------------------------------------------- an addition beyond the cap

  /** Bob adds 6000 to his 6000 where the cap is 10000: open interest is within the caps before and not after. */
  lemma AdditionPassesTheCap()
    ensures Reached(Opened()) && Capped(Opened().book, LIMITS)
    ensures CanAddSize(Opened(), BOB, 1, 6000, W, true)
    ensures var w' := Done(Opened(), BOB, AddSize(1, 6000, W, true)); !Capped(w'.book, w'.settings)
  {
    OpenedIsReached();
    WithinTheCaps();
    Adds6000();
    hide Capped, Done, Coherent, History, CanAddSize;
    CallKeepsCaps(Opened(), BOB, AddSize(1, 6000, W, true));
  }

  lemma WithinTheCaps()
    ensures Capped(Opened().book, LIMITS)
  {
  }

  lemma Adds6000()
    ensures CanAddSize(Opened(), BOB, 1, 6000, W, true) && Uncaps(Opened(), BOB, AddSize(1, 6000, W, true))
  {
  }
}
