/**
 One order, two positions: a history under one setting of the limits in which a keeper's cycle finds an order beyond the
 cap, creates its position and leaves the order active, and a later cycle fills the order again.
 */
module OrderTwice {
  import opened FixedPoint
  import opened Ids
  import opened Amm
  import opened Twap
  import opened Funding
  import opened Book
  import opened BookRuns
  import opened Settlement
  import opened World
  import opened Keeper
  import opened Trading
  import opened Histories
  import opened HistoryRuns
  import opened Sessions

  const ALICE: User := 1
  const BOB: User := 2
  const ETH: Market := 1
  const USDX: Token := 1

  /** One market with room for 10000, a token of 18 decimals, no fees but the one of a liquidation. */
  const LIMITS := Settings(false, {}, map[ETH := MarketConfig(true, 10 * W, 500, 10000)], {USDX}, map[USDX := 18], 0, 0,
                           0, 0, 0, 500, 0, 0)

  /** Alice orders 6000; Bob's own 6000 leave no room for them when the first cycle comes; both close; the second cycle
      comes. */
  const TXS := [
    Tx(ALICE, 0, CreateVault),
    Tx(BOB, 0, CreateVault),
    Tx(BOB, 0, BatchUpdatePrices([ETH], [W])),
    Tx(ALICE, 0, PlaceLimitOrder(ETH, true, W, 6000, W, USDX, 6000)),
    Tx(BOB, 0, OpenPosition(ETH, USDX, 6000, W, true, true)),
    CYCLE,
    Tx(BOB, 0, ClosePosition(1, true)),
    Tx(ALICE, 0, ClosePosition(2, true)),
    CYCLE]

  const CYCLE := Tx(BOB, 0, ExecuteCycle(Cycle([], [], [Turn(1, true)], [])))

  // ---------------------------------------------------------------- the states in between

  const ORDER := Order(ALICE, ETH, true, Limit, W, W, 6000, W, USDX, 6000, true)

  function Held(u: User): Position {
    Position(u, ETH, true, 6000, 6000, USDX, 6000, W, 0, true)
  }

  function At(b: Book, funding: map<Market, FundingState>): World {
    World(b, funding, map[], map[ETH := [PricePoint(W, 1)]], map[ETH := W], map[ETH := 1], {ALICE, BOB}, LIMITS, 1)
  }

  function Priced(): World {
    At(EMPTY, map[])
  }

  function Ordered(): World {
    Priced().(book := EMPTY.(nextOrderId := 1, orders := EMPTY.orders[1 := ORDER]))
  }

  function Opened(): World {
    Ordered().(book := Ordered().book.(nextPositionId := 1, positions := Ordered().book.positions[1 := Held(BOB)],
                                   held := Ordered().book.held[(BOB, ETH) := 1],
                                   interest := Ordered().book.interest[ETH := OpenInterest(6000, 0)]),
             funding := Ordered().funding[ETH := FundingState(0, 0, 1, 0)])
  }

  /** Two positions of 6000 each, and 6000 counted. */
  function Overrun(): World {
    Opened().(book := Opened().book.(nextPositionId := 2, positions := Opened().book.positions[2 := Held(ALICE)],
                                 held := Opened().book.held[(ALICE, ETH) := 2]))
  }

  function BobClosed(): World {
    Overrun().(book := Overrun().book.(positions := Overrun().book.positions[1 := Held(BOB).(active := false)],
                                   held := Overrun().book.held[(BOB, ETH) := 0],
                                   interest := Overrun().book.interest[ETH := OpenInterest(0, 0)]),
             funding := Overrun().funding[ETH := FundingState(0, 0, 1, 0)])
  }

  function BothClosed(): World {
    BobClosed().(book := BobClosed().book.(positions := BobClosed().book.positions[2 := Held(ALICE).(active := false)],
                                 held := BobClosed().book.held[(ALICE, ETH) := 0],
                                 interest := BobClosed().book.interest[ETH := OpenInterest(0, 0)]),
            funding := BobClosed().funding[ETH := FundingState(0, 0, 1, 0)])
  }

  function Refilled(): World {
    BothClosed().(book := BothClosed().book.(nextPositionId := 3,
                                             positions := BothClosed().book.positions[3 := Held(ALICE)],
                                   held := BothClosed().book.held[(ALICE, ETH) := 3],
                                   interest := BothClosed().book.interest[ETH := OpenInterest(6000, 0)],
                                   orders := BothClosed().book.orders[1 := ORDER.(active := false)]))
  }

  lemma PricesCome(w: World)
    requires Coherent(w) && w == Genesis(LIMITS, 1).(vaults := {ALICE, BOB})
    ensures Done(w, BOB, BatchUpdatePrices([ETH], [W])) == Priced()
  {
    hide Coherent, PushAll, CanPush;
    PriceIsFree(w);
    OnePush(w, ETH, W);
    assert [] + [PricePoint(W, 1)] == [PricePoint(W, 1)];
    assert Pushed(w, ETH, W) == Priced();
    assert CanUpdatePrices(w, [ETH], [W]);
  }

  lemma PriceIsFree(w: World)
    requires w.settings == LIMITS
    ensures CanPush(w, ETH, W)
  {
  }

  lemma OnePush(w: World, m: Market, price: nat)
    requires CanPush(w, m, price)
    ensures PushAll(w, [m], [price]) == Pushing(true, Pushed(w, m, price))
  {
    hide CanPush, Pushed;
    assert [m][..0] == [] && [price][..0] == [];
    assert PushAll(w, [], []) == Pushing(true, w);
  }

  lemma OrderIsPlaced()
    requires Coherent(Priced())
    ensures Done(Priced(), ALICE, PlaceLimitOrder(ETH, true, W, 6000, W, USDX, 6000)) == Ordered()
  {
    hide Coherent;
  }

  lemma BobMayOpen()
    ensures CanOpen(Ordered(), BOB, ETH, USDX, 6000, W, true, true)
  {
    BobPays();
    hide OpenedPosition, ExecutionPrice;
  }

  /** The position Bob opens: nothing is taken from the collateral, and without a pool the price is the oracle's. */
  lemma BobPays()
    ensures OpenedPosition(Ordered(), BOB, ETH, USDX, 6000, W, true) == Held(BOB)
  {
    assert Accrue(FundingState(0, 0, 0, 0), 1) == FundingState(0, 0, 1, 0);
  }

  lemma BobOpens()
    requires Coherent(Ordered())
    ensures Done(Ordered(), BOB, OpenPosition(ETH, USDX, 6000, W, true, true)) == Opened()
  {
    BobMayOpen();
    hide Coherent, CanOpen, OpenDone, Enabled;
    OpenIsEnabled(Ordered(), BOB, ETH, USDX, 6000, W, true, true);
    BobLeaves();
  }

  lemma BobLeaves()
    requires Enabled(Ordered().book, OpenMove(Ordered(), BOB, ETH, USDX, 6000, W, true))
    ensures OpenDone(Ordered(), BOB, ETH, USDX, 6000, W, true) == Opened()
  {
    BobPays();
    NoTrade(Ordered().pools, 6000);
    hide OpenedPosition, Enabled, Apply, TradeIn, OpeningSize;
    OpenApplies(Ordered().book, 10000, Held(BOB));
    assert OpeningSize(LIMITS, USDX, 6000, W) == 6000 by { SizeIs(); }
  }

  lemma SizeIs()
    ensures OpeningSize(LIMITS, USDX, 6000, W) == 6000
  {
  }

  lemma NoTrade(pools: map<Market, Pool>, size: nat)
    requires pools == map[]
    ensures TradeIn(pools, ETH, size, true, true) == pools
  {
  }

  /** A cycle that brings no prices and has one order to look at. */
  lemma OneOrder(w: World)
    requires Coherent(w) && !Refused(w, 1, true)
    ensures Damped(w.pools)
    ensures var c := Cycle([], [], [Turn(1, true)], []);
            && CycleGoesThrough(w, c) && CycleDone(w, c) == OrderDone(w, 1, true)
               && CycleMoves(w, c) == OrderMoves(w, 1, true)
  {
    hide Coherent, OrderDone, OrderMoves, Refused, CanExecute, Closable, Due;
    CoherentIsDamped(w);
    assert Prepared(w, [], []) == Pushing(true, w);
    assert [Turn(1, true)][..0] == [];
    assert RunBatch(w, []) == Batch(true, w, 0, 0, []);
    assert RunBatch(w, [Turn(1, true)]) == AfterOrder(w, Batch(true, w, 0, 0, []), Turn(1, true));
  }

  /** Nothing has been charged on the market's indexes yet. */
  lemma SettlesNothing(u: User)
    ensures var fs := FundingState(0, 0, 1, 0);
            Accrue(fs, 1) == fs && Settled(Held(u), fs, 18) == Held(u) && Index(fs, true) == 0
  {
    hide Settled;
    NothingDue(Held(u), FundingState(0, 0, 1, 0), 18);
  }

  lemma NothingDue(p: Position, fs: FundingState, decimals: nat)
    requires p.index == Index(fs, p.isLong)
    ensures Settled(p, fs, decimals) == p
  {
    hide UsdToTokens;
    assert p.size * 0 == 0;
  }

  /** The order as a position: nothing is taken from the collateral. */
  lemma OrderBecomes(w: World)
    requires w.settings == LIMITS && w.prices == map[ETH := W]
    ensures FilledPosition(w, ORDER, FundingState(0, 0, 1, 0)) == Held(ALICE)
  {
  }

  lemma NoRoom()
    ensures Overruns(Opened(), 1, true) && !Refused(Opened(), 1, true)
  {
  }

  lemma Room()
    ensures CanExecute(BothClosed(), 1, true) && !Refused(BothClosed(), 1, true)
  {
  }

  /** 6000 open and 6000 ordered: 2000 too many, and still Alice holds a position afterwards, with her order active. */
  lemma OrderOverruns()
    requires Coherent(Opened())
    ensures Done(Opened(), BOB, CYCLE.call) == Overrun()
    ensures PositionsFrom(MovesOf(Opened(), BOB, CYCLE.call), 1) == 1
  {
    NoRoom();
    OrderBecomes(Opened());
    hide Coherent, CycleDone, CycleMoves, Overruns, Refused, OrderDone, FilledPosition, UncountedMove;
    OneOrder(Opened());
    KeeperOverrunFields(Opened(), 1, true);
    OverrunOpensOne(Opened());
  }

  lemma OverrunOpensOne(w: World)
    requires Overruns(w, 1, true)
    ensures PositionsFrom(OrderMoves(w, 1, true), 1) == 1
  {
    hide Openable, Lockable, HasRoom;
    OpenableIsListed(w, 1);
    OneMoveOpens(UncountedMove(w, 1), 1);
  }

  lemma FillOpensOne(w: World)
    requires CanExecute(w, 1, true)
    ensures PositionsFrom(OrderMoves(w, 1, true), 1) == 1
  {
    hide Openable, Lockable, HasRoom;
    OpenableIsListed(w, 1);
    OneMoveOpens(FillMove(w, 1, false), 1);
  }

  lemma OneMoveOpens(v: Move, o: nat)
    ensures PositionsFrom([v], o) == One((v.Fill? || v.FillUncounted?) && v.order == o)
  {
    assert [v][1..] == [];
  }

  lemma BobCloses()
    requires Coherent(Overrun())
    ensures Done(Overrun(), BOB, ClosePosition(1, true)) == BobClosed()
  {
    hide Coherent, Settled, Accrue, CloseDone;
    SettlesNothing(BOB);
    assert CanClose(Overrun(), BOB, 1, true);
    CloseFields(Overrun(), 1);
  }

  lemma AliceCloses()
    requires Coherent(BobClosed())
    ensures Done(BobClosed(), ALICE, ClosePosition(2, true)) == BothClosed()
  {
    hide Coherent, Settled, Accrue, CloseDone;
    SettlesNothing(ALICE);
    assert CanClose(BobClosed(), ALICE, 2, true);
    CloseFields(BobClosed(), 2);
  }

  lemma FilledIsRefilled()
    ensures 1 in BothClosed().book.orders
    ensures var order := BothClosed().book.orders[1];
            FilledWorld(BothClosed(), 1,
                        FilledPosition(BothClosed(), order, FundingOf(BothClosed().funding, order.market))) ==
                          Refilled()
  {
    OrderBecomes(BothClosed());
    hide FilledPosition;
  }

  lemma CycleCallIs(w: World)
    requires Coherent(w)
    ensures var c := Cycle([], [], [Turn(1, true)], []);
            && Damped(w.pools) && Done(w, BOB, CYCLE.call) == CycleDone(w, c)
               && MovesOf(w, BOB, CYCLE.call) == CycleMoves(w, c)
  {
    hide Coherent, CycleDone, CycleMoves;
    CoherentIsDamped(w);
  }

  lemma OrderIsFilled()
    requires Coherent(BothClosed())
    ensures Done(BothClosed(), BOB, CYCLE.call) == Refilled()
    ensures PositionsFrom(MovesOf(BothClosed(), BOB, CYCLE.call), 1) == 1
  {
    hide *;
    Room();
    CycleCallIs(BothClosed());
    OneOrder(BothClosed());
    FilledIsRefilled();
    KeeperFillFields(BothClosed(), 1, true);
    FillOpensOne(BothClosed());
  }

  // ---------------------------------------------------------------- the history

  /** A history leads to a state and opens `count` positions for the order. */
  ghost predicate Leads(txs: seq<Tx>, w: World, count: nat) {
    var start := Genesis(LIMITS, 1);
    Coherent(start) && History(start, txs) == w && PositionsFrom(HistoryMoves(start, txs), 1) == count
  }

  lemma Longer(txs: seq<Tx>, w: World, count: nat, tx: Tx)
    requires Leads(txs, w, count)
    ensures Coherent(w) && Coherent(Found(w, tx))
    ensures Leads(txs + [tx], Done(Found(w, tx), tx.sender, tx.call),
                  count + PositionsFrom(MovesOf(Found(w, tx), tx.sender, tx.call), 1))
  {
    hide Coherent, Done, MovesOf;
    assert (txs + [tx])[..|txs|] == txs;
    PositionsJoin(HistoryMoves(Genesis(LIMITS, 1), txs), TxMoves(w, tx), 1);
  }

  lemma {:induction false} PositionsJoin(vs: seq<Move>, ws: seq<Move>, o: nat)
    ensures PositionsFrom(vs + ws, o) == PositionsFrom(vs, o) + PositionsFrom(ws, o)
    decreases |vs|
  {
    if vs == [] {
      assert vs + ws == ws;
    } else {
      assert (vs + ws)[1..] == vs[1..] + ws;
      PositionsJoin(vs[1..], ws, o);
    }
  }

  /** Only filling an order opens a position for it. */
  lemma OthersOpenNone(w: World, sender: User, c: Call, o: nat)
    requires Coherent(w) && !c.ExecuteCycle? && !c.ExecuteOrder?
    ensures PositionsFrom(MovesOf(w, sender, c), o) == 0
  {
    hide CanOpen, CanAddSize, CanPartialClose, CanClose, CanLiquidate, CanAddCollateral, CanRemoveCollateral,
      CanDeleverage, CanPlace, CanPlaceClose, CanCancel, Reduced;
    match StepOf(w, sender, c)
    case None =>
    case Makes(v) => OneMoveOpens(v, o);
  }

  lemma Starts()
    ensures Leads([], Genesis(LIMITS, 1), 0)
  {
    EmptyIsSound();
    hide Sound, Under;
  }

  lemma AtOnce(w: World, tx: Tx)
    requires Coherent(w) && tx.seconds == 0
    ensures Found(w, tx) == w
  {
    hide Coherent;
  }

  /** The next transaction in the same block, when it opens nothing for the order. */
  lemma Next(txs: seq<Tx>, w: World, count: nat, tx: Tx)
    requires Leads(txs, w, count) && tx.seconds == 0 && !tx.call.ExecuteCycle? && !tx.call.ExecuteOrder?
    ensures Coherent(w) && Leads(txs + [tx], Done(w, tx.sender, tx.call), count)
  {
    hide Coherent, Done, MovesOf, Leads, Found;
    Longer(txs, w, count, tx);
    AtOnce(w, tx);
    OthersOpenNone(w, tx.sender, tx.call, 1);
  }

  lemma NextCycle(txs: seq<Tx>, w: World, count: nat)
    requires Leads(txs, w, count)
    ensures Coherent(w)
    ensures Leads(txs + [CYCLE], Done(w, BOB, CYCLE.call), count + PositionsFrom(MovesOf(w, BOB, CYCLE.call), 1))
  {
    hide Coherent, Done, MovesOf, Leads, Found;
    Longer(txs, w, count, CYCLE);
    AtOnce(w, CYCLE);
  }

  lemma Prefix(i: nat)
    requires i < |TXS|
    ensures TXS[..i + 1] == TXS[..i] + [TXS[i]]
  {
  }

  function WithVaults(vaults: set<User>): World {
    Genesis(LIMITS, 1).(vaults := vaults)
  }

  lemma VaultsCome(vaults: set<User>, u: User)
    requires Coherent(WithVaults(vaults))
    ensures Done(WithVaults(vaults), u, CreateVault) == WithVaults(vaults + {u})
  {
    hide Coherent;
  }

  lemma FirstVault()
    ensures Leads(TXS[..1], WithVaults({ALICE}), 0)
  {
    var start := Genesis(LIMITS, 1);
    hide Leads, Coherent, Done, MovesOf;
    Starts();
    Longer([], start, 0, TXS[0]);
    FoundFirst();
    OthersOpenNone(WithVaults({}), ALICE, CreateVault, 1);
    VaultsCome({}, ALICE);
    Prefix(0);
    assert TXS[..0] == [] && {} + {ALICE} == {ALICE};
  }

  lemma FoundFirst()
    requires Coherent(Genesis(LIMITS, 1))
    ensures Found(Genesis(LIMITS, 1), TXS[0]) == WithVaults({})
  {
    hide Coherent;
  }

  /** Two users with vaults, and a price. */
  lemma Begins()
    ensures Leads(TXS[..3], Priced(), 0)
  {
    hide Leads, Coherent, Done;
    FirstVault();
    Next(TXS[..1], WithVaults({ALICE}), 0, TXS[1]);
    VaultsCome({ALICE}, BOB);
    assert {ALICE} + {BOB} == {ALICE, BOB};
    Prefix(1);
    Next(TXS[..2], WithVaults({ALICE, BOB}), 0, TXS[2]);
    PricesCome(WithVaults({ALICE, BOB}));
    Prefix(2);
  }

  /** Bob's position is open and Alice's order waits. */
  lemma BeforeTheCycle()
    ensures Leads(TXS[..5], Opened(), 0)
  {
    hide Leads, Coherent, Done, MovesOf;
    Begins();
    Next(TXS[..3], Priced(), 0, TXS[3]);
    OrderIsPlaced();
    Prefix(3);
    Next(TXS[..4], Ordered(), 0, TXS[4]);
    BobOpens();
    Prefix(4);
  }

  lemma FirstCycle()
    ensures Leads(TXS[..6], Overrun(), 1)
  {
    hide Leads, Coherent, Done, MovesOf;
    BeforeTheCycle();
    NextCycle(TXS[..5], Opened(), 0);
    OrderOverruns();
    Prefix(5);
  }

  lemma SecondCycle()
    ensures Leads(TXS[..9], Refilled(), 2)
  {
    hide Leads, Coherent, Done, MovesOf;
    FirstCycle();
    Next(TXS[..6], Overrun(), 1, TXS[6]);
    BobCloses();
    Prefix(6);
    Next(TXS[..7], BobClosed(), 1, TXS[7]);
    AliceCloses();
    Prefix(7);
    NextCycle(TXS[..8], BothClosed(), 1);
    OrderIsFilled();
    Prefix(8);
  }

  lemma OverrunsCount()
    ensures Coherent(Genesis(LIMITS, 1)) && HistoryOverrunsOf(Genesis(LIMITS, 1), TXS, 1) > 0
    ensures PositionsFrom(HistoryMoves(Genesis(LIMITS, 1), TXS), 1) == 2
            && History(Genesis(LIMITS, 1), TXS) == Refilled()
  {
    SecondCycle();
    assert TXS[..9] == TXS;
    hide Coherent, History, HistoryMoves, HistoryOverrunsOf, PositionsFrom, TXS, Refilled;
    PositionsOverHistories(Genesis(LIMITS, 1), TXS, 1);
  }

  lemma OneCap()
    ensures forall tx <- TXS :: !tx.call.Configure? && (tx.call.OpenPosition? ==> tx.sender == BOB)
  {
  }

  lemma TwoAreAlices()
    ensures var b := Refilled().book;
            && b.nextOrderId == 1 && !OrderActive(b, 1) && b.nextPositionId == 3 && 2 in b.positions && 3 in b.positions
            && b.positions[2] == Held(ALICE).(active := false) && b.positions[3] == Held(ALICE)
  {
  }

  /** From an empty exchange and under one and the same limit, Alice's only order opens two positions for her, and
      neither she nor anybody else opens them in any other way. */
  lemma OneOrderTwoPositions()
    ensures Coherent(Genesis(LIMITS, 1))
    ensures PositionsFrom(HistoryMoves(Genesis(LIMITS, 1), TXS), 1) == 2
    ensures HistoryOverrunsOf(Genesis(LIMITS, 1), TXS, 1) > 0
    ensures forall tx <- TXS :: !tx.call.Configure? && (tx.call.OpenPosition? ==> tx.sender == BOB)
    ensures var b := History(Genesis(LIMITS, 1), TXS).book;
            && b.nextOrderId == 1 && !OrderActive(b, 1) && b.nextPositionId == 3 && 2 in b.positions && 3 in b.positions
            && b.positions[2] == Held(ALICE).(active := false) && b.positions[3] == Held(ALICE)
  {
    hide *;
    OverrunsCount();
    OneCap();
    TwoAreAlices();
  }
}
