/**
 Whole runs of the position and order book, from any sound state: net mode, open interest and the life of an order.
 */
module BookRuns {
  import opened Ids
  import opened Book

  ghost predicate Legal(b: Book, vs: seq<Move>)
    decreases |vs|
  {
    vs == [] || (Enabled(b, vs[0]) && Legal(Apply(b, vs[0]), vs[1..]))
  }

  function Final(b: Book, vs: seq<Move>): Book
    requires Legal(b, vs)
    decreases |vs|
  {
    if vs == [] then b else Final(Apply(b, vs[0]), vs[1..])
  }

  lemma {:induction false} RunsKeepSound(b: Book, vs: seq<Move>)
    requires Sound(b) && Under(b) && Legal(b, vs)
    ensures Sound(Final(b, vs)) && Under(Final(b, vs))
    decreases |vs|
  {
    hide Sound, Under, Enabled, Apply;
    if vs != [] {
      MovesKeepSound(b, vs[0]);
      MovesKeepUnder(b, vs[0]);
      RunsKeepSound(Apply(b, vs[0]), vs[1..]);
    }
  }

  lemma NoMoves(b: Book)
    ensures Legal(b, []) && Final(b, []) == b
  {
  }

  lemma OneMove(b: Book, v: Move)
    requires Enabled(b, v)
    ensures Legal(b, [v]) && Final(b, [v]) == Apply(b, v)
  {
    assert [v][1..] == [];
  }

  lemma {:induction false} RunsJoin(b: Book, vs: seq<Move>, ws: seq<Move>)
    requires Legal(b, vs) && Legal(Final(b, vs), ws)
    ensures Legal(b, vs + ws) && Final(b, vs + ws) == Final(Final(b, vs), ws)
    decreases |vs|
  {
    hide Enabled, Apply;
    if vs == [] {
      assert vs + ws == ws;
    } else {
      assert (vs + ws)[1..] == vs[1..] + ws;
      RunsJoin(Apply(b, vs[0]), vs[1..], ws);
    }
  }

  lemma EmptyIsSound()
    ensures Sound(EMPTY) && Exact(EMPTY) && Under(EMPTY)
  {
    assert forall m: Market, isLong: bool :: Sizes(EMPTY, m, isLong) == 0;
  }

  // ---------------------------------------------------------------- open interest

  ghost predicate ExactThroughout(b: Book, vs: seq<Move>)
    requires Legal(b, vs)
    decreases |vs|
  {
    Exact(b) && (vs == [] || ExactThroughout(Apply(b, vs[0]), vs[1..]))
  }

  /** No fill of the run meets the cap. */
  ghost predicate NoneBeyondCap(b: Book, vs: seq<Move>)
    requires Legal(b, vs)
    decreases |vs|
  {
    vs == [] || (!PassesCap(b, vs[0]) && NoneBeyondCap(Apply(b, vs[0]), vs[1..]))
  }

  /** Open interest is the sum over positions in every state of a run if and only if no order is filled beyond the
      cap. */
  lemma {:induction false} OpenInterestIsSum(b: Book, vs: seq<Move>)
    requires Sound(b) && Exact(b) && Legal(b, vs)
    ensures ExactThroughout(b, vs) <==> NoneBeyondCap(b, vs)
    decreases |vs|
  {
    hide Sound, Exact, Enabled, Apply, PassesCap;
    if vs != [] {
      var b' := Apply(b, vs[0]);
      MovesKeepSound(b, vs[0]);
      ExactUnlessBeyondCap(b, vs[0]);
      if !PassesCap(b, vs[0]) {
        OpenInterestIsSum(b', vs[1..]);
      } else {
        NotExactThroughout(b', vs[1..]);
      }
    }
  }

  /** Only the keeper's batches leave a fill uncounted. */
  lemma {:induction false} BeyondCapIsUncounted(b: Book, vs: seq<Move>)
    requires Legal(b, vs)
    ensures NoneBeyondCap(b, vs) <==> forall v <- vs :: !v.FillUncounted?
    decreases |vs|
  {
    hide Enabled, Apply, PassesCap;
    if vs != [] {
      assert vs == [vs[0]] + vs[1..];
      UncountedIsBeyondCap(b, vs[0]);
      BeyondCapIsUncounted(Apply(b, vs[0]), vs[1..]);
    }
  }

  lemma NotExactThroughout(b: Book, vs: seq<Move>)
    requires Legal(b, vs) && !Exact(b)
    ensures !ExactThroughout(b, vs)
  {
  }

  // ---------------------------------------------------------------- net mode

  /** A user is on record as holding a position exactly when there is an active one, and that one is the only one. */
  lemma NetMode(b: Book, u: User, m: Market)
    requires Sound(b)
    ensures HeldBy(b, u, m) != 0 <==>
            exists id: nat :: IsActive(b, id) && b.positions[id].user == u && b.positions[id].market == m
    ensures forall id: nat :: IsActive(b, id) && b.positions[id].user == u && b.positions[id].market == m ==>
                           id == HeldBy(b, u, m) && 1 <= id <= b.nextPositionId
    ensures HasActive(b, u, m) <==> HeldBy(b, u, m) != 0
  {
    if HeldBy(b, u, m) != 0 {
      assert IsActive(b, HeldBy(b, u, m));
    }
  }

  function Created(vs: seq<Move>): nat {
    if vs == [] then 0
    else (if vs[0].Open? || vs[0].Fill? || vs[0].FillUncounted? then 1 else 0) + Created(vs[1..])
  }

  lemma StepPersists(b: Book, v: Move, id: nat)
    requires Sound(b) && Enabled(b, v) && id in b.positions
    ensures id in Apply(b, v).positions && SameHolder(b.positions[id], Apply(b, v).positions[id])
    ensures !b.positions[id].active ==> Apply(b, v).positions[id] == b.positions[id]
  {
  }

  /** Ids are handed out in order and never reused: a position keeps its user, market and direction for good, and once
      closed its record never changes again. */
  lemma {:induction false} IdsAreForGood(b: Book, vs: seq<Move>, id: nat)
    requires Sound(b) && Legal(b, vs)
    ensures Final(b, vs).nextPositionId == b.nextPositionId + Created(vs)
    ensures id in b.positions ==>
              && id in Final(b, vs).positions && SameHolder(b.positions[id], Final(b, vs).positions[id])
              && (!b.positions[id].active ==> Final(b, vs).positions[id] == b.positions[id])
    decreases |vs|
  {
    hide Sound, Enabled;
    if vs != [] {
      MovesKeepSound(b, vs[0]);
      if id in b.positions { StepPersists(b, vs[0], id); }
      IdsAreForGood(Apply(b, vs[0]), vs[1..], id);
    }
  }

  /** Closing makes room: the user may open in that market again, either way, as far as the cap allows. */
  lemma ClosingRestores(b: Book, v: Move, p: Position, cap: nat)
    requires Sound(b) && Enabled(b, v) && v.Shut?
    requires p.user == v.p.user && p.market == v.p.market && p.active && p.size > 0
    ensures Enabled(Apply(b, v), Open(cap, p)) <==> WithinCap(Apply(b, v), p, cap)
  {
    ShutIsSound(b, v.id, v.p);
  }

  // ---------------------------------------------------------------- orders

  predicate Ends(b: Book, v: Move, o: nat) {
    (v.Cancel? || v.Fill? || v.FillClose?) && v.order == o
  }

  /** How often an order leaves the active state. */
  ghost function Endings(b: Book, vs: seq<Move>, o: nat): nat
    requires Legal(b, vs)
    decreases |vs|
  {
    if vs == [] then 0 else (if Ends(b, vs[0], o) then 1 else 0) + Endings(Apply(b, vs[0]), vs[1..], o)
  }

  function One(c: bool): nat {
    if c then 1 else 0
  }

  lemma StepOrder(b: Book, v: Move, o: nat)
    requires Sound(b) && Enabled(b, v)
    ensures One(Ends(b, v, o)) + One(OrderActive(Apply(b, v), o)) ==
            One(OrderActive(b, o) || (v.Place? && o == b.nextOrderId + 1))
    ensures o in b.orders ==>
            o in Apply(b, v).orders && Apply(b, v).orders[o].(active := true) == b.orders[o].(active := true)
    ensures o in Apply(b, v).orders && o !in b.orders ==> v.Place? && o == b.nextOrderId + 1
  {
  }

  /** An order that was active, or was placed during the run, leaves the active state once or is still active; every
      other order never leaves it.  What was ordered never changes. */
  lemma {:induction false} OrdersEndOnce(b: Book, vs: seq<Move>, o: nat)
    requires Sound(b) && Legal(b, vs)
    ensures Endings(b, vs, o) + One(OrderActive(Final(b, vs), o)) ==
            One(OrderActive(b, o) || (o !in b.orders && o in Final(b, vs).orders))
    ensures o in b.orders ==>
              o in Final(b, vs).orders && Final(b, vs).orders[o].(active := true) == b.orders[o].(active := true)
    decreases |vs|
  {
    hide Sound, Enabled, Apply;
    if vs != [] {
      MovesKeepSound(b, vs[0]);
      StepOrder(b, vs[0], o);
      OrdersEndOnce(Apply(b, vs[0]), vs[1..], o);
      OrderPlaced(b, vs[0], o);
    }
  }

  lemma OrderPlaced(b: Book, v: Move, o: nat)
    requires Sound(b) && Enabled(b, v)
    ensures v.Place? && o == b.nextOrderId + 1 ==> o in Apply(b, v).orders && o !in b.orders
    ensures o in Apply(b, v).orders && o !in b.orders ==> OrderActive(Apply(b, v), o)
  {
  }

  /** How many positions a run opens for an order. */
  function PositionsFrom(vs: seq<Move>, o: nat): nat {
    if vs == [] then 0
    else One((vs[0].Fill? || vs[0].FillUncounted?) && vs[0].order == o) + PositionsFrom(vs[1..], o)
  }

  /** How often a run fills an order beyond the cap. */
  ghost function FillsBeyondCap(b: Book, vs: seq<Move>, o: nat): nat
    requires Legal(b, vs)
    decreases |vs|
  {
    if vs == [] then 0
    else One(PassesCap(b, vs[0]) && vs[0].order == o) + FillsBeyondCap(Apply(b, vs[0]), vs[1..], o)
  }

  function UncountedFills(vs: seq<Move>, o: nat): nat {
    if vs == [] then 0 else One(vs[0].FillUncounted? && vs[0].order == o) + UncountedFills(vs[1..], o)
  }

  lemma {:induction false} BeyondCapAreUncounted(b: Book, vs: seq<Move>, o: nat)
    requires Legal(b, vs)
    ensures FillsBeyondCap(b, vs, o) == UncountedFills(vs, o)
    decreases |vs|
  {
    hide Enabled, Apply, PassesCap;
    if vs != [] {
      UncountedIsBeyondCap(b, vs[0]);
      BeyondCapAreUncounted(Apply(b, vs[0]), vs[1..], o);
    }
  }

  lemma {:induction false} UncountedJoin(vs: seq<Move>, ws: seq<Move>, o: nat)
    ensures UncountedFills(vs + ws, o) == UncountedFills(vs, o) + UncountedFills(ws, o)
    decreases |vs|
  {
    if vs == [] {
      assert vs + ws == ws;
    } else {
      assert (vs + ws)[1..] == vs[1..] + ws;
      UncountedJoin(vs[1..], ws, o);
    }
  }

  /** The order ended by being filled. */
  ghost predicate Filled(vs: seq<Move>, o: nat) {
    exists v <- vs :: v.Fill? && v.order == o
  }

  /** The positions opened for an order: one for every fill beyond the cap, and one more if it ended by a fill. */
  lemma {:induction false} PositionsOfAnOrder(b: Book, vs: seq<Move>, o: nat)
    requires Sound(b) && Legal(b, vs)
    ensures PositionsFrom(vs, o) == FillsBeyondCap(b, vs, o) + One(Filled(vs, o))
    decreases |vs|
  {
    hide Sound, Enabled, Apply, PassesCap;
    if vs != [] {
      var v := vs[0];
      assert vs == [v] + vs[1..];
      MovesKeepSound(b, v);
      UncountedIsBeyondCap(b, v);
      PositionsOfAnOrder(Apply(b, v), vs[1..], o);
      if v.Fill? && v.order == o {
        FillEnds(b, v);
        EndedStaysEnded(Apply(b, v), vs[1..], o);
      }
    }
  }

  lemma FillEnds(b: Book, v: Move)
    requires Enabled(b, v) && v.Fill?
    ensures v.order in Apply(b, v).orders && !OrderActive(Apply(b, v), v.order)
  {
  }

  /** An order that is not active any more is never filled again. */
  lemma {:induction false} EndedStaysEnded(b: Book, vs: seq<Move>, o: nat)
    requires Sound(b) && Legal(b, vs) && o in b.orders && !OrderActive(b, o)
    ensures PositionsFrom(vs, o) == 0 && !Filled(vs, o)
    decreases |vs|
  {
    hide Sound, Enabled, Apply;
    if vs != [] {
      assert vs == [vs[0]] + vs[1..];
      MovesKeepSound(b, vs[0]);
      StepOrder(b, vs[0], o);
      NeedsActive(b, vs[0], o);
      PlacedIsNew(b, vs[0], o);
      EndedStaysEnded(Apply(b, vs[0]), vs[1..], o);
    }
  }

  lemma NeedsActive(b: Book, v: Move, o: nat)
    requires Enabled(b, v) && !OrderActive(b, o)
    ensures !((v.Fill? || v.FillUncounted?) && v.order == o)
    ensures OrderActive(Apply(b, v), o) ==> v.Place? && o == b.nextOrderId + 1
  {
  }

  lemma PlacedIsNew(b: Book, v: Move, o: nat)
    requires Sound(b) && o in b.orders
    ensures !(v.Place? && o == b.nextOrderId + 1)
  {
  }

  /** An order opens at most one position unless it was filled beyond the cap. */
  lemma AtMostOnePosition(b: Book, vs: seq<Move>, o: nat)
    requires Sound(b) && Legal(b, vs)
    ensures FillsBeyondCap(b, vs, o) == 0 ==> PositionsFrom(vs, o) <= 1
    ensures FillsBeyondCap(b, vs, o) > 0 ==>
            (PositionsFrom(vs, o) > 1 <==> FillsBeyondCap(b, vs, o) > 1 || Filled(vs, o))
  {
    PositionsOfAnOrder(b, vs, o);
  }

  /** Filling an order opens exactly one position, the user's only one in that market, with the order's user, market,
      direction and size at the price that triggered it, and touches no other position. */
  lemma FillOpensTheOrder(b: Book, v: Move)
    requires Sound(b) && Enabled(b, v) && (v.Fill? || v.FillUncounted?)
    ensures var o, b', id := b.orders[v.order], Apply(b, v), b.nextPositionId + 1;
            && Triggered(o, v.price)
            && (forall i: nat :: IsActive(b, i) ==> b.positions[i].user != o.user || b.positions[i].market != o.market)
            && b'.positions.Keys == b.positions.Keys + {id} && id !in b.positions
            && (forall i <- b.positions :: b'.positions[i] == b.positions[i])
            && IsActive(b', id) && HeldBy(b', o.user, o.market) == id
            && b'.positions[id].user == o.user && b'.positions[id].market == o.market
            && b'.positions[id].isLong == o.isLong && b'.positions[id].size == o.size
               && b'.positions[id].entry == v.price
            && (OrderActive(b', v.order) <==> v.FillUncounted?)
  {
    NetMode(b, b.orders[v.order].user, b.orders[v.order].market);
  }

  // ---------------------------------------------------------------- close orders

  /** A close order as placed on a position. */
  predicate ClosesPosition(o: Order, p: Position) {
    o.user == p.user && o.market == p.market && o.isLong == p.isLong && !Opens(o.kind)
  }

  /** A close order, whenever it is executed, closes the position it was placed on if and only if that one is still
      open.  Otherwise it closes another position, the one its owner holds in the market by then, and the record of the
      first stays as it was. */
  lemma CloseOrderClosesWhatIsHeld(b: Book, id: nat, o: Order, vs: seq<Move>, v: Move)
    requires Sound(b) && IsActive(b, id) && ClosesPosition(o, b.positions[id])
    requires Legal(b, [Place(o)] + vs)
    requires v.FillClose? && v.order == b.nextOrderId + 1 && Enabled(Final(b, [Place(o)] + vs), v)
    ensures var before := Final(b, [Place(o)] + vs);
            var after, held := Apply(before, v), HeldBy(before, o.user, o.market);
            && IsActive(before, held) && !IsActive(after, held) && !OrderActive(after, v.order)
            && (held == id <==> IsActive(before, id))
            && (held != id ==> id in before.positions && after.positions[id] == before.positions[id])
            && before.positions[held].user == o.user && before.positions[held].market == o.market
  {
    var run := [Place(o)] + vs;
    var before := Final(b, run);
    assert run[0] == Place(o) && run[1..] == vs;
    var placed := Apply(b, Place(o));
    MovesKeepSound(b, Place(o));
    IdsAreForGood(b, run, id);
    OrdersEndOnce(placed, vs, v.order);
    RunKeepsSoundness(b, run);
    ClosesHeld(before, v, o, id);
  }

  lemma {:induction false} RunKeepsSoundness(b: Book, vs: seq<Move>)
    requires Sound(b) && Legal(b, vs)
    ensures Sound(Final(b, vs))
    decreases |vs|
  {
    hide Sound, Enabled, Apply;
    if vs != [] {
      MovesKeepSound(b, vs[0]);
      RunKeepsSoundness(Apply(b, vs[0]), vs[1..]);
    }
  }

  lemma ClosesHeld(b: Book, v: Move, o: Order, id: nat)
    requires Sound(b) && v.FillClose? && Enabled(b, v) && b.orders[v.order].(active := true) == o.(active := true)
    requires id in b.positions && b.positions[id].user == o.user && b.positions[id].market == o.market
    ensures var after, held := Apply(b, v), HeldBy(b, o.user, o.market);
            && IsActive(b, held) && !IsActive(after, held) && !OrderActive(after, v.order)
            && (held == id <==> IsActive(b, id))
            && (held != id ==> after.positions[id] == b.positions[id])
            && b.positions[held].user == o.user && b.positions[held].market == o.market
  {
  }

  /** It really happens: a stop on a long is left over when the long is closed, and closes the short opened since. */
  lemma CloseOrderHitsTheOtherSide(long: Position, short: Position, o: Order, price: nat, cap: nat)
    requires long.user == short.user && long.market == short.market && long.isLong && !short.isLong
    requires long.active && short.active && 0 < long.size <= cap && 0 < short.size <= cap
    requires ClosesPosition(o, long) && o.active && o.size > 0 && o.collateral == 0 && Triggered(o, price)
    ensures var vs := [Open(cap, long), Place(o), Shut(1, long), Open(cap, short), FillClose(1, price, short)];
            && Legal(EMPTY, vs)
            && Final(EMPTY, vs).positions == map[1 := long.(active := false), 2 := short.(active := false)]
            && !OrderActive(Final(EMPTY, vs), 1)
  {
    var v1, v2, v3, v4, v5 := Open(cap, long), Place(o), Shut(1, long), Open(cap, short), FillClose(1, price, short);
    assert Enabled(EMPTY, v1);
    var b1 := Apply(EMPTY, v1);
    assert Enabled(b1, v2);
    var b2 := Apply(b1, v2);
    assert Enabled(b2, v3);
    var b3 := Apply(b2, v3);
    ShortFits(b3, short, cap);
    var b4 := Apply(b3, v4);
    assert Enabled(b4, v5);
    var b5 := Apply(b4, v5);
    assert b5.positions == map[1 := long.(active := false), 2 := short.(active := false)];
    FiveMoves(EMPTY, b1, b2, b3, b4, v1, v2, v3, v4, v5);
  }

  lemma FiveMoves(b0: Book, b1: Book, b2: Book, b3: Book, b4: Book, v1: Move, v2: Move, v3: Move, v4: Move, v5: Move)
    requires Enabled(b0, v1) && b1 == Apply(b0, v1) && Enabled(b1, v2) && b2 == Apply(b1, v2)
    requires Enabled(b2, v3) && b3 == Apply(b2, v3) && Enabled(b3, v4) && b4 == Apply(b3, v4) && Enabled(b4, v5)
    ensures Legal(b0, [v1, v2, v3, v4, v5]) && Final(b0, [v1, v2, v3, v4, v5]) == Apply(b4, v5)
  {
    hide Enabled, Apply, Legal, Final;
    NoMoves(Apply(b4, v5));
    assert [v5] + [] == [v5] && [v4] + [v5] == [v4, v5] && [v3] + [v4, v5] == [v3, v4, v5];
    assert [v2] + [v3, v4, v5] == [v2, v3, v4, v5] && [v1] + [v2, v3, v4, v5] == [v1, v2, v3, v4, v5];
    FirstMove(b4, v5, [], 1);
    FirstMove(b3, v4, [v5], 1);
    FirstMove(b2, v3, [v4, v5], 1);
    FirstMove(b1, v2, [v3, v4, v5], 1);
    FirstMove(b0, v1, [v2, v3, v4, v5], 1);
  }

  lemma ShortFits(b: Book, short: Position, cap: nat)
    requires short.active && 0 < short.size <= cap && !short.isLong
    requires Interest(b, short.market).short == 0 && HeldBy(b, short.user, short.market) == 0
    ensures Enabled(b, Open(cap, short))
  {
  }

  lemma FirstMove(b: Book, v: Move, vs: seq<Move>, o: nat)
    requires Enabled(b, v) && Legal(Apply(b, v), vs)
    ensures Legal(b, [v] + vs) && Final(b, [v] + vs) == Final(Apply(b, v), vs)
    ensures PositionsFrom([v] + vs, o) == PositionsFrom(vs, o) + One((v.Fill? || v.FillUncounted?) && v.order == o)
  {
    assert ([v] + vs)[1..] == vs;
  }
}
