/**
 The position and order book as a state machine: positions, who holds which, open interest and orders, and the moves the
 facets make on them.  The facets themselves are in Trading.dfy.
 */
module Book {
  import opened Ids

  /** `size`, `collateralUsd` and `entry` have 18 decimals; `collateral` is in the token's own. */
  datatype Position = Position(user: User, market: Market, isLong: bool, size: nat, collateralUsd: nat,
                               token: Token, collateral: nat, entry: nat, index: int, active: bool)

  datatype Kind = Limit | StopLimit | TakeProfit | StopLoss

  datatype Order = Order(user: User, market: Market, isLong: bool, kind: Kind, trigger: nat, limit: nat, size: nat,
                         leverage: nat, token: Token, collateral: nat, active: bool)

  datatype OpenInterest = OpenInterest(long: nat, short: nat)

  /** `held` maps a user and a market to the position held there, 0 for none. */
  datatype Book = Book(nextPositionId: nat, positions: map<nat, Position>, held: map<(User, Market), nat>,
                       interest: map<Market, OpenInterest>, nextOrderId: nat, orders: map<nat, Order>)

  const EMPTY := Book(0, map[], map[], map[], 0, map[])

  function Interest(b: Book, m: Market): OpenInterest {
    if m in b.interest then b.interest[m] else OpenInterest(0, 0)
  }

  function Side(oi: OpenInterest, isLong: bool): nat {
    if isLong then oi.long else oi.short
  }

  function HeldBy(b: Book, u: User, m: Market): nat {
    if (u, m) in b.held then b.held[(u, m)] else 0
  }

  predicate IsActive(b: Book, id: nat) {
    id in b.positions && b.positions[id].active
  }

  /** The net-mode check of every opening path. */
  predicate HasActive(b: Book, u: User, m: Market) {
    HeldBy(b, u, m) != 0 && IsActive(b, HeldBy(b, u, m))
  }

  predicate OrderActive(b: Book, o: nat) {
    o in b.orders && b.orders[o].active
  }

  /** The price condition under which a keeper may execute an order. */
  predicate Triggered(o: Order, price: nat) {
    match o.kind
    case Limit => if o.isLong then price <= o.trigger else price >= o.trigger
    case StopLimit => if o.isLong then o.trigger <= price <= o.limit else o.limit <= price <= o.trigger
    case TakeProfit => if o.isLong then price >= o.trigger else price <= o.trigger
    case StopLoss => if o.isLong then price <= o.trigger else price >= o.trigger
  }

  predicate Opens(k: Kind) {
    k.Limit? || k.StopLimit?
  }

  // ---------------------------------------------------------------- moves

  function Grown(oi: OpenInterest, isLong: bool, size: nat): OpenInterest {
    if isLong then oi.(long := oi.long + size) else oi.(short := oi.short + size)
  }

  /** Open interest is never taken below zero. */
  function Shrunk(oi: OpenInterest, isLong: bool, size: nat): OpenInterest {
    if isLong then oi.(long := if oi.long > size then oi.long - size else 0)
    else oi.(short := if oi.short > size then oi.short - size else 0)
  }

  /** A new position under the next id, not yet counted in the open interest. */
  function Created(b: Book, p: Position): Book {
    var id := b.nextPositionId + 1;
    b.(nextPositionId := id, positions := b.positions[id := p], held := b.held[(p.user, p.market) := id])
  }

  function Counted(b: Book, p: Position): Book {
    b.(interest := b.interest[p.market := Grown(Interest(b, p.market), p.isLong, p.size)])
  }

  function Adjusted(b: Book, id: nat, p: Position): Book
    requires id in b.positions
  {
    var was := b.positions[id].size;
    var oi := Interest(b, p.market);
    b.(positions := b.positions[id := p],
       interest := if p.size == was then b.interest
                   else b.interest[p.market := if p.size > was then Grown(oi, p.isLong, p.size - was)
                                               else Shrunk(oi, p.isLong, was - p.size)])
  }

  function ShutDown(b: Book, id: nat, p: Position): Book
    requires id in b.positions
  {
    b.(positions := b.positions[id := p.(active := false)], held := b.held[(p.user, p.market) := 0],
       interest := b.interest[p.market := Shrunk(Interest(b, p.market), p.isLong, b.positions[id].size)])
  }

  function Retired(b: Book, o: nat): Book
    requires o in b.orders
  {
    b.(orders := b.orders[o := b.orders[o].(active := false)])
  }

  /** What opens open interest is checked against the market's cap.  `FillUncounted` is the keeper's batch finding an
      order beyond it: the position already exists by then, and the order is left active. */
  datatype Move =
    | Open(cap: nat, p: Position)
    | Adjust(id: nat, p: Position)
    | Shut(id: nat, p: Position)
    | Place(o: Order)
    | Cancel(order: nat, caller: User)
    | Fill(order: nat, price: nat, cap: nat, p: Position)
    | FillUncounted(order: nat, price: nat, cap: nat, p: Position)
    | FillClose(order: nat, price: nat, p: Position)

  /** The position stays whose it is, where it is and what it is. */
  predicate SameHolder(p: Position, q: Position) {
    p.user == q.user && p.market == q.market && p.isLong == q.isLong
  }

  predicate Fills(b: Book, o: nat, price: nat, p: Position) {
    && OrderActive(b, o) && Triggered(b.orders[o], price) && Opens(b.orders[o].kind)
    && !HasActive(b, b.orders[o].user, b.orders[o].market)
    && p.user == b.orders[o].user && p.market == b.orders[o].market && p.isLong == b.orders[o].isLong
    && p.size == b.orders[o].size && p.entry == price && p.active
  }

  /** There is room for the position under the cap. */
  predicate WithinCap(b: Book, p: Position, cap: nat) {
    Side(Interest(b, p.market), p.isLong) + p.size <= cap
  }

  /** What the facets have checked before they make a move. */
  predicate Enabled(b: Book, v: Move) {
    match v
    case Open(cap, p) => p.active && p.size > 0 && !HasActive(b, p.user, p.market) && WithinCap(b, p, cap)
    case Adjust(id, p) => IsActive(b, id) && SameHolder(p, b.positions[id]) && p.active && p.size > 0
    case Shut(id, p) => IsActive(b, id) && SameHolder(p, b.positions[id])
    case Place(o) => o.active && o.size > 0 && (!Opens(o.kind) ==> o.collateral == 0)
    case Cancel(o, caller) => OrderActive(b, o) && b.orders[o].user == caller
    case Fill(o, price, cap, p) => Fills(b, o, price, p) && WithinCap(b, p, cap)
    case FillUncounted(o, price, cap, p) => Fills(b, o, price, p) && !WithinCap(b, p, cap)
    case FillClose(o, price, p) =>
      && OrderActive(b, o) && Triggered(b.orders[o], price) && !Opens(b.orders[o].kind)
      && HasActive(b, b.orders[o].user, b.orders[o].market)
      && SameHolder(p, b.positions[HeldBy(b, b.orders[o].user, b.orders[o].market)])
  }

  function Apply(b: Book, v: Move): Book
    requires Enabled(b, v)
  {
    match v
    case Open(_, p) => Counted(Created(b, p), p)
    case Adjust(id, p) => Adjusted(b, id, p)
    case Shut(id, p) => ShutDown(b, id, p)
    case Place(o) => b.(nextOrderId := b.nextOrderId + 1, orders := b.orders[b.nextOrderId + 1 := o])
    case Cancel(o, _) => Retired(b, o)
    case Fill(o, _, _, p) => Retired(Counted(Created(b, p), p), o)
    case FillUncounted(_, _, _, p) => Created(b, p)
    case FillClose(o, _, p) => Retired(ShutDown(b, HeldBy(b, b.orders[o].user, b.orders[o].market), p), o)
  }

  /** A limit order at its price or a better one, a stop-limit order between trigger and limit, a take-profit order when
      the trade has won that much, a stop-loss order when it has lost that much. */
  predicate OnItsSide(o: Order, price: nat) {
    && (o.kind.Limit? && o.isLong ==> price <= o.trigger) && (o.kind.Limit? && !o.isLong ==> price >= o.trigger)
    && (o.kind.StopLimit? && o.isLong ==> o.trigger <= price <= o.limit)
    && (o.kind.StopLimit? && !o.isLong ==> o.limit <= price <= o.trigger)
    && (o.kind.TakeProfit? && o.isLong ==> price >= o.trigger)
    && (o.kind.TakeProfit? && !o.isLong ==> price <= o.trigger)
    && (o.kind.StopLoss? && o.isLong ==> price <= o.trigger) && (o.kind.StopLoss? && !o.isLong ==> price >= o.trigger)
  }

  /** Orders are executed on their side of the trigger, and a position opened for an order starts at the price it was
      executed at. */
  lemma ExecutedOnItsSide(b: Book, v: Move)
    requires Enabled(b, v) && (v.Fill? || v.FillUncounted? || v.FillClose?)
    ensures v.order in b.orders && (!v.FillClose? ==> v.p.entry == v.price)
    ensures OnItsSide(b.orders[v.order], v.price)
    ensures v.FillClose? <==> b.orders[v.order].kind == TakeProfit || b.orders[v.order].kind == StopLoss
  {
  }

  /** The price is strictly on the side on which the order has to wait. */
  predicate MustWait(o: Order, price: nat) {
    match o.kind
    case Limit => if o.isLong then price > o.trigger else price < o.trigger
    case StopLimit => if o.isLong then price < o.trigger || price > o.limit else price > o.trigger || price < o.limit
    case TakeProfit => if o.isLong then price < o.trigger else price > o.trigger
    case StopLoss => if o.isLong then price > o.trigger else price < o.trigger
  }

  // ---------------------------------------------------------------- sums over positions

  function Share(p: Position, m: Market, isLong: bool): nat {
    if p.active && p.market == m && p.isLong == isLong then p.size else 0
  }

  /** The sizes of the active positions of one side of a market, among the ids up to `n`. */
  function SizesUpTo(positions: map<nat, Position>, m: Market, isLong: bool, n: nat): nat {
    if n == 0 then 0
    else SizesUpTo(positions, m, isLong, n - 1) + if n in positions then Share(positions[n], m, isLong) else 0
  }

  function Sizes(b: Book, m: Market, isLong: bool): nat {
    SizesUpTo(b.positions, m, isLong, b.nextPositionId)
  }

  lemma {:induction false} SizesAfter(positions: map<nat, Position>, id: nat, p: Position, m: Market, isLong: bool,
                                      n: nat)
    requires id > 0
    ensures SizesUpTo(positions[id := p], m, isLong, n) ==
            SizesUpTo(positions, m, isLong, n) +
            (if id <= n then Share(p, m, isLong) - (if id in positions then Share(positions[id], m, isLong) else 0)
             else 0)
  {
    if n > 0 { SizesAfter(positions, id, p, m, isLong, n - 1); }
  }

  lemma {:induction false} SharesAreParts(positions: map<nat, Position>, id: nat, m: Market, isLong: bool, n: nat)
    requires 0 < id <= n && id in positions
    ensures Share(positions[id], m, isLong) <= SizesUpTo(positions, m, isLong, n)
  {
    if id < n { SharesAreParts(positions, id, m, isLong, n - 1); }
  }

  // ---------------------------------------------------------------- invariants

  /** Ids count up from 1; what is held is active and is its user's only position in its market; close orders carry no
      collateral of their own. */
  ghost predicate Sound(b: Book) {
    && (forall id: nat :: id in b.positions <==> 1 <= id <= b.nextPositionId)
    && (forall o: nat :: o in b.orders <==> 1 <= o <= b.nextOrderId)
    && (forall u: User, m: Market :: HeldBy(b, u, m) != 0 ==>
          && IsActive(b, HeldBy(b, u, m)) && b.positions[HeldBy(b, u, m)].user == u
          && b.positions[HeldBy(b, u, m)].market == m)
    && (forall id <- b.positions :: b.positions[id].active ==>
          b.positions[id].size > 0 && HeldBy(b, b.positions[id].user, b.positions[id].market) == id)
    && (forall o <- b.orders ::
          b.orders[o].size > 0 && (!Opens(b.orders[o].kind) ==> b.orders[o].collateral == 0))
  }

  /** Open interest is the sum of the sizes of the active positions, per market and side. */
  ghost predicate Exact(b: Book) {
    forall m: Market, isLong: bool :: Side(Interest(b, m), isLong) == Sizes(b, m, isLong)
  }

  ghost predicate Under(b: Book) {
    forall m: Market, isLong: bool :: Side(Interest(b, m), isLong) <= Sizes(b, m, isLong)
  }

  lemma CreatedIsSound(b: Book, p: Position)
    requires Sound(b) && p.active && p.size > 0 && !HasActive(b, p.user, p.market)
    ensures Sound(Created(b, p))
  {
    var b' := Created(b, p);
    forall u: User, m: Market | HeldBy(b', u, m) != 0
      ensures IsActive(b', HeldBy(b', u, m))
      ensures b'.positions[HeldBy(b', u, m)].user == u && b'.positions[HeldBy(b', u, m)].market == m
    {
      if (u, m) != (p.user, p.market) { assert HeldBy(b', u, m) == HeldBy(b, u, m); }
    }
  }

  lemma AdjustedIsSound(b: Book, id: nat, p: Position)
    requires Sound(b) && Enabled(b, Adjust(id, p))
    ensures Sound(Adjusted(b, id, p))
  {
    var b' := Adjusted(b, id, p);
    assert forall u: User, m: Market :: HeldBy(b', u, m) == HeldBy(b, u, m);
  }

  lemma ShutIsSound(b: Book, id: nat, p: Position)
    requires Sound(b) && IsActive(b, id) && SameHolder(p, b.positions[id])
    ensures Sound(ShutDown(b, id, p)) && !HasActive(ShutDown(b, id, p), p.user, p.market)
  {
    var b' := ShutDown(b, id, p);
    assert forall u: User, m: Market ::
        HeldBy(b', u, m) == if (u, m) == (p.user, p.market) then 0 else HeldBy(b, u, m);
  }

  /** The parts of the book that `Sound` does not look at. */
  lemma SameSound(b: Book, b': Book)
    requires Sound(b) && b'.nextPositionId == b.nextPositionId && b'.positions == b.positions && b'.held == b.held
    requires b'.nextOrderId == b.nextOrderId && b'.orders.Keys == b.orders.Keys
    requires forall o <- b.orders :: b'.orders[o] == b.orders[o].(active := b'.orders[o].active)
    ensures Sound(b')
  {
    assert forall u: User, m: Market :: HeldBy(b', u, m) == HeldBy(b, u, m);
  }

  /** Every move keeps the book sound. */
  lemma MovesKeepSound(b: Book, v: Move)
    requires Sound(b) && Enabled(b, v)
    ensures Sound(Apply(b, v))
  {
    hide Sound;
    match v
    case Open(_, p) =>
      CreatedIsSound(b, p);
      SameSound(Created(b, p), Apply(b, v));
    case Adjust(id, p) => AdjustedIsSound(b, id, p);
    case Shut(id, p) => ShutIsSound(b, id, p);
    case Place(o) => PlacedIsSound(b, o);
    case Cancel(o, _) => SameSound(b, Apply(b, v));
    case Fill(o, _, _, p) =>
      OrderSizes(b, o);
      CreatedIsSound(b, p);
      SameSound(Created(b, p), Apply(b, v));
    case FillUncounted(o, _, _, p) =>
      OrderSizes(b, o);
      CreatedIsSound(b, p);
    case FillClose(o, _, p) =>
      var id := HeldBy(b, b.orders[o].user, b.orders[o].market);
      ShutIsSound(b, id, p);
      SameSound(ShutDown(b, id, p), Apply(b, v));
  }

  lemma OrderSizes(b: Book, o: nat)
    requires Sound(b) && o in b.orders
    ensures b.orders[o].size > 0
  {
  }

  lemma PlacedIsSound(b: Book, o: Order)
    requires Sound(b) && Enabled(b, Place(o))
    ensures Sound(Apply(b, Place(o)))
  {
    var b' := Apply(b, Place(o));
    assert forall u: User, m: Market :: HeldBy(b', u, m) == HeldBy(b, u, m);
  }

  // ---------------------------------------------------------------- open interest

  /** By how much the open interest of a side falls short of its positions. */
  function Shortfall(b: Book, m: Market, isLong: bool): int {
    Sizes(b, m, isLong) - Side(Interest(b, m), isLong)
  }

  lemma CreatedShortfall(b: Book, p: Position, m: Market, isLong: bool)
    requires Sound(b)
    ensures Shortfall(Created(b, p), m, isLong) == Shortfall(b, m, isLong) + Share(p, m, isLong)
  {
    SizesAfter(b.positions, b.nextPositionId + 1, p, m, isLong, b.nextPositionId);
    SizesAfter(b.positions, b.nextPositionId + 1, p, m, isLong, b.nextPositionId + 1);
  }

  lemma CountedShortfall(b: Book, p: Position, m: Market, isLong: bool)
    requires p.active
    ensures Shortfall(Counted(b, p), m, isLong) == Shortfall(b, m, isLong) - Share(p, m, isLong)
  {
  }

  lemma AdjustedShortfall(b: Book, id: nat, p: Position, m: Market, isLong: bool)
    requires Sound(b) && Enabled(b, Adjust(id, p))
    ensures Shortfall(b, m, isLong) >= 0 ==> 0 <= Shortfall(Adjusted(b, id, p), m, isLong) <= Shortfall(b, m, isLong)
  {
    SizesAfter(b.positions, id, p, m, isLong, b.nextPositionId);
    SharesAreParts(b.positions[id := p], id, m, isLong, b.nextPositionId);
  }

  lemma ShutShortfall(b: Book, id: nat, p: Position, m: Market, isLong: bool)
    requires Sound(b) && IsActive(b, id) && SameHolder(p, b.positions[id])
    ensures Shortfall(b, m, isLong) >= 0 ==> 0 <= Shortfall(ShutDown(b, id, p), m, isLong) <= Shortfall(b, m, isLong)
  {
    SizesAfter(b.positions, id, p.(active := false), m, isLong, b.nextPositionId);
  }

  /** What a move does to a side's shortfall: only a fill that is not counted opens one, by exactly the size of the
      order, and no other move widens one. */
  lemma MoveShortfall(b: Book, v: Move, m: Market, isLong: bool)
    requires Sound(b) && Enabled(b, v)
    ensures v.FillUncounted? ==> Shortfall(Apply(b, v), m, isLong) == Shortfall(b, m, isLong) + Share(v.p, m, isLong)
    ensures !v.FillUncounted? && Shortfall(b, m, isLong) >= 0 ==>
              0 <= Shortfall(Apply(b, v), m, isLong) <= Shortfall(b, m, isLong)
  {
    hide Sound, Share;
    match v
    case Open(_, p) =>
      CreatedShortfall(b, p, m, isLong);
      CountedShortfall(Created(b, p), p, m, isLong);
    case Adjust(id, p) => AdjustedShortfall(b, id, p, m, isLong);
    case Shut(id, p) => ShutShortfall(b, id, p, m, isLong);
    case Place(_) =>
    case Cancel(_, _) =>
    case Fill(_, _, _, p) =>
      CreatedShortfall(b, p, m, isLong);
      CountedShortfall(Created(b, p), p, m, isLong);
    case FillUncounted(_, _, _, p) => CreatedShortfall(b, p, m, isLong);
    case FillClose(o, _, p) =>
      ShutShortfall(b, HeldBy(b, b.orders[o].user, b.orders[o].market), p, m, isLong);
  }

  /** The move fills an order for which there is no room under the cap. */
  predicate PassesCap(b: Book, v: Move) {
    (v.Fill? || v.FillUncounted?) && !WithinCap(b, v.p, v.cap)
  }

  /** From an exact state a move leads to an exact state if and only if it does not fill an order beyond the cap. */
  lemma ExactUnlessBeyondCap(b: Book, v: Move)
    requires Sound(b) && Enabled(b, v) && Exact(b)
    ensures Exact(Apply(b, v)) <==> !PassesCap(b, v)
    ensures PassesCap(b, v) <==> v.FillUncounted?
  {
    UncountedIsBeyondCap(b, v);
    hide Sound, Enabled, Apply, PassesCap;
    forall m: Market, isLong: bool ensures Shortfall(b, m, isLong) == 0 {}
    if v.FillUncounted? {
      UncountedSize(b, v);
      MoveShortfall(b, v, v.p.market, v.p.isLong);
    } else {
      forall m: Market, isLong: bool
        ensures Side(Interest(Apply(b, v), m), isLong) == Sizes(Apply(b, v), m, isLong)
      {
        MoveShortfall(b, v, m, isLong);
      }
    }
  }

  lemma UncountedIsBeyondCap(b: Book, v: Move)
    requires Enabled(b, v)
    ensures PassesCap(b, v) <==> v.FillUncounted?
  {
  }

  lemma UncountedSize(b: Book, v: Move)
    requires Sound(b) && Enabled(b, v) && v.FillUncounted?
    ensures Share(v.p, v.p.market, v.p.isLong) > 0
  {
  }

  lemma MovesKeepUnder(b: Book, v: Move)
    requires Sound(b) && Enabled(b, v) && Under(b)
    ensures Under(Apply(b, v))
  {
    hide Sound, Enabled, Apply;
    forall m: Market, isLong: bool
      ensures Side(Interest(Apply(b, v), m), isLong) <= Sizes(Apply(b, v), m, isLong)
    {
      MoveShortfall(b, v, m, isLong);
    }
  }
}
