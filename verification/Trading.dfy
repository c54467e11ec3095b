/**
 The facets over the storage they share: trading, liquidation, orders, funding, pools, prices and the keeper's cycle.
 Each operation first makes its facet's checks and then changes the fields in place; it goes through exactly when
 World.dfy says it can, and leaves exactly the state it says.  A call that fails changes nothing.
 */
module Trading {
  import opened FixedPoint
  import opened LibPosition
  import opened Ids
  import opened Amm
  import opened Twap
  import opened Funding
  import opened Book
  import opened BookRuns
  import opened Settlement
  import opened World
  import opened Keeper

  datatype Why =
    | Paused
    | NotEnabled
    | CollateralNotAccepted
    | PositionExists
    | ZeroCollateral
    | ZeroSize
    | ZeroAmount
    | ZeroLeverage
    | ZeroTrigger
    | ZeroPrice
    | ZeroLiquidity
    | BelowMinimum
    | LeverageTooHigh
    | CapExceeded
    | StalePrice
    | NoPrice
    | NoMarket
    | NoVault
    | VaultExists
    | NoPool
    | PoolExists
    | InvalidDamping
    | LockFailed
    | TransferFailed
    | NotActive
    | NotOwner
    | InvalidSize
    | MarginTooLow
    | Healthy
    | NotProfitable
    | NotTriggered
    | PriceDeviation
    | LengthMismatch

  datatype Outcome = Success(id: nat) | Rejected(why: Why)

  // ---------------------------------------------------------------- moves, field by field

  lemma OpenApplies(b: Book, cap: nat, p: Position)
    requires Enabled(b, Open(cap, p))
    ensures Apply(b, Open(cap, p)) ==
            Book(b.nextPositionId + 1, b.positions[b.nextPositionId + 1 := p],
                 b.held[(p.user, p.market) := b.nextPositionId + 1],
                 b.interest[p.market := Grown(Interest(b, p.market), p.isLong, p.size)], b.nextOrderId, b.orders)
  {
  }

  lemma AdjustApplies(b: Book, id: nat, p: Position)
    requires Enabled(b, Adjust(id, p))
    ensures Apply(b, Adjust(id, p)) ==
            b.(positions := b.positions[id := p],
               interest := if p.size == b.positions[id].size then b.interest
                           else b.interest[p.market := if p.size > b.positions[id].size
                                                       then Grown(Interest(b, p.market), p.isLong,
                                                                  p.size - b.positions[id].size)
                                                       else Shrunk(Interest(b, p.market), p.isLong,
                                                                   b.positions[id].size - p.size)])
  {
  }

  lemma ShutApplies(b: Book, id: nat, p: Position)
    requires Enabled(b, Shut(id, p))
    ensures Apply(b, Shut(id, p)) ==
            b.(positions := b.positions[id := p.(active := false)], held := b.held[(p.user, p.market) := 0],
               interest := b.interest[p.market := Shrunk(Interest(b, p.market), p.isLong, b.positions[id].size)])
  {
  }

  lemma PlaceApplies(b: Book, o: Order)
    requires Enabled(b, Place(o))
    ensures Apply(b, Place(o)) == b.(nextOrderId := b.nextOrderId + 1, orders := b.orders[b.nextOrderId + 1 := o])
  {
  }

  lemma CancelApplies(b: Book, o: nat, caller: User)
    requires Enabled(b, Cancel(o, caller))
    ensures Apply(b, Cancel(o, caller)) == b.(orders := b.orders[o := b.orders[o].(active := false)])
  {
  }

  lemma FillApplies(b: Book, o: nat, price: nat, cap: nat, p: Position)
    requires Enabled(b, Fill(o, price, cap, p))
    ensures o in b.orders
    ensures Apply(b, Fill(o, price, cap, p)) ==
            Book(b.nextPositionId + 1, b.positions[b.nextPositionId + 1 := p],
                 b.held[(p.user, p.market) := b.nextPositionId + 1],
                 b.interest[p.market := Grown(Interest(b, p.market), p.isLong, p.size)],
                 b.nextOrderId, b.orders[o := b.orders[o].(active := false)])
  {
  }

  lemma FillUncountedApplies(b: Book, o: nat, price: nat, cap: nat, p: Position)
    requires Enabled(b, FillUncounted(o, price, cap, p))
    ensures Apply(b, FillUncounted(o, price, cap, p)) ==
            b.(nextPositionId := b.nextPositionId + 1, positions := b.positions[b.nextPositionId + 1 := p],
               held := b.held[(p.user, p.market) := b.nextPositionId + 1])
  {
  }

  lemma FillCloseApplies(b: Book, o: nat, price: nat, p: Position)
    requires Enabled(b, FillClose(o, price, p))
    ensures o in b.orders && HeldBy(b, b.orders[o].user, b.orders[o].market) in b.positions
    ensures var id := HeldBy(b, b.orders[o].user, b.orders[o].market);
            Apply(b, FillClose(o, price, p)) ==
            b.(positions := b.positions[id := p.(active := false)], held := b.held[(p.user, p.market) := 0],
               interest := b.interest[p.market := Shrunk(Interest(b, p.market), p.isLong, b.positions[id].size)],
               orders := b.orders[o := b.orders[o].(active := false)])
  {
  }

  lemma OpenFields(w: World, sender: User, m: Market, token: Token, amount: nat, leverage: nat, isLong: bool)
    requires Enabled(w.book, OpenMove(w, sender, m, token, amount, leverage, isLong))
    ensures var size := MulFp(ToUsd(w.settings, token, amount), leverage);
            var net := OpeningCollateral(w.settings, token, amount, size);
            var fs := Accrue(FundingOf(w.funding, m), w.now);
            var p := Position(sender, m, isLong, size, ToUsd(w.settings, token, net), token, net,
                              ExecutionPrice(PoolOf(w.pools, m), Price(w, m), size, isLong), Index(fs, isLong), true);
            OpenDone(w, sender, m, token, amount, leverage, isLong) ==
            w.(book := Book(w.book.nextPositionId + 1, w.book.positions[w.book.nextPositionId + 1 := p],
                            w.book.held[(sender, m) := w.book.nextPositionId + 1],
                            w.book.interest[m := Grown(Interest(w.book, m), isLong, size)], w.book.nextOrderId,
                            w.book.orders),
               funding := w.funding[m := fs], pools := TradeIn(w.pools, m, size, isLong, true))
  {
    hide Enabled, Apply, Accrue, TradeIn, ExecutionPrice, ToUsd, MulFp, OpeningCollateral;
    OpenApplies(w.book, Config(w.settings, m).maxOpenInterest,
                OpenedPosition(w, sender, m, token, amount, leverage, isLong));
  }

  // ---------------------------------------------------------------- the facets

  class Exchange {
    var nextPositionId: nat
    var positions: map<nat, Position>
    var userMarketPosition: map<(User, Market), nat>
    var openInterest: map<Market, OpenInterest>
    var nextOrderId: nat
    var orders: map<nat, Order>
    var funding: map<Market, FundingState>
    var virtualPools: map<Market, Pool>
    var priceHistory: map<Market, seq<PricePoint>>
    var latestPrice: map<Market, nat>
    var latestPriceTimestamp: map<Market, nat>
    var userVaults: set<User>
    var settings: Settings
    var blockTimestamp: nat

    function View(): Book
      reads this
    {
      Book(nextPositionId, positions, userMarketPosition, openInterest, nextOrderId, orders)
    }

    function State(): World
      reads this
    {
      World(View(), funding, virtualPools, priceHistory, latestPrice, latestPriceTimestamp, userVaults, settings,
            blockTimestamp)
    }

    ghost predicate Valid()
      reads this
    {
      Coherent(State())
    }

    function InterestIn(m: Market): OpenInterest
      reads this`openInterest
    {
      if m in openInterest then openInterest[m] else OpenInterest(0, 0)
    }

    lemma StateIs()
      ensures View() == Book(nextPositionId, positions, userMarketPosition, openInterest, nextOrderId, orders)
      ensures State() == World(View(), funding, virtualPools, priceHistory, latestPrice, latestPriceTimestamp,
                               userVaults,
                               settings, blockTimestamp)
      ensures Valid() <==> Coherent(State())
    {
      hide Coherent;
    }

    lemma InterestIs(m: Market)
      ensures InterestIn(m) == Interest(View(), m)
    {
    }

    constructor (settings: Settings, now: nat)
      requires now > 0
      ensures Valid() && State() == World(EMPTY, map[], map[], map[], map[], map[], {}, settings, now)
    {
      nextPositionId, positions, userMarketPosition, openInterest, nextOrderId, orders :=
        0, map[], map[], map[], 0, map[];
      funding, virtualPools, priceHistory, latestPrice, latestPriceTimestamp, userVaults :=
        map[], map[], map[], map[], map[], {};
      this.settings, blockTimestamp := settings, now;
      new;
      EmptyIsSound();
    }

    /** A new block. */
    method Tick(now: nat)
      requires Valid() && blockTimestamp <= now
      modifies this`blockTimestamp
      ensures Valid() && State() == old(State()).(now := now)
    {
      LaterIsValid(State(), now);
      blockTimestamp := now;
    }

    /** What administrators do. */
    method Configure(s: Settings)
      requires Valid()
      modifies this`settings
      ensures Valid() && State() == old(State()).(settings := s)
    {
      hide Sound, Under, Damped;
      settings := s;
    }

    /** Back to an earlier state: what a revert does. */
    method Restore(w: World)
      requires settings == w.settings && userVaults == w.vaults && blockTimestamp == w.now
      modifies this`nextPositionId, this`positions, this`userMarketPosition, this`openInterest, this`nextOrderId,
               this`orders, this`funding, this`virtualPools, this`priceHistory, this`latestPrice,
               this`latestPriceTimestamp
      ensures State() == w
    {
      hide *;
      RestoreBook(w.book);
      funding, virtualPools, priceHistory := w.funding, w.pools, w.history;
      latestPrice, latestPriceTimestamp := w.prices, w.times;
      StateIs();
    }

    method RestoreBook(b: Book)
      modifies this`nextPositionId, this`positions, this`userMarketPosition, this`openInterest, this`nextOrderId,
               this`orders
      ensures nextPositionId == b.nextPositionId && positions == b.positions && userMarketPosition == b.held
      ensures openInterest == b.interest && nextOrderId == b.nextOrderId && orders == b.orders
    {
      nextPositionId, positions, userMarketPosition := b.nextPositionId, b.positions, b.held;
      openInterest, nextOrderId, orders := b.interest, b.nextOrderId, b.orders;
    }

    // -------------------------------------------------------------- vaults

    method CreateVault(sender: User) returns (r: Outcome)
      requires Valid()
      modifies this`userVaults
      ensures Valid() && State() == old(State()).(vaults := old(userVaults) + {sender})
      ensures r.Success? <==> sender !in old(userVaults)
    {
      if sender in userVaults {
        assert userVaults == userVaults + {sender};
        return Rejected(VaultExists);
      }
      userVaults := userVaults + {sender};
      r := Success(0);
    }

    // -------------------------------------------------------------- funding and the pool, shared by the facets

    /** `_accrueFunding`. */
    method AccrueFunding(m: Market)
      modifies this`funding
      ensures funding == old(funding)[m := Accrue(FundingOf(old(funding), m), blockTimestamp)]
    {
      var fs := FundingOf(funding, m);
      if fs.last == 0 {
        funding := funding[m := fs.(last := blockTimestamp)];
        return;
      }
      var elapsed := blockTimestamp - fs.last;
      if elapsed == 0 {
        assert fs.rate * 0 == 0;
        return;
      }
      var accrued := fs.rate * elapsed;
      funding := funding[m := fs.(long := fs.long + accrued, short := fs.short - accrued, last := blockTimestamp)];
    }

    /** `_applyVirtualTrade`. */
    method ApplyVirtualTrade(m: Market, size: nat, isLong: bool, isOpen: bool)
      modifies this`virtualPools
      ensures virtualPools == TradeIn(old(virtualPools), m, size, isLong, isOpen)
    {
      var p := PoolOf(virtualPools, m);
      if p.base == 0 { return; }
      var k := MulFp(p.base, p.quote);
      var addQuote := (isLong && isOpen) || (!isLong && !isOpen);
      var quote := p.quote;
      if addQuote {
        quote := quote + size;
      } else {
        quote := if quote > size then quote - size else 1;
      }
      var base := p.base;
      if quote > 0 { base := DivFp(k, quote); }
      virtualPools := virtualPools[m := p.(base := base, quote := quote)];
    }

    /** `_getExecutionPrice`. */
    method GetExecutionPrice(m: Market, size: nat, isLong: bool) returns (price: nat)
      ensures price == ExecutionPrice(PoolOf(virtualPools, m), Price(State(), m), size, isLong)
    {
      hide MulFp, DivFp;
      var oracle, p := Price(State(), m), PoolOf(virtualPools, m);
      if p.base == 0 || size == 0 { return oracle; }
      var k, mark := MulFp(p.base, p.quote), DivFp(p.quote, p.base);
      var delta := 0;
      if isLong {
        var base := DivFp(k, p.quote + size);
        delta := if p.base > base then p.base - base else 0;
      } else {
        if size >= p.quote { return oracle; }
        var base := DivFp(k, p.quote - size);
        delta := if base > p.base then base - p.base else 0;
      }
      if delta == 0 { return oracle; }
      var paid := DivFp(size, delta);
      if paid >= mark { return oracle + (paid - mark); }
      var spread := mark - paid;
      price := if oracle > spread then oracle - spread else 1;
    }

    // -------------------------------------------------------------- opening

    method CheckOpen(sender: User, m: Market, token: Token, amount: nat, leverage: nat, isLong: bool, funded: bool)
        returns (r: Outcome)
      ensures r.Success? <==> CanOpen(State(), sender, m, token, amount, leverage, isLong, funded)
    {
      if settings.paused || m in settings.pausedMarkets { return Rejected(Paused); }
      var config := Config(settings, m);
      if !config.enabled { return Rejected(NotEnabled); }
      if token !in settings.accepted { return Rejected(CollateralNotAccepted); }
      if HasActive(View(), sender, m) { return Rejected(PositionExists); }
      var collateralUsd := ToUsd(settings, token, amount);
      if collateralUsd == 0 { return Rejected(ZeroCollateral); }
      var size := MulFp(collateralUsd, leverage);
      if size < settings.minPositionSize { return Rejected(BelowMinimum); }
      if !ValidLeverage(size, collateralUsd, config.maxLeverage) { return Rejected(LeverageTooHigh); }
      if Side(Interest(View(), m), isLong) + size > config.maxOpenInterest { return Rejected(CapExceeded); }
      if Stale(State(), m) { return Rejected(StalePrice); }
      var price := GetExecutionPrice(m, size, isLong);
      if price == 0 { return Rejected(NoPrice); }
      if sender !in userVaults { return Rejected(NoVault); }
      if !funded { return Rejected(LockFailed); }
      r := Success(0);
    }

    /** A new position under the next id, held by its user. */
    method StorePosition(p: Position)
      modifies this`nextPositionId, this`positions, this`userMarketPosition
      ensures nextPositionId == old(nextPositionId) + 1 && positions == old(positions)[nextPositionId := p]
      ensures userMarketPosition == old(userMarketPosition)[(p.user, p.market) := nextPositionId]
    {
      nextPositionId := nextPositionId + 1;
      positions := positions[nextPositionId := p];
      userMarketPosition := userMarketPosition[(p.user, p.market) := nextPositionId];
    }

    method CountIn(m: Market, isLong: bool, size: nat)
      modifies this`openInterest
      ensures openInterest == old(openInterest)[m := Grown(old(InterestIn(m)), isLong, size)]
    {
      var oi := InterestIn(m);
      if isLong {
        openInterest := openInterest[m := oi.(long := oi.long + size)];
      } else {
        openInterest := openInterest[m := oi.(short := oi.short + size)];
      }
    }

    method CountOut(m: Market, isLong: bool, size: nat)
      modifies this`openInterest
      ensures openInterest == old(openInterest)[m := Shrunk(old(InterestIn(m)), isLong, size)]
    {
      var oi := InterestIn(m);
      if isLong {
        openInterest := openInterest[m := oi.(long := if oi.long > size then oi.long - size else 0)];
      } else {
        openInterest := openInterest[m := oi.(short := if oi.short > size then oi.short - size else 0)];
      }
    }

    method OpenPosition(sender: User, m: Market, token: Token, amount: nat, leverage: nat, isLong: bool, funded: bool)
        returns (r: Outcome)
      requires Valid()
      modifies this`nextPositionId, this`positions, this`userMarketPosition, this`openInterest, this`funding,
               this`virtualPools
      ensures Valid()
      ensures r.Success? <==> CanOpen(old(State()), sender, m, token, amount, leverage, isLong, funded)
      ensures r.Rejected? ==> State() == old(State())
      ensures r.Success? ==>
                && r.id == nextPositionId == old(nextPositionId) + 1
                && Enabled(old(View()), OpenMove(old(State()), sender, m, token, amount, leverage, isLong))
                && State() == OpenDone(old(State()), sender, m, token, amount, leverage, isLong)
    {
      hide *;
      r := CheckOpen(sender, m, token, amount, leverage, isLong, funded);
      if r.Rejected? { return; }
      ghost var w := State();
      StateIs();
      OpenIsEnabled(w, sender, m, token, amount, leverage, isLong, funded);
      OpenDoneIsValid(w, sender, m, token, amount, leverage, isLong);
      OpenFields(w, sender, m, token, amount, leverage, isLong);
      InterestIs(m);
      var size := MulFp(ToUsd(settings, token, amount), leverage);
      var entry := GetExecutionPrice(m, size, isLong);
      var net := OpeningCollateral(settings, token, amount, size);
      AccrueFunding(m);
      StorePosition(Position(sender, m, isLong, size, ToUsd(settings, token, net), token, net, entry,
                             Index(funding[m], isLong), true));
      CountIn(m, isLong, size);
      ApplyVirtualTrade(m, size, isLong, true);
      StateIs();
      r := Success(nextPositionId);
    }

    // -------------------------------------------------------------- changing

    method CheckOwner(sender: User, id: nat) returns (r: Outcome)
      ensures r.Success? <==> Owns(State(), sender, id)
    {
      if id !in positions || !positions[id].active { return Rejected(NotActive); }
      if positions[id].user != sender { return Rejected(NotOwner); }
      r := Success(id);
    }

    method CheckAddSize(sender: User, id: nat, amount: nat, leverage: nat, funded: bool) returns (r: Outcome)
      ensures r.Success? <==> CanAddSize(State(), sender, id, amount, leverage, funded)
    {
      hide MulFp, ToUsd, ValidLeverage;
      r := CheckOwner(sender, id);
      if r.Rejected? { return; }
      var p := positions[id];
      if Halted(settings, p.market) { return Rejected(Paused); }
      if Stale(State(), p.market) { return Rejected(StalePrice); }
      var addedUsd := ToUsd(settings, p.token, amount);
      if !ValidLeverage(MulFp(addedUsd, leverage), addedUsd, Config(settings, p.market).maxLeverage) {
        return Rejected(LeverageTooHigh);
      }
      if !funded { return Rejected(LockFailed); }
    }

    /** There is no cap on this path. */
    method AddSize(sender: User, id: nat, amount: nat, leverage: nat, funded: bool) returns (r: Outcome)
      requires Valid()
      modifies this`positions, this`openInterest, this`funding, this`virtualPools
      ensures Valid()
      ensures r.Success? <==> CanAddSize(old(State()), sender, id, amount, leverage, funded)
      ensures r.Rejected? ==> State() == old(State())
      ensures r.Success? ==>
                && id in old(positions) && Enabled(old(View()), AddSizeMove(old(State()), id, amount, leverage))
                && State() == AddSizeDone(old(State()), id, amount, leverage)
    {
      hide *;
      r := CheckAddSize(sender, id, amount, leverage, funded);
      if r.Rejected? { return; }
      ghost var w := State();
      StateIs();
      AddSizeFields(w, sender, id, amount, leverage, funded);
      AddSizeDoneIsValid(w, sender, id, amount, leverage, funded);
      var m, isLong := positions[id].market, positions[id].isLong;
      InterestIs(m);
      var added := MulFp(ToUsd(settings, positions[id].token, amount), leverage);
      AccrueFunding(m);
      var p := Settled(positions[id], funding[m], Decimals(settings, positions[id].token));
      var net := AfterFee(settings, p.token, amount, added, settings.takerFeeBps);
      var price := if m in latestPrice then latestPrice[m] else 0;
      GrowPosition(id, p.(size := p.size + added, collateral := p.collateral + net,
                          collateralUsd := p.collateralUsd + ToUsd(settings, p.token, net),
                          entry := CalculateAverageEntryPrice(p.size, p.entry, added, price)), m, isLong, added);
      StateIs();
    }

    method GrowPosition(id: nat, p: Position, m: Market, isLong: bool, added: nat)
      modifies this`positions, this`openInterest, this`virtualPools
      ensures positions == old(positions)[id := p]
      ensures openInterest == old(openInterest)[m := Grown(old(InterestIn(m)), isLong, added)]
      ensures virtualPools == TradeIn(old(virtualPools), m, added, isLong, true)
    {
      positions := positions[id := p];
      CountIn(m, isLong, added);
      ApplyVirtualTrade(m, added, isLong, true);
    }

    /** `_calculatePayout`. */
    method CalculatePayout(collateral: nat, pnl: int, fee: nat, token: Token) returns (payout: nat)
      ensures payout == PayoutOf(collateral, pnl, fee, Decimals(settings, token))
    {
      hide UsdToTokens;
      payout := collateral;
      if pnl > 0 {
        payout := collateral + UsdToTokens(Decimals(settings, token), pnl);
      } else if pnl < 0 {
        var loss := UsdToTokens(Decimals(settings, token), -pnl);
        payout := if collateral > loss then collateral - loss else 0;
      }
      payout := if payout > fee then payout - fee else 0;
    }

    /** `_payoutToVault`: reverts without an account, or when the transfer fails. */
    method CheckPayout(user: User, payout: nat, paid: bool) returns (ok: bool)
      ensures ok == CanPay(State(), user, payout, paid)
    {
      ok := payout == 0 || (user in userVaults && paid);
    }

    method CheckPartialClose(sender: User, id: nat, close: nat, paid: bool) returns (r: Outcome)
      ensures r.Success? <==> CanPartialClose(State(), sender, id, close, paid)
    {
      hide SettledNow, CalculatePnl, DivFp, MulFp, MulFpSigned, PayoutOf, TakerFee, CanPay;
      r := CheckOwner(sender, id);
      if r.Rejected? { return; }
      var p := positions[id];
      if close == 0 || close >= p.size { return Rejected(InvalidSize); }
      if settings.minPositionSize > 0 && p.size - close < settings.minPositionSize { return Rejected(BelowMinimum); }
      if Stale(State(), p.market) { return Rejected(StalePrice); }
      SettledNowKeeps(State(), id);
      p := SettledNow(State(), id);
      var fraction := DivFp(close, p.size);
      var pnl := MulFpSigned(CalculatePnl(p.isLong, p.size, p.entry, Price(State(), p.market)), fraction);
      var payout := CalculatePayout(MulFp(p.collateral, fraction), pnl, TakerFee(State(), p.token, close), p.token);
      var ok := CheckPayout(sender, payout, paid);
      if !ok { return Rejected(TransferFailed); }
    }

    method PartialClose(sender: User, id: nat, close: nat, paid: bool) returns (r: Outcome)
      requires Valid()
      modifies this`positions, this`openInterest, this`funding, this`virtualPools
      ensures Valid()
      ensures r.Success? <==> CanPartialClose(old(State()), sender, id, close, paid)
      ensures r.Rejected? ==> State() == old(State())
      ensures r.Success? ==>
                && id in old(positions) && 0 < close < old(positions)[id].size
                && Enabled(old(View()), PartialCloseMove(old(State()), id, close))
                && State() == PartialCloseDone(old(State()), id, close)
    {
      hide *;
      r := CheckPartialClose(sender, id, close, paid);
      if r.Rejected? { return; }
      ghost var w := State();
      StateIs();
      PartialCloseFields(w, sender, id, close, paid);
      PartialCloseDoneIsValid(w, sender, id, close, paid);
      var m, isLong := positions[id].market, positions[id].isLong;
      InterestIs(m);
      AccrueFunding(m);
      var p := Settled(positions[id], funding[m], Decimals(settings, positions[id].token));
      positions := positions[id := Reduced(p, close)];
      CountOut(m, isLong, close);
      ApplyVirtualTrade(m, close, isLong, false);
      StateIs();
    }

    method CheckClose(sender: User, id: nat, paid: bool) returns (r: Outcome)
      ensures r.Success? <==> CanClose(State(), sender, id, paid)
    {
      hide SettledNow, CalculatePnl, PayoutOf, TakerFee, CanPay;
      r := CheckOwner(sender, id);
      if r.Rejected? { return; }
      if Stale(State(), positions[id].market) { return Rejected(StalePrice); }
      var p := SettledNow(State(), id);
      var pnl := CalculatePnl(p.isLong, p.size, p.entry, Price(State(), p.market));
      var payout := CalculatePayout(p.collateral, pnl, TakerFee(State(), p.token, p.size), p.token);
      var ok := CheckPayout(sender, payout, paid);
      if !ok { return Rejected(TransferFailed); }
    }

    method ClosePosition(sender: User, id: nat, paid: bool) returns (r: Outcome)
      requires Valid()
      modifies this`positions, this`userMarketPosition, this`openInterest, this`funding, this`virtualPools
      ensures Valid()
      ensures r.Success? <==> CanClose(old(State()), sender, id, paid)
      ensures r.Rejected? ==> State() == old(State())
      ensures r.Success? ==>
                && id in old(positions) && Enabled(old(View()), CloseMove(old(State()), id))
                && State() == CloseDone(old(State()), id)
                && !HasActive(View(), sender, old(positions)[id].market)
    {
      hide Coherent, Enabled, Moved, Traded, SettledNow, HasActive;
      r := CheckClose(sender, id, paid);
      if r.Rejected? { return; }
      SettleAndShut(id);
    }

    /** What a close and a liquidation have in common: settle funding, take the size out of open interest and out of the
        pool, deactivate. */
    method SettleAndShut(id: nat)
      requires Valid() && IsActive(View(), id)
      modifies this`positions, this`userMarketPosition, this`openInterest, this`funding, this`virtualPools
      ensures Valid() && id in old(positions) && Enabled(old(View()), CloseMove(old(State()), id))
      ensures State() == CloseDone(old(State()), id)
      ensures !HasActive(View(), old(positions)[id].user, old(positions)[id].market)
    {
      hide *;
      ghost var w := State();
      StateIs();
      ActiveIsListed(w.book, id);
      CloseFields(w, id);
      CloseDoneIsValid(w, id);
      var m, isLong, size := positions[id].market, positions[id].isLong, positions[id].size;
      InterestIs(m);
      AccrueFunding(m);
      var p := Settled(positions[id], funding[m], Decimals(settings, positions[id].token));
      ShutPosition(id, p, size);
      ApplyVirtualTrade(m, size, isLong, false);
      StateIs();
    }

    /** The size out of open interest, the position deactivated, its user free. */
    method ShutPosition(id: nat, p: Position, size: nat)
      modifies this`positions, this`userMarketPosition, this`openInterest
      ensures positions == old(positions)[id := p.(active := false)]
      ensures userMarketPosition == old(userMarketPosition)[(p.user, p.market) := 0]
      ensures openInterest == old(openInterest)[p.market := Shrunk(old(InterestIn(p.market)), p.isLong, size)]
    {
      CountOut(p.market, p.isLong, size);
      positions := positions[id := p.(active := false)];
      userMarketPosition := userMarketPosition[(p.user, p.market) := 0];
    }

    method CheckLiquidation(id: nat, paid: bool) returns (r: Outcome)
      ensures r.Success? <==> CanLiquidate(State(), id, paid)
    {
      hide CalculateMarginRatio, Settled, Accrue, Distributes;
      if id !in positions || !positions[id].active { return Rejected(NotActive); }
      var was := positions[id];
      var p := Settled(was, Accrue(FundingOf(funding, was.market), blockTimestamp), Decimals(settings, was.token));
      SettledKeeps(was, Accrue(FundingOf(funding, was.market), blockTimestamp), Decimals(settings, was.token));
      var price := Price(State(), p.market);
      if price == 0 { return Rejected(NoPrice); }
      var ratio := CalculateMarginRatio(p.isLong, p.collateralUsd, p.size, p.entry, price);
      if ratio >= Config(settings, p.market).maintenanceBps {
        return Rejected(Healthy);
      }
      var distributes := CheckDistribution(p);
      if distributes && !paid { return Rejected(TransferFailed); }
      r := Success(id);
    }

    /** Whether a liquidation transfers anything: a reward, or what is left to the user's account. */
    method CheckDistribution(p: Position) returns (distributes: bool)
      ensures distributes == Distributes(State(), p)
    {
      hide UsdToTokens, CalculatePnl;
      var equity := p.collateralUsd + CalculatePnl(p.isLong, p.size, p.entry, Price(State(), p.market));
      var remaining := 0;
      if equity > 0 { remaining := UsdToTokens(Decimals(settings, p.token), equity); }
      var penalty := Penalty(remaining, settings.liquidationFeeBps);
      var reward := penalty * 6000 / BPS;
      distributes := (0 < reward <= remaining) || (remaining > penalty && p.user in userVaults);
    }

    /** Anyone may liquidate a position whose margin, funding settled, is below maintenance; nobody any other. */
    method Liquidate(id: nat, paid: bool) returns (r: Outcome)
      requires Valid()
      modifies this`positions, this`userMarketPosition, this`openInterest, this`funding, this`virtualPools
      ensures Valid()
      ensures r.Success? <==> CanLiquidate(old(State()), id, paid)
      ensures r.Rejected? ==> State() == old(State())
      ensures r.Success? ==>
                && id in old(positions) && Enabled(old(View()), CloseMove(old(State()), id))
                && State() == CloseDone(old(State()), id)
                && !HasActive(View(), old(positions)[id].user, old(positions)[id].market)
    {
      hide *;
      r := CheckLiquidation(id, paid);
      if r.Rejected? { return; }
      LiquidatedIsActive(State(), id, paid);
      StateIs();
      SettleAndShut(id);
    }

    method CheckDeleverage(id: nat, cut: nat, paid: bool) returns (r: Outcome)
      ensures r.Success? <==> CanDeleverage(State(), id, cut, paid)
    {
      hide CalculatePnl, DivFp, MulFp, MulFpSigned, UsdToTokens;
      if id !in positions || !positions[id].active { return Rejected(NotActive); }
      var p := positions[id];
      if cut == 0 || cut > p.size { return Rejected(InvalidSize); }
      if CalculatePnl(p.isLong, p.size, p.entry, Price(State(), p.market)) <= 0 { return Rejected(NotProfitable); }
      var fraction := DivFp(cut, p.size);
      var profit := MulFpSigned(CalculatePnl(p.isLong, p.size, p.entry, Price(State(), p.market)), fraction);
      var payout := MulFp(p.collateral, fraction) +
        UsdToTokens(Decimals(settings, p.token), if profit > 0 then profit else 0);
      if payout > 0 && p.user in userVaults && !paid { return Rejected(TransferFailed); }
      r := Success(id);
    }

    method AutoDeleverage(id: nat, cut: nat, paid: bool) returns (r: Outcome)
      requires Valid()
      modifies this`positions, this`userMarketPosition, this`openInterest
      ensures Valid()
      ensures r.Success? <==> CanDeleverage(old(State()), id, cut, paid)
      ensures r.Rejected? ==> State() == old(State())
      ensures r.Success? ==>
                && id in old(positions) && 0 < cut <= old(positions)[id].size
                && Enabled(old(View()), DeleverageMove(old(State()), id, cut))
                && State() == DeleverageDone(old(State()), id, cut)
    {
      hide *;
      r := CheckDeleverage(id, cut, paid);
      if r.Rejected? { return; }
      ghost var w := State();
      StateIs();
      DeleverageFields(w, id, cut, paid);
      DeleverageIsValid(w, id, cut, paid);
      var p := Reduced(positions[id], cut);
      InterestIs(p.market);
      CountOut(p.market, p.isLong, cut);
      if p.size == 0 {
        p := p.(active := false);
        userMarketPosition := userMarketPosition[(p.user, p.market) := 0];
      }
      positions := positions[id := p];
      StateIs();
    }

    method AddCollateral(sender: User, id: nat, amount: nat, funded: bool) returns (r: Outcome)
      requires Valid()
      modifies this`positions
      ensures Valid()
      ensures r.Success? <==> CanAddCollateral(old(State()), sender, id, amount, funded)
      ensures r.Rejected? ==> State() == old(State())
      ensures r.Success? ==>
                && id in old(positions) && Enabled(old(View()), AddCollateralMove(old(State()), id, amount))
                && State() == AddCollateralDone(old(State()), id, amount)
    {
      hide Coherent, Enabled, ToUsd, Moved, AddCollateralDone, AddCollateralMove;
      r := CheckOwner(sender, id);
      if r.Rejected? { return; }
      if amount == 0 { return Rejected(ZeroAmount); }
      if !funded { return Rejected(LockFailed); }
      AddCollateralFields(State(), sender, id, amount, funded);
      var p := positions[id];
      positions := positions[id := p.(collateral := p.collateral + amount,
                                      collateralUsd := p.collateralUsd + ToUsd(settings, p.token, amount))];
    }

    method CheckRemoveCollateral(sender: User, id: nat, amount: nat, paid: bool) returns (r: Outcome)
      ensures r.Success? <==> CanRemoveCollateral(State(), sender, id, amount, paid)
    {
      hide ToUsd, DivFp, SettledNow, CalculatePnl;
      r := CheckOwner(sender, id);
      if r.Rejected? { return; }
      if amount == 0 || amount >= positions[id].collateral { return Rejected(ZeroAmount); }
      if Stale(State(), positions[id].market) { return Rejected(StalePrice); }
      var p := SettledNow(State(), id);
      SettledNowKeeps(State(), id);
      var amountUsd := ToUsd(settings, p.token, amount);
      if p.collateralUsd <= amountUsd { return Rejected(ZeroCollateral); }
      if p.collateral < amount { return Rejected(ZeroAmount); }
      var config := Config(settings, p.market);
      var equity := p.collateralUsd - amountUsd + CalculatePnl(p.isLong, p.size, p.entry, Price(State(), p.market));
      if equity <= 0 || p.size == 0 || equity * BPS / p.size < 2 * config.maintenanceBps {
        return Rejected(MarginTooLow);
      }
      if !ValidLeverage(p.size, p.collateralUsd - amountUsd, config.maxLeverage) { return Rejected(LeverageTooHigh); }
      var ok := CheckPayout(sender, amount, paid);
      if !ok { return Rejected(TransferFailed); }
    }

    /** Whatever is withdrawn, the position keeps twice the maintenance margin and stays within the leverage limit. */
    method RemoveCollateral(sender: User, id: nat, amount: nat, paid: bool) returns (r: Outcome)
      requires Valid()
      modifies this`positions, this`funding
      ensures Valid()
      ensures r.Success? <==> CanRemoveCollateral(old(State()), sender, id, amount, paid)
      ensures r.Rejected? ==> State() == old(State())
      ensures r.Success? ==>
                && id in old(positions) && amount <= SettledNow(old(State()), id).collateral
                && ToUsd(settings, SettledNow(old(State()), id).token, amount) <=
                   SettledNow(old(State()), id).collateralUsd
                && Enabled(old(View()), RemoveCollateralMove(old(State()), id, amount))
                && State() == RemoveCollateralDone(old(State()), id, amount)
    {
      hide *;
      r := CheckRemoveCollateral(sender, id, amount, paid);
      if r.Rejected? { return; }
      ghost var w := State();
      StateIs();
      RemoveCollateralFields(w, sender, id, amount, paid);
      var m := positions[id].market;
      AccrueFunding(m);
      var p := Settled(positions[id], funding[m], Decimals(settings, positions[id].token));
      positions := positions[id := p.(collateral := p.collateral - amount,
                                      collateralUsd := p.collateralUsd - ToUsd(settings, p.token, amount))];
      StateIs();
    }

    // -------------------------------------------------------------- orders

    method CheckPlace(o: Order) returns (r: Outcome)
      ensures r.Success? <==> CanPlace(State(), o)
    {
      hide ToUsd, DivFp;
      if settings.paused { return Rejected(Paused); }
      if !Config(settings, o.market).enabled { return Rejected(NotEnabled); }
      if o.token !in settings.accepted { return Rejected(CollateralNotAccepted); }
      if o.trigger == 0 { return Rejected(ZeroTrigger); }
      if o.size == 0 { return Rejected(ZeroSize); }
      if o.leverage == 0 { return Rejected(ZeroLeverage); }
      if o.collateral == 0 { return Rejected(ZeroCollateral); }
      if o.size < settings.minOrderSize { return Rejected(BelowMinimum); }
      if o.user !in userVaults { return Rejected(NoVault); }
      if !ValidLeverage(o.size, ToUsd(settings, o.token, o.collateral), Config(settings, o.market).maxLeverage) {
        return Rejected(LeverageTooHigh);
      }
      r := Success(0);
    }

    method StoreOrder(o: Order)
      requires Valid() && Enabled(View(), Place(o))
      modifies this`nextOrderId, this`orders
      ensures Valid() && nextOrderId == old(nextOrderId) + 1
      ensures State() == Moved(old(State()), Place(o), 0, false)
    {
      hide Coherent, Enabled, Apply;
      PlaceApplies(View(), o);
      MovedIsValid(State(), Place(o), 0, false);
      nextOrderId := nextOrderId + 1;
      orders := orders[nextOrderId := o];
    }

    /** Limit and stop-limit orders; the limit price of a limit order is its trigger. */
    method PlaceOrder(sender: User, m: Market, isLong: bool, kind: Kind, trigger: nat, limit: nat, size: nat,
                      leverage: nat,
                      token: Token, amount: nat) returns (r: Outcome)
      requires Valid() && Opens(kind) && (kind.Limit? ==> limit == trigger)
      modifies this`nextOrderId, this`orders
      ensures Valid()
      ensures var o := Order(sender, m, isLong, kind, trigger, limit, size, leverage, token, amount, true);
              && (r.Success? <==> CanPlace(old(State()), o))
              && (r.Success? ==> r.id == nextOrderId == old(nextOrderId) + 1 && Enabled(old(View()), Place(o)) &&
                                 State() == Moved(old(State()), Place(o), 0, false))
      ensures r.Rejected? ==> State() == old(State())
    {
      hide Coherent, ValidLeverage, ToUsd, Moved;
      var o := Order(sender, m, isLong, kind, trigger, limit, size, leverage, token, amount, true);
      r := CheckPlace(o);
      if r.Rejected? { return; }
      StoreOrder(o);
      r := Success(nextOrderId);
    }

    /** Take-profit and stop-loss orders. */
    method PlaceCloseOrder(sender: User, id: nat, trigger: nat, kind: Kind) returns (r: Outcome)
      requires Valid() && !Opens(kind)
      modifies this`nextOrderId, this`orders
      ensures Valid()
      ensures r.Success? <==> CanPlaceClose(old(State()), sender, id, trigger)
      ensures r.Rejected? ==> State() == old(State())
      ensures r.Success? ==>
                && r.id == nextOrderId == old(nextOrderId) + 1 && id in positions
                && var o := CloseOrder(old(State()), sender, id, trigger, kind);
                   Enabled(old(View()), Place(o)) && State() == Moved(old(State()), Place(o), 0, false)
    {
      hide Sound, Under, Damped, Dated, Enabled, Moved;
      if settings.paused { return Rejected(Paused); }
      if trigger == 0 { return Rejected(ZeroTrigger); }
      r := CheckOwner(sender, id);
      if r.Rejected? { return; }
      PlaceCloseIsEnabled(State(), sender, id, trigger, kind);
      var p := positions[id];
      StoreOrder(Order(sender, p.market, p.isLong, kind, trigger, trigger, p.size, 0, p.token, 0, true));
      r := Success(nextOrderId);
    }

    method RetireOrder(o: nat)
      requires o in orders
      modifies this`orders
      ensures orders == old(orders)[o := old(orders)[o].(active := false)]
    {
      orders := orders[o := orders[o].(active := false)];
    }

    method CancelOrder(sender: User, o: nat) returns (r: Outcome)
      requires Valid()
      modifies this`orders
      ensures Valid()
      ensures r.Success? <==> CanCancel(old(State()), sender, o)
      ensures r.Rejected? ==> State() == old(State())
      ensures r.Success? ==>
                Enabled(old(View()), Cancel(o, sender)) && State() == Moved(old(State()), Cancel(o, sender), 0, false)
    {
      hide Coherent, Apply;
      if !OrderActive(View(), o) { return Rejected(NotActive); }
      if orders[o].user != sender { return Rejected(NotOwner); }
      CancelApplies(View(), o, sender);
      MovedIsValid(State(), Cancel(o, sender), 0, false);
      RetireOrder(o);
      r := Success(o);
    }

    method CheckExecute(o: nat, funded: bool) returns (r: Outcome)
      ensures r.Success? <==> CanExecute(State(), o, funded)
    {
      hide Triggered;
      if !OrderActive(View(), o) { return Rejected(NotActive); }
      var order := orders[o];
      if Halted(settings, order.market) { return Rejected(Paused); }
      var price := Price(State(), order.market);
      if price == 0 { return Rejected(NoPrice); }
      if !Triggered(order, price) { return Rejected(NotTriggered); }
      if HasActive(View(), order.user, order.market) { return Rejected(PositionExists); }
      if !Config(settings, order.market).enabled { return Rejected(NotEnabled); }
      if order.user !in userVaults { return Rejected(NoVault); }
      // A close order brings no collateral, and nothing cannot be locked.
      if !Opens(order.kind) || order.collateral == 0 || !funded { return Rejected(LockFailed); }
      var interest := Side(Interest(View(), order.market), order.isLong);
      if interest + order.size > Config(settings, order.market).maxOpenInterest {
        return Rejected(CapExceeded);
      }
      r := Success(o);
    }

    method ExecuteOrder(o: nat, funded: bool) returns (r: Outcome)
      requires Valid()
      modifies this`nextPositionId, this`positions, this`userMarketPosition, this`openInterest, this`orders,
               this`funding, this`virtualPools
      ensures Valid()
      ensures r.Success? <==> CanExecute(old(State()), o, funded)
      ensures r.Rejected? ==> State() == old(State())
      ensures r.Success? ==>
                && r.id == nextPositionId == old(nextPositionId) + 1 && o in old(orders)
                && Enabled(old(View()), FillMove(old(State()), o, true)) && State() == FillDone(old(State()), o, true)
    {
      hide *;
      r := CheckExecute(o, funded);
      if r.Rejected? { return; }
      ghost var w := State();
      StateIs();
      ExecuteFields(w, o, funded);
      FillDoneIsValid(w, o, true);
      var order := orders[o];
      InterestIs(order.market);
      FilledIs(w, o, Accrue(FundingOf(w.funding, order.market), w.now));
      var net := AfterFee(settings, order.token, order.collateral, order.size, settings.makerFeeBps);
      var price := if order.market in latestPrice then latestPrice[order.market] else 0;
      AccrueFunding(order.market);
      FillEffects(o, Position(order.user, order.market, order.isLong, order.size, ToUsd(settings, order.token, net),
                              order.token,
                              net, price, Index(funding[order.market], order.isLong), true));
      StateIs();
      r := Success(nextPositionId);
    }

    /** The effects of filling an order: its position, counted, the trade in the pool, and the order done with. */
    method FillEffects(o: nat, p: Position)
      requires o in orders
      modifies this`nextPositionId, this`positions, this`userMarketPosition, this`openInterest, this`orders,
               this`virtualPools
      ensures nextPositionId == old(nextPositionId) + 1 && positions == old(positions)[nextPositionId := p]
      ensures userMarketPosition == old(userMarketPosition)[(p.user, p.market) := nextPositionId]
      ensures openInterest == old(openInterest)[p.market := Grown(old(InterestIn(p.market)), p.isLong, p.size)]
      ensures virtualPools == TradeIn(old(virtualPools), p.market, p.size, p.isLong, true)
      ensures orders == old(orders)[o := old(orders)[o].(active := false)]
    {
      hide *;
      StorePosition(p);
      CountIn(p.market, p.isLong, p.size);
      ApplyVirtualTrade(p.market, p.size, p.isLong, true);
      RetireOrder(o);
    }

    // -------------------------------------------------------------- pools

    method InitializePool(m: Market, price: nat, liquidity: nat, damping: nat) returns (r: Outcome)
      requires Valid()
      modifies this`virtualPools
      ensures Valid()
      ensures r.Success? <==>
                && price > 0 && liquidity > 0 && 0 < damping <= BPS && m in settings.markets
                && PoolOf(old(virtualPools), m).base == 0
      ensures r.Rejected? ==> State() == old(State())
      ensures r.Success? ==>
                && virtualPools ==
                   old(virtualPools)[m := Pool(liquidity, MulFp(liquidity, price), blockTimestamp, damping)]
                && State() == old(State()).(pools := virtualPools)
                && MarkPrice(virtualPools[m]) <= price && (price - MarkPrice(virtualPools[m]) - 1) * liquidity < W
    {
      hide Sound, Under, Chronological, MulFp, DivFp;
      if price == 0 { return Rejected(ZeroPrice); }
      if liquidity == 0 { return Rejected(ZeroLiquidity); }
      if damping == 0 || damping > BPS { return Rejected(InvalidDamping); }
      if m !in settings.markets { return Rejected(NoMarket); }
      if PoolOf(virtualPools, m).base != 0 { return Rejected(PoolExists); }
      InitialMark(liquidity, price);
      virtualPools := virtualPools[m := Pool(liquidity, MulFp(liquidity, price), blockTimestamp, damping)];
      r := Success(0);
    }

    method SyncToOracle(m: Market) returns (r: Outcome)
      requires Damped(virtualPools)
      modifies this`virtualPools
      ensures r.Success? <==> PoolOf(old(virtualPools), m).base > 0 && Price(State(), m) > 0
      ensures virtualPools == SyncOne(old(virtualPools), Price(State(), m), m, blockTimestamp)
    {
      var p, price := PoolOf(virtualPools, m), if m in latestPrice then latestPrice[m] else 0;
      if p.base == 0 { return Rejected(NoPool); }
      if price == 0 { return Rejected(NoPrice); }
      var target := MulFp(p.base, price);
      var quote := PullTo(p.quote, target, p.damping);
      virtualPools := virtualPools[m := p.(quote := quote, lastSync := blockTimestamp)];
      r := Success(0);
    }

    /** The damped step of a sync. */
    method PullTo(quote: nat, target: nat, damping: nat) returns (pulled: nat)
      requires damping <= BPS
      ensures pulled == Pull(quote, target, damping)
    {
      if target > quote {
        pulled := quote + (target - quote) * damping / BPS;
      } else {
        PartOf(quote - target, damping);
        pulled := quote - (quote - target) * damping / BPS;
      }
    }

    // -------------------------------------------------------------- funding rates

    /** The new rate from the two prices and the present open interest. */
    method ComputeRate(mark: nat, index: nat, long: nat, short: nat, maxRate: int) returns (rate: int)
      requires index > 0
      ensures rate == FundingRate(mark, index, long, short, maxRate)
    {
      hide Trunc, DivFpSigned;
      rate := Trunc(DivFpSigned(mark - index, index), SECONDS_PER_DAY);
      rate := AmplifyRate(rate, long, short);
      if maxRate > 0 {
        if rate > maxRate { rate := maxRate; }
        if rate < -maxRate { rate := -maxRate; }
      }
    }

    method AmplifyRate(premium: int, long: nat, short: nat) returns (rate: int)
      ensures rate == Amplify(premium, long, short)
    {
      hide MulFpSigned;
      rate := premium;
      var total := long + short;
      if total > 0 {
        var imbalance: int;
        if long > short { imbalance := (long - short) * W / total; }
        else { imbalance := (short - long) * W / total; }
        rate := MulFpSigned(premium, W + imbalance);
      }
    }

    /** The pool's mark price against the average over the window; a market without a pool has no premium, and without
        an average the old rate stays. */
    method NewRate(m: Market) returns (rate: int)
      requires Valid()
      ensures rate == RefreshedFunding(State(), m).rate
    {
      hide FundingRate, MarkPrice, MeanPrice, Sound, Under, Damped;
      var index := CalculateTWAP(HistoryOf(State(), m), TWAP_WINDOW, blockTimestamp);
      if index == 0 { return FundingOf(funding, m).rate; }
      var p, oi := PoolOf(virtualPools, m), Interest(View(), m);
      var mark := if p.base > 0 then MarkPrice(p) else index;
      rate := ComputeRate(mark, index, oi.long, oi.short, settings.maxFundingRate);
    }

    /** Accrue at the old rate, then set the new one. */
    method UpdateFundingRate(m: Market)
      requires Valid()
      modifies this`funding
      ensures Valid() && State() == Refreshed(old(State()), m)
    {
      hide *;
      StateIs();
      RefreshFields(State(), m);
      var rate := NewRate(m);
      AccrueFunding(m);
      SetRate(m, rate);
      StateIs();
    }

    method SetRate(m: Market, rate: int)
      requires m in funding
      modifies this`funding
      ensures funding == old(funding)[m := old(funding)[m].(rate := rate)]
    {
      funding := funding[m := funding[m].(rate := rate)];
    }

    // -------------------------------------------------------------- prices

    /** All prices of a list, or none: a price that is zero or deviates too far reverts. */
    method PushPrices(ms: seq<Market>, prices: seq<nat>) returns (done: bool)
      requires |ms| == |prices|
      modifies this`latestPrice, this`latestPriceTimestamp, this`priceHistory
      ensures done == PushAll(old(State()), ms, prices).done
      ensures State() == PushAll(old(State()), ms, prices).world
    {
      hide CanPush, Pushed;
      ghost var w := State();
      var before := (latestPrice, latestPriceTimestamp, priceHistory);
      for i := 0 to |ms|
        invariant PushAll(w, ms[..i], prices[..i]) == Pushing(true, State())
      {
        PushNext(w, ms, prices, i);
        if !CanPush(State(), ms[i], prices[i]) {
          PushStops(w, ms, prices, i + 1);
          latestPrice, latestPriceTimestamp, priceHistory := before.0, before.1, before.2;
          return false;
        }
        PushOne(ms[i], prices[i]);
      }
      assert ms[..|ms|] == ms && prices[..|ms|] == prices;
      done := true;
    }

    method PushOne(m: Market, price: nat)
      modifies this`latestPrice, this`latestPriceTimestamp, this`priceHistory
      ensures State() == Pushed(old(State()), m, price)
    {
      latestPrice := latestPrice[m := price];
      latestPriceTimestamp := latestPriceTimestamp[m := blockTimestamp];
      var history := if m in priceHistory then priceHistory[m] else [];
      priceHistory := priceHistory[m := history + [PricePoint(price, blockTimestamp)]];
    }

    /** The oracle's own entry point also wants every market to exist. */
    method BatchUpdatePrices(ms: seq<Market>, prices: seq<nat>) returns (r: Outcome)
      requires Valid()
      modifies this`latestPrice, this`latestPriceTimestamp, this`priceHistory
      ensures Valid()
      ensures r.Success? <==> CanUpdatePrices(old(State()), ms, prices)
      ensures State() == if r.Success? then PushAll(old(State()), ms, prices).world else old(State())
    {
      hide Coherent, PushAll;
      if |ms| != |prices| { return Rejected(LengthMismatch); }
      if |ms| == 0 { return Rejected(LengthMismatch); }
      for i := 0 to |ms|
        invariant forall j :: 0 <= j < i ==> ms[j] in settings.markets
      {
        if ms[i] !in settings.markets { return Rejected(NoMarket); }
      }
      PushAllIsValid(State(), ms, prices);
      var done := PushPrices(ms, prices);
      if !done { return Rejected(PriceDeviation); }
      r := Success(0);
    }

    // -------------------------------------------------------------- the keeper's cycle

    /** Markets without a pool or a price are passed over. */
    method SyncAllVAMMs(ms: seq<Market>)
      requires Damped(virtualPools)
      modifies this`virtualPools
      ensures Damped(old(virtualPools)) && virtualPools == SyncAll(old(virtualPools), latestPrice, ms, blockTimestamp)
    {
      hide Damped, SyncOne;
      ghost var pools := virtualPools;
      for i := 0 to |ms|
        invariant Damped(virtualPools) && Damped(pools)
        invariant virtualPools == SyncAll(pools, latestPrice, ms[..i], blockTimestamp)
      {
        assert ms[..i + 1][..i] == ms[..i];
        var r := SyncToOracle(ms[i]);
      }
      assert ms[..|ms|] == ms;
    }

    method UpdateAllFundingRates(ms: seq<Market>)
      requires Valid()
      modifies this`funding
      ensures Valid() && State() == RefreshAll(old(State()), ms)
    {
      hide Coherent, Refreshed;
      ghost var w := State();
      for i := 0 to |ms|
        invariant Valid() && State() == RefreshAll(w, ms[..i])
      {
        assert ms[..i + 1][..i] == ms[..i];
        UpdateFundingRate(ms[i]);
      }
      assert ms[..|ms|] == ms;
    }

    /** One order of a batch.  A transfer that fails takes the whole batch down; an order beyond the cap counts as
        failed, but its position has been created, its user holds it, and the order is still active. */
    method KeeperOrder(o: nat, transfers: bool) returns (v: Verdict)
      requires Valid()
      modifies this`nextPositionId, this`positions, this`userMarketPosition, this`openInterest, this`orders,
               this`virtualPools
      ensures Valid()
      ensures v == OrderVerdict(old(State()), o, transfers) && State() == OrderDone(old(State()), o, transfers)
      ensures Overruns(old(State()), o, transfers) ==>
                && v.Failed? && nextPositionId == old(nextPositionId) + 1 && OrderActive(View(), o)
                && positions == old(positions)[nextPositionId := OrderedPosition(old(State()), old(orders)[o], false)]
                && openInterest == old(openInterest)
    {
      hide Coherent, OrderDone, OrderVerdict, OrderedPosition, CanExecute, Eligible, Triggered, HasActive, Closable,
        Overruns;
      ghost var w := State();
      StateIs();
      OrderIsLegal(w, o, transfers);
      VerdictIs(w, o, transfers);
      if Overruns(w, o, transfers) { OverrunLeaves(w, o, transfers); }
      if !Eligible(State(), o) { return Failed; }
      EligibleIsActive(w, o);
      if !Triggered(orders[o], Price(State(), orders[o].market)) { return Waiting; }
      if Opens(orders[o].kind) {
        v := KeeperOpen(o, transfers);
      } else if HasActive(View(), orders[o].user, orders[o].market) {
        v := KeeperCloseOrder(o, transfers);
      } else {
        v := Failed;
      }
    }

    /** `_executeOpenOrder`: the cap is looked at last. */
    method KeeperOpen(o: nat, transfers: bool) returns (v: Verdict)
      requires Valid() && Due(State(), o) && Opens(State().book.orders[o].kind)
      modifies this`nextPositionId, this`positions, this`userMarketPosition, this`openInterest, this`orders,
               this`virtualPools
      ensures v == OrderVerdict(old(State()), o, transfers) && State() == OrderDone(old(State()), o, transfers)
    {
      hide Coherent, OrderDone, OrderVerdict, CanExecute, Due, Overruns;
      VerdictOfDue(State(), o, transfers);
      var order := orders[o];
      if HasActive(View(), order.user, order.market) { return Failed; }
      if !Config(settings, order.market).enabled { return Failed; }
      if order.user !in userVaults { return Failed; }
      if !transfers || order.collateral == 0 { return Aborted; }
      var interest := Side(Interest(View(), order.market), order.isLong);
      if interest + order.size > Config(settings, order.market).maxOpenInterest {
        KeeperOverrun(o, transfers);
        return Failed;
      }
      KeeperFill(o, transfers);
      v := Executed;
    }

    /** The order's position, counted, and the order done with; the funding indexes are taken as they are. */
    method KeeperFill(o: nat, transfers: bool)
      requires CanExecute(State(), o, transfers)
      modifies this`nextPositionId, this`positions, this`userMarketPosition, this`openInterest, this`orders,
               this`virtualPools
      ensures State() == OrderDone(old(State()), o, transfers)
    {
      hide *;
      ghost var w := State();
      StateIs();
      KeeperFillFields(w, o, transfers);
      var order := orders[o];
      InterestIs(order.market);
      FilledIs(w, o, FundingOf(w.funding, order.market));
      var net := AfterFee(settings, order.token, order.collateral, order.size, settings.makerFeeBps);
      var price := if order.market in latestPrice then latestPrice[order.market] else 0;
      FillEffects(o, Position(order.user, order.market, order.isLong, order.size, ToUsd(settings, order.token, net),
                              order.token,
                              net, price, Index(FundingOf(funding, order.market), order.isLong), true));
      StateIs();
    }

    /** The position is created before the room under the cap is looked at, and stays. */
    method KeeperOverrun(o: nat, transfers: bool)
      requires Overruns(State(), o, transfers)
      modifies this`nextPositionId, this`positions, this`userMarketPosition
      ensures State() == OrderDone(old(State()), o, transfers)
    {
      hide *;
      ghost var w := State();
      StateIs();
      KeeperOverrunFields(w, o, transfers);
      var order := orders[o];
      FilledIs(w, o, FundingOf(w.funding, order.market));
      var net := AfterFee(settings, order.token, order.collateral, order.size, settings.makerFeeBps);
      var price := if order.market in latestPrice then latestPrice[order.market] else 0;
      StorePosition(Position(order.user, order.market, order.isLong, order.size, ToUsd(settings, order.token, net),
                             order.token,
                             net, price, Index(FundingOf(funding, order.market), order.isLong), true));
      StateIs();
    }

    /** `_executeCloseOrder`, once there is a position to close: a payout that cannot be made reverts. */
    method KeeperCloseOrder(o: nat, transfers: bool) returns (v: Verdict)
      requires Closable(State(), o)
      modifies this`positions, this`userMarketPosition, this`openInterest, this`orders, this`virtualPools
      ensures v == OrderVerdict(old(State()), o, transfers) && State() == OrderDone(old(State()), o, transfers)
    {
      hide Closable, OrderDone, OrderVerdict, SettledFor, CalculatePnl, TakerFee, PayoutOf, CanFillClose;
      VerdictOfClosable(State(), o, transfers);
      var p := SettledFor(State(), o);
      var pnl := CalculatePnl(p.isLong, p.size, p.entry, Price(State(), p.market));
      var payout := CalculatePayout(p.collateral, pnl, TakerFee(State(), p.token, p.size), p.token);
      if payout > 0 && p.user in userVaults && !transfers { return Aborted; }
      KeeperClose(o, transfers);
      v := Executed;
    }

    /** A close order closes what its owner holds in the market, whichever position that is. */
    method KeeperClose(o: nat, transfers: bool)
      requires CanFillClose(State(), o, transfers)
      modifies this`positions, this`userMarketPosition, this`openInterest, this`orders, this`virtualPools
      ensures State() == OrderDone(old(State()), o, transfers)
    {
      hide *;
      ghost var w := State();
      StateIs();
      KeeperCloseFields(w, o, transfers);
      var id := userMarketPosition[(orders[o].user, orders[o].market)];
      var m, isLong, size := positions[id].market, positions[id].isLong, positions[id].size;
      InterestIs(m);
      var p := Settled(positions[id], FundingOf(funding, m), Decimals(settings, positions[id].token));
      ShutPosition(id, p, size);
      ApplyVirtualTrade(m, size, isLong, false);
      RetireOrder(o);
      StateIs();
    }

    /** The orders of a list in turn.  The whole batch is undone when one of them asks for a transfer that fails. */
    method ExecuteOrders(os: seq<Turn>) returns (done: bool, executed: nat, failed: nat)
      requires Valid()
      modifies this`nextPositionId, this`positions, this`userMarketPosition, this`openInterest, this`orders,
               this`virtualPools, this`nextOrderId, this`funding, this`priceHistory, this`latestPrice,
               this`latestPriceTimestamp
      ensures Valid() && State() == RunBatch(old(State()), os).world
      ensures done <==> forall i :: 0 <= i < |os| ==> !Refused(AtTurn(old(State()), os, i), os[i].id, os[i].transfers)
      ensures done == RunBatch(old(State()), os).done
      ensures executed == RunBatch(old(State()), os).executed && failed == RunBatch(old(State()), os).failed
    {
      hide *;
      var before := State();
      StateIs();
      BatchGoesThrough(before, os);
      executed, failed := 0, 0;
      BatchStarts(before, os);
      for i := 0 to |os|
        invariant Valid() && settings == before.settings && userVaults == before.vaults && blockTimestamp == before.now
        invariant SameBatch(RunBatch(before, os[..i]), State(), executed, failed)
      {
        BatchNext(before, os, i, State(), executed, failed);
        var v := KeeperOrder(os[i].id, os[i].transfers);
        if v.Aborted? {
          Restore(before);
          StateIs();
          return false, 0, 0;
        }
        executed := if v.Executed? then executed + 1 else executed;
        failed := if v.Failed? then failed + 1 else failed;
      }
      BatchEnds(before, os, State(), executed, failed);
      done := true;
    }

    /** One pass over a list of positions: each that is active and, as recorded, below maintenance is closed.  The whole
        pass is undone when a reward cannot be transferred. */
    method ExecuteLiquidations(ids: seq<Turn>) returns (done: bool, executed: nat, failed: nat)
      requires Valid()
      modifies this`nextPositionId, this`positions, this`userMarketPosition, this`openInterest, this`orders,
               this`virtualPools, this`nextOrderId, this`funding, this`priceHistory, this`latestPrice,
               this`latestPriceTimestamp
      ensures Valid() && State() == RunPass(old(State()), ids).world
      ensures done <==> forall i: nat :: i < |ids| ==> !FailsAt(old(State()), ids, i)
      ensures done == RunPass(old(State()), ids).done
      ensures executed == RunPass(old(State()), ids).executed && failed == RunPass(old(State()), ids).failed
    {
      hide *;
      var before := State();
      StateIs();
      PassGoesThrough(before, ids);
      executed, failed := 0, 0;
      PassStarts(before, ids);
      for i := 0 to |ids|
        invariant Valid() && settings == before.settings && userVaults == before.vaults && blockTimestamp == before.now
        invariant SamePass(RunPass(before, ids[..i]), State(), executed, failed)
      {
        PassNext(before, ids, i, State(), executed, failed);
        var v := LiquidateListed(ids[i].id, ids[i].transfers);
        if v.Aborted? {
          Restore(before);
          StateIs();
          return false, 0, 0;
        }
        if v.Executed? { executed := executed + 1; } else { failed := failed + 1; }
      }
      PassEnds(before, ids, State(), executed, failed);
      done := true;
    }

    /** One entry of the pass: the margin is looked at as recorded, funding is not settled. */
    method LiquidateListed(id: nat, transfers: bool) returns (v: Verdict)
      requires Valid()
      modifies this`positions, this`userMarketPosition, this`openInterest
      ensures Valid() && v == PassVerdict(old(State()), id, transfers)
              && State() == PassState(old(State()), id, transfers)
    {
      hide *;
      StateIs();
      PassVerdictIs(State(), id, transfers);
      var short := CheckShort(id);
      if !short { return Failed; }
      ShutFields(State(), id);
      var rewarded := CheckReward(id);
      if rewarded && !transfers { return Aborted; }
      var p := positions[id];
      InterestIs(p.market);
      ShutPosition(id, p, p.size);
      StateIs();
      v := Executed;
    }

    method CheckShort(id: nat) returns (short: bool)
      ensures short == Liquidatable(State(), id)
    {
      hide CalculateMarginRatio;
      if id !in positions || !positions[id].active { return false; }
      var p := positions[id];
      var price := Price(State(), p.market);
      if price == 0 { return false; }
      var ratio := CalculateMarginRatio(p.isLong, p.collateralUsd, p.size, p.entry, price);
      short := ratio < Config(settings, p.market).maintenanceBps;
    }

    method CheckReward(id: nat) returns (rewarded: bool)
      requires id in positions
      ensures rewarded == RewardsFor(State(), id)
    {
      hide UsdToTokens, CalculatePnl;
      var p := positions[id];
      var equity := p.collateralUsd + CalculatePnl(p.isLong, p.size, p.entry, Price(State(), p.market));
      var remaining := 0;
      if equity > 0 { remaining := UsdToTokens(Decimals(settings, p.token), equity); }
      var reward := Penalty(remaining, settings.liquidationFeeBps) * 6000 / BPS;
      rewarded := 0 < reward <= remaining;
    }

    /** `executePriceCycle`: push prices, sync the pools, refresh the funding rates. */
    method ExecutePriceCycle(ms: seq<Market>, prices: seq<nat>) returns (done: bool)
      requires Valid()
      modifies this`virtualPools, this`funding, this`priceHistory, this`latestPrice, this`latestPriceTimestamp
      ensures Valid() && Damped(old(virtualPools))
      ensures done == Prepared(old(State()), ms, prices).done && State() == Prepared(old(State()), ms, prices).world
    {
      hide *;
      ghost var w := State();
      StateIs();
      CoherentIsDamped(w);
      PreparedSteps(w, ms, prices);
      if |ms| != |prices| { return false; }
      done := PushPrices(ms, prices);
      StateIs();
      if !done { return; }
      SyncAllVAMMs(ms);
      StateIs();
      UpdateAllFundingRates(ms);
    }

    /** A price cycle, then the orders, then the liquidations; all of it or nothing. */
    method ExecuteCycle(c: Cycle) returns (done: bool)
      requires Valid()
      modifies this`nextPositionId, this`positions, this`userMarketPosition, this`openInterest, this`orders,
               this`virtualPools, this`nextOrderId, this`funding, this`priceHistory, this`latestPrice,
               this`latestPriceTimestamp
      ensures Valid() && Damped(old(virtualPools))
      ensures done == CycleGoesThrough(old(State()), c) && State() == CycleDone(old(State()), c)
    {
      hide *;
      var before := State();
      StateIs();
      CycleSteps(before, c);
      done := ExecutePriceCycle(c.markets, c.prices);
      if !done { return; }
      var executed, failed;
      done, executed, failed := ExecuteOrders(c.orders);
      if done { done, executed, failed := ExecuteLiquidations(c.ids); }
      if !done { Restore(before); }
      StateIs();
    }
  }

  // ---------------------------------------------------------------- the states the operations leave, field by field

  lemma LaterIsValid(w: World, now: nat)
    requires Coherent(w) && w.now <= now
    ensures Coherent(w.(now := now))
  {
    hide Sound, Under, Damped;
  }

  lemma ActiveIsListed(b: Book, id: nat)
    requires IsActive(b, id)
    ensures id in b.positions && b.positions[id].active
  {
  }

  lemma LiquidatedIsActive(w: World, id: nat, paid: bool)
    requires CanLiquidate(w, id, paid)
    ensures IsActive(w.book, id)
  {
    hide BelowMaintenance;
  }

  lemma OpenDoneIsValid(w: World, sender: User, m: Market, token: Token, amount: nat, leverage: nat, isLong: bool)
    requires Coherent(w) && Enabled(w.book, OpenMove(w, sender, m, token, amount, leverage, isLong))
    ensures Coherent(OpenDone(w, sender, m, token, amount, leverage, isLong))
  {
    hide Coherent, Enabled, Moved, Traded;
    var v := OpenMove(w, sender, m, token, amount, leverage, isLong);
    MovedIsValid(w, v, m, true);
    TradedIsValid(Moved(w, v, m, true), m, OpeningSize(w.settings, token, amount, leverage), isLong, true);
  }

  lemma AddSizeFields(w: World, sender: User, id: nat, amount: nat, leverage: nat, funded: bool)
    requires CanAddSize(w, sender, id, amount, leverage, funded)
    ensures id in w.book.positions && Enabled(w.book, AddSizeMove(w, id, amount, leverage))
    ensures var was := w.book.positions[id];
            var fs := Accrue(FundingOf(w.funding, was.market), w.now);
            var p, added := Settled(was, fs, Decimals(w.settings, was.token)),
              MulFp(ToUsd(w.settings, was.token, amount), leverage);
            var net := AfterFee(w.settings, p.token, amount, added, w.settings.takerFeeBps);
            var price := if was.market in w.prices then w.prices[was.market] else 0;
            AddSizeDone(w, id, amount, leverage) ==
            w.(book := w.book.(
                 positions := w.book.positions[id := p.(size := p.size + added, collateral := p.collateral + net,
                                collateralUsd := p.collateralUsd + ToUsd(w.settings, p.token, net),
                                entry := CalculateAverageEntryPrice(p.size, p.entry, added, price))],
                 interest := w.book.interest[was.market := Grown(Interest(w.book, was.market), was.isLong, added)]),
               funding := w.funding[was.market := fs], pools := TradeIn(w.pools, was.market, added, was.isLong, true))
  {
    AddSizeIsEnabled(w, sender, id, amount, leverage, funded);
    hide Enabled, Apply, Accrue, TradeIn, ToUsd, MulFp, AfterFee, Settled, CalculateAverageEntryPrice, CanAddSize;
    SettledNowKeeps(w, id);
    AdjustApplies(w.book, id, GrownPosition(w, id, amount, leverage));
  }

  lemma AddSizeDoneIsValid(w: World, sender: User, id: nat, amount: nat, leverage: nat, funded: bool)
    requires Coherent(w) && CanAddSize(w, sender, id, amount, leverage, funded)
    ensures id in w.book.positions && Enabled(w.book, AddSizeMove(w, id, amount, leverage))
    ensures Coherent(AddSizeDone(w, id, amount, leverage))
  {
    AddSizeIsEnabled(w, sender, id, amount, leverage, funded);
    hide Coherent, Enabled, Moved, Traded, AddSizeMove;
    var v, p := AddSizeMove(w, id, amount, leverage), w.book.positions[id];
    MovedIsValid(w, v, p.market, true);
    TradedIsValid(Moved(w, v, p.market, true), p.market, AddedSize(w, id, amount, leverage), p.isLong, true);
  }

  lemma PartialCloseFields(w: World, sender: User, id: nat, close: nat, paid: bool)
    requires CanPartialClose(w, sender, id, close, paid)
    ensures id in w.book.positions && 0 < close < w.book.positions[id].size
    ensures Enabled(w.book, PartialCloseMove(w, id, close))
    ensures var was := w.book.positions[id];
            var fs := Accrue(FundingOf(w.funding, was.market), w.now);
            var p := Settled(was, fs, Decimals(w.settings, was.token));
            var left := Shrunk(Interest(w.book, was.market), was.isLong, close);
            && close <= p.size
            && PartialCloseDone(w, id, close) ==
               w.(book := w.book.(positions := w.book.positions[id := Reduced(p, close)],
                                  interest := w.book.interest[was.market := left]),
                  funding := w.funding[was.market := fs],
                  pools := TradeIn(w.pools, was.market, close, was.isLong, false))
  {
    PartialCloseIsEnabled(w, sender, id, close, paid);
    hide Enabled, Apply, Accrue, TradeIn, Settled;
    SettledNowKeeps(w, id);
    ReducedKeeps(SettledNow(w, id), close);
    AdjustApplies(w.book, id, Reduced(SettledNow(w, id), close));
  }

  lemma ReducedKeeps(p: Position, cut: nat)
    requires 0 < p.size && cut <= p.size
    ensures var q := Reduced(p, cut);
            SameHolder(q, p) && q.size == p.size - cut && q.active == p.active && q.token == p.token
              && q.index == p.index
  {
    hide MulFp, DivFp;
  }

  lemma PartialCloseDoneIsValid(w: World, sender: User, id: nat, close: nat, paid: bool)
    requires Coherent(w) && CanPartialClose(w, sender, id, close, paid)
    ensures id in w.book.positions && 0 < close < w.book.positions[id].size
    ensures Enabled(w.book, PartialCloseMove(w, id, close)) && Coherent(PartialCloseDone(w, id, close))
  {
    PartialCloseIsEnabled(w, sender, id, close, paid);
    hide Coherent, Enabled, Moved, Traded, PartialCloseMove;
    var v, p := PartialCloseMove(w, id, close), w.book.positions[id];
    MovedIsValid(w, v, p.market, true);
    TradedIsValid(Moved(w, v, p.market, true), p.market, close, p.isLong, false);
  }

  lemma CloseFields(w: World, id: nat)
    requires Coherent(w) && IsActive(w.book, id)
    ensures id in w.book.positions && Enabled(w.book, CloseMove(w, id))
    ensures var was := w.book.positions[id];
            var fs := Accrue(FundingOf(w.funding, was.market), w.now);
            var p := Settled(was, fs, Decimals(w.settings, was.token));
            var left := Shrunk(Interest(w.book, was.market), was.isLong, was.size);
            && p.user == was.user && p.market == was.market && p.isLong == was.isLong
            && CloseDone(w, id) ==
               w.(book := w.book.(positions := w.book.positions[id := p.(active := false)],
                                  held := w.book.held[(was.user, was.market) := 0],
                                  interest := w.book.interest[was.market := left]),
                  funding := w.funding[was.market := fs],
                  pools := TradeIn(w.pools, was.market, was.size, was.isLong, false))
            && !HasActive(CloseDone(w, id).book, was.user, was.market)
  {
    CloseIsEnabled(w, id);
    hide Coherent, Enabled, Apply, Accrue, TradeIn, Settled;
    SettledNowKeeps(w, id);
    ShutApplies(w.book, id, SettledNow(w, id));
  }

  /** After a close or a liquidation the user may open in the market again, either way, exactly when everything else
      that opening asks for is there: the market open for trading, a fresh price, room under the cap, a lock. */
  lemma ClosedMayReopen(w: World, id: nat, token: Token, amount: nat, leverage: nat, isLong: bool, funded: bool)
    requires Coherent(w) && IsActive(w.book, id)
    ensures id in w.book.positions && Enabled(w.book, CloseMove(w, id))
    ensures var user, m, w' := w.book.positions[id].user, w.book.positions[id].market, CloseDone(w, id);
            && HasActive(w.book, user, m)
            && !CanOpen(w, user, m, token, amount, leverage, isLong, funded)
            && (CanOpen(w', user, m, token, amount, leverage, isLong, funded) <==>
                MayOpen(w', user, m, token, amount, leverage, isLong, funded))
  {
    CloseFields(w, id);
    CoherentIsSound(w);
    ActiveIsHeld(w.book, id);
    hide Coherent, MayOpen, CloseDone, HasActive, Enabled;
  }

  lemma ActiveIsHeld(b: Book, id: nat)
    requires Sound(b) && IsActive(b, id)
    ensures HasActive(b, b.positions[id].user, b.positions[id].market)
  {
  }

  lemma CloseDoneIsValid(w: World, id: nat)
    requires Coherent(w) && IsActive(w.book, id)
    ensures id in w.book.positions && Enabled(w.book, CloseMove(w, id)) && Coherent(CloseDone(w, id))
  {
    CloseIsEnabled(w, id);
    hide Coherent, Enabled, Moved, Traded, CloseMove;
    var p := w.book.positions[id];
    MovedIsValid(w, CloseMove(w, id), p.market, true);
    TradedIsValid(Moved(w, CloseMove(w, id), p.market, true), p.market, p.size, p.isLong, false);
  }

  lemma DeleverageFields(w: World, id: nat, cut: nat, paid: bool)
    requires CanDeleverage(w, id, cut, paid)
    ensures id in w.book.positions && 0 < cut <= w.book.positions[id].size
    ensures Enabled(w.book, DeleverageMove(w, id, cut))
    ensures var was := w.book.positions[id];
            var p := Reduced(was, cut);
            && p.market == was.market && p.isLong == was.isLong && p.user == was.user
            && DeleverageDone(w, id, cut) ==
               w.(book := w.book.(
                    positions := w.book.positions[id := if p.size == 0 then p.(active := false) else p],
                    held := if p.size == 0 then w.book.held[(p.user, p.market) := 0] else w.book.held,
                    interest := w.book.interest[p.market := Shrunk(Interest(w.book, p.market), p.isLong, cut)]))
  {
    DeleverageIsEnabled(w, id, cut, paid);
    hide Enabled, Apply, CalculatePnl;
    var p := Reduced(w.book.positions[id], cut);
    ReducedKeeps(w.book.positions[id], cut);
    if p.size == 0 { ShutApplies(w.book, id, p); } else { AdjustApplies(w.book, id, p); }
  }

  lemma DeleverageIsValid(w: World, id: nat, cut: nat, paid: bool)
    requires Coherent(w) && CanDeleverage(w, id, cut, paid)
    ensures id in w.book.positions && 0 < cut <= w.book.positions[id].size
    ensures Enabled(w.book, DeleverageMove(w, id, cut)) && Coherent(DeleverageDone(w, id, cut))
  {
    DeleverageIsEnabled(w, id, cut, paid);
    hide Coherent, Enabled, Moved, DeleverageMove, CalculatePnl;
    MovedIsValid(w, DeleverageMove(w, id, cut), 0, false);
  }

  lemma AddCollateralFields(w: World, sender: User, id: nat, amount: nat, funded: bool)
    requires Coherent(w) && CanAddCollateral(w, sender, id, amount, funded)
    ensures id in w.book.positions && Enabled(w.book, AddCollateralMove(w, id, amount))
    ensures Coherent(AddCollateralDone(w, id, amount))
    ensures var p := w.book.positions[id];
            AddCollateralDone(w, id, amount) ==
            w.(book := w.book.(positions := w.book.positions[id := p.(collateral := p.collateral + amount,
                                              collateralUsd := p.collateralUsd + ToUsd(w.settings, p.token, amount))]))
  {
    CoherentIsSound(w);
    AddCollateralIsEnabled(w, sender, id, amount, funded);
    hide Coherent, Enabled, Apply, ToUsd;
    MovedIsValid(w, AddCollateralMove(w, id, amount), 0, false);
    AdjustApplies(w.book, id, AddCollateralMove(w, id, amount).p);
  }

  lemma RemoveCollateralFields(w: World, sender: User, id: nat, amount: nat, paid: bool)
    requires Coherent(w) && CanRemoveCollateral(w, sender, id, amount, paid)
    ensures id in w.book.positions && amount <= SettledNow(w, id).collateral
    ensures ToUsd(w.settings, SettledNow(w, id).token, amount) <= SettledNow(w, id).collateralUsd
    ensures Enabled(w.book, RemoveCollateralMove(w, id, amount)) && Coherent(RemoveCollateralDone(w, id, amount))
    ensures var was := w.book.positions[id];
            var fs := Accrue(FundingOf(w.funding, was.market), w.now);
            var p := Settled(was, fs, Decimals(w.settings, was.token));
            var amountUsd := ToUsd(w.settings, p.token, amount);
            && amount <= p.collateral && amountUsd <= p.collateralUsd
            && RemoveCollateralDone(w, id, amount) ==
               w.(book := w.book.(positions := w.book.positions[id := p.(collateral := p.collateral - amount,
                                                 collateralUsd := p.collateralUsd - amountUsd)]),
                  funding := w.funding[was.market := fs])
  {
    CoherentIsSound(w);
    RemoveCollateralIsEnabled(w, sender, id, amount, paid);
    hide Coherent, Enabled, Apply, Accrue, ToUsd, Settled, CalculateMarginRatio, CalculatePnl, ValidLeverage;
    SettledNowKeeps(w, id);
    MovedIsValid(w, RemoveCollateralMove(w, id, amount), w.book.positions[id].market, true);
    AdjustApplies(w.book, id, RemoveCollateralMove(w, id, amount).p);
  }

  lemma ExecuteFields(w: World, o: nat, funded: bool)
    requires CanExecute(w, o, funded)
    ensures o in w.book.orders && Enabled(w.book, FillMove(w, o, true))
    ensures var order := w.book.orders[o];
            var fs := Accrue(FundingOf(w.funding, order.market), w.now);
            var p := FilledPosition(w, order, fs);
            FillDone(w, o, true) == FilledWorld(w, o, p).(funding := w.funding[order.market := fs])
  {
    FillIsEnabled(w, o, true);
    hide Enabled, Apply, Accrue, AfterFee, ToUsd, TradeIn;
    var order := w.book.orders[o];
    FillApplies(w.book, o, Price(w, order.market), Cap(w, order.market), OrderedPosition(w, order, true));
  }

  /** The position an order becomes at given funding indexes. */
  function FilledPosition(w: World, order: Order, fs: FundingState): Position {
    var net := AfterFee(w.settings, order.token, order.collateral, order.size, w.settings.makerFeeBps);
    Position(order.user, order.market, order.isLong, order.size, ToUsd(w.settings, order.token, net), order.token, net,
             if order.market in w.prices then w.prices[order.market] else 0, Index(fs, order.isLong), true)
  }

  /** The book with the position of an order, counted, and the order done with; and the pools after its trade. */
  function FilledWorld(w: World, o: nat, p: Position): World
    requires o in w.book.orders
  {
    var b, id := w.book, w.book.nextPositionId + 1;
    w.(book := Book(id, b.positions[id := p], b.held[(p.user, p.market) := id],
                    b.interest[p.market := Grown(Interest(b, p.market), p.isLong, p.size)], b.nextOrderId,
                    b.orders[o := b.orders[o].(active := false)]),
       pools := TradeIn(w.pools, p.market, p.size, p.isLong, true))
  }

  lemma FilledIs(w: World, o: nat, fs: FundingState)
    requires o in w.book.orders
    ensures var b, order, id := w.book, w.book.orders[o], w.book.nextPositionId + 1;
            var net := AfterFee(w.settings, order.token, order.collateral, order.size, w.settings.makerFeeBps);
            var p := Position(order.user, order.market, order.isLong, order.size, ToUsd(w.settings, order.token, net),
                              order.token,
                              net, if order.market in w.prices then w.prices[order.market] else 0,
                              Index(fs, order.isLong), true);
            && FilledPosition(w, order, fs) == p
            && FilledWorld(w, o, p) ==
               w.(book := Book(id, b.positions[id := p], b.held[(p.user, p.market) := id],
                               b.interest[p.market := Grown(Interest(b, p.market), p.isLong, p.size)], b.nextOrderId,
                               b.orders[o := b.orders[o].(active := false)]),
                  pools := TradeIn(w.pools, p.market, p.size, p.isLong, true))
  {
    hide AfterFee, ToUsd, TradeIn;
  }

  lemma FillDoneIsValid(w: World, o: nat, accrues: bool)
    requires Coherent(w) && o in w.book.orders && Enabled(w.book, FillMove(w, o, accrues))
    ensures Coherent(FillDone(w, o, accrues))
  {
    hide Coherent, Enabled, Moved, Traded, FillMove;
    var order := w.book.orders[o];
    MovedIsValid(w, FillMove(w, o, accrues), order.market, accrues);
    TradedIsValid(Moved(w, FillMove(w, o, accrues), order.market, accrues), order.market, order.size, order.isLong,
                  true);
  }

  // ---------------------------------------------------------------- the steps of the keeper

  lemma KeeperFillFields(w: World, o: nat, transfers: bool)
    requires CanExecute(w, o, transfers)
    ensures o in w.book.orders
    ensures var order := w.book.orders[o];
            OrderDone(w, o, transfers) ==
              FilledWorld(w, o, FilledPosition(w, order, FundingOf(w.funding, order.market)))
  {
    FillIsEnabled(w, o, false);
    hide Enabled, Apply, Accrue, AfterFee, ToUsd, TradeIn, Triggered;
    var order := w.book.orders[o];
    FillApplies(w.book, o, Price(w, order.market), Cap(w, order.market), OrderedPosition(w, order, false));
  }

  lemma KeeperOverrunFields(w: World, o: nat, transfers: bool)
    requires Overruns(w, o, transfers)
    ensures o in w.book.orders
    ensures var order, id := w.book.orders[o], w.book.nextPositionId + 1;
            var p := FilledPosition(w, order, FundingOf(w.funding, order.market));
            && p.user == order.user && p.market == order.market && p == OrderedPosition(w, order, false)
            && OrderDone(w, o, transfers) ==
               w.(book := w.book.(nextPositionId := id, positions := w.book.positions[id := p],
                                  held := w.book.held[(order.user, order.market) := id]))
  {
    FillIsEnabled(w, o, false);
    hide Enabled, Apply, Accrue, AfterFee, ToUsd, Triggered;
    var order := w.book.orders[o];
    FillUncountedApplies(w.book, o, Price(w, order.market), Cap(w, order.market), OrderedPosition(w, order, false));
  }

  lemma KeeperCloseFields(w: World, o: nat, transfers: bool)
    requires CanFillClose(w, o, transfers)
    ensures o in w.book.orders && (w.book.orders[o].user, w.book.orders[o].market) in w.book.held
    ensures w.book.held[(w.book.orders[o].user, w.book.orders[o].market)] in w.book.positions
    ensures var b, order := w.book, w.book.orders[o];
            var id := b.held[(order.user, order.market)];
            var was := b.positions[id];
            var p := Settled(was, FundingOf(w.funding, was.market), Decimals(w.settings, was.token));
            var left := Shrunk(Interest(b, was.market), was.isLong, was.size);
            && p.user == was.user && p.market == was.market && p.isLong == was.isLong
            && OrderDone(w, o, transfers) ==
               w.(book := b.(positions := b.positions[id := p.(active := false)],
                             held := b.held[(was.user, was.market) := 0], interest := b.interest[was.market := left],
                             orders := b.orders[o := order.(active := false)]),
                  pools := TradeIn(w.pools, was.market, was.size, was.isLong, false))
  {
    FillCloseIsEnabled(w, o);
    hide Enabled, Apply, Settled, TradeIn, Triggered, PaysOut;
    var p := w.book.positions[HeldFor(w, o)];
    SettledKeeps(p, FundingOf(w.funding, p.market), Decimals(w.settings, p.token));
    FillCloseApplies(w.book, o, Price(w, w.book.orders[o].market),
                     Settled(p, FundingOf(w.funding, p.market), Decimals(w.settings, p.token)));
  }

  lemma EligibleIsActive(w: World, o: nat)
    requires Eligible(w, o)
    ensures OrderActive(w.book, o) && o in w.book.orders && Price(w, w.book.orders[o].market) > 0
  {
  }

  /** The keeper's verdict, check by check. */
  lemma VerdictIs(w: World, o: nat, transfers: bool)
    ensures !Eligible(w, o) ==> OrderVerdict(w, o, transfers).Failed? && OrderDone(w, o, transfers) == w
    ensures Eligible(w, o) ==>
              && o in w.book.orders
              && var order := w.book.orders[o];
                 if !Triggered(order, Price(w, order.market)) then
                   OrderVerdict(w, o, transfers).Waiting? && OrderDone(w, o, transfers) == w
                 else if Opens(order.kind) then Due(w, o)
                 else if HasActive(w.book, order.user, order.market) then Closable(w, o)
                 else OrderVerdict(w, o, transfers).Failed? && OrderDone(w, o, transfers) == w
  {
    hide Triggered, Lockable, HasRoom, HasActive;
  }

  lemma VerdictOfClosable(w: World, o: nat, transfers: bool)
    requires Closable(w, o)
    ensures if PaysOut(w, o) && !transfers then
              OrderVerdict(w, o, transfers).Aborted? && OrderDone(w, o, transfers) == w
            else OrderVerdict(w, o, transfers).Executed? && CanFillClose(w, o, transfers)
  {
    hide Triggered, HasActive, PaysOut;
  }

  lemma VerdictOfDue(w: World, o: nat, transfers: bool)
    requires Due(w, o) && Opens(w.book.orders[o].kind)
    ensures o in w.book.orders
    ensures var order := w.book.orders[o];
            if HasActive(w.book, order.user, order.market) || !Config(w.settings, order.market).enabled
              || order.user !in w.vaults then
              OrderVerdict(w, o, transfers).Failed? && OrderDone(w, o, transfers) == w
            else if !transfers || order.collateral == 0 then
              OrderVerdict(w, o, transfers).Aborted? && OrderDone(w, o, transfers) == w
            else if Side(Interest(w.book, order.market), order.isLong) + order.size <=
              Config(w.settings, order.market).maxOpenInterest
              then OrderVerdict(w, o, transfers).Executed? && CanExecute(w, o, transfers)
            else OrderVerdict(w, o, transfers).Failed? && Overruns(w, o, transfers)
  {
    hide Triggered, HasActive;
  }

  /** What an order beyond the cap leaves. */
  lemma OverrunLeaves(w: World, o: nat, transfers: bool)
    requires Overruns(w, o, transfers)
    ensures o in w.book.orders
    ensures var b, b' := w.book, OrderDone(w, o, transfers).book;
            && b'.nextPositionId == b.nextPositionId + 1 && OrderActive(b', o) && b'.interest == b.interest
            && b'.positions == b.positions[b'.nextPositionId := OrderedPosition(w, b.orders[o], false)]
            && OrderVerdict(w, o, transfers).Failed?
  {
    KeeperOverrunFields(w, o, transfers);
    OverrunFails(w, o, transfers);
    hide OrderDone, OrderVerdict, Accrue, AfterFee, ToUsd, Triggered, HasRoom, HasActive, FilledPosition,
      OrderedPosition;
  }

  lemma OverrunFails(w: World, o: nat, transfers: bool)
    requires Overruns(w, o, transfers)
    ensures OrderVerdict(w, o, transfers).Failed? && OrderActive(w.book, o)
  {
    hide Triggered, HasActive;
  }

  /** What the loop over a batch has computed. */
  ghost predicate SameBatch(b: Batch, w: World, executed: nat, failed: nat) {
    b.done && b.world == w && b.executed == executed && b.failed == failed
  }

  lemma BatchStarts(w: World, os: seq<Turn>)
    ensures SameBatch(RunBatch(w, os[..0]), w, 0, 0)
  {
  }

  lemma BatchEnds(w: World, os: seq<Turn>, at: World, executed: nat, failed: nat)
    requires SameBatch(RunBatch(w, os[..|os|]), at, executed, failed)
    ensures var b := RunBatch(w, os); b.done && b.world == at && b.executed == executed && b.failed == failed
  {
    hide RunBatch;
    assert os[..|os|] == os;
  }

  lemma BatchNext(w: World, os: seq<Turn>, i: nat, at: World, executed: nat, failed: nat)
    requires i < |os| && SameBatch(RunBatch(w, os[..i]), at, executed, failed)
    ensures var v := OrderVerdict(at, os[i].id, os[i].transfers);
            if v.Aborted? then RunBatch(w, os) == Batch(false, w, 0, 0, [])
            else SameBatch(RunBatch(w, os[..i + 1]), OrderDone(at, os[i].id, os[i].transfers),
                           if v.Executed? then executed + 1 else executed, if v.Failed? then failed + 1 else failed)
  {
    hide OrderVerdict, OrderDone, OrderMoves;
    assert os[..i + 1][..i] == os[..i];
    if OrderVerdict(at, os[i].id, os[i].transfers).Aborted? { AbortsAll(w, os, i + 1); }
  }

  /** Nothing of an aborted batch goes on. */
  lemma {:induction false} AbortsAll(w: World, os: seq<Turn>, i: nat)
    requires i <= |os| && !RunBatch(w, os[..i]).done
    ensures RunBatch(w, os) == RunBatch(w, os[..i])
    decreases |os|
  {
    hide AfterOrder;
    if i == |os| {
      assert os[..i] == os;
    } else {
      assert os[..|os| - 1][..i] == os[..i];
      AbortsAll(w, os[..|os| - 1], i);
    }
  }

  ghost predicate SamePass(a: Pass, w: World, executed: nat, failed: nat) {
    a.done && a.world == w && a.executed == executed && a.failed == failed
  }

  lemma PassStarts(w: World, ids: seq<Turn>)
    ensures SamePass(RunPass(w, ids[..0]), w, 0, 0)
  {
  }

  lemma PassEnds(w: World, ids: seq<Turn>, at: World, executed: nat, failed: nat)
    requires SamePass(RunPass(w, ids[..|ids|]), at, executed, failed)
    ensures var a := RunPass(w, ids); a.done && a.world == at && a.executed == executed && a.failed == failed
  {
    hide RunPass;
    assert ids[..|ids|] == ids;
  }

  predicate RewardsFor(w: World, id: nat)
    requires id in w.book.positions
  {
    var p := w.book.positions[id];
    Rewards(w, Remaining(p, Price(w, p.market), Decimals(w.settings, p.token)))
  }

  function PassVerdict(w: World, id: nat, transfers: bool): Verdict {
    if Unrewarded(w, id, transfers) then Aborted else if Liquidatable(w, id) then Executed else Failed
  }

  function PassState(w: World, id: nat, transfers: bool): World {
    if Unrewarded(w, id, transfers) || !Liquidatable(w, id) then w
    else
      ShutIsEnabled(w, id);
      Moved(w, RecordedShut(w, id), 0, false)
  }

  lemma PassVerdictIs(w: World, id: nat, transfers: bool)
    ensures !Liquidatable(w, id) ==> PassVerdict(w, id, transfers).Failed? && PassState(w, id, transfers) == w
    ensures Liquidatable(w, id) ==>
              && id in w.book.positions && Enabled(w.book, RecordedShut(w, id))
              && if RewardsFor(w, id) && !transfers then
                   PassVerdict(w, id, transfers).Aborted? && PassState(w, id, transfers) == w
                 else
                   && PassVerdict(w, id, transfers).Executed?
                   && PassState(w, id, transfers) == Moved(w, RecordedShut(w, id), 0, false)
  {
    if Liquidatable(w, id) { ShutIsEnabled(w, id); }
    hide RecordedBelowMaintenance, Remaining;
  }

  lemma PassNext(w: World, ids: seq<Turn>, i: nat, at: World, executed: nat, failed: nat)
    requires i < |ids| && SamePass(RunPass(w, ids[..i]), at, executed, failed)
    ensures var v := PassVerdict(at, ids[i].id, ids[i].transfers);
            if v.Aborted? then RunPass(w, ids) == Pass(false, w, 0, 0, [])
            else SamePass(RunPass(w, ids[..i + 1]), PassState(at, ids[i].id, ids[i].transfers),
                          if v.Executed? then executed + 1 else executed, if v.Executed? then failed else failed + 1)
  {
    hide Liquidatable, Unrewarded;
    assert ids[..i + 1][..i] == ids[..i];
    if Liquidatable(at, ids[i].id) { ShutIsEnabled(at, ids[i].id); }
    if PassVerdict(at, ids[i].id, ids[i].transfers).Aborted? { PassStops(w, ids, i + 1); }
  }

  /** Nothing of an aborted pass goes on. */
  lemma {:induction false} PassStops(w: World, ids: seq<Turn>, i: nat)
    requires i <= |ids| && !RunPass(w, ids[..i]).done
    ensures RunPass(w, ids) == RunPass(w, ids[..i])
    decreases |ids|
  {
    hide AfterPosition;
    if i == |ids| {
      assert ids[..i] == ids;
    } else {
      assert ids[..|ids| - 1][..i] == ids[..i];
      PassStops(w, ids[..|ids| - 1], i);
    }
  }

  lemma ShutFields(w: World, id: nat)
    requires Coherent(w) && Liquidatable(w, id)
    ensures id in w.book.positions && Enabled(w.book, RecordedShut(w, id))
    ensures Coherent(Moved(w, RecordedShut(w, id), 0, false))
    ensures var p := w.book.positions[id];
            var left := Shrunk(Interest(w.book, p.market), p.isLong, p.size);
            Moved(w, RecordedShut(w, id), 0, false) ==
            w.(book := w.book.(positions := w.book.positions[id := p.(active := false)],
                               held := w.book.held[(p.user, p.market) := 0],
                               interest := w.book.interest[p.market := left]))
  {
    ShutIsEnabled(w, id);
    hide Coherent, Enabled, Apply, RecordedBelowMaintenance;
    MovedIsValid(w, RecordedShut(w, id), 0, false);
    ShutApplies(w.book, id, w.book.positions[id]);
  }

  // ---------------------------------------------------------------- prices and funding rates

  /** The oracle's own entry point: a list that is not empty, of markets that exist, at prices that can be pushed in
      turn. */
  predicate CanUpdatePrices(w: World, ms: seq<Market>, prices: seq<nat>) {
    && |ms| == |prices| && ms != [] && (forall m <- ms :: m in w.settings.markets)
    && PushAll(w, ms, prices).done
  }

  lemma PushNext(w: World, ms: seq<Market>, prices: seq<nat>, i: nat)
    requires |ms| == |prices| && i < |ms| && PushAll(w, ms[..i], prices[..i]).done
    ensures var b := PushAll(w, ms[..i], prices[..i]).world;
            PushAll(w, ms[..i + 1], prices[..i + 1]) ==
            if CanPush(b, ms[i], prices[i]) then Pushing(true, Pushed(b, ms[i], prices[i])) else Pushing(false, w)
  {
    assert ms[..i + 1][..i] == ms[..i] && prices[..i + 1][..i] == prices[..i];
  }

  lemma {:induction false} PushStops(w: World, ms: seq<Market>, prices: seq<nat>, i: nat)
    requires |ms| == |prices| && i <= |ms| && PushAll(w, ms[..i], prices[..i]) == Pushing(false, w)
    ensures PushAll(w, ms, prices) == Pushing(false, w)
    decreases |ms|
  {
    var n := |ms| - 1;
    if i == |ms| {
      assert ms[..i] == ms && prices[..i] == prices;
    } else {
      assert ms[..n][..i] == ms[..i] && prices[..n][..i] == prices[..i];
      PushStops(w, ms[..n], prices[..n], i);
    }
  }

  /** Refreshed funding: accrue, then set the rate. */
  lemma RefreshFields(w: World, m: Market)
    requires Coherent(w)
    ensures Coherent(Refreshed(w, m))
    ensures var accrued := Accrue(FundingOf(w.funding, m), w.now);
            Refreshed(w, m) ==
            w.(funding := w.funding[m := accrued][m := accrued.(rate := RefreshedFunding(w, m).rate)])
  {
    RefreshIsValid(w, m);
    hide Sound, Under, Damped, MeanPrice, RateAt;
    var accrued := Accrue(FundingOf(w.funding, m), w.now);
    assert w.funding[m := RefreshedFunding(w, m)] ==
      w.funding[m := accrued][m := accrued.(rate := RefreshedFunding(w, m).rate)];
  }

  /** A price cycle, step by step. */
  lemma PreparedSteps(w: World, ms: seq<Market>, prices: seq<nat>)
    requires Coherent(w)
    ensures Damped(w.pools)
    ensures |ms| != |prices| ==> Prepared(w, ms, prices) == Pushing(false, w)
    ensures |ms| == |prices| ==>
              var pushed := PushAll(w, ms, prices);
              && pushed.world.pools == w.pools && Coherent(pushed.world)
              && (!pushed.done ==> pushed.world == w && Prepared(w, ms, prices) == Pushing(false, w))
              && (pushed.done ==>
                    var pools := SyncAll(pushed.world.pools, pushed.world.prices, ms, pushed.world.now);
                    var synced := pushed.world.(pools := pools);
                    Coherent(synced) && Prepared(w, ms, prices) == Pushing(true, RefreshAll(synced, ms)))
  {
    hide Coherent, PushAll, RefreshAll, SyncAll;
    CoherentIsDamped(w);
    if |ms| == |prices| {
      PushAllIsValid(w, ms, prices);
      SyncedIsValid(PushAll(w, ms, prices).world, ms);
    }
  }

  /** A cycle, step by step. */
  lemma CycleSteps(w: World, c: Cycle)
    requires Coherent(w)
    ensures Damped(w.pools)
    ensures var prepared := Prepared(w, c.markets, c.prices);
            && (!prepared.done ==> !CycleGoesThrough(w, c) && CycleDone(w, c) == w == prepared.world)
            && (prepared.done ==>
                  var batch := RunBatch(prepared.world, c.orders);
                  && (!batch.done ==> !CycleGoesThrough(w, c) && CycleDone(w, c) == w)
                  && (batch.done ==>
                        var pass := RunPass(batch.world, c.ids);
                        CycleGoesThrough(w, c) == pass.done && CycleDone(w, c) == if pass.done then pass.world else w))
  {
    CoherentIsDamped(w);
    PreparedSteps(w, c.markets, c.prices);
    hide Coherent, Prepared, RunBatch, RunPass;
  }
}
