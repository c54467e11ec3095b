/**
 What each call asks for and what it leaves, read off the records before and after it: the settings, prices, pools,
 positions and orders themselves.
 */
module Guarantees {
  import opened FixedPoint
  import opened Margin
  import opened LibPosition
  import opened Ids
  import opened Amm
  import opened Twap
  import opened Funding
  import opened Book
  import opened BookRuns
  import opened Settlement
  import opened World
  import opened Keeper
  import opened Trading
  import opened Histories

  // ---------------------------------------------------------------- reading the records

  /** The decimals of a token; 0 for one nobody registered. */
  function Places(w: World, t: Token): nat {
    if t in w.settings.decimals then w.settings.decimals[t] else 0
  }

  function OraclePrice(w: World, m: Market): nat {
    if m in w.prices then w.prices[m] else 0
  }

  /** The price of the market has been updated within the limit, 120 seconds by default. */
  predicate Recent(w: World, m: Market) {
    w.now - (if m in w.times then w.times[m] else 0) <=
    if w.settings.maxStaleness > 0 then w.settings.maxStaleness else 120
  }

  function OpenSize(w: World, m: Market, isLong: bool): nat {
    if m !in w.book.interest then 0 else if isLong then w.book.interest[m].long else w.book.interest[m].short
  }

  function Terms(w: World, m: Market): MarketConfig {
    if m in w.settings.markets then w.settings.markets[m] else MarketConfig(false, 0, 0, 0)
  }

  ghost predicate Holds(w: World, user: User, m: Market) {
    exists id: nat :: id in w.book.positions && w.book.positions[id].active && w.book.positions[id].user == user
                      && w.book.positions[id].market == m
  }

  function ReservesOf(w: World, m: Market): Pool {
    if m in w.pools then w.pools[m] else Pool(0, 0, 0, 0)
  }

  /** The size that a leverage makes of an amount of collateral. */
  function Leveraged(w: World, token: Token, amount: nat, leverage: nat): nat {
    NormalizeToUsd(Places(w, token), amount) * leverage / W
  }

  /** The fee on a size, in tokens. */
  function FeeOn(w: World, token: Token, size: nat, feeBps: nat): nat {
    UsdToTokens(Places(w, token), TradingFee(size, feeBps))
  }

  lemma Reads(w: World, m: Market, token: Token, isLong: bool)
    ensures Decimals(w.settings, token) == Places(w, token) && Price(w, m) == OraclePrice(w, m)
    ensures Stale(w, m) <==> !Recent(w, m)
    ensures Config(w.settings, m) == Terms(w, m) && PoolOf(w.pools, m) == ReservesOf(w, m)
    ensures Side(Interest(w.book, m), isLong) == OpenSize(w, m, isLong)
    ensures Halted(w.settings, m) <==> w.settings.paused || m in w.settings.pausedMarkets
  {
  }

  lemma ReadsAmounts(w: World, token: Token, amount: nat, size: nat, feeBps: nat, leverage: nat)
    ensures ToUsd(w.settings, token, amount) == NormalizeToUsd(Places(w, token), amount)
    ensures OpeningSize(w.settings, token, amount, leverage) == Leveraged(w, token, amount, leverage)
    ensures var fee := FeeOn(w, token, size, feeBps);
            AfterFee(w.settings, token, amount, size, feeBps) == if fee < amount then amount - fee else 0
    ensures var fee := FeeOn(w, token, size, w.settings.takerFeeBps);
            && OpeningCollateral(w.settings, token, amount, size) == (if fee < amount then amount - fee else amount)
            && TakerFee(w, token, size) == fee
  {
    hide NormalizeToUsd, UsdToTokens, TradingFee;
  }

  lemma ReadsHolds(w: World, user: User, m: Market)
    requires Coherent(w)
    ensures HasActive(w.book, user, m) <==> Holds(w, user, m)
  {
    CoherentIsSound(w);
    NetMode(w.book, user, m);
    hide Coherent, Sound, HasActive, HeldBy;
  }

  // ---------------------------------------------------------------- opening

  /** What opening asks for: nothing else, and not less. */
  ghost predicate OpeningTerms(w: World, sender: User, m: Market, token: Token, amount: nat, leverage: nat,
                               isLong: bool,
                               locked: bool) {
    var usd, size := NormalizeToUsd(Places(w, token), amount), Leveraged(w, token, amount, leverage);
    && !w.settings.paused && m !in w.settings.pausedMarkets && Terms(w, m).enabled && token in w.settings.accepted
    && !Holds(w, sender, m)
    && usd > 0 && size > 0 && size >= w.settings.minPositionSize && size * W < (Terms(w, m).maxLeverage + 1) * usd
    && OpenSize(w, m, isLong) + size <= Terms(w, m).maxOpenInterest
    && Recent(w, m) && ExecutionPrice(ReservesOf(w, m), OraclePrice(w, m), size, isLong) > 0
    && sender in w.vaults && locked
  }

  /** The position that was asked for, at the execution price, with the fee taken from the collateral unless it would
      take all of it; and its trade in the pool. */
  ghost predicate Opened(w: World, w': World, sender: User, m: Market, token: Token, amount: nat, leverage: nat,
                         isLong: bool) {
    var size, id := Leveraged(w, token, amount, leverage), w.book.nextPositionId + 1;
    var fee := FeeOn(w, token, size, w.settings.takerFeeBps);
    && id in w'.book.positions && w'.book.nextPositionId == id && m in w'.funding
    && var p, net := w'.book.positions[id], if fee < amount then amount - fee else amount;
       && w'.book.positions == w.book.positions[id := p]
       && p.user == sender && p.market == m && p.isLong == isLong && p.size == size && p.active
       && p.token == token && p.collateral == net
       && p.collateralUsd == NormalizeToUsd(Places(w, token), net)
       && p.entry == ExecutionPrice(ReservesOf(w, m), OraclePrice(w, m), size, isLong)
       && p.index == IndexAt(w, m, isLong)
       && Trades(w, w', m, size, isLong, true)
  }

  /** The size is in open interest, or out of it as far as there is any, and so is its trade in the pool. */
  predicate Counts(w: World, w': World, m: Market, size: nat, isLong: bool, isOpen: bool) {
    var before := OpenSize(w, m, isLong);
    && OpenSize(w', m, isLong) ==
       (if isOpen then before + size else if before > size then before - size else 0)
    && OpenSize(w', m, !isLong) == OpenSize(w, m, !isLong)
    && ReservesOf(w', m) == Trade(ReservesOf(w, m), size, isLong, isOpen)
  }

  /** The same, with the market's indexes brought up to date. */
  predicate Trades(w: World, w': World, m: Market, size: nat, isLong: bool, isOpen: bool) {
    && Counts(w, w', m, size, isLong, isOpen)
    && IndexOnRecord(w', m, isLong) == IndexAt(w, m, isLong) && IndexOnRecord(w', m, !isLong) == IndexAt(w, m, !isLong)
  }

  lemma CountsIs(w: World, w': World, m: Market, size: nat, isLong: bool, isOpen: bool)
    requires w'.book.interest == w.book.interest[m := if isOpen then Grown(Interest(w.book, m), isLong, size)
                                                      else Shrunk(Interest(w.book, m), isLong, size)]
    requires w'.pools == TradeIn(w.pools, m, size, isLong, isOpen)
    ensures Counts(w, w', m, size, isLong, isOpen)
  {
    NoTrade(w, m, size, isLong, isOpen);
    hide Trade;
  }

  /** Each operation's trade, from the fields it leaves. */
  lemma TradesIs(w: World, w': World, m: Market, size: nat, isLong: bool, isOpen: bool)
    requires w'.book.interest == w.book.interest[m := if isOpen then Grown(Interest(w.book, m), isLong, size)
                                                      else Shrunk(Interest(w.book, m), isLong, size)]
    requires w'.funding == w.funding[m := Accrue(FundingOf(w.funding, m), w.now)]
    requires w'.pools == TradeIn(w.pools, m, size, isLong, isOpen)
    ensures Trades(w, w', m, size, isLong, isOpen)
  {
    IndexesAre(w, m, isLong);
    IndexesAre(w, m, !isLong);
    CountsIs(w, w', m, size, isLong, isOpen);
    hide Accrue, IndexAt, Counts;
  }

  lemma NoTrade(w: World, m: Market, size: nat, isLong: bool, isOpen: bool)
    ensures ReservesOf(w, m).base == 0 ==> Trade(ReservesOf(w, m), size, isLong, isOpen) == ReservesOf(w, m)
    ensures ReservesOf(w, m) == PoolOf(w.pools, m)
  {
    hide MulFp, DivFp;
  }

  /** Opening goes through exactly on its terms, and then leaves what they say. */
  lemma OpeningGives(w: World, sender: User, m: Market, token: Token, amount: nat, leverage: nat, isLong: bool,
                     locked: bool)
    requires Coherent(w)
    ensures var w' := Done(w, sender, OpenPosition(m, token, amount, leverage, isLong, locked));
            && (w' != w <==> OpeningTerms(w, sender, m, token, amount, leverage, isLong, locked))
            && (w' != w ==> Opened(w, w', sender, m, token, amount, leverage, isLong))
  {
    OpeningGuards(w, sender, m, token, amount, leverage, isLong, locked);
    if CanOpen(w, sender, m, token, amount, leverage, isLong, locked) {
      OpenIsEnabled(w, sender, m, token, amount, leverage, isLong, locked);
      OpensIt(w, sender, m, token, amount, leverage, isLong);
    }
    hide Coherent, Enabled, CanOpen, OpeningTerms, OpenDone, OpenMove, Opened;
  }

  lemma OpensIt(w: World, sender: User, m: Market, token: Token, amount: nat, leverage: nat, isLong: bool)
    requires Enabled(w.book, OpenMove(w, sender, m, token, amount, leverage, isLong))
    ensures var w' := OpenDone(w, sender, m, token, amount, leverage, isLong);
            Opened(w, w', sender, m, token, amount, leverage, isLong) && w' != w
  {
    var size := Leveraged(w, token, amount, leverage);
    Reads(w, m, token, isLong);
    ReadsAmounts(w, token, amount, size, w.settings.takerFeeBps, leverage);
    OpenFields(w, sender, m, token, amount, leverage, isLong);
    TradesIs(w, OpenDone(w, sender, m, token, amount, leverage, isLong), m, size, isLong, true);
    IndexesAre(w, m, isLong);
    hide Enabled, ExecutionPrice, Accrue, NormalizeToUsd, FeeOn, Leveraged, OpeningCollateral, MulFp, ToUsd, OpenDone,
      OpenMove, IndexAt, TradeIn, Trades;
  }

  lemma OpeningGuards(w: World, sender: User, m: Market, token: Token, amount: nat, leverage: nat, isLong: bool,
                      locked: bool)
    requires Coherent(w)
    ensures CanOpen(w, sender, m, token, amount, leverage, isLong, locked) <==>
            OpeningTerms(w, sender, m, token, amount, leverage, isLong, locked)
  {
    var size, usd := Leveraged(w, token, amount, leverage), NormalizeToUsd(Places(w, token), amount);
    Reads(w, m, token, isLong);
    ReadsAmounts(w, token, amount, size, w.settings.takerFeeBps, leverage);
    ReadsHolds(w, sender, m);
    LeverageIsExact(size, usd, Terms(w, m).maxLeverage);
    hide Coherent, HasActive, Holds, ExecutionPrice, ToUsd, NormalizeToUsd, Leveraged, OpeningSize, Config, Price,
      PoolOf, Stale, Halted, ValidLeverage, Interest, Side, Accrue, OpeningCollateral, Recent, Terms, Places,
      OraclePrice, ReservesOf, OpenSize;
  }

  // ---------------------------------------------------------------- funding and collateral

  /** A market's index for one side, with what has built up since the market was last touched. */
  function IndexAt(w: World, m: Market, isLong: bool): int {
    if m !in w.funding then 0
    else
      var fs := w.funding[m];
      var accrued := if fs.last == 0 then 0 else fs.rate * (w.now - fs.last);
      if isLong then fs.long + accrued else fs.short - accrued
  }

  /** A market's index for one side as last recorded. */
  function IndexOnRecord(w: World, m: Market, isLong: bool): int {
    if m !in w.funding then 0 else if isLong then w.funding[m].long else w.funding[m].short
  }

  /** What a position owes when its index moves, rounded toward zero; negative when it is owed. */
  function Owed(p: Position, index: int): int {
    var owed := p.size * (index - p.index);
    if owed >= 0 then owed / W else -(-owed / W)
  }

  /** The tokens left when funding is settled: a credit adds its worth, a charge takes it as far as it goes. */
  function TokensLeft(w: World, p: Position, owed: int): nat {
    if owed <= 0 then p.collateral + UsdToTokens(Places(w, p.token), -owed)
    else if UsdToTokens(Places(w, p.token), owed) < p.collateral then
      p.collateral - UsdToTokens(Places(w, p.token), owed)
    else 0
  }

  /** The dollars left: nothing once either record of the collateral is used up. */
  function DollarsLeft(w: World, p: Position, owed: int): nat {
    if owed <= 0 then p.collateralUsd - owed
    else if UsdToTokens(Places(w, p.token), owed) < p.collateral && owed < p.collateralUsd then p.collateralUsd - owed
    else 0
  }

  lemma SettledIs(w: World, p: Position, fs: FundingState)
    ensures var index := if p.isLong then fs.long else fs.short;
            var owed := Owed(p, index);
            Settled(p, fs, Decimals(w.settings, p.token)) ==
            p.(collateral := TokensLeft(w, p, owed), collateralUsd := DollarsLeft(w, p, owed), index := index)
  {
    var index := if p.isLong then fs.long else fs.short;
    Reads(w, p.market, p.token, p.isLong);
    NothingIsNothing(Places(w, p.token));
    OwedIs(p, index);
    hide UsdToTokens, MulFpSigned, Places, Owed, Decimals;
  }

  lemma OwedIs(p: Position, index: int)
    ensures MulFpSigned(p.size, index - p.index) == Owed(p, index)
  {
  }

  lemma IndexesAre(w: World, m: Market, isLong: bool)
    ensures Index(Accrue(FundingOf(w.funding, m), w.now), isLong) == IndexAt(w, m, isLong)
    ensures Accrue(FundingOf(w.funding, m), w.now).last == w.now
    ensures Index(FundingOf(w.funding, m), isLong) == IndexOnRecord(w, m, isLong)
  {
    assert 0 * (w.now - 0) == 0;
  }

  /** A position as the facets that settle funding see it. */
  function UpToDate(w: World, p: Position): Position {
    var index := IndexAt(w, p.market, p.isLong);
    p.(collateral := TokensLeft(w, p, Owed(p, index)), collateralUsd := DollarsLeft(w, p, Owed(p, index)), index :=
       index)
  }

  lemma UpToDateIs(w: World, p: Position)
    ensures UpToDate(w, p) == Settled(p, Accrue(FundingOf(w.funding, p.market), w.now), Decimals(w.settings, p.token))
  {
    IndexesAre(w, p.market, p.isLong);
    SettledIs(w, p, Accrue(FundingOf(w.funding, p.market), w.now));
    hide TokensLeft, DollarsLeft, Owed, Settled, IndexAt, Accrue;
  }

  ghost predicate OwnedBy(w: World, user: User, id: nat) {
    id in w.book.positions && w.book.positions[id].active && w.book.positions[id].user == user
  }

  // ---------------------------------------------------------------- adding to a position

  predicate AddingTerms(w: World, sender: User, id: nat, amount: nat, leverage: nat, locked: bool) {
    && id in w.book.positions && w.book.positions[id].active && w.book.positions[id].user == sender
    && var m, token := w.book.positions[id].market, w.book.positions[id].token;
       var usd, size := NormalizeToUsd(Places(w, token), amount), Leveraged(w, token, amount, leverage);
       && !w.settings.paused && m !in w.settings.pausedMarkets && Recent(w, m) && locked
       && usd > 0 && size > 0 && size * W < (Terms(w, m).maxLeverage + 1) * usd
  }

  /** The position settled, with the leveraged size and what the fee leaves of the collateral, its entry price averaged
      with the oracle's. */
  ghost predicate Added(w: World, w': World, id: nat, amount: nat, leverage: nat) {
    && id in w.book.positions
    && var p := w.book.positions[id];
       var was, added := UpToDate(w, p), Leveraged(w, p.token, amount, leverage);
       var fee := FeeOn(w, p.token, added, w.settings.takerFeeBps);
       var net := if fee < amount then amount - fee else 0;
       && w'.book.positions == w.book.positions[id :=
            was.(size := was.size + added, collateral := was.collateral + net,
                 collateralUsd := was.collateralUsd + NormalizeToUsd(Places(w, p.token), net),
                 entry := CalculateAverageEntryPrice(was.size, was.entry, added, OraclePrice(w, p.market)))]
       && Trades(w, w', p.market, added, p.isLong, true)
  }

  lemma AddingGives(w: World, sender: User, id: nat, amount: nat, leverage: nat, locked: bool)
    requires Coherent(w)
    ensures var w' := Done(w, sender, AddSize(id, amount, leverage, locked));
            && (w' != w <==> AddingTerms(w, sender, id, amount, leverage, locked))
            && (w' != w ==> Added(w, w', id, amount, leverage))
  {
    AddingGuards(w, sender, id, amount, leverage, locked);
    if CanAddSize(w, sender, id, amount, leverage, locked) {
      AddSizeIsEnabled(w, sender, id, amount, leverage, locked);
      AddsIt(w, sender, id, amount, leverage, locked);
    }
    hide Coherent, Enabled, CanAddSize, AddingTerms, AddSizeDone, AddSizeMove, Added;
  }

  lemma AddsIt(w: World, sender: User, id: nat, amount: nat, leverage: nat, locked: bool)
    requires CanAddSize(w, sender, id, amount, leverage, locked)
    ensures id in w.book.positions && Enabled(w.book, AddSizeMove(w, id, amount, leverage))
    ensures Added(w, AddSizeDone(w, id, amount, leverage), id, amount, leverage)
    ensures AddSizeDone(w, id, amount, leverage) != w
  {
    AddSizeIsEnabled(w, sender, id, amount, leverage, locked);
    AddSizeFields(w, sender, id, amount, leverage, locked);
    var p := w.book.positions[id];
    Reads(w, p.market, p.token, p.isLong);
    ReadsAmounts(w, p.token, amount, Leveraged(w, p.token, amount, leverage), w.settings.takerFeeBps, leverage);
    UpToDateIs(w, p);
    SizeStays(w, p);
    AddedIs(w, AddSizeDone(w, id, amount, leverage), id, amount, leverage);
    hide *;
  }

  lemma AddedIs(w: World, w': World, id: nat, amount: nat, leverage: nat)
    requires id in w.book.positions
    requires var was := w.book.positions[id];
             var fs := Accrue(FundingOf(w.funding, was.market), w.now);
             var p, added := UpToDate(w, was), Leveraged(w, was.token, amount, leverage);
             var fee := FeeOn(w, was.token, added, w.settings.takerFeeBps);
             var net := if fee < amount then amount - fee else 0;
             && p.size == was.size && p.token == was.token
             && w' == w.(book := w.book.(
                  positions := w.book.positions[id := p.(size := p.size + added, collateral := p.collateral + net,
                                 collateralUsd := p.collateralUsd + NormalizeToUsd(Places(w, p.token), net),
                                 entry := CalculateAverageEntryPrice(p.size, p.entry, added,
                                                                     OraclePrice(w, was.market)))],
                  interest := w.book.interest[was.market := Grown(Interest(w.book, was.market), was.isLong, added)]),
                funding := w.funding[was.market := fs], pools := TradeIn(w.pools, was.market, added, was.isLong, true))
    ensures Added(w, w', id, amount, leverage)
  {
    var p := w.book.positions[id];
    TradesIs(w, w', p.market, Leveraged(w, p.token, amount, leverage), p.isLong, true);
    hide Accrue, NormalizeToUsd, FeeOn, MulFp, UpToDate, CalculateAverageEntryPrice, Leveraged, Trades, TradeIn, Places,
      OraclePrice;
  }

  lemma SizeStays(w: World, p: Position)
    ensures UpToDate(w, p).size == p.size && UpToDate(w, p).token == p.token && UpToDate(w, p).entry == p.entry
  {
    hide TokensLeft, DollarsLeft, Owed;
  }

  lemma AddingGuards(w: World, sender: User, id: nat, amount: nat, leverage: nat, locked: bool)
    ensures CanAddSize(w, sender, id, amount, leverage, locked) <==>
            AddingTerms(w, sender, id, amount, leverage, locked)
  {
    if id in w.book.positions {
      var m, token, isLong := w.book.positions[id].market, w.book.positions[id].token, w.book.positions[id].isLong;
      var size, usd := Leveraged(w, token, amount, leverage), NormalizeToUsd(Places(w, token), amount);
      Reads(w, m, token, isLong);
      ReadsAmounts(w, token, amount, size, w.settings.takerFeeBps, leverage);
      LeverageIsExact(size, usd, Terms(w, m).maxLeverage);
      hide ToUsd, NormalizeToUsd, Leveraged, OpeningSize, Config, Stale, Halted, ValidLeverage, Recent, Terms, Places;
    }
  }

  // ---------------------------------------------------------------- closing

  /** What is paid out: tokens, with a result in dollars and less a fee, and never less than nothing. */
  function Payable(w: World, token: Token, tokens: nat, result: int, fee: nat): nat {
    var due := tokens + SignedWorth(Places(w, token), result) - fee;
    if due > 0 then due else 0
  }

  /** The part of an amount that a part of a size has to its share. */
  function ShareOf(amount: nat, cut: nat, size: nat): nat
    requires size > 0
  {
    amount * (cut * W / size) / W
  }

  /** The same for a result, rounded toward zero. */
  function ResultShare(result: int, cut: nat, size: nat): int
    requires size > 0
  {
    if result >= 0 then ShareOf(result, cut, size) else 0 - ShareOf(-result, cut, size)
  }

  lemma SharesAre(amount: nat, result: int, cut: nat, size: nat)
    requires size > 0
    ensures MulFp(amount, DivFp(cut, size)) == ShareOf(amount, cut, size)
    ensures MulFpSigned(result, DivFp(cut, size)) == ResultShare(result, cut, size)
  {
    var fraction := cut * W / size;
    if result >= 0 { assert result * fraction >= 0; } else { assert result * fraction == -(-result * fraction); }
  }

  ghost predicate PartialTerms(w: World, sender: User, id: nat, close: nat, paid: bool) {
    && OwnedBy(w, sender, id)
    && var p := w.book.positions[id];
       && 0 < close < p.size && p.size - close >= w.settings.minPositionSize && Recent(w, p.market)
       && ((sender in w.vaults && paid) ||
           Payable(w, p.token, ShareOf(UpToDate(w, p).collateral, close, p.size),
                   ResultShare(CalculatePnl(p.isLong, p.size, p.entry, OraclePrice(w, p.market)), close, p.size),
                   FeeOn(w, p.token, close, w.settings.takerFeeBps)) == 0)
  }

  lemma PartialGuards(w: World, sender: User, id: nat, close: nat, paid: bool)
    ensures CanPartialClose(w, sender, id, close, paid) <==> PartialTerms(w, sender, id, close, paid)
  {
    if OwnedBy(w, sender, id) && 0 < close < w.book.positions[id].size {
      var p := w.book.positions[id];
      Reads(w, p.market, p.token, p.isLong);
      PartialPayout(w, id, close);
      hide PartialClosePayout, CalculatePnl, Stale, Recent, Payable, UpToDate, FeeOn, ShareOf, ResultShare;
    } else {
      hide Stale, PartialClosePayout;
    }
  }

  lemma PartialPayout(w: World, id: nat, close: nat)
    requires id in w.book.positions && 0 < close < w.book.positions[id].size
    ensures var p := w.book.positions[id];
            PartialClosePayout(w, id, close) ==
            Payable(w, p.token, ShareOf(UpToDate(w, p).collateral, close, p.size),
                    ResultShare(CalculatePnl(p.isLong, p.size, p.entry, OraclePrice(w, p.market)), close, p.size),
                    FeeOn(w, p.token, close, w.settings.takerFeeBps))
  {
    var p := w.book.positions[id];
    Reads(w, p.market, p.token, p.isLong);
    ReadsAmounts(w, p.token, 0, close, 0, 0);
    UpToDateIs(w, p);
    SizeStays(w, p);
    var pnl := CalculatePnl(p.isLong, p.size, p.entry, OraclePrice(w, p.market));
    SharesAre(UpToDate(w, p).collateral, pnl, close, p.size);
    PayoutIs(ShareOf(UpToDate(w, p).collateral, close, p.size), ResultShare(pnl, close, p.size),
             FeeOn(w, p.token, close, w.settings.takerFeeBps), Places(w, p.token));
    SettledNowKeeps(w, id);
    hide UpToDate, MulFp, MulFpSigned, DivFp, ShareOf, ResultShare, CalculatePnl, TakerFee, FeeOn, PayoutOf,
      SignedWorth,
      Price, OraclePrice, Decimals, Places, Settled, Accrue;
  }

  /** The position settled, with the size that is not closed and the collateral that is not the closed part's share, in
      tokens and in dollars. */
  ghost predicate PartlyClosed(w: World, w': World, id: nat, close: nat) {
    && id in w.book.positions && close < w.book.positions[id].size
    && var p := w.book.positions[id];
       var was := UpToDate(w, p);
       && w'.book.positions == w.book.positions[id :=
            was.(size := p.size - close, collateral := Rest(was.collateral, close, p.size),
                 collateralUsd := Rest(was.collateralUsd, close, p.size))]
       && Trades(w, w', p.market, close, p.isLong, false)
  }

  lemma PartialGives(w: World, sender: User, id: nat, close: nat, paid: bool)
    requires Coherent(w)
    ensures var w' := Done(w, sender, PartialClose(id, close, paid));
            && (w' != w <==> PartialTerms(w, sender, id, close, paid))
            && (w' != w ==> PartlyClosed(w, w', id, close))
  {
    PartialGuards(w, sender, id, close, paid);
    PartialIsDone(w, sender, id, close, paid);
    if CanPartialClose(w, sender, id, close, paid) { PartlyCloses(w, sender, id, close, paid); }
    hide *;
  }

  lemma PartialIsDone(w: World, sender: User, id: nat, close: nat, paid: bool)
    requires Coherent(w)
    ensures var w', can := Done(w, sender, PartialClose(id, close, paid)), CanPartialClose(w, sender, id, close, paid);
            && (!can ==> w' == w)
            && (can ==>
                  && id in w.book.positions && 0 < close < w.book.positions[id].size
                  && Enabled(w.book, PartialCloseMove(w, id, close)) && w' == PartialCloseDone(w, id, close))
  {
    if CanPartialClose(w, sender, id, close, paid) { PartialCloseIsEnabled(w, sender, id, close, paid); }
    hide Coherent, Enabled, CanPartialClose, PartialCloseDone, PartialCloseMove;
  }

  lemma PartlyCloses(w: World, sender: User, id: nat, close: nat, paid: bool)
    requires CanPartialClose(w, sender, id, close, paid)
    ensures id in w.book.positions && 0 < close < w.book.positions[id].size
    ensures Enabled(w.book, PartialCloseMove(w, id, close))
    ensures PartlyClosed(w, PartialCloseDone(w, id, close), id, close) && PartialCloseDone(w, id, close) != w
  {
    PartialCloseIsEnabled(w, sender, id, close, paid);
    PartialCloseFields(w, sender, id, close, paid);
    var p := w.book.positions[id];
    UpToDateIs(w, p);
    SizeStays(w, p);
    ReducedIs(UpToDate(w, p), close);
    TradesIs(w, PartialCloseDone(w, id, close), p.market, close, p.isLong, false);
    hide Enabled, CanPartialClose, Accrue, PartialCloseDone, PartialCloseMove, UpToDate, Settled, Reduced, Rest, Trades,
      TradeIn;
  }

  /** What a cut leaves of an amount. */
  function Rest(amount: nat, cut: nat, size: nat): (rest: nat)
    requires 0 < size && cut <= size
  {
    RestIsLeft(amount, cut, size);
    amount - ShareOf(amount, cut, size)
  }

  lemma RestIsLeft(amount: nat, cut: nat, size: nat)
    requires 0 < size && cut <= size
    ensures ShareOf(amount, cut, size) <= amount
  {
    SharesAre(amount, 0, cut, size);
    FractionTakesPart(Position(0, 0, true, size, amount, 0, amount, 0, 0, true), cut);
    hide MulFp, DivFp, ShareOf;
  }

  lemma ReducedIs(p: Position, cut: nat)
    requires 0 < p.size && cut <= p.size
    ensures Reduced(p, cut) == p.(size := p.size - cut, collateral := Rest(p.collateral, cut, p.size),
                                  collateralUsd := Rest(p.collateralUsd, cut, p.size))
  {
    SharesAre(p.collateral, 0, cut, p.size);
    SharesAre(p.collateralUsd, 0, cut, p.size);
    hide MulFp, DivFp, ShareOf;
  }

  ghost predicate ClosingTerms(w: World, sender: User, id: nat, paid: bool) {
    && OwnedBy(w, sender, id)
    && var p := w.book.positions[id];
       && Recent(w, p.market) && ((sender in w.vaults && paid) || ClosingPays(w, UpToDate(w, p)) == 0)
  }

  /** What closing a settled position pays: its tokens with its result, less the fee on its size. */
  function ClosingPays(w: World, p: Position): nat {
    Payable(w, p.token, p.collateral, CalculatePnl(p.isLong, p.size, p.entry, OraclePrice(w, p.market)),
            FeeOn(w, p.token, p.size, w.settings.takerFeeBps))
  }

  lemma PayoutsAre(w: World, p: Position)
    ensures ClosePayout(w, p) == ClosingPays(w, p)
  {
    Reads(w, p.market, p.token, p.isLong);
    ReadsAmounts(w, p.token, 0, p.size, 0, 0);
    PayoutIs(p.collateral, CalculatePnl(p.isLong, p.size, p.entry, OraclePrice(w, p.market)),
             FeeOn(w, p.token, p.size, w.settings.takerFeeBps), Places(w, p.token));
    hide CalculatePnl, TakerFee, FeeOn, PayoutOf, SignedWorth, Price, OraclePrice, Decimals, Places;
  }

  lemma ClosingGuards(w: World, sender: User, id: nat, paid: bool)
    ensures CanClose(w, sender, id, paid) <==> ClosingTerms(w, sender, id, paid)
  {
    if OwnedBy(w, sender, id) {
      var p := w.book.positions[id];
      Reads(w, p.market, p.token, p.isLong);
      UpToDateIs(w, p);
      PayoutsAre(w, UpToDate(w, p));
    }
    hide ClosePayout, ClosingPays, Stale, Recent, UpToDate, Settled, Accrue;
  }

  /** A close settles the position and ends it; its size leaves open interest and the pool. */
  lemma ClosingGives(w: World, sender: User, id: nat, paid: bool)
    requires Coherent(w)
    ensures var w' := Done(w, sender, ClosePosition(id, paid));
            && (w' != w <==> ClosingTerms(w, sender, id, paid))
            && (w' != w ==> Closes(w, w', id))
  {
    ClosingGuards(w, sender, id, paid);
    ClosingIsDone(w, sender, id, paid);
    if CanClose(w, sender, id, paid) { ClosesIt(w, id); }
    hide *;
  }

  lemma ClosingIsDone(w: World, sender: User, id: nat, paid: bool)
    requires Coherent(w)
    ensures var w', can := Done(w, sender, ClosePosition(id, paid)), CanClose(w, sender, id, paid);
            && (!can ==> w' == w)
            && (can ==> IsActive(w.book, id) && Enabled(w.book, CloseMove(w, id)) && w' == CloseDone(w, id))
  {
    hide Coherent, Enabled, CloseDone, CloseMove, ClosePayout, Stale;
    if CanClose(w, sender, id, paid) { CloseIsEnabled(w, id); }
  }

  /** The position is settled and ended, and its holder holds nothing in the market. */
  ghost predicate Closes(w: World, w': World, id: nat) {
    && id in w.book.positions
    && var p := w.book.positions[id];
       && w'.book.positions == w.book.positions[id := UpToDate(w, p).(active := false)] && p.active
       && !Holds(w', p.user, p.market) && Trades(w, w', p.market, p.size, p.isLong, false)
  }

  lemma ClosesIt(w: World, id: nat)
    requires Coherent(w) && IsActive(w.book, id)
    ensures id in w.book.positions && Enabled(w.book, CloseMove(w, id))
    ensures Closes(w, CloseDone(w, id), id) && CloseDone(w, id) != w
  {
    CloseFields(w, id);
    CloseDoneIsValid(w, id);
    var p := w.book.positions[id];
    UpToDateIs(w, p);
    ReadsHolds(CloseDone(w, id), p.user, p.market);
    TradesIs(w, CloseDone(w, id), p.market, p.size, p.isLong, false);
    hide Coherent, Enabled, CloseDone, CloseMove, UpToDate, Settled, Accrue, Trades, TradeIn, Holds, HasActive;
  }

  // ---------------------------------------------------------------- collateral

  /** Collateral goes in for the owner, at any price and at any time. */
  lemma CollateralGoesIn(w: World, sender: User, id: nat, amount: nat, locked: bool)
    requires Coherent(w)
    ensures var w' := Done(w, sender, AddCollateral(id, amount, locked));
            && (w' != w <==> OwnedBy(w, sender, id) && amount > 0 && locked)
            && (w' != w ==>
                  && id in w.book.positions
                  && var p := w.book.positions[id];
                     w' == w.(book := w.book.(positions := w.book.positions[id :=
                       p.(collateral := p.collateral + amount,
                          collateralUsd := p.collateralUsd + NormalizeToUsd(Places(w, p.token), amount))])))
  {
    if CanAddCollateral(w, sender, id, amount, locked) {
      AddCollateralFields(w, sender, id, amount, locked);
      ReadsAmounts(w, w.book.positions[id].token, amount, 0, 0, 0);
    }
    hide Coherent, AddCollateralDone, AddCollateralMove, Enabled, ToUsd, NormalizeToUsd;
  }

  /** Collateral comes out when what is left of the settled position is within the leverage and has twice the
      maintenance margin. */
  ghost predicate RemovalTerms(w: World, sender: User, id: nat, amount: nat, paid: bool) {
    && OwnedBy(w, sender, id)
    && var p := w.book.positions[id];
       var was, usd := UpToDate(w, p), NormalizeToUsd(Places(w, p.token), amount);
       var left: int, equity := was.collateralUsd - usd,
         was.collateralUsd - usd + CalculatePnl(p.isLong, p.size, p.entry, OraclePrice(w, p.market));
       && 0 < amount < p.collateral && amount <= was.collateral && Recent(w, p.market) && sender in w.vaults && paid
       && left > 0 && p.size > 0 && p.size * W < (Terms(w, p.market).maxLeverage + 1) * left
       && equity > 0 && BPS * equity >= p.size * (2 * Terms(w, p.market).maintenanceBps)
  }

  lemma RemovalGuards(w: World, sender: User, id: nat, amount: nat, paid: bool)
    ensures CanRemoveCollateral(w, sender, id, amount, paid) <==> RemovalTerms(w, sender, id, amount, paid)
  {
    if OwnedBy(w, sender, id) {
      var p := w.book.positions[id];
      Reads(w, p.market, p.token, p.isLong);
      ReadsAmounts(w, p.token, amount, 0, 0, 0);
      UpToDateIs(w, p);
      SizeStays(w, p);
      SettledNowKeeps(w, id);
      var left: int := UpToDate(w, p).collateralUsd - NormalizeToUsd(Places(w, p.token), amount);
      if left > 0 {
        LeverageIsExact(p.size, left, Terms(w, p.market).maxLeverage);
        TwiceMaintenance(p, left, OraclePrice(w, p.market), Terms(w, p.market).maintenanceBps);
      }
      hide CalculatePnl, CalculateMarginRatio, Stale, Recent, UpToDate, Settled, Accrue, ValidLeverage, NormalizeToUsd,
        ToUsd,
        Places, Decimals, Terms, Config, Price, OraclePrice;
    }
  }

  lemma TwiceMaintenance(p: Position, left: nat, price: nat, maintenanceBps: nat)
    ensures var equity := left + CalculatePnl(p.isLong, p.size, p.entry, price);
            p.size > 0 && equity > 0 ==>
              (CalculateMarginRatio(p.isLong, left, p.size, p.entry, price) >= 2 * maintenanceBps <==>
               BPS * equity >= p.size * (2 * maintenanceBps))
  {
    if p.size > 0 { MarginCheckIsExact(p.isLong, left, p.size, p.entry, price, 2 * maintenanceBps); }
    hide CalculatePnl, CalculateMarginRatio;
  }

  lemma CollateralComesOut(w: World, sender: User, id: nat, amount: nat, paid: bool)
    requires Coherent(w)
    ensures var w' := Done(w, sender, RemoveCollateral(id, amount, paid));
            && (w' != w <==> RemovalTerms(w, sender, id, amount, paid))
            && (w' != w ==> Removed(w, w', id, amount))
  {
    RemovalGuards(w, sender, id, amount, paid);
    RemovalIsDone(w, sender, id, amount, paid);
    if CanRemoveCollateral(w, sender, id, amount, paid) { Removes(w, sender, id, amount, paid); }
    hide *;
  }

  lemma RemovalIsDone(w: World, sender: User, id: nat, amount: nat, paid: bool)
    requires Coherent(w)
    ensures var w' := Done(w, sender, RemoveCollateral(id, amount, paid));
            if CanRemoveCollateral(w, sender, id, amount, paid) then
              && id in w.book.positions && amount <= SettledNow(w, id).collateral
              && ToUsd(w.settings, SettledNow(w, id).token, amount) <= SettledNow(w, id).collateralUsd
              && Enabled(w.book, RemoveCollateralMove(w, id, amount)) && w' == RemoveCollateralDone(w, id, amount)
            else w' == w
  {
    if CanRemoveCollateral(w, sender, id, amount, paid) { RemoveCollateralFields(w, sender, id, amount, paid); }
    hide Coherent, CanRemoveCollateral, RemoveCollateralDone, RemoveCollateralMove, Enabled, ToUsd, SettledNow;
  }

  /** Nothing moves but the settled position's collateral and the market's indexes. */
  ghost predicate Removed(w: World, w': World, id: nat, amount: nat) {
    && id in w.book.positions
    && var p := w.book.positions[id];
       var was, usd := UpToDate(w, p), NormalizeToUsd(Places(w, p.token), amount);
       && amount <= was.collateral && usd <= was.collateralUsd
       && w'.book == w.book.(positions := w.book.positions[id :=
            was.(collateral := was.collateral - amount, collateralUsd := was.collateralUsd - usd)])
       && w' == w.(book := w'.book, funding := w'.funding)
       && IndexOnRecord(w', p.market, p.isLong) == was.index
  }

  lemma Removes(w: World, sender: User, id: nat, amount: nat, paid: bool)
    requires Coherent(w) && CanRemoveCollateral(w, sender, id, amount, paid)
    ensures id in w.book.positions && amount <= SettledNow(w, id).collateral
    ensures ToUsd(w.settings, SettledNow(w, id).token, amount) <= SettledNow(w, id).collateralUsd
    ensures Enabled(w.book, RemoveCollateralMove(w, id, amount))
    ensures Removed(w, RemoveCollateralDone(w, id, amount), id, amount) && RemoveCollateralDone(w, id, amount) != w
  {
    RemoveCollateralFields(w, sender, id, amount, paid);
    var p := w.book.positions[id];
    ReadsAmounts(w, p.token, amount, 0, 0, 0);
    UpToDateIs(w, p);
    SettledNowKeeps(w, id);
    SizeStays(w, p);
    CanRemoveIsActive(w, sender, id, amount, paid);
    RemovedIs(w, RemoveCollateralDone(w, id, amount), id, amount);
    hide *;
  }

  lemma CanRemoveIsActive(w: World, sender: User, id: nat, amount: nat, paid: bool)
    requires CanRemoveCollateral(w, sender, id, amount, paid)
    ensures amount > 0 && id in w.book.positions && amount < w.book.positions[id].collateral
  {
    hide CalculatePnl, CalculateMarginRatio, SettledNow;
  }

  lemma NothingOwed(w: World, p: Position)
    ensures UpToDate(w, p).index == p.index ==> UpToDate(w, p) == p
  {
    NothingIsNothing(Places(w, p.token));
    OwesNothing(p);
    hide UsdToTokens, IndexAt, Owed, Places;
  }

  lemma OwesNothing(p: Position)
    ensures Owed(p, p.index) == 0
  {
    assert p.size * 0 == 0;
  }

  lemma RemovedIs(w: World, w': World, id: nat, amount: nat)
    requires id in w.book.positions && 0 < amount < w.book.positions[id].collateral
    requires var p := w.book.positions[id];
             var was, usd := UpToDate(w, p), NormalizeToUsd(Places(w, p.token), amount);
             && amount <= was.collateral && usd <= was.collateralUsd
             && w' == w.(book := w.book.(positions := w.book.positions[id :=
                           was.(collateral := was.collateral - amount, collateralUsd := was.collateralUsd - usd)]),
                         funding := w.funding[p.market := Accrue(FundingOf(w.funding, p.market), w.now)])
    ensures Removed(w, w', id, amount)
    ensures w' != w
  {
    NothingOwed(w, w.book.positions[id]);
    IndexesAre(w, w.book.positions[id].market, w.book.positions[id].isLong);
    hide Accrue, TokensLeft, DollarsLeft, Owed, IndexAt, NormalizeToUsd, Places;
  }

  // ---------------------------------------------------------------- liquidation

  /** What a liquidation transfers: the reward, and what the penalty leaves to the user. */
  ghost predicate LiquidationPays(w: World, p: Position, user: User) {
    var equity := p.collateralUsd + CalculatePnl(p.isLong, p.size, p.entry, OraclePrice(w, p.market));
    var remaining := if equity > 0 then UsdToTokens(Places(w, p.token), equity) else 0;
    || 0 < KeeperReward(remaining, w.settings.liquidationFeeBps) <= remaining
    || (remaining > Penalty(remaining, w.settings.liquidationFeeBps) && user in w.vaults)
  }

  /** The settled position's margin is below maintenance. */
  ghost predicate LiquidationTerms(w: World, id: nat, paid: bool) {
    && id in w.book.positions
    && var p := w.book.positions[id];
       var was, price := UpToDate(w, p), OraclePrice(w, p.market);
       && p.active && price > 0 && p.size > 0
       && BPS * (was.collateralUsd + CalculatePnl(p.isLong, p.size, p.entry, price)) <
          p.size * Terms(w, p.market).maintenanceBps
       && Terms(w, p.market).maintenanceBps > 0
       && (LiquidationPays(w, was, p.user) ==> paid)
  }

  lemma LiquidationGuards(w: World, id: nat, paid: bool)
    requires Coherent(w)
    ensures CanLiquidate(w, id, paid) <==> LiquidationTerms(w, id, paid)
  {
    CoherentIsSound(w);
    if IsActive(w.book, id) {
      ActiveHasSize(w.book, id);
      var p := w.book.positions[id];
      Reads(w, p.market, p.token, p.isLong);
      UpToDateIs(w, p);
      SizeStays(w, p);
      SettledNowKeeps(w, id);
      MarginCheckIsExact(p.isLong, UpToDate(w, p).collateralUsd, p.size, p.entry, OraclePrice(w, p.market),
                         Terms(w, p.market).maintenanceBps);
      hide Coherent, Sound, CalculatePnl, CalculateMarginRatio, UpToDate, Settled, Accrue, KeeperReward, Penalty,
        UsdToTokens,
        Places, Decimals, Terms, Config, Price, OraclePrice;
    } else {
      hide Distributes, BelowMaintenance, LiquidationPays;
    }
  }

  /** A liquidation goes through, for anybody, exactly below maintenance, and closes the position. */
  lemma LiquidationGives(w: World, sender: User, id: nat, paid: bool)
    requires Coherent(w)
    ensures var w' := Done(w, sender, Liquidate(id, paid));
            && (w' != w <==> LiquidationTerms(w, id, paid))
            && (w' != w ==> Closes(w, w', id))
  {
    LiquidationGuards(w, id, paid);
    if CanLiquidate(w, id, paid) {
      LiquidatedIsActive(w, id, paid);
      ClosesIt(w, id);
    }
    hide Coherent, CanLiquidate, LiquidationTerms, CloseDone, CloseMove, Closes, Enabled;
  }

  /** Deleveraging is for winners, and pays the part's share of the collateral and of the profit. */
  ghost predicate DeleverageTerms(w: World, id: nat, cut: nat, paid: bool) {
    && id in w.book.positions
    && var p := w.book.positions[id];
       var pnl := CalculatePnl(p.isLong, p.size, p.entry, OraclePrice(w, p.market));
       && p.active && 0 < cut <= p.size && pnl > 0
       && (p.user in w.vaults ==>
             paid || ShareOf(p.collateral, cut, p.size)
                     + UsdToTokens(Places(w, p.token), ShareOf(pnl, cut, p.size)) == 0)
  }

  lemma DeleverageGuards(w: World, id: nat, cut: nat, paid: bool)
    ensures CanDeleverage(w, id, cut, paid) <==> DeleverageTerms(w, id, cut, paid)
  {
    if IsActive(w.book, id) && 0 < cut <= w.book.positions[id].size {
      var p := w.book.positions[id];
      Reads(w, p.market, p.token, p.isLong);
      var pnl := CalculatePnl(p.isLong, p.size, p.entry, OraclePrice(w, p.market));
      SharesAre(p.collateral, pnl, cut, p.size);
      hide CalculatePnl, MulFp, MulFpSigned, DivFp, ShareOf, UsdToTokens, Places, Decimals, Price, OraclePrice;
    }
  }

  /** The part is gone, with its share of the collateral; taking the whole size ends the position.  Funding is not
      settled and the pool is left alone. */
  ghost predicate Deleveraged(w: World, w': World, id: nat, cut: nat) {
    && id in w.book.positions && 0 < cut <= w.book.positions[id].size
    && var p := w.book.positions[id];
       var open := OpenSize(w, p.market, p.isLong);
       && w'.book.positions == w.book.positions[id :=
            p.(size := p.size - cut, collateral := Rest(p.collateral, cut, p.size),
               collateralUsd := Rest(p.collateralUsd, cut, p.size), active := cut < p.size)]
       && w' == w.(book := w'.book)
       && (cut == p.size ==> !Holds(w', p.user, p.market))
       && OpenSize(w', p.market, p.isLong) == (if open > cut then open - cut else 0)
       && OpenSize(w', p.market, !p.isLong) == OpenSize(w, p.market, !p.isLong)
  }

  lemma DeleverageGives(w: World, sender: User, id: nat, cut: nat, paid: bool)
    requires Coherent(w)
    ensures var w' := Done(w, sender, AutoDeleverage(id, cut, paid));
            && (w' != w <==> DeleverageTerms(w, id, cut, paid))
            && (w' != w ==> Deleveraged(w, w', id, cut))
  {
    DeleverageGuards(w, id, cut, paid);
    DeleverageIsDone(w, sender, id, cut, paid);
    if CanDeleverage(w, id, cut, paid) { Deleverages(w, id, cut, paid); }
    hide *;
  }

  lemma DeleverageIsDone(w: World, sender: User, id: nat, cut: nat, paid: bool)
    requires Coherent(w)
    ensures var w', can := Done(w, sender, AutoDeleverage(id, cut, paid)), CanDeleverage(w, id, cut, paid);
            && (!can ==> w' == w)
            && (can ==>
                  && id in w.book.positions && 0 < cut <= w.book.positions[id].size
                  && Enabled(w.book, DeleverageMove(w, id, cut)) && w' == DeleverageDone(w, id, cut))
  {
    if CanDeleverage(w, id, cut, paid) { DeleverageIsEnabled(w, id, cut, paid); }
    hide Coherent, Enabled, CanDeleverage, DeleverageDone, DeleverageMove;
  }

  lemma Deleverages(w: World, id: nat, cut: nat, paid: bool)
    requires Coherent(w) && CanDeleverage(w, id, cut, paid)
    ensures id in w.book.positions && 0 < cut <= w.book.positions[id].size
    ensures Enabled(w.book, DeleverageMove(w, id, cut))
    ensures Deleveraged(w, DeleverageDone(w, id, cut), id, cut) && DeleverageDone(w, id, cut) != w
  {
    DeleverageFields(w, id, cut, paid);
    DeleverageIsValid(w, id, cut, paid);
    var p := w.book.positions[id];
    CanDeleverageIsActive(w, id, cut, paid);
    ReducedIs(p, cut);
    ReadsHolds(DeleverageDone(w, id, cut), p.user, p.market);
    hide Coherent, CanDeleverage, DeleverageDone, DeleverageMove, Enabled, Reduced, Rest, Holds;
  }

  lemma CanDeleverageIsActive(w: World, id: nat, cut: nat, paid: bool)
    requires CanDeleverage(w, id, cut, paid)
    ensures IsActive(w.book, id)
  {
    hide DeleveragePayout, CalculatePnl;
  }
}
