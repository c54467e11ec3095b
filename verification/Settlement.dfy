/**
 Collateral: token amounts and dollars, fees, the settlement of funding, the reduction of a position, and the three
 ways in which the contracts ask whether a position is to be liquidated.
 */
module Settlement {
  import opened FixedPoint
  import opened Margin
  import opened LibPosition
  import opened Ids
  import opened Funding
  import opened Book
  import FundingRuns

  // ---------------------------------------------------------------- tokens, fees, leverage

  function Pow10(n: nat): (p: nat)
    ensures p > 0
  {
    if n == 0 then 1 else 10 * Pow10(n - 1)
  }

  function ScaleUp(a: nat, factor: nat): nat {
    a * factor
  }

  function ScaleDown(a: nat, factor: nat): nat
    requires factor > 0
  {
    a / factor
  }

  function NormalizeToUsd(decimals: nat, amount: nat): nat {
    if decimals < 18 then ScaleUp(amount, Pow10(18 - decimals))
    else if decimals > 18 then ScaleDown(amount, Pow10(decimals - 18))
    else amount
  }

  function UsdToTokens(decimals: nat, usd: nat): nat {
    if decimals < 18 then ScaleDown(usd, Pow10(18 - decimals))
    else if decimals > 18 then ScaleUp(usd, Pow10(decimals - 18))
    else usd
  }

  function TradingFee(size: nat, feeBps: nat): nat {
    (size * feeBps + 9999) / BPS
  }

  predicate ValidLeverage(size: nat, collateralUsd: nat, maxLeverage: nat) {
    collateralUsd > 0 && size > 0 && DivFp(size, collateralUsd) <= maxLeverage
  }

  /** A token amount survives the way to dollars and back if the token has at most 18 decimals; otherwise it comes back
      no larger. */
  lemma TokensAndBack(decimals: nat, amount: nat)
    ensures decimals <= 18 ==> UsdToTokens(decimals, NormalizeToUsd(decimals, amount)) == amount
    ensures UsdToTokens(decimals, NormalizeToUsd(decimals, amount)) <= amount
  {
    hide Pow10;
    if decimals < 18 { ExactQuotient(amount, Pow10(18 - decimals)); }
    if decimals > 18 { Ratio(amount, Pow10(decimals - 18), amount / Pow10(decimals - 18)); }
  }

  /** What a token unit is worth, and how much of a token a dollar amount is: the unit is 10^(18 - decimals) for a token
      of at most 18 decimals, and the other way round for one of more. */
  lemma TokenUnits(amount: nat, usd: nat)
    ensures NormalizeToUsd(18, amount) == amount && UsdToTokens(18, usd) == usd
    ensures NormalizeToUsd(6, amount) == amount * 1_000_000_000_000
    ensures NormalizeToUsd(8, amount) == amount * 10_000_000_000
    ensures NormalizeToUsd(0, amount) == amount * 1_000_000_000_000_000_000
    ensures UsdToTokens(6, usd) * 1_000_000_000_000 <= usd < (UsdToTokens(6, usd) + 1) * 1_000_000_000_000
    ensures UsdToTokens(8, usd) * 10_000_000_000 <= usd < (UsdToTokens(8, usd) + 1) * 10_000_000_000
    ensures UsdToTokens(20, usd) == usd * 100
    ensures NormalizeToUsd(20, amount) * 100 <= amount < (NormalizeToUsd(20, amount) + 1) * 100
  {
    TenTo(2, 6);
    TenTo(8, 2);
    assert Pow10(10) == 10_000_000_000 && Pow10(12) == 1_000_000_000_000 && Pow10(18) == 1_000_000_000_000_000_000;
    assert Pow10(2) == 100;
  }

  lemma {:induction false} TenTo(a: nat, b: nat)
    ensures Pow10(a + b) == Pow10(a) * Pow10(b)
    ensures Pow10(0) == 1 && Pow10(a + 1) == 10 * Pow10(a)
  {
    if a > 0 { TenTo(a - 1, b); }
  }

  /** For any number of decimals: tokens are dollars rounded down to the unit. */
  lemma WorthInTokens(decimals: nat, usd: nat)
    ensures decimals <= 18 ==>
              var unit := NormalizeToUsd(decimals, 1);
              unit * UsdToTokens(decimals, usd) <= usd < unit * UsdToTokens(decimals, usd) + unit
    ensures decimals >= 18 ==> UsdToTokens(decimals, usd) == usd * UsdToTokens(decimals, 1)
    ensures decimals <= 18 ==>
            forall amount: nat :: NormalizeToUsd(decimals, amount) == amount * NormalizeToUsd(decimals, 1)
    ensures decimals <= 18 ==> UsdToTokens(decimals, NormalizeToUsd(decimals, 1)) == 1
  {
    hide Pow10;
    if decimals < 18 {
      Ratio(usd, Pow10(18 - decimals), usd / Pow10(18 - decimals));
      ExactQuotient(1, Pow10(18 - decimals));
    }
  }

  /** The fee of a trade is its share of the size, rounded up. */
  lemma FeeIsRoundedUp(size: nat, feeBps: nat)
    ensures size * feeBps <= TradingFee(size, feeBps) * BPS < size * feeBps + BPS
  {
    Ratio(size * feeBps + 9999, BPS, TradingFee(size, feeBps));
  }

  /** Leverage is within the limit, to the last unit: size over collateral, rounded down, does not exceed it. */
  lemma LeverageIsExact(size: nat, collateralUsd: nat, maxLeverage: nat)
    ensures ValidLeverage(size, collateralUsd, maxLeverage) <==>
            collateralUsd > 0 && size > 0 && size * W < (maxLeverage + 1) * collateralUsd
  {
    if collateralUsd > 0 {
      Ratio(size * W, collateralUsd, DivFp(size, collateralUsd));
      if DivFp(size, collateralUsd) <= maxLeverage {
        Scale(DivFp(size, collateralUsd) + 1, maxLeverage + 1, collateralUsd);
      } else {
        Scale(maxLeverage + 1, DivFp(size, collateralUsd), collateralUsd);
      }
    }
  }

  // ---------------------------------------------------------------- settlement

  function FundingOf(funding: map<Market, FundingState>, m: Market): FundingState {
    if m in funding then funding[m] else FundingState(0, 0, 0, 0)
  }

  /** A position after its funding payment at the market's present indexes has gone to or come from its collateral. */
  function Settled(p: Position, fs: FundingState, decimals: nat): Position {
    var payment := MulFpSigned(p.size, Index(fs, p.isLong) - p.index);
    var settled :=
      if payment > 0 then
        var owed := UsdToTokens(decimals, payment);
        if owed >= p.collateral then p.(collateral := 0, collateralUsd := 0)
        else p.(collateral := p.collateral - owed,
                collateralUsd := if p.collateralUsd > payment then p.collateralUsd - payment else 0)
      else if payment < 0 then
        p.(collateral := p.collateral + UsdToTokens(decimals, -payment), collateralUsd := p.collateralUsd - payment)
      else p;
    settled.(index := Index(fs, p.isLong))
  }

  /** The payment can be taken from the collateral in full. */
  predicate Covers(p: Position, payment: int, decimals: nat) {
    payment <= 0 || (UsdToTokens(decimals, payment) < p.collateral && payment <= p.collateralUsd)
  }

  /** Settlement charges what the funding ledger says, in dollars exactly if the collateral covers it, and settling
      again at once charges nothing. */
  lemma SettlementCharges(p: Position, fs: FundingState, decimals: nat)
    ensures var payment := FundingRuns.Payment(FundingRuns.Ledger(fs, p.isLong, p.size, p.index, 0));
            && (Covers(p, payment, decimals) ==> Settled(p, fs, decimals).collateralUsd == p.collateralUsd - payment)
            && (!Covers(p, payment, decimals) ==> Settled(p, fs, decimals).collateralUsd == 0)
            && (Settled(p, fs, decimals).collateralUsd == p.collateralUsd - payment <==>
                Covers(p, payment, decimals) || payment == p.collateralUsd)
    ensures Settled(Settled(p, fs, decimals), fs, decimals) == Settled(p, fs, decimals)
  {
    hide UsdToTokens;
    assert p.size * 0 == 0;
  }

  /** Settlement moves the tokens too: a credit adds its worth, rounded down to the unit; a charge that the tokens
      exceed takes its worth, and any other leaves none.  Nothing else about the position changes but the index. */
  lemma SettlementMovesTokens(p: Position, fs: FundingState, decimals: nat)
    ensures var payment := FundingRuns.Payment(FundingRuns.Ledger(fs, p.isLong, p.size, p.index, 0));
            var q := Settled(p, fs, decimals);
            && (payment <= 0 ==>
                  && q.collateral == p.collateral + UsdToTokens(decimals, -payment)
                  && q.collateralUsd == p.collateralUsd - payment)
            && (payment > 0 && UsdToTokens(decimals, payment) < p.collateral ==>
                  q.collateral == p.collateral - UsdToTokens(decimals, payment))
            && (payment > 0 && UsdToTokens(decimals, payment) >= p.collateral ==> q.collateral == q.collateralUsd == 0)
            && q == p.(collateral := q.collateral, collateralUsd := q.collateralUsd,
                       index := if p.isLong then fs.long else fs.short)
  {
    NothingIsNothing(decimals);
    hide UsdToTokens;
  }

  lemma NothingIsNothing(decimals: nat)
    ensures UsdToTokens(decimals, 0) == 0 && NormalizeToUsd(decimals, 0) == 0
  {
    hide Pow10;
  }

  /** A covered settlement moves tokens and dollars by the same amount, but for less than one token unit. */
  lemma TokensFollowDollars(p: Position, fs: FundingState, decimals: nat)
    requires decimals <= 18
    requires Covers(p, FundingRuns.Payment(FundingRuns.Ledger(fs, p.isLong, p.size, p.index, 0)), decimals)
    ensures var q, unit := Settled(p, fs, decimals), NormalizeToUsd(decimals, 1);
            Abs((q.collateralUsd - p.collateralUsd) - unit * (q.collateral - p.collateral)) < unit
  {
    hide NormalizeToUsd, UsdToTokens, Settled, MulFpSigned;
    var payment := FundingRuns.Payment(FundingRuns.Ledger(fs, p.isLong, p.size, p.index, 0));
    var q, unit := Settled(p, fs, decimals), NormalizeToUsd(decimals, 1);
    SettlementMovesTokens(p, fs, decimals);
    SettlementCharges(p, fs, decimals);
    var tokens: int := UsdToTokens(decimals, Abs(payment));
    WorthInTokens(decimals, Abs(payment));
    Opposite(unit, tokens);
    assert q.collateral - p.collateral == if payment > 0 then 0 - tokens else tokens;
  }

  lemma Opposite(a: int, b: int)
    ensures a * (0 - b) == 0 - a * b
  {
  }

  /** Where the collateral does not cover the charge, settling in between matters: the charge is forgiven beyond the
      collateral, and its return is paid in full. */
  lemma SettlingInBetweenCanMatter()
    ensures var p := Position(1, 1, true, W, 10, 1, 10, W, 0, true);
            var up, back := FundingState(20, -20, 1, 0), FundingState(0, 0, 2, 0);
            && !Covers(p, 20, 18)
            && Settled(Settled(p, up, 18), back, 18).collateralUsd == 20
            && Settled(p, back, 18).collateralUsd == 10
  {
    assert W * 20 / W == 20 && MulFpSigned(W, 20) == 20 && MulFpSigned(W, -20) == -20 && MulFpSigned(W, 0) == 0;
  }

  // ---------------------------------------------------------------- payouts

  /** What closing pays out: the collateral with the profit or less the loss, and less the fee. */
  function PayoutOf(collateral: nat, pnl: int, fee: nat, decimals: nat): nat {
    var gross :=
      if pnl > 0 then collateral + UsdToTokens(decimals, pnl)
      else if pnl < 0 then
        var loss := UsdToTokens(decimals, -pnl);
        if collateral > loss then collateral - loss else 0
      else collateral;
    if gross > fee then gross - fee else 0
  }

  /** The worth of a profit in tokens, or of a loss, taken as negative. */
  function SignedWorth(decimals: nat, pnl: int): int {
    if pnl >= 0 then UsdToTokens(decimals, pnl) else 0 - UsdToTokens(decimals, -pnl)
  }

  /** A payout is the collateral with the worth of the result, less the fee, and never negative. */
  lemma PayoutIs(collateral: nat, pnl: int, fee: nat, decimals: nat)
    ensures var due := collateral + SignedWorth(decimals, pnl) - fee;
            PayoutOf(collateral, pnl, fee, decimals) == if due > 0 then due else 0
  {
    NothingIsNothing(decimals);
    hide UsdToTokens;
  }

  /** Two positions that cancel pay out together what they brought in, and whatever the losing side's collateral does
      not cover on top of that, fees apart: payouts may ask for more than was ever locked. */
  lemma CancellingPayouts(winner: nat, loser: nat, profit: int, decimals: nat)
    requires profit > 0
    ensures var tokens := UsdToTokens(decimals, profit);
            PayoutOf(winner, profit, 0, decimals) + PayoutOf(loser, -profit, 0, decimals) ==
            winner + loser + (if tokens > loser then tokens - loser else 0)
    ensures PayoutOf(winner, profit, 0, decimals) + PayoutOf(loser, -profit, 0, decimals) <= winner + loser <==>
            UsdToTokens(decimals, profit) <= loser
  {
    hide UsdToTokens;
  }

  /** What is left for a liquidation to distribute. */
  function Remaining(p: Position, price: nat, decimals: nat): nat {
    var equity := p.collateralUsd + CalculatePnl(p.isLong, p.size, p.entry, price);
    if equity > 0 then UsdToTokens(decimals, equity) else 0
  }

  function Penalty(remaining: nat, feeBps: nat): nat {
    remaining * feeBps / BPS
  }

  /** 60% of the penalty goes to whoever liquidates. */
  function KeeperReward(remaining: nat, feeBps: nat): nat {
    Penalty(remaining, feeBps) * 6000 / BPS
  }

  /** What a liquidation distributes: nothing where the equity is used up, otherwise its worth in tokens; of that the
      penalty takes its share rounded down, and whoever liquidates six tenths of the penalty rounded down. */
  lemma LiquidationShares(p: Position, price: nat, decimals: nat, feeBps: nat)
    ensures var equity := p.collateralUsd + CalculatePnl(p.isLong, p.size, p.entry, price);
            var remaining := Remaining(p, price, decimals);
            var penalty, reward := Penalty(remaining, feeBps), KeeperReward(remaining, feeBps);
            && (equity <= 0 ==> remaining == penalty == reward == 0)
            && (equity > 0 ==> remaining == UsdToTokens(decimals, equity))
            && penalty * 10000 <= remaining * feeBps < penalty * 10000 + 10000
            && reward * 10 <= penalty * 6 < reward * 10 + 10
  {
    hide UsdToTokens, CalculatePnl;
    var remaining := Remaining(p, price, decimals);
    Ratio(remaining * feeBps, BPS, Penalty(remaining, feeBps));
    Ratio(Penalty(remaining, feeBps) * 6000, BPS, KeeperReward(remaining, feeBps));
  }

  // ---------------------------------------------------------------- three ways of asking whether to liquidate

  /** Margin below maintenance, compared exactly. */
  predicate Short(p: Position, collateralUsd: int, price: nat, maintenanceBps: nat) {
    BPS * (collateralUsd + CalculatePnl(p.isLong, p.size, p.entry, price)) < p.size * maintenanceBps
  }

  /** The funding a position would be charged now. */
  function PendingCharge(p: Position, fs: FundingState, now: nat): int {
    MulFpSigned(p.size, FundingRuns.IndexNow(fs, p.isLong, now) - p.index)
  }

  /** The view that tells a keeper whether to liquidate: margin with the pending funding taken off the equity. */
  predicate CheckLiquidatable(p: Position, fs: FundingState, now: nat, price: nat, maintenanceBps: nat) {
    p.active && price > 0 &&
    var equity := p.collateralUsd + CalculatePnl(p.isLong, p.size, p.entry, price) - PendingCharge(p, fs, now);
    equity <= 0 || p.size == 0 || equity * BPS / p.size < maintenanceBps
  }

  /** The check of the liquidation itself, after settling. */
  predicate BelowMaintenance(p: Position, fs: FundingState, now: nat, price: nat, maintenanceBps: nat, decimals: nat) {
    p.active && price > 0 &&
    var q := Settled(p, Accrue(fs, now), decimals);
    CalculateMarginRatio(q.isLong, q.collateralUsd, q.size, q.entry, price) < maintenanceBps
  }

  /** The check of the keeper's batch, on the position as recorded. */
  predicate RecordedBelowMaintenance(p: Position, price: nat, maintenanceBps: nat) {
    p.active && price > 0 &&
    CalculateMarginRatio(p.isLong, p.collateralUsd, p.size, p.entry, price) < maintenanceBps
  }

  /** What settling leaves of the collateral. */
  lemma SettledCollateral(p: Position, fs: FundingState, now: nat, decimals: nat)
    requires Underway(fs, now)
    ensures Settled(p, Accrue(fs, now), decimals).collateralUsd ==
            if Covers(p, PendingCharge(p, fs, now), decimals) then p.collateralUsd - PendingCharge(p, fs, now) else 0
  {
    hide UsdToTokens, MulFpSigned, Accrue;
    FundingRuns.AccrueKeepsIndex(fs, now, now, p.isLong);
    SettlementCharges(p, Accrue(fs, now), decimals);
  }

  lemma ViewIsShort(p: Position, fs: FundingState, now: nat, price: nat, maintenanceBps: nat)
    requires p.active && price > 0 && p.size > 0 && maintenanceBps > 0
    ensures CheckLiquidatable(p, fs, now, price, maintenanceBps) <==>
            Short(p, p.collateralUsd - PendingCharge(p, fs, now), price, maintenanceBps)
  {
    hide CalculatePnl, PendingCharge;
    var equity := p.collateralUsd + CalculatePnl(p.isLong, p.size, p.entry, price) - PendingCharge(p, fs, now);
    ExactRatio(equity, p.size, maintenanceBps);
  }

  lemma ExactRatio(equity: int, size: nat, maintenanceBps: nat)
    requires size > 0 && maintenanceBps > 0
    ensures equity <= 0 || equity * BPS / size < maintenanceBps <==> BPS * equity < size * maintenanceBps
  {
    if equity <= 0 {
      Scale(1, maintenanceBps, size);
    } else {
      var ratio := equity * BPS / size;
      Ratio(equity * BPS, size, ratio);
      if ratio < maintenanceBps { Scale(ratio + 1, maintenanceBps, size); } else { Scale(maintenanceBps, ratio, size); }
    }
  }

  lemma LiquidationIsShort(p: Position, fs: FundingState, now: nat, price: nat, maintenanceBps: nat, decimals: nat)
    requires p.active && price > 0 && p.size > 0 && maintenanceBps > 0
    ensures BelowMaintenance(p, fs, now, price, maintenanceBps, decimals) <==>
            Short(p, Settled(p, Accrue(fs, now), decimals).collateralUsd, price, maintenanceBps)
  {
    hide CalculatePnl, CalculateMarginRatio, Settled, Accrue;
    var q := Settled(p, Accrue(fs, now), decimals);
    SettledKeeps(p, Accrue(fs, now), decimals);
    MarginCheckIsExact(q.isLong, q.collateralUsd, q.size, q.entry, price, maintenanceBps);
  }

  /** View and liquidation agree on a position exactly when its collateral covers the pending funding, or maintenance
      does not lie between the equity that settling leaves, which is the bare profit, and the equity the view
      computes. */
  lemma ViewAgainstLiquidation(p: Position, fs: FundingState, now: nat, price: nat, maintenanceBps: nat, decimals: nat)
    requires p.active && price > 0 && p.size > 0 && maintenanceBps > 0 && Underway(fs, now)
    ensures var pending := PendingCharge(p, fs, now);
            (CheckLiquidatable(p, fs, now, price, maintenanceBps) <==>
             BelowMaintenance(p, fs, now, price, maintenanceBps, decimals)) <==>
            Covers(p, pending, decimals) ||
            (Short(p, 0, price, maintenanceBps) <==> Short(p, p.collateralUsd - pending, price, maintenanceBps))
  {
    hide CheckLiquidatable, BelowMaintenance, Short, Covers, PendingCharge, Settled, Accrue;
    ViewIsShort(p, fs, now, price, maintenanceBps);
    LiquidationIsShort(p, fs, now, price, maintenanceBps, decimals);
    SettledCollateral(p, fs, now, decimals);
  }

  /** The keeper's batch, which does not settle, and the liquidation, which does, agree exactly when maintenance does
      not lie between the equity with the recorded collateral and the equity with what settling leaves of it. */
  lemma KeeperAgainstLiquidation(p: Position, fs: FundingState, now: nat, price: nat, maintenanceBps: nat,
                                 decimals: nat)
    requires p.active && price > 0 && p.size > 0 && maintenanceBps > 0 && Underway(fs, now)
    ensures var pending := PendingCharge(p, fs, now);
            (RecordedBelowMaintenance(p, price, maintenanceBps) <==>
             BelowMaintenance(p, fs, now, price, maintenanceBps, decimals)) <==>
            (Short(p, p.collateralUsd, price, maintenanceBps) <==>
             Short(p, if Covers(p, pending, decimals) then p.collateralUsd - pending else 0, price, maintenanceBps))
    ensures PendingCharge(p, fs, now) == 0 ==>
              (RecordedBelowMaintenance(p, price, maintenanceBps) <==>
               BelowMaintenance(p, fs, now, price, maintenanceBps, decimals))
  {
    hide BelowMaintenance, PendingCharge, Settled, Accrue, CalculatePnl, CalculateMarginRatio, UsdToTokens;
    MarginCheckIsExact(p.isLong, p.collateralUsd, p.size, p.entry, price, maintenanceBps);
    LiquidationIsShort(p, fs, now, price, maintenanceBps, decimals);
    SettledCollateral(p, fs, now, decimals);
  }

  /** The view and the keeper's batch agree exactly when maintenance does not lie between the equity less the pending
      funding and the recorded one. */
  lemma ViewAgainstKeeper(p: Position, fs: FundingState, now: nat, price: nat, maintenanceBps: nat)
    requires p.active && price > 0 && p.size > 0 && maintenanceBps > 0
    ensures var pending := PendingCharge(p, fs, now);
            (CheckLiquidatable(p, fs, now, price, maintenanceBps) <==>
             RecordedBelowMaintenance(p, price, maintenanceBps)) <==>
            (Short(p, p.collateralUsd - pending, price, maintenanceBps) <==>
             Short(p, p.collateralUsd, price, maintenanceBps))
  {
    hide CheckLiquidatable, PendingCharge, CalculatePnl, CalculateMarginRatio;
    ViewIsShort(p, fs, now, price, maintenanceBps);
    MarginCheckIsExact(p.isLong, p.collateralUsd, p.size, p.entry, price, maintenanceBps);
  }

  /** A position the keeper's batch passes over although the view shows it as liquidatable and a liquidation goes
      through. */
  lemma KeeperCanDisagree()
    ensures var p := Position(1, 1, true, 100, 10, 1, 10, W, 0, true);
            var fs := FundingState(8 * W / 100, -(8 * W / 100), 1, 0);
            && !RecordedBelowMaintenance(p, W, 500)
            && BelowMaintenance(p, fs, 1, W, 500, 18) && CheckLiquidatable(p, fs, 1, W, 500)
  {
    var p := Position(1, 1, true, 100, 10, 1, 10, W, 0, true);
    var fs := FundingState(8 * W / 100, -(8 * W / 100), 1, 0);
    assert CalculatePnl(true, 100, W, W) == 0;
    assert MulFpSigned(100, 8 * W / 100) == 8;
    assert Accrue(fs, 1) == fs;
    assert Settled(p, fs, 18) == p.(collateral := 2, collateralUsd := 2, index := 8 * W / 100);
    assert CalculateMarginRatio(true, 2, 100, W, W) == 200 && CalculateMarginRatio(true, 10, 100, W, W) == 1000;
    assert PendingCharge(p, fs, 1) == 8;
  }

  /** Settling forgives what the collateral cannot pay, the view does not: a position on which they disagree. */
  lemma ViewCanDisagree()
    ensures var p := Position(1, 1, true, 100, 10, 1, 10, W, 0, true);
            var fs := FundingState(W / 5, -(W / 5), 1, 0);
            && CheckLiquidatable(p, fs, 1, W + 15 * W / 100, 1000)
            && !BelowMaintenance(p, fs, 1, W + 15 * W / 100, 1000, 18)
  {
    var p := Position(1, 1, true, 100, 10, 1, 10, W, 0, true);
    var fs := FundingState(W / 5, -(W / 5), 1, 0);
    var price := W + 15 * W / 100;
    assert CalculatePnl(true, 100, W, price) == 15 by {
      assert DivFpSigned(price - W, W) == 15 * W / 100;
    }
    assert MulFpSigned(100, W / 5) == 20;
    assert Accrue(fs, 1) == fs;
    assert Settled(p, fs, 18) == p.(collateral := 0, collateralUsd := 0, index := W / 5);
    assert CalculateMarginRatio(true, 0, 100, W, price) == 1500;
  }

  /** Taking a part of the size takes that fraction of the collateral with it. */
  function Reduced(p: Position, cut: nat): Position
    requires 0 < p.size && cut <= p.size
  {
    var fraction := DivFp(cut, p.size);
    FractionTakesPart(p, cut);
    p.(size := p.size - cut, collateral := p.collateral - MulFp(p.collateral, fraction),
       collateralUsd := p.collateralUsd - MulFp(p.collateralUsd, fraction))
  }

  lemma FractionTakesPart(p: Position, cut: nat)
    requires 0 < p.size && cut <= p.size
    ensures 0 <= DivFp(cut, p.size) <= W
    ensures MulFp(p.collateral, DivFp(cut, p.size)) <= p.collateral
    ensures MulFp(p.collateralUsd, DivFp(cut, p.size)) <= p.collateralUsd
  {
    hide DivFp;
    var fraction := DivFp(cut, p.size);
    FractionOfOne(cut, p.size);
    Scale(fraction, W, p.collateral);
    Scale(fraction, W, p.collateralUsd);
  }

  /** What stays behind is never less than the remaining size's share of the collateral, and less than a unit and 10^-18
      of the collateral more. */
  lemma ReducedKeepsProportion(p: Position, cut: nat)
    requires 0 < p.size && cut <= p.size
    ensures var q := Reduced(p, cut);
            && 0 <= (q.collateral * p.size - p.collateral * q.size) * W <= (p.collateral + W) * p.size
            && 0 <= (q.collateralUsd * p.size - p.collateralUsd * q.size) * W <= (p.collateralUsd + W) * p.size
  {
    hide DivFp, MulFp;
    FractionTakesPart(p, cut);
    TakenShare(p.collateral, p.size, cut);
    TakenShare(p.collateralUsd, p.size, cut);
  }

  lemma TakenShare(amount: nat, size: nat, cut: nat)
    requires 0 < size && cut <= size
    ensures var left := amount - MulFp(amount, DivFp(cut, size));
            0 <= (left * size - amount * (size - cut)) * W <= (amount + W) * size
  {
    var fraction := DivFp(cut, size);
    var taken := MulFp(amount, fraction);
    Ratio(cut * W, size, fraction);
    Ratio(amount * fraction, W, taken);
    ShareUpper(size, cut, fraction, amount, taken);
    ShareLower(size, cut, fraction, amount, taken);
    assert (amount - taken) * size - amount * (size - cut) == amount * cut - taken * size;
    assert (amount + W) * size == amount * size + size * W;
  }

  lemma FractionOfOne(cut: nat, size: nat)
    requires 0 < size && cut <= size
    ensures 0 <= DivFp(cut, size) <= W
  {
    Scale(cut, size, W);
    TruncBound(cut * W, size, W + 1);
    TruncIsFloor(cut * W, size);
  }

  lemma SettledKeeps(p: Position, fs: FundingState, decimals: nat)
    ensures SameHolder(Settled(p, fs, decimals), p) && Settled(p, fs, decimals).size == p.size
    ensures Settled(p, fs, decimals).active == p.active && Settled(p, fs, decimals).token == p.token
    ensures Settled(p, fs, decimals).entry == p.entry
  {
  }
}
