/**
 Funding: a market's cumulative indexes, accrued lazily whenever somebody touches the market, and what a position
 pays from them.  The reference is a clock that charges every second at the rate and the size of that second.
 */
module Funding {
  import opened FixedPoint

  const SECONDS_PER_DAY: nat := 86400

  /** `last` is 0 until the market is touched for the first time. */
  datatype FundingState = FundingState(long: int, short: int, last: nat, rate: int)

  function Accrue(fs: FundingState, now: nat): FundingState {
    if fs.last == 0 then fs.(last := now)
    else
      var accrued := fs.rate * (now - fs.last);
      fs.(long := fs.long + accrued, short := fs.short - accrued, last := now)
  }

  /** The market was last touched before now; one that nobody has touched yet has no rate. */
  predicate Underway(fs: FundingState, now: nat) {
    fs.last <= now && (fs.last == 0 ==> fs.rate == 0)
  }

  function Index(fs: FundingState, isLong: bool): int {
    if isLong then fs.long else fs.short
  }

  /** The rate set by a refresh: the premium of the mark over the index price per second, amplified by the imbalance of
      open interest and clamped to the configured maximum, if there is one. */
  function FundingRate(mark: nat, index: nat, longOI: nat, shortOI: nat, maxRate: int): int
    requires index > 0
  {
    Clamp(Amplify(Trunc(DivFpSigned(mark - index, index), SECONDS_PER_DAY), longOI, shortOI), maxRate)
  }

  function Amplify(premium: int, longOI: nat, shortOI: nat): int {
    var total := longOI + shortOI;
    if total == 0 then premium else MulFpSigned(premium, W + Abs(longOI - shortOI) * W / total)
  }

  function Clamp(rate: int, maxRate: int): int {
    if maxRate > 0 && rate > maxRate then maxRate
    else if maxRate > 0 && rate < -maxRate then -maxRate
    else rate
  }

  /** The rate never points against the premium, stays within the maximum, and is at most twice the premium's share. */
  lemma RateFollowsPremium(mark: nat, index: nat, longOI: nat, shortOI: nat, maxRate: int)
    requires index > 0
    ensures var rate := FundingRate(mark, index, longOI, shortOI, maxRate);
            && (mark >= index ==> rate >= 0) && (mark <= index ==> rate <= 0)
            && (maxRate > 0 ==> -maxRate <= rate <= maxRate)
            && Abs(rate) * SECONDS_PER_DAY * index <= 2 * Abs(mark - index) * W
  {
    hide Trunc, Amplify, Clamp, DivFpSigned;
    var daily := DivFpSigned(mark - index, index);
    var premium := Trunc(daily, SECONDS_PER_DAY);
    var scaled := Amplify(premium, longOI, shortOI);
    PremiumBound(mark - index, index, daily, premium);
    AmplifyBound(premium, longOI, shortOI);
    ClampBound(scaled, maxRate);
    Scale(Abs(Clamp(scaled, maxRate)), 2 * Abs(premium), index);
  }

  /** The size of the rate, exactly: the premium's share of a second, rounded down; enlarged by the imbalance of open
      interest, rounded down; and cut off at the maximum, if there is one. */
  lemma RateIsPremiumShare(mark: nat, index: nat, longOI: nat, shortOI: nat, maxRate: int)
    requires index > 0
    ensures var premium: int, rate := Abs(mark - index) * W / index / 86400,
              Abs(FundingRate(mark, index, longOI, shortOI, maxRate));
            var imbalance := if longOI + shortOI == 0 then 0 else Abs(longOI - shortOI) * W / (longOI + shortOI);
            var full := premium * (W + imbalance) / W;
            && rate == (if maxRate > 0 && full > maxRate then maxRate else full)
            && premium * 86400 * index <= Abs(mark - index) * W < (premium + 1) * 86400 * index
            && premium <= full
  {
    hide Trunc;
    var delta, daily := mark - index, DivFpSigned(mark - index, index);
    var share := Trunc(daily, SECONDS_PER_DAY);
    var premium, full := Abs(share), Abs(Amplify(share, longOI, shortOI));
    TruncSize(delta * W, index);
    TruncSize(daily, SECONDS_PER_DAY);
    SizeOfProduct(delta, W);
    ShareBounds(Abs(delta) * W, index, Abs(daily), premium);
    ExactQuotient(premium, W);
    if longOI + shortOI > 0 {
      var imbalance := Abs(longOI - shortOI) * W / (longOI + shortOI);
      NotNegative(Abs(longOI - shortOI), W, longOI + shortOI);
      TruncSize(share * (W + imbalance), W);
      SizeOfProduct(share, W + imbalance);
      Ratio(premium * (W + imbalance), W, full);
      Scale(W, W + imbalance, premium);
      Cancel(premium, full + 1, W);
    }
  }

  lemma NotNegative(a: nat, b: nat, c: nat)
    requires c > 0
    ensures a * b / c >= 0
  {
  }

  lemma TruncSize(a: int, b: int)
    requires b > 0
    ensures Abs(Trunc(a, b)) == Abs(a) / b
  {
  }

  lemma SizeOfProduct(a: int, b: nat)
    ensures Abs(a * b) == Abs(a) * b
  {
    if a < 0 { assert a * b == -(-a * b); }
  }

  lemma ShareBounds(whole: nat, index: nat, daily: nat, premium: nat)
    requires index > 0 && daily == whole / index && premium == daily / SECONDS_PER_DAY
    ensures premium * 86400 * index <= whole < (premium + 1) * 86400 * index
  {
    Ratio(whole, index, daily);
    Ratio(daily, SECONDS_PER_DAY, premium);
    Scale(premium * 86400, daily, index);
    Scale(daily + 1, (premium + 1) * 86400, index);
  }

  lemma AmplifyBound(premium: int, longOI: nat, shortOI: nat)
    ensures premium >= 0 ==> 0 <= Amplify(premium, longOI, shortOI) <= 2 * premium
    ensures premium <= 0 ==> 2 * premium <= Amplify(premium, longOI, shortOI) <= 0
  {
    hide MulFpSigned, Abs;
    var total := longOI + shortOI;
    if total > 0 {
      var difference := Abs(longOI - shortOI);
      Difference(longOI, shortOI);
      ImbalanceBound(difference, total, difference * W / total);
      AmplifiedBound(premium, W + difference * W / total);
    }
  }

  lemma Difference(a: nat, b: nat)
    ensures Abs(a - b) <= a + b
  {
  }

  lemma ClampBound(rate: int, maxRate: int)
    ensures maxRate > 0 ==> -maxRate <= Clamp(rate, maxRate) <= maxRate
    ensures Abs(Clamp(rate, maxRate)) <= Abs(rate)
    ensures (rate >= 0 ==> Clamp(rate, maxRate) >= 0) && (rate <= 0 ==> Clamp(rate, maxRate) <= 0)
  {
  }

  lemma PremiumBound(delta: int, index: nat, daily: int, premium: int)
    requires index > 0 && daily == DivFpSigned(delta, index) && premium == Trunc(daily, SECONDS_PER_DAY)
    ensures (delta >= 0 ==> premium >= 0) && (delta <= 0 ==> premium <= 0)
    ensures Abs(premium) * index * SECONDS_PER_DAY <= Abs(delta) * W
  {
    hide Trunc;
    if delta >= 0 {
      Scale(premium * SECONDS_PER_DAY, daily, index);
    } else {
      Scale(daily, premium * SECONDS_PER_DAY, index);
    }
  }

  lemma ImbalanceBound(difference: nat, total: nat, imbalance: int)
    requires 0 < total && difference <= total && imbalance == difference * W / total
    ensures 0 <= imbalance <= W
  {
    TruncBound(difference * W, total, W);
    Scale(difference, total, W);
    Cancel(imbalance, W, total);
    assert imbalance * total <= difference * W;
  }

  lemma AmplifiedBound(premium: int, amplifier: int)
    requires W <= amplifier <= 2 * W
    ensures premium >= 0 ==> 0 <= MulFpSigned(premium, amplifier) <= 2 * premium
    ensures premium <= 0 ==> 2 * premium <= MulFpSigned(premium, amplifier) <= 0
  {
    hide Trunc;
    if premium >= 0 {
      Scale(amplifier, 2 * W, premium);
      Scale(0, amplifier, premium);
    } else {
      Scale(amplifier, 2 * W, -premium);
      Scale(0, amplifier, -premium);
    }
  }
}
