/**
 The virtual AMM: pools that traders push away from the oracle price and that each oracle update pulls back.
 */
module Amm {
  import opened FixedPoint
  import opened Ids

  /** A pool whose base reserve is 0 does not exist. */
  datatype Pool = Pool(base: nat, quote: nat, lastSync: nat, damping: nat)

  const NO_POOL := Pool(0, 0, 0, 0)

  function MarkPrice(p: Pool): nat
    requires p.base > 0
  {
    DivFp(p.quote, p.base)
  }

  /** The quote reserve at which the mark price is the oracle's. */
  function TargetQuote(p: Pool, price: nat): nat {
    MulFp(p.base, price)
  }

  /** `damping` basis points of the way from `quote` to `target`. */
  function Pull(quote: nat, target: nat, damping: nat): (pulled: nat)
    requires damping <= BPS
  {
    if target > quote then quote + (target - quote) * damping / BPS
    else
      PartOf(quote - target, damping);
      quote - (quote - target) * damping / BPS
  }

  lemma PartOf(gap: nat, damping: nat)
    requires damping <= BPS
    ensures 0 <= gap * damping / BPS <= gap
    ensures gap * damping / BPS > 0 <==> gap * damping >= BPS
  {
    Scale(damping, BPS, gap);
  }

  function Gap(quote: nat, target: nat): nat {
    Abs(target - quote)
  }

  /** A pull never passes the target, leaves exactly the undamped rest of the gap, and makes progress exactly while the
      damped gap is a whole unit. */
  lemma PullShrinksGap(quote: nat, target: nat, damping: nat)
    requires damping <= BPS
    ensures quote <= target ==> quote <= Pull(quote, target, damping) <= target
    ensures quote >= target ==> quote >= Pull(quote, target, damping) >= target
    ensures Gap(Pull(quote, target, damping), target) == Gap(quote, target) - Gap(quote, target) * damping / BPS
    ensures Gap(Pull(quote, target, damping), target) < Gap(quote, target) <==> Gap(quote, target) * damping >= BPS
  {
    PartOf(Gap(quote, target), damping);
  }

  /** `n` pulls toward a target that stays where it is. */
  function Pulls(quote: nat, target: nat, damping: nat, n: nat): nat
    requires damping <= BPS
  {
    if n == 0 then quote else Pull(Pulls(quote, target, damping, n - 1), target, damping)
  }

  function Pow(b: nat, n: nat): nat {
    if n == 0 then 1 else b * Pow(b, n - 1)
  }

  /** The gap decays geometrically: after n pulls it is at most gap * ((BPS - d) / BPS)^n + BPS / d, less the part of
      the last term that has not yet built up. */
  lemma {:induction false} GapDecays(quote: nat, target: nat, damping: nat, n: nat)
    requires 0 < damping <= BPS
    ensures damping * Pow(BPS, n) * Gap(Pulls(quote, target, damping, n), target) <=
            damping * Gap(quote, target) * Pow(BPS - damping, n) + BPS * Pow(BPS, n) - BPS * Pow(BPS - damping, n)
  {
    if n > 0 {
      var before, after := Pulls(quote, target, damping, n - 1), Pulls(quote, target, damping, n);
      GapDecays(quote, target, damping, n - 1);
      PullShrinksGap(before, target, damping);
      DecayStep(damping, Gap(quote, target), Pow(BPS, n - 1), Pow(BPS - damping, n - 1), Gap(before, target),
                Gap(after, target));
    } else {
      assert damping * Gap(quote, target) * 1 == damping * 1 * Gap(quote, target);
    }
  }

  lemma DecayStep(damping: nat, first: nat, whole: nat, rest: nat, gap: nat, gap': nat)
    requires 0 < damping <= BPS && gap' == gap - gap * damping / BPS
    requires damping * whole * gap <= damping * first * rest + BPS * whole - BPS * rest
    ensures damping * (BPS * whole) * gap' <=
            damping * first * ((BPS - damping) * rest) + BPS * (BPS * whole) - BPS * ((BPS - damping) * rest)
  {
    var left := BPS - damping;
    assert gap * left == gap * BPS - gap * damping;
    assert BPS * gap' <= gap * left + BPS;
    Scale(BPS * gap', gap * left + BPS, damping * whole);
    Scale(damping * whole * gap, damping * first * rest + BPS * whole - BPS * rest, left);
    assert (damping * whole) * (BPS * gap') == damping * (BPS * whole) * gap';
    assert (damping * whole) * (gap * left + BPS) == (damping * whole * gap) * left + BPS * (damping * whole);
    assert (damping * first * rest + BPS * whole - BPS * rest) * left ==
           damping * first * (left * rest) + BPS * (left * whole) - BPS * (left * rest);
    assert left * whole == BPS * whole - damping * whole;
  }

  /** After at most as many pulls as the gap has units, pulling changes nothing any more. */
  lemma {:induction false} PullsSettle(quote: nat, target: nat, damping: nat, n: nat)
    requires 0 < damping <= BPS && n >= Gap(quote, target)
    ensures Gap(Pulls(quote, target, damping, n), target) * damping < BPS
    ensures Pull(Pulls(quote, target, damping, n), target, damping) == Pulls(quote, target, damping, n)
  {
    var last := Pulls(quote, target, damping, n);
    GapRunsOut(quote, target, damping, n);
    PullShrinksGap(last, target, damping);
    if Gap(last, target) == 0 { assert 0 * damping == 0; }
  }

  lemma {:induction false} GapRunsOut(quote: nat, target: nat, damping: nat, n: nat)
    requires 0 < damping <= BPS
    ensures var gap := Gap(Pulls(quote, target, damping, n), target);
            gap * damping < BPS || gap + n <= Gap(quote, target)
  {
    if n > 0 {
      var before := Pulls(quote, target, damping, n - 1);
      GapRunsOut(quote, target, damping, n - 1);
      PullShrinksGap(before, target, damping);
    }
  }

  // ---------------------------------------------------------------- prices

  /** Syncing moves the mark price toward the oracle's and not past it, but for the rounding of the target itself. */
  lemma MarkApproachesOracle(p: Pool, price: nat, now: nat)
    requires p.base > 0 && p.damping <= BPS
    ensures var synced := p.(quote := Pull(p.quote, TargetQuote(p, price), p.damping), lastSync := now);
            if p.quote < TargetQuote(p, price) then MarkPrice(p) <= MarkPrice(synced) <= price
            else MarkPrice(p) >= MarkPrice(synced) && (price - MarkPrice(synced) - 1) * p.base < W
  {
    hide Pull;
    var target := TargetQuote(p, price);
    var quote := Pull(p.quote, target, p.damping);
    PullShrinksGap(p.quote, target, p.damping);
    MarkAt(p.base, p.quote);
    MarkAt(p.base, quote);
    Ordered(p.base, p.quote, quote);
    if p.quote < target {
      Cancel(DivFp(quote, p.base), price, p.base);
    } else {
      assert (price - DivFp(quote, p.base) - 1) * p.base == p.base * price - DivFp(quote, p.base) * p.base - p.base;
    }
  }

  lemma MarkAt(base: nat, quote: nat)
    requires base > 0
    ensures DivFp(quote, base) * base <= quote * W < DivFp(quote, base) * base + base
  {
  }

  lemma Ordered(base: nat, a: nat, b: nat)
    requires base > 0
    ensures a <= b ==> DivFp(a, base) <= DivFp(b, base)
    ensures b <= a ==> DivFp(b, base) <= DivFp(a, base)
  {
    hide DivFp;
    MarkAt(base, a);
    MarkAt(base, b);
    Cancel(DivFp(a, base), DivFp(b, base) + 1, base);
    Cancel(DivFp(b, base), DivFp(a, base) + 1, base);
  }

  // ---------------------------------------------------------------- trades

  /** Buying adds the size to the quote reserve, selling takes it out (never below 1), and the base reserve follows. */
  function Trade(p: Pool, size: nat, isLong: bool, isOpen: bool): Pool {
    if p.base == 0 then p
    else
      var quote := if isLong <==> isOpen then p.quote + size else if p.quote > size then p.quote - size else 1;
      p.(quote := quote, base := if quote > 0 then DivFp(MulFp(p.base, p.quote), quote) else p.base)
  }

  /** A trade, on the reserves: opening a long and closing a short bring quote in, the other two take it out; the
      product of the reserves is kept up to the rounding of one division each. */
  lemma TradeKeepsProduct(p: Pool, size: nat, isLong: bool, isOpen: bool)
    ensures p.base == 0 ==> Trade(p, size, isLong, isOpen) == p
    ensures p.base > 0 ==>
              var there := Trade(p, size, isLong, isOpen);
              && there.quote == (if (isLong && isOpen) || (!isLong && !isOpen) then p.quote + size
                                 else if p.quote > size then p.quote - size else 1)
              && there.lastSync == p.lastSync && there.damping == p.damping
              && (there.quote == 0 ==> there.base == p.base)
              && (there.quote > 0 ==>
                    there.base * there.quote <= p.base * p.quote < there.base * there.quote + there.quote + W)
  {
    hide MulFp, DivFp;
    if p.base > 0 {
      var there := Trade(p, size, isLong, isOpen);
      Depth(p.base, p.quote);
      if there.quote > 0 { MarkAt(there.quote, MulFp(p.base, p.quote)); }
    }
  }

  /** Exactly when closing what was opened brings the quote reserve back.  A trade that rounds the base reserve to 0
      leaves a pool on which the close has no effect; otherwise only a sale of the whole reserve is cut short. */
  lemma TradeAndBack(p: Pool, size: nat, isLong: bool)
    ensures var there := Trade(p, size, isLong, true);
            Trade(there, size, isLong, false).quote == p.quote <==>
            || p.base == 0
            || if there.base > 0 then p.quote > (if isLong then 0 else size)
               else if isLong then size == 0
               else p.quote == 1 || (size == 0 && p.quote > 0)
  {
    hide MulFp, DivFp;
  }

  /** When the quote reserve comes back, the base reserve has not grown, and has lost little more than the ratio of the
      two quotes. */
  lemma RoundTripDrift(p: Pool, size: nat, isLong: bool)
    requires Trade(Trade(p, size, isLong, true), size, isLong, false).quote == p.quote
    ensures var there := Trade(p, size, isLong, true);
            var back := Trade(there, size, isLong, false);
            && back.base <= p.base
            && (p.base - back.base) * p.quote < 2 * W + there.quote + p.quote
  {
    TradeAndBack(p, size, isLong);
    var there := Trade(p, size, isLong, true);
    if p.base == 0 {
      assert 0 * p.quote == 0;
    } else {
      EmptyTrade(p, size, isLong);
      hide DivFp, MulFp;
      Depth(p.base, p.quote);
      MarkAt(there.quote, MulFp(p.base, p.quote));
      if there.base == 0 {
        assert (p.base - 0) * p.quote == p.base * p.quote && 0 * there.quote == 0;
      } else {
        DriftBothWays(p, there, Trade(there, size, isLong, false));
      }
    }
  }

  lemma EmptyTrade(p: Pool, size: nat, isLong: bool)
    requires p.base > 0
    ensures var there := Trade(p, size, isLong, true);
            there.quote == 0 ==> there.base == p.base && p.quote == 0 && isLong && size == 0
  {
  }

  lemma DriftBothWays(p: Pool, there: Pool, back: Pool)
    requires p.base > 0 && p.quote > 0 && there.quote > 0 && there.base > 0
    requires there.base == DivFp(MulFp(p.base, p.quote), there.quote)
    requires back.base == DivFp(MulFp(there.base, there.quote), p.quote)
    ensures back.base <= p.base && (p.base - back.base) * p.quote < 2 * W + there.quote + p.quote
  {
    hide DivFp, MulFp;
    Depth(p.base, p.quote);
    MarkAt(there.quote, MulFp(p.base, p.quote));
    Depth(there.base, there.quote);
    MarkAt(p.quote, MulFp(there.base, there.quote));
    Cancel(back.base, p.base, p.quote);
    assert (p.base - back.base) * p.quote == p.base * p.quote - back.base * p.quote;
  }

  /** A literal pool on which the close has no effect: buying 2 * 10^18 rounds the base reserve of 1 down to 0. */
  lemma TradeCanEmptyThePool()
    ensures var p := Pool(1, W, 1, 1);
            var there := Trade(p, 2 * W, true, true);
            there.base == 0 && Trade(there, 2 * W, true, false).quote == 3 * W
  {
    assert MulFp(1, W) == 1 && DivFp(1, 3 * W) == 0;
  }

  lemma Depth(base: nat, quote: nat)
    ensures MulFp(base, quote) * W <= base * quote < MulFp(base, quote) * W + W
  {
    assert base * quote >= 0;
  }

  /** What a market order pays: the oracle price moved by what the trade moves the pool's own price. */
  function ExecutionPrice(p: Pool, oracle: nat, size: nat, isLong: bool): nat {
    if p.base == 0 || size == 0 || (!isLong && size >= p.quote) then oracle
    else
      var quote := if isLong then p.quote + size else p.quote - size;
      var base := DivFp(MulFp(p.base, p.quote), quote);
      var taken := if isLong then p.base - base else base - p.base;
      if taken <= 0 then oracle
      else
        var paid, mark := DivFp(size, taken), MarkPrice(p);
        if paid >= mark then oracle + (paid - mark)
        else if oracle > mark - paid then oracle - (mark - paid) else 1
  }

  /** An order always has a price where there is an oracle price. */
  lemma ExecutionPriceIsPositive(p: Pool, oracle: nat, size: nat, isLong: bool)
    requires oracle > 0
    ensures ExecutionPrice(p, oracle, size, isLong) > 0
  {
    hide DivFp, MulFp;
  }

  /** The price of an order is the oracle's plus what the trade pays per unit of base on average, less the pool's own
      price; never below 1, and the oracle's alone where the pool moves no base. */
  lemma ExecutionMatchesTrade(p: Pool, oracle: nat, size: nat, isLong: bool)
    ensures var price, there := ExecutionPrice(p, oracle, size, isLong), Trade(p, size, isLong, true);
            var moved := if isLong then p.base - there.base else there.base - p.base;
            if p.base == 0 || size == 0 || (!isLong && size >= p.quote) || moved <= 0 then price == oracle
            else
              var paid := price - oracle + MarkPrice(p);
              || paid * moved <= size * W < (paid + 1) * moved
              || (price == 1 && size * W < (MarkPrice(p) - oracle + 1) * moved)
  {
    hide MulFp;
    var there := Trade(p, size, isLong, true);
    var moved := if isLong then p.base - there.base else there.base - p.base;
    if p.base > 0 && size > 0 && (isLong || size < p.quote) && moved > 0 {
      var paid := DivFp(size, moved);
      Ratio(size * W, moved, paid);
      assert (paid + 1) * moved == paid * moved + moved;
      if oracle + paid <= MarkPrice(p) { Scale(paid + 1, MarkPrice(p) - oracle + 1, moved); }
    }
  }

  /** A long's price is at least the oracle's once the trade is large enough for the rounding of the reserves not to
      matter; below that it falls short by a bounded amount. */
  lemma LongAboveOracle(p: Pool, oracle: nat, size: nat)
    requires p.base > 0 && size > 0
    ensures var price, rounding := ExecutionPrice(p, oracle, size, true), W + p.quote + size;
            && (size * size * p.base >= p.quote * rounding ==> price >= oracle)
            && (price < oracle ==>
                  (oracle - price - 1) * (p.base * (p.base * size + rounding)) <
                  W * (p.quote * rounding - size * size * p.base))
  {
    var price, moved := ExecutionPrice(p, oracle, size, true), p.base - Trade(p, size, true, true).base;
    if price < oracle {
      PriceMoves(p, oracle, size, true);
      TradeKeepsProduct(p, size, true, true);
      MovesAtMost(p.base, p.quote, size, Trade(p, size, true, true).base, moved);
      hide *;
      PaidBelow(p.base, p.quote, size, moved, DivFp(size, moved), MarkPrice(p), W + p.quote + size, oracle - price);
    }
  }

  lemma PaidBelow(base: nat, quote: nat, size: nat, moved: nat, paid: nat, mark: nat, rounding: nat, below: nat)
    requires base > 0 && size > 0 && rounding == W + quote + size && 0 < below <= mark - paid
    requires moved * (quote + size) < base * size + rounding
    requires size * W < paid * moved + moved && mark * base <= quote * W
    ensures size * size * base < quote * rounding
    ensures (below - 1) * (base * (base * size + rounding)) < W * (quote * rounding - size * size * base)
  {
    Positive(base, size);
    var all := base * size + rounding;
    AtLeastPaid(size * W, moved, paid, quote + size, all);
    SpreadBelow(mark, paid + 1, base, quote * W, size * W * (quote + size), all);
    InTheSpread(base, quote, size, rounding);
    Positive(base, all);
    Scale(below - 1, mark - paid - 1, base * all);
    Negative(below - 1, base * all, W, quote * rounding - size * size * base);
  }

  /** Where the price differs from the oracle's, and what from. */
  lemma PriceMoves(p: Pool, oracle: nat, size: nat, isLong: bool)
    requires p.base > 0 && ExecutionPrice(p, oracle, size, isLong) != oracle
    ensures var price, there := ExecutionPrice(p, oracle, size, isLong), Trade(p, size, isLong, true);
            var moved := if isLong then p.base - there.base else there.base - p.base;
            && size > 0 && moved > 0 && (isLong || size < p.quote)
            && DivFp(size, moved) * moved <= size * W < DivFp(size, moved) * moved + moved
            && MarkPrice(p) * p.base <= p.quote * W < MarkPrice(p) * p.base + p.base
            && (price == oracle + DivFp(size, moved) - MarkPrice(p) ||
                (price == 1 && oracle + DivFp(size, moved) <= MarkPrice(p)))
  {
    hide MulFp, DivFp;
    var there := Trade(p, size, isLong, true);
    var moved := if isLong then p.base - there.base else there.base - p.base;
    if moved > 0 { MarkAt(moved, size); }
    MarkAt(p.base, p.quote);
  }

  /** A short's price is at most the oracle's once the trade is large enough for the rounding of the reserves not to
      matter; below that it is above by a bounded amount, by a small one while the trade outweighs the rounding. */
  lemma ShortBelowOracle(p: Pool, oracle: nat, size: nat)
    requires p.base > 0 && oracle > 0
    requires 0 < size < p.quote
    ensures var price, rounding := ExecutionPrice(p, oracle, size, false), W + p.quote - size;
            && (size * size * p.base >= p.quote * rounding ==> price <= oracle)
            && (price > oracle && p.base * size > rounding ==>
                  (price - oracle - 1) * (p.base * (p.base * size - rounding)) <
                  W * (p.quote * rounding - size * size * p.base))
            && price <= oracle + size * W
  {
    var price, moved := ExecutionPrice(p, oracle, size, false), Trade(p, size, false, true).base - p.base;
    if price > oracle {
      PriceMoves(p, oracle, size, false);
      TradeKeepsProduct(p, size, false, true);
      MovesAtLeast(p.base, p.quote, size, Trade(p, size, false, true).base, moved);
      hide *;
      PaidAbove(p.base, p.quote, size, moved, DivFp(size, moved), MarkPrice(p), W + p.quote - size);
    }
  }

  lemma PaidAbove(base: nat, quote: nat, size: nat, moved: nat, paid: nat, mark: nat, rounding: nat)
    requires base > 0 && 0 < size < quote && rounding == W + quote - size && paid > mark
    requires base * size - rounding < moved * (quote - size) && moved > 0
    requires paid * moved <= size * W && quote * W < mark * base + base
    ensures paid <= size * W
    ensures size * size * base < quote * rounding
    ensures base * size > rounding ==>
              (paid - mark - 1) * (base * (base * size - rounding)) < W * (quote * rounding - size * size * base)
  {
    var all := base * size - rounding;
    Scale(1, moved, paid);
    Outweighs(base, quote, size, rounding);
    if all > 0 {
      AtMostPaid(size * W, moved, paid, quote - size, all);
      assert (mark + 1) * base == mark * base + base;
      SpreadAbove(mark + 1, paid, base, quote * W, size * W * (quote - size), all);
      SoldInTheSpread(base, quote, size, rounding);
      Positive(base, all);
      Negative(paid - mark - 1, base * all, W, quote * rounding - size * size * base);
    }
  }

  /** A short receives at most its size over the base reserve, and a unit, less than the oracle price. */
  lemma ShortImpactBound(p: Pool, oracle: nat, size: nat)
    requires p.base > 0
    ensures (oracle - ExecutionPrice(p, oracle, size, false)) * p.base < size * W + p.base
  {
    var price, moved := ExecutionPrice(p, oracle, size, false), Trade(p, size, false, true).base - p.base;
    SignOf(size, p.base);
    if price < oracle {
      PriceMoves(p, oracle, size, false);
      TradeKeepsProduct(p, size, false, true);
      MovesAtLeast(p.base, p.quote, size, Trade(p, size, false, true).base, moved);
      hide *;
      PaidShort(p.base, p.quote, size, moved, DivFp(size, moved), MarkPrice(p), oracle - price);
    } else {
      hide *;
      Scale(oracle - price, 0, p.base);
    }
  }

  lemma PaidShort(base: nat, quote: nat, size: nat, moved: nat, paid: nat, mark: nat, below: nat)
    requires base > 0 && 0 < size < quote && below <= mark - paid
    requires moved * (quote - size) <= base * size
    requires size * W < paid * moved + moved && mark * base <= quote * W
    ensures below * base < size * W + base
  {
    AtLeastPaid(size * W, moved, paid, quote - size, base * size);
    PaidPerBase(base, size, paid, quote - size);
    Scale(below, mark - paid, base);
    assert (mark - paid) * base == mark * base - (paid + 1) * base + base;
    assert W * (quote - size) == quote * W - size * W;
  }

  lemma Positive(a: int, b: int)
    requires a > 0 && b > 0
    ensures a * b > 0
  {
  }

  lemma Negative(a: int, b: int, c: int, d: int)
    requires b > 0 && c > 0 && a * b < c * d
    ensures d <= 0 ==> a < 0
  {
    if d <= 0 {
      Scale(d, 0, c);
      if a >= 0 { Scale(0, a, b); }
    }
  }

  /** A trade that makes up for the largest rounding is larger than it. */
  lemma Outweighs(base: nat, quote: nat, size: nat, rounding: nat)
    requires 0 < size < quote && rounding > 0
    ensures size * size * base >= quote * rounding ==> base * size > rounding
  {
    if base * size <= rounding {
      Scale(base * size, rounding, size);
      assert size * size * base == (base * size) * size;
      assert quote * rounding == rounding * size + rounding * (quote - size);
      Positive(rounding, quote - size);
    }
  }

  lemma MovesAtMost(base: nat, quote: nat, size: nat, left: nat, moved: int)
    requires moved == base - left
    requires base * quote < left * (quote + size) + (quote + size) + W
    ensures moved * (quote + size) < base * size + (W + quote + size)
  {
    assert (base - left) * (quote + size) == base * quote + base * size - left * (quote + size);
  }

  lemma MovesAtLeast(base: nat, quote: nat, size: nat, left: nat, moved: int)
    requires moved == left - base && size <= quote
    requires left * (quote - size) <= base * quote < left * (quote - size) + (quote - size) + W
    ensures base * size - (W + quote - size) < moved * (quote - size) <= base * size
  {
    assert (left - base) * (quote - size) == left * (quote - size) - base * quote + base * size;
  }

  lemma AtLeastPaid(worth: nat, moved: nat, paid: nat, after: nat, all: nat)
    requires after > 0 && worth < paid * moved + moved && moved * after <= all
    ensures worth * after < (paid + 1) * all
  {
    assert (paid + 1) * moved == paid * moved + moved;
    StrictScale(worth, (paid + 1) * moved, after);
    Scale(moved * after, all, paid + 1);
    assert ((paid + 1) * moved) * after == (moved * after) * (paid + 1);
  }

  lemma AtMostPaid(worth: nat, moved: nat, paid: nat, after: nat, all: nat)
    requires paid * moved <= worth && all < moved * after
    ensures paid * all <= worth * after
  {
    Scale(paid * moved, worth, after);
    Scale(all, moved * after, paid);
    assert (paid * moved) * after == (moved * after) * paid;
  }

  lemma StrictScale(a: int, b: int, f: int)
    requires a < b && f > 0
    ensures a * f < b * f
  {
  }

  lemma SpreadBelow(mark: nat, paid: nat, base: nat, worth: nat, sold: nat, all: nat)
    requires base > 0 && mark * base <= worth && sold < paid * all
    ensures (mark - paid) * (base * all) < worth * all - sold * base
  {
    Scale(mark * base, worth, all);
    StrictScale(sold, paid * all, base);
    assert (mark - paid) * (base * all) == (mark * base) * all - (paid * all) * base;
  }

  lemma SpreadAbove(mark: nat, paid: nat, base: nat, worth: nat, sold: nat, all: nat)
    requires all > 0 && mark * base > worth && paid * all <= sold
    ensures (paid - mark) * (base * all) < sold * base - worth * all
  {
    StrictScale(worth, mark * base, all);
    Scale(paid * all, sold, base);
    assert (paid - mark) * (base * all) == (paid * all) * base - (mark * base) * all;
  }

  lemma InTheSpread(base: int, quote: int, size: int, rounding: int)
    ensures quote * W * (base * size + rounding) - size * W * (quote + size) * base ==
            W * (quote * rounding - size * size * base)
  {
    assert quote * (base * size + rounding) == quote * (base * size) + quote * rounding;
    assert size * (quote + size) * base == quote * (base * size) + size * size * base;
    assert quote * W * (base * size + rounding) == W * (quote * (base * size + rounding));
    assert size * W * (quote + size) * base == W * (size * (quote + size) * base);
  }

  lemma SoldInTheSpread(base: int, quote: int, size: int, rounding: int)
    ensures size * W * (quote - size) * base - quote * W * (base * size - rounding) ==
            W * (quote * rounding - size * size * base)
  {
    InTheSpread(base, quote, -size, rounding);
    assert base * -size == -(base * size) && -size * -size == size * size;
    assert -size * W * (quote - size) * base == -(size * W * (quote - size) * base);
    assert quote * W * (-(base * size) + rounding) == -(quote * W * (base * size - rounding));
  }

  /** Less than a unit below the price at the new quote reserve. */
  lemma PaidPerBase(base: nat, size: nat, paid: nat, after: nat)
    requires size > 0 && size * W * after < (paid + 1) * (base * size)
    ensures W * after < (paid + 1) * base
  {
    assert size * W * after == (W * after) * size;
    assert (paid + 1) * (base * size) == ((paid + 1) * base) * size;
    if W * after >= (paid + 1) * base { Scale((paid + 1) * base, W * after, size); }
  }

  /** A long pays at most its size over the base reserve, and a unit, above the oracle price. */
  lemma LongImpactBound(p: Pool, oracle: nat, size: nat)
    requires p.base > 0
    ensures (ExecutionPrice(p, oracle, size, true) - oracle) * p.base < size * W + p.base
  {
    hide DivFp, MulFp;
    SignOf(size, p.base);
    var price := ExecutionPrice(p, oracle, size, true);
    var quote := p.quote + size;
    if size > 0 {
      var base := DivFp(MulFp(p.base, p.quote), quote);
      var taken := p.base - base;
      if taken > 0 && DivFp(size, taken) >= MarkPrice(p) {
        Depth(p.base, p.quote);
        MarkAt(quote, MulFp(p.base, p.quote));
        MarkAt(taken, size);
        MarkAt(p.base, p.quote);
        PaidBound(p.base, p.quote, size, base, DivFp(size, taken));
        assert (DivFp(size, taken) - MarkPrice(p)) * p.base == DivFp(size, taken) * p.base - MarkPrice(p) * p.base;
      } else if price < oracle {
        Scale(price - oracle, 0, p.base);
      }
    }
    if price <= oracle { Scale(price - oracle, 0, p.base); }
  }

  lemma SignOf(size: nat, base: nat)
    ensures size * W + base >= 0 && (base > 0 ==> size * W + base > 0)
  {
  }

  /** The average price of what is taken out is at most the price at the new quote reserve. */
  lemma PaidBound(base: nat, quote: nat, size: nat, left: nat, paid: nat)
    requires left < base && size > 0
    requires left * (quote + size) <= base * quote && paid * (base - left) <= size * W
    ensures paid * base <= (quote + size) * W
  {
    var after := quote + size;
    assert (base - left) * after == base * quote + base * size - left * after;
    Scale(base * size, (base - left) * after, paid);
    Scale(paid * (base - left), size * W, after);
    assert paid * ((base - left) * after) == (paid * (base - left)) * after;
    assert paid * (base * size) == (paid * base) * size;
    assert (size * W) * after == (after * W) * size;
    Cancel(paid * base, after * W, size);
  }

  // ---------------------------------------------------------------- all pools

  function PoolOf(pools: map<Market, Pool>, m: Market): Pool {
    if m in pools then pools[m] else NO_POOL
  }

  function TradeIn(pools: map<Market, Pool>, m: Market, size: nat, isLong: bool, isOpen: bool): map<Market, Pool> {
    if PoolOf(pools, m).base == 0 then pools else pools[m := Trade(PoolOf(pools, m), size, isLong, isOpen)]
  }

  /** Damping factors are at most one. */
  predicate Damped(pools: map<Market, Pool>) {
    forall m <- pools :: pools[m].damping <= BPS
  }

  function SyncOne(pools: map<Market, Pool>, price: nat, m: Market, now: nat): map<Market, Pool>
    requires Damped(pools)
    ensures Damped(SyncOne(pools, price, m, now)) && SyncOne(pools, price, m, now).Keys == pools.Keys
  {
    var p := PoolOf(pools, m);
    if p.base == 0 || price == 0 then pools
    else pools[m := p.(quote := Pull(p.quote, TargetQuote(p, price), p.damping), lastSync := now)]
  }

  /** The pools after a keeper's pass over a list of markets; a market listed twice is synced twice. */
  function SyncAll(pools: map<Market, Pool>, prices: map<Market, nat>, markets: seq<Market>, now: nat):
      map<Market, Pool>
    requires Damped(pools)
    ensures Damped(SyncAll(pools, prices, markets, now)) && SyncAll(pools, prices, markets, now).Keys == pools.Keys
  {
    if markets == [] then pools
    else
      var m := markets[|markets| - 1];
      SyncOne(SyncAll(pools, prices, markets[..|markets| - 1], now), if m in prices then prices[m] else 0, m, now)
  }

  /** How often a market is listed. */
  function Times(m: Market, markets: seq<Market>): nat {
    if markets == [] then 0
    else Times(m, markets[..|markets| - 1]) + if markets[|markets| - 1] == m then 1 else 0
  }

  /** A pass pulls every pool that has a price as often as it is listed, and touches nothing else. */
  lemma {:induction false} PassPullsListed(pools: map<Market, Pool>, prices: map<Market, nat>, markets: seq<Market>,
                                           now: nat, m: Market)
    requires Damped(pools) && m in pools
    ensures var before, after := pools[m], SyncAll(pools, prices, markets, now)[m];
            && after.base == before.base && after.damping == before.damping
            && (m in markets && before.base > 0 && m in prices && prices[m] > 0 ==> after.lastSync == now)
            && (m !in markets ==> after.lastSync == before.lastSync)
            && after.quote == (if before.base == 0 || m !in prices || prices[m] == 0 then before.quote
                               else Pulls(before.quote, TargetQuote(before, prices[m]), before.damping,
                                          Times(m, markets)))
    decreases |markets|
  {
    if markets != [] {
      PassPullsListed(pools, prices, markets[..|markets| - 1], now, m);
    }
  }

  lemma InitialMark(liquidity: nat, price: nat)
    requires liquidity > 0
    ensures DivFp(MulFp(liquidity, price), liquidity) <= price
    ensures (price - DivFp(MulFp(liquidity, price), liquidity) - 1) * liquidity < W
  {
    hide DivFp, MulFp;
    Depth(liquidity, price);
    var mark := DivFp(MulFp(liquidity, price), liquidity);
    MarkAt(liquidity, MulFp(liquidity, price));
    Cancel(mark, price, liquidity);
    assert (price - mark - 1) * liquidity == liquidity * price - mark * liquidity - liquidity;
  }
}
