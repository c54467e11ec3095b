/**
 The contracts' own position arithmetic, and how it compares with the integrators' formulas of Margin.dfy.
 */
module LibPosition {
  import opened FixedPoint
  import opened Margin

  const MAX_UINT: nat := 0x1_0000_0000_0000_0000_0000_0000_0000_0000_0000_0000_0000_0000_0000_0000_0000_0000 - 1

  function CalculatePnl(isLong: bool, size: nat, entry: nat, price: nat): int {
    if size == 0 || entry == 0 then 0
    else
      var delta := if isLong then price - entry else entry - price;
      MulFpSigned(size, DivFpSigned(delta, entry))
  }

  function CalculateMarginRatio(isLong: bool, collateral: nat, size: nat, entry: nat, price: nat): nat {
    if size == 0 then MAX_UINT
    else
      var equity := collateral + CalculatePnl(isLong, size, entry, price);
      if equity <= 0 then 0 else equity * BPS / size
  }

  function CalculateLiquidationPrice(entry: nat, collateral: nat, size: nat, maintenanceBps: nat, isLong: bool): nat {
    if size == 0 then 0
    else
      var maintenance := MulDiv(size, maintenanceBps, BPS);
      if collateral <= maintenance then entry
      else
        var room := MulDiv(collateral - maintenance, entry, size);
        if isLong then if entry > room then entry - room else 0
        else entry + room
  }

  function CalculateAverageEntryPrice(size: nat, entry: nat, addedSize: nat, addedPrice: nat): nat {
    var total := size + addedSize;
    if total == 0 then 0 else (MulFp(size, entry) + MulFp(addedSize, addedPrice)) / total * W
  }

  // ---------------------------------------------------------------- profit and loss

  /** A move's share of the entry price, in 18 decimals and rounded down. */
  function Share(move: nat, entry: nat): (share: int)
    requires entry > 0
    ensures share >= 0
  {
    move * W / entry
  }

  /** The size of profit or loss after a move of the price by `move`. */
  function Magnitude(size: nat, entry: nat, move: nat): (loss: int)
    requires entry > 0
    ensures loss >= 0
  {
    assert size * Share(move, entry) >= 0;
    size * Share(move, entry) / W
  }

  lemma PnlIsMagnitude(isLong: bool, size: nat, entry: nat, price: nat)
    requires entry > 0
    ensures CalculatePnl(isLong, size, entry, price) ==
            if isLong <==> price >= entry then Magnitude(size, entry, Abs(price - entry))
            else -Magnitude(size, entry, Abs(price - entry))
  {
    var share := Share(Abs(price - entry), entry);
    TruncNegates(Abs(price - entry) * W, entry);
    NegatedProduct(size, share);
    TruncNegates(size * share, W);
    if size == 0 { assert size * share == 0; }
  }

  lemma NegatedProduct(a: int, b: int)
    ensures a * -b == -(a * b)
  {
  }

  lemma LongAndShortCancel(size: nat, entry: nat, price: nat)
    ensures CalculatePnl(true, size, entry, price) + CalculatePnl(false, size, entry, price) == 0
  {
    if entry > 0 {
      PnlIsMagnitude(true, size, entry, price);
      PnlIsMagnitude(false, size, entry, price);
      if price == entry { MagnitudeBounds(size, entry, 0); }
    }
  }

  lemma MagnitudeBounds(size: nat, entry: nat, move: nat)
    requires entry > 0
    ensures Magnitude(size, entry, move) * entry <= size * move
    ensures size * move * W < Magnitude(size, entry, move) * entry * W + size * entry + entry * W
    ensures move == 0 ==> Magnitude(size, entry, move) == 0
  {
    var share := Share(move, entry);
    var loss := Magnitude(size, entry, move);
    Ratio(move * W, entry, share);
    Products(size, entry, move, share, loss);
    if move == 0 { Ratio(0, entry, share); SignOfProduct(entry, share); NoShare(size, entry); }
  }

  lemma NoShare(size: nat, entry: nat)
    requires entry > 0
    ensures Magnitude(size, entry, 0) == 0
  {
    assert Share(0, entry) == 0;
    assert size * 0 == 0;
  }

  lemma Products(size: nat, entry: nat, move: nat, share: nat, loss: nat)
    requires entry > 0 && share * entry <= move * W < share * entry + entry
    requires loss * W <= size * share < loss * W + W
    ensures loss * entry <= size * move
    ensures size * move * W < loss * entry * W + size * entry + entry * W
  {
    Scale(share * entry, move * W, size);
    Scale(move * W + 1, share * entry + entry, size);
    Scale(loss * W, size * share, entry);
    Scale(size * share + 1, loss * W + W, entry);
    assert size * (share * entry) == entry * (size * share);
  }

  lemma MagnitudeMonotone(size: nat, entry: nat, move: nat, move': nat)
    requires entry > 0 && move <= move'
    ensures Magnitude(size, entry, move) <= Magnitude(size, entry, move')
  {
    hide Trunc;
    var share, share' := Share(move, entry), Share(move', entry);
    TruncMonotone(move * W, move' * W, entry);
    TruncIsFloor(move * W, entry);
    TruncIsFloor(move' * W, entry);
    Scale(share, share', size);
  }

  lemma TruncIsFloor(a: nat, b: int)
    requires b > 0
    ensures Trunc(a, b) == a / b
  {
  }

  /** More adverse prices never leave more profit. */
  lemma ChainPnlMonotone(isLong: bool, size: nat, entry: nat, worse: nat, better: nat)
    requires if isLong then worse <= better else better <= worse
    ensures CalculatePnl(isLong, size, entry, worse) <= CalculatePnl(isLong, size, entry, better)
  {
    hide CalculatePnl, Magnitude;
    if entry == 0 {
      NoEntryNoPnl(isLong, size, worse);
      NoEntryNoPnl(isLong, size, better);
    } else {
      PnlIsMagnitude(isLong, size, entry, worse);
      PnlIsMagnitude(isLong, size, entry, better);
      var w, b := Abs(worse - entry), Abs(better - entry);
      if w <= b { MagnitudeMonotone(size, entry, w, b); } else { MagnitudeMonotone(size, entry, b, w); }
    }
  }

  lemma NoEntryNoPnl(isLong: bool, size: nat, price: nat)
    ensures CalculatePnl(isLong, size, 0, price) == 0
  {
  }

  /** The integrators' figure has the sign of the contracts' and is at least as large, by less than `size/W + 1`. */
  lemma FormulasAgree(isLong: bool, size: nat, entry: nat, price: nat)
    requires entry > 0
    ensures var chain, guide := CalculatePnl(isLong, size, entry, price), UnrealizedPnl(isLong, size, entry, price);
            && (chain >= 0 <==> guide >= 0 || chain == 0)
            && (chain <= 0 <==> guide <= 0 || chain == 0)
            && 0 <= (Abs(guide) - Abs(chain)) * W < size + W
  {
    hide CalculatePnl, Magnitude, Trunc, UnrealizedPnl;
    var move := Abs(price - entry);
    PnlIsMagnitude(isLong, size, entry, price);
    GuideIsMagnitude(isLong, size, entry, price);
    MagnitudeBounds(size, entry, move);
    SignOfProduct(size, move);
    MagnitudesAgree(size, entry, size * move, Trunc(size * move, entry), Magnitude(size, entry, move));
  }

  lemma GuideIsMagnitude(isLong: bool, size: nat, entry: nat, price: nat)
    requires entry > 0
    ensures UnrealizedPnl(isLong, size, entry, price) ==
            if isLong <==> price >= entry then Trunc(size * Abs(price - entry), entry)
            else -Trunc(size * Abs(price - entry), entry)
  {
    hide Trunc, UnrealizedPnl;
    var move: int := Abs(price - entry);
    if isLong <==> price >= entry {
      PnlAtDistance(isLong, size, entry, price, -move);
      NegatedProduct(size, move);
      TruncNegates(size * move, entry);
    } else {
      PnlAtDistance(isLong, size, entry, price, move);
    }
  }

  lemma MagnitudesAgree(size: nat, entry: nat, moved: nat, guide: int, chain: int)
    requires entry > 0 && guide == Trunc(moved, entry) && chain * entry <= moved
    requires moved * W < chain * entry * W + size * entry + entry * W
    ensures 0 <= (guide - chain) * W < size + W
  {
    hide Trunc;
    TruncBound(moved, entry, chain);
    assert ((guide - chain) * W) * entry == guide * entry * W - chain * entry * W;
    Cancel((guide - chain) * W, size + W, entry);
  }

  // ---------------------------------------------------------------- liquidation

  /** The margin check in basis points is the exact comparison of equity with maintenance. */
  lemma MarginCheckIsExact(isLong: bool, collateral: nat, size: nat, entry: nat, price: nat, maintenanceBps: nat)
    requires size > 0
    ensures CalculateMarginRatio(isLong, collateral, size, entry, price) < maintenanceBps <==>
            maintenanceBps > 0 && BPS * (collateral + CalculatePnl(isLong, size, entry, price)) < size * maintenanceBps
  {
    hide CalculatePnl;
    var equity := collateral + CalculatePnl(isLong, size, entry, price);
    if equity <= 0 {
      if maintenanceBps > 0 { Scale(1, maintenanceBps, size); }
    } else {
      var ratio := equity * BPS / size;
      Ratio(equity * BPS, size, ratio);
      if ratio < maintenanceBps { Scale(ratio + 1, maintenanceBps, size); } else { Scale(maintenanceBps, ratio, size); }
    }
  }

  /** Once liquidatable, a position stays so at every worse price. */
  lemma LiquidatableBelow(isLong: bool, collateral: nat, size: nat, entry: nat, worse: nat, better: nat,
                          maintenanceBps: nat)
    requires if isLong then worse <= better else better <= worse
    requires CalculateMarginRatio(isLong, collateral, size, entry, better) < maintenanceBps <= MAX_UINT
    ensures CalculateMarginRatio(isLong, collateral, size, entry, worse) < maintenanceBps
  {
    hide CalculatePnl, CalculateMarginRatio;
    if size == 0 {
      NoSize(isLong, collateral, entry, better);
    } else {
      ChainPnlMonotone(isLong, size, entry, worse, better);
      MarginCheckIsExact(isLong, collateral, size, entry, better, maintenanceBps);
      MarginCheckIsExact(isLong, collateral, size, entry, worse, maintenanceBps);
    }
  }

  lemma NoSize(isLong: bool, collateral: nat, entry: nat, price: nat)
    ensures CalculateMarginRatio(isLong, collateral, 0, entry, price) == MAX_UINT
  {
  }

  lemma WithinRoom(spare: nat, size: nat, entry: nat, room: int, adverse: nat)
    requires entry > 0 && size > 0 && room == spare * entry / size && adverse <= room
    ensures Magnitude(size, entry, adverse) <= spare
  {
    hide Magnitude;
    Ratio(spare * entry, size, room);
    MagnitudeBounds(size, entry, adverse);
    Scale(adverse, room, size);
    Cancel(Magnitude(size, entry, adverse), spare, entry);
  }

  lemma BeyondRoom(spare: nat, size: nat, entry: nat, room: int, beyond: nat)
    requires entry > 0 && size > 0 && room == spare * entry / size >= 0
    requires size * beyond * W >= entry * W + entry * size + size * W
    ensures Magnitude(size, entry, room + beyond) > spare
  {
    hide Magnitude;
    Ratio(spare * entry, size, room);
    MagnitudeBounds(size, entry, room + beyond);
    assert size * (room + beyond) == room * size + size * beyond;
    BeyondSum(entry, size, entry * size, spare * entry, room * size, size * beyond,
              Magnitude(size, entry, room + beyond) * entry);
    Cancel(spare, Magnitude(size, entry, room + beyond), entry);
  }

  lemma BeyondSum(entry: int, size: int, product: int, money: int, atRoom: int, atBeyond: int, loss: int)
    requires money < atRoom + size && atBeyond * W >= entry * W + product + size * W
    requires (atRoom + atBeyond) * W < loss * W + product + entry * W
    ensures loss > money
  {
  }

  /** The contracts' liquidation price separates prices too, but for a unit: on its safe side equity may be short of
      maintenance by less than one unit, and is not where maintenance is a whole number. */
  lemma LiquidationPriceSeparates(isLong: bool, entry: nat, collateral: nat, size: nat, maintenanceBps: nat, price: nat)
    requires entry > 0 && size > 0 && collateral > size * maintenanceBps / BPS
    ensures var estimate := CalculateLiquidationPrice(entry, collateral, size, maintenanceBps, isLong);
            var beyond := if isLong then estimate - price else price - estimate;
            var equity := collateral + CalculatePnl(isLong, size, entry, price);
            && (beyond <= 0 ==> BPS * equity > size * maintenanceBps - BPS)
            && (beyond <= 0 && size * maintenanceBps % BPS == 0 ==> BPS * equity >= size * maintenanceBps)
            && (size * beyond * W >= entry * W + entry * size + size * W ==> BPS * equity < size * maintenanceBps)
  {
    hide CalculatePnl, Magnitude;
    var maintenance := size * maintenanceBps / BPS;
    var spare: nat := collateral - maintenance;
    var room := spare * entry / size;
    var estimate := CalculateLiquidationPrice(entry, collateral, size, maintenanceBps, isLong);
    var beyond := if isLong then estimate - price else price - estimate;
    PnlIsMagnitude(isLong, size, entry, price);
    Ratio(spare * entry, size, room);
    NotNegative(spare * entry, size, room);
    var adverse := if isLong then entry - price else price - entry;
    if beyond <= 0 && adverse >= 0 {
      WithinRoom(spare, size, entry, room, adverse);
    }
    if size * beyond * W >= entry * W + entry * size + size * W {
      SignOfProduct(size, beyond);
      SignOfProduct(entry, size);
      BeyondRoom(spare, size, entry, room, beyond);
    }
  }

  /** Equity covers maintenance. */
  predicate CoversAt(isLong: bool, collateral: nat, size: nat, entry: nat, maintenanceBps: nat, price: nat) {
    BPS * (collateral + CalculatePnl(isLong, size, entry, price)) >= size * maintenanceBps
  }

  /** Equity covers maintenance at every price on the safe side of the contracts' liquidation price. */
  ghost predicate SafeSideCovers(isLong: bool, collateral: nat, size: nat, entry: nat, maintenanceBps: nat) {
    var estimate := CalculateLiquidationPrice(entry, collateral, size, maintenanceBps, isLong);
    forall price: nat | if isLong then price >= estimate else price <= estimate ::
      CoversAt(isLong, collateral, size, entry, maintenanceBps, price)
  }

  /** Exactly when the contracts' liquidation price is conservative.  With room to the maintenance margin, it is unless
      maintenance is a broken amount and both roundings of the price room come out even, so that the loss there uses up
      the room; a long whose room reaches down to zero is always safe.  Without room the entry price is returned, and
      the collateral itself has to cover maintenance. */
  lemma LiquidationPriceIsConservative(isLong: bool, entry: nat, collateral: nat, size: nat, maintenanceBps: nat)
    requires entry > 0 && size > 0
    ensures var spare := collateral - size * maintenanceBps / BPS;
            SafeSideCovers(isLong, collateral, size, entry, maintenanceBps) <==>
            if spare > 0 then
              || size * maintenanceBps % BPS == 0
              || spare * entry % size != 0 || spare * W % size != 0
              || (isLong && spare > size)
            else BPS * collateral >= size * maintenanceBps
  {
    hide CalculatePnl, SafeSideCovers, Magnitude, CalculateLiquidationPrice;
    WorstIsWorst(isLong, entry, collateral, size, maintenanceBps);
    var spare := collateral - size * maintenanceBps / BPS;
    if spare > 0 {
      WorstLoss(isLong, entry, collateral, size, maintenanceBps, spare);
      LossIsSpare(spare, size, entry, MulDiv(spare, entry, size));
      FullLoss(size, entry);
    } else {
      PnlIsMagnitude(isLong, size, entry, entry);
      NoShare(size, entry);
    }
  }

  /** The safe price at which equity is least. */
  function WorstSafePrice(isLong: bool, entry: nat, collateral: nat, size: nat, maintenanceBps: nat): nat {
    CalculateLiquidationPrice(entry, collateral, size, maintenanceBps, isLong)
  }

  lemma WorstIsWorst(isLong: bool, entry: nat, collateral: nat, size: nat, maintenanceBps: nat)
    ensures SafeSideCovers(isLong, collateral, size, entry, maintenanceBps) <==>
            CoversAt(isLong, collateral, size, entry, maintenanceBps,
                     WorstSafePrice(isLong, entry, collateral, size, maintenanceBps))
    ensures collateral <= size * maintenanceBps / BPS && size > 0 ==>
              WorstSafePrice(isLong, entry, collateral, size, maintenanceBps) == entry
  {
    hide CalculatePnl;
    var worst := WorstSafePrice(isLong, entry, collateral, size, maintenanceBps);
    forall price: nat | if isLong then price >= worst else price <= worst
      ensures CoversAt(isLong, collateral, size, entry, maintenanceBps, worst) ==>
                CoversAt(isLong, collateral, size, entry, maintenanceBps, price)
    {
      ChainPnlMonotone(isLong, size, entry, worst, price);
    }
  }

  /** The loss at the worst safe price: over the room, or over the whole entry price of a long that has more room. */
  lemma WorstLoss(isLong: bool, entry: nat, collateral: nat, size: nat, maintenanceBps: nat, spare: nat)
    requires entry > 0 && size > 0 && spare == collateral - size * maintenanceBps / BPS > 0
    ensures CalculatePnl(isLong, size, entry, WorstSafePrice(isLong, entry, collateral, size, maintenanceBps)) ==
            0 - Magnitude(size, entry, if isLong && spare > size then entry else MulDiv(spare, entry, size))
  {
    hide CalculatePnl, Magnitude, MulDiv;
    PnlIsMagnitude(isLong, size, entry, WorstSafePrice(isLong, entry, collateral, size, maintenanceBps));
    RoomAgainstEntry(spare, size, entry);
    NoShare(size, entry);
    MaintenanceIs(size, maintenanceBps);
  }

  lemma MaintenanceIs(size: nat, maintenanceBps: nat)
    ensures MulDiv(size, maintenanceBps, BPS) == size * maintenanceBps / BPS
  {
  }

  lemma RoomAgainstEntry(spare: nat, size: nat, entry: nat)
    requires size > 0
    ensures spare <= size ==> MulDiv(spare, entry, size) <= entry
    ensures spare >= size ==> MulDiv(spare, entry, size) >= entry
  {
    var room := MulDiv(spare, entry, size);
    Ratio(spare * entry, size, room);
    if spare <= size {
      Scale(spare, size, entry);
      Cancel(room, entry, size);
    }
    if spare >= size {
      Scale(size, spare, entry);
      Cancel(entry, room + 1, size);
    }
  }

  /** The loss over the room uses up what there is to lose exactly when both of its roundings come out even. */
  lemma LossIsSpare(spare: nat, size: nat, entry: nat, room: nat)
    requires size > 0 && entry > 0 && room == MulDiv(spare, entry, size)
    ensures Magnitude(size, entry, room) <= spare
    ensures Magnitude(size, entry, room) == spare <==> spare * entry % size == 0 && spare * W % size == 0
  {
    hide Magnitude, Share;
    var share := Share(room, entry);
    Ratio(spare * entry, size, room);
    MagnitudeOfShare(size, entry, room);
    ShareOf(room, entry);
    ShareWithinSpare(spare, size, entry, room, share);
    if Magnitude(size, entry, room) == spare {
      EvenLoss(spare, size, entry, room, share);
    }
    if spare * entry % size == 0 && spare * W % size == 0 {
      EvenRoom(spare, size, entry, room, share);
    }
  }

  lemma ShareOf(move: nat, entry: nat)
    requires entry > 0
    ensures Share(move, entry) * entry <= move * W < Share(move, entry) * entry + entry
  {
  }

  lemma ShareWithinSpare(spare: nat, size: nat, entry: nat, room: nat, share: nat)
    requires size > 0 && entry > 0 && room * size <= spare * entry && share * entry <= room * W
    ensures share * size <= spare * W
  {
    Scale(share * entry, room * W, size);
    assert (share * size) * entry == (share * entry) * size;
    assert (spare * W) * entry == (spare * entry) * W;
    Cancel(share * size, spare * W, entry);
  }

  /** A loss of the whole spare leaves no rounding in the share, and then none in the room. */
  lemma EvenLoss(spare: nat, size: nat, entry: nat, room: nat, share: nat)
    requires size > 0 && room * size <= spare * entry && share * entry <= room * W
    requires spare * W <= size * share <= spare * W
    ensures spare * entry % size == 0 && spare * W % size == 0
  {
    Scale(share * entry, room * W, size);
    assert (size * share) * entry == (share * entry) * size;
    assert (spare * W) * entry == (spare * entry) * W;
    assert spare * entry == room * size;
    EvenMultiple(room, size);
    EvenMultiple(share, size);
  }

  lemma EvenMultiple(q: nat, b: nat)
    requires b > 0
    ensures q * b % b == 0
  {
    ExactQuotient(q, b);
  }

  lemma EvenRoom(spare: nat, size: nat, entry: nat, room: nat, share: nat)
    requires size > 0 && entry > 0 && spare * entry % size == 0 && spare * W % size == 0
    requires room * size <= spare * entry < room * size + size
    requires share * entry <= room * W < share * entry + entry
    ensures size * share == spare * W
  {
    var q := spare * W / size;
    EvenQuotient(spare * W, size);
    EvenQuotient(spare * entry, size);
    SameQuotient(spare * entry, size, room);
    assert q * size * entry == room * size * W;
    assert (q * entry) * size == (room * W) * size;
    Cancel(q * entry, room * W, size);
    Cancel(room * W, q * entry, size);
    Cancel(share, q, entry);
    Cancel(q, share + 1, entry);
  }

  lemma EvenQuotient(a: nat, b: nat)
    requires b > 0 && a % b == 0
    ensures a / b * b == a
  {
  }

  lemma SameQuotient(a: nat, b: nat, q: nat)
    requires b > 0 && q * b <= a < q * b + b
    ensures a / b == q
  {
    Ratio(a, b, a / b);
    Cancel(a / b, q + 1, b);
    Cancel(q, a / b + 1, b);
  }

  lemma FullLoss(size: nat, entry: nat)
    requires entry > 0
    ensures Magnitude(size, entry, entry) == size
  {
    ExactQuotient(W, entry);
    assert Share(entry, entry) == W;
  }

  lemma NotNegative(a: nat, b: nat, q: int)
    requires b > 0 && q * b <= a < q * b + b
    ensures q >= 0
  {
    if q <= -1 { Scale(q, -1, b); }
  }

  /** The unit is really missing: a position that can be liquidated at its own liquidation price. */
  lemma LiquidationPriceCanBeShort()
    ensures 1 > 1 * 1 / BPS
    ensures CalculateMarginRatio(true, 1, 1, 100, CalculateLiquidationPrice(100, 1, 1, 1, true)) < 1
  {
    assert CalculateLiquidationPrice(100, 1, 1, 1, true) == 0;
    PnlIsMagnitude(true, 1, 100, 0);
  }

  // ---------------------------------------------------------------- adding to a position

  /** The new entry price is the size-weighted mean rounded down to a whole unit of 10^18, not to a unit of 1. */
  lemma AverageIsWhole(size: nat, entry: nat, addedSize: nat, addedPrice: nat)
    requires size + addedSize > 0
    ensures var average := CalculateAverageEntryPrice(size, entry, addedSize, addedPrice);
            && average % W == 0
            && average * (size + addedSize) <= size * entry + addedSize * addedPrice
            && size * entry + addedSize * addedPrice < (average + W) * (size + addedSize) + W
  {
    var total, value := size + addedSize, MulFp(size, entry) + MulFp(addedSize, addedPrice);
    var units := value / total;
    Ratio(value, total, units);
    assert CalculateAverageEntryPrice(size, entry, addedSize, addedPrice) == units * W;
    assert (units * W) * total == (units * total) * W;
    assert (units * W + W) * total == (units * total + total) * W;
  }

  /** Exactly when the new entry price is the weighted mean in 18 decimals, as documented: when what the mean leaves
      over a whole number of units is less than one part in 10^18, and no less than what rounding the two products first
      loses. */
  lemma AverageIsExact(size: nat, entry: nat, addedSize: nat, addedPrice: nat)
    requires size + addedSize > 0
    ensures var total, value := size + addedSize, size * entry + addedSize * addedPrice;
            CalculateAverageEntryPrice(size, entry, addedSize, addedPrice) == value / total <==>
            value % (total * W) < total && size * entry % W + addedSize * addedPrice % W <= value % (total * W)
  {
    AverageOfProducts(size, entry, addedSize, addedPrice);
    hide CalculateAverageEntryPrice;
    ExactMean(size * entry, addedSize * addedPrice, size + addedSize);
  }

  lemma AverageOfProducts(size: nat, entry: nat, addedSize: nat, addedPrice: nat)
    requires size + addedSize > 0
    ensures CalculateAverageEntryPrice(size, entry, addedSize, addedPrice) ==
            Over(Over(size * entry, W) + Over(addedSize * addedPrice, W), size + addedSize) * W
  {
  }

  function Over(a: nat, b: nat): nat
    requires b > 0
  {
    a / b
  }

  function Rest(a: nat, b: nat): nat
    requires b > 0
  {
    a % b
  }

  lemma Division(a: nat, b: nat)
    requires b > 0
    ensures a == Over(a, b) * b + Rest(a, b) && Rest(a, b) < b
  {
  }

  lemma ExactMean(x: nat, y: nat, total: nat)
    requires total > 0
    ensures total * W > 0
    ensures Over(Over(x, W) + Over(y, W), total) * W == Over(x + y, total) <==>
            Rest(x + y, total * W) < total && Rest(x, W) + Rest(y, W) <= Rest(x + y, total * W)
  {
    hide Over, Rest;
    Positive(total, W);
    Division(x, W);
    Division(y, W);
    Division(x + y, total * W);
    MeanFrom(x + y, Over(x, W) + Over(y, W), Rest(x, W) + Rest(y, W), total, Over(x + y, total * W),
             Rest(x + y, total * W));
  }

  lemma MeanFrom(value: nat, units: nat, lost: nat, total: nat, n: nat, rest: nat)
    requires total > 0 && value == units * W + lost == n * (total * W) + rest && rest < total * W
    ensures Over(units, total) * W == Over(value, total) <==> rest < total && lost <= rest
  {
    hide Over;
    MeanParts(value, total, n, rest);
    UnitsOf(units, lost, total, n, rest);
    MultipleAndRest(Over(units, total), n, Over(rest, total));
    SmallQuotient(rest, total);
  }

  lemma Positive(a: int, b: int)
    requires a > 0 && b > 0
    ensures a * b > 0
  {
  }

  /** The mean is a whole number of units and a rest. */
  lemma MeanParts(value: nat, total: nat, n: nat, rest: nat)
    requires total > 0 && value == n * (total * W) + rest && rest < total * W
    ensures Over(value, total) == n * W + Over(rest, total) && Over(rest, total) < W
  {
    Ratio(rest, total, rest / total);
    Cancel(rest / total, W, total);
    assert n * (total * W) == (n * W) * total;
    assert (n * W + rest / total) * total == (n * W) * total + rest / total * total;
    QuotientIs(value, total, n * W + rest / total);
  }

  lemma QuotientIs(a: nat, b: nat, q: int)
    requires b > 0 && q * b <= a < q * b + b
    ensures a / b == q
  {
    Ratio(a, b, a / b);
    Cancel(q, a / b + 1, b);
    Cancel(a / b, q + 1, b);
  }

  lemma UnitsOf(units: nat, lost: nat, total: nat, n: nat, rest: nat)
    requires total > 0 && units * W + lost == n * (total * W) + rest && rest < total * W
    ensures Over(units, total) <= n && (Over(units, total) == n <==> lost <= rest)
  {
    assert n * (total * W) == (n * total) * W && ((n + 1) * total) * W == n * (total * W) + total * W;
    Cancel(units, (n + 1) * total, W);
    Cancel(n * total, units, W);
    assert (n + 1) * total == n * total + total;
    Ratio(units, total, units / total);
    Cancel(units / total, n + 1, total);
    Cancel(n, units / total + 1, total);
    if units / total == n { Cancel(n * total, units, W); }
  }

  lemma MultipleAndRest(units: nat, n: nat, rest: nat)
    requires units <= n && rest < W
    ensures units * W == n * W + rest <==> rest == 0 && units == n
  {
    if units < n { Scale(units + 1, n, W); }
  }

  lemma SmallQuotient(rest: nat, total: nat)
    requires total > 0
    ensures Over(rest, total) == 0 <==> rest < total
  {
    Ratio(rest, total, rest / total);
    if rest / total == 0 { assert 0 * total == 0; } else { Scale(1, rest / total, total); }
  }

  /** Two equal sizes at 1 and at 2: the mean is 1.5, and the new entry price is 1. */
  lemma AverageCanBeOff()
    ensures CalculateAverageEntryPrice(W, W, W, 2 * W) == W
    ensures (W * W + W * (2 * W)) / (W + W) == 3 * W / 2
  {
  }

  /** Adding at the entry price keeps the entry price exactly when that price is a whole number of units. */
  lemma AverageOfOnePrice(size: nat, addedSize: nat, price: nat)
    requires size + addedSize > 0
    ensures CalculateAverageEntryPrice(size, price, addedSize, price) == price <==> price % W == 0
  {
    hide CalculateAverageEntryPrice;
    if price % W == 0 {
      WholePrice(size, addedSize, price / W);
    } else {
      OnePriceValue(size, addedSize, price);
      AverageIsExact(size, price, addedSize, price);
      OnePriceRest(price, size + addedSize);
      Scale(1, price % W, size + addedSize);
    }
  }

  lemma OnePriceValue(size: nat, addedSize: nat, price: nat)
    requires size + addedSize > 0
    ensures size * price + addedSize * price == price * (size + addedSize)
    ensures (size * price + addedSize * price) / (size + addedSize) == price
  {
    ExactQuotient(price, size + addedSize);
  }

  /** What one price leaves over a whole number of units, in all. */
  lemma OnePriceRest(price: nat, total: nat)
    requires total > 0
    ensures total * W > 0 && price * total % (total * W) == price % W * total
  {
    Positive(total, W);
    var n, rest := price / W, price % W;
    assert price * total == n * (total * W) + rest * total by {
      assert (n * W + rest) * total == (n * W) * total + rest * total;
      assert (n * W) * total == n * (total * W);
    }
    Scale(rest + 1, W, total);
    assert (rest + 1) * total == rest * total + total;
    assert W * total == total * W && rest * total >= 0;
    QuotientIs(price * total, total * W, n);
  }

  lemma WholePrice(size: nat, addedSize: nat, units: nat)
    requires size + addedSize > 0
    ensures CalculateAverageEntryPrice(size, units * W, addedSize, units * W) == units * W
  {
    hide MulFp;
    WholeProduct(size, units);
    WholeProduct(addedSize, units);
    assert size * units + addedSize * units == units * (size + addedSize);
    ExactQuotient(units, size + addedSize);
  }

  lemma WholeProduct(a: nat, units: nat)
    ensures MulFp(a, units * W) == a * units
  {
    assert a * (units * W) == (a * units) * W;
  }

  /** In a market that trades below one unit, adding to a position sets its entry price to zero. */
  lemma AverageBelowOne(size: nat, entry: nat, addedSize: nat, addedPrice: nat, isLong: bool, price: nat)
    requires size + addedSize > 0 && entry < W && addedPrice < W
    ensures CalculateAverageEntryPrice(size, entry, addedSize, addedPrice) == 0
    ensures CalculatePnl(isLong, size + addedSize, CalculateAverageEntryPrice(size, entry, addedSize, addedPrice),
                         price) == 0
  {
    var total, average := size + addedSize, CalculateAverageEntryPrice(size, entry, addedSize, addedPrice);
    AverageIsWhole(size, entry, addedSize, addedPrice);
    Scale(entry, W - 1, size);
    Scale(addedPrice, W - 1, addedSize);
    if average >= W {
      Scale(W, average, total);
      assert false;
    }
  }

  // ---------------------------------------------------------------- closing in parts

  function Sum(parts: seq<nat>): nat {
    if parts == [] then 0 else parts[0] + Sum(parts[1..])
  }

  /** What closing a position part by part at one price realises, by the integrators' formula. */
  function PartsPnl(isLong: bool, parts: seq<nat>, entry: nat, price: int): int
    requires entry > 0
  {
    if parts == [] then 0
    else UnrealizedPnl(isLong, parts[0], entry, price) + PartsPnl(isLong, parts[1..], entry, price)
  }

  function PartsMagnitude(parts: seq<nat>, entry: nat, move: nat): int
    requires entry > 0
  {
    if parts == [] then 0 else parts[0] * move / entry + PartsMagnitude(parts[1..], entry, move)
  }

  lemma {:induction false} PartsAreMagnitudes(isLong: bool, parts: seq<nat>, entry: nat, price: nat)
    requires entry > 0
    ensures PartsPnl(isLong, parts, entry, price) ==
            (if isLong <==> price >= entry then PartsMagnitude(parts, entry, Abs(price - entry))
             else 0 - PartsMagnitude(parts, entry, Abs(price - entry)))
  {
    if parts != [] {
      hide UnrealizedPnl, Trunc;
      GuideIsMagnitude(isLong, parts[0], entry, price);
      SignOfProduct(parts[0], Abs(price - entry));
      TruncIsFloor(parts[0] * Abs(price - entry), entry);
      PartsAreMagnitudes(isLong, parts[1..], entry, price);
    }
  }

  /** The parts' magnitudes against the exact value: each part rounds down by less than one. */
  lemma {:induction false} PartsBounds(parts: seq<nat>, entry: nat, move: nat)
    requires entry > 0
    ensures PartsMagnitude(parts, entry, move) >= 0
    ensures PartsMagnitude(parts, entry, move) * entry <= Sum(parts) * move
    ensures Sum(parts) * move <= PartsMagnitude(parts, entry, move) * entry + |parts| * (entry - 1)
  {
    if parts != [] {
      var q, rest := parts[0] * move / entry, PartsMagnitude(parts[1..], entry, move);
      PartsBounds(parts[1..], entry, move);
      SignOfProduct(parts[0], move);
      Ratio(parts[0] * move, entry, q);
      NotNegative(parts[0] * move, entry, q);
      OnePart(parts[0], Sum(parts[1..]), |parts[1..]|, entry, move, q, rest);
    } else {
      assert 0 * move == 0;
    }
  }

  lemma OnePart(part: nat, others: nat, n: nat, entry: nat, move: nat, q: int, rest: int)
    requires q * entry <= part * move < q * entry + entry
    requires rest * entry <= others * move <= rest * entry + n * (entry - 1)
    ensures (q + rest) * entry <= (part + others) * move <= (q + rest) * entry + (n + 1) * (entry - 1)
  {
    assert (part + others) * move == part * move + others * move;
    assert (q + rest) * entry == q * entry + rest * entry;
    assert (n + 1) * (entry - 1) == n * (entry - 1) + entry - 1;
  }

  /** Closing in n parts at one price realises the whole profit or loss up to n - 1 units, always toward zero. */
  lemma ClosingInParts(isLong: bool, parts: seq<nat>, entry: nat, price: nat)
    requires entry > 0 && parts != []
    ensures var whole, split := UnrealizedPnl(isLong, Sum(parts), entry, price), PartsPnl(isLong, parts, entry, price);
            if whole >= 0 then 0 <= split <= whole <= split + |parts| - 1
            else 0 - (|parts| - 1) <= whole - split <= 0 && split <= 0
  {
    hide UnrealizedPnl, Trunc, PartsPnl, PartsMagnitude, Sum;
    var move := Abs(price - entry);
    var magnitude, split := Trunc(Sum(parts) * move, entry), PartsMagnitude(parts, entry, move);
    GuideIsMagnitude(isLong, Sum(parts), entry, price);
    PartsAreMagnitudes(isLong, parts, entry, price);
    PartsBounds(parts, entry, move);
    SignOfProduct(Sum(parts), move);
    PartsClose(Sum(parts) * move, entry, |parts|, split, magnitude);
  }

  lemma PartsClose(value: nat, entry: nat, n: nat, split: int, whole: int)
    requires entry > 0 && n > 0 && whole == Trunc(value, entry)
    requires split * entry <= value <= split * entry + n * (entry - 1)
    ensures split <= whole <= split + n - 1
  {
    hide Trunc;
    TruncBound(value, entry, split);
    assert (split + n) * entry == split * entry + n * (entry - 1) + n;
    TruncBound(value, entry, split + n);
  }

  /** Partial closes that leave something each time, as the contract demands. */
  ghost predicate Closes(size: nat, closes: seq<nat>) {
    closes == [] || (0 < closes[0] < size && Closes(size - closes[0], closes[1..]))
  }

  /** What the contract realises: a fraction of the profit or loss at each partial close, the rest at the full close. */
  function RealizedPnl(isLong: bool, size: nat, entry: nat, price: nat, closes: seq<nat>): int
    requires Closes(size, closes)
  {
    if closes == [] then CalculatePnl(isLong, size, entry, price)
    else
      MulFpSigned(CalculatePnl(isLong, size, entry, price), DivFp(closes[0], size)) +
      RealizedPnl(isLong, size - closes[0], entry, price, closes[1..])
  }

  function RealizedMagnitude(size: nat, entry: nat, move: nat, closes: seq<nat>): int
    requires entry > 0 && Closes(size, closes)
  {
    if closes == [] then Magnitude(size, entry, move)
    else
      Magnitude(size, entry, move) * DivFp(closes[0], size) / W +
      RealizedMagnitude(size - closes[0], entry, move, closes[1..])
  }

  lemma {:induction false} RealizedIsMagnitude(isLong: bool, size: nat, entry: nat, price: nat, closes: seq<nat>)
    requires entry > 0 && Closes(size, closes)
    ensures RealizedPnl(isLong, size, entry, price, closes) ==
            (if isLong <==> price >= entry then RealizedMagnitude(size, entry, Abs(price - entry), closes)
             else 0 - RealizedMagnitude(size, entry, Abs(price - entry), closes))
    decreases |closes|
  {
    hide CalculatePnl, Magnitude, DivFp, Trunc;
    PnlIsMagnitude(isLong, size, entry, price);
    if closes != [] {
      var whole, fraction := Magnitude(size, entry, Abs(price - entry)), DivFp(closes[0], size);
      RealizedIsMagnitude(isLong, size - closes[0], entry, price, closes[1..]);
      SignOfProduct(fraction, whole);
      TruncIsFloor(whole * fraction, W);
      NegatedProduct(fraction, whole);
      TruncNegates(whole * fraction, W);
    }
  }

  /** One partial close realises its share toward zero, losing at most two units and 10^-18 of the whole. */
  lemma CloseStep(size: nat, close: nat, entry: nat, move: nat)
    requires entry > 0 && 0 < close < size
    ensures var whole, rest := Magnitude(size, entry, move), Magnitude(size - close, entry, move);
            var realized := whole * DivFp(close, size) / W;
            realized >= 0 && realized + rest <= whole && (whole - realized - rest) * W <= 2 * W + whole
  {
    hide Magnitude;
    var share, fraction := Share(move, entry), DivFp(close, size);
    var whole, rest := Magnitude(size, entry, move), Magnitude(size - close, entry, move);
    MagnitudeOfShare(size, entry, move);
    MagnitudeOfShare(size - close, entry, move);
    Ratio(close * W, size, fraction);
    SignOfProduct(fraction, whole);
    var realized := whole * fraction / W;
    CloseUpper(size, close, share, fraction, whole, rest, realized);
    CloseLower(size, close, share, fraction, whole, rest, realized);
  }

  lemma MagnitudeOfShare(size: nat, entry: nat, move: nat)
    requires entry > 0
    ensures Magnitude(size, entry, move) * W <= size * Share(move, entry) < Magnitude(size, entry, move) * W + W
  {
  }

  lemma CloseUpper(size: nat, close: nat, share: nat, fraction: nat, whole: nat, rest: nat, realized: nat)
    requires size > 0 && close < size && fraction * size <= close * W
    requires whole * W <= size * share < whole * W + W && rest * W <= (size - close) * share
    requires realized * W <= whole * fraction
    ensures realized + rest <= whole
  {
    ShareUpper(size, close, fraction, whole, realized);
    Scale(whole * W, size * share, close);
    assert (size * share) * close == (close * share) * size;
    Cancel(realized * W, close * share, size);
    assert (size - close) * share == size * share - close * share;
  }

  lemma ShareUpper(size: nat, close: nat, fraction: nat, whole: nat, realized: nat)
    requires fraction * size <= close * W && realized * W <= whole * fraction
    ensures realized * size <= whole * close
  {
    Scale(realized * W, whole * fraction, size);
    Scale(fraction * size, close * W, whole);
    assert whole * fraction * size == whole * (fraction * size);
  }

  lemma ShareLower(size: nat, close: nat, fraction: nat, whole: nat, realized: nat)
    requires close * W < fraction * size + size && whole * fraction < realized * W + W
    ensures whole * close * W <= realized * size * W + size * W + whole * size
  {
    Scale(whole * fraction, realized * W + W, size);
    Scale(close * W, fraction * size + size, whole);
    assert whole * fraction * size == whole * (fraction * size);
  }

  lemma CloseLower(size: nat, close: nat, share: nat, fraction: nat, whole: nat, rest: nat, realized: nat)
    requires size > 0 && close < size && close * W < fraction * size + size
    requires whole * W <= size * share && (size - close) * share < rest * W + W
    requires whole * fraction < realized * W + W
    ensures (whole - realized - rest) * W <= 2 * W + whole
  {
    ShareLower(size, close, fraction, whole, realized);
    RestLower(size, close, share, whole, rest);
    CloseSum(size, whole, realized, rest, whole * close, whole * (size - close));
    Cancel(whole * W, realized * W + whole + rest * W + 2 * W, size);
  }

  lemma CloseSum(size: nat, whole: nat, realized: nat, rest: nat, closed: int, left: int)
    requires closed + left == whole * size && left <= (rest + 1) * size
    requires closed * W <= realized * size * W + size * W + whole * size
    ensures whole * W * size <= (realized * W + whole + rest * W + 2 * W) * size
  {
    assert (rest + 1) * size == rest * size + size;
    assert whole * W * size == whole * size * W;
    assert (realized * W + whole + rest * W + 2 * W) * size ==
           realized * size * W + whole * size + rest * size * W + 2 * size * W;
  }

  lemma RestLower(size: nat, close: nat, share: nat, whole: nat, rest: nat)
    requires close < size && whole * W <= size * share && (size - close) * share < rest * W + W
    ensures whole * (size - close) <= (rest + 1) * size
  {
    Scale(whole * W, size * share, size - close);
    Scale((size - close) * share, rest * W + W, size);
    assert (size * share) * (size - close) == ((size - close) * share) * size;
  }

  lemma LossesAdd(n: nat, whole: nat, rest: nat, realized: int, split: int)
    requires rest <= whole && (whole - realized - rest) * W <= 2 * W + whole && (rest - split) * W <= n * (2 * W + rest)
    ensures (whole - (realized + split)) * W <= (n + 1) * (2 * W + whole)
  {
    Scale(2 * W + rest, 2 * W + whole, n);
    assert (n + 1) * (2 * W + whole) == n * (2 * W + whole) + 2 * W + whole;
  }

  lemma {:induction false} RealizedBounds(size: nat, entry: nat, move: nat, closes: seq<nat>)
    requires entry > 0 && Closes(size, closes)
    ensures var whole, split := Magnitude(size, entry, move), RealizedMagnitude(size, entry, move, closes);
            0 <= split <= whole && (whole - split) * W <= |closes| * (2 * W + whole)
    decreases |closes|
  {
    hide Magnitude, DivFp;
    if closes != [] {
      var whole, rest := Magnitude(size, entry, move), Magnitude(size - closes[0], entry, move);
      CloseStep(size, closes[0], entry, move);
      RealizedBounds(size - closes[0], entry, move, closes[1..]);
      LossesAdd(|closes[1..]|, whole, rest, whole * DivFp(closes[0], size) / W,
                RealizedMagnitude(size - closes[0], entry, move, closes[1..]));
    }
  }

  /** Partial closes at one price, then the full close, realise the profit or loss of closing at once, toward zero and
      up to two units and 10^-18 of the whole for every partial close. */
  lemma PartialClosesRealize(isLong: bool, size: nat, entry: nat, price: nat, closes: seq<nat>)
    requires Closes(size, closes)
    ensures var whole, split :=
            CalculatePnl(isLong, size, entry, price), RealizedPnl(isLong, size, entry, price, closes);
            && (whole >= 0 ==> 0 <= split <= whole)
            && (whole <= 0 ==> whole <= split <= 0)
            && Abs(whole - split) * W <= |closes| * (2 * W + Abs(whole))
  {
    hide CalculatePnl, Magnitude, RealizedPnl, RealizedMagnitude;
    if entry == 0 {
      NothingRealized(isLong, size, price, closes);
      NoEntryNoPnl(isLong, size, price);
    } else {
      PnlIsMagnitude(isLong, size, entry, price);
      RealizedIsMagnitude(isLong, size, entry, price, closes);
      RealizedBounds(size, entry, Abs(price - entry), closes);
    }
  }

  lemma {:induction false} NothingRealized(isLong: bool, size: nat, price: nat, closes: seq<nat>)
    requires Closes(size, closes)
    ensures RealizedPnl(isLong, size, 0, price, closes) == 0
    decreases |closes|
  {
    if closes != [] { NothingRealized(isLong, size - closes[0], price, closes[1..]); }
  }
}
