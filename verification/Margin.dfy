/**
 Profit and loss, margin and liquidation price by the formulas given to integrators.  The contracts' own are in
 LibPosition.dfy.
 */
module Margin {
  import opened FixedPoint

  // ---------------------------------------------------------------- the integrators' formulas

  function UnrealizedPnl(isLong: bool, size: nat, entry: nat, price: int): int
    requires entry > 0
  {
    var pnl := Trunc(size * (price - entry), entry);
    if isLong then pnl else -pnl
  }

  function MarginBuffer(collateral: nat, size: nat, maintenanceBps: nat): int
    requires size > 0
  {
    collateral * W / size - maintenanceBps * W / BPS
  }

  function EstimateLiquidationPrice(entry: nat, collateral: nat, size: nat, maintenanceBps: nat, isLong: bool): int
    requires size > 0
  {
    var room := Trunc(entry * MarginBuffer(collateral, size, maintenanceBps), W);
    if isLong then entry - room else entry + room
  }

  /** What is left of the collateral at a price. */
  function Equity(isLong: bool, collateral: nat, size: nat, entry: nat, price: int): int
    requires entry > 0
  {
    collateral + UnrealizedPnl(isLong, size, entry, price)
  }

  lemma PnlAtDistance(isLong: bool, size: nat, entry: nat, price: int, adverse: int)
    requires entry > 0 && adverse == if isLong then entry - price else price - entry
    ensures UnrealizedPnl(isLong, size, entry, price) == -Trunc(size * adverse, entry)
  {
    hide Trunc;
    if isLong {
      assert size * (price - entry) == -(size * adverse);
      TruncNegates(size * adverse, entry);
    }
  }

  /** A long and a short of one size and entry always add up to nothing. */
  lemma LongAndShortCancel(size: nat, entry: nat, price: int)
    requires entry > 0
    ensures UnrealizedPnl(true, size, entry, price) + UnrealizedPnl(false, size, entry, price) == 0
  {
  }

  lemma PnlMonotone(isLong: bool, size: nat, entry: nat, worse: int, better: int)
    requires entry > 0 && (if isLong then worse <= better else better <= worse)
    ensures UnrealizedPnl(isLong, size, entry, worse) <= UnrealizedPnl(isLong, size, entry, better)
  {
    hide Trunc;
    var lo, hi := if isLong then worse else better, if isLong then better else worse;
    Scale(lo - entry, hi - entry, size);
    TruncMonotone(size * (lo - entry), size * (hi - entry), entry);
  }

  /** Size times entry times the buffer, against the money it stands for. */
  lemma BufferBounds(entry: nat, collateral: nat, size: nat, maintenanceBps: nat)
    requires entry > 0 && size > 0
    ensures var money := entry * (BPS * collateral - size * maintenanceBps) * W;
            money - BPS * (entry * size) < BPS * (size * (entry * MarginBuffer(collateral, size, maintenanceBps))) <=
              money
  {
    var ratio, rate := collateral * W / size, maintenanceBps * W / BPS;
    Ratio(collateral * W, size, ratio);
    assert BPS * rate == maintenanceBps * W;
    BufferProducts(entry, collateral, size, maintenanceBps, ratio, rate);
  }

  lemma BufferProducts(entry: nat, collateral: nat, size: nat, maintenanceBps: nat, ratio: int, rate: int)
    requires entry > 0 && size > 0 && BPS * rate == maintenanceBps * W
    requires ratio * size <= collateral * W < ratio * size + size
    ensures var money := entry * (BPS * collateral - size * maintenanceBps) * W;
            money - BPS * (entry * size) < BPS * (size * (entry * (ratio - rate))) <= money
  {
    Scale(ratio * size, collateral * W, entry);
    Scale(collateral * W + 1, ratio * size + size, entry);
    var product := size * (entry * (ratio - rate));
    assert product == entry * (ratio * size) - entry * size * rate;
    assert (entry * size) * (BPS * rate) == (entry * size) * (maintenanceBps * W);
    assert entry * (BPS * collateral - size * maintenanceBps) ==
      BPS * (entry * collateral) - entry * size * maintenanceBps;
  }

  /** Where the estimated distance to liquidation sits, before any price is formed from it. */
  lemma RoomBounds(entry: nat, collateral: nat, size: nat, maintenanceBps: nat, room: int)
    requires entry > 0 && size > 0 && room == Trunc(entry * MarginBuffer(collateral, size, maintenanceBps), W)
    ensures MarginBuffer(collateral, size, maintenanceBps) >= 0 ==>
              room >= 0 && BPS * (size * room) <= entry * (BPS * collateral - size * maintenanceBps)
    ensures BPS * (size * room) * W >
            entry * (BPS * collateral - size * maintenanceBps) * W - BPS * (entry * size) - BPS * size * W
    ensures MarginBuffer(collateral, size, maintenanceBps) <= 0 ==>
              room <= 0 && BPS * (size * room) < entry * (BPS * collateral - size * maintenanceBps) + BPS * size
  {
    hide Trunc, MarginBuffer;
    var buffer := MarginBuffer(collateral, size, maintenanceBps);
    BufferBounds(entry, collateral, size, maintenanceBps);
    SignOfProduct(entry, buffer);
    RoomProducts(size, entry * buffer, room);
  }

  lemma RoomProducts(size: nat, v: int, room: int)
    requires size > 0 && room == Trunc(v, W)
    ensures v >= 0 ==> room >= 0 && size * room * W <= size * v < size * room * W + size * W
    ensures v <= 0 ==> room <= 0 && size * v <= size * room * W < size * v + size * W
  {
    hide Trunc;
    if v >= 0 {
      Scale(room * W, v, size);
      Scale(v + 1, room * W + W, size);
    }
    if v <= 0 {
      Scale(v, room * W, size);
      Scale(room * W - W + 1, v, size);
    }
  }

  lemma SignOfProduct(a: nat, b: int)
    ensures b >= 0 ==> a * b >= 0
    ensures b <= 0 ==> a * b <= 0
  {
  }

  /** What is left above maintenance, in units of 1/BPS, at a price that is `adverse` away on the losing side. */
  lemma SurplusAt(isLong: bool, collateral: nat, size: nat, entry: nat, maintenanceBps: nat, price: int, adverse: int)
    requires entry > 0 && adverse == if isLong then entry - price else price - entry
    ensures var surplus := BPS * Equity(isLong, collateral, size, entry, price) - size * maintenanceBps;
            && entry * (BPS * collateral - size * maintenanceBps) - BPS * (size * adverse) -
               BPS * entry < surplus * entry
            && surplus * entry < entry * (BPS * collateral - size * maintenanceBps) - BPS * (size * adverse) +
               BPS * entry
            && (adverse >= 0 ==>
                 surplus * entry >= entry * (BPS * collateral - size * maintenanceBps) - BPS * (size * adverse))
  {
    hide Trunc;
    PnlAtDistance(isLong, size, entry, price, adverse);
    SignOfProduct(size, adverse);
    var loss := Trunc(size * adverse, entry);
    assert (BPS * collateral - BPS * loss - size * maintenanceBps) * entry ==
           entry * (BPS * collateral - size * maintenanceBps) - BPS * (loss * entry);
  }

  /** At the estimate, equity is less than `size/W + size/entry + 1` above maintenance; it is not below maintenance when
      the buffer is not negative, and never by more than `size/entry + 1`. */
  lemma EstimateIsTight(isLong: bool, entry: nat, collateral: nat, size: nat, maintenanceBps: nat)
    requires entry > 0 && size > 0
    ensures var price := EstimateLiquidationPrice(entry, collateral, size, maintenanceBps, isLong);
            var surplus := BPS * Equity(isLong, collateral, size, entry, price) - size * maintenanceBps;
            && (MarginBuffer(collateral, size, maintenanceBps) >= 0 ==> surplus >= 0)
            && surplus * entry * W < BPS * (size * entry) + BPS * (size * W) + BPS * (entry * W)
            && surplus * entry > -BPS * (size + entry)
  {
    hide Trunc, MarginBuffer, Equity;
    var room := Trunc(entry * MarginBuffer(collateral, size, maintenanceBps), W);
    var price := EstimateLiquidationPrice(entry, collateral, size, maintenanceBps, isLong);
    var surplus := BPS * Equity(isLong, collateral, size, entry, price) - size * maintenanceBps;
    RoomBounds(entry, collateral, size, maintenanceBps, room);
    SurplusAt(isLong, collateral, size, entry, maintenanceBps, price, room);
    if MarginBuffer(collateral, size, maintenanceBps) >= 0 { Cancel(0, surplus, entry); }
  }

  /** The estimates of a long and a short leave the two with the same equity. */
  lemma EstimatesAgree(entry: nat, collateral: nat, size: nat, maintenanceBps: nat)
    requires entry > 0 && size > 0
    ensures Equity(true, collateral, size, entry,
                   EstimateLiquidationPrice(entry, collateral, size, maintenanceBps, true)) ==
            Equity(false, collateral, size, entry,
                   EstimateLiquidationPrice(entry, collateral, size, maintenanceBps, false))
  {
    hide Trunc, MarginBuffer;
    var room := Trunc(entry * MarginBuffer(collateral, size, maintenanceBps), W);
    PnlAtDistance(true, size, entry, entry - room, room);
    PnlAtDistance(false, size, entry, entry + room, room);
  }

  /** The estimate separates prices.  On its safe side equity covers maintenance, if the buffer is not negative; from
      `entry/W + entry/size + 1` beyond it, equity falls short, whatever the buffer. */
  lemma EstimateSeparates(isLong: bool, entry: nat, collateral: nat, size: nat, maintenanceBps: nat, price: int)
    requires entry > 0 && size > 0
    ensures var estimate := EstimateLiquidationPrice(entry, collateral, size, maintenanceBps, isLong);
            var beyond := if isLong then estimate - price else price - estimate;
            var equity := Equity(isLong, collateral, size, entry, price);
            && (MarginBuffer(collateral, size, maintenanceBps) >= 0 && beyond <= 0 ==>
                BPS * equity >= size * maintenanceBps)
            && (size * beyond * W >= entry * W + entry * size + size * W ==> BPS * equity < size * maintenanceBps)
  {
    hide Trunc, MarginBuffer, EstimateLiquidationPrice;
    var estimate := EstimateLiquidationPrice(entry, collateral, size, maintenanceBps, isLong);
    var beyond := if isLong then estimate - price else price - estimate;
    if beyond <= 0 {
      EstimateIsTight(isLong, entry, collateral, size, maintenanceBps);
      PnlMonotone(isLong, size, entry, estimate, price);
    }
    if size * beyond * W >= entry * W + entry * size + size * W {
      BeyondEstimate(isLong, entry, collateral, size, maintenanceBps, price, beyond);
    }
  }

  lemma BeyondEstimate(isLong: bool, entry: nat, collateral: nat, size: nat, maintenanceBps: nat, price: int,
                       beyond: int)
    requires entry > 0 && size > 0 && size * beyond * W >= entry * W + entry * size + size * W
    requires var estimate := EstimateLiquidationPrice(entry, collateral, size, maintenanceBps, isLong);
             beyond == if isLong then estimate - price else price - estimate
    ensures BPS * Equity(isLong, collateral, size, entry, price) < size * maintenanceBps
  {
    hide Trunc, MarginBuffer, Equity;
    var room := Trunc(entry * MarginBuffer(collateral, size, maintenanceBps), W);
    var surplus := BPS * Equity(isLong, collateral, size, entry, price) - size * maintenanceBps;
    RoomBounds(entry, collateral, size, maintenanceBps, room);
    SurplusAt(isLong, collateral, size, entry, maintenanceBps, price, room + beyond);
    BeyondRoom(entry, size, entry * size, entry * (BPS * collateral - size * maintenanceBps), room, beyond, surplus);
  }

  lemma BeyondRoom(entry: nat, size: nat, product: int, money: int, room: int, beyond: int, surplus: int)
    requires entry > 0
    requires BPS * (size * room) * W > money * W - BPS * product - BPS * size * W
    requires size * beyond * W >= entry * W + product + size * W
    requires surplus * entry < money - BPS * (size * (room + beyond)) + BPS * entry
    ensures surplus < 0
  {
    assert size * (room + beyond) == size * room + size * beyond;
    Cancel(surplus, 0, entry);
  }
}
