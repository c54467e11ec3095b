/**
 Funding across all positions of a market: what longs owe against what shorts are credited.
 */
module BookFunding {
  import opened FixedPoint
  import opened Ids
  import opened Book

  /** What one position of the market owes at the given indexes (a credit is negative), in units of 1/W. */
  function Owes(p: Position, m: Market, long: int, short: int): int {
    if p.active && p.market == m then p.size * ((if p.isLong then long else short) - p.index) else 0
  }

  /** What settling it would charge. */
  function Charge(p: Position, m: Market, long: int, short: int): int {
    Trunc(Owes(p, m, long, short), W)
  }

  function OwedUpTo(positions: map<nat, Position>, m: Market, long: int, short: int, n: nat): int {
    if n == 0 then 0
    else OwedUpTo(positions, m, long, short, n - 1) + if n in positions then Owes(positions[n], m, long, short) else 0
  }

  function ChargedUpTo(positions: map<nat, Position>, m: Market, long: int, short: int, n: nat): int {
    if n == 0 then 0
    else
      ChargedUpTo(positions, m, long, short, n - 1) +
      if n in positions then Charge(positions[n], m, long, short) else 0
  }

  function NetOwed(b: Book, m: Market, long: int, short: int): int {
    OwedUpTo(b.positions, m, long, short, b.nextPositionId)
  }

  /** The sum of the charges of settling every position of the market. */
  function NetCharged(b: Book, m: Market, long: int, short: int): int {
    ChargedUpTo(b.positions, m, long, short, b.nextPositionId)
  }

  lemma {:induction false} AccrualUpTo(positions: map<nat, Position>, m: Market, long: int, short: int, delta: int,
                                       n: nat)
    ensures OwedUpTo(positions, m, long + delta, short - delta, n) - OwedUpTo(positions, m, long, short, n) ==
            (SizesUpTo(positions, m, true, n) - SizesUpTo(positions, m, false, n)) * delta
  {
    if n > 0 {
      AccrualUpTo(positions, m, long, short, delta, n - 1);
      var l, s := SizesUpTo(positions, m, true, n - 1), SizesUpTo(positions, m, false, n - 1);
      if n in positions {
        var p := positions[n];
        AccrualOf(p, m, long, short, delta);
        assert (l + Share(p, m, true) - (s + Share(p, m, false))) * delta ==
               (l - s) * delta + (Share(p, m, true) - Share(p, m, false)) * delta;
      }
    }
  }

  lemma AccrualOf(p: Position, m: Market, long: int, short: int, delta: int)
    ensures Owes(p, m, long + delta, short - delta) - Owes(p, m, long, short) ==
            (Share(p, m, true) - Share(p, m, false)) * delta
  {
    if p.active && p.market == m {
      var index := (if p.isLong then long else short) - p.index;
      assert p.size * (index + delta) == p.size * index + p.size * delta;
      assert p.size * (index - delta) == p.size * index - p.size * delta;
      assert (0 - p.size) * delta == -(p.size * delta);
    }
  }

  /** Between size changes, what longs owe less what shorts are credited grows by the open-interest imbalance times the
      move of the index. */
  lemma AccrualIsImbalance(b: Book, m: Market, long: int, short: int, delta: int)
    requires Exact(b)
    ensures NetOwed(b, m, long + delta, short - delta) - NetOwed(b, m, long, short) ==
            (Side(Interest(b, m), true) - Side(Interest(b, m), false)) * delta
  {
    AccrualUpTo(b.positions, m, long, short, delta, b.nextPositionId);
    assert Side(Interest(b, m), true) == Sizes(b, m, true) && Side(Interest(b, m), false) == Sizes(b, m, false);
  }

  function CountUpTo(positions: map<nat, Position>, m: Market, n: nat): nat {
    if n == 0 then 0
    else
      CountUpTo(positions, m, n - 1) +
      if n in positions && positions[n].active && positions[n].market == m then 1 else 0
  }

  lemma {:induction false} RoundingUpTo(positions: map<nat, Position>, m: Market, long: int, short: int, n: nat)
    ensures Abs(W * ChargedUpTo(positions, m, long, short, n) - OwedUpTo(positions, m, long, short, n)) <=
            CountUpTo(positions, m, n) * (W - 1)
  {
    if n > 0 { RoundingUpTo(positions, m, long, short, n - 1); }
  }

  /** Settling every position after the move charges in total what they owed before it plus the imbalance times the
      move, but for less than a unit per position. */
  lemma ChargesMatchImbalance(b: Book, m: Market, long: int, short: int, delta: int)
    requires Exact(b)
    ensures Abs(W * NetCharged(b, m, long + delta, short - delta) - NetOwed(b, m, long, short) -
                (Side(Interest(b, m), true) - Side(Interest(b, m), false)) * delta) <=
            CountUpTo(b.positions, m, b.nextPositionId) * (W - 1)
  {
    AccrualIsImbalance(b, m, long, short, delta);
    RoundingUpTo(b.positions, m, long + delta, short - delta, b.nextPositionId);
  }
}
