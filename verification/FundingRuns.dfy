/**
 Funding over whole runs: lazy accrual and settlement, in whatever order positions, keepers and liquidators touch the
 market, against a clock that charges second by second.
 */
module FundingRuns {
  import opened FixedPoint
  import opened Funding

  /** What happens to a market and to one position in it.  A resize settles first; deleveraging does not settle. */
  datatype Event =
    | Poke(at: nat)
    | Refresh(at: nat, rate: int)
    | Settle(at: nat)
    | Resize(at: nat, size: nat)
    | Deleverage(at: nat, size: nat)

  /** The contracts' books for one position: the index it was last settled at, and what it has paid so far. */
  datatype Ledger = Ledger(fs: FundingState, isLong: bool, size: nat, index: int, paid: int)

  function Payment(l: Ledger): int {
    MulFpSigned(l.size, Index(l.fs, l.isLong) - l.index)
  }

  function Settled(l: Ledger, now: nat): Ledger {
    var accrued := l.(fs := Accrue(l.fs, now));
    accrued.(index := Index(accrued.fs, l.isLong), paid := l.paid + Payment(accrued))
  }

  function Step(l: Ledger, e: Event): Ledger {
    match e
    case Poke(at) => l.(fs := Accrue(l.fs, at))
    case Refresh(at, rate) => l.(fs := Accrue(l.fs, at).(rate := rate))
    case Settle(at) => Settled(l, at)
    case Resize(at, size) => Settled(l, at).(size := size)
    case Deleverage(_, size) => l.(size := size)
  }

  function Run(l: Ledger, es: seq<Event>): Ledger
    decreases |es|
  {
    if es == [] then l else Run(Step(l, es[0]), es[1..])
  }

  /** The reference: owed every second, at that second's rate and size, in units of 1/W. */
  datatype Clock = Clock(time: nat, rate: int, isLong: bool, size: nat, owed: int)

  function PerSecond(c: Clock): int {
    if c.isLong then c.size * c.rate else -(c.size * c.rate)
  }

  function TickTo(c: Clock, now: nat): Clock
    decreases now - c.time
  {
    if c.time >= now then c else TickTo(c.(time := c.time + 1, owed := c.owed + PerSecond(c)), now)
  }

  function Chime(c: Clock, e: Event): Clock {
    var c' := TickTo(c, e.at);
    match e
    case Refresh(_, rate) => c'.(rate := rate)
    case Resize(_, size) => c'.(size := size)
    case Deleverage(_, size) => c'.(size := size)
    case _ => c'
  }

  function Chimes(c: Clock, es: seq<Event>): Clock
    decreases |es|
  {
    if es == [] then c else Chimes(Chime(c, es[0]), es[1..])
  }

  /** Time does not run backwards. */
  ghost predicate InOrder(time: nat, es: seq<Event>)
    decreases |es|
  {
    es == [] || (time <= es[0].at && InOrder(es[0].at, es[1..]))
  }

  /** The index as it would be if the market were touched now. */
  function IndexNow(fs: FundingState, isLong: bool, now: nat): int {
    Index(fs, isLong) + (if isLong then fs.rate * (now - fs.last) else -(fs.rate * (now - fs.last)))
  }

  /** What the position owes but has not been charged for, in units of 1/W. */
  function Pending(l: Ledger, now: nat): int {
    l.size * (IndexNow(l.fs, l.isLong, now) - l.index)
  }

  /** How many payments a run makes, each of them rounded. */
  function Payments(es: seq<Event>): nat {
    if es == [] then 0 else (if es[0].Settle? || es[0].Resize? then 1 else 0) + Payments(es[1..])
  }

  /** The funding pending on the part of the position that a change to `size` takes away. */
  function PendingOn(l: Ledger, now: nat, size: nat): int {
    (l.size - size) * (IndexNow(l.fs, l.isLong, now) - l.index)
  }

  /** What deleveraging lets lapse: the funding pending on the part of the position that it takes away. */
  function Lapsed(l: Ledger, es: seq<Event>): int
    decreases |es|
  {
    if es == [] then 0
    else
      (if es[0].Deleverage? then PendingOn(l, es[0].at, es[0].size) else 0) +
      Lapsed(Step(l, es[0]), es[1..])
  }

  ghost predicate SamePage(l: Ledger, c: Clock) {
    0 < c.time && Underway(l.fs, c.time) && l.fs.rate == c.rate && l.isLong == c.isLong && l.size == c.size
  }

  /** By how much the contracts' books are ahead of the clock. */
  function Ahead(l: Ledger, c: Clock): int {
    W * l.paid + Pending(l, c.time) - c.owed
  }

  lemma {:induction false} Ticks(c: Clock, now: nat)
    requires c.time <= now
    ensures TickTo(c, now) == c.(time := now, owed := c.owed + PerSecond(c) * (now - c.time))
    decreases now - c.time
  {
    if c.time < now {
      var c' := c.(time := c.time + 1, owed := c.owed + PerSecond(c));
      Ticks(c', now);
      assert PerSecond(c) * (now - c.time) == PerSecond(c) + PerSecond(c) * (now - c'.time);
    } else {
      assert PerSecond(c) * 0 == 0;
    }
  }

  lemma IndexMoves(fs: FundingState, isLong: bool, from: nat, now: nat)
    ensures IndexNow(fs, isLong, now) ==
            IndexNow(fs, isLong, from) + (if isLong then fs.rate * (now - from) else -(fs.rate * (now - from)))
  {
    Distribute(fs.rate, from - fs.last, now - from);
  }

  lemma Distribute(a: int, b: int, c: int)
    ensures a * (b + c) == a * b + a * c
  {
  }

  lemma Reassociate(a: int, b: int, c: int)
    ensures a * (b * c) == (a * b) * c && a * -(b * c) == -(a * b) * c
  {
    assert a * (b * c) == (a * b) * c;
  }

  /** What is pending grows by what the clock ticks. */
  lemma PendingMoves(l: Ledger, c: Clock, now: nat)
    requires SamePage(l, c) && c.time <= now
    ensures Pending(l, now) == Pending(l, c.time) + PerSecond(c) * (now - c.time)
  {
    hide IndexNow;
    var elapsed := now - c.time;
    IndexMoves(l.fs, l.isLong, c.time, now);
    Reassociate(l.size, c.rate, elapsed);
    Distribute(l.size, IndexNow(l.fs, l.isLong, c.time) - l.index,
               if l.isLong then c.rate * elapsed else -(c.rate * elapsed));
  }

  /** Letting time pass puts books and clock ahead by the same amount. */
  lemma TimePasses(l: Ledger, c: Clock, now: nat)
    requires SamePage(l, c) && c.time <= now
    ensures SamePage(l, TickTo(c, now)) && TickTo(c, now).time == now
    ensures Ahead(l, TickTo(c, now)) == Ahead(l, c)
  {
    hide Pending, PerSecond;
    Ticks(c, now);
    PendingMoves(l, c, now);
  }

  /** Accruing early changes nothing that is owed. */
  lemma AccrueKeepsIndex(fs: FundingState, now: nat, later: nat, isLong: bool)
    requires Underway(fs, now) && now <= later
    ensures IndexNow(Accrue(fs, now), isLong, later) == IndexNow(fs, isLong, later)
    ensures Index(Accrue(fs, now), isLong) == IndexNow(fs, isLong, now)
  {
    assert fs.rate * (later - fs.last) == fs.rate * (now - fs.last) + fs.rate * (later - now);
  }

  /** Nothing is pending right after a payment, whatever the size. */
  lemma SettledOwesNothing(l: Ledger, now: nat, size: nat)
    requires Underway(l.fs, now)
    ensures Pending(Settled(l, now).(size := size), now) == 0
    ensures Settled(l, now).paid == l.paid + MulFpSigned(l.size, IndexNow(l.fs, l.isLong, now) - l.index)
  {
    hide MulFpSigned, Accrue;
    AccrueKeepsIndex(l.fs, now, now, l.isLong);
    AccruedNow(l.fs, now);
    assert Settled(l, now).index == IndexNow(l.fs, l.isLong, now);
  }

  lemma AccruedNow(fs: FundingState, now: nat)
    requires fs.last <= now
    ensures Accrue(fs, now).rate == fs.rate && Accrue(fs, now).last == now
  {
  }

  /** A payment rounds what is pending by less than a unit. */
  lemma PaymentRounds(l: Ledger, now: nat)
    ensures Abs(W * MulFpSigned(l.size, IndexNow(l.fs, l.isLong, now) - l.index) - Pending(l, now)) <= W - 1
  {
    hide IndexNow;
  }

  lemma SamePending(l: Ledger, fs: FundingState, now: nat)
    requires IndexNow(fs, l.isLong, now) == IndexNow(l.fs, l.isLong, now)
    ensures Pending(l.(fs := fs), now) == Pending(l, now)
  {
    hide IndexNow;
  }

  lemma AccruedPending(l: Ledger, now: nat, rate: int)
    requires Underway(l.fs, now)
    ensures Pending(l.(fs := Accrue(l.fs, now).(rate := rate)), now) == Pending(l, now)
  {
    var fs := Accrue(l.fs, now).(rate := rate);
    AccrueKeepsIndex(l.fs, now, now, l.isLong);
    AccruedNow(l.fs, now);
    hide Accrue, Pending;
    assert rate * 0 == 0;
    SamePending(l, fs, now);
  }

  lemma OneEvent(l: Ledger, e: Event)
    ensures Payments([e]) * (W - 1) == if e.Settle? || e.Resize? then W - 1 else 0
    ensures Lapsed(l, [e]) == if e.Deleverage? then PendingOn(l, e.at, e.size) else 0
  {
    hide IndexNow, Step;
    assert [e][1..] == [];
  }

  lemma NoTick(c: Clock, e: Event)
    requires c.time == e.at
    ensures Chime(c, e) == match e case Refresh(_, rate) => c.(rate := rate)
                                   case Resize(_, size) => c.(size := size)
                                   case Deleverage(_, size) => c.(size := size)
                                   case Poke(_) => c.(rate := c.rate)
                                   case Settle(_) => c.(size := c.size)
  {
  }

  /** One event, at the moment it happens: a payment rounds by less than a unit, deleveraging drops what was pending. */
  lemma EventKeepsPace(l: Ledger, c: Clock, e: Event)
    requires SamePage(l, c) && c.time == e.at
    ensures SamePage(Step(l, e), Chime(c, e)) && Chime(c, e).time == e.at
    ensures Abs(Ahead(Step(l, e), Chime(c, e)) - Ahead(l, c) + Lapsed(l, [e])) <= Payments([e]) * (W - 1)
  {
    hide *;
    PageTurns(l, c, e);
    OneEvent(l, e);
    StepIs(l, e);
    NoTick(c, e);
    var change := Ahead(Step(l, e), Chime(c, e)) - Ahead(l, c) + Lapsed(l, [e]);
    match e {
      case Poke(at) => AccrualKeepsPace(l, c, at, l.fs.rate);
      case Refresh(at, rate) => AccrualKeepsPace(l, c, at, rate);
      case Settle(at) => PaymentKeepsPace(l, c, at, l.size);
      case Resize(at, size) => PaymentKeepsPace(l, c, at, size);
      case Deleverage(at, size) => DropsPending(l, c, at, size);
    }
    AbsWithin(change, Payments([e]) * (W - 1));
  }

  lemma PaymentKeepsPace(l: Ledger, c: Clock, now: nat, size: nat)
    requires Underway(l.fs, now) && now == c.time
    ensures -(W - 1) <= Ahead(Settled(l, now).(size := size), c.(size := size)) - Ahead(l, c) <= W - 1
  {
    hide MulFpSigned, IndexNow, Accrue, Pending;
    PaymentRounds(l, now);
    SettledOwesNothing(l, now, size);
  }

  lemma PageTurns(l: Ledger, c: Clock, e: Event)
    requires SamePage(l, c) && c.time == e.at
    ensures Underway(l.fs, c.time) && l.fs.rate == c.rate && l.size == c.size
    ensures SamePage(Step(l, e), Chime(c, e)) && Chime(c, e).time == e.at
  {
    hide MulFpSigned, Accrue;
    AccruedNow(l.fs, e.at);
  }

  lemma StepIs(l: Ledger, e: Event)
    ensures Step(l, e) == match e case Poke(at) => l.(fs := Accrue(l.fs, at).(rate := l.fs.rate))
                                  case Refresh(at, rate) => l.(fs := Accrue(l.fs, at).(rate := rate))
                                  case Settle(at) => Settled(l, at).(size := l.size)
                                  case Resize(at, size) => Settled(l, at).(size := size)
                                  case Deleverage(_, size) => l.(size := size)
  {
  }

  lemma AbsWithin(x: int, bound: int)
    requires -bound <= x <= bound
    ensures Abs(x) <= bound
  {
  }

  lemma AccrualKeepsPace(l: Ledger, c: Clock, now: nat, rate: int)
    requires Underway(l.fs, now) && now == c.time
    ensures Ahead(l.(fs := Accrue(l.fs, now).(rate := rate)), c.(rate := rate)) == Ahead(l, c)
  {
    hide Accrue, Pending;
    AccruedPending(l, now, rate);
  }

  lemma DropsPending(l: Ledger, c: Clock, now: nat, size: nat)
    requires c.time == now
    ensures Ahead(l.(size := size), c.(size := size)) - Ahead(l, c) + PendingOn(l, now, size) == 0
  {
    hide IndexNow;
    Distribute(IndexNow(l.fs, l.isLong, now) - l.index, l.size - size, size);
  }

  lemma StepKeepsPace(l: Ledger, c: Clock, e: Event)
    requires SamePage(l, c) && c.time <= e.at
    ensures SamePage(Step(l, e), Chime(c, e)) && Chime(c, e).time == e.at
    ensures Abs(Ahead(Step(l, e), Chime(c, e)) - Ahead(l, c) + Lapsed(l, [e])) <= Payments([e]) * (W - 1)
  {
    hide Ahead, Lapsed, Payments, Step;
    TimePasses(l, c, e.at);
    EventKeepsPace(l, TickTo(c, e.at), e);
  }

  /** The main theorem: over any run, what a position has been charged, what is pending and what has lapsed add up to
      what the clock says it owes, but for less than one unit of rounding per payment. */
  lemma {:induction false} RunKeepsPace(l: Ledger, c: Clock, es: seq<Event>)
    requires SamePage(l, c) && InOrder(c.time, es)
    ensures SamePage(Run(l, es), Chimes(c, es))
    ensures Abs(Ahead(Run(l, es), Chimes(c, es)) - Ahead(l, c) + Lapsed(l, es)) <= Payments(es) * (W - 1)
    decreases |es|
  {
    hide Ahead, Step, Chime, SamePage;
    if es != [] {
      StepKeepsPace(l, c, es[0]);
      RunKeepsPace(Step(l, es[0]), Chime(c, es[0]), es[1..]);
      assert [es[0]][1..] == [];
    }
  }

  /** A position opened on accrued indexes and settled at the end has paid what every second cost. */
  lemma SettledRunPaysTheClock(l: Ledger, c: Clock, es: seq<Event>, now: nat)
    requires SamePage(l, c) && l.fs.last == c.time && l.index == Index(l.fs, l.isLong) && l.paid == c.owed == 0
    requires InOrder(c.time, es + [Settle(now)]) && forall e <- es :: !e.Deleverage?
    ensures Abs(W * Run(l, es + [Settle(now)]).paid - Chimes(c, es + [Settle(now)]).owed) <=
            (Payments(es) + 1) * (W - 1)
  {
    hide Run, Chimes, Payments, InOrder, Ahead, SamePage, Lapsed;
    var all := es + [Settle(now)];
    LevelStart(l, c);
    RunKeepsPace(l, c, all);
    NothingLapses(l, all);
    PaymentsConcat(es, [Settle(now)]);
    LastSettle(l, c, es, now);
  }

  lemma LevelStart(l: Ledger, c: Clock)
    requires l.fs.last == c.time && l.index == Index(l.fs, l.isLong) && l.paid == c.owed == 0
    ensures Ahead(l, c) == 0
  {
    assert l.size * 0 == 0 && l.fs.rate * 0 == 0;
  }

  lemma {:induction false} NothingLapses(l: Ledger, es: seq<Event>)
    requires forall e <- es :: !e.Deleverage?
    ensures Lapsed(l, es) == 0
    decreases |es|
  {
    if es != [] { NothingLapses(Step(l, es[0]), es[1..]); }
  }

  lemma {:induction false} RunConcat(l: Ledger, c: Clock, a: seq<Event>, b: seq<Event>)
    ensures Run(l, a + b) == Run(Run(l, a), b) && Chimes(c, a + b) == Chimes(Chimes(c, a), b)
    decreases |a|
  {
    if a == [] {
      assert a + b == b;
    } else {
      assert (a + b)[1..] == a[1..] + b;
      RunConcat(Step(l, a[0]), Chime(c, a[0]), a[1..], b);
    }
  }

  lemma {:induction false} PaymentsConcat(a: seq<Event>, b: seq<Event>)
    ensures Payments(a + b) == Payments(a) + Payments(b)
  {
    if a == [] {
      assert a + b == b;
    } else {
      assert (a + b)[1..] == a[1..] + b;
      PaymentsConcat(a[1..], b);
    }
  }

  /** Right after a settlement nothing is pending. */
  lemma LastSettle(l: Ledger, c: Clock, es: seq<Event>, now: nat)
    requires SamePage(l, c) && InOrder(c.time, es + [Settle(now)])
    ensures Payments([Settle(now)]) == 1
    ensures var l', c' := Run(l, es + [Settle(now)]), Chimes(c, es + [Settle(now)]);
            Ahead(l', c') == W * l'.paid - c'.owed
  {
    RunConcat(l, c, es, [Settle(now)]);
    InOrderConcat(c, es, Settle(now));
    InOrderPrefix(c.time, es, Settle(now));
    RunKeepsPace(l, c, es);
    var m, k := Run(l, es), Chimes(c, es);
    assert [Settle(now)][1..] == [];
    Ticks(k, now);
    assert m.fs.rate * 0 == 0 && m.size * 0 == 0;
  }

  lemma {:induction false} InOrderPrefix(time: nat, es: seq<Event>, e: Event)
    requires InOrder(time, es + [e])
    ensures InOrder(time, es)
    decreases |es|
  {
    if es != [] {
      assert (es + [e])[1..] == es[1..] + [e];
      InOrderPrefix(es[0].at, es[1..], e);
    }
  }

  lemma {:induction false} InOrderConcat(c: Clock, es: seq<Event>, e: Event)
    requires InOrder(c.time, es + [e])
    ensures Chimes(c, es).time <= e.at
    decreases |es|
  {
    if es != [] {
      assert (es + [e])[1..] == es[1..] + [e];
      Ticks(c, es[0].at);
      InOrderConcat(Chime(c, es[0]), es[1..], e);
    }
  }

  // ---------------------------------------------------------------- touches

  /** A run without the touches that change neither rate nor size. */
  function Essential(es: seq<Event>): seq<Event> {
    if es == [] then []
    else if es[0].Poke? || es[0].Settle? then Essential(es[1..])
    else [es[0]] + Essential(es[1..])
  }

  lemma TickTwice(c: Clock, mid: nat, now: nat)
    requires c.time <= mid <= now
    ensures TickTo(TickTo(c, mid), now) == TickTo(c, now)
  {
    Ticks(c, mid);
    Ticks(c, now);
    Ticks(TickTo(c, mid), now);
    assert PerSecond(c) * (now - c.time) == PerSecond(c) * (mid - c.time) + PerSecond(c) * (now - mid);
  }

  lemma {:induction false} ClockIgnoresTouches(c: Clock, from: nat, es: seq<Event>, e: Event)
    requires c.time <= from && InOrder(from, es + [e])
    ensures InOrder(from, Essential(es) + [e])
    ensures Chimes(c, Essential(es) + [e]) == Chimes(TickTo(c, from), es + [e])
    decreases |es|
  {
    if es == [] {
      assert es + [e] == [e] && Essential(es) + [e] == [e];
      TickTwice(c, from, e.at);
    } else {
      var rest := es[1..];
      assert (es + [e])[1..] == rest + [e];
      TickTwice(c, from, es[0].at);
      if es[0].Poke? || es[0].Settle? {
        ClockIgnoresTouches(c, es[0].at, rest, e);
        LaterStart(from, es[0].at, Essential(rest) + [e]);
      } else {
        var c' := Chime(c, es[0]);
        Ticks(c, es[0].at);
        ClockIgnoresTouches(c', es[0].at, rest, e);
        assert TickTo(c', es[0].at) == c';
        assert (Essential(es) + [e])[1..] == Essential(rest) + [e];
      }
    }
  }

  lemma LaterStart(from: nat, later: nat, es: seq<Event>)
    requires from <= later && InOrder(later, es)
    ensures InOrder(from, es)
  {
  }

  lemma {:induction false} EssentialKeeps(es: seq<Event>)
    ensures forall e <- Essential(es) :: e in es
    ensures Payments(Essential(es)) <= Payments(es)
  {
    if es != [] { EssentialKeeps(es[1..]); }
  }

  /** However often others touch the market and the position is settled in between, it pays the same in the end, but for
      the rounding of the payments. */
  lemma TouchesDoNotMatter(l: Ledger, c: Clock, es: seq<Event>, now: nat)
    requires SamePage(l, c) && l.fs.last == c.time && l.index == Index(l.fs, l.isLong) && l.paid == c.owed == 0
    requires InOrder(c.time, es + [Settle(now)]) && forall e <- es :: !e.Deleverage?
    ensures Abs(Run(l, es + [Settle(now)]).paid - Run(l, Essential(es) + [Settle(now)]).paid) * W <=
            2 * (Payments(es) + 1) * (W - 1)
  {
    hide SamePage, Run, Chimes, InOrder, Essential, Payments;
    EssentialKeeps(es);
    ClockIgnoresTouches(c, c.time, es, Settle(now));
    SettledRunPaysTheClock(l, c, es, now);
    SettledRunPaysTheClock(l, c, Essential(es), now);
  }

  // ---------------------------------------------------------------- where the books and the clock part

  /** A position recorded with an index nobody has accrued starts out behind by what the market had pending; it starts
      level exactly when there was nothing pending. */
  lemma StaleIndex(fs: FundingState, isLong: bool, size: nat, now: nat)
    requires Underway(fs, now)
    ensures var l, c := Ledger(fs, isLong, size, Index(fs, isLong), 0), Clock(now, fs.rate, isLong, size, 0);
            && Ahead(l, c) == (if isLong then size * (fs.rate * (now - fs.last))
                               else -(size * (fs.rate * (now - fs.last))))
            && (Ahead(l, c) == 0 <==> size == 0 || fs.rate == 0 || now == fs.last)
  {
    var pending := fs.rate * (now - fs.last);
    NonZero(fs.rate, now - fs.last);
    NonZero(size, pending);
    assert size * -pending == -(size * pending);
  }

  lemma NonZero(a: int, b: int)
    ensures a * b == 0 <==> a == 0 || b == 0
  {
  }

  /** Deleveraging alone is what lets funding lapse: exactly the pending part of what it takes away, which is nothing
      when the position has just been settled. */
  lemma DeleverageLapses(l: Ledger, at: nat, size: nat)
    requires size <= l.size && Underway(l.fs, at)
    ensures Lapsed(l, [Deleverage(at, size)]) * l.size == Pending(l, at) * (l.size - size)
    ensures Lapsed(Settled(l, at), [Deleverage(at, size)]) == 0
  {
    hide IndexNow, Accrue, MulFpSigned, Lapsed;
    var e := Deleverage(at, size);
    OneEvent(l, e);
    OneEvent(Settled(l, at), e);
    Commute(l.size - size, IndexNow(l.fs, l.isLong, at) - l.index, l.size);
    AccrueKeepsIndex(l.fs, at, at, l.isLong);
    Commute(l.size - size, 0, 0);
  }

  lemma Commute(a: int, b: int, c: int)
    ensures (a * b) * c == (c * b) * a
    ensures a * 0 == 0
  {
    assert (a * b) * c == a * (b * c) == (b * c) * a == (c * b) * a;
  }

  /** The payment shown before a settlement is the payment the settlement makes. */
  lemma PreviewIsCharge(l: Ledger, now: nat)
    requires Underway(l.fs, now)
    ensures MulFpSigned(l.size, IndexNow(l.fs, l.isLong, now) - l.index) == Settled(l, now).paid - l.paid
  {
    AccrueKeepsIndex(l.fs, now, now, l.isLong);
  }

  /** The two indexes of a market stay opposite. */
  lemma {:induction false} IndexesOpposite(l: Ledger, es: seq<Event>)
    requires l.fs.long + l.fs.short == 0
    ensures Run(l, es).fs.long + Run(l, es).fs.short == 0
    decreases |es|
  {
    if es != [] { IndexesOpposite(Step(l, es[0]), es[1..]); }
  }
}
