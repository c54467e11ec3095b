/**
 The time-weighted average price: the contracts' backward walk over the price history, against the plain mean of the
 price second by second.
 */
module Twap {
  import opened FixedPoint

  datatype PricePoint = PricePoint(price: nat, timestamp: nat)

  /** How many points the walk looks at. */
  const MAX_ITERATIONS: nat := 1000

  /** Points are pushed in the order of their blocks. */
  ghost predicate Chronological(h: seq<PricePoint>, now: nat) {
    && (forall i, j :: 0 <= i <= j < |h| ==> h[i].timestamp <= h[j].timestamp)
    && (forall i :: 0 <= i < |h| ==> h[i].timestamp <= now)
  }

  /** The price in force in second `t`: that of the last point not after it. */
  function PriceAt(h: seq<PricePoint>, t: nat): nat {
    if h == [] then 0
    else if h[|h| - 1].timestamp <= t then h[|h| - 1].price
    else PriceAt(h[..|h| - 1], t)
  }

  /** The sum of the prices of the seconds from `from` up to, not including, `until`. */
  function PriceSeconds(h: seq<PricePoint>, from: nat, until: nat): nat {
    if until <= from then 0 else PriceSeconds(h, from, until - 1) + PriceAt(h, until - 1)
  }

  function Max(a: nat, b: nat): nat {
    if a > b then a else b
  }

  function Oldest(h: seq<PricePoint>): nat
    requires h != []
    ensures Oldest(h) < |h|
  {
    if |h| > MAX_ITERATIONS then |h| - MAX_ITERATIONS else 0
  }

  function WindowStart(window: nat, now: nat): nat {
    if now > window then now - window else 0
  }

  /** The first second that counts: the window's, or that of the oldest point the walk reaches. */
  function Start(h: seq<PricePoint>, window: nat, now: nat): nat
    requires h != []
  {
    Max(WindowStart(window, now), h[Oldest(h)].timestamp)
  }

  /** The mean price of the counted seconds; the latest price if there are none. */
  function MeanPrice(h: seq<PricePoint>, window: nat, now: nat): nat {
    if h == [] then 0
    else
      var from := Start(h, window, now);
      if from >= now then h[|h| - 1].price else PriceSeconds(h, from, now) / (now - from)
  }

  lemma {:induction false} PriceInSegment(h: seq<PricePoint>, i: nat, t: nat, now: nat)
    requires Chronological(h, now) && i < |h| && h[i].timestamp <= t && (i + 1 < |h| ==> t < h[i + 1].timestamp)
    ensures PriceAt(h, t) == h[i].price
    decreases |h|
  {
    if i + 1 < |h| {
      assert t < h[|h| - 1].timestamp;
      PriceInSegment(h[..|h| - 1], i, t, now);
    }
  }

  lemma {:induction false} SegmentSeconds(h: seq<PricePoint>, i: nat, from: nat, until: nat, now: nat)
    requires Chronological(h, now) && i < |h| && h[i].timestamp <= from <= until
             && (i + 1 < |h| ==> until <= h[i + 1].timestamp)
    ensures PriceSeconds(h, from, until) == h[i].price * (until - from)
    decreases until
  {
    if from < until {
      SegmentSeconds(h, i, from, until - 1, now);
      PriceInSegment(h, i, until - 1, now);
      assert h[i].price * (until - from) == h[i].price * (until - 1 - from) + h[i].price;
    } else {
      assert h[i].price * 0 == 0;
    }
  }

  lemma {:induction false} SecondsJoin(h: seq<PricePoint>, from: nat, mid: nat, until: nat)
    requires from <= mid <= until
    ensures PriceSeconds(h, from, until) == PriceSeconds(h, from, mid) + PriceSeconds(h, mid, until)
    decreases until
  {
    if mid < until { SecondsJoin(h, from, mid, until - 1); }
  }

  lemma NoSeconds(h: seq<PricePoint>, now: nat)
    ensures PriceSeconds(h, now, now) == 0
  {
  }

  /** One point more on the way back. */
  lemma SegmentJoins(h: seq<PricePoint>, i: nat, windowStart: nat, end: nat, now: nat)
    requires Chronological(h, now) && i < |h| && end == if i + 1 < |h| then h[i + 1].timestamp else now
    ensures var from, later := Max(h[i].timestamp, windowStart), Max(end, windowStart);
            && (end > from ==>
                 PriceSeconds(h, from, now) == h[i].price * (end - from) + PriceSeconds(h, end, now) && later == end)
            && (end <= from ==> from == later)
  {
    var from := Max(h[i].timestamp, windowStart);
    if end > from {
      SegmentSeconds(h, i, from, end, now);
      SecondsJoin(h, from, end, now);
    }
  }

  /** Before the window there is nothing left to add. */
  lemma NothingEarlier(h: seq<PricePoint>, i: nat, j: nat, windowStart: nat, now: nat)
    requires Chronological(h, now) && j <= i < |h| && h[i].timestamp < windowStart
    ensures Max(h[j].timestamp, windowStart) == Max(h[i].timestamp, windowStart) == windowStart
  {
  }

  /** The walk computes the mean of the seconds. */
  method CalculateTWAP(h: seq<PricePoint>, window: nat, now: nat) returns (twap: nat)
    requires Chronological(h, now)
    ensures twap == MeanPrice(h, window, now)
  {
    hide PriceSeconds, PriceAt, MeanPrice;
    var len := |h|;
    if len == 0 {
      NoPoints(h, window, now);
      return 0;
    }
    if len == 1 {
      OnePoint(h, window, now);
      return h[0].price;
    }
    var windowStart := if now > window then now - window else 0;
    var weightedSum, totalWeight := 0, 0;
    var oldest := if len > MAX_ITERATIONS then len - MAX_ITERATIONS else 0;
    var i := len;
    ghost var from := now;
    NoSeconds(h, now);
    while i > oldest
      invariant oldest <= i <= len
      invariant from == Max(if i < len then h[i].timestamp else now, windowStart) <= now
      invariant totalWeight == now - from && weightedSum == PriceSeconds(h, from, now)
    {
      var point := h[i - 1];
      var endTime := if i < len then h[i].timestamp else now;
      SegmentJoins(h, i - 1, windowStart, endTime, now);
      if point.timestamp < windowStart {
        var relevant := if endTime > windowStart then endTime - windowStart else 0;
        if relevant > 0 {
          weightedSum := weightedSum + point.price * relevant;
          totalWeight := totalWeight + relevant;
        }
        NothingEarlier(h, i - 1, oldest, windowStart, now);
        from := windowStart;
        break;
      }
      var startTime := if point.timestamp > windowStart then point.timestamp else windowStart;
      var duration := if endTime > startTime then endTime - startTime else 0;
      if duration > 0 {
        weightedSum := weightedSum + point.price * duration;
        totalWeight := totalWeight + duration;
      }
      from := startTime;
      i := i - 1;
    }
    assert from == Start(h, window, now);
    MeanIs(h, window, now);
    if totalWeight == 0 { return h[len - 1].price; }
    twap := weightedSum / totalWeight;
  }

  lemma NoPoints(h: seq<PricePoint>, window: nat, now: nat)
    ensures h == [] ==> MeanPrice(h, window, now) == 0
  {
  }

  lemma MeanIs(h: seq<PricePoint>, window: nat, now: nat)
    requires h != []
    ensures Start(h, window, now) >= now ==> MeanPrice(h, window, now) == h[|h| - 1].price
    ensures Start(h, window, now) < now ==>
              MeanPrice(h, window, now) == PriceSeconds(h, Start(h, window, now), now) / (now - Start(h, window, now))
  {
  }

  lemma OnePoint(h: seq<PricePoint>, window: nat, now: nat)
    requires |h| == 1 && Chronological(h, now)
    ensures MeanPrice(h, window, now) == h[0].price
  {
    var from := Start(h, window, now);
    if from < now {
      SegmentSeconds(h, 0, from, now, now);
      ExactQuotient(h[0].price, now - from);
    }
  }

  /** The mean, over the seconds of the window that the last thousand points cover, rounded down. */
  lemma MeanIsAverage(h: seq<PricePoint>, window: nat, now: nat)
    requires h != [] && Chronological(h, now)
    ensures var first := h[if |h| > 1000 then |h| - 1000 else 0].timestamp;
            var from := if first + window < now then now - window else first;
            && (first == now || window == 0 ==> MeanPrice(h, window, now) == h[|h| - 1].price)
            && (first < now && window > 0 ==>
                  && from < now
                  && MeanPrice(h, window, now) * (now - from) <= PriceSeconds(h, from, now)
                     < (MeanPrice(h, window, now) + 1) * (now - from))
  {
    var from := Start(h, window, now);
    MeanIs(h, window, now);
    if from < now { RoundedDown(PriceSeconds(h, from, now), now - from); }
    StartIs(h, window, now);
    hide *;
  }

  lemma StartIs(h: seq<PricePoint>, window: nat, now: nat)
    requires h != [] && Chronological(h, now)
    ensures var first := h[if |h| > 1000 then |h| - 1000 else 0].timestamp;
            Start(h, window, now) == if first + window < now then now - window else first
    ensures Start(h, window, now) <= now
  {
  }

  lemma RoundedDown(sum: nat, count: nat)
    requires count > 0
    ensures sum / count * count <= sum < (sum / count + 1) * count
  {
    Ratio(sum, count, sum / count);
  }

  /** The mean lies between any bounds that all recorded prices respect. */
  lemma MeanWithinPrices(h: seq<PricePoint>, window: nat, now: nat, low: nat, high: nat)
    requires h != [] && Chronological(h, now) && forall p <- h :: low <= p.price <= high
    ensures low <= MeanPrice(h, window, now) <= high
  {
    var from := Start(h, window, now);
    if from < now {
      SecondsWithin(h, from, now, low, high, now);
      Quotient(PriceSeconds(h, from, now), now - from, low, high);
    }
  }

  lemma {:induction false} SecondsWithin(h: seq<PricePoint>, from: nat, until: nat, low: nat, high: nat, now: nat)
    requires h != [] && Chronological(h, now) && h[0].timestamp <= from <= until
    requires forall p <- h :: low <= p.price <= high
    ensures low * (until - from) <= PriceSeconds(h, from, until) <= high * (until - from)
    decreases until
  {
    if from < until {
      SecondsWithin(h, from, until - 1, low, high, now);
      PriceWithin(h, until - 1, low, high);
      assert low * (until - from) == low * (until - 1 - from) + low
        && high * (until - from) == high * (until - 1 - from) + high;
    } else {
      assert low * 0 == 0 && high * 0 == 0;
    }
  }

  lemma {:induction false} PriceWithin(h: seq<PricePoint>, t: nat, low: nat, high: nat)
    requires h != [] && h[0].timestamp <= t && forall p <- h :: low <= p.price <= high
    ensures low <= PriceAt(h, t) <= high
    decreases |h|
  {
    if h[|h| - 1].timestamp > t { PriceWithin(h[..|h| - 1], t, low, high); }
  }

  lemma Quotient(sum: nat, count: nat, low: nat, high: nat)
    requires count > 0 && low * count <= sum <= high * count
    ensures low <= sum / count <= high
  {
    var q := sum / count;
    Ratio(sum, count, q);
    Cancel(low, q + 1, count);
    Cancel(q, high, count);
  }
}
