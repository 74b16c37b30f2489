/** The outbound request pacer: one slot per interval, callers serialised by a mutex. */
module Pacer {
  import opened Collections

  const MINUTE: int := 60_000_000_000  // nanoseconds

  /** The slots handed out to calls arriving at `nows`, in the order they take the mutex. */
  function Slots(nows: seq<int>, interval: int): (s: seq<int>)
    ensures |s| == |nows|
  {
    if nows == [] then []
    else
      var before := Slots(nows[..|nows| - 1], interval);
      before + [NextSlot(before, nows[|nows| - 1], interval)]
  }

  function NextSlot(before: seq<int>, now: int, interval: int): int {
    if before != [] && before[|before| - 1] + interval > now
    then before[|before| - 1] + interval
    else now
  }

  /** The pacer object.  `calls` records the arrival times so far; Go's zero `last` lies further in the past than any interval reaches. */
  class Limiter {
    const interval: int
    var last: int
    ghost var calls: seq<int>

    ghost predicate Valid()
      reads this
    {
      && 0 <= interval <= MINUTE
      && (calls == [] ==> last == 0)
      && (calls != [] ==> last == Slots(calls, interval)[|calls| - 1])
    }

    constructor (ratePerMin: int)
      requires ratePerMin > 0  // zero divides by zero, and the callers pass at least one
      ensures Valid() && calls == [] && interval == MINUTE / ratePerMin
      ensures interval == 60_000_000_000 / ratePerMin
    {
      interval := MINUTE / ratePerMin;
      last := 0;
      calls := [];
      new;
      QuotientAtMost(ratePerMin);
    }

    /** Grants the caller arriving at `now` the slot `now + wait`.  A caller whose context is
        cancelled before its slot comes gets an error, and its slot stays spent. */
    method Wait(now: int, cancelled: bool) returns (wait: int, ok: bool)
      requires Valid()
      requires now >= MINUTE  // the wall clock is past the first minute of year one
      modifies this
      ensures Valid() && calls == old(calls) + [now]
      ensures wait >= 0 && (ok <==> wait == 0 || !cancelled)
      ensures now + wait == Slots(calls, interval)[|calls| - 1]
    {
      var next := last + interval;
      wait := 0;
      if next > now {
        wait := next - now;
        last := next;
      } else {
        last := now;
      }
      calls := calls + [now];
      assert calls[..|calls| - 1] == old(calls);
      ok := wait <= 0 || !cancelled;
    }
  }

  lemma QuotientAtMost(rate: int)
    requires rate > 0
    ensures 0 <= MINUTE / rate <= MINUTE
  {
    DivMod(MINUTE, rate);
    var q := MINUTE / rate;
    if q > MINUTE {
      Product(q, rate);
    }
    if q < 0 {
      NegProduct(q, rate);
    }
  }

  lemma DivMod(a: int, b: int)
    requires b > 0
    ensures a == (a / b) * b + a % b && 0 <= a % b < b
  {}

  lemma Product(q: int, r: int)
    requires q >= 0 && r > 0
    ensures q * r >= q
  {}

  lemma NegProduct(q: int, r: int)
    requires q < 0 && r > 0
    ensures q * r <= -r
  {}

  // ---------------------------------------------------------------- closed form and leastness

  /** What a caller arriving j calls ago forces on slot k: its own time plus one interval a call. */
  function Demand(nows: seq<int>, interval: int, j: nat, k: nat): int
    requires j <= k < |nows|
  {
    nows[j] + (k - j) * interval
  }

  lemma SlotsPrefix(nows: seq<int>, interval: int, k: nat)
    requires k <= |nows|
    ensures Slots(nows[..k], interval) == Slots(nows, interval)[..k]
  {
    if k < |nows| {
      assert nows[..|nows| - 1][..k] == nows[..k];
      SlotsPrefix(nows[..|nows| - 1], interval, k);
    } else {
      assert nows[..k] == nows;
    }
  }

  lemma SlotStep(nows: seq<int>, interval: int, k: nat)
    requires k < |nows|
    ensures k == 0 ==> Slots(nows, interval)[0] == nows[0]
    ensures k > 0 ==> Slots(nows, interval)[k] ==
                      if Slots(nows, interval)[k - 1] + interval > nows[k]
                      then Slots(nows, interval)[k - 1] + interval else nows[k]
  {
    SlotsPrefix(nows, interval, k + 1);
    SlotsPrefix(nows, interval, k);
    assert nows[..k + 1][..k] == nows[..k];
  }

  /** The k-th slot is the greatest demand of calls 0..k: an upper bound of them all, and one of them. */
  lemma {:induction false} ClosedForm(nows: seq<int>, interval: int, k: nat)
    requires k < |nows|
    ensures forall j: nat :: j <= k ==> Demand(nows, interval, j, k) <= Slots(nows, interval)[k]
    ensures exists j: nat :: j <= k && Demand(nows, interval, j, k) == Slots(nows, interval)[k]
  {
    SlotStep(nows, interval, k);
    if k == 0 {
      assert Demand(nows, interval, 0, 0) == Slots(nows, interval)[0];
    } else {
      ClosedForm(nows, interval, k - 1);
      forall j: nat | j < k
        ensures Demand(nows, interval, j, k) == Demand(nows, interval, j, k - 1) + interval
      {
        assert (k - j) * interval == (k - 1 - j) * interval + interval;
      }
      assert Demand(nows, interval, k, k) == nows[k];
      var i: nat :| i <= k - 1 && Demand(nows, interval, i, k - 1) == Slots(nows, interval)[k - 1];
      assert Demand(nows, interval, i, k) == Slots(nows, interval)[k - 1] + interval;
    }
  }

  /** A schedule that starts nobody before its call and spaces consecutive starts by the interval. */
  predicate Admissible(nows: seq<int>, interval: int, f: seq<int>) {
    && |f| == |nows|
    && (forall k :: 0 <= k < |f| ==> nows[k] <= f[k])
    && (forall k :: 0 < k < |f| ==> f[k - 1] + interval <= f[k])
  }

  /** The pacer's schedule is admissible, and pointwise least among all admissible schedules. */
  lemma {:induction false} LeastSchedule(nows: seq<int>, interval: int, f: seq<int>)
    ensures Admissible(nows, interval, Slots(nows, interval))
    ensures Admissible(nows, interval, f) ==>
              forall k :: 0 <= k < |nows| ==> Slots(nows, interval)[k] <= f[k]
  {
    forall k | 0 <= k < |nows|
      ensures nows[k] <= Slots(nows, interval)[k]
      ensures k > 0 ==> Slots(nows, interval)[k - 1] + interval <= Slots(nows, interval)[k]
    {
      SlotStep(nows, interval, k);
    }
    if Admissible(nows, interval, f) {
      forall k | 0 <= k < |nows| ensures Slots(nows, interval)[k] <= f[k] {
        BelowAdmissible(nows, interval, f, k);
      }
    }
  }

  lemma {:induction false} BelowAdmissible(nows: seq<int>, interval: int, f: seq<int>, k: nat)
    requires Admissible(nows, interval, f) && k < |nows|
    ensures Slots(nows, interval)[k] <= f[k]
  {
    SlotStep(nows, interval, k);
    if k > 0 {
      BelowAdmissible(nows, interval, f, k - 1);
    }
  }

  // ------------------------------------------------------------------------- rate per minute

  /** The slots of the half-open minute starting at x. */
  function InMinute(slots: seq<int>, x: int): set<int> {
    set k | 0 <= k < |slots| && x <= slots[k] < x + MINUTE
  }

  function CeilDiv(a: int, b: int): int
    requires b > 0
  {
    (a + b - 1) / b
  }

  lemma {:induction false} Spread(nows: seq<int>, interval: int, i: nat, j: nat)
    requires i <= j < |nows|
    ensures Slots(nows, interval)[j] >= Slots(nows, interval)[i] + (j - i) * interval
    decreases j - i
  {
    if i < j {
      SlotStep(nows, interval, j);
      Spread(nows, interval, i, j - 1);
      assert (j - i) * interval == (j - 1 - i) * interval + interval;
    }
  }

  /** No half-open minute of any schedule holds more than ceil(minute / interval) slots. */
  lemma {:induction false} MinuteBound(nows: seq<int>, interval: int, x: int)
    requires interval > 0
    ensures |InMinute(Slots(nows, interval), x)| <= CeilDiv(MINUTE, interval)
  {
    var slots := Slots(nows, interval);
    var inside := InMinute(slots, x);
    var bound := CeilDiv(MINUTE, interval);
    DivMod(MINUTE + interval - 1, interval);
    assert bound * interval >= MINUTE;
    if bound < 0 {
      NegProduct(bound, interval);
    }
    if inside != {} {
      LeastExists(inside);
      var first :| first in inside && forall k :: k in inside ==> first <= k;
      forall k | k in inside ensures first <= k < first + bound {
        Spread(nows, interval, first, k);
        if k >= first + bound {
          Scale(bound, k - first, interval);
        }
      }
      SubsetSize(inside, Span(first, bound));
    }
  }

  lemma Scale(a: int, b: int, c: int)
    requires a <= b && c >= 0
    ensures a * c <= b * c
  {}

  /** The configured rate is exceeded by at most one slot a minute, up to 244948 requests a minute
      (where the rate still fits into its own interval). */
  lemma RateBound(nows: seq<int>, rate: int, x: int)
    requires 0 < rate <= MINUTE / rate
    ensures |InMinute(Slots(nows, MINUTE / rate), x)| <= rate + 1
  {
    var interval := MINUTE / rate;
    MinuteBound(nows, interval, x);
    DivMod(MINUTE, rate);
    DivMod(MINUTE + interval - 1, interval);
    var bound := CeilDiv(MINUTE, interval);
    assert (rate + 2) * interval == rate * interval + 2 * interval;
    if bound >= rate + 2 {
      Scale(rate + 2, bound, interval);
    }
  }

  ghost predicate NeverExceeds(rate: int)
    requires rate > 0
  {
    forall nows: seq<int>, x: int :: |InMinute(Slots(nows, MINUTE / rate), x)| <= rate
  }

  /** The documented limit, at most `rate` requests in every minute, holds for all arrival
      patterns exactly when the rate divides the nanoseconds of a minute. */
  lemma RateKeptIffItDivides(rate: int)
    requires rate > 0
    ensures NeverExceeds(rate) <==> MINUTE % rate == 0
  {
    var interval := MINUTE / rate;
    DivMod(MINUTE, rate);
    QuotientAtMost(rate);
    if MINUTE % rate == 0 {
      assert interval > 0;
      forall nows: seq<int>, x: int ensures |InMinute(Slots(nows, interval), x)| <= rate {
        MinuteBound(nows, interval, x);
        DivMod(MINUTE + interval - 1, interval);
        assert (rate + 1) * interval == rate * interval + interval;
        if CeilDiv(MINUTE, interval) >= rate + 1 {
          Scale(rate + 1, CeilDiv(MINUTE, interval), interval);
        }
      }
    } else {
      var burst := seq(rate + 1, _ => MINUTE);
      forall k: nat | k <= rate ensures k in InMinute(Slots(burst, interval), MINUTE) {
        BurstSlot(rate, interval, k);
        Scale(k, rate, interval);
      }
      SubsetSize(Span(0, rate + 1), InMinute(Slots(burst, interval), MINUTE));
      assert |InMinute(Slots(burst, MINUTE / rate), MINUTE)| > rate;
    }
  }

  /** Calls arriving together are served one interval apart. */
  lemma {:induction false} BurstSlot(rate: int, interval: int, k: nat)
    requires rate > 0 && k <= rate && interval >= 0
    ensures Slots(seq(rate + 1, _ => MINUTE), interval)[k] == MINUTE + k * interval
  {
    var burst := seq(rate + 1, _ => MINUTE);
    SlotStep(burst, interval, k);
    if k > 0 {
      BurstSlot(rate, interval, k - 1);
      assert k * interval == (k - 1) * interval + interval;
    }
  }
}
