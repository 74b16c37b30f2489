/** Run and RunN: worker loops that share a countdown, a halt error and a cancellable context.
    Run is the case without a quota. */
module Scheduler {
  import opened Collections

  /** What one RunOnce call comes back with. */
  datatype Report = Empty | ShutDown | Processed | HaltError | OtherError

  /** Where a worker goroutine is: before the context check, inside RunOnce, in the 30-second wait
      after an empty queue, or gone. */
  datatype Loop = Checking | Crawling | Waiting | Gone

  datatype Pool = Pool(
    remaining: Option<int>,   // RunN's atomic counter
    cancelled: bool,          // the pool's own context
    halted: bool,             // haltErr is set
    loops: seq<Loop>,
    processed: nat,           // targets counted so far
    errors: nat,              // RunOnce calls that returned an error
    interrupted: bool)        // the caller's context was cancelled

  datatype Event =
    | Check(i: nat)
    | Return(i: nat, report: Report)
    | WakeUp(i: nat)
    | Interrupt

  predicate At(p: Pool, i: nat, l: Loop) {
    i < |p.loops| && p.loops[i] == l
  }

  /** RunOnce reports a shutdown only after its context was cancelled. */
  predicate Enabled(p: Pool, e: Event) {
    match e
    case Check(i) => At(p, i, Checking)
    case Return(i, report) => At(p, i, Crawling) && (report.ShutDown? ==> p.cancelled)
    case WakeUp(i) => At(p, i, Waiting)
    case Interrupt => true
  }

  function Step(p: Pool, e: Event): Pool {
    if !Enabled(p, e) then p
    else match e
      case Check(i) => p.(loops := p.loops[i := if p.cancelled then Gone else Crawling])
      case WakeUp(i) => p.(loops := p.loops[i := if p.cancelled then Gone else Checking])
      case Interrupt => p.(interrupted := true, cancelled := true)
      case Return(i, report) =>
        match report
        case Empty => p.(loops := p.loops[i := Waiting])
        case ShutDown => p.(loops := p.loops[i := Gone])
        case HaltError => p.(loops := p.loops[i := Gone], halted := true, cancelled := true, errors := p.errors + 1)
        case OtherError => p.(loops := p.loops[i := Gone], errors := p.errors + 1)
        case Processed =>
          var left := if p.remaining.Some? then Some(p.remaining.value - 1) else None;
          var done := left.Some? && left.value <= 0;
          p.(remaining := left, processed := p.processed + 1, cancelled := p.cancelled || done,
             loops := p.loops[i := if done then Gone else Checking])
  }

  function Run(p: Pool, es: seq<Event>): Pool
    decreases |es|
  {
    if es == [] then p else Step(Run(p, es[..|es| - 1]), es[|es| - 1])
  }

  function Start(workers: nat, total: Option<int>): Pool {
    Pool(total, false, false, seq(workers, _ => Checking), 0, 0, false)
  }

  /** The shared variables of a running pool, updated the way the worker loop does. */
  class WorkerPool {
    var remaining: Option<int>
    var cancelled: bool
    var halted: bool
    var loops: seq<Loop>
    ghost var processed: nat
    ghost var errors: nat
    ghost var interrupted: bool

    ghost function State(): Pool
      reads this
    {
      Pool(remaining, cancelled, halted, loops, processed, errors, interrupted)
    }

    constructor (workers: nat, total: Option<int>)
      ensures State() == Start(workers, total)
    {
      remaining, cancelled, halted := total, false, false;
      loops := seq(workers, _ => Checking);
      processed, errors, interrupted := 0, 0, false;
    }

    /** The top of the loop: leave if the context is cancelled, otherwise call RunOnce. */
    method CheckContext(i: nat)
      requires At(State(), i, Checking)
      modifies this
      ensures State() == Step(old(State()), Check(i))
      ensures State() == old(State()).(loops := old(loops)[i := if old(cancelled) then Gone else Crawling])
    {
      loops := loops[i := if cancelled then Gone else Crawling];
    }

    method HandleReport(i: nat, report: Report)
      requires Enabled(State(), Return(i, report))
      modifies this
      ensures State() == Step(old(State()), Return(i, report))
      ensures remaining == if report == Processed && old(remaining).Some? then Some(old(remaining).value - 1) else old(remaining)
      ensures var last := report == Processed && remaining.Some? && remaining.value <= 0;
              && (cancelled <==> old(cancelled) || report == HaltError || last)
              && (halted <==> old(halted) || report == HaltError)
              && loops == old(loops)[i := if report == Empty then Waiting
                                          else if report == Processed && !last then Checking else Gone]
    {
      if report == HaltError || report == OtherError {
        if report == HaltError {
          halted := true;
          cancelled := true;
        }
        errors := errors + 1;
        loops := loops[i := Gone];
        return;
      }
      if report == Empty {
        loops := loops[i := Waiting];
        return;
      }
      if report == ShutDown {
        loops := loops[i := Gone];
        return;
      }
      processed := processed + 1;
      if remaining.Some? {
        remaining := Some(remaining.value - 1);
        if remaining.value <= 0 {
          cancelled := true;
          loops := loops[i := Gone];
          return;
        }
      }
      loops := loops[i := Checking];
    }

    method FinishWait(i: nat)
      requires At(State(), i, Waiting)
      modifies this
      ensures State() == Step(old(State()), WakeUp(i))
      ensures State() == old(State()).(loops := old(loops)[i := if old(cancelled) then Gone else Checking])
    {
      loops := loops[i := if cancelled then Gone else Checking];
    }
  }

  // ------------------------------------------------------------------------- how many targets

  function Present(loops: seq<Loop>): set<nat> {
    set i | 0 <= i < |loops| && loops[i] != Gone
  }

  /** The countdown counts exactly; every target beyond the quota's last one cost a worker its
      place; and a worker is gone, or the context cancelled, only for one of the known reasons. */
  ghost predicate Inv(p: Pool, workers: nat, total: int) {
    && |p.loops| == workers
    && p.remaining == Some(total - p.processed)
    && (p.processed >= total ==> |Present(p.loops)| <= workers - (p.processed - (total - 1)))
    && (p.cancelled ==> p.interrupted || p.errors > 0 || p.processed >= total)
    && (forall i :: 0 <= i < workers && p.loops[i] == Gone ==> p.cancelled || p.errors > 0)
  }

  lemma StepKeeps(p: Pool, e: Event, workers: nat, total: int)
    requires Inv(p, workers, total) && total >= 1
    ensures Inv(Step(p, e), workers, total)
  {
    hide Present;
    if Enabled(p, e) && !e.Interrupt? {
      PresentUpdate(p.loops, e.i, Step(p, e).loops[e.i]);
      PresentSize(p.loops);
    }
  }

  lemma PresentUpdate(loops: seq<Loop>, i: nat, l: Loop)
    requires i < |loops| && loops[i] != Gone
    ensures |Present(loops[i := l])| == |Present(loops)| - if l == Gone then 1 else 0
  {
    assert i in Present(loops);
    if l == Gone {
      assert Present(loops[i := l]) == Present(loops) - {i};
    } else {
      assert Present(loops[i := l]) == Present(loops);
    }
  }

  lemma PresentSize(loops: seq<Loop>)
    ensures |Present(loops)| <= |loops|
  {
    var all := Span(0, |loops|);
    var ints := set i: int | i in all && loops[i] != Gone;
    SubsetSize(ints, all);
    AsInts(Present(loops), ints);
  }

  lemma {:induction false} AsInts(a: set<nat>, b: set<int>)
    requires forall i :: i in a ==> i in b
    ensures |a| <= |b|
    decreases |a|
  {
    if a != {} {
      var x := Pick(a);
      AsInts(a - {x}, b - {x});
    }
  }

  lemma {:induction false} RunKeeps(workers: nat, total: int, es: seq<Event>)
    requires total >= 1
    ensures Inv(Run(Start(workers, Some(total)), es), workers, total)
    decreases |es|
  {
    if es == [] {
      PresentSize(Start(workers, Some(total)).loops);
    } else {
      RunKeeps(workers, total, es[..|es| - 1]);
      StepKeeps(Run(Start(workers, Some(total)), es[..|es| - 1]), es[|es| - 1], workers, total);
    }
  }

  predicate AllGone(p: Pool) {
    forall i :: 0 <= i < |p.loops| ==> p.loops[i] == Gone
  }

  /** RunN(total) over every interleaving of its workers: never more than total + workers - 1
      targets, and at least total once it returns, unless a worker hit an error or the caller
      interrupted it. */
  lemma RunNCount(workers: nat, total: int, es: seq<Event>)
    requires workers >= 1 && total >= 1
    ensures var p := Run(Start(workers, Some(total)), es);
            && p.processed <= total + workers - 1
            && (AllGone(p) && p.errors == 0 && !p.interrupted ==> p.processed >= total)
  {
    RunKeeps(workers, total, es);
    var p := Run(Start(workers, Some(total)), es);
    if AllGone(p) {
      assert p.loops[0] == Gone;
    }
  }

  /** Not "exactly total": for every total and worker count some run reaches the bound. */
  lemma RunNOvershoots(workers: nat, total: int) returns (es: seq<Event>)
    requires workers >= 1 && total >= 1
    ensures AllGone(Run(Start(workers, Some(total)), es))
    ensures Run(Start(workers, Some(total)), es).processed == total + workers - 1
    ensures Run(Start(workers, Some(total)), es).errors == 0 && !Run(Start(workers, Some(total)), es).interrupted
  {
    es := AllButOne(workers, total, total - 1);
    var p := Pool(Some(1), false, false, seq(workers, _ => Checking), total - 1, 0, false);
    var entered := EnterAll(p, workers, workers);
    var q := p.(loops := seq(workers, _ => Crawling));
    var left := ReturnAll(q, workers, total, workers);
    RunConcat(Start(workers, Some(total)), es, entered);
    RunConcat(Start(workers, Some(total)), es + entered, left);
    es := es + entered + left;
  }

  /** Every way of finishing RunN(total) without errors or interruption. */
  ghost predicate FinishesClean(workers: nat, total: int, es: seq<Event>) {
    var p := Run(Start(workers, Some(total)), es);
    AllGone(p) && p.errors == 0 && !p.interrupted
  }

  /** The documented "exactly total" holds of all clean runs if and only if there is one worker. */
  lemma ExactIffAlone(workers: nat, total: int)
    requires workers >= 1 && total >= 1
    ensures (forall es :: FinishesClean(workers, total, es) ==> Run(Start(workers, Some(total)), es).processed == total)
            <==> workers == 1
  {
    if workers == 1 {
      forall es | FinishesClean(workers, total, es) ensures Run(Start(workers, Some(total)), es).processed == total {
        RunNCount(workers, total, es);
      }
    } else {
      var es := RunNOvershoots(workers, total);
      assert FinishesClean(workers, total, es);
    }
  }

  lemma {:induction false} RunConcat(p: Pool, a: seq<Event>, b: seq<Event>)
    ensures Run(p, a + b) == Run(Run(p, a), b)
    decreases |b|
  {
    if b == [] {
      assert a + b == a;
    } else {
      assert (a + b)[..|a + b| - 1] == a + b[..|b| - 1];
      RunConcat(p, a, b[..|b| - 1]);
    }
  }

  lemma RunSnoc(p: Pool, es: seq<Event>, e: Event)
    ensures Run(p, es + [e]) == Step(Run(p, es), e)
  {
    assert (es + [e])[..|es + [e]| - 1] == es;
  }

  /** One worker alone brings the countdown to one. */
  lemma {:induction false} AllButOne(workers: nat, total: int, n: nat) returns (es: seq<Event>)
    requires workers >= 1 && n < total
    ensures Run(Start(workers, Some(total)), es) ==
            Pool(Some(total - n), false, false, seq(workers, _ => Checking), n, 0, false)
  {
    if n == 0 {
      es := [];
    } else {
      var before := AllButOne(workers, total, n - 1);
      var start := Start(workers, Some(total));
      var p := Run(start, before);
      RunSnoc(start, before, Check(0));
      RunSnoc(start, before + [Check(0)], Return(0, Processed));
      es := before + [Check(0)] + [Return(0, Processed)];
      assert Run(start, es).loops == p.loops;
    }
  }

  /** All workers pass the context check and enter RunOnce. */
  lemma {:induction false} EnterAll(p: Pool, workers: nat, n: nat) returns (es: seq<Event>)
    requires p.loops == seq(workers, _ => Checking) && !p.cancelled && n <= workers
    ensures Run(p, es) == p.(loops := seq(workers, i => if i < n then Crawling else Checking))
    ensures n == workers ==> Run(p, es) == p.(loops := seq(workers, _ => Crawling))
  {
    if n == 0 {
      es := [];
      assert p.loops == seq(workers, i => if i < n then Crawling else Checking);
    } else {
      var before := EnterAll(p, workers, n - 1);
      RunSnoc(p, before, Check(n - 1));
      es := before + [Check(n - 1)];
      assert Run(p, es).loops == seq(workers, i => if i < n then Crawling else Checking);
    }
    assert n == workers ==> Run(p, es).loops == seq(workers, _ => Crawling);
  }

  /** All of them come back with a target, although the first one ends the countdown. */
  lemma {:induction false} ReturnAll(p: Pool, workers: nat, total: int, n: nat) returns (es: seq<Event>)
    requires workers >= 1 && n <= workers && p.loops == seq(workers, _ => Crawling) && p.remaining == Some(1)
    ensures var q := Run(p, es);
            && q.processed == p.processed + n && q.remaining == Some(1 - n)
            && q.errors == p.errors && q.interrupted == p.interrupted
            && q.loops == seq(workers, i => if i < n then Gone else Crawling)
            && (n == workers ==> AllGone(q))
  {
    if n == 0 {
      es := [];
      assert p.loops == seq(workers, i => if i < n then Gone else Crawling);
    } else {
      var before := ReturnAll(p, workers, total, n - 1);
      RunSnoc(p, before, Return(n - 1, Processed));
      es := before + [Return(n - 1, Processed)];
      assert Run(p, es).loops == seq(workers, i => if i < n then Gone else Crawling);
    }
  }

  // ---------------------------------------------------------------------- counts and cancellation

  /** How many RunOnce calls of the run came back with the report. */
  function Reports(p: Pool, es: seq<Event>, report: Report): nat
    decreases |es|
  {
    if es == [] then 0
    else
      var before, last := es[..|es| - 1], es[|es| - 1];
      Reports(p, before, report)
      + Comes(Run(p, before), last, report)
  }

  function Comes(p: Pool, e: Event, report: Report): nat {
    if e.Return? && e.report == report && Enabled(p, e) then 1 else 0
  }

  predicate Accounted(p: Pool, total: Option<int>, processed: nat, halts: nat, others: nat, interrupted: bool) {
    && p.processed == processed && p.errors == halts + others
    && (p.halted <==> halts > 0) && (p.interrupted <==> interrupted)
    && p.remaining == (if total.Some? then Some(total.value - processed) else None)
    && (p.cancelled <==> interrupted || halts > 0 || (total.Some? && processed > 0 && processed >= total.value))
  }

  lemma StepAccounts(p: Pool, e: Event, total: Option<int>, processed: nat, halts: nat, others: nat, interrupted: bool)
    requires Accounted(p, total, processed, halts, others, interrupted)
    ensures Accounted(Step(p, e), total, processed + Comes(p, e, Processed), halts + Comes(p, e, HaltError),
                      others + Comes(p, e, OtherError), interrupted || e == Interrupt)
  {}

  /** The pool counts what happened, and its context is cancelled for three reasons only: the caller
      interrupted it, some RunOnce returned the halt error, or the quota is used up.  Any other error ends
      its own worker and leaves the others running. */
  lemma CancelledIff(workers: nat, total: Option<int>, es: seq<Event>)
    ensures var start, p := Start(workers, total), Run(Start(workers, total), es);
            && p.processed == Reports(start, es, Processed)
            && p.errors == Reports(start, es, HaltError) + Reports(start, es, OtherError)
            && (p.halted <==> Reports(start, es, HaltError) > 0)
            && (p.interrupted <==> Interrupt in es)
            && p.remaining == (if total.Some? then Some(total.value - p.processed) else None)
            && (p.cancelled <==> Interrupt in es || Reports(start, es, HaltError) > 0
                                 || (total.Some? && p.processed > 0 && p.processed >= total.value))
  {
    RunAccounts(workers, total, es);
  }

  lemma {:induction false} RunAccounts(workers: nat, total: Option<int>, es: seq<Event>)
    ensures var start := Start(workers, total);
            Accounted(Run(start, es), total, Reports(start, es, Processed), Reports(start, es, HaltError),
                      Reports(start, es, OtherError), Interrupt in es)
    decreases |es|
  {
    if es != [] {
      hide Step, Accounted, Comes;
      var start, before, e := Start(workers, total), es[..|es| - 1], es[|es| - 1];
      RunAccounts(workers, total, before);
      StepAccounts(Run(start, before), e, total, Reports(start, before, Processed), Reports(start, before, HaltError),
                   Reports(start, before, OtherError), Interrupt in before);
      assert es == before + [e];
    }
  }

  // ------------------------------------------------------------------------------ global halt

  /** Event k of the run is a RunOnce call returning ErrGlobalHalt. */
  predicate HaltsAt(p: Pool, es: seq<Event>, k: nat) {
    k < |es| && es[k].Return? && es[k].report == HaltError && Enabled(Run(p, es[..k]), es[k])
  }

  /** Run and RunN return the halt error exactly when some RunOnce call did; and then the next
      context check of every worker, and the end of its wait, ends it. */
  lemma {:induction false} HaltIff(workers: nat, total: Option<int>, es: seq<Event>)
    ensures var start := Start(workers, total);
            && (Run(start, es).halted <==> exists k :: HaltsAt(start, es, k))
            && (Run(start, es).halted ==> Run(start, es).cancelled)
            && (Run(start, es).halted ==> forall i: nat ::
                  && (At(Run(start, es), i, Checking) ==> At(Step(Run(start, es), Check(i)), i, Gone))
                  && (At(Run(start, es), i, Waiting) ==> At(Step(Run(start, es), WakeUp(i)), i, Gone)))
    decreases |es|
  {
    var start := Start(workers, total);
    if es != [] {
      var before := es[..|es| - 1];
      HaltIff(workers, total, before);
      assert es[..|before|] == before;
      forall k | 0 <= k < |before| ensures HaltsAt(start, es, k) <==> HaltsAt(start, before, k) {
        assert es[..k] == before[..k];
      }
      if Run(start, es).halted && !Run(start, before).halted {
        assert HaltsAt(start, es, |before|);
      }
      if k: nat :| HaltsAt(start, es, k) {
        assert k < |before| ==> HaltsAt(start, before, k);
      }
    }
  }
}
