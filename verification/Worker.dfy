/** RunOnce as a state machine.  Any number of workers interleave over one crawl_targets table;
    every event below is one atomic step of one of them, of the clock, or of the caller.  The
    event carries whatever the step does not decide itself: an API reply, a database fault, the
    random draws.  An event that is not enabled changes nothing, so a run is any event sequence. */
module Worker {
  import opened Collections
  import opened CrawlQueue
  import opened Domain

  // ---------------------------------------------------------------------- profile and intervals

  const MAX_BACKOFF: Time := 7 * 24 * HOUR

  function BaseInterval(priority: int): Time {
    if priority <= 2 then 4 * HOUR else if priority <= 4 then 8 * HOUR
    else if priority <= 6 then 24 * HOUR else 72 * HOUR
  }

  function Pow2(n: nat): (p: nat)
    ensures p >= 1
  {
    if n == 0 then 1 else 2 * Pow2(n - 1)
  }

  function BackoffDuration(base: Time, n: nat): Time {
    var d := base * Pow2(n);
    if d > MAX_BACKOFF then MAX_BACKOFF else d
  }

  lemma BackoffRange(priority: int, n: nat)
    ensures BaseInterval(priority) <= BackoffDuration(BaseInterval(priority), n) <= MAX_BACKOFF
  {
    var base, p := BaseInterval(priority), Pow2(n);
    assert base * p >= base by {
      assert base * p == base + base * (p - 1);
      assert base * (p - 1) >= 0;
    }
  }

  /** The delay doubles with every failure until it reaches seven days. */
  lemma BackoffDoubles(base: Time, n: nat)
    requires base > 0
    ensures BackoffDuration(base, 0) == if base > MAX_BACKOFF then MAX_BACKOFF else base
    ensures var next := 2 * BackoffDuration(base, n);
            BackoffDuration(base, n + 1) == if next > MAX_BACKOFF then MAX_BACKOFF else next
  {
    assert base * Pow2(n + 1) == 2 * (base * Pow2(n));
    assert Pow2(0) == 1;
  }

  // --------------------------------------------------------------------------------- the machine

  datatype Stage =
    | FetchProfile
    | FetchLog(trophies: int)
    | CheckLease(trophies: int)
    | StoreProfile(trophies: int)
    | Classify(trophies: int)
    | StoreLog(sampledOut: bool, priority: int)
    | Finalize(params: FinalizeParams)

  datatype Flight = Flight(claim: Claim, stage: Stage)

  /** What has happened to one row, in commit order. */
  datatype Entry =
    | Discovered(at: Time)
    | Issued(generation: nat, at: Time)
    | Finished(generation: nat, status: Outcome, nextAt: Time, at: Time)
    | Displaced(at: Time)

  /** `flights` holds the claims of the workers inside RunOnce, `log` the history of every row,
      `rejected` the players whose rejection was committed but not yet finalized as sampled_out. */
  datatype World = World(
    cap: int,
    now: Time,
    cancelled: bool,
    rows: Table,
    flights: map<nat, Flight>,
    log: map<Tag, seq<Entry>>,
    rejected: set<Tag>)

  datatype Reply = Ok | KeyFailure | Missing | Throttled | Failed

  /** What the database reports for a transaction: success, a failure before commit, or a failed
      commit that may or may not have been applied. */
  datatype Fault = NoFault | RolledBack | LostCommit(applied: bool)

  datatype Event =
    | Tick(d: nat)
    | Cancel
    | Enqueue(t: Tag)
    | Take(w: nat, t: Tag, delivered: bool)
    | ProfileReply(w: nat, reply: Reply, trophies: int)
    | LogReply(w: nat, reply: Reply)
    | LeaseChecked(w: nat, dbOk: bool)
    | ProfileStored(w: nat, dbOk: bool)
    | Sampled(w: nat, u: real, victim: Option<Tag>, fault: Fault)
    | LogStored(w: nat, dbOk: bool)
    | Committed(w: nat, applied: bool)

  function Init(cap: int, now: Time): World {
    World(cap, now, false, map[], map[], map[], {})
  }

  function To(s: World, w: nat, stage: Stage): World
    requires w in s.flights
  {
    s.(flights := s.flights[w := s.flights[w].(stage := stage)])
  }

  /** RunOnce returns without another database call. */
  function Leave(s: World, w: nat): World {
    s.(flights := s.flights - {w})
  }

  function Record(s: World, t: Tag, rows: Table, e: Entry): World
    requires t in s.log
  {
    s.(rows := rows, log := s.log[t := s.log[t] + [e]])
  }

  function ApiErrorParams(c: Claim, reply: Reply, now: Time): FinalizeParams {
    match reply
    case Missing => FinalizeParams(c.tag, c.generation, NotFound, now + 24 * HOUR, c.failures, false)
    case Throttled => FinalizeParams(c.tag, c.generation, RateLimited, now + 5 * MINUTE, c.failures, true)
    case _ => TransientParams(c, now)
  }

  function TransientParams(c: Claim, now: Time): FinalizeParams {
    FinalizeParams(c.tag, c.generation, Error,
                   now + BackoffDuration(BaseInterval(c.priority), c.failures), c.failures + 1, true)
  }

  function FinalParams(c: Claim, sampledOut: bool, priority: int, now: Time): FinalizeParams {
    FinalizeParams(c.tag, c.generation, if sampledOut then SampledOut else Success,
                   now + BaseInterval(priority), 0, !sampledOut)
  }

  function ApiStep(s: World, w: nat, reply: Reply, next: Stage): World
    requires w in s.flights
  {
    match reply
    case Ok => To(s, w, next)
    case KeyFailure => Leave(s, w)  // ErrGlobalHalt
    case _ =>
      if s.cancelled then Leave(s, w)
      else To(s, w, Finalize(ApiErrorParams(s.flights[w].claim, reply, s.now)))
  }

  function TransientStep(s: World, w: nat): World
    requires w in s.flights
  {
    if s.cancelled then Leave(s, w)
    else To(s, w, Finalize(TransientParams(s.flights[w].claim, s.now)))
  }

  /** The committed effect of ClassifyAndSampleTarget for player t. */
  function SampleEffect(s: World, t: Tag, trophies: int, u: real, victim: Option<Tag>): World
    requires victim.Some? ==> victim.value in s.log
  {
    var b := BucketForTrophies(trophies);
    var classified := Classified(s.rows, t, b, PriorityForTrophies(trophies), trophies);
    var verdict := Decide(classified, t, b, s.cap, u);
    var s1 := s.(rows := Evicted(classified, victim),
                 rejected := if verdict.Reject? then s.rejected + {t} else s.rejected);
    if victim.Some? then s1.(log := s.log[victim.value := s.log[victim.value] + [Displaced(s.now)]]) else s1
  }

  function SampleVerdict(s: World, t: Tag, trophies: int, u: real): Verdict {
    var b := BucketForTrophies(trophies);
    Decide(Classified(s.rows, t, b, PriorityForTrophies(trophies), trophies), t, b, s.cap, u)
  }

  predicate SampleEnabled(s: World, t: Tag, trophies: int, u: real, victim: Option<Tag>) {
    var b := BucketForTrophies(trophies);
    && LegalVictim(Classified(s.rows, t, b, PriorityForTrophies(trophies), trophies), t, b, s.now,
                   SampleVerdict(s, t, trophies, u), victim)
    && (victim.Some? ==> victim.value in s.log)
  }

  function SampleStep(s: World, w: nat, u: real, victim: Option<Tag>, fault: Fault): World
    requires w in s.flights && s.flights[w].stage.Classify?
  {
    var c, trophies := s.flights[w].claim, s.flights[w].stage.trophies;
    var applied := fault.NoFault? || (fault.LostCommit? && fault.applied);
    var priority := if fault.NoFault? then PriorityForTrophies(trophies) else c.priority;
    if c.isClassified then
      var s1 := if applied
                then s.(rows := Profiled(s.rows, c.tag, PriorityForTrophies(trophies), trophies)) else s;
      if !fault.NoFault? && s.cancelled then Leave(s1, w) else To(s1, w, StoreLog(false, priority))
    else if !SampleEnabled(s, c.tag, trophies, u, victim) then s
    else
      var s1 := if applied then SampleEffect(s, c.tag, trophies, u, victim) else s;
      var sampledOut := SampleVerdict(s, c.tag, trophies, u).Reject? && !fault.RolledBack?;
      if !fault.NoFault? && s.cancelled then Leave(s1, w) else To(s1, w, StoreLog(sampledOut, priority))
  }

  function CommitStep(s: World, w: nat, applied: bool): World
    requires w in s.flights && s.flights[w].stage.Finalize?
  {
    var p := s.flights[w].stage.params;
    if applied && Owns(s.rows, p.tag, p.generation) && p.tag in s.log then
      var s1 := Record(s, p.tag, Finalized(s.rows, p, s.now),
                       Finished(p.generation, p.status, p.nextCrawlAt, s.now));
      Leave(s1.(rejected := if p.status.SampledOut? then s.rejected - {p.tag} else s.rejected), w)
    else Leave(s, w)
  }

  function Step(s: World, e: Event): World {
    match e
    case Tick(d) => s.(now := s.now + d)
    case Cancel => s.(cancelled := true)
    case Enqueue(t) =>
      if t in s.rows then s
      else s.(rows := Enqueued(s.rows, t, s.now), log := s.log[t := [Discovered(s.now)]])
    case Take(w, t, delivered) =>
      if w in s.flights || t !in ClaimableTags(s.rows, s.now) || t !in s.log then s
      else
        var c := ClaimOf(s.rows, t, s.now);
        var s1 := Record(s, t, Leased(s.rows, t, s.now), Issued(c.generation, s.now));
        if delivered then s1.(flights := s.flights[w := Flight(c, FetchProfile)]) else s1
    case ProfileReply(w, reply, trophies) =>
      if w in s.flights && s.flights[w].stage.FetchProfile?
      then ApiStep(s, w, reply, FetchLog(trophies)) else s
    case LogReply(w, reply) =>
      if w in s.flights && s.flights[w].stage.FetchLog?
      then ApiStep(s, w, reply, CheckLease(s.flights[w].stage.trophies)) else s
    case LeaseChecked(w, dbOk) =>
      if w in s.flights && s.flights[w].stage.CheckLease? then
        var c := s.flights[w].claim;
        if dbOk && OwnsLease(s.rows, c.tag, c.generation, s.now)
        then To(s, w, StoreProfile(s.flights[w].stage.trophies))
        else Leave(s, w)
      else s
    case ProfileStored(w, dbOk) =>
      if w in s.flights && s.flights[w].stage.StoreProfile?
      then if dbOk then To(s, w, Classify(s.flights[w].stage.trophies)) else TransientStep(s, w)
      else s
    case Sampled(w, u, victim, fault) =>
      if w in s.flights && s.flights[w].stage.Classify? then SampleStep(s, w, u, victim, fault) else s
    case LogStored(w, dbOk) =>
      if w in s.flights && s.flights[w].stage.StoreLog? then
        var f := s.flights[w];
        if dbOk then To(s, w, Finalize(FinalParams(f.claim, f.stage.sampledOut, f.stage.priority, s.now)))
        else TransientStep(s, w)
      else s
    case Committed(w, applied) =>
      if w in s.flights && s.flights[w].stage.Finalize? then CommitStep(s, w, applied) else s
  }

  function Run(s: World, es: seq<Event>): World
    decreases |es|
  {
    if es == [] then s else Step(Run(s, es[..|es| - 1]), es[|es| - 1])
  }

  lemma {:induction false} RunSplit(s: World, a: seq<Event>, b: seq<Event>)
    ensures Run(s, a + b) == Run(Run(s, a), b)
    decreases |b|
  {
    if b == [] {
      assert a + b == a;
    } else {
      assert (a + b)[..|a + b| - 1] == a + b[..|b| - 1];
      RunSplit(s, a, b[..|b| - 1]);
    }
  }

  // -------------------------------------------------------------------------- everybody else's events

  /** The worker whose step an event is, if any. */
  function Actor(e: Event): Option<nat> {
    match e
    case Tick(_) => None
    case Cancel => None
    case Enqueue(_) => None
    case Take(w, _, _) => Some(w)
    case ProfileReply(w, _, _) => Some(w)
    case LogReply(w, _) => Some(w)
    case LeaseChecked(w, _) => Some(w)
    case ProfileStored(w, _) => Some(w)
    case Sampled(w, _, _, _) => Some(w)
    case LogStored(w, _) => Some(w)
    case Committed(w, _) => Some(w)
  }

  predicate Foreign(es: seq<Event>, w: nat) {
    forall i :: 0 <= i < |es| ==> Actor(es[i]) != Some(w)
  }

  lemma ForeignStep(s: World, e: Event, w: nat)
    requires Actor(e) != Some(w)
    ensures w in Step(s, e).flights <==> w in s.flights
    ensures w in s.flights ==> Step(s, e).flights[w] == s.flights[w]
  {
    if e.Sampled? && e.w in s.flights && s.flights[e.w].stage.Classify? {
      SampleLeavesOthers(s, e.w, e.u, e.victim, e.fault, w);
    }
  }

  lemma SampleLeavesOthers(s: World, v: nat, u: real, victim: Option<Tag>, fault: Fault, w: nat)
    requires v in s.flights && s.flights[v].stage.Classify? && v != w
    ensures var s' := SampleStep(s, v, u, victim, fault);
            (w in s'.flights <==> w in s.flights) && (w in s.flights ==> s'.flights[w] == s.flights[w])
  {
    hide Decide, LegalVictim, Classified, Evicted;
  }

  lemma {:induction false} ForeignRun(s: World, es: seq<Event>, w: nat)
    requires Foreign(es, w)
    ensures w in Run(s, es).flights <==> w in s.flights
    ensures w in s.flights ==> Run(s, es).flights[w] == s.flights[w]
    decreases |es|
  {
    hide Step;
    if es != [] {
      ForeignRun(s, es[..|es| - 1], w);
      ForeignStep(Run(s, es[..|es| - 1]), es[|es| - 1], w);
    }
  }
}
