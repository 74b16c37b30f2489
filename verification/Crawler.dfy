/** RunOnce as the sequential code one worker executes, with everybody else acting between its
    statements.  Each execution is proved to be a run of the machine in module Worker, so what is
    proved of all runs holds of all interleavings of this code. */
module Crawler {
  import opened Collections
  import opened CrawlQueue
  import opened Domain
  import opened Worker
  import opened Leases
  import opened Fingerprint
  import opened Ingestion
  import opened BattleLog
  import Discovery

  /** The limits of discovery; 0 means unlimited. */
  datatype WorkerConfig = WorkerConfig(maxDiscoveriesPerCrawl: int, maxActiveTargets: int)

  /** What is decided elsewhere: the others' events before each step, what they store before each
      entry of the battle log, API replies, database faults, row locks and the random draw.
      entryDb(i)(k) says whether statement k of entry i is carried out.  A pacer wait that sees the
      context cancelled counts as a failed reply. */
  datatype Script = Script(
    others: nat -> seq<Event>,
    claimFault: Fault,
    locked: set<Tag>,
    profileReply: Reply,
    trophies: int,
    logReply: Reply,
    leaseDb: bool,
    profileDb: bool,
    u: real,
    sampleFault: Fault,
    countDb: bool,
    entries: seq<BattleEntry>,
    writes: nat -> seq<Write>,
    entryDb: nat -> nat -> bool,
    finalApplied: bool)

  function LogOf(s: Script, tag: Tag): Log {
    Log(s.entries, NormalizeTag(tag), s.writes, s.entryDb)
  }

  datatype WorkResult =
    | Crawled(tag: Tag, status: Outcome, battlesNew: nat, discoveries: nat)
    | Empty
    | OwnershipLost
    | Shutdown
    | GlobalHalt
    | ClaimFailed
    | CheckFailed

  /** What an API reply other than Ok leads to; a shutdown is reported only after a cancellation. */
  predicate ReplyReported(reply: Reply, cancelled: bool, r: WorkResult) {
    && (r.Shutdown? ==> cancelled && reply != KeyFailure)
    && match reply
       case Ok => false
       case KeyFailure => r.GlobalHalt?
       case Missing => r.Shutdown? || (r.Crawled? && r.status == NotFound && r.battlesNew == 0 && r.discoveries == 0)
       case Throttled => r.Shutdown? || (r.Crawled? && r.status == RateLimited && r.battlesNew == 0 && r.discoveries == 0)
       case Failed => r.Shutdown? || (r.Crawled? && r.status == Outcome.Error && r.battlesNew == 0 && r.discoveries == 0)
  }

  /** What a claim whose lease held at the check leads to. */
  ghost predicate StorageReported(s: Script, t: Tables, cancelled: bool, r: WorkResult) {
    && (r.Shutdown? ==> cancelled) && (r.Shutdown? || r.Crawled?)
    && (r.Crawled? ==>
          && (r.status == Outcome.Error || r.status == Success || r.status == SampledOut)
          && (r.status == Outcome.Error <==> !s.profileDb || !AllComplete(LogOf(s, r.tag), t, |s.entries|))
          && (r.status == Outcome.Error ==> r.battlesNew == 0 && r.discoveries == 0))
  }

  /** What RunOnce returns, decided by the first thing that fails. */
  ghost predicate Reported(s: Script, t: Tables, cancelled: bool, r: WorkResult) {
    if s.claimFault != NoFault then r.ClaimFailed? || (r.Shutdown? && cancelled)
    else if r.Empty? then true
    else if s.profileReply != Ok then ReplyReported(s.profileReply, cancelled, r)
    else if s.logReply != Ok then ReplyReported(s.logReply, cancelled, r)
    else if !s.leaseDb then r.CheckFailed? || (r.Shutdown? && cancelled)
    else r.OwnershipLost? || StorageReported(s, t, cancelled, r)
  }

  /** Worker w finalizes nothing. */
  predicate Quiet(es: seq<Event>, w: nat) {
    forall i :: 0 <= i < |es| ==> !(es[i].Committed? && es[i].w == w)
  }

  /** Worker w's one finalization is the last event, and it is for the given player and outcome. */
  ghost predicate EndsFinalizing(start: World, es: seq<Event>, w: nat, tag: Tag, status: Outcome) {
    && es != [] && es[|es| - 1].Committed? && es[|es| - 1].w == w
    && Quiet(es[..|es| - 1], w)
    && var s := Run(start, es[..|es| - 1]);
    && w in s.flights && s.flights[w].stage.Finalize?
    && s.flights[w].stage.params.tag == tag && s.flights[w].stage.params.status == status
  }

  // ------------------------------------------------------- the machine's steps, one event at a time

  lemma RepliesStep(s: World, w: nat, reply: Reply, trophies: int)
    requires w in s.flights
    ensures s.flights[w].stage.FetchProfile? ==>
              Step(s, ProfileReply(w, reply, trophies)) == ApiStep(s, w, reply, FetchLog(trophies))
    ensures s.flights[w].stage.FetchLog? ==>
              Step(s, LogReply(w, reply)) == ApiStep(s, w, reply, CheckLease(s.flights[w].stage.trophies))
  {}

  lemma StorageSteps(s: World, w: nat, ok: bool)
    requires w in s.flights
    ensures s.flights[w].stage.CheckLease? ==>
              var c := s.flights[w].claim;
              Step(s, LeaseChecked(w, ok)) == if ok && OwnsLease(s.rows, c.tag, c.generation, s.now)
                                              then To(s, w, StoreProfile(s.flights[w].stage.trophies)) else Leave(s, w)
    ensures s.flights[w].stage.StoreProfile? ==>
              Step(s, ProfileStored(w, ok)) == if ok then To(s, w, Classify(s.flights[w].stage.trophies))
                                               else TransientStep(s, w)
    ensures s.flights[w].stage.StoreLog? ==>
              var f := s.flights[w];
              Step(s, LogStored(w, ok))
              == if ok then To(s, w, Finalize(FinalParams(f.claim, f.stage.sampledOut, f.stage.priority, s.now)))
                 else TransientStep(s, w)
  {}

  lemma InFlightRow(s: World, w: nat)
    requires Inv(s) && w in s.flights
    ensures s.flights[w].claim.tag in s.rows
  {
    assert FlightOk(s.flights[w], s.rows, s.log, s.now);
  }

  lemma CommittedStep(s: World, w: nat, applied: bool)
    requires Inv(s) && w in s.flights && s.flights[w].stage.Finalize?
    ensures var s' := Step(s, Committed(w, applied));
            && w !in s'.flights
            && s'.rows == if applied then Finalized(s.rows, s.flights[w].stage.params, s.now) else s.rows
  {
    var f := s.flights[w];
    assert FlightOk(f, s.rows, s.log, s.now);
    assert f.stage.params.tag in s.log;
  }

  lemma SampledStep(s: World, w: nat, u: real, victim: Option<Tag>, fault: Fault)
    requires Inv(s) && w in s.flights && s.flights[w].stage.Classify?
    requires var f := s.flights[w];
             if f.claim.isClassified then victim.None?
             else LegalVictim(Classified(s.rows, f.claim.tag, BucketForTrophies(f.stage.trophies),
                                         PriorityForTrophies(f.stage.trophies), f.stage.trophies),
                              f.claim.tag, BucketForTrophies(f.stage.trophies), s.now,
                              SampleVerdict(s, f.claim.tag, f.stage.trophies, u), victim)
    ensures var f, s' := s.flights[w], Step(s, Sampled(w, u, victim, fault));
            var trophies, priority := f.stage.trophies, PriorityForTrophies(f.stage.trophies);
            var applied := fault.NoFault? || (fault.LostCommit? && fault.applied);
            var sampledOut := !f.claim.isClassified && SampleVerdict(s, f.claim.tag, trophies, u).Reject? && !fault.RolledBack?;
            && s'.cancelled == s.cancelled
            && s'.rows == (if !applied then s.rows
                           else if f.claim.isClassified then Profiled(s.rows, f.claim.tag, priority, trophies)
                           else Evicted(Classified(s.rows, f.claim.tag, BucketForTrophies(trophies), priority, trophies), victim))
            && (if !fault.NoFault? && s.cancelled then w !in s'.flights
                else w in s'.flights && s'.flights[w]
                     == Flight(f.claim, StoreLog(sampledOut, if fault.NoFault? then priority else f.claim.priority)))
  {
    hide Decide, BucketForTrophies, PriorityForTrophies, FlightsOk, ClaimsDiffer, RowOk;
    var f := s.flights[w];
    if victim.Some? {
      VictimStored(s, f.claim.tag, f.stage.trophies, u, victim);
    }
  }

  lemma VictimStored(s: World, t: Tag, trophies: int, u: real, victim: Option<Tag>)
    requires Inv(s) && victim.Some?
    requires LegalVictim(Classified(s.rows, t, BucketForTrophies(trophies), PriorityForTrophies(trophies), trophies),
                         t, BucketForTrophies(trophies), s.now, SampleVerdict(s, t, trophies, u), victim)
    ensures victim.value in s.log
  {
    hide Decide, BucketForTrophies, PriorityForTrophies, FlightsOk, ClaimsDiffer, RowOk;
  }

  function Enqueues(ts: seq<Tag>): seq<Event> {
    seq(|ts|, i requires 0 <= i < |ts| => Event.Enqueue(ts[i]))
  }

  /** What one ingestion enqueues, as events of the machine. */
  lemma {:induction false} EnqueuesRun(s: World, ts: seq<Tag>)
    ensures var s' := Run(s, Enqueues(ts));
            && s'.rows == EnqueuedAll(s.rows, ts, s.now)
            && s'.flights == s.flights && s'.cancelled == s.cancelled && s'.now == s.now
    decreases |ts|
  {
    if ts != [] {
      var es := Enqueues(ts);
      assert es[..|es| - 1] == Enqueues(ts[..|ts| - 1]);
      EnqueuesRun(s, ts[..|ts| - 1]);
    }
  }

  lemma StepKeepsRows(s: World, e: Event)
    ensures s.rows.Keys <= Step(s, e).rows.Keys
  {
    hide Decide, LegalVictim, BackoffDuration, BaseInterval, PriorityForTrophies, BucketForTrophies;
  }

  lemma {:induction false} RunKeepsRows(s: World, es: seq<Event>)
    ensures s.rows.Keys <= Run(s, es).rows.Keys
    decreases |es|
  {
    hide Step;
    if es != [] {
      RunKeepsRows(s, es[..|es| - 1]);
      StepKeepsRows(Run(s, es[..|es| - 1]), es[|es| - 1]);
    }
  }

  lemma {:induction false} RunStaysCancelled(s: World, es: seq<Event>)
    ensures s.cancelled ==> Run(s, es).cancelled
    decreases |es|
  {
    hide Step;
    if es != [] {
      RunStaysCancelled(s, es[..|es| - 1]);
      StepStaysCancelled(Run(s, es[..|es| - 1]), es[|es| - 1]);
    }
  }

  lemma StepStaysCancelled(s: World, e: Event)
    ensures s.cancelled ==> Step(s, e).cancelled
  {
    hide Decide, LegalVictim, Classified, Evicted, BackoffDuration, BaseInterval;
  }

  lemma LaterRows(start: World, early: seq<Event>, late: seq<Event>)
    requires early <= late
    ensures Run(start, early).rows.Keys <= Run(start, late).rows.Keys
  {
    assert late == early + late[|early|..];
    RunSplit(start, early, late[|early|..]);
    RunKeepsRows(Run(start, early), late[|early|..]);
  }

  lemma TakeStep(s: World, w: nat, t: Tag, delivered: bool)
    requires Inv(s) && w !in s.flights && t in ClaimableTags(s.rows, s.now)
    ensures var s' := Step(s, Take(w, t, delivered));
            && s'.rows == Leased(s.rows, t, s.now) && s'.cancelled == s.cancelled && s'.now == s.now
            && s'.flights == if delivered then s.flights[w := Flight(ClaimOf(s.rows, t, s.now), FetchProfile)] else s.flights
  {}

  /** Why a finished crawl has the status it reports. */
  predicate Told(s: Script, r: WorkResult) {
    r.Crawled? ==>
      match r.status
      case NotFound => Missing in {s.profileReply, s.logReply}
      case RateLimited => Throttled in {s.profileReply, s.logReply}
      case Error => true
      case _ => s.profileReply == Ok && s.logReply == Ok
  }

  /** The targets a crawl added to the queue: each once, never the player himself, none of them there
      before, and within a positive budget. */
  ghost predicate NewTargets(found: seq<Tag>, tag: Tag, max: int, before: Table, after: Table) {
    && (forall i, j :: 0 <= i < j < |found| ==> found[i] != found[j])
    && (forall i :: 0 <= i < |found| ==> found[i] != NormalizeTag(tag) && found[i] !in before && found[i] in after)
    && (max > 0 ==> |found| <= max)
  }

  /** The budget follows from the number of active targets in some state of the crawl. */
  ghost predicate CeilingRead(start: World, es: seq<Event>, config: WorkerConfig, dbOk: bool, max: int) {
    exists k :: 0 <= k <= |es| && max == LimitAt(Run(start, es[..k]).rows, config, dbOk)
  }

  function LimitAt(rows: Table, config: WorkerConfig, dbOk: bool): int {
    Discovery.CrawlBudget(config.maxDiscoveriesPerCrawl, config.maxActiveTargets,
                          if dbOk then Some(|ActiveTargets(rows)|) else None)
  }

  lemma NothingFound(b: Budget, d: Desk)
    requires d.count == 0 && d.found == []
    ensures Discovery.Accounted(b, d.targets, {}, d)
  {
    assert Discovery.Elements([]) == {};
  }

  lemma FoundTargets(b: Budget, others: set<Tag>, d: Desk, tag: Tag, before: Table, after: Table)
    requires Discovery.Accounted(b, before.Keys, others, d)
    requires b.discoverer == NormalizeTag(tag) && d.targets == after.Keys
    ensures d.count == |d.found| && NewTargets(d.found, tag, b.max, before, after)
  {
    hide NormalizeTag;
    assert forall i :: 0 <= i < |d.found| ==> d.found[i] in Discovery.Elements(d.found);
  }

  /** What was found stays in the queue until the crawl returns. */
  lemma StillFound(start: World, read: seq<Event>, stored: seq<Event>, es: seq<Event>, found: seq<Tag>, tag: Tag,
                   max: int, config: WorkerConfig, dbOk: bool)
    requires read <= stored <= es && max == LimitAt(Run(start, read).rows, config, dbOk)
    requires NewTargets(found, tag, max, Run(start, read).rows, Run(start, stored).rows)
    ensures NewTargets(found, tag, max, start.rows, Run(start, es).rows) && CeilingRead(start, es, config, dbOk, max)
  {
    hide Run, LimitAt, NormalizeTag;
    LaterRows(start, stored, es);
    LaterRows(start, [], read);
    assert Run(start, []) == start by { EmptyRun(start); }
    assert es[..|read|] == read;
  }

  lemma EmptyRun(s: World)
    ensures Run(s, []) == s
  {}

  class CrawlWorker {
    const id: nat
    const config: WorkerConfig
    const queue: CrawlTargets
    var world: World
    var tables: Tables
    ghost var start: World
    ghost var trace: seq<Event>
    ghost var limit: int
    ghost var found: seq<Tag>

    /** The shared state is the machine's after the events so far, and its table is the real one. */
    ghost predicate Valid()
      reads this, queue
    {
      Inv(start) && world == Run(start, trace) && queue.rows == world.rows
    }

    /** A crawl that stored everything, from the tables as they were before: every entry of the log is
        ingested completely, and new battles and new targets are reported as counted. */
    ghost predicate Clean(s: Script, before: Tables, r: WorkResult)
      requires r.Crawled?
      reads this
    {
      var log := LogOf(s, r.tag);
      && AllComplete(log, before, |s.entries|)
      && tables == After(log, before, |s.entries|)
      && r.battlesNew == NewCount(log, before, |s.entries|)
      && r.discoveries == |found|
      && NewTargets(found, r.tag, limit, start.rows, world.rows)
      && CeilingRead(start, trace, config, s.countDb, limit)
    }

    constructor (id: nat, config: WorkerConfig, queue: CrawlTargets, world: World, tables: Tables)
      ensures this.id == id && this.config == config && this.queue == queue
      ensures this.world == world && this.tables == tables
    {
      this.id, this.config, this.queue, this.world, this.tables := id, config, queue, world, tables;
      start, trace, limit, found := world, [], 0, [];
    }

    ghost method Begin()
      requires Inv(world) && queue.rows == world.rows
      modifies this`start, this`trace
      ensures Valid() && start == world && trace == [] && Quiet(trace, id)
    {
      start, trace := world, [];
    }

    /** Everybody else acts. */
    method Yield(es: seq<Event>)
      requires Valid() && Foreign(es, id)
      modifies this`world, this`trace, queue
      ensures Valid() && trace == old(trace) + es
      ensures id in world.flights <==> id in old(world.flights)
      ensures id in world.flights ==> world.flights[id] == old(world.flights[id])
      ensures Quiet(old(trace), id) ==> Quiet(trace, id)
      ensures old(world.cancelled) ==> world.cancelled
    {
      RunStaysCancelled(world, es);
      RunSplit(start, trace, es);
      ForeignRun(world, es, id);
      world := Run(world, es);
      trace := trace + es;
      queue.rows := world.rows;
    }

    /** This worker's last database call or reply was the machine's event e. */
    method Advance(e: Event)
      requires Inv(start) && world == Run(start, trace) && queue.rows == Step(world, e).rows
      modifies this`world, this`trace
      ensures Valid() && world == Step(old(world), e) && trace == old(trace) + [e]
      ensures Quiet(old(trace), id) && !(e.Committed? && e.w == id) ==> Quiet(trace, id)
    {
      assert (trace + [e])[..|trace + [e]| - 1] == trace;
      world := Step(world, e);
      trace := trace + [e];
    }

    method Claim(s: Script) returns (claim: Option<Claim>, ok: bool)
      requires Valid() && id !in world.flights
      modifies this`world, this`trace, queue
      ensures Valid() && (Quiet(old(trace), id) ==> Quiet(trace, id))
      ensures ok <==> s.claimFault.NoFault?
      ensures if claim.Some? then id in world.flights && world.flights[id] == Flight(claim.value, Stage.FetchProfile)
              else id !in world.flights
      ensures claim.Some? ==> ok
      ensures world.cancelled == old(world.cancelled)
      ensures ok ==> (claim.None? <==> forall t :: t in old(world.rows) && Free(old(world.rows)[t], world.now) ==> t in s.locked)
      ensures world.now == old(world.now)
    {
      hide Step, Run, Inv, Leased, NotAfter;
      RunKeeps(start, trace);
      if s.claimFault.RolledBack? || (s.claimFault.LostCommit? && !s.claimFault.applied) {
        return None, false;
      }
      claim := queue.ClaimNextTarget(world.now, s.locked);
      if claim.Some? {
        TakeStep(world, id, claim.value.tag, s.claimFault.NoFault?);
        Advance(Take(id, claim.value.tag, s.claimFault.NoFault?));
      }
      ok := s.claimFault.NoFault?;
      if !ok {
        claim := None;
      }
    }

    /** FinalizeCrawl, for the parameters computed before. */
    method Finalize(p: FinalizeParams, s: Script)
      requires Valid() && Quiet(trace, id) && Foreign(s.others(9), id)
      requires id in world.flights && world.flights[id].stage == Stage.Finalize(p)
      modifies this`world, this`trace, queue
      ensures Valid() && id !in world.flights && EndsFinalizing(start, trace, id, p.tag, p.status)
      ensures old(trace) <= trace && (old(world.cancelled) ==> world.cancelled)
    {
      hide Step, Run, Inv, Finalized;
      Yield(s.others(9));
      StepStaysCancelled(world, Committed(id, s.finalApplied));
      RunKeeps(start, trace);
      CommittedStep(world, id, s.finalApplied);
      ghost var before := trace;
      if s.finalApplied {
        var _ := queue.FinalizeCrawl(p, world.now);
      }
      Advance(Committed(id, s.finalApplied));
      assert trace[..|trace| - 1] == before;
    }

    method FinalizeApiError(claim: Claim, reply: Reply, s: Script) returns (status: Outcome)
      requires Valid() && Quiet(trace, id) && Foreign(s.others(9), id)
      requires id in world.flights
      requires world.flights[id].stage == Stage.Finalize(ApiErrorParams(claim, reply, world.now))
      modifies this`world, this`trace, queue
      ensures Valid() && id !in world.flights && EndsFinalizing(start, trace, id, claim.tag, status)
      ensures old(world.cancelled) ==> world.cancelled
      ensures status == match reply case Missing => NotFound case Throttled => RateLimited case _ => Error
    {
      var nextAt, failures, isActive;
      match reply {
        case Missing =>
          status, nextAt, failures, isActive := NotFound, world.now + 24 * HOUR, claim.failures, false;
        case Throttled =>
          status, nextAt, failures, isActive := RateLimited, world.now + 5 * MINUTE, claim.failures, true;
        case _ =>
          status, failures, isActive := Error, claim.failures + 1, true;
          nextAt := world.now + BackoffDuration(BaseInterval(claim.priority), claim.failures);
      }
      Finalize(FinalizeParams(claim.tag, claim.generation, status, nextAt, failures, isActive), s);
    }

    method FinalizeTransientError(claim: Claim, s: Script)
      requires Valid() && Quiet(trace, id) && Foreign(s.others(9), id)
      requires id in world.flights && world.flights[id].stage == Stage.Finalize(TransientParams(claim, world.now))
      modifies this`world, this`trace, queue
      ensures Valid() && id !in world.flights && EndsFinalizing(start, trace, id, claim.tag, Error)
      ensures old(world.cancelled) ==> world.cancelled
    {
      var nextAt := world.now + BackoffDuration(BaseInterval(claim.priority), claim.failures);
      Finalize(FinalizeParams(claim.tag, claim.generation, Error, nextAt, claim.failures + 1, true), s);
    }

    /** What a failure to store leads to: a shutdown, or a transient error. */
    method StorageFailed(claim: Claim, s: Script) returns (r: WorkResult)
      requires Valid() && Quiet(trace, id) && Foreign(s.others(9), id)
      requires if world.cancelled then id !in world.flights
               else id in world.flights && world.flights[id].stage == Stage.Finalize(TransientParams(claim, world.now))
      modifies this`world, this`trace, queue
      ensures Valid() && id !in world.flights && (r.Shutdown? ==> world.cancelled)
      ensures r.Shutdown? || r == Crawled(claim.tag, Error, 0, 0)
      ensures if r.Crawled? then EndsFinalizing(start, trace, id, claim.tag, Error) else Quiet(trace, id)
    {
      hide Step, Run, Inv, Quiet, EndsFinalizing, TransientParams;
      if world.cancelled {
        return Shutdown;
      }
      FinalizeTransientError(claim, s);
      r := Crawled(claim.tag, Error, 0, 0);
    }

    /** The first-crawl transaction, or the profile update of a re-crawl; err reports its fault. */
    method ClassifyOrUpdate(claim: Claim, s: Script) returns (sampledOut: bool, priority: int, err: bool)
      requires Valid() && Quiet(trace, id)
      requires id in world.flights && world.flights[id] == Flight(claim, Classify(s.trophies))
      modifies this`world, this`trace, queue
      ensures Valid() && Quiet(trace, id) && world.cancelled == old(world.cancelled)
      ensures err <==> !s.sampleFault.NoFault?
      ensures if err && world.cancelled then id !in world.flights
              else id in world.flights && world.flights[id] == Flight(claim, StoreLog(sampledOut, priority))
    {
      hide Step, Run, Inv, Decide, LegalVictim, Classified, Evicted, Profiled, Quiet;
      RunKeeps(start, trace);
      var applied := s.sampleFault.NoFault? || (s.sampleFault.LostCommit? && s.sampleFault.applied);
      var before := queue.rows;
      priority := PriorityForTrophies(s.trophies);
      var bucket := BucketForTrophies(s.trophies);
      sampledOut := false;
      var victim: Option<Tag> := None;
      if !claim.isClassified {
        sampledOut, victim := queue.ClassifyAndSampleTarget(
          claim.tag, bucket, priority, s.trophies, world.cap, s.u, world.now);
        if s.sampleFault.RolledBack? {
          sampledOut := false;
        }
      } else {
        queue.UpdateCrawlProfile(claim.tag, priority, s.trophies);
      }
      if !applied {
        queue.rows := before;
      }
      err := !s.sampleFault.NoFault?;
      if err {
        priority := claim.priority;
      }
      SampledStep(world, id, s.u, victim, s.sampleFault);
      Advance(Sampled(id, s.u, victim, s.sampleFault));
    }

    /** Read only when there is a ceiling; a failed read leaves the configured limit. */
    method DiscoveryLimit(dbOk: bool) returns (max: int)
      requires queue.rows == world.rows
      ensures max == LimitAt(world.rows, config, dbOk)
      ensures max == (if config.maxActiveTargets > 0 && dbOk
                         && |set t | t in world.rows.Keys && world.rows[t].isActive| >= config.maxActiveTargets
                      then 0 else config.maxDiscoveriesPerCrawl)
    {
      max := config.maxDiscoveriesPerCrawl;
      if config.maxActiveTargets > 0 && dbOk {
        var activeCount := queue.ActiveTargetCount();
        if activeCount >= config.maxActiveTargets {
          max := 0;
        }
      }
    }

    /** The rows the ingestor added to the queue are the machine's enqueue events. */
    method RecordDiscoveries(news: seq<Tag>)
      requires Inv(start) && world == Run(start, trace) && Quiet(trace, id)
      requires queue.rows == EnqueuedAll(world.rows, news, world.now)
      modifies this`world, this`trace
      ensures Valid() && Quiet(trace, id) && old(trace) <= trace
      ensures world.flights == old(world.flights)
    {
      hide Step, Run, Inv;
      EnqueuesRun(world, news);
      RunSplit(start, trace, Enqueues(news));
      world := Run(world, Enqueues(news));
      trace := trace + Enqueues(news);
    }

    /** One turn of the battle loop: the others act, then entry i is ingested. */
    method StoreEntry(ingestor: BattleIngestor, i: nat, s: Script, ghost before: set<Tag>, ghost others: set<Tag>)
      returns (result: Option<IngestResult>, ghost others': set<Tag>)
      requires Valid() && Quiet(trace, id) && id in world.flights && forall n :: Foreign(s.others(n), id)
      requires i < |s.entries| && ingestor.queue == queue
      requires Discovery.Accounted(ingestor.budget, before, others, ingestor.State())
      modifies this`world, this`trace, ingestor, queue
      ensures Valid() && Quiet(trace, id) && old(trace) <= trace
      ensures id in world.flights && world.flights[id] == old(world.flights[id])
      ensures Discovery.Accounted(ingestor.budget, before, others', ingestor.State())
      ensures var t := Carried(old(ingestor.tables), s.writes(i));
              && (result.Some? <==> Goes(t, s.entries[i], ingestor.budget.discoverer, s.entryDb(i)))
              && (result.Some? ==>
                    && ingestor.tables == ApplyAll(t, Writes(s.entries[i], ingestor.budget.discoverer)).tables
                    && (result.value.isNew <==> Preimage(KeyOf(s.entries[i])) !in t.battles)
                    && ingestor.found == old(ingestor.found) + result.value.newDiscoveries)
    {
      hide Step, Run, Inv, Quiet, Preimage, Writes, Perform, ApplyAll, Carried, Discovery.Accounted, Goes, EnqueuedAll;
      ghost var desk := ingestor.State();
      Yield(s.others(10 + i));
      LaterRows(start, old(trace), trace);
      ingestor.tables := Carried(ingestor.tables, s.writes(i));
      Discovery.OthersBetween(ingestor.budget, before, others, desk, queue.rows.Keys, ingestor.tables);
      others' := others + (queue.rows.Keys - desk.targets);
      desk := ingestor.State();
      var already := |ingestor.found|;
      result := ingestor.IngestBattle(s.entries[i], world.now, s.entryDb(i));
      GoesWhenDone(ingestor.budget, desk, s.entries[i], s.entryDb(i));
      if Ingestible(s.entries[i]) {
        Discovery.CallAccounts(ingestor.budget, before, others', desk,
                               Writes(s.entries[i], ingestor.budget.discoverer), s.entryDb(i));
      }
      RecordDiscoveries(ingestor.found[already..]);
    }

    /** The battle loop: stops at the first entry whose ingestion fails. */
    method StoreBattles(tag: Tag, max: int, s: Script) returns (ok: bool, battlesNew: nat, discoveries: nat)
      requires Valid() && Quiet(trace, id) && id in world.flights && forall n :: Foreign(s.others(n), id)
      modifies this`world, this`trace, this`tables, this`found, queue
      ensures Valid() && Quiet(trace, id) && old(trace) <= trace
      ensures id in world.flights && world.flights[id] == old(world.flights[id])
      ensures ok <==> AllComplete(LogOf(s, tag), old(tables), |s.entries|)
      ensures ok ==> && tables == After(LogOf(s, tag), old(tables), |s.entries|)
                     && battlesNew == NewCount(LogOf(s, tag), old(tables), |s.entries|)
                     && discoveries == |found|
      ensures NewTargets(found, tag, max, old(world.rows), world.rows)
    {
      hide Step, Run, Inv, Quiet, Complete, Carried, Goes, NormalizeTag, Preimage, Writes, ApplyAll,
           After, NewCount, AllComplete, Discovery.Accounted, NewTargets;
      ghost var log, t, before := LogOf(s, tag), tables, queue.rows.Keys;
      ghost var others: set<Tag> := {};
      var ingestor := new BattleIngestor(tables, queue, Budget(NormalizeTag(tag), max));
      NoEntryYet(log, t);
      NothingFound(ingestor.budget, ingestor.State());
      battlesNew, discoveries := 0, 0;
      for i := 0 to |s.entries|
        invariant Valid() && Quiet(trace, id) && old(trace) <= trace
        invariant id in world.flights && world.flights[id] == old(world.flights[id])
        invariant ingestor.queue == queue && ingestor.budget == Budget(NormalizeTag(tag), max) && fresh(ingestor)
        invariant Discovery.Accounted(ingestor.budget, before, others, ingestor.State())
        invariant AllComplete(log, t, i) && ingestor.tables == After(log, t, i)
        invariant battlesNew == NewCount(log, t, i) && discoveries == |ingestor.found|
      {
        var result;
        result, others := StoreEntry(ingestor, i, s, before, others);
        NextEntry(log, t, i);
        if result.None? {
          Broken(log, t, i);
          FoundTargets(ingestor.budget, others, ingestor.State(), tag, old(world.rows), world.rows);
          tables, found := ingestor.tables, ingestor.found;
          return false, battlesNew, discoveries;
        }
        if result.value.isNew {
          battlesNew := battlesNew + 1;
        }
        discoveries := discoveries + |result.value.newDiscoveries|;
      }
      FoundTargets(ingestor.budget, others, ingestor.State(), tag, old(world.rows), world.rows);
      tables, found := ingestor.tables, ingestor.found;
      ok := true;
    }

    /** The last step of a crawl that stored everything. */
    method FinalizeCrawled(claim: Claim, sampledOut: bool, priority: int, s: Script) returns (finalStatus: Outcome)
      requires Valid() && Quiet(trace, id) && Foreign(s.others(9), id) && id in world.flights
      requires world.flights[id].stage == Stage.Finalize(FinalParams(claim, sampledOut, priority, world.now))
      modifies this`world, this`trace, queue
      ensures Valid() && id !in world.flights && EndsFinalizing(start, trace, id, claim.tag, finalStatus)
      ensures old(world.cancelled) ==> world.cancelled
      ensures old(trace) <= trace && finalStatus == if sampledOut then SampledOut else Success
    {
      hide Step, Run, Inv, Quiet, EndsFinalizing, BaseInterval;
      var isActive := true;
      finalStatus := Success;
      if sampledOut {
        finalStatus, isActive := SampledOut, false;
      }
      Finalize(FinalizeParams(claim.tag, claim.generation, finalStatus,
                              world.now + BaseInterval(priority), 0, isActive), s);
    }

    /** The battle log and the final commit. */
    method StoreAndFinalize(claim: Claim, sampledOut: bool, priority: int, s: Script) returns (r: WorkResult)
      requires Valid() && Quiet(trace, id) && forall n :: Foreign(s.others(n), id)
      requires id in world.flights && world.flights[id] == Flight(claim, StoreLog(sampledOut, priority))
      modifies this`world, this`trace, this`tables, this`limit, this`found, queue
      ensures Valid() && id !in world.flights
      ensures if r.Crawled? then EndsFinalizing(start, trace, id, r.tag, r.status) else Quiet(trace, id)
      ensures r.Crawled? ==> r.status == Outcome.Error || (r.status in {Success, SampledOut} && Clean(s, old(tables), r))
      ensures (r.Shutdown? ==> world.cancelled) && (r.Shutdown? || r.Crawled?)
      ensures r.Crawled? ==> r.tag == claim.tag && (r.status == Outcome.Error ==> r.battlesNew == 0 && r.discoveries == 0)
      ensures r.Crawled? ==> (r.status == Outcome.Error <==> !AllComplete(LogOf(s, claim.tag), old(tables), |s.entries|))
      ensures r.Crawled? && r.status != Outcome.Error ==> (r.status == SampledOut <==> sampledOut)
    {
      hide Step, Run, Inv, Quiet, EndsFinalizing, TransientParams, FinalParams, Foreign, NewCount, After, AllComplete,
           LimitAt, LogOf, NewTargets, CeilingRead;
      Yield(s.others(7));
      var max := DiscoveryLimit(s.countDb);
      limit := max;
      ghost var read := trace;
      var ok, battlesNew, discoveries := StoreBattles(claim.tag, max, s);
      ghost var stored := trace;
      Yield(s.others(6));
      StorageSteps(world, id, ok);
      Advance(LogStored(id, ok));
      if !ok {
        r := StorageFailed(claim, s);
        return;
      }
      var finalStatus := FinalizeCrawled(claim, sampledOut, priority, s);
      StillFound(start, read, stored, trace, found, claim.tag, max, config, s.countDb);
      r := Crawled(claim.tag, finalStatus, battlesNew, discoveries);
    }

    /** RunOnce from the point where the lease is known to be held. */
    method IngestAndFinalize(claim: Claim, s: Script) returns (r: WorkResult)
      requires Valid() && Quiet(trace, id) && forall n :: Foreign(s.others(n), id)
      requires id in world.flights && world.flights[id] == Flight(claim, StoreProfile(s.trophies))
      modifies this`world, this`trace, this`tables, this`limit, this`found, queue
      ensures Valid() && id !in world.flights
      ensures if r.Crawled? then EndsFinalizing(start, trace, id, r.tag, r.status) else Quiet(trace, id)
      ensures r.Crawled? ==> r.status == Outcome.Error || (r.status in {Success, SampledOut} && Clean(s, old(tables), r))
      ensures StorageReported(s, old(tables), world.cancelled, r)
    {
      hide Step, Run, Inv, Quiet, EndsFinalizing, TransientParams, Foreign;
      Yield(s.others(4));
      StorageSteps(world, id, s.profileDb);
      Advance(ProfileStored(id, s.profileDb));
      if !s.profileDb {
        r := StorageFailed(claim, s);
        return;
      }

      Yield(s.others(5));
      var sampledOut, priority, err := ClassifyOrUpdate(claim, s);
      if err && world.cancelled {
        return Shutdown;
      }

      r := StoreAndFinalize(claim, sampledOut, priority, s);
    }

    /** What an API reply leads to; None means that the crawl goes on. */
    method HandleReply(claim: Claim, e: Event, reply: Reply, next: Stage, s: Script) returns (r: Option<WorkResult>)
      requires Valid() && Quiet(trace, id) && Foreign(s.others(9), id)
      requires id in world.flights && world.flights[id].claim == claim
      requires !e.Committed? && Step(world, e) == ApiStep(world, id, reply, next)
      modifies this`world, this`trace, queue
      ensures Valid()
      ensures r.None? <==> reply == Ok
      ensures r.None? ==> Quiet(trace, id) && id in world.flights && world.flights[id] == Flight(claim, next)
      ensures r.Some? ==> id !in world.flights
      ensures r.Some? ==> if r.value.Crawled? then EndsFinalizing(start, trace, id, r.value.tag, r.value.status) else Quiet(trace, id)
      ensures r.Some? ==> ReplyReported(reply, world.cancelled, r.value)
    {
      hide Step, Run, Inv, Quiet, EndsFinalizing, Foreign, ApiErrorParams;
      Advance(e);
      if reply == Ok {
        return None;
      }
      if reply == KeyFailure {
        return Some(GlobalHalt);
      }
      if world.cancelled {
        return Some(Shutdown);
      }
      var status := FinalizeApiError(claim, reply, s);
      r := Some(Crawled(claim.tag, status, 0, 0));
    }

    method FetchProfile(claim: Claim, s: Script) returns (r: Option<WorkResult>)
      requires Valid() && Quiet(trace, id) && forall n :: Foreign(s.others(n), id)
      requires id in world.flights && world.flights[id] == Flight(claim, Stage.FetchProfile)
      modifies this`world, this`trace, queue
      ensures Valid() && (r.None? <==> s.profileReply == Ok)
      ensures r.None? ==> Quiet(trace, id) && id in world.flights && world.flights[id] == Flight(claim, Stage.FetchLog(s.trophies))
      ensures r.Some? ==> id !in world.flights && Told(s, r.value)
      ensures r.Some? ==> ReplyReported(s.profileReply, world.cancelled, r.value)
      ensures r.Some? ==> if r.value.Crawled? then EndsFinalizing(start, trace, id, r.value.tag, r.value.status) else Quiet(trace, id)
    {
      hide Step, Run, Inv, Quiet, EndsFinalizing, ApiStep;
      Yield(s.others(1));
      RepliesStep(world, id, s.profileReply, s.trophies);
      r := HandleReply(claim, ProfileReply(id, s.profileReply, s.trophies), s.profileReply, Stage.FetchLog(s.trophies), s);
    }

    method FetchLog(claim: Claim, s: Script) returns (r: Option<WorkResult>)
      requires s.profileReply == Ok
      requires Valid() && Quiet(trace, id) && forall n :: Foreign(s.others(n), id)
      requires id in world.flights && world.flights[id] == Flight(claim, Stage.FetchLog(s.trophies))
      modifies this`world, this`trace, queue
      ensures Valid() && (r.None? <==> s.logReply == Ok)
      ensures r.None? ==> Quiet(trace, id) && id in world.flights && world.flights[id] == Flight(claim, CheckLease(s.trophies))
      ensures r.Some? ==> id !in world.flights && Told(s, r.value)
      ensures r.Some? ==> ReplyReported(s.logReply, world.cancelled, r.value)
      ensures r.Some? ==> if r.value.Crawled? then EndsFinalizing(start, trace, id, r.value.tag, r.value.status) else Quiet(trace, id)
    {
      hide Step, Run, Inv, Quiet, EndsFinalizing, ApiStep;
      Yield(s.others(2));
      RepliesStep(world, id, s.logReply, s.trophies);
      r := HandleReply(claim, LogReply(id, s.logReply), s.logReply, CheckLease(s.trophies), s);
    }

    /** The ownership check before anything is stored. */
    method CheckOwnership(claim: Claim, s: Script) returns (r: Option<WorkResult>)
      requires Valid() && Quiet(trace, id) && forall n :: Foreign(s.others(n), id)
      requires id in world.flights && world.flights[id] == Flight(claim, CheckLease(s.trophies))
      modifies this`world, this`trace, queue
      ensures Valid() && Quiet(trace, id)
      ensures r.None? <==> s.leaseDb && OwnsLease(world.rows, claim.tag, claim.generation, world.now)
      ensures if r.None? then id in world.flights && world.flights[id] == Flight(claim, StoreProfile(s.trophies))
              else id !in world.flights
      ensures r.Some? ==> if !s.leaseDb then r.value.CheckFailed? || (r.value.Shutdown? && world.cancelled) else r.value.OwnershipLost?
    {
      hide Step, Run, Inv, Quiet, OwnsLease;
      Yield(s.others(3));
      var owned := queue.OwnershipValid(claim.tag, claim.generation, world.now);
      StorageSteps(world, id, s.leaseDb);
      assert claim.tag in world.rows by {
        RunKeeps(start, trace);
        InFlightRow(world, id);
      }
      Advance(LeaseChecked(id, s.leaseDb));
      if !s.leaseDb || owned.None? {
        return Some(if world.cancelled then Shutdown else CheckFailed);
      }
      if !owned.value {
        return Some(OwnershipLost);
      }
      r := None;
    }

    method RunOnce(s: Script) returns (r: WorkResult)
      requires Inv(world) && queue.rows == world.rows && id !in world.flights
      requires forall n :: Foreign(s.others(n), id)
      modifies this, queue
      ensures Valid() && start == old(world) && id !in world.flights
      ensures if r.Crawled? then EndsFinalizing(start, trace, id, r.tag, r.status) else Quiet(trace, id)
      ensures Told(s, r) && Reported(s, old(tables), world.cancelled, r)
      ensures r.Crawled? && r.status in {Success, SampledOut} ==> Clean(s, old(tables), r)
    {
      hide Step, Run, Inv, Quiet, EndsFinalizing, OwnsLease, ApiStep;
      Begin();
      Yield(s.others(0));
      var maybe, ok := Claim(s);
      if !ok {
        return if world.cancelled then Shutdown else ClaimFailed;
      }
      if maybe.None? {
        return Empty;
      }
      var claim := maybe.value;

      var stop := FetchProfile(claim, s);
      if stop.Some? {
        return stop.value;
      }
      stop := FetchLog(claim, s);
      if stop.Some? {
        return stop.value;
      }
      stop := CheckOwnership(claim, s);
      if stop.Some? {
        return stop.value;
      }

      r := IngestAndFinalize(claim, s);
    }
  }
}
