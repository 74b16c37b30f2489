/** When a crawl's player is crawled again, and what else its finalization writes: from the row as it was
    claimed, through whatever happens in between, to the row as it is left. */
module Retries {
  import opened Collections
  import opened CrawlQueue
  import opened Domain
  import opened Worker
  import opened Leases
  import opened LeaseSafety

  // ------------------------------------------------------------------------------ the delays

  const HOURS := 3_600_000_000_000

  /** The re-crawl interval of a priority. */
  function FirstDelay(priority: int): int {
    if priority >= 7 then 72 * HOURS else if priority >= 5 then 24 * HOURS
    else if priority >= 3 then 8 * HOURS else 4 * HOURS
  }

  /** The delay after one more failure, with n failures before it: twice as long every time, up to seven days. */
  function RetryDelay(priority: int, n: nat): int {
    if n == 0 then FirstDelay(priority)
    else
      var twice := 2 * RetryDelay(priority, n - 1);
      if twice >= 168 * HOURS then 168 * HOURS else twice
  }

  lemma {:induction false} BackoffIsRetryDelay(priority: int, n: nat)
    ensures BaseInterval(priority) == FirstDelay(priority)
    ensures BackoffDuration(BaseInterval(priority), n) == RetryDelay(priority, n)
  {
    if n == 0 {
      BackoffDoubles(BaseInterval(priority), 0);
    } else {
      BackoffIsRetryDelay(priority, n - 1);
      BackoffDoubles(BaseInterval(priority), n - 1);
    }
  }

  // ------------------------------------------------------------------- what each way out will write

  /** Step e takes worker w, which claimed the player with priority p after n failures, to its
      finalization, with the given parameters. */
  predicate Decides(s: World, w: nat, e: Event, p: int, n: nat, params: FinalizeParams)
    requires w in s.flights
  {
    var delay := params.nextCrawlAt - s.now;
    var retry := params.status == Error && params.isActive && params.failures == n + 1 && delay == RetryDelay(p, n);
    match e
    case ProfileReply(v, reply, _) => v == w && ReplyDecides(reply, n, params, delay, retry)
    case LogReply(v, reply) => v == w && ReplyDecides(reply, n, params, delay, retry)
    case ProfileStored(v, dbOk) => v == w && !dbOk && retry
    case LogStored(v, dbOk) =>
      v == w && s.flights[w].stage.StoreLog?
      && if !dbOk then retry
         else && params.status == (if s.flights[w].stage.sampledOut then SampledOut else Success)
              && (params.isActive <==> !s.flights[w].stage.sampledOut)
              && params.failures == 0 && delay == FirstDelay(s.flights[w].stage.priority)
    case _ => false
  }

  predicate ReplyDecides(reply: Reply, n: nat, params: FinalizeParams, delay: int, retry: bool) {
    match reply
    case Missing => params.status == NotFound && !params.isActive && params.failures == n && delay == 24 * HOURS
    case Throttled => params.status == RateLimited && params.isActive && params.failures == n && delay == HOURS / 12
    case Failed => retry
    case _ => false
  }

  lemma EntersFinalization(s: World, w: nat, e: Event)
    requires w in s.flights && !s.flights[w].stage.Finalize?
    requires w in Step(s, e).flights && Step(s, e).flights[w].stage.Finalize?
    ensures var c, s' := s.flights[w].claim, Step(s, e);
            var params := s'.flights[w].stage.params;
            && s'.flights[w].claim == c && params.tag == c.tag && params.generation == c.generation && s'.rows == s.rows
            && Decides(s, w, e, c.priority, c.failures, params)
  {
    var c := s.flights[w].claim;
    BackoffIsRetryDelay(c.priority, c.failures);
    if s.flights[w].stage.StoreLog? {
      BackoffIsRetryDelay(s.flights[w].stage.priority, 0);
    }
    hide Step, Decides, BackoffDuration, BaseInterval, RetryDelay, FirstDelay;
    if Actor(e) != Some(w) {
      ForeignStep(s, e, w);
    } else if e.ProfileReply? || e.LogReply? {
      ReplyEnters(s, w, e);
    } else {
      StorageEnters(s, w, e);
    }
  }

  lemma ReplyEnters(s: World, w: nat, e: Event)
    requires w in s.flights && !s.flights[w].stage.Finalize? && (e.ProfileReply? || e.LogReply?) && e.w == w
    requires w in Step(s, e).flights && Step(s, e).flights[w].stage.Finalize?
    requires var c := s.flights[w].claim;
             BackoffDuration(BaseInterval(c.priority), c.failures) == RetryDelay(c.priority, c.failures)
    ensures var c, s' := s.flights[w].claim, Step(s, e);
            var params := s'.flights[w].stage.params;
            && s'.flights[w].claim == c && params.tag == c.tag && params.generation == c.generation && s'.rows == s.rows
            && Decides(s, w, e, c.priority, c.failures, params)
  {
    hide BackoffDuration, BaseInterval, RetryDelay, FirstDelay;
  }

  lemma StorageEnters(s: World, w: nat, e: Event)
    requires w in s.flights && !s.flights[w].stage.Finalize? && Actor(e) == Some(w) && !e.ProfileReply? && !e.LogReply?
    requires w in Step(s, e).flights && Step(s, e).flights[w].stage.Finalize?
    requires var c := s.flights[w].claim;
             && BackoffDuration(BaseInterval(c.priority), c.failures) == RetryDelay(c.priority, c.failures)
             && (s.flights[w].stage.StoreLog? ==>
                   BaseInterval(s.flights[w].stage.priority) == FirstDelay(s.flights[w].stage.priority))
    ensures var c, s' := s.flights[w].claim, Step(s, e);
            var params := s'.flights[w].stage.params;
            && s'.flights[w].claim == c && params.tag == c.tag && params.generation == c.generation && s'.rows == s.rows
            && Decides(s, w, e, c.priority, c.failures, params)
  {
    hide BackoffDuration, BaseInterval, RetryDelay, FirstDelay, SampleEffect, SampleEnabled, SampleVerdict;
  }

  predicate Failure(reply: Reply) {
    reply != Ok && reply != KeyFailure
  }

  /** When worker w's own step takes it to its finalization, and when it ends the crawl without one.  Failed
      requests and failed storage are finalized unless the context is cancelled; a key failure, a lost or
      unreadable lease, and a failure after cancellation end the crawl and leave every row as it is. */
  lemma WaysOut(s: World, w: nat, e: Event)
    requires w in s.flights && Actor(e) == Some(w) && !s.flights[w].stage.Finalize?
    ensures var f, s' := s.flights[w], Step(s, e);
            var c := f.claim;
            && (w in s'.flights && s'.flights[w].stage.Finalize? <==>
                  match e
                  case ProfileReply(_, reply, _) => f.stage.FetchProfile? && Failure(reply) && !s.cancelled
                  case LogReply(_, reply) => f.stage.FetchLog? && Failure(reply) && !s.cancelled
                  case ProfileStored(_, dbOk) => f.stage.StoreProfile? && !dbOk && !s.cancelled
                  case LogStored(_, dbOk) => f.stage.StoreLog? && (dbOk || !s.cancelled)
                  case _ => false)
            && (!e.Sampled? ==> (w !in s'.flights <==>
                  match e
                  case ProfileReply(_, reply, _) => f.stage.FetchProfile? && (reply == KeyFailure || (Failure(reply) && s.cancelled))
                  case LogReply(_, reply) => f.stage.FetchLog? && (reply == KeyFailure || (Failure(reply) && s.cancelled))
                  case LeaseChecked(_, dbOk) =>
                    f.stage.CheckLease? && !(dbOk && c.tag in s.rows && s.rows[c.tag].generation == c.generation
                                             && s.rows[c.tag].leasedUntil.Some? && s.rows[c.tag].leasedUntil.value >= s.now)
                  case ProfileStored(_, dbOk) => f.stage.StoreProfile? && !dbOk && s.cancelled
                  case LogStored(_, dbOk) => f.stage.StoreLog? && !dbOk && s.cancelled
                  case _ => false))
            && (!e.Sampled? ==> s'.rows == s.rows && s'.log == s.log)
  {
    hide BackoffDuration, BaseInterval, SampleEffect, SampleEnabled, SampleVerdict;
  }

  /** A commit that takes effect writes its parameters, counts the crawl and ends the lease. */
  lemma CommitWrites(s: World, w: nat)
    requires Inv(s) && w in s.flights && s.flights[w].stage.Finalize?
    requires s.flights[w].stage.params.tag in s.rows
    requires s.rows[s.flights[w].stage.params.tag].generation == s.flights[w].stage.params.generation
    ensures var p, s' := s.flights[w].stage.params, Step(s, Committed(w, true));
            var r := s.rows[p.tag];
            && w !in s'.flights
            && s'.rows == s.rows[p.tag := Row(r.priority, p.nextCrawlAt, Some(s.now), Some(p.status), p.failures,
                                              r.crawlCount + 1, p.isActive, r.generation, None, r.bucket, r.trophies)]
  {}

  lemma {:induction false} FlyingNow(s: World, es: seq<Event>, w: nat, c: Claim)
    requires Flying(s, es, w, c)
    ensures w in Run(s, es).flights && Run(s, es).flights[w].claim == c
  {}

  lemma TakeReads(s: World, w: nat, t: Tag)
    requires w !in s.flights && t in s.rows && t in s.log && Free(s.rows[t], s.now)
    ensures var s', r := Step(s, Take(w, t, true)), s.rows[t];
            && w in s'.flights && s'.flights[w] == Flight(Claim(t, r.generation + 1, r.priority, r.failures, r.bucket.Some?, s.now), FetchProfile)
            && s'.rows == s.rows[t := r.(generation := r.generation + 1, leasedUntil := Some(s.now + HOURS / 6))]
  {}

  /** From claim to finalization.  Worker w claims t with the row's priority p and failures n, anything
      happens while it keeps the claim, step e takes it to its finalization, the others act again, and the
      finalization is applied to a claim still current.  Then the row is as it was right before, but for
      the columns that a finalization writes; and these follow from e, p and n alone: not found waits a
      day and deactivates, a throttled request waits five minutes, any other failure waits the retry delay
      and counts, and a stored log waits the re-crawl interval of the priority handed on. */
  lemma FinalizationWrites(s: World, w: nat, t: Tag, es: seq<Event>, e: Event, b: seq<Event>)
    requires Inv(s) && w !in s.flights && t in s.rows && Free(s.rows[t], s.now)
    requires var r := s.rows[t];
             Flying(Step(s, Take(w, t, true)), es, w,
                    Claim(t, r.generation + 1, r.priority, r.failures, r.bucket.Some?, s.now))
    requires var s1 := Run(Step(s, Take(w, t, true)), es);
             && w in s1.flights && !s1.flights[w].stage.Finalize?
             && w in Step(s1, e).flights && Step(s1, e).flights[w].stage.Finalize?
             && Foreign(b, w)
             && var s3 := Run(Step(s1, e), b); t in s3.rows && s3.rows[t].generation == s.rows[t].generation + 1
    ensures var s1 := Run(Step(s, Take(w, t, true)), es);
            var s3 := Run(Step(s1, e), b);
            var s4 := Step(s3, Committed(w, true));
            && w !in s4.flights && t in s4.rows
            && var before, after := s3.rows[t], s4.rows[t];
            && after.priority == before.priority && after.bucket == before.bucket && after.trophies == before.trophies
            && after.generation == before.generation && after.crawlCount == before.crawlCount + 1
            && after.lastCrawledAt == Some(s3.now) && after.leasedUntil.None?
            && before.failures == s.rows[t].failures
            && after.lastStatus.Some?
            && Decides(s1, w, e, s.rows[t].priority, s.rows[t].failures,
                       FinalizeParams(t, after.generation, after.lastStatus.value, after.nextCrawlAt, after.failures, after.isActive))
  {
    hide Step, Run, Inv, Flying, Decides, Free;
    var r := s.rows[t];
    assert t in s.log by { InLog(s, t); }
    TakeReads(s, w, t);
    var s0, c := Step(s, Take(w, t, true)), Claim(t, r.generation + 1, r.priority, r.failures, r.bucket.Some?, s.now);
    StepKeeps(s, Take(w, t, true));
    var s1 := Run(s0, es);
    FlyingNow(s0, es, w, c);
    RunKeeps(s0, es);
    EntersFinalization(s1, w, e);
    var s2 := Step(s1, e);
    StepKeeps(s1, e);
    ForeignRun(s2, b, w);
    RunKeeps(s2, b);
    CurrentFailures(Run(s2, b), w);
    CommitWrites(Run(s2, b), w);
  }

  lemma InLog(s: World, t: Tag)
    requires Inv(s) && t in s.rows
    ensures t in s.log
  {}

  lemma CurrentFailures(s: World, w: nat)
    requires Inv(s) && w in s.flights
    ensures var c := s.flights[w].claim;
            c.tag in s.rows && (s.rows[c.tag].generation == c.generation ==> s.rows[c.tag].failures == c.failures)
  {
    assert FlightOk(s.flights[w], s.rows, s.log, s.now);
  }

  // ------------------------------------------------------------------------- a crawl from end to end

  /** Everybody else acts, then worker w's event e happens. */
  function Turn(s: World, others: seq<Event>, e: Event): World {
    Step(Run(s, others), e)
  }

  lemma TurnStage(s: World, w: nat, others: seq<Event>)
    requires Inv(s) && w in s.flights && Foreign(others, w)
    ensures Inv(Run(s, others)) && w in Run(s, others).flights && Run(s, others).flights[w] == s.flights[w]
  {
    RunKeeps(s, others);
    ForeignRun(s, others, w);
  }

  lemma Replied(s: World, w: nat, trophies: int)
    requires w in s.flights
    ensures s.flights[w].stage.FetchProfile? ==> Step(s, ProfileReply(w, Ok, trophies)) == To(s, w, FetchLog(trophies))
    ensures s.flights[w].stage.FetchLog? ==> Step(s, LogReply(w, Ok)) == To(s, w, CheckLease(s.flights[w].stage.trophies))
    ensures s.flights[w].stage.StoreProfile? ==> Step(s, ProfileStored(w, true)) == To(s, w, Classify(s.flights[w].stage.trophies))
  {}

  lemma LeaseHolds(s: World, w: nat)
    requires w in s.flights && s.flights[w].stage.CheckLease?
    requires var c := s.flights[w].claim;
             && c.tag in s.rows && s.rows[c.tag].generation == c.generation
             && s.rows[c.tag].leasedUntil.Some? && s.rows[c.tag].leasedUntil.value >= s.now
    ensures Step(s, LeaseChecked(w, true)) == To(s, w, StoreProfile(s.flights[w].stage.trophies))
  {}

  /** The profile is fetched and stored amid everybody else's events: the trophies it shows are those that
      the classification gets. */
  lemma ProfileReaches(s: World, w: nat, a: seq<seq<Event>>, trophies: int) returns (s': World)
    requires Inv(s) && w in s.flights && s.flights[w].stage.FetchProfile?
    requires |a| == 4 && forall i :: 0 <= i < 4 ==> Foreign(a[i], w)
    requires var s1 := Turn(Turn(s, a[0], ProfileReply(w, Ok, trophies)), a[1], LogReply(w, Ok));
             var s2, c := Run(s1, a[2]), s.flights[w].claim;
             && c.tag in s2.rows && s2.rows[c.tag].generation == c.generation
             && s2.rows[c.tag].leasedUntil.Some? && s2.rows[c.tag].leasedUntil.value >= s2.now
    ensures s' == Turn(Turn(Turn(Turn(s, a[0], ProfileReply(w, Ok, trophies)), a[1], LogReply(w, Ok)),
                            a[2], LeaseChecked(w, true)), a[3], ProfileStored(w, true))
    ensures Inv(s') && w in s'.flights && s'.flights[w] == Flight(s.flights[w].claim, Classify(trophies))
  {
    hide Step, Run, Inv;
    TurnStage(s, w, a[0]);
    Replied(Run(s, a[0]), w, trophies);
    StepKeeps(Run(s, a[0]), ProfileReply(w, Ok, trophies));
    var s1 := Turn(s, a[0], ProfileReply(w, Ok, trophies));
    TurnStage(s1, w, a[1]);
    Replied(Run(s1, a[1]), w, trophies);
    StepKeeps(Run(s1, a[1]), LogReply(w, Ok));
    var s2 := Turn(s1, a[1], LogReply(w, Ok));
    TurnStage(s2, w, a[2]);
    LeaseHolds(Run(s2, a[2]), w);
    StepKeeps(Run(s2, a[2]), LeaseChecked(w, true));
    var s3 := Turn(s2, a[2], LeaseChecked(w, true));
    TurnStage(s3, w, a[3]);
    Replied(Run(s3, a[3]), w, trophies);
    StepKeeps(Run(s3, a[3]), ProfileStored(w, true));
    s' := Turn(s3, a[3], ProfileStored(w, true));
  }

  /** The classification or profile update with the fresh trophies, in columns.  Priority and trophies are
      refreshed when the transaction is applied, the bucket only on a first classification; and the
      priority handed on is the fresh one unless an error is reported. */
  lemma ProfileWritten(s: World, w: nat, u: real, victim: Option<Tag>, fault: Fault)
    requires Inv(s) && w in s.flights && s.flights[w].stage.Classify? && (fault.NoFault? || !s.cancelled)
    requires var f := s.flights[w]; !f.claim.isClassified ==> SampleEnabled(s, f.claim.tag, f.stage.trophies, u, victim)
    ensures var f, s' := s.flights[w], Step(s, Sampled(w, u, victim, fault));
            var t, trophies := f.claim.tag, f.stage.trophies;
            var applied := fault.NoFault? || (fault.LostCommit? && fault.applied);
            && w in s'.flights && s'.flights[w].claim == f.claim && s'.flights[w].stage.StoreLog?
            && s'.flights[w].stage.priority == (if fault.NoFault? then PriorityForTrophies(trophies) else f.claim.priority)
            && s'.flights[w].stage.sampledOut == (!f.claim.isClassified && SampleVerdict(s, t, trophies, u).Reject? && !fault.RolledBack?)
            && (!applied ==> s'.rows == s.rows)
            && t in s.rows && t in s'.rows
            && (applied && f.claim.isClassified ==>
                  s'.rows == s.rows[t := s.rows[t].(priority := PriorityForTrophies(trophies), trophies := Some(trophies))])
            && (applied && !f.claim.isClassified && s.rows[t].bucket.None? ==>
                  && s'.rows[t].bucket == Some(BucketForTrophies(trophies))
                  && s'.rows[t].priority == PriorityForTrophies(trophies) && s'.rows[t].trophies == Some(trophies))
  {
    hide Decide, PriorityForTrophies, BucketForTrophies, Inv;
    InRows(s, w);
  }

  lemma InRows(s: World, w: nat)
    requires Inv(s) && w in s.flights
    ensures s.flights[w].claim.tag in s.rows
  {
    assert FlightOk(s.flights[w], s.rows, s.log, s.now);
  }

  /** A stored log, and the commit of a claim still current. */
  lemma LogThenCommit(s: World, w: nat, a: seq<seq<Event>>)
    requires Inv(s) && w in s.flights && s.flights[w].stage.StoreLog?
    requires |a| == 2 && Foreign(a[0], w) && Foreign(a[1], w)
    requires var s2 := Run(Turn(s, a[0], LogStored(w, true)), a[1]);
             var c := s.flights[w].claim; c.tag in s2.rows && s2.rows[c.tag].generation == c.generation
    ensures var f, s1, s2 := s.flights[w], Run(s, a[0]), Run(Turn(s, a[0], LogStored(w, true)), a[1]);
            var s3, t := Step(s2, Committed(w, true)), f.claim.tag;
            && w !in s3.flights && t in s3.rows
            && s3.rows[t].lastStatus == Some(if f.stage.sampledOut then SampledOut else Success)
            && (s3.rows[t].isActive <==> !f.stage.sampledOut) && s3.rows[t].failures == 0
            && s3.rows[t].nextCrawlAt - s1.now == FirstDelay(f.stage.priority)
            && s3.rows[t].crawlCount == s2.rows[t].crawlCount + 1
  {
    hide Step, Run, Inv, FirstDelay, RetryDelay;
    TurnStage(s, w, a[0]);
    var s1, e := Run(s, a[0]), LogStored(w, true);
    StoredLog(s1, w);
    EntersFinalization(s1, w, e);
    StepKeeps(s1, e);
    TurnStage(Step(s1, e), w, a[1]);
    CommitWrites(Run(Step(s1, e), a[1]), w);
  }

  lemma StoredLog(s: World, w: nat)
    requires w in s.flights && s.flights[w].stage.StoreLog?
    ensures var s' := Step(s, LogStored(w, true)); w in s'.flights && s'.flights[w].stage.Finalize?
  {}

  /** A crawl without failures of its own, amid everybody else's events between all of its steps.  If the
      classification reports no error, the player is crawled again after the interval of his fresh trophies'
      priority, counted from the moment the battle log was stored; if it does, of the priority at the claim. */
  lemma CompleteCrawl(s: World, w: nat, a: seq<seq<Event>>, trophies: int, u: real, victim: Option<Tag>, fault: Fault)
    requires Inv(s) && w in s.flights && s.flights[w].stage.FetchProfile?
    requires |a| == 7 && forall i :: 0 <= i < 7 ==> Foreign(a[i], w)
    requires var s1 := Turn(Turn(s, a[0], ProfileReply(w, Ok, trophies)), a[1], LogReply(w, Ok));
             var s2, c := Run(s1, a[2]), s.flights[w].claim;
             && c.tag in s2.rows && s2.rows[c.tag].generation == c.generation
             && s2.rows[c.tag].leasedUntil.Some? && s2.rows[c.tag].leasedUntil.value >= s2.now
             && var s4 := Run(Turn(Turn(s1, a[2], LeaseChecked(w, true)), a[3], ProfileStored(w, true)), a[4]);
             && (fault.NoFault? || !s4.cancelled)
             && (!c.isClassified ==> SampleEnabled(s4, c.tag, trophies, u, victim))
             && var s6 := Run(Turn(Step(s4, Sampled(w, u, victim, fault)), a[5], LogStored(w, true)), a[6]);
             c.tag in s6.rows && s6.rows[c.tag].generation == c.generation
    ensures var c := s.flights[w].claim;
            var s1 := Turn(Turn(s, a[0], ProfileReply(w, Ok, trophies)), a[1], LogReply(w, Ok));
            var s4 := Run(Turn(Turn(s1, a[2], LeaseChecked(w, true)), a[3], ProfileStored(w, true)), a[4]);
            var s5 := Step(s4, Sampled(w, u, victim, fault));
            var s6 := Run(Turn(s5, a[5], LogStored(w, true)), a[6]);
            var s7 := Step(s6, Committed(w, true));
            && w !in s7.flights && c.tag in s7.rows
            && s7.rows[c.tag].lastStatus
               == Some(if !c.isClassified && SampleVerdict(s4, c.tag, trophies, u).Reject? && !fault.RolledBack? then SampledOut
                       else Success)
            && (s7.rows[c.tag].isActive <==> s7.rows[c.tag].lastStatus == Some(Success))
            && s7.rows[c.tag].failures == 0 && s7.rows[c.tag].crawlCount == s6.rows[c.tag].crawlCount + 1
            && s7.rows[c.tag].nextCrawlAt - Run(s5, a[5]).now
               == FirstDelay(if fault.NoFault? then PriorityForTrophies(trophies) else c.priority)
  {
    hide Step, Run, Inv, FirstDelay, Foreign, SampleEnabled, PriorityForTrophies, BucketForTrophies;
    var s3 := ProfileReaches(s, w, a[..4], trophies);
    TurnStage(s3, w, a[4]);
    var s4 := Run(s3, a[4]);
    ProfileWritten(s4, w, u, victim, fault);
    StepKeeps(s4, Sampled(w, u, victim, fault));
    LogThenCommit(Step(s4, Sampled(w, u, victim, fault)), w, a[5..]);
  }
}
