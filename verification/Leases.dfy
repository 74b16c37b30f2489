/** What every run of the crawler keeps: each row equals the serial replay of its own history, a
    generation is issued and finalized at most once, leases exclude each other, deactivation is
    permanent, and no row is ever parked out of reach. */
module Leases {
  import opened Collections
  import opened CrawlQueue
  import opened Domain
  import opened Worker

  // ------------------------------------------------------------------- serial replay of a history

  /** The columns of a row that the lease protocol owns. */
  datatype Core = Core(
    generation: nat, leasedUntil: Option<Time>, failures: nat, crawlCount: nat, isActive: bool,
    lastStatus: Option<Outcome>, nextCrawlAt: Time, lastCrawledAt: Option<Time>)

  function CoreOf(r: Row): Core {
    Core(r.generation, r.leasedUntil, r.failures, r.crawlCount, r.isActive, r.lastStatus,
         r.nextCrawlAt, r.lastCrawledAt)
  }

  /** The failure counter as one crawl after another would keep it. */
  function Tally(failures: nat, status: Outcome): nat {
    match status
    case Success => 0
    case SampledOut => 0
    case Error => failures + 1
    case _ => failures
  }

  predicate KeepsActive(status: Outcome) {
    !status.NotFound? && !status.SampledOut?
  }

  function Apply(c: Core, e: Entry): Core {
    match e
    case Discovered(at) => Core(0, None, 0, 0, true, None, at, None)
    case Issued(_, at) => c.(generation := c.generation + 1, leasedUntil := Some(at + LEASE))
    case Finished(_, status, nextAt, at) =>
      c.(leasedUntil := None, failures := Tally(c.failures, status), crawlCount := c.crawlCount + 1,
         isActive := KeepsActive(status), lastStatus := Some(status), nextCrawlAt := nextAt,
         lastCrawledAt := Some(at))
    case Displaced(_) => c.(isActive := false, lastStatus := Some(SampledOut))
  }

  /** The row that results when the entries happen one at a time, each reading what the one before
      it wrote.  No claim-time value enters. */
  function Replay(es: seq<Entry>): Core
    decreases |es|
  {
    if es == [] then Core(0, None, 0, 0, true, None, 0, None)
    else Apply(Replay(es[..|es| - 1]), es[|es| - 1])
  }

  lemma ReplayAppend(es: seq<Entry>, e: Entry)
    ensures Replay(es + [e]) == Apply(Replay(es), e)
  {
    assert (es + [e])[..|es + [e]| - 1] == es;
  }

  // ---------------------------------------------------------------------------------- invariant

  /** Generations are issued in increasing order, and finalized in increasing order, up to gen. */
  ghost predicate Ordered(es: seq<Entry>, gen: nat) {
    && (forall i :: 0 <= i < |es| && es[i].Issued? ==> 1 <= es[i].generation <= gen)
    && (forall i :: 0 <= i < |es| && es[i].Finished? ==> 1 <= es[i].generation <= gen)
    && (forall i, j :: 0 <= i < j < |es| && es[i].Issued? && es[j].Issued? ==>
          es[i].generation < es[j].generation)
    && (forall i, j :: 0 <= i < j < |es| && es[i].Finished? && es[j].Finished? ==>
          es[i].generation < es[j].generation)
  }

  predicate IsFinalized(es: seq<Entry>, gen: nat) {
    exists i :: 0 <= i < |es| && es[i].Finished? && es[i].generation == gen
  }

  predicate DiscoveredOnce(es: seq<Entry>) {
    es != [] && es[0].Discovered? && forall i :: 0 < i < |es| ==> !es[i].Discovered?
  }

  ghost predicate RowOk(r: Row, es: seq<Entry>, now: Time) {
    && CoreOf(r) == Replay(es)
    && Ordered(es, r.generation)
    && r.crawlCount + (if r.leasedUntil.Some? then 1 else 0) <= r.generation
    && r.nextCrawlAt <= now + MAX_BACKOFF
    && (r.leasedUntil.Some? ==> r.leasedUntil.value <= now + LEASE && !IsFinalized(es, r.generation))
    && DiscoveredOnce(es)
    && PacedSince(r, es[0].at, now)
  }

  const SHORTEST_DELAY: Time := 5 * MINUTE

  function EarliestClaim(r: Row): Time {
    if r.leasedUntil.Some? && r.leasedUntil.value > r.nextCrawlAt then r.leasedUntil.value else r.nextCrawlAt
  }

  predicate PacedSince(r: Row, birth: Time, now: Time) {
    && birth + r.generation * SHORTEST_DELAY <= EarliestClaim(r)
    && birth + r.generation * SHORTEST_DELAY <= now + SHORTEST_DELAY
    && birth <= now
  }

  predicate ParamsOk(c: Claim, p: FinalizeParams, now: Time) {
    && p.tag == c.tag && p.generation == c.generation
    && p.failures == Tally(c.failures, p.status)
    && p.isActive == KeepsActive(p.status)
    && c.issuedAt + SHORTEST_DELAY <= p.nextCrawlAt <= now + MAX_BACKOFF
  }

  /** A claim in flight is either current, and then its row still carries its lease and the failure
      count it read, or superseded, and then its lease has run out.  It is never finalized yet. */
  ghost predicate FlightOk(f: Flight, rows: Table, log: map<Tag, seq<Entry>>, now: Time) {
    var c := f.claim;
    && c.tag in rows && c.tag in log
    && 1 <= c.generation <= rows[c.tag].generation
    && c.issuedAt <= now
    && !IsFinalized(log[c.tag], c.generation)
    && (c.generation == rows[c.tag].generation ==>
          && rows[c.tag].leasedUntil == Some(c.issuedAt + LEASE)
          && rows[c.tag].failures == c.failures
          && log[c.tag] != []
          && log[c.tag][0].at + c.generation * SHORTEST_DELAY <= c.issuedAt + SHORTEST_DELAY)
    && (c.generation < rows[c.tag].generation ==> c.issuedAt + LEASE < now)
    && (f.stage.Finalize? ==> ParamsOk(c, f.stage.params, now))
  }

  ghost predicate RowsOk(s: World) {
    && s.log.Keys == s.rows.Keys
    && forall t :: t in s.rows ==> RowOk(s.rows[t], s.log[t], s.now)
  }

  ghost predicate FlightsOk(s: World) {
    forall w :: w in s.flights ==> FlightOk(s.flights[w], s.rows, s.log, s.now)
  }

  predicate SameClaim(a: Claim, b: Claim) {
    a.tag == b.tag && a.generation == b.generation
  }

  ghost predicate ClaimsDiffer(s: World) {
    forall v, w :: v in s.flights && w in s.flights && v != w ==>
      !SameClaim(s.flights[v].claim, s.flights[w].claim)
  }

  ghost predicate Inv(s: World) {
    RowsOk(s) && FlightsOk(s) && ClaimsDiffer(s)
  }

  // ------------------------------------------------------------------- every step keeps Inv

  /** Moving a claim to another stage. */
  lemma MoveKeeps(s: World, w: nat, stage: Stage)
    requires Inv(s) && w in s.flights
    requires stage.Finalize? ==> ParamsOk(s.flights[w].claim, stage.params, s.now)
    ensures Inv(To(s, w, stage))
  {
    var s' := To(s, w, stage);
    forall v | v in s'.flights ensures FlightOk(s'.flights[v], s'.rows, s'.log, s'.now) {
      assert FlightOk(s.flights[v], s.rows, s.log, s.now);
    }
  }

  lemma LeaveKeeps(s: World, w: nat)
    requires Inv(s)
    ensures Inv(Leave(s, w))
  {
    var s' := Leave(s, w);
    forall v | v in s'.flights ensures FlightOk(s'.flights[v], s'.rows, s'.log, s'.now) {
      assert FlightOk(s.flights[v], s.rows, s.log, s.now);
    }
  }

  /** Writing columns outside the lease protocol (priority, bucket, trophies) or the sampling
      bookkeeping. */
  lemma ProfileWriteKeeps(s: World, rows: Table, rejected: set<Tag>)
    requires Inv(s) && rows.Keys == s.rows.Keys
    requires forall t :: t in rows ==> CoreOf(rows[t]) == CoreOf(s.rows[t])
    ensures Inv(s.(rows := rows, rejected := rejected))
  {
    var s' := s.(rows := rows, rejected := rejected);
    forall t | t in s'.rows ensures RowOk(s'.rows[t], s'.log[t], s'.now) {
      assert RowOk(s.rows[t], s.log[t], s.now);
      assert CoreOf(s'.rows[t]) == CoreOf(s.rows[t]);
    }
    forall v | v in s'.flights ensures FlightOk(s'.flights[v], s'.rows, s'.log, s'.now) {
      assert FlightOk(s.flights[v], s.rows, s.log, s.now);
      assert CoreOf(s'.rows[s.flights[v].claim.tag]) == CoreOf(s.rows[s.flights[v].claim.tag]);
    }
  }

  lemma TickKeeps(s: World, d: nat)
    requires Inv(s)
    ensures Inv(s.(now := s.now + d))
  {
    var s' := s.(now := s.now + d);
    forall t | t in s'.rows ensures RowOk(s'.rows[t], s'.log[t], s'.now) {
      assert RowOk(s.rows[t], s.log[t], s.now);
    }
    forall v | v in s'.flights ensures FlightOk(s'.flights[v], s'.rows, s'.log, s'.now) {
      assert FlightOk(s.flights[v], s.rows, s.log, s.now);
    }
  }

  lemma EnqueueKeeps(s: World, t: Tag)
    requires Inv(s)
    ensures Inv(Step(s, Enqueue(t)))
  {
    var s' := Step(s, Enqueue(t));
    if t !in s.rows {
      assert [Discovered(s.now)][..0] == [];
      OthersKeepRows(s, s', t);
      forall v | v in s'.flights ensures FlightOk(s'.flights[v], s'.rows, s'.log, s'.now) {
        assert FlightOk(s.flights[v], s.rows, s.log, s.now);
      }
    }
  }

  /** A log grown by one entry still answers every question about the entries it had. */
  lemma FinalizedAppend(es: seq<Entry>, e: Entry, gen: nat)
    ensures IsFinalized(es + [e], gen) <==>
            IsFinalized(es, gen) || (e.Finished? && e.generation == gen)
  {
    var grown := es + [e];
    assert grown[|es|] == e;
    forall i | 0 <= i < |es| ensures grown[i] == es[i] {}
    if IsFinalized(es, gen) {
      var i :| 0 <= i < |es| && es[i].Finished? && es[i].generation == gen;
      assert grown[i].Finished? && grown[i].generation == gen;
    }
  }

  lemma IssueOrdered(es: seq<Entry>, gen: nat, now: Time)
    requires Ordered(es, gen)
    ensures Ordered(es + [Issued(gen + 1, now)], gen + 1)
  {
    var e := Issued(gen + 1, now);
    forall i | 0 <= i < |es| ensures (es + [e])[i] == es[i] {}
    assert (es + [e])[|es|] == e;
  }

  lemma FinishOrdered(es: seq<Entry>, gen: nat, e: Entry)
    requires Ordered(es, gen) && !IsFinalized(es, gen) && 1 <= gen
    requires e.Finished? && e.generation == gen
    ensures Ordered(es + [e], gen)
  {
    forall i | 0 <= i < |es| ensures (es + [e])[i] == es[i] {}
    assert (es + [e])[|es|] == e;
  }

  lemma DisplaceOrdered(es: seq<Entry>, gen: nat, now: Time)
    requires Ordered(es, gen)
    ensures Ordered(es + [Displaced(now)], gen)
  {
    forall i | 0 <= i < |es| ensures (es + [Displaced(now)])[i] == es[i] {}
  }

  lemma DiscoveredOnceAppend(es: seq<Entry>, e: Entry)
    requires DiscoveredOnce(es) && !e.Discovered?
    ensures DiscoveredOnce(es + [e]) && (es + [e])[0] == es[0]
  {
    forall i | 0 <= i < |es| ensures (es + [e])[i] == es[i] {}
  }

  lemma NotYetFinalized(es: seq<Entry>, gen: nat)
    requires Ordered(es, gen)
    ensures !IsFinalized(es, gen + 1)
  {}

  lemma IssueKeepsRow(r: Row, es: seq<Entry>, now: Time)
    requires RowOk(r, es, now) && Claimable(r, now)
    ensures RowOk(r.(generation := r.generation + 1, leasedUntil := Some(now + LEASE)),
                  es + [Issued(r.generation + 1, now)], now)
  {
    hide Ordered, IsFinalized, Replay;
    var e := Issued(r.generation + 1, now);
    NotYetFinalized(es, r.generation);
    ReplayAppend(es, e);
    FinalizedAppend(es, e, r.generation + 1);
    IssueOrdered(es, r.generation, now);
    DiscoveredOnceAppend(es, e);
  }

  /** Issuing the next generation of t supersedes an older claim on t, whose lease must be over. */
  lemma IssueKeepsFlight(f: Flight, s: World, t: Tag)
    requires FlightOk(f, s.rows, s.log, s.now) && t in ClaimableTags(s.rows, s.now) && t in s.log
    requires RowOk(s.rows[t], s.log[t], s.now)
    ensures FlightOk(f, Leased(s.rows, t, s.now),
                     s.log[t := s.log[t] + [Issued(s.rows[t].generation + 1, s.now)]], s.now)
    ensures f.claim.tag == t ==> f.claim.generation <= s.rows[t].generation
  {
    FinalizedAppend(s.log[t], Issued(s.rows[t].generation + 1, s.now), f.claim.generation);
  }

  lemma NewFlightOk(s: World, t: Tag)
    requires t in ClaimableTags(s.rows, s.now) && t in s.log && RowOk(s.rows[t], s.log[t], s.now)
    ensures FlightOk(Flight(ClaimOf(s.rows, t, s.now), FetchProfile), Leased(s.rows, t, s.now),
                     s.log[t := s.log[t] + [Issued(s.rows[t].generation + 1, s.now)]], s.now)
  {
    var e := Issued(s.rows[t].generation + 1, s.now);
    FinalizedAppend(s.log[t], e, e.generation);
    assert (s.log[t] + [e])[0] == s.log[t][0];
  }

  lemma TakeKeeps(s: World, w: nat, t: Tag, delivered: bool)
    requires Inv(s)
    ensures Inv(Step(s, Take(w, t, delivered)))
  {
    if w !in s.flights && t in ClaimableTags(s.rows, s.now) {
      TakeKeepsRows(s, w, t, delivered);
      TakeKeepsFlights(s, w, t, delivered);
    }
  }

  lemma TakeKeepsRows(s: World, w: nat, t: Tag, delivered: bool)
    requires RowsOk(s) && w !in s.flights && t in ClaimableTags(s.rows, s.now)
    ensures RowsOk(Step(s, Take(w, t, delivered)))
  {
    hide RowOk;
    var s' := Step(s, Take(w, t, delivered));
    assert RowOk(s.rows[t], s.log[t], s.now);
    IssueKeepsRow(s.rows[t], s.log[t], s.now);
    OthersKeepRows(s, s', t);
  }

  /** Only row t and its history changed, and they are fine. */
  lemma OthersKeepRows(s: World, s': World, t: Tag)
    requires RowsOk(s) && t in s'.rows && t in s'.log && s'.now == s.now
    requires s'.rows == s.rows[t := s'.rows[t]] && s'.log == s.log[t := s'.log[t]]
    requires RowOk(s'.rows[t], s'.log[t], s'.now)
    ensures RowsOk(s')
  {
    forall u | u in s'.rows ensures RowOk(s'.rows[u], s'.log[u], s'.now) {
      if u != t {
        assert RowOk(s.rows[u], s.log[u], s.now);
      }
    }
  }

  lemma TakeKeepsFlights(s: World, w: nat, t: Tag, delivered: bool)
    requires Inv(s) && w !in s.flights && t in ClaimableTags(s.rows, s.now)
    ensures FlightsOk(Step(s, Take(w, t, delivered))) && ClaimsDiffer(Step(s, Take(w, t, delivered)))
  {
    hide FlightOk, RowOk;
    var s' := Step(s, Take(w, t, delivered));
    assert RowOk(s.rows[t], s.log[t], s.now);
    NewFlightOk(s, t);
    forall v | v in s.flights
      ensures FlightOk(s.flights[v], s'.rows, s'.log, s'.now)
      ensures !SameClaim(s.flights[v].claim, ClaimOf(s.rows, t, s.now))
    {
      assert FlightOk(s.flights[v], s.rows, s.log, s.now);
      IssueKeepsFlight(s.flights[v], s, t);
    }
  }

  lemma FinishKeepsRow(r: Row, es: seq<Entry>, now: Time, c: Claim, p: FinalizeParams)
    requires RowOk(r, es, now)
    requires FlightOk(Flight(c, Finalize(p)), map[c.tag := r], map[c.tag := es], now)
    requires c.generation == r.generation
    ensures RowOk(Finalized(map[c.tag := r], p, now)[c.tag],
                  es + [Finished(p.generation, p.status, p.nextCrawlAt, now)], now)
  {
    var e := Finished(p.generation, p.status, p.nextCrawlAt, now);
    ReplayAppend(es, e);
    FinishOrdered(es, r.generation, e);
    DiscoveredOnceAppend(es, e);
  }

  /** A commit of generation gen of t leaves every other claim as good as it was. */
  lemma FinishKeepsFlight(f: Flight, s: World, p: FinalizeParams)
    requires FlightOk(f, s.rows, s.log, s.now) && Owns(s.rows, p.tag, p.generation) && p.tag in s.log
    requires f.claim.tag != p.tag || f.claim.generation != p.generation
    ensures FlightOk(f, Finalized(s.rows, p, s.now),
                     s.log[p.tag := s.log[p.tag] + [Finished(p.generation, p.status, p.nextCrawlAt, s.now)]], s.now)
  {
    FinalizedAppend(s.log[p.tag], Finished(p.generation, p.status, p.nextCrawlAt, s.now), f.claim.generation);
  }

  lemma CommitKeeps(s: World, w: nat, applied: bool)
    requires Inv(s)
    ensures Inv(Step(s, Committed(w, applied)))
  {
    if w in s.flights && s.flights[w].stage.Finalize? {
      var c, p := s.flights[w].claim, s.flights[w].stage.params;
      assert FlightOk(s.flights[w], s.rows, s.log, s.now);
      if applied && Owns(s.rows, p.tag, p.generation) {
        AppliedCommitKeeps(s, w, c, p);
      } else {
        LeaveKeeps(s, w);
      }
    }
  }

  lemma AppliedCommitKeeps(s: World, w: nat, c: Claim, p: FinalizeParams)
    requires Inv(s) && w in s.flights && s.flights[w] == Flight(c, Finalize(p))
    requires Owns(s.rows, p.tag, p.generation) && p.tag == c.tag && p.generation == c.generation
    ensures Inv(CommitStep(s, w, true))
  {
    var s' := CommitStep(s, w, true);
    var t := c.tag;
    assert RowOk(s.rows[t], s.log[t], s.now);
    assert FlightOk(s.flights[w], s.rows, s.log, s.now);
    FinishKeepsRow(s.rows[t], s.log[t], s.now, c, p);
    assert s'.rows[t] == Finalized(map[t := s.rows[t]], p, s.now)[t];
    OthersKeepRows(s, s', t);
    forall v | v in s'.flights ensures FlightOk(s'.flights[v], s'.rows, s'.log, s'.now) {
      assert FlightOk(s.flights[v], s.rows, s.log, s.now);
      FinishKeepsFlight(s.flights[v], s, p);
    }
  }

  lemma DisplaceKeepsRow(r: Row, es: seq<Entry>, now: Time)
    requires RowOk(r, es, now)
    ensures RowOk(r.(isActive := false, lastStatus := Some(SampledOut)), es + [Displaced(now)], now)
  {
    ReplayAppend(es, Displaced(now));
    FinalizedAppend(es, Displaced(now), r.generation);
    DisplaceOrdered(es, r.generation, now);
    DiscoveredOnceAppend(es, Displaced(now));
  }

  lemma DisplaceKeepsFlight(f: Flight, s: World, victim: Tag)
    requires FlightOk(f, s.rows, s.log, s.now) && victim in s.rows && victim in s.log
    ensures FlightOk(f, Evicted(s.rows, Some(victim)),
                     s.log[victim := s.log[victim] + [Displaced(s.now)]], s.now)
  {
    FinalizedAppend(s.log[victim], Displaced(s.now), f.claim.generation);
  }

  lemma DisplaceKeeps(s: World, victim: Tag)
    requires Inv(s) && victim in s.rows
    ensures Inv(s.(rows := Evicted(s.rows, Some(victim)),
                   log := s.log[victim := s.log[victim] + [Displaced(s.now)]]))
  {
    var s' := s.(rows := Evicted(s.rows, Some(victim)),
                 log := s.log[victim := s.log[victim] + [Displaced(s.now)]]);
    DisplaceKeepsRow(s.rows[victim], s.log[victim], s.now);
    OthersKeepRows(s, s', victim);
    forall v | v in s'.flights ensures FlightOk(s'.flights[v], s'.rows, s'.log, s'.now) {
      assert FlightOk(s.flights[v], s.rows, s.log, s.now);
      DisplaceKeepsFlight(s.flights[v], s, victim);
    }
  }

  lemma SampleEffectKeeps(s: World, t: Tag, trophies: int, u: real, victim: Option<Tag>)
    requires Inv(s) && SampleEnabled(s, t, trophies, u, victim)
    ensures Inv(SampleEffect(s, t, trophies, u, victim))
  {
    var s' := SampleEffect(s, t, trophies, u, victim);
    var classified := Classified(s.rows, t, BucketForTrophies(trophies), PriorityForTrophies(trophies), trophies);
    ProfileWriteKeeps(s, classified, s'.rejected);
    if victim.Some? {
      DisplaceKeeps(s.(rows := classified, rejected := s'.rejected), victim.value);
    }
  }

  lemma ProfiledCore(rows: Table, t: Tag, priority: int, trophies: int)
    ensures var rows' := Profiled(rows, t, priority, trophies);
            rows'.Keys == rows.Keys && forall u :: u in rows ==> CoreOf(rows'[u]) == CoreOf(rows[u])
  {}

  lemma SampleKeeps(s: World, w: nat, u: real, victim: Option<Tag>, fault: Fault)
    requires Inv(s) && w in s.flights && s.flights[w].stage.Classify?
    ensures Inv(SampleStep(s, w, u, victim, fault))
  {
    hide Inv, LegalVictim, Decide, Classified, Evicted, Profiled, BucketForTrophies, PriorityForTrophies;
    ProfiledCore(s.rows, s.flights[w].claim.tag, PriorityForTrophies(s.flights[w].stage.trophies), s.flights[w].stage.trophies);
    var c, trophies := s.flights[w].claim, s.flights[w].stage.trophies;
    var s' := SampleStep(s, w, u, victim, fault);
    var applied := fault.NoFault? || (fault.LostCommit? && fault.applied);
    var s1 := s;
    if c.isClassified {
      if applied {
        s1 := s.(rows := Profiled(s.rows, c.tag, PriorityForTrophies(trophies), trophies));
        ProfileWriteKeeps(s, s1.rows, s.rejected);
      }
    } else if SampleEnabled(s, c.tag, trophies, u, victim) {
      if applied {
        s1 := SampleEffect(s, c.tag, trophies, u, victim);
        SampleEffectKeeps(s, c.tag, trophies, u, victim);
      }
    }
    assert s1.flights == s.flights;
    if s' != s {
      if s' == Leave(s1, w) {
        LeaveKeeps(s1, w);
      } else {
        MoveKeeps(s1, w, s'.flights[w].stage);
      }
    }
  }

  lemma ParamsAreOk(c: Claim, now: Time, reply: Reply, sampledOut: bool, priority: int)
    requires c.issuedAt <= now
    ensures ParamsOk(c, ApiErrorParams(c, reply, now), now)
    ensures ParamsOk(c, TransientParams(c, now), now)
    ensures ParamsOk(c, FinalParams(c, sampledOut, priority, now), now)
  {
    BackoffRange(c.priority, c.failures);
  }

  lemma StepKeeps(s: World, e: Event)
    requires Inv(s)
    ensures Inv(Step(s, e))
  {
    match e
    case Tick(d) => TickKeeps(s, d);
    case Cancel => ProfileWriteKeeps(s, s.rows, s.rejected);
    case Enqueue(t) => EnqueueKeeps(s, t);
    case Take(w, t, delivered) => TakeKeeps(s, w, t, delivered);
    case Sampled(w, u, victim, fault) =>
      if w in s.flights && s.flights[w].stage.Classify? {
        SampleKeeps(s, w, u, victim, fault);
      }
    case Committed(w, applied) => CommitKeeps(s, w, applied);
    case _ => StageStepKeeps(s, e);
  }

  predicate StageEvent(e: Event) {
    e.ProfileReply? || e.LogReply? || e.LeaseChecked? || e.ProfileStored? || e.LogStored?
  }

  /** The steps that touch no table: a worker moves on, prepares a finalization, or leaves. */
  lemma StageOutcome(s: World, e: Event)
    requires StageEvent(e) && (e.w in s.flights ==> s.flights[e.w].claim.issuedAt <= s.now)
    ensures var s' := Step(s, e);
            || s' == s
            || s' == Leave(s, e.w)
            || (e.w in s.flights && e.w in s'.flights
                && s' == To(s, e.w, s'.flights[e.w].stage)
                && (s'.flights[e.w].stage.Finalize? ==>
                      ParamsOk(s.flights[e.w].claim, s'.flights[e.w].stage.params, s.now)))
  {
    if e.w in s.flights {
      var f := s.flights[e.w];
      var reply := if e.ProfileReply? || e.LogReply? then e.reply else Failed;
      if f.stage.StoreLog? {
        ParamsAreOk(f.claim, s.now, reply, f.stage.sampledOut, f.stage.priority);
      } else {
        ParamsAreOk(f.claim, s.now, reply, false, 0);
      }
    }
  }

  lemma StageStepKeeps(s: World, e: Event)
    requires Inv(s) && StageEvent(e)
    ensures Inv(Step(s, e))
  {
    assert e.w in s.flights ==> FlightOk(s.flights[e.w], s.rows, s.log, s.now);
    StageOutcome(s, e);
    var s' := Step(s, e);
    if s' != s {
      if s' == Leave(s, e.w) {
        LeaveKeeps(s, e.w);
      } else {
        MoveKeeps(s, e.w, s'.flights[e.w].stage);
      }
    }
  }

  lemma {:induction false} RunKeeps(s: World, es: seq<Event>)
    requires Inv(s)
    ensures Inv(Run(s, es))
    decreases |es|
  {
    if es != [] {
      RunKeeps(s, es[..|es| - 1]);
      StepKeeps(Run(s, es[..|es| - 1]), es[|es| - 1]);
    }
  }

  // --------------------------------------------------------------- what one step does to one row

  /** The entry that step e commits for row t, if any. */
  function Delta(s: World, e: Event, t: Tag): Option<Entry> {
    match e
    case Take(w, u, _) =>
      if u == t && w !in s.flights && t in ClaimableTags(s.rows, s.now)
      then Some(Issued(s.rows[t].generation + 1, s.now)) else None
    case Sampled(w, u, victim, fault) =>
      if victim == Some(t) && w in s.flights && s.flights[w].stage.Classify?
         && !s.flights[w].claim.isClassified
         && SampleEnabled(s, s.flights[w].claim.tag, s.flights[w].stage.trophies, u, victim)
         && (fault.NoFault? || (fault.LostCommit? && fault.applied))
      then Some(Displaced(s.now)) else None
    case Committed(w, applied) =>
      if w in s.flights && s.flights[w].stage.Finalize? && applied
         && s.flights[w].stage.params.tag == t && Owns(s.rows, t, s.flights[w].stage.params.generation)
      then
        var p := s.flights[w].stage.params;
        Some(Finished(p.generation, p.status, p.nextCrawlAt, s.now))
      else None
    case _ => None
  }

  lemma StepLog(s: World, e: Event, t: Tag)
    requires t in s.rows && s.rows.Keys == s.log.Keys
    ensures t in Step(s, e).log
    ensures Step(s, e).log[t] == match Delta(s, e, t) case None => s.log[t] case Some(x) => s.log[t] + [x]
  {
    if e.Sampled? && e.w in s.flights && s.flights[e.w].stage.Classify? {
      SampleLog(s, e.w, e.u, e.victim, e.fault, t);
    }
  }

  lemma SampleLog(s: World, w: nat, u: real, victim: Option<Tag>, fault: Fault, t: Tag)
    requires w in s.flights && s.flights[w].stage.Classify? && t in s.log
    ensures var s' := SampleStep(s, w, u, victim, fault);
            && t in s'.log
            && s'.log[t] == match Delta(s, Sampled(w, u, victim, fault), t)
                            case None => s.log[t] case Some(x) => s.log[t] + [x]
  {}

  /** A step's effect on the lease columns of a row is exactly that of the entry it commits. */
  lemma StepOnRow(s: World, e: Event, t: Tag)
    requires Inv(s) && t in s.rows
    ensures var s' := Step(s, e);
            && t in s'.rows && t in s'.log
            && (match Delta(s, e, t)
                case None => s'.log[t] == s.log[t] && CoreOf(s'.rows[t]) == CoreOf(s.rows[t])
                case Some(x) => s'.log[t] == s.log[t] + [x]
                                && CoreOf(s'.rows[t]) == Apply(CoreOf(s.rows[t]), x))
  {
    StepLog(s, e, t);
    StepKeeps(s, e);
    var s' := Step(s, e);
    assert RowOk(s.rows[t], s.log[t], s.now);
    assert RowOk(s'.rows[t], s'.log[t], s'.now);
    match Delta(s, e, t)
    case None =>
    case Some(x) => ReplayAppend(s.log[t], x);
  }

  /** A step's effect on the claims in flight: only Take adds one, for a fresh generation. */
  lemma StepOnFlights(s: World, e: Event, w: nat)
    requires w in Step(s, e).flights
    ensures w in s.flights ==> Step(s, e).flights[w].claim == s.flights[w].claim
    ensures w !in s.flights ==>
              && e.Take? && e.w == w && e.delivered
              && e.t in ClaimableTags(s.rows, s.now)
              && Step(s, e).flights[w] == Flight(ClaimOf(s.rows, e.t, s.now), FetchProfile)
  {
    hide SampleStep, Finalized, Leased, Enqueued, ApiErrorParams, TransientParams, FinalParams;
    if e.Sampled? && e.w in s.flights && s.flights[e.w].stage.Classify? {
      SampleFlights(s, e.w, e.u, e.victim, e.fault);
    }
  }

  lemma SampleFlights(s: World, w: nat, u: real, victim: Option<Tag>, fault: Fault)
    requires w in s.flights && s.flights[w].stage.Classify?
    ensures var s' := SampleStep(s, w, u, victim, fault);
            forall v :: v in s'.flights ==> v in s.flights && s'.flights[v].claim == s.flights[v].claim
  {}
}
