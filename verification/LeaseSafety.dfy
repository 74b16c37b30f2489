/** The crawl queue's guarantees over every run: no lost updates, exclusive leases, permanent
    deactivation, and abandoned claims. */
module LeaseSafety {
  import opened Collections
  import opened CrawlQueue
  import opened Domain
  import opened Worker
  import opened Leases

  /** The states some run reaches from an empty queue. */
  function Reached(cap: int, start: Time, es: seq<Event>): World {
    Run(Init(cap, start), es)
  }

  lemma ReachedOk(cap: int, start: Time, es: seq<Event>)
    ensures Inv(Reached(cap, start, es))
  {
    RunKeeps(Init(cap, start), es);
  }

  // ------------------------------------------------------------------------- no lost updates

  function FinishedGens(es: seq<Entry>): set<nat> {
    set i | 0 <= i < |es| && es[i].Finished? :: es[i].generation
  }

  function IssuedGens(es: seq<Entry>): set<nat> {
    set i | 0 <= i < |es| && es[i].Issued? :: es[i].generation
  }

  lemma GensAppend(es: seq<Entry>, e: Entry)
    ensures FinishedGens(es + [e]) == FinishedGens(es) + if e.Finished? then {e.generation} else {}
    ensures IssuedGens(es + [e]) == IssuedGens(es) + if e.Issued? then {e.generation} else {}
  {
    var grown := es + [e];
    assert grown[|es|] == e;
    forall i | 0 <= i < |es| ensures grown[i] == es[i] {}
    forall g | g in FinishedGens(es) ensures g in FinishedGens(grown) {
      var i :| 0 <= i < |es| && es[i].Finished? && es[i].generation == g;
      assert grown[i].Finished?;
    }
    forall g | g in IssuedGens(es) ensures g in IssuedGens(grown) {
      var i :| 0 <= i < |es| && es[i].Issued? && es[i].generation == g;
      assert grown[i].Issued?;
    }
  }

  lemma OrderedPrefix(es: seq<Entry>, e: Entry, gen: nat)
    requires Ordered(es + [e], gen)
    ensures Ordered(es, gen)
    ensures e.Finished? ==> e.generation !in FinishedGens(es)
    ensures e.Issued? ==> e.generation !in IssuedGens(es)
  {
    var grown := es + [e];
    assert grown[|es|] == e;
    forall i | 0 <= i < |es| ensures grown[i] == es[i] {}
  }

  /** In an ordered history the replayed counters count distinct generations. */
  lemma {:induction false} ReplayCounts(es: seq<Entry>, gen: nat)
    requires DiscoveredOnce(es) && Ordered(es, gen)
    ensures Replay(es).crawlCount == |FinishedGens(es)|
    ensures Replay(es).generation == |IssuedGens(es)|
    ensures Replay(es).failures <= Replay(es).crawlCount
    decreases |es|
  {
    hide Apply, Replay, Ordered, FinishedGens, IssuedGens;
    var init, e := es[..|es| - 1], es[|es| - 1];
    assert es == init + [e];
    ReplayAppend(init, e);
    GensAppend(init, e);
    OrderedPrefix(init, e, gen);
    if init == [] {
      NoHistory(e);
    } else {
      assert DiscoveredOnce(init) && !e.Discovered?;
      ReplayCounts(init, gen);
      ApplyCounts(Replay(init), e, FinishedGens(init), IssuedGens(init));
    }
  }

  lemma NoHistory(e: Entry)
    requires e.Discovered?
    ensures FinishedGens([]) == {} && IssuedGens([]) == {}
    ensures var c := Apply(Replay([]), e); c.crawlCount == 0 && c.generation == 0 && c.failures == 0
  {}

  lemma ApplyCounts(c: Core, e: Entry, finished: set<nat>, issued: set<nat>)
    requires !e.Discovered?
    requires c.crawlCount == |finished| && c.generation == |issued| && c.failures <= c.crawlCount
    requires e.Finished? ==> e.generation !in finished
    requires e.Issued? ==> e.generation !in issued
    ensures Apply(c, e).crawlCount == |finished + if e.Finished? then {e.generation} else {}|
    ensures Apply(c, e).generation == |issued + if e.Issued? then {e.generation} else {}|
    ensures Apply(c, e).failures <= Apply(c, e).crawlCount
  {}

  /** The row is what a serial crawler would have produced from the committed history, although
      counters are read at the claim and written at the end, with stale workers in between; and
      its counters count the distinct generations issued and finalized. */
  lemma NoLostUpdates(cap: int, start: Time, es: seq<Event>, t: Tag)
    requires t in Reached(cap, start, es).rows
    ensures var s := Reached(cap, start, es);
            && t in s.log
            && CoreOf(s.rows[t]) == Replay(s.log[t])
            && s.rows[t].crawlCount == |FinishedGens(s.log[t])|
            && s.rows[t].generation == |IssuedGens(s.log[t])|
  {
    var s := Reached(cap, start, es);
    ReachedOk(cap, start, es);
    assert RowOk(s.rows[t], s.log[t], s.now);
    ReplayCounts(s.log[t], s.rows[t].generation);
  }

  // --------------------------------------------------------------------------- lease safety

  predicate LeaseLive(c: Claim, now: Time) {
    now <= c.issuedAt + LEASE
  }

  /** Of the workers inside RunOnce at most one holds an unexpired claim on a player; it owns the
      row's current generation, so its finalization takes effect, and the finalization of every
      other claim on the player changes nothing. */
  lemma LeasesExclude(cap: int, start: Time, es: seq<Event>, v: nat, w: nat)
    requires var s := Reached(cap, start, es);
             && v in s.flights && w in s.flights && v != w
             && s.flights[v].claim.tag == s.flights[w].claim.tag
    ensures var s := Reached(cap, start, es);
            var a, b := s.flights[v].claim, s.flights[w].claim;
            && !(LeaseLive(a, s.now) && LeaseLive(b, s.now))
            && (LeaseLive(a, s.now) ==>
                  && Owns(s.rows, a.tag, a.generation)
                  && Step(s, Committed(w, true)).rows == s.rows)
  {
    var s := Reached(cap, start, es);
    ReachedOk(cap, start, es);
    assert FlightOk(s.flights[v], s.rows, s.log, s.now);
    assert FlightOk(s.flights[w], s.rows, s.log, s.now);
    assert !SameClaim(s.flights[v].claim, s.flights[w].claim);
  }

  /** Each generation of a row is issued at most once and finalized at most once, in increasing
      order, and while a lease is set at least one issued generation is still unfinalized. */
  lemma GenerationsOnce(cap: int, start: Time, es: seq<Event>, t: Tag)
    requires t in Reached(cap, start, es).rows
    ensures var s := Reached(cap, start, es);
            && t in s.log && Ordered(s.log[t], s.rows[t].generation)
            && s.rows[t].crawlCount <= s.rows[t].generation
            && (s.rows[t].leasedUntil.Some? ==> s.rows[t].crawlCount <= s.rows[t].generation - 1)
  {
    var s := Reached(cap, start, es);
    ReachedOk(cap, start, es);
    assert RowOk(s.rows[t], s.log[t], s.now);
  }

  // --------------------------------------------------------------- 32-bit counters never wrap

  const INT32_MAX: int := 0x7fff_ffff

  /** Claims of one row lie at least five minutes apart, so the 32-bit generation and failure
      columns cannot wrap before 2^31 - 1 such delays (over twenty thousand years) have passed
      since the player was discovered. */
  lemma CountersDoNotWrap(cap: int, start: Time, es: seq<Event>, t: Tag)
    requires t in Reached(cap, start, es).rows
    ensures var s := Reached(cap, start, es);
            && t in s.log && s.log[t] != []
            && (s.rows[t].generation - 1) * SHORTEST_DELAY <= s.now - s.log[t][0].at
            && (s.now - s.log[t][0].at < INT32_MAX * SHORTEST_DELAY ==>
                  s.rows[t].failures <= s.rows[t].crawlCount <= s.rows[t].generation <= INT32_MAX)
  {
    var s := Reached(cap, start, es);
    ReachedOk(cap, start, es);
    assert RowOk(s.rows[t], s.log[t], s.now);
    ReplayCounts(s.log[t], s.rows[t].generation);
  }

  // --------------------------------------------------------------------- abandoned claims

  /** Step e takes worker w out of RunOnce other than through FinalizeCrawl: a shutdown, a global
      halt, a failed ownership check or a lost lease. */
  predicate Abandons(s: World, e: Event, w: nat) {
    w in s.flights && w !in Step(s, e).flights && !e.Committed?
  }

  ghost predicate NeverToFinish(s: World, t: Tag, gen: nat) {
    && t in s.rows && t in s.log
    && gen <= s.rows[t].generation
    && !IsFinalized(s.log[t], gen)
    && forall w :: w in s.flights ==> s.flights[w].claim.tag != t || s.flights[w].claim.generation != gen
  }

  lemma StepNeverToFinish(s: World, e: Event, t: Tag, gen: nat)
    requires Inv(s) && NeverToFinish(s, t, gen)
    ensures NeverToFinish(Step(s, e), t, gen)
  {
    hide Step, IsFinalized, RowOk;
    var s' := Step(s, e);
    StepOnRow(s, e, t);
    match Delta(s, e, t) {
      case None =>
      case Some(x) =>
        FinalizedAppend(s.log[t], x, gen);
        assert e.Committed? ==> FlightOk(s.flights[e.w], s.rows, s.log, s.now);
    }
    forall w | w in s'.flights
      ensures s'.flights[w].claim.tag != t || s'.flights[w].claim.generation != gen
    {
      StepOnFlights(s, e, w);
    }
  }

  lemma {:induction false} RunNeverToFinish(s: World, es: seq<Event>, t: Tag, gen: nat)
    requires Inv(s) && NeverToFinish(s, t, gen)
    ensures NeverToFinish(Run(s, es), t, gen)
    decreases |es|
  {
    if es != [] {
      RunNeverToFinish(s, es[..|es| - 1], t, gen);
      RunKeeps(s, es[..|es| - 1]);
      StepNeverToFinish(Run(s, es[..|es| - 1]), es[|es| - 1], t, gen);
    }
  }

  /** Worker w keeps the claim c through every state of the run. */
  predicate Flying(s: World, es: seq<Event>, w: nat, c: Claim)
    decreases |es|
  {
    && w in Run(s, es).flights && Run(s, es).flights[w].claim == c
    && (es != [] ==> Flying(s, es[..|es| - 1], w, c))
  }

  lemma UntouchedStep(s: World, e: Event, w: nat)
    requires Inv(s) && w in s.flights && LeaseLive(s.flights[w].claim, s.now)
    requires e.Committed? ==> e.w != w
    ensures var t := s.flights[w].claim.tag;
            t in s.rows && t in Step(s, e).rows && CoreOf(Step(s, e).rows[t]) == CoreOf(s.rows[t])
  {
    var c := s.flights[w].claim;
    assert FlightOk(s.flights[w], s.rows, s.log, s.now);
    assert !LeaseOver(s.rows[c.tag], s.now);
    if e.Committed? && e.w in s.flights {
      assert FlightOk(s.flights[e.w], s.rows, s.log, s.now);
      assert !SameClaim(s.flights[e.w].claim, c);
    }
    StepOnRow(s, e, c.tag);
  }

  /** The only step by which w itself could finalize takes it out of RunOnce. */
  lemma CommitLeaves(s: World, e: Event, w: nat)
    requires e.Committed? && e.w == w && w in s.flights && w in Step(s, e).flights
    ensures Step(s, e) == s
  {}

  lemma {:induction false} UntouchedRun(s: World, es: seq<Event>, w: nat, c: Claim)
    requires Inv(s) && Flying(s, es, w, c) && LeaseLive(c, Run(s, es).now)
    ensures var s' := Run(s, es);
            c.tag in s.rows && c.tag in s'.rows && CoreOf(s'.rows[c.tag]) == CoreOf(s.rows[c.tag])
    decreases |es|
  {
    if es == [] {
      assert FlightOk(s.flights[w], s.rows, s.log, s.now);
    } else {
      var s0, last := Run(s, es[..|es| - 1]), es[|es| - 1];
      StepTime(s0, last);
      UntouchedRun(s, es[..|es| - 1], w, c);
      RunKeeps(s, es[..|es| - 1]);
      if last.Committed? && last.w == w {
        CommitLeaves(s0, last, w);
      } else {
        UntouchedStep(s0, last, w);
      }
    }
  }

  lemma StepTime(s: World, e: Event)
    ensures s.now <= Step(s, e).now
    ensures !e.Tick? ==> Step(s, e).now == s.now
  {}

  /** Shutdown, halt and lost-lease exits.  If w abandons its claim while the lease is live, the
      status, failure count, activity, next crawl time and crawl count of the row are still what
      they were when w claimed it, no matter what the other workers did meanwhile; and in no
      continuation is the abandoned generation ever finalized. */
  lemma AbandonedClaimLeavesRow(s: World, w: nat, t: Tag, es: seq<Event>, e: Event, later: seq<Event>)
    requires Inv(s) && w !in s.flights && t in ClaimableTags(s.rows, s.now) && t in s.log
    requires Flying(Step(s, Take(w, t, true)), es, w, ClaimOf(s.rows, t, s.now))
    requires Abandons(Run(Step(s, Take(w, t, true)), es), e, w)
    ensures var s' := Step(Run(Step(s, Take(w, t, true)), es), e);
            && (LeaseLive(ClaimOf(s.rows, t, s.now), s'.now) ==>
                  && t in s'.rows
                  && s'.rows[t].lastStatus == s.rows[t].lastStatus
                  && s'.rows[t].failures == s.rows[t].failures
                  && s'.rows[t].isActive
                  && s'.rows[t].nextCrawlAt == s.rows[t].nextCrawlAt
                  && s'.rows[t].crawlCount == s.rows[t].crawlCount)
            && t in Run(s', later).log
            && !IsFinalized(Run(s', later).log[t], s.rows[t].generation + 1)
  {
    hide Step, Run, Inv, Flying, Abandons, IsFinalized, LeaseLive, NeverToFinish;
    var s1 := Step(s, Take(w, t, true));
    var c := ClaimOf(s.rows, t, s.now);
    TakenRow(s, w, t);
    StepKeeps(s, Take(w, t, true));
    AbandonAfter(s1, w, c, es, e);
    var s' := Step(Run(s1, es), e);
    RunNeverToFinish(s', later, t, c.generation);
    NeverFinalized(Run(s', later), t, c.generation);
  }

  lemma NeverFinalized(s: World, t: Tag, gen: nat)
    requires NeverToFinish(s, t, gen)
    ensures t in s.log && !IsFinalized(s.log[t], gen)
  {}

  lemma TakenRow(s: World, w: nat, t: Tag)
    requires w !in s.flights && t in ClaimableTags(s.rows, s.now) && t in s.log
    ensures var s1 := Step(s, Take(w, t, true));
            && t in s1.rows && s.rows[t].isActive
            && CoreOf(s1.rows[t]) == Apply(CoreOf(s.rows[t]), Issued(s.rows[t].generation + 1, s.now))
  {}

  lemma AbandonAfter(s: World, w: nat, c: Claim, es: seq<Event>, e: Event)
    requires Inv(s) && Flying(s, es, w, c) && Abandons(Run(s, es), e, w)
    ensures var s' := Step(Run(s, es), e);
            && Inv(s') && NeverToFinish(s', c.tag, c.generation)
            && (LeaseLive(c, s'.now) ==>
                  c.tag in s.rows && CoreOf(s'.rows[c.tag]) == CoreOf(s.rows[c.tag]))
  {
    var s2 := Run(s, es);
    RunKeeps(s, es);
    StepKeeps(s2, e);
    StepTime(s2, e);
    if LeaseLive(c, Step(s2, e).now) {
      UntouchedRun(s, es, w, c);
      UntouchedStep(s2, e, w);
    }
    AbandonLeavesNobody(s2, e, w);
  }

  lemma AbandonLeavesNobody(s: World, e: Event, w: nat)
    requires Inv(s) && Abandons(s, e, w)
    ensures NeverToFinish(Step(s, e), s.flights[w].claim.tag, s.flights[w].claim.generation)
  {
    hide Step, IsFinalized, RowOk;
    var c, s' := s.flights[w].claim, Step(s, e);
    assert FlightOk(s.flights[w], s.rows, s.log, s.now);
    StepOnRow(s, e, c.tag);
    match Delta(s, e, c.tag) {
      case None =>
      case Some(x) => FinalizedAppend(s.log[c.tag], x, c.generation);
    }
    forall v | v in s'.flights
      ensures s'.flights[v].claim.tag != c.tag || s'.flights[v].claim.generation != c.generation
    {
      StepOnFlights(s, e, v);
      assert v in s.flights ==> !SameClaim(s.flights[v].claim, c);
    }
  }

  // ------------------------------------------------------------------- permanent deactivation

  /** The worker's current claim can still end in an active finalization. */
  predicate MayEndActive(s: World, f: Flight) {
    match f.stage
    case FetchProfile => !s.cancelled || LeaseLive(f.claim, s.now)
    case FetchLog(_) => !s.cancelled || LeaseLive(f.claim, s.now)
    case CheckLease(_) => LeaseLive(f.claim, s.now)
    case StoreProfile(_) => true
    case Classify(_) => true
    case StoreLog(sampledOut, _) => !sampledOut || !s.cancelled
    case Finalize(p) => p.isActive
  }

  /** Some worker holds the row's current generation and can still end it active. */
  predicate Revivable(s: World, t: Tag) {
    t in s.rows && exists w :: w in s.flights && s.flights[w].claim.tag == t
                               && s.flights[w].claim.generation == s.rows[t].generation
                               && MayEndActive(s, s.flights[w])
  }

  predicate Dormant(s: World, t: Tag) {
    t in s.rows && !s.rows[t].isActive && !Revivable(s, t)
  }

  lemma StepDormant(s: World, e: Event, t: Tag)
    requires Inv(s) && Dormant(s, t)
    ensures Dormant(Step(s, e), t) && Step(s, e).rows[t].generation == s.rows[t].generation
  {
    hide Step, IsFinalized, RowOk;
    var s' := Step(s, e);
    if e.Committed? && e.w in s.flights {
      assert FlightOk(s.flights[e.w], s.rows, s.log, s.now);
    }
    StepOnRow(s, e, t);
    if Revivable(s', t) {
      var w :| w in s'.flights && s'.flights[w].claim.tag == t
               && s'.flights[w].claim.generation == s'.rows[t].generation && MayEndActive(s', s'.flights[w]);
      StepOnFlights(s, e, w);
      assert w in s.flights && !MayEndActive(s, s.flights[w]);
      assert FlightOk(s.flights[w], s.rows, s.log, s.now);
      StagesOnlyLoseChances(s, e, w);
    }
  }

  /** No step gives a claim a chance to end active that it did not have. */
  lemma StagesOnlyLoseChances(s: World, e: Event, w: nat)
    requires w in s.flights && w in Step(s, e).flights
    requires var c := s.flights[w].claim;
             c.tag in s.rows && s.rows[c.tag].leasedUntil == Some(c.issuedAt + LEASE)
    requires !MayEndActive(s, s.flights[w])
    ensures !MayEndActive(Step(s, e), Step(s, e).flights[w])
  {
    if e.Sampled? && e.w in s.flights && s.flights[e.w].stage.Classify? {
      SampleOtherFlight(s, e.w, e.u, e.victim, e.fault, w);
    }
  }

  lemma SampleOtherFlight(s: World, v: nat, u: real, victim: Option<Tag>, fault: Fault, w: nat)
    requires v in s.flights && s.flights[v].stage.Classify? && w in s.flights && w != v
    ensures var s' := SampleStep(s, v, u, victim, fault);
            s'.now == s.now && s'.cancelled == s.cancelled && w in s'.flights && s'.flights[w] == s.flights[w]
  {}

  lemma {:induction false} RunDormant(s: World, es: seq<Event>, t: Tag)
    requires Inv(s) && Dormant(s, t)
    ensures Dormant(Run(s, es), t) && Run(s, es).rows[t].generation == s.rows[t].generation
    decreases |es|
  {
    if es != [] {
      RunDormant(s, es[..|es| - 1], t);
      RunKeeps(s, es[..|es| - 1]);
      StepDormant(Run(s, es[..|es| - 1]), es[|es| - 1], t);
    }
  }

  function Rank(stage: Stage): nat {
    match stage
    case FetchProfile => 6
    case FetchLog(_) => 5
    case CheckLease(_) => 4
    case StoreProfile(_) => 3
    case Classify(_) => 2
    case StoreLog(_, _) => 1
    case Finalize(_) => 0
  }

  /** The next event on the way to an active finalization. */
  ghost function NextEvent(s: World, w: nat): Event
    requires w in s.flights
  {
    var f := s.flights[w];
    match f.stage
    case FetchProfile => ProfileReply(w, if s.cancelled then Ok else Throttled, 0)
    case FetchLog(_) => LogReply(w, if s.cancelled then Ok else Throttled)
    case CheckLease(_) => LeaseChecked(w, true)
    case StoreProfile(_) => ProfileStored(w, true)
    case Classify(trophies) => Sampled(w, 0.0, SomeVictim(s, f.claim.tag, trophies), NoFault)
    case StoreLog(sampledOut, _) => LogStored(w, !sampledOut)
    case Finalize(_) => Committed(w, true)
  }

  ghost function SomeVictim(s: World, t: Tag, trophies: int): Option<Tag> {
    var b := BucketForTrophies(trophies);
    var idle := Evictable(Classified(s.rows, t, b, PriorityForTrophies(trophies), trophies), b, t, s.now);
    if SampleVerdict(s, t, trophies, 0.0).KeepEvicting? && idle != {} then Some(Pick(idle)) else None
  }

  lemma LowDrawKeeps(s: World, t: Tag, trophies: int)
    requires s.rows.Keys == s.log.Keys
    ensures SampleEnabled(s, t, trophies, 0.0, SomeVictim(s, t, trophies))
    ensures !SampleVerdict(s, t, trophies, 0.0).Reject?
    ensures SomeVictim(s, t, trophies) != Some(t)
  {
    var b := BucketForTrophies(trophies);
    var seen := |InBucket(Classified(s.rows, t, b, PriorityForTrophies(trophies), trophies), b)|;
    if s.cap > 0 && seen > s.cap {
      assert s.cap as real / seen as real > 0.0;
    }
  }

  lemma NextEventAdvances(s: World, w: nat)
    requires Inv(s) && w in s.flights && MayEndActive(s, s.flights[w]) && !s.flights[w].stage.Finalize?
    requires Owns(s.rows, s.flights[w].claim.tag, s.flights[w].claim.generation)
    ensures var s', c := Step(s, NextEvent(s, w)), s.flights[w].claim;
            && w in s'.flights && s'.flights[w].claim == c
            && MayEndActive(s', s'.flights[w]) && Owns(s'.rows, c.tag, c.generation)
            && Rank(s'.flights[w].stage) < Rank(s.flights[w].stage)
  {
    assert FlightOk(s.flights[w], s.rows, s.log, s.now);
    if s.flights[w].stage.Classify? {
      LowDrawAdvances(s, w);
      StepOnRow(s, NextEvent(s, w), s.flights[w].claim.tag);
    } else {
      StageAdvances(s, w);
    }
  }

  lemma StageAdvances(s: World, w: nat)
    requires w in s.flights && MayEndActive(s, s.flights[w])
    requires !s.flights[w].stage.Finalize? && !s.flights[w].stage.Classify?
    requires var c := s.flights[w].claim;
             Owns(s.rows, c.tag, c.generation) && s.rows[c.tag].leasedUntil == Some(c.issuedAt + LEASE)
    ensures var s' := Step(s, NextEvent(s, w));
            && s'.rows == s.rows && w in s'.flights && s'.flights[w].claim == s.flights[w].claim
            && MayEndActive(s', s'.flights[w])
            && Rank(s'.flights[w].stage) < Rank(s.flights[w].stage)
  {}

  lemma LowDrawAdvances(s: World, w: nat)
    requires w in s.flights && s.flights[w].stage.Classify? && s.rows.Keys == s.log.Keys
    ensures var s' := Step(s, NextEvent(s, w));
            && w in s'.flights && s'.flights[w].claim == s.flights[w].claim
            && s'.flights[w].stage.StoreLog? && !s'.flights[w].stage.sampledOut
  {
    LowDrawKeeps(s, s.flights[w].claim.tag, s.flights[w].stage.trophies);
  }

  lemma RunCons(s: World, e: Event, es: seq<Event>)
    ensures Run(s, [e] + es) == Run(Step(s, e), es)
  {
    RunSplit(s, [e], es);
    assert [e][..0] == [];
  }

  lemma {:induction false} Revive(s: World, w: nat) returns (es: seq<Event>)
    requires Inv(s) && w in s.flights && MayEndActive(s, s.flights[w])
    requires Owns(s.rows, s.flights[w].claim.tag, s.flights[w].claim.generation)
    ensures var t := s.flights[w].claim.tag; t in Run(s, es).rows && Run(s, es).rows[t].isActive
    decreases Rank(s.flights[w].stage)
  {
    var e := NextEvent(s, w);
    assert FlightOk(s.flights[w], s.rows, s.log, s.now);
    if s.flights[w].stage.Finalize? {
      es := [e];
      assert [e][..0] == [];
    } else {
      NextEventAdvances(s, w);
      StepKeeps(s, e);
      var rest := Revive(Step(s, e), w);
      es := [e] + rest;
      RunCons(s, e, rest);
    }
  }

  /** An inactive row comes back to life in some continuation exactly when a worker still holds its
      current generation and can end it active.  Otherwise it stays inactive in every continuation
      and is never claimed again (its generation stands still). */
  lemma DeactivationPermanence(s: World, t: Tag)
    requires Inv(s) && t in s.rows && !s.rows[t].isActive
    ensures Revivable(s, t) <==> exists es :: t in Run(s, es).rows && Run(s, es).rows[t].isActive
    ensures !Revivable(s, t) ==> forall es ::
              t in Run(s, es).rows && !Run(s, es).rows[t].isActive
              && Run(s, es).rows[t].generation == s.rows[t].generation
  {
    if Revivable(s, t) {
      var w :| w in s.flights && s.flights[w].claim.tag == t
               && s.flights[w].claim.generation == s.rows[t].generation && MayEndActive(s, s.flights[w]);
      var es := Revive(s, w);
    } else {
      forall es ensures Dormant(Run(s, es), t) && Run(s, es).rows[t].generation == s.rows[t].generation {
        RunDormant(s, es, t);
      }
    }
  }

  /** A finalized deactivation, and an eviction of a row without a lease, are permanent. */
  lemma IdleDeactivationIsPermanent(s: World, t: Tag, es: seq<Event>)
    requires Inv(s) && t in s.rows && !s.rows[t].isActive && s.rows[t].leasedUntil.None?
    ensures var s' := Run(s, es);
            t in s'.rows && !s'.rows[t].isActive && s'.rows[t].generation == s.rows[t].generation
  {
    forall w | w in s.flights && s.flights[w].claim.tag == t
      ensures s.flights[w].claim.generation != s.rows[t].generation
    {
      assert FlightOk(s.flights[w], s.rows, s.log, s.now);
    }
    RunDormant(s, es, t);
  }
}
