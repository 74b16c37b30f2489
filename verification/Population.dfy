/** The bucket cap under interleaving: what reservoir sampling guarantees about the number of
    active players while rejections are still on their way to being finalized. */
module Population {
  import opened Collections
  import opened CrawlQueue
  import opened Domain
  import opened Worker
  import opened Leases
  import opened LeaseSafety

  /** Players of bucket b whose rejection was committed and never finalized as sampled_out. */
  function Outstanding(s: World, b: int): set<Tag> {
    set t | t in s.rejected && t in s.rows && s.rows[t].bucket == Some(b)
  }

  /** Every crawl in flight is still inside its lease. */
  predicate Prompt(s: World) {
    forall w :: w in s.flights ==> LeaseLive(s.flights[w].claim, s.now)
  }

  function LeasedOthers(rows: Table, b: int, t: Tag, now: Time): set<Tag> {
    set u | u in Active(rows, b) - {t} && !LeaseOver(rows[u], now)
  }

  predicate Classifies(s: World, e: Event) {
    && e.Sampled? && e.w in s.flights && s.flights[e.w].stage.Classify?
    && !s.flights[e.w].claim.isClassified
  }

  /** When a player is classified, fewer than cap others of the bucket are under a live lease. */
  predicate RoomToEvict(s: World, e: Event) {
    Classifies(s, e) ==>
      |LeasedOthers(s.rows, BucketForTrophies(s.flights[e.w].stage.trophies), s.flights[e.w].claim.tag, s.now)| < s.cap
  }

  predicate PromptRun(s: World, es: seq<Event>)
    decreases |es|
  {
    && Prompt(Run(s, es))
    && (es != [] ==>
          && PromptRun(s, es[..|es| - 1])
          && RoomToEvict(Run(s, es[..|es| - 1]), es[|es| - 1]))
  }

  predicate Unsampled(f: Flight) {
    !f.claim.isClassified && !f.stage.StoreLog? && !f.stage.Finalize?
  }

  /** A player in flight is active, and unclassified until its own classification. */
  predicate InFlightOk(f: Flight, rows: Table) {
    && f.claim.tag in rows && rows[f.claim.tag].isActive
    && (Unsampled(f) ==> rows[f.claim.tag].bucket.None?)
  }

  ghost predicate Bounded(s: World) {
    forall b :: |Active(s.rows, b)| <= s.cap + |Outstanding(s, b)|
  }

  ghost predicate PopInv(s: World) {
    && Bounded(s)
    && forall w :: w in s.flights ==> InFlightOk(s.flights[w], s.rows)
  }

  /** With all crawls inside their leases, each is current, leased, and alone on its player. */
  lemma PromptFlight(s: World, w: nat)
    requires Inv(s) && Prompt(s) && w in s.flights
    ensures var c := s.flights[w].claim;
            && Owns(s.rows, c.tag, c.generation)
            && !LeaseOver(s.rows[c.tag], s.now)
            && forall v :: v in s.flights && v != w ==> s.flights[v].claim.tag != c.tag
  {
    assert FlightOk(s.flights[w], s.rows, s.log, s.now);
    forall v | v in s.flights && v != w ensures s.flights[v].claim.tag != s.flights[w].claim.tag {
      assert FlightOk(s.flights[v], s.rows, s.log, s.now);
      assert !SameClaim(s.flights[v].claim, s.flights[w].claim);
    }
  }

  // ------------------------------------------------------------------------- one classification

  /** The population effect of classifying an active, unclassified player t into bucket b: an
      accepted player never lifts the bucket above the larger of cap and its former size, a
      rejected one adds itself, and other buckets do not change. */
  lemma ClassifyPopulation(rows: Table, t: Tag, b: int, priority: int, trophies: int, cap: int, u: real,
                           now: Time, victim: Option<Tag>)
    requires cap > 0 && t in rows && rows[t].isActive && rows[t].bucket.None?
    requires |LeasedOthers(rows, b, t, now)| < cap
    requires var classified := Classified(rows, t, b, priority, trophies);
             LegalVictim(classified, t, b, now, Decide(classified, t, b, cap, u), victim)
    ensures var classified := Classified(rows, t, b, priority, trophies);
            var after := Evicted(classified, victim);
            && (Decide(classified, t, b, cap, u).Reject? ==> Active(after, b) == Active(rows, b) + {t})
            && (!Decide(classified, t, b, cap, u).Reject? ==>
                  |Active(after, b)| <= cap || |Active(after, b)| <= |Active(rows, b)|)
            && (forall d :: d != b ==> Active(after, d) == Active(rows, d))
  {
    var classified := Classified(rows, t, b, priority, trophies);
    var after := Evicted(classified, victim);
    var others := Active(classified, b) - {t};
    assert Active(classified, b) == Active(rows, b) + {t};
    assert others == Active(rows, b);
    if victim.Some? {
      assert Active(after, b) == others - {victim.value} + {t};
    } else {
      assert after == classified;
      var verdict := Decide(classified, t, b, cap, u);
      if verdict.KeepEvicting? {
        assert others <= LeasedOthers(rows, b, t, now) by {
          forall o | o in others ensures o in LeasedOthers(rows, b, t, now) {
            assert o !in Evictable(classified, b, t, now);
          }
        }
        SubsetSize(others, LeasedOthers(rows, b, t, now));
        assert false;
      }
      if verdict.Keep? && |InBucket(classified, b)| <= cap {
        SubsetSize(Active(classified, b), InBucket(classified, b));
      }
    }
  }

  // ------------------------------------------------------------------------------ every step

  lemma SamePopulation(s: World, s': World)
    requires PopInv(s) && s'.cap == s.cap && s'.rejected == s.rejected
    requires forall t :: t in s.rows ==> t in s'.rows
    requires forall t :: t in s'.rows ==>
               if t in s.rows then s'.rows[t].bucket == s.rows[t].bucket && s'.rows[t].isActive == s.rows[t].isActive
               else s'.rows[t].bucket.None?
    ensures Bounded(s')
  {
    forall b ensures |Active(s'.rows, b)| <= s'.cap + |Outstanding(s', b)| {
      assert Active(s'.rows, b) == Active(s.rows, b);
      assert Outstanding(s, b) <= Outstanding(s', b);
      SubsetSize(Outstanding(s, b), Outstanding(s', b));
      assert |Active(s.rows, b)| <= s.cap + |Outstanding(s, b)|;
    }
  }

  lemma SampleEffectPopulation(s: World, w: nat, u: real, victim: Option<Tag>)
    requires s.cap > 0 && PopInv(s) && w in s.flights && s.flights[w].stage.Classify?
    requires !s.flights[w].claim.isClassified
    requires var t, trophies := s.flights[w].claim.tag, s.flights[w].stage.trophies;
             && SampleEnabled(s, t, trophies, u, victim)
             && |LeasedOthers(s.rows, BucketForTrophies(trophies), t, s.now)| < s.cap
    ensures var t, trophies := s.flights[w].claim.tag, s.flights[w].stage.trophies;
            Bounded(SampleEffect(s, t, trophies, u, victim))
  {
    var t, trophies := s.flights[w].claim.tag, s.flights[w].stage.trophies;
    var b, priority := BucketForTrophies(trophies), PriorityForTrophies(trophies);
    assert InFlightOk(s.flights[w], s.rows);
    ClassifyPopulation(s.rows, t, b, priority, trophies, s.cap, u, s.now, victim);
    var s' := SampleEffect(s, t, trophies, u, victim);
    var rejects := SampleVerdict(s, t, trophies, u).Reject?;
    SampleEffectShape(s, t, trophies, u, victim);
    forall d ensures |Active(s'.rows, d)| <= s'.cap + |Outstanding(s', d)| {
      assert |Active(s.rows, d)| <= s.cap + |Outstanding(s, d)|;
      OutstandingGrows(s, s', t, b, d, rejects);
    }
  }

  lemma SampleEffectShape(s: World, t: Tag, trophies: int, u: real, victim: Option<Tag>)
    requires t in s.rows && s.rows[t].bucket.None? && SampleEnabled(s, t, trophies, u, victim)
    ensures var s' := SampleEffect(s, t, trophies, u, victim);
            && s'.cap == s.cap && s'.rows.Keys == s.rows.Keys
            && (forall o :: o in s.rows && o != t ==> s'.rows[o].bucket == s.rows[o].bucket)
            && s'.rows[t].bucket == Some(BucketForTrophies(trophies))
            && s'.rejected == if SampleVerdict(s, t, trophies, u).Reject? then s.rejected + {t} else s.rejected
  {}

  lemma OutstandingGrows(s: World, s': World, t: Tag, b: int, d: int, rejects: bool)
    requires t in s.rows && s.rows[t].bucket.None? && s'.rows.Keys == s.rows.Keys
    requires forall o :: o in s.rows && o != t ==> s'.rows[o].bucket == s.rows[o].bucket
    requires s'.rows[t].bucket == Some(b)
    requires s'.rejected == if rejects then s.rejected + {t} else s.rejected
    ensures |Outstanding(s', d)| >= |Outstanding(s, d)| + if d == b && rejects then 1 else 0
  {
    var extra: set<Tag> := if d == b && rejects then {t} else {};
    assert t !in Outstanding(s, d);
    assert Outstanding(s, d) + extra <= Outstanding(s', d);
    SubsetSize(Outstanding(s, d) + extra, Outstanding(s', d));
  }

  lemma SampleKeepsPopulation(s: World, e: Event)
    requires s.cap > 0 && Inv(s) && PopInv(s) && Prompt(s) && RoomToEvict(s, e)
    requires e.Sampled? && e.w in s.flights && s.flights[e.w].stage.Classify?
    ensures PopInv(Step(s, e))
  {
    var w, u, victim, fault := e.w, e.u, e.victim, e.fault;
    var c, trophies := s.flights[w].claim, s.flights[w].stage.trophies;
    var s' := Step(s, e);
    var applied := fault.NoFault? || (fault.LostCommit? && fault.applied);
    if c.isClassified || !applied || !SampleEnabled(s, c.tag, trophies, u, victim) {
      SamePopulation(s, s');
    } else {
      SampleEffectPopulation(s, w, u, victim);
      assert Bounded(SampleEffect(s, c.tag, trophies, u, victim));
      BoundedIgnoresFlights(SampleEffect(s, c.tag, trophies, u, victim), s');
    }
    SampleFlights(s, w, u, victim, fault);
    forall v | v in s'.flights ensures InFlightOk(s'.flights[v], s'.rows) {
      PromptFlight(s, v);
      assert InFlightOk(s.flights[v], s.rows);
      SampleOthers(s, e, v);
    }
  }

  lemma BoundedIgnoresFlights(s: World, s': World)
    requires Bounded(s) && s'.rows == s.rows && s'.cap == s.cap && s'.rejected == s.rejected
    ensures Bounded(s')
  {
    forall b ensures |Active(s'.rows, b)| <= s'.cap + |Outstanding(s', b)| {
      assert |Active(s.rows, b)| <= s.cap + |Outstanding(s, b)|;
      assert Outstanding(s', b) == Outstanding(s, b);
    }
  }

  /** A classification deactivates nobody in flight, and changes the bucket of its own player only. */
  lemma SampleOthers(s: World, e: Event, v: nat)
    requires e.Sampled? && e.w in s.flights && s.flights[e.w].stage.Classify?
    requires v in s.flights && InFlightOk(s.flights[v], s.rows)
    requires !LeaseOver(s.rows[s.flights[v].claim.tag], s.now)
    requires v != e.w ==> s.flights[v].claim.tag != s.flights[e.w].claim.tag
    ensures v in Step(s, e).flights ==> InFlightOk(Step(s, e).flights[v], Step(s, e).rows)
  {
    var t := s.flights[v].claim.tag;
    SampleRow(s, e.w, e.u, e.victim, e.fault, t);
    SampleStages(s, e.w, e.u, e.victim, e.fault, v);
  }

  lemma SampleRow(s: World, w: nat, u: real, victim: Option<Tag>, fault: Fault, t: Tag)
    requires w in s.flights && s.flights[w].stage.Classify?
    requires t in s.rows && !LeaseOver(s.rows[t], s.now)
    ensures var s' := SampleStep(s, w, u, victim, fault);
            && t in s'.rows && s'.rows[t].isActive == s.rows[t].isActive
            && (t != s.flights[w].claim.tag ==> s'.rows[t].bucket == s.rows[t].bucket)
  {}

  lemma SampleStages(s: World, w: nat, u: real, victim: Option<Tag>, fault: Fault, v: nat)
    requires w in s.flights && s.flights[w].stage.Classify? && v in s.flights
    ensures var s' := SampleStep(s, w, u, victim, fault);
            v in s'.flights ==> s' == s || (if v == w then s'.flights[v].stage.StoreLog? else s'.flights[v] == s.flights[v])
    ensures var s' := SampleStep(s, w, u, victim, fault);
            v in s'.flights ==> s'.flights[v].claim == s.flights[v].claim
  {}

  lemma CommitKeepsPopulation(s: World, w: nat, applied: bool)
    requires s.cap > 0 && Inv(s) && PopInv(s) && Prompt(s)
    requires w in s.flights && s.flights[w].stage.Finalize?
    ensures PopInv(Step(s, Committed(w, applied)))
  {
    hide RowOk, IsFinalized;
    var s' := Step(s, Committed(w, applied));
    var c, p := s.flights[w].claim, s.flights[w].stage.params;
    assert FlightOk(s.flights[w], s.rows, s.log, s.now);
    assert InFlightOk(s.flights[w], s.rows);
    forall v | v in s'.flights ensures InFlightOk(s'.flights[v], s'.rows) {
      PromptFlight(s, v);
      assert InFlightOk(s.flights[v], s.rows);
    }
    forall b ensures |Active(s'.rows, b)| <= s'.cap + |Outstanding(s', b)| {
      assert |Active(s.rows, b)| <= s.cap + |Outstanding(s, b)|;
      if s'.rows == s.rows {
        assert Outstanding(s', b) == Outstanding(s, b);
      } else {
        CommitPopulation(s, s', p, b);
      }
    }
  }

  /** A finalization keeps its player in the population, or removes it together with its
      outstanding rejection. */
  lemma CommitPopulation(s: World, s': World, p: FinalizeParams, b: int)
    requires p.tag in s.rows && s.rows[p.tag].isActive
    requires s'.rows == Finalized(s.rows, p, s.now) && Owns(s.rows, p.tag, p.generation)
    requires s'.rejected == if p.status.SampledOut? then s.rejected - {p.tag} else s.rejected
    requires p.isActive == KeepsActive(p.status)
    requires |Active(s.rows, b)| <= s.cap + |Outstanding(s, b)| && s'.cap == s.cap
    ensures |Active(s'.rows, b)| <= s'.cap + |Outstanding(s', b)|
  {
    var gone: set<Tag> := if p.isActive then {} else {p.tag};
    assert Active(s'.rows, b) == Active(s.rows, b) - gone;
    if p.status.SampledOut? {
      assert Outstanding(s', b) == Outstanding(s, b) - {p.tag};
      if s.rows[p.tag].bucket == Some(b) {
        assert p.tag in Active(s.rows, b);
      } else {
        assert p.tag !in Outstanding(s, b) && p.tag !in Active(s.rows, b);
      }
    } else {
      assert Outstanding(s', b) == Outstanding(s, b);
      SubsetSize(Active(s'.rows, b), Active(s.rows, b));
    }
  }

  lemma StepKeepsPopulation(s: World, e: Event)
    requires s.cap > 0 && Inv(s) && PopInv(s) && Prompt(s) && RoomToEvict(s, e)
    ensures PopInv(Step(s, e)) && Step(s, e).cap == s.cap
  {
    StepCap(s, e);
    if e.Sampled? && e.w in s.flights && s.flights[e.w].stage.Classify? {
      SampleKeepsPopulation(s, e);
    } else if e.Committed? && e.w in s.flights && s.flights[e.w].stage.Finalize? {
      CommitKeepsPopulation(s, e.w, e.applied);
    } else {
      QuietKeepsPopulation(s, e);
    }
  }

  lemma StepCap(s: World, e: Event)
    ensures Step(s, e).cap == s.cap
  {}

  lemma QuietKeepsPopulation(s: World, e: Event)
    requires PopInv(s) && Quiet(s, e)
    ensures PopInv(Step(s, e))
  {
    var s' := Step(s, e);
    QuietStep(s, e);
    SamePopulation(s, s');
    forall v | v in s'.flights ensures InFlightOk(s'.flights[v], s'.rows) {
      StepOnFlights(s, e, v);
      if v in s.flights {
        assert InFlightOk(s.flights[v], s.rows);
        QuietStages(s, e, v);
      }
    }
  }

  predicate Quiet(s: World, e: Event) {
    && !(e.Sampled? && e.w in s.flights && s.flights[e.w].stage.Classify?)
    && !(e.Committed? && e.w in s.flights && s.flights[e.w].stage.Finalize?)
  }

  lemma QuietStep(s: World, e: Event)
    requires Quiet(s, e)
    ensures var s' := Step(s, e);
            && s'.cap == s.cap && s'.rejected == s.rejected
            && (forall t :: t in s.rows ==> t in s'.rows)
            && (forall t :: t in s'.rows ==>
                  if t in s.rows then s'.rows[t].bucket == s.rows[t].bucket && s'.rows[t].isActive == s.rows[t].isActive
                  else s'.rows[t].bucket.None?)
  {
    hide SampleStep, CommitStep, ApiErrorParams, TransientParams, FinalParams, ClaimOf, OwnsLease;
    match e
    case Enqueue(t) =>
    case Take(w, t, _) =>
    case _ =>
  }

  lemma QuietStages(s: World, e: Event, v: nat)
    requires Quiet(s, e) && v in Step(s, e).flights && v in s.flights
    ensures Unsampled(Step(s, e).flights[v]) ==> Unsampled(s.flights[v])
    ensures Step(s, e).flights[v].claim == s.flights[v].claim
  {
    hide SampleStep, CommitStep, Leased, Enqueued, ApiErrorParams, TransientParams, FinalParams;
  }

  lemma {:induction false} RunPopulation(cap: int, start: Time, es: seq<Event>)
    requires cap > 0 && PromptRun(Init(cap, start), es)
    ensures PopInv(Reached(cap, start, es)) && Reached(cap, start, es).cap == cap
    decreases |es|
  {
    if es == [] {
      forall b ensures Active(Init(cap, start).rows, b) == {} {}
    } else {
      RunPopulation(cap, start, es[..|es| - 1]);
      ReachedOk(cap, start, es[..|es| - 1]);
      StepKeepsPopulation(Reached(cap, start, es[..|es| - 1]), es[|es| - 1]);
    }
  }

  /** If crawls finish inside their leases and every classification finds fewer than cap other
      members leased, then in every reachable state a bucket has at most cap active players plus
      the rejections not yet finalized; at most cap once none is outstanding. */
  lemma PopulationBound(cap: int, start: Time, es: seq<Event>, b: int)
    requires cap > 0 && PromptRun(Init(cap, start), es)
    ensures var s := Reached(cap, start, es);
            && |Active(s.rows, b)| <= cap + |Outstanding(s, b)|
            && (Outstanding(s, b) == {} ==> |Active(s.rows, b)| <= cap)
  {
    RunPopulation(cap, start, es);
  }
}
