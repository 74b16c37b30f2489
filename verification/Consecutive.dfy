/** A schedule that obeys: one worker crawls the players one after the other, with pauses between the
    crawls and delays within the leases.  Uniformity therefore speaks of runs that exist. */
module Consecutive {
  import opened Collections
  import opened CrawlQueue
  import opened Domain
  import opened Worker
  import opened Reservoir
  import opened Uniformity

  /** A player to come, with the trophies his profile will show, the pause before his crawl and the
      time the API takes. */
  datatype Visit = Visit(tag: Tag, trophies: int, pause: nat, delay: nat)

  /** From rest to the point where the visit's classification is due. */
  function Arrive(v: Visit): seq<Event> {
    [Tick(v.pause), Take(0, v.tag, true), Tick(v.delay), ProfileReply(0, Ok, v.trophies), LogReply(0, Ok),
     LeaseChecked(0, true), ProfileStored(0, true)]
  }

  function Depart(): seq<Event> {
    [LogStored(0, true), Committed(0, true)]
  }

  function Plan(visits: seq<Visit>, b: int): Schedule {
    Schedule(
      (k: nat, s) => (if k == 0 then [] else Depart()) + (if k < |visits| then Arrive(visits[k]) else []),
      (k, s) => 0,
      (k, s: World, r) => r as real / (|InBucket(s.rows, b)| + 1) as real)
  }

  function Tags(visits: seq<Visit>): seq<Tag> {
    seq(|visits|, i requires 0 <= i < |visits| => visits[i].tag)
  }

  // ---------------------------------------------------------------------------------- worlds

  predicate Waiting(s: World, waiting: set<Tag>) {
    forall o :: o in waiting ==>
      o in s.rows && s.rows[o].bucket.None? && s.rows[o].isActive && s.rows[o].nextCrawlAt <= s.now
  }

  /** Nobody is in flight, no row is leased, and all rows carry a history. */
  predicate AtRest(s: World, waiting: set<Tag>) {
    && s.flights == map[] && s.rows.Keys == s.log.Keys && Waiting(s, waiting)
    && forall o :: o in s.rows ==> s.rows[o].leasedUntil.None?
  }

  /** Worker 0 alone is in flight, with the current claim on t, which is new to every bucket. */
  predicate Held(s: World, c: Claim, stage: Stage, waiting: set<Tag>) {
    && s.flights == map[0 := Flight(c, stage)] && s.rows.Keys == s.log.Keys && Waiting(s, waiting)
    && c.tag !in waiting && c.tag in s.rows && s.rows[c.tag].isActive
    && s.rows[c.tag].generation == c.generation && !c.isClassified
    && forall o :: o in s.rows && o != c.tag ==> s.rows[o].leasedUntil.None?
  }

  predicate Due(s: World, v: Visit, waiting: set<Tag>) {
    && 0 in s.flights && Held(s, s.flights[0].claim, Classify(v.trophies), waiting)
    && s.flights[0].claim.tag == v.tag && s.rows[v.tag].bucket.None?
  }

  lemma SevenSteps(s: World, es: seq<Event>)
    requires |es| == 7
    ensures Run(s, es) == Step(Step(Step(Step(Step(Step(Step(s, es[0]), es[1]), es[2]), es[3]), es[4]), es[5]), es[6])
  {
    hide Step;
    assert es[..6][..5] == es[..5] && es[..5][..4] == es[..4] && es[..4][..3] == es[..3]
        && es[..3][..2] == es[..2] && es[..2][..1] == es[..1] && es[..1][..0] == [];
    LastStep(s, es);
    LastStep(s, es[..6]);
    LastStep(s, es[..5]);
    LastStep(s, es[..4]);
    LastStep(s, es[..3]);
    LastStep(s, es[..2]);
    LastStep(s, es[..1]);
  }

  lemma LastStep(s: World, es: seq<Event>)
    requires es != []
    ensures Run(s, es) == Step(Run(s, es[..|es| - 1]), es[|es| - 1])
  {}

  lemma TwoSteps(s: World, a: Event, b: Event)
    ensures Run(s, [a]) == Step(s, a) && Run(s, [a, b]) == Step(Step(s, a), b)
  {
    hide Step;
    assert [a, b][..1] == [a] && [a][..0] == [];
    LastStep(s, [a]);
    LastStep(s, [a, b]);
  }

  // ---------------------------------------------------------------------------------- arriving

  lemma Taken(s: World, v: Visit, waiting: set<Tag>)
    requires AtRest(s, waiting + {v.tag}) && v.tag !in waiting && v.delay <= LEASE
    ensures var c := ClaimOf(s.rows, v.tag, s.now);
            var s' := Step(Step(s, Take(0, v.tag, true)), Tick(v.delay));
            && Held(s', c, FetchProfile, waiting) && OwnsLease(s'.rows, v.tag, c.generation, s'.now)
            && s'.rows == Leased(s.rows, v.tag, s.now) && s'.cap == s.cap && c.tag == v.tag
  {
    assert v.tag in waiting + {v.tag};
    var c := ClaimOf(s.rows, v.tag, s.now);
    assert map[][0 := Flight(c, FetchProfile)] == map[0 := Flight(c, FetchProfile)];
    assert Step(s, Take(0, v.tag, true)).flights == map[0 := Flight(c, FetchProfile)];
  }

  /** Replies, the ownership check and the stored profile only move the claim. */
  lemma Replied(s: World, c: Claim, trophies: int)
    requires s.flights == map[0 := Flight(c, FetchProfile)] && OwnsLease(s.rows, c.tag, c.generation, s.now)
    ensures Step(Step(Step(Step(s, ProfileReply(0, Ok, trophies)), LogReply(0, Ok)), LeaseChecked(0, true)), ProfileStored(0, true))
            == s.(flights := map[0 := Flight(c, Classify(trophies))])
  {
    hide OwnsLease;
    var s2 := Step(s, ProfileReply(0, Ok, trophies));
    assert s2 == s.(flights := map[0 := Flight(c, FetchLog(trophies))]);
    var s3 := Step(s2, LogReply(0, Ok));
    assert s3 == s.(flights := map[0 := Flight(c, CheckLease(trophies))]);
    var s4 := Step(s3, LeaseChecked(0, true));
    assert s4 == s.(flights := map[0 := Flight(c, StoreProfile(trophies))]);
    assert Step(s4, ProfileStored(0, true)) == s.(flights := map[0 := Flight(c, Classify(trophies))]);
  }

  lemma Arrives(s: World, v: Visit, waiting: set<Tag>, b: int)
    requires AtRest(s, waiting + {v.tag}) && v.tag !in waiting && v.delay <= LEASE
    ensures var s' := Run(s, Arrive(v));
            Due(s', v, waiting) && s'.cap == s.cap && InBucket(s'.rows, b) == InBucket(s.rows, b)
            && Active(s'.rows, b) == Active(s.rows, b)
  {
    SevenSteps(s, Arrive(v));
    var s0 := Step(s, Tick(v.pause));
    Paused(s, v.pause, waiting + {v.tag});
    Taken(s0, v, waiting);
    LeasedBucket(s0.rows, v.tag, s0.now, b);
    var s1, c := Step(Step(s0, Take(0, v.tag, true)), Tick(v.delay)), ClaimOf(s0.rows, v.tag, s0.now);
    Replied(s1, c, v.trophies);
    hide Step, ClaimOf;
    assert Held(s1.(flights := map[0 := Flight(c, Classify(v.trophies))]), c, Classify(v.trophies), waiting);
    assert s0.rows[v.tag].bucket.None? by { assert v.tag in waiting + {v.tag}; }
  }

  lemma Paused(s: World, d: nat, waiting: set<Tag>)
    requires AtRest(s, waiting)
    ensures AtRest(Step(s, Tick(d)), waiting) && Step(s, Tick(d)).rows == s.rows && Step(s, Tick(d)).cap == s.cap
  {}

  lemma LeasedBucket(rows: Table, t: Tag, now: Time, b: int)
    requires t in rows
    ensures InBucket(Leased(rows, t, now), b) == InBucket(rows, b) && Active(Leased(rows, t, now), b) == Active(rows, b)
    ensures Leased(rows, t, now)[t].bucket == rows[t].bucket
  {}

  // ----------------------------------------------------------------------------------- leaving

  lemma Sampled0(s: World, v: Visit, waiting: set<Tag>, b: int, u: real, r: nat, x: Tag, done: set<Tag>)
    requires s.cap > 0 && Sampling(s, s.cap, b, done) && Due(s, v, waiting) && BucketForTrophies(v.trophies) == b
    requires InShare(u, r, |done| + 1) && (|done| + 1 > s.cap ==> x in Active(s.rows, b))
    ensures var seen := |done| + 1;
            var s' := Step(s, Sampled(0, u, VictimOf(s.cap, seen, r, x), NoFault));
            var c := s.flights[0].claim;
            && Held(s', c, StoreLog(Rejects(s.cap, seen, r), PriorityForTrophies(v.trophies)), waiting)
            && s'.now == s.now && s'.cap == s.cap
  {
    var c, seen, priority := s.flights[0].claim, |done| + 1, PriorityForTrophies(v.trophies);
    var victim := VictimOf(s.cap, seen, r, x);
    VerdictIs(s, s.cap, b, done, v.tag, u, r, x, priority, v.trophies);
    RejectVerdict(s, b, done, v.tag, u, r, priority, v.trophies);
    hide Decide, LegalVictim, PriorityForTrophies, BucketForTrophies, InShare, Sampling, Classified, Evicted, Waiting;
    assert victim.Some? ==> victim.value in Active(s.rows, b);
    RowsStay(s.rows, v.tag, b, priority, v.trophies, victim, waiting, s.now);
    StageAfter(s, c, v.trophies, victim, u);
  }

  lemma RowsStay(rows: Table, t: Tag, b: int, priority: int, trophies: int, victim: Option<Tag>, waiting: set<Tag>, now: Time)
    requires t in rows && rows[t].bucket.None? && rows[t].isActive
    requires victim.Some? ==> victim.value in Active(rows, b)
    ensures var rows' := Evicted(Classified(rows, t, b, priority, trophies), victim);
            && rows'.Keys == rows.Keys && rows'[t].isActive && rows'[t].generation == rows[t].generation
            && (forall o :: o in rows ==> rows'[o].leasedUntil == rows[o].leasedUntil)
            && (forall o :: o in rows && o != t && rows[o].bucket.None? ==> rows'[o] == rows[o])
  {}

  lemma RejectVerdict(s: World, b: int, done: set<Tag>, t: Tag, u: real, r: nat, priority: int, trophies: int)
    requires s.cap > 0 && Sampling(s, s.cap, b, done) && InShare(u, r, |done| + 1)
    requires t in s.rows && s.rows[t].bucket.None?
    ensures Decide(Classified(s.rows, t, b, priority, trophies), t, b, s.cap, u).Reject? <==> Rejects(s.cap, |done| + 1, r)
  {
    hide InShare;
    assert InBucket(Classified(s.rows, t, b, priority, trophies), b) == done + {t};
    ShareDecides(u, r, s.cap, |done| + 1);
  }

  lemma StageAfter(s: World, c: Claim, trophies: int, victim: Option<Tag>, u: real)
    requires s.flights == map[0 := Flight(c, Classify(trophies))] && !c.isClassified
    requires SampleEnabled(s, c.tag, trophies, u, victim)
    ensures var s' := Step(s, Sampled(0, u, victim, NoFault));
            var b, priority := BucketForTrophies(trophies), PriorityForTrophies(trophies);
            && s'.flights == map[0 := Flight(c, StoreLog(SampleVerdict(s, c.tag, trophies, u).Reject?, priority))]
            && s'.rows == Evicted(Classified(s.rows, c.tag, b, priority, trophies), victim)
            && s'.log.Keys == s.log.Keys && s'.now == s.now && s'.cap == s.cap
  {
    hide Decide, LegalVictim, BucketForTrophies, PriorityForTrophies, Classified, Evicted;
  }

  lemma Left(s: World, c: Claim, rejected: bool, priority: int, waiting: set<Tag>)
    requires Held(s, c, StoreLog(rejected, priority), waiting)
    ensures var s' := Step(s, LogStored(0, true));
            && s'.rows == s.rows
            && s'.flights == map[0 := Flight(c, Finalize(FinalParams(c, rejected, priority, s.now)))]
    ensures var s'' := Step(Step(s, LogStored(0, true)), Committed(0, true));
            && AtRest(s'', waiting) && s''.cap == s.cap && c.tag in s''.rows && s''.rows[c.tag].isActive == !rejected
  {
    var p := FinalParams(c, rejected, priority, s.now);
    var s' := Step(s, LogStored(0, true));
    assert s' == s.(flights := map[0 := Flight(c, Finalize(p))]);
    assert Step(s', Committed(0, true)) == CommitStep(s', 0, true);
    hide BaseInterval;
    assert s'.flights - {0} == map[];
  }

  /** Events that neither classify nor finalize disturb no bucket. */
  lemma {:induction false} Harmless(s: World, es: seq<Event>, more: seq<Event>, b: int, exempt: set<Tag>)
    requires Undisturbed(s, es, b, exempt) && forall i :: 0 <= i < |more| ==> !more[i].Sampled? && !more[i].Committed?
    ensures Undisturbed(s, es + more, b, exempt)
    decreases |more|
  {
    hide Run;
    if more == [] {
      assert es + more == es;
    } else {
      Harmless(s, es, more[..|more| - 1], b, exempt);
      assert (es + more)[..|es + more| - 1] == es + more[..|more| - 1];
    }
  }

  lemma LeavingIsCalm(s: World, c: Claim, rejected: bool, priority: int, waiting: set<Tag>, b: int)
    requires Held(s, c, StoreLog(rejected, priority), waiting)
    ensures Undisturbed(s, Depart(), b, if rejected then {c.tag} else {})
  {
    var exempt: set<Tag> := if rejected then {c.tag} else {};
    var stored, committed := LogStored(0, true), Committed(0, true);
    TwoSteps(s, stored, committed);
    Left(s, c, rejected, priority, waiting);
    hide Run, Step;
    assert [stored, committed][..1] == [stored] && [stored][..0] == [];
    assert Undisturbed(s, [], b, exempt);
    assert Undisturbed(s, [stored], b, exempt);
  }

  // ------------------------------------------------------------------------------------ the plan

  predicate Planned(visits: seq<Visit>, b: int) {
    && Distinct(Tags(visits))
    && forall k :: 0 <= k < |visits| ==> BucketForTrophies(visits[k].trophies) == b && visits[k].delay <= LEASE
  }

  function Later(visits: seq<Visit>, k: nat): set<Tag> {
    set i | k <= i < |visits| :: visits[i].tag
  }

  lemma LaterStep(visits: seq<Visit>, k: nat)
    requires Distinct(Tags(visits)) && k < |visits|
    ensures Later(visits, k) == Later(visits, k + 1) + {visits[k].tag} && visits[k].tag !in Later(visits, k + 1)
  {
    forall i | k < i < |visits| ensures visits[i].tag != visits[k].tag {
      assert Tags(visits)[i] != Tags(visits)[k];
    }
  }

  /** One visit's classification and what follows, whatever is drawn. */
  lemma VisitIsCalm(visits: seq<Visit>, b: int, k: nat, s: World, done: set<Tag>, r: nat, x: Tag)
    requires Planned(visits, b) && k < |visits| && s.cap > 0
    requires Sampling(s, s.cap, b, done) && Due(s, visits[k], Later(visits, k + 1))
    requires r <= |done| && (|done| + 1 > s.cap ==> x in Active(s.rows, b))
    ensures var p := Plan(visits, b);
            && InShare(p.number(k, s, r), r, |done| + 1)
            && Calm(p, k, s, b, visits[k].tag, r, x)
            && (k + 1 < |visits| ==> Due(Branch(p, k, s, b, r, x), visits[k + 1], Later(visits, k + 2)))
  {
    hide Sampling, Held, PriorityForTrophies, InShare, Step, InBucket, Active, Undisturbed;
    var p, v, seen := Plan(visits, b), visits[k], |done| + 1;
    assert |InBucket(s.rows, b)| == |done| by { BucketIs(s, b, done); }
    LowestInShare(r, seen);
    var s1 := Classification(p, k, s, b, r, x);
    Sampled0(s, v, Later(visits, k + 1), b, p.number(k, s, r), r, x, done);
    ThenLeaves(visits, b, k, s1, s.flights[0].claim, Rejects(s.cap, seen, r), PriorityForTrophies(v.trophies));
  }

  lemma BucketIs(s: World, b: int, done: set<Tag>)
    requires Sampling(s, s.cap, b, done)
    ensures InBucket(s.rows, b) == done
  {}

  lemma ArrivalIsHarmless(v: Visit)
    ensures var es := Arrive(v); forall i :: 0 <= i < |es| ==> !es[i].Sampled? && !es[i].Committed?
  {}

  /** From a classification to the next one. */
  lemma ThenLeaves(visits: seq<Visit>, b: int, k: nat, s: World, c: Claim, rejected: bool, priority: int)
    requires Planned(visits, b) && k < |visits| && c.tag == visits[k].tag
    requires Held(s, c, StoreLog(rejected, priority), Later(visits, k + 1))
    ensures var p := Plan(visits, b);
            var s' := Run(s, p.between(k + 1, s));
            && Undisturbed(s, p.between(k + 1, s), b, if rejected then {c.tag} else {})
            && (rejected ==> c.tag !in Active(s'.rows, b))
            && (k + 1 < |visits| ==> Due(s', visits[k + 1], Later(visits, k + 2)))
  {
    hide Due, Held, AtRest, Step, InBucket, Active, Run, Undisturbed, Arrive, FinalParams;
    var p, waiting := Plan(visits, b), Later(visits, k + 1);
    LeavingIsCalm(s, c, rejected, priority, waiting, b);
    Left(s, c, rejected, priority, waiting);
    TwoSteps(s, LogStored(0, true), Committed(0, true));
    var s2 := Run(s, Depart());
    if k + 1 < |visits| {
      ArrivalIsHarmless(visits[k + 1]);
      Harmless(s, Depart(), Arrive(visits[k + 1]), b, if rejected then {c.tag} else {});
      LaterStep(visits, k + 1);
      Arrives(s2, visits[k + 1], Later(visits, k + 2), b);
      RunSplit(s, Depart(), Arrive(visits[k + 1]));
    } else {
      assert p.between(k + 1, s) == Depart();
    }
    StaysOut(s2.rows, Run(s, p.between(k + 1, s)).rows, b, c.tag);
  }

  lemma LowestInShare(r: nat, seen: nat)
    requires seen > 0
    ensures InShare(r as real / seen as real, r, seen)
  {
    assert (r + 1) as real / seen as real - r as real / seen as real == 1.0 / seen as real;
  }

  lemma StaysOut(rows: Table, rows': Table, b: int, t: Tag)
    requires Active(rows', b) == Active(rows, b) && t in rows
    ensures !rows[t].isActive ==> t !in Active(rows', b)
  {}

  // -------------------------------------------------------------------------------- the plan obeys

  lemma {:induction false} InRow(p: Schedule, k: nat, s: World, b: int, r: nat, victims: seq<Tag>, i: nat) returns (x: Tag)
    requires i < |DrawnRow(p, k, s, b, r, victims)|
    ensures x in victims && DrawnRow(p, k, s, b, r, victims)[i] == Branch(p, k, s, b, r, x)
    decreases |victims|
  {
    hide Branch;
    var before := DrawnRow(p, k, s, b, r, victims[..|victims| - 1]);
    if i < |before| {
      x := InRow(p, k, s, b, r, victims[..|victims| - 1], i);
    } else {
      x := victims[|victims| - 1];
    }
  }

  lemma {:induction false} InBelow(p: Schedule, k: nat, s: World, b: int, n: nat, victims: seq<Tag>, i: nat)
    returns (r: nat, x: Tag)
    requires i < |DrawnBelow(p, k, s, b, n, victims)|
    ensures r < n && x in victims && DrawnBelow(p, k, s, b, n, victims)[i] == Branch(p, k, s, b, r, x)
    decreases n
  {
    hide Branch, DrawnRow;
    var before := DrawnBelow(p, k, s, b, n - 1, victims);
    if i < |before| {
      r, x := InBelow(p, k, s, b, n - 1, victims, i);
    } else {
      r := n - 1;
      x := InRow(p, k, s, b, n - 1, victims, i - |before|);
    }
  }

  lemma {:induction false} InFromAll(p: Schedule, k: nat, ws: seq<World>, b: int, i: nat) returns (j: nat, r: nat, x: Tag)
    requires i < |FromAll(p, k, ws, b)|
    ensures j < |ws| && FromAll(p, k, ws, b)[i] == Branch(p, k, ws[j], b, r, x)
    ensures var seen := |InBucket(ws[j].rows, b)| + 1; r < seen && (seen <= ws[j].cap || x in Active(ws[j].rows, b))
    decreases |ws|
  {
    hide Branch, DrawnBelow, Listing;
    var before := FromAll(p, k, ws[..|ws| - 1], b);
    if i < |before| {
      j, r, x := InFromAll(p, k, ws[..|ws| - 1], b, i);
    } else {
      j := |ws| - 1;
      var s := ws[j];
      if |InBucket(s.rows, b)| + 1 <= s.cap {
        r, x := 0, "";
      } else {
        r, x := InBelow(p, k, s, b, |InBucket(s.rows, b)| + 1, Listing(Active(s.rows, b)), i - |before|);
      }
    }
  }

  lemma DueIsConducted(visits: seq<Visit>, b: int, k: nat, s: World, done: set<Tag>)
    requires Planned(visits, b) && k < |visits| && s.cap > 0
    requires Sampling(s, s.cap, b, done) && Due(s, visits[k], Later(visits, k + 1))
    ensures Conducted(Plan(visits, b), k, s, b, visits[k].tag)
  {
    var p := Plan(visits, b);
    hide InShare, Step, Calm, Undisturbed;
    forall r: nat | r <= |done| ensures InShare(p.number(k, s, r), r, |done| + 1) {
      var x := if |done| + 1 > s.cap then Pick(Active(s.rows, b)) else "";
      VisitIsCalm(visits, b, k, s, done, r, x);
    }
    forall r: nat, x | r <= |done| && (|done| + 1 <= s.cap || x in Active(s.rows, b)) ensures Calm(p, k, s, b, visits[k].tag, r, x) {
      VisitIsCalm(visits, b, k, s, done, r, x);
    }
  }

  /** From every outcome before visit k, that visit is conducted and the next one is due. */
  lemma VisitConducted(visits: seq<Visit>, b: int, s: World, k: nat, cap: nat)
    requires Planned(visits, b) && k < |visits| && cap > 0
    requires var ws := Outcomes(Plan(visits, b), s, b, k);
             && AllSampling(ws, cap, b, Elements(Tags(visits)[..k]))
             && forall i :: 0 <= i < |ws| ==> Due(ws[i], visits[k], Later(visits, k + 1))
    ensures var p, ws := Plan(visits, b), Outcomes(Plan(visits, b), s, b, k);
            forall i :: 0 <= i < |ws| ==> Conducted(p, k, ws[i], b, visits[k].tag)
    ensures var ws := Outcomes(Plan(visits, b), s, b, k + 1);
            k + 1 < |visits| ==> forall i :: 0 <= i < |ws| ==> Due(ws[i], visits[k + 1], Later(visits, k + 2))
  {
    hide Due, InBucket, Active, FromAll, Conducted, Elements;
    var p, done := Plan(visits, b), Elements(Tags(visits)[..k]);
    var ws := Outcomes(p, s, b, k);
    forall i | 0 <= i < |ws| ensures Conducted(p, k, ws[i], b, visits[k].tag) {
      DueIsConducted(visits, b, k, ws[i], done);
    }
    if k + 1 < |visits| {
      var after := Outcomes(p, s, b, k + 1);
      forall i: nat | i < |after| ensures Due(after[i], visits[k + 1], Later(visits, k + 2)) {
        var j, r, x := InFromAll(p, k, ws, b, i);
        BucketIs(ws[j], b, done);
        VisitIsCalm(visits, b, k, ws[j], done, r, x);
      }
    }
  }

  /** From rest with an empty bucket, the plan obeys as far as it goes. */
  lemma {:induction false} PlanObeys(visits: seq<Visit>, b: int, s: World, n: nat)
    requires Planned(visits, b) && n <= |visits| && visits != [] && s.cap > 0
    requires AtRest(s, Later(visits, 0)) && InBucket(s.rows, b) == {}
    ensures StartsEmpty(Plan(visits, b), s, b)
    ensures var p := Plan(visits, b);
            && Obeys(p, s, b, Tags(visits)[..n])
            && (n < |visits| ==> forall i :: 0 <= i < |Outcomes(p, s, b, n)| ==>
                  Due(Outcomes(p, s, b, n)[i], visits[n], Later(visits, n + 1)))
    decreases n
  {
    hide Due, AtRest, Conducted, InBucket, Active, Arrive, Outcomes, AllSampling, Elements, Populations, Obeys, Run, Plan;
    FirstArrives(visits, b, s);
    if n == 0 {
      assert Tags(visits)[..0] == [];
      NothingToObey(Plan(visits, b), s, b);
    } else {
      PlanObeys(visits, b, s, n - 1);
      SchedulesAreReservoir(Plan(visits, b), s, b, Tags(visits)[..n - 1]);
      VisitConducted(visits, b, s, n - 1, s.cap);
      ObeysOnceMore(Plan(visits, b), s, b, Tags(visits), n - 1);
    }
  }

  lemma NothingToObey(p: Schedule, s: World, b: int)
    ensures Obeys(p, s, b, [])
  {}

  lemma ObeysOnceMore(p: Schedule, s: World, b: int, players: seq<Tag>, n: nat)
    requires n < |players| && Obeys(p, s, b, players[..n])
    requires forall i :: 0 <= i < |Outcomes(p, s, b, n)| ==> Conducted(p, n, Outcomes(p, s, b, n)[i], b, players[n])
    ensures Obeys(p, s, b, players[..n + 1])
  {
    hide Conducted, Outcomes;
    assert players[..n + 1][..n] == players[..n];
  }

  lemma FirstArrives(visits: seq<Visit>, b: int, s: World)
    requires Planned(visits, b) && visits != [] && s.cap > 0
    requires AtRest(s, Later(visits, 0)) && InBucket(s.rows, b) == {}
    ensures var p := Plan(visits, b);
            && StartsEmpty(p, s, b) && Run(s, p.between(0, s)).cap == s.cap
            && Outcomes(p, s, b, 0) == [Run(s, p.between(0, s))]
            && Due(Run(s, p.between(0, s)), visits[0], Later(visits, 1))
  {
    hide Due, AtRest, InBucket, Active, Arrive;
    LaterStep(visits, 0);
    Arrives(s, visits[0], Later(visits, 1), b);
    assert Plan(visits, b).between(0, s) == Arrive(visits[0]);
  }

  /** Crawling n >= cap players of one bucket one after the other, with whatever trophies, pauses and
      delays within the lease, samples them uniformly. */
  lemma ConsecutiveCrawlsAreUniform(visits: seq<Visit>, b: int, s: World, target: set<Tag>)
    requires Planned(visits, b) && s.cap > 0 && AtRest(s, Later(visits, 0)) && InBucket(s.rows, b) == {}
    requires target <= Elements(Tags(visits)) && |target| == s.cap <= |visits|
    ensures var ws := Outcomes(Plan(visits, b), s, b, |visits|);
            && Hits(Populations(ws, b), {target}) * Binomial(|visits|, s.cap) == |ws|
            && forall i :: 0 <= i < |ws| ==> Active(ws[i].rows, b) <= Elements(Tags(visits)) && |Active(ws[i].rows, b)| == s.cap
  {
    hide AtRest, InBucket, Active, Outcomes, Hits, Binomial, Obeys, Arrive, Elements;
    var p, n := Plan(visits, b), |visits|;
    PlanObeys(visits, b, s, n);
    assert Tags(visits)[..n] == Tags(visits);
    LaterStep(visits, 0);
    Arrives(s, visits[0], Later(visits, 1), b);
    assert p.between(0, s) == Arrive(visits[0]);
    SamplingIsUniform(p, s, b, Tags(visits), target);
  }
}
