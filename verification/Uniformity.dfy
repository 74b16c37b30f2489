/** Reservoir sampling is uniform.  Any workers may crawl, re-crawl, discover and wait as they like;
    all that matters to a bucket is how its classifications draw.  Counting the equally likely draw
    sequences, every cap-element subset of the players is equally likely to be the active population. */
module Uniformity {
  import opened Collections
  import opened CrawlQueue
  import opened Domain
  import opened Worker
  import opened Reservoir
  import Population

  // ---------------------------------------------------------------- what leaves a bucket alone

  predicate Applied(f: Fault) {
    f.NoFault? || (f.LostCommit? && f.applied)
  }

  /** Step e commits a classification into bucket b. */
  predicate ClassifiesInto(s: World, e: Event, b: int) {
    && e.Sampled? && e.w in s.flights && s.flights[e.w].stage.Classify? && !s.flights[e.w].claim.isClassified
    && Applied(e.fault) && BucketForTrophies(s.flights[e.w].stage.trophies) == b
  }

  /** Step e is a finalization that activates or deactivates player u. */
  predicate TurnsOver(s: World, e: Event, u: Tag) {
    && e.Committed? && e.applied && e.w in s.flights && s.flights[e.w].stage.Finalize?
    && var p := s.flights[e.w].stage.params;
    && p.tag == u && Owns(s.rows, u, p.generation) && p.isActive != s.rows[u].isActive
  }

  /** Whatever else happens in the run, nobody is classified into bucket b, and no finalization turns
      over a member of b, the exempt ones aside. */
  predicate Undisturbed(s: World, es: seq<Event>, b: int, exempt: set<Tag>)
    decreases |es|
  {
    es != [] ==>
      && Undisturbed(s, es[..|es| - 1], b, exempt)
      && var s0, e := Run(s, es[..|es| - 1]), es[|es| - 1];
      && !ClassifiesInto(s0, e, b)
      && forall u :: u in InBucket(s0.rows, b) - exempt ==> !TurnsOver(s0, e, u)
  }

  ghost predicate SameBucket(rows: Table, rows': Table, b: int, exempt: set<Tag>) {
    InBucket(rows', b) == InBucket(rows, b) && Active(rows', b) - exempt == Active(rows, b) - exempt
  }

  lemma SampledElsewhere(s: World, w: nat, u: real, victim: Option<Tag>, fault: Fault, b: int)
    requires w in s.flights && s.flights[w].stage.Classify? && !ClassifiesInto(s, Sampled(w, u, victim, fault), b)
    ensures SameBucket(s.rows, SampleStep(s, w, u, victim, fault).rows, b, {})
  {
    hide Decide, PriorityForTrophies, BucketForTrophies;
    var f, s' := s.flights[w], SampleStep(s, w, u, victim, fault);
    var b' := BucketForTrophies(f.stage.trophies);
    if !Applied(fault) || (!f.claim.isClassified && !SampleEnabled(s, f.claim.tag, f.stage.trophies, u, victim)) {
      assert s'.rows == s.rows;
    } else if f.claim.isClassified {
      assert s'.rows == Profiled(s.rows, f.claim.tag, PriorityForTrophies(f.stage.trophies), f.stage.trophies);
    } else {
      OtherBucketRests(s.rows, f.claim.tag, b', PriorityForTrophies(f.stage.trophies), f.stage.trophies, victim, b);
    }
  }

  lemma OtherBucketRests(rows: Table, t: Tag, b': int, priority: int, trophies: int, victim: Option<Tag>, b: int)
    requires b' != b
    requires victim.Some? ==> victim.value in Active(Classified(rows, t, b', priority, trophies), b')
    ensures SameBucket(rows, Evicted(Classified(rows, t, b', priority, trophies), victim), b, {})
  {}

  lemma UndisturbedStep(s: World, e: Event, b: int, exempt: set<Tag>)
    requires !ClassifiesInto(s, e, b) && forall u :: u in InBucket(s.rows, b) - exempt ==> !TurnsOver(s, e, u)
    ensures SameBucket(s.rows, Step(s, e).rows, b, exempt)
  {
    hide Step, SameBucket;
    if e.Sampled? && e.w in s.flights && s.flights[e.w].stage.Classify? {
      SampledElsewhere(s, e.w, e.u, e.victim, e.fault, b);
      SameBucketExcept(s.rows, SampleStep(s, e.w, e.u, e.victim, e.fault).rows, b, exempt);
      OneStep(s, e);
    } else if e.Committed? && e.w in s.flights && s.flights[e.w].stage.Finalize? {
      CommittedElsewhere(s, e.w, e.applied, b, exempt);
      OneStep(s, e);
    } else {
      Population.QuietStep(s, e);
      SameActivity(s.rows, Step(s, e).rows, b, exempt);
    }
  }

  lemma OneStep(s: World, e: Event)
    ensures e.Sampled? && e.w in s.flights && s.flights[e.w].stage.Classify? ==>
              Step(s, e) == SampleStep(s, e.w, e.u, e.victim, e.fault)
    ensures e.Committed? && e.w in s.flights && s.flights[e.w].stage.Finalize? ==> Step(s, e) == CommitStep(s, e.w, e.applied)
  {}

  lemma SameBucketExcept(rows: Table, rows': Table, b: int, exempt: set<Tag>)
    requires SameBucket(rows, rows', b, {})
    ensures SameBucket(rows, rows', b, exempt)
  {
    assert Active(rows', b) - {} == Active(rows', b) && Active(rows, b) - {} == Active(rows, b);
  }

  lemma SameActivity(rows: Table, rows': Table, b: int, exempt: set<Tag>)
    requires forall t :: t in rows ==> t in rows'
    requires forall t :: t in rows' ==>
               if t in rows then rows'[t].bucket == rows[t].bucket && rows'[t].isActive == rows[t].isActive
               else rows'[t].bucket.None?
    ensures SameBucket(rows, rows', b, exempt)
  {
    assert Active(rows', b) == Active(rows, b);
  }

  lemma CommittedElsewhere(s: World, w: nat, applied: bool, b: int, exempt: set<Tag>)
    requires w in s.flights && s.flights[w].stage.Finalize?
    requires forall u :: u in InBucket(s.rows, b) - exempt ==> !TurnsOver(s, Committed(w, applied), u)
    ensures SameBucket(s.rows, CommitStep(s, w, applied).rows, b, exempt)
  {
    var p := s.flights[w].stage.params;
    assert p.tag in InBucket(s.rows, b) - exempt ==> !TurnsOver(s, Committed(w, applied), p.tag);
  }

  lemma {:induction false} UndisturbedRun(s: World, es: seq<Event>, b: int, exempt: set<Tag>)
    requires Undisturbed(s, es, b, exempt)
    ensures SameBucket(s.rows, Run(s, es).rows, b, exempt) && Run(s, es).cap == s.cap
    decreases |es|
  {
    hide Step, InBucket, Active, ClassifiesInto, TurnsOver;
    if es != [] {
      var s0, e := Run(s, es[..|es| - 1]), es[|es| - 1];
      UndisturbedRun(s, es[..|es| - 1], b, exempt);
      UndisturbedStep(s0, e, b, exempt);
      Population.StepCap(s0, e);
    }
  }

  // ---------------------------------------------------------------------------- one classification

  /** The draw number r of seen equally likely ones stands for every random number in its share. */
  predicate InShare(u: real, r: nat, seen: nat)
    requires seen > 0
  {
    r as real / seen as real <= u < (r + 1) as real / seen as real
  }

  lemma ShareDecides(u: real, r: nat, cap: nat, seen: nat)
    requires seen > 0 && InShare(u, r, seen)
    ensures u < cap as real / seen as real <==> r < cap
  {
    if r < cap {
      DivOrder((r + 1) as real, cap as real, seen as real);
    } else {
      DivOrder(cap as real, r as real, seen as real);
    }
  }

  lemma DivOrder(a: real, b: real, c: real)
    requires c > 0.0 && a <= b
    ensures a / c <= b / c
  {
    assert b / c - a / c == (b - a) / c;
  }

  /** Worker w is about to classify the player t, new to bucket b, and nobody active in b is leased. */
  predicate Ready(s: World, b: int, t: Tag, w: nat) {
    && w in s.flights && s.flights[w].stage.Classify? && s.flights[w].claim.tag == t
    && !s.flights[w].claim.isClassified && BucketForTrophies(s.flights[w].stage.trophies) == b
    && t in s.rows && s.rows[t].bucket.None? && s.rows[t].isActive
    && forall u :: u in Active(s.rows, b) ==> LeaseOver(s.rows[u], s.now) && u in s.log
  }

  /** The bucket holds the players classified so far, as many of them active as the cap allows. */
  predicate Sampling(s: World, cap: int, b: int, done: set<Tag>) {
    && s.cap == cap && InBucket(s.rows, b) == done
    && |Active(s.rows, b)| == (if |done| <= cap then |done| else cap)
  }

  predicate Rejects(cap: int, seen: nat, r: nat) {
    seen > cap && r >= cap
  }

  function VictimOf(cap: int, seen: nat, r: nat, v: Tag): Option<Tag> {
    if seen > cap && r < cap then Some(v) else None
  }

  lemma ClassificationEffect(s: World, cap: int, b: int, done: set<Tag>, t: Tag, w: nat, u: real, r: nat, v: Tag)
    requires cap > 0 && Sampling(s, cap, b, done) && Ready(s, b, t, w)
    requires InShare(u, r, |done| + 1) && (|done| + 1 > cap ==> v in Active(s.rows, b))
    ensures var seen := |done| + 1;
            var s' := Step(s, Sampled(w, u, VictimOf(cap, seen, r, v), NoFault));
            && s'.cap == cap && InBucket(s'.rows, b) == done + {t}
            && Active(s'.rows, b) == Active(s.rows, b) - (if seen > cap && r < cap then {v} else {}) + {t}
            && t !in done
  {
    var f, victim := s.flights[w], VictimOf(cap, |done| + 1, r, v);
    var priority := PriorityForTrophies(f.stage.trophies);
    var classified := Classified(s.rows, t, b, priority, f.stage.trophies);
    VerdictIs(s, cap, b, done, t, u, r, v, priority, f.stage.trophies);
    if victim.Some? {
      assert v in s.log;
    }
    hide Decide, LegalVictim, PriorityForTrophies, BucketForTrophies, InShare;
    assert Step(s, Sampled(w, u, victim, NoFault)).rows == Evicted(classified, victim);
    RowsAfter(s.rows, t, b, priority, f.stage.trophies, victim);
  }

  lemma VerdictIs(s: World, cap: int, b: int, done: set<Tag>, t: Tag, u: real, r: nat, v: Tag, priority: int, trophies: int)
    requires cap > 0 && Sampling(s, cap, b, done)
    requires t in s.rows && s.rows[t].bucket.None? && s.rows[t].isActive
    requires forall o :: o in Active(s.rows, b) ==> LeaseOver(s.rows[o], s.now)
    requires InShare(u, r, |done| + 1) && (|done| + 1 > cap ==> v in Active(s.rows, b))
    ensures var classified := Classified(s.rows, t, b, priority, trophies);
            LegalVictim(classified, t, b, s.now, Decide(classified, t, b, cap, u), VictimOf(cap, |done| + 1, r, v))
  {
    hide InShare;
    var classified := Classified(s.rows, t, b, priority, trophies);
    assert InBucket(classified, b) == done + {t};
    assert Active(classified, b) - {t} == Active(s.rows, b);
    assert Evictable(classified, b, t, s.now) == Active(s.rows, b);
    ShareDecides(u, r, cap, |done| + 1);
  }

  lemma RowsAfter(rows: Table, t: Tag, b: int, priority: int, trophies: int, victim: Option<Tag>)
    requires t in rows && rows[t].bucket.None? && rows[t].isActive
    requires victim.Some? ==> victim.value in Active(rows, b)
    ensures var rows' := Evicted(Classified(rows, t, b, priority, trophies), victim);
            && InBucket(rows', b) == InBucket(rows, b) + {t} && t !in InBucket(rows, b)
            && Active(rows', b) == Active(rows, b) - (if victim.Some? then {victim.value} else {}) + {t}
  {}

  // ------------------------------------------------------------------------ schedules and outcomes

  /** Everything but the draws: the events from one classification into the bucket to the next, which
      worker classifies, and which number of its share a draw stands for.  Each may depend on all that
      happened so far, through the world it led to. */
  datatype Schedule = Schedule(
    between: (nat, World) -> seq<Event>,
    who: (nat, World) -> nat,
    number: (nat, World, nat) -> real)

  /** The k-th classification with draw r, and victim v where it evicts. */
  function Classification(p: Schedule, k: nat, s: World, b: int, r: nat, v: Tag): World {
    var seen := |InBucket(s.rows, b)| + 1;
    Step(s, Sampled(p.who(k, s), p.number(k, s, r), VictimOf(s.cap, seen, r, v), NoFault))
  }

  /** .. and all that happens until the next one is due. */
  function Branch(p: Schedule, k: nat, s: World, b: int, r: nat, v: Tag): World {
    var s1 := Classification(p, k, s, b, r, v);
    Run(s1, p.between(k + 1, s1))
  }

  /** Draw r with every possible choice of a victim.  A draw that evicts nobody still carries its
      unused second draw, so that all branches of a classification weigh the same. */
  ghost function DrawnRow(p: Schedule, k: nat, s: World, b: int, r: nat, victims: seq<Tag>): seq<World>
    decreases |victims|
  {
    if victims == [] then []
    else DrawnRow(p, k, s, b, r, victims[..|victims| - 1]) + [Branch(p, k, s, b, r, victims[|victims| - 1])]
  }

  ghost function DrawnBelow(p: Schedule, k: nat, s: World, b: int, r: nat, victims: seq<Tag>): seq<World> {
    if r == 0 then []
    else DrawnBelow(p, k, s, b, r - 1, victims) + DrawnRow(p, k, s, b, r - 1, victims)
  }

  /** All equally likely ways in which the k-th classification can go. */
  ghost function AllDrawn(p: Schedule, k: nat, s: World, b: int): seq<World> {
    var seen := |InBucket(s.rows, b)| + 1;
    if seen <= s.cap then [Branch(p, k, s, b, 0, "")]
    else DrawnBelow(p, k, s, b, seen, Listing(Active(s.rows, b)))
  }

  ghost function FromAll(p: Schedule, k: nat, ws: seq<World>, b: int): seq<World>
    decreases |ws|
  {
    if ws == [] then []
    else FromAll(p, k, ws[..|ws| - 1], b) + AllDrawn(p, k, ws[|ws| - 1], b)
  }

  /** All equally likely worlds after n classifications into the bucket. */
  ghost function Outcomes(p: Schedule, s: World, b: int, n: nat): seq<World> {
    if n == 0 then [Run(s, p.between(0, s))]
    else FromAll(p, n - 1, Outcomes(p, s, b, n - 1), b)
  }

  /** After this draw nothing disturbs the bucket until the next classification, and a rejected player
      is finalized by then. */
  predicate Calm(p: Schedule, k: nat, s: World, b: int, t: Tag, r: nat, v: Tag) {
    var seen := |InBucket(s.rows, b)| + 1;
    var s1 := Classification(p, k, s, b, r, v);
    && Undisturbed(s1, p.between(k + 1, s1), b, if Rejects(s.cap, seen, r) then {t} else {})
    && (Rejects(s.cap, seen, r) ==> t !in Active(Branch(p, k, s, b, r, v).rows, b))
  }

  ghost predicate Conducted(p: Schedule, k: nat, s: World, b: int, t: Tag) {
    var seen := |InBucket(s.rows, b)| + 1;
    && Ready(s, b, t, p.who(k, s))
    && (forall r :: 0 <= r < seen ==> InShare(p.number(k, s, r), r, seen))
    && (forall r: nat, v :: r < seen && (seen <= s.cap || v in Active(s.rows, b)) ==> Calm(p, k, s, b, t, r, v))
  }

  /** In every outcome, the k-th classification into the bucket is that of players[k], each rejection
      is finalized before the next one, and nobody else of the bucket is turned over or leased then. */
  ghost predicate Obeys(p: Schedule, s: World, b: int, players: seq<Tag>)
    decreases |players|
  {
    players != [] ==>
      var n := |players| - 1;
      && Obeys(p, s, b, players[..n])
      && forall i :: 0 <= i < |Outcomes(p, s, b, n)| ==> Conducted(p, n, Outcomes(p, s, b, n)[i], b, players[n])
  }

  function Populations(ws: seq<World>, b: int): seq<set<Tag>> {
    seq(|ws|, i requires 0 <= i < |ws| => Active(ws[i].rows, b))
  }

  lemma PopulationsConcat(a: seq<World>, c: seq<World>, b: int)
    ensures Populations(a + c, b) == Populations(a, b) + Populations(c, b)
  {}

  ghost predicate AllSampling(ws: seq<World>, cap: int, b: int, done: set<Tag>) {
    forall i :: 0 <= i < |ws| ==> Sampling(ws[i], cap, b, done)
  }

  // ------------------------------------------------------------------ schedules refine the reservoir

  /** The active set after the draw: an exchange, an addition, or no change. */
  function Next(active: set<Tag>, t: Tag, seen: nat, cap: int, r: nat, v: Tag): set<Tag> {
    if seen <= cap then active + {t} else if r < cap then active - {v} + {t} else active
  }

  lemma BranchStep(p: Schedule, k: nat, s: World, cap: int, b: int, done: set<Tag>, t: Tag, r: nat, v: Tag)
    requires cap > 0 && Sampling(s, cap, b, done) && Conducted(p, k, s, b, t)
    requires r <= |done| && (|done| < cap || v in Active(s.rows, b))
    ensures var w := Branch(p, k, s, b, r, v);
            && Active(w.rows, b) == Next(Active(s.rows, b), t, |done| + 1, cap, r, v)
            && Sampling(w, cap, b, done + {t}) && t !in done
  {
    hide Ready, InShare, Step, Run, Undisturbed, InBucket, Active;
    var seen := |done| + 1;
    var s1 := Classification(p, k, s, b, r, v);
    assert Calm(p, k, s, b, t, r, v);
    assert InShare(p.number(k, s, r), r, seen);
    ClassificationEffect(s, cap, b, done, t, p.who(k, s), p.number(k, s, r), r, v);
    UndisturbedRun(s1, p.between(k + 1, s1), b, if Rejects(cap, seen, r) then {t} else {});
    ActiveInBucket(s.rows, b);
    NextPopulation(Active(s.rows, b), Active(s1.rows, b), Active(Branch(p, k, s, b, r, v).rows, b), done, t, cap, r, v);
  }

  /** From the population at a classification to the one at the next: the classification itself, and
      the finalization of a rejected player. */
  lemma NextPopulation(active: set<Tag>, drawn: set<Tag>, settled: set<Tag>, done: set<Tag>, t: Tag, cap: int, r: nat, v: Tag)
    requires cap > 0 && active <= done && t !in done && |active| == (if |done| <= cap then |done| else cap)
    requires |done| < cap || v in active
    requires drawn == active - (if |done| + 1 > cap && r < cap then {v} else {}) + {t}
    requires var exempt: set<Tag> := if Rejects(cap, |done| + 1, r) then {t} else {}; settled - exempt == drawn - exempt
    requires Rejects(cap, |done| + 1, r) ==> t !in settled
    ensures settled == Next(active, t, |done| + 1, cap, r, v)
    ensures |settled| == (if |done| + 1 <= cap then |done| + 1 else cap)
  {
    if Rejects(cap, |done| + 1, r) {
      Expelled(active, drawn, settled, t);
    } else {
      Unchanged(settled, drawn);
      if |done| >= cap {
        Exchanged(active, t, v);
      }
    }
  }

  lemma Expelled(active: set<Tag>, drawn: set<Tag>, settled: set<Tag>, t: Tag)
    requires drawn == active - {} + {t} && settled - {t} == drawn - {t} && t !in settled && t !in active
    ensures settled == active
  {
    forall x ensures x in settled <==> x in active {
      assert x in settled - {t} <==> x in drawn - {t};
    }
  }

  lemma Unchanged(settled: set<Tag>, drawn: set<Tag>)
    requires settled - {} == drawn - {}
    ensures settled == drawn
  {
    forall x ensures x in settled <==> x in drawn {
      assert x in settled - {} <==> x in drawn - {};
    }
  }

  lemma Exchanged(active: set<Tag>, t: Tag, v: Tag)
    requires v in active && t !in active
    ensures |active - {v} + {t}| == |active|
  {}

  lemma ActiveInBucket(rows: Table, b: int)
    ensures Active(rows, b) <= InBucket(rows, b)
  {}

  /** The branches of one draw are the reservoir's exchanges for it. */
  lemma {:induction false} RowRefines(p: Schedule, k: nat, s: World, cap: nat, b: int, done: set<Tag>, t: Tag, r: nat, victims: seq<Tag>)
    requires Sampling(s, cap, b, done) && Conducted(p, k, s, b, t) && |done| >= cap > 0 && r <= |done|
    requires forall v :: v in victims ==> v in Active(s.rows, b)
    ensures var ws := DrawnRow(p, k, s, b, r, victims);
            && Populations(ws, b) == DrawRow(Active(s.rows, b), t, cap, r, victims)
            && AllSampling(ws, cap, b, done + {t})
    decreases |victims|
  {
    hide Branch, Sampling, Active, Conducted;
    if victims != [] {
      var rest, v := victims[..|victims| - 1], victims[|victims| - 1];
      RowRefines(p, k, s, cap, b, done, t, r, rest);
      assert v in victims;
      BranchStep(p, k, s, cap, b, done, t, r, v);
      PopulationsConcat(DrawnRow(p, k, s, b, r, rest), [Branch(p, k, s, b, r, v)], b);
    }
  }

  lemma {:induction false} BelowRefines(p: Schedule, k: nat, s: World, cap: nat, b: int, done: set<Tag>, t: Tag, r: nat)
    requires Sampling(s, cap, b, done) && Conducted(p, k, s, b, t) && |done| >= cap > 0 && r <= |done| + 1
    ensures var victims := Listing(Active(s.rows, b));
            var ws := DrawnBelow(p, k, s, b, r, victims);
            && Populations(ws, b) == DrawRows(Active(s.rows, b), t, cap, r, victims)
            && AllSampling(ws, cap, b, done + {t})
  {
    hide Sampling, Active, DrawnRow, DrawRow, Listing, Conducted;
    if r > 0 {
      var victims := Listing(Active(s.rows, b));
      BelowRefines(p, k, s, cap, b, done, t, r - 1);
      RowRefines(p, k, s, cap, b, done, t, r - 1, victims);
      PopulationsConcat(DrawnBelow(p, k, s, b, r - 1, victims), DrawnRow(p, k, s, b, r - 1, victims), b);
    }
  }

  lemma DrawnRefines(p: Schedule, k: nat, s: World, cap: nat, b: int, done: set<Tag>, t: Tag)
    requires cap > 0 && Sampling(s, cap, b, done) && Conducted(p, k, s, b, t)
    ensures var ws := AllDrawn(p, k, s, b);
            && Populations(ws, b) == Branches(Active(s.rows, b), t, cap, |done| + 1)
            && AllSampling(ws, cap, b, done + {t})
  {
    hide DrawnBelow, DrawRows, Listing, Conducted, Branch;
    if |done| < cap {
      BranchStep(p, k, s, cap, b, done, t, 0, "");
    } else {
      BelowRefines(p, k, s, cap, b, done, t, |done| + 1);
    }
  }

  lemma {:induction false} FromAllRefines(p: Schedule, k: nat, ws: seq<World>, cap: nat, b: int, done: set<Tag>, t: Tag)
    requires cap > 0 && AllSampling(ws, cap, b, done)
    requires forall i :: 0 <= i < |ws| ==> Conducted(p, k, ws[i], b, t)
    ensures var all := FromAll(p, k, ws, b);
            && Populations(all, b) == AllBranches(Populations(ws, b), t, cap, |done| + 1)
            && AllSampling(all, cap, b, done + {t})
    decreases |ws|
  {
    hide Sampling, Active, AllDrawn, Branches, Conducted;
    if ws != [] {
      var rest, w := ws[..|ws| - 1], ws[|ws| - 1];
      FromAllRefines(p, k, rest, cap, b, done, t);
      DrawnRefines(p, k, w, cap, b, done, t);
      PopulationsConcat(FromAll(p, k, rest, b), AllDrawn(p, k, w, b), b);
      assert Populations(ws, b)[..|ws| - 1] == Populations(rest, b);
    }
  }

  /** The bucket is empty when the first classification is due. */
  predicate StartsEmpty(p: Schedule, s: World, b: int) {
    var s0 := Run(s, p.between(0, s));
    s0.cap > 0 && InBucket(s0.rows, b) == {}
  }

  /** Under every schedule that obeys, the active populations over all draw sequences are exactly the
      reservoir's samples. */
  lemma {:induction false} SchedulesAreReservoir(p: Schedule, s: World, b: int, players: seq<Tag>)
    requires StartsEmpty(p, s, b) && Distinct(players) && Obeys(p, s, b, players)
    ensures var ws, cap := Outcomes(p, s, b, |players|), Run(s, p.between(0, s)).cap;
            Populations(ws, b) == Samples(players, cap) && AllSampling(ws, cap, b, Elements(players))
    decreases |players|
  {
    hide Sampling, FromAll, AllBranches, Conducted, Elements, Active, InBucket;
    var n, cap := |players|, Run(s, p.between(0, s)).cap;
    if players == [] {
      NobodyYet(Run(s, p.between(0, s)), b);
    } else {
      var before, t := players[..n - 1], players[n - 1];
      LastPlayer(players);
      SchedulesAreReservoir(p, s, b, before);
      ElementsSize(before);
      FromAllRefines(p, n - 1, Outcomes(p, s, b, n - 1), cap, b, Elements(before), t);
    }
  }

  lemma NobodyYet(s: World, b: int)
    requires s.cap > 0 && InBucket(s.rows, b) == {}
    ensures Active(s.rows, b) == {} && Elements([]) == {} && Sampling(s, s.cap, b, {})
  {
    ActiveInBucket(s.rows, b);
  }

  lemma ElementsSize(players: seq<Tag>)
    requires Distinct(players)
    ensures |Elements(players)| == |players|
  {
    hide *;
    SamplesAreSubsets(players, 1);
  }

  /** Uniformity.  Let n >= cap players be classified into an empty bucket, in any run of the machine
      whatsoever in which each rejection is finalized before the next classification and nobody else
      of the bucket is turned over or leased then.  Over all draws, exactly cap of them are active in
      every outcome, and each cap-element subset is the active population in the same number of
      outcomes: one in C(n, cap). */
  lemma SamplingIsUniform(p: Schedule, s: World, b: int, players: seq<Tag>, target: set<Tag>)
    requires StartsEmpty(p, s, b) && Distinct(players) && Obeys(p, s, b, players)
    requires target <= Elements(players) && |target| == Run(s, p.between(0, s)).cap <= |players|
    ensures var ws, cap := Outcomes(p, s, b, |players|), Run(s, p.between(0, s)).cap;
            && Hits(Populations(ws, b), {target}) * Binomial(|players|, cap) == |ws|
            && forall i :: 0 <= i < |ws| ==> Active(ws[i].rows, b) <= Elements(players) && |Active(ws[i].rows, b)| == cap
  {
    hide Outcomes, Samples, Hits, Binomial, Obeys, Elements, Active;
    var ws, cap := Outcomes(p, s, b, |players|), Run(s, p.between(0, s)).cap;
    SchedulesAreReservoir(p, s, b, players);
    ReservoirIsUniform(players, cap, target);
    forall i | 0 <= i < |ws| ensures Active(ws[i].rows, b) == Samples(players, cap)[i] {
      assert Populations(ws, b)[i] == Active(ws[i].rows, b);
    }
  }
}
