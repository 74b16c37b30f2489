/** When a rejection by the reservoir is honoured, and when not.  The comments promise that a rejected
    player is deactivated and that a failed classification keeps its player; neither always holds. */
module Rejections {
  import opened Collections
  import opened CrawlQueue
  import opened Domain
  import opened Worker
  import opened Leases
  import opened Uniformity
  import opened Consecutive
  import Population

  /** From worker w's StoreLog stage to its last commit: everybody else acts, the battle log is stored
      or not, everybody else acts again.  The commit itself is still to come. */
  function BeforeCommit(s: World, w: nat, a: seq<Event>, dbOk: bool, b: seq<Event>): World {
    Run(Step(Run(s, a), LogStored(w, dbOk)), b)
  }

  /** The worker's finalization takes effect: it has not shut down, and its claim is still the current one. */
  predicate TakesEffect(s: World, w: nat, c: Claim, applied: bool) {
    applied && w in s.flights && Owns(s.rows, c.tag, c.generation)
  }

  lemma StoringMoves(s: World, w: nat, dbOk: bool)
    requires Inv(s) && w in s.flights && s.flights[w].stage.StoreLog?
    ensures var f, s' := s.flights[w], Step(s, LogStored(w, dbOk));
            && (w in s'.flights <==> dbOk || !s.cancelled)
            && (w in s'.flights ==> s'.flights[w].claim == f.claim && s'.flights[w].stage.Finalize?
                                    && var p := s'.flights[w].stage.params;
                                    && p.tag == f.claim.tag && p.generation == f.claim.generation
                                    && p.status == (if !dbOk then Error else if f.stage.sampledOut then SampledOut else Success)
                                    && p.isActive == (!dbOk || !f.stage.sampledOut))
  {
    hide BackoffDuration, BaseInterval, Inv;
  }

  lemma CommitEffect(s: World, w: nat, c: Claim, applied: bool)
    requires Inv(s) && c.tag in s.rows
    requires w in s.flights ==> && s.flights[w].claim == c && s.flights[w].stage.Finalize?
                                && s.flights[w].stage.params.tag == c.tag
                                && s.flights[w].stage.params.generation == c.generation
    ensures var s' := Step(s, Committed(w, applied));
            && w !in s'.flights && c.tag in s'.rows
            && (TakesEffect(s, w, c, applied) ==>
                  && s'.rows[c.tag].isActive == s.flights[w].stage.params.isActive
                  && s'.rows[c.tag].lastStatus == Some(s.flights[w].stage.params.status)
                  && s'.rows[c.tag].leasedUntil.None?)
            && (!TakesEffect(s, w, c, applied) ==> s'.rows == s.rows && s'.rejected == s.rejected)
            && (w in s.flights && !s.flights[w].stage.params.status.SampledOut? ==> s'.rejected == s.rejected)
  {
    hide RowOk, IsFinalized, FlightsOk, ClaimsDiffer;
  }

  lemma {:induction false} RowsStayIn(s: World, es: seq<Event>, t: Tag)
    requires Inv(s) && t in s.rows
    ensures t in Run(s, es).rows
    decreases |es|
  {
    hide Step, Inv;
    if es != [] {
      RowsStayIn(s, es[..|es| - 1], t);
      RunKeeps(s, es[..|es| - 1]);
      StepOnRow(Run(s, es[..|es| - 1]), es[|es| - 1], t);
    }
  }

  /** The end of a crawl amid everybody else: what the row is when worker w is through. */
  lemma CrawlEnds(s: World, w: nat, a: seq<Event>, dbOk: bool, b: seq<Event>, applied: bool)
    requires Inv(s) && w in s.flights && s.flights[w].stage.StoreLog? && Foreign(a, w) && Foreign(b, w)
    ensures var f, s2 := s.flights[w], BeforeCommit(s, w, a, dbOk, b);
            var t, s' := f.claim.tag, Step(s2, Committed(w, applied));
            && t in s2.rows && t in s'.rows && w !in s'.flights
            && (w in s2.flights <==> dbOk || !Run(s, a).cancelled)
            && (TakesEffect(s2, w, f.claim, applied) ==>
                  && (s'.rows[t].isActive <==> !dbOk || !f.stage.sampledOut)
                  && s'.rows[t].lastStatus == Some(if !dbOk then Error else if f.stage.sampledOut then SampledOut else Success)
                  && s'.rows[t].leasedUntil.None?)
            && (!TakesEffect(s2, w, f.claim, applied) ==> s'.rows == s2.rows)
            && (!TakesEffect(s2, w, f.claim, applied) || !dbOk || !f.stage.sampledOut ==> s'.rejected == s2.rejected)
  {
    hide Step, Run, Inv, TakesEffect, Foreign;
    var f := s.flights[w];
    assert f.claim.tag in s.rows by { InFlightRow(s, w); }
    ForeignRun(s, a, w);
    RunKeeps(s, a);
    RowsStayIn(s, a, f.claim.tag);
    var s1 := Step(Run(s, a), LogStored(w, dbOk));
    StoringMoves(Run(s, a), w, dbOk);
    StepKeeps(Run(s, a), LogStored(w, dbOk));
    StepOnRow(Run(s, a), LogStored(w, dbOk), f.claim.tag);
    ForeignRun(s1, b, w);
    RunKeeps(s1, b);
    RowsStayIn(s1, b, f.claim.tag);
    CommitEffect(Run(s1, b), w, f.claim, applied);
    EffectNeedsFlight(Run(s1, b), w, f.claim, applied);
  }

  lemma EffectNeedsFlight(s: World, w: nat, c: Claim, applied: bool)
    ensures TakesEffect(s, w, c, applied) ==> w in s.flights
  {}

  lemma InFlightRow(s: World, w: nat)
    requires Inv(s) && w in s.flights
    ensures s.flights[w].claim.tag in s.rows
  {
    assert FlightOk(s.flights[w], s.rows, s.log, s.now);
  }

  /** A rejection is honoured, whatever everybody else does in between, exactly when the rejected
      player's battle log is stored and the final commit is applied to a claim that is still the
      current one.  Otherwise a player who was active right before the commit stays active, and the
      rejection stays outstanding. */
  lemma RejectionHonouredIff(s: World, w: nat, a: seq<Event>, dbOk: bool, b: seq<Event>, applied: bool)
    requires Inv(s) && w in s.flights && Foreign(a, w) && Foreign(b, w)
    requires s.flights[w].stage.StoreLog? && s.flights[w].stage.sampledOut
    ensures var c, s2 := s.flights[w].claim, BeforeCommit(s, w, a, dbOk, b);
            var s' := Step(s2, Committed(w, applied));
            && c.tag in s2.rows && c.tag in s'.rows && w !in s'.flights
            && (s2.rows[c.tag].isActive ==>
                  (!s'.rows[c.tag].isActive <==> dbOk && applied && Owns(s2.rows, c.tag, c.generation)))
            && (!(dbOk && TakesEffect(s2, w, c, applied)) ==> s'.rejected == s2.rejected)
            && (!dbOk && TakesEffect(s2, w, c, applied) ==>
                  s'.rows[c.tag].isActive && s'.rows[c.tag].lastStatus == Some(Error) && s'.rows[c.tag].leasedUntil.None?)
  {
    hide Step, Run, Inv, Foreign;
    CrawlEnds(s, w, a, dbOk, b, applied);
  }

  /** Whatever becomes of the classification transaction, and whatever everybody else does afterwards,
      the player ends inactive, if the crawl's finalization takes effect, exactly when the verdict was
      to reject and the transaction got as far as its commit.  So among the transactions that report an
      error, those that lost their commit deactivate a rejected player although the error is handled as
      "kept active", and whether or not the classification itself was applied. */
  lemma ErrorDeactivatesIff(s: World, w: nat, u: real, victim: Option<Tag>, fault: Fault, a: seq<Event>, b: seq<Event>)
    requires Inv(s) && (fault.NoFault? || !s.cancelled) && w in s.flights && s.flights[w].stage.Classify?
    requires !s.flights[w].claim.isClassified && Foreign(a, w) && Foreign(b, w)
    requires SampleEnabled(s, s.flights[w].claim.tag, s.flights[w].stage.trophies, u, victim)
    ensures var f, s2 := s.flights[w], BeforeCommit(Step(s, Sampled(w, u, victim, fault)), w, a, true, b);
            var t, s' := f.claim.tag, Step(s2, Committed(w, true));
            && t in s2.rows && t in s'.rows && w !in s'.flights
            && (Owns(s2.rows, t, f.claim.generation) ==>
                  && (!s'.rows[t].isActive <==> SampleVerdict(s, t, f.stage.trophies, u).Reject? && !fault.RolledBack?)
                  && (!fault.NoFault? ==>
                        (!s'.rows[t].isActive <==> SampleVerdict(s, t, f.stage.trophies, u).Reject? && fault.LostCommit?)))
            && (!Owns(s2.rows, t, f.claim.generation) ==> s'.rows == s2.rows)
  {
    hide Step, Run, SampleVerdict, SampleEnabled, Inv, Foreign;
    var e := Sampled(w, u, victim, fault);
    StageAfterFault(s, w, u, victim, fault);
    StepKeeps(s, e);
    CrawlEnds(Step(s, e), w, a, true, b, true);
  }

  lemma StageAfterFault(s: World, w: nat, u: real, victim: Option<Tag>, fault: Fault)
    requires (fault.NoFault? || !s.cancelled) && w in s.flights && s.flights[w].stage.Classify? && !s.flights[w].claim.isClassified
    requires SampleEnabled(s, s.flights[w].claim.tag, s.flights[w].stage.trophies, u, victim)
    ensures var f, s' := s.flights[w], Step(s, Sampled(w, u, victim, fault));
            && w in s'.flights && s'.flights[w].claim == f.claim && s'.flights[w].stage.StoreLog?
            && s'.flights[w].stage.sampledOut
               == (SampleVerdict(s, f.claim.tag, f.stage.trophies, u).Reject? && !fault.RolledBack?)
  {
    hide SampleVerdict, Evicted, Classified, LegalVictim;
  }

  // -------------------------------------------------------------------- these runs exist

  predicate NoCancel(es: seq<Event>) {
    forall i :: 0 <= i < |es| ==> !es[i].Cancel?
  }

  lemma {:induction false} NeverCancelled(s: World, es: seq<Event>)
    requires !s.cancelled && NoCancel(es)
    ensures !Run(s, es).cancelled
    decreases |es|
  {
    if es != [] {
      NeverCancelled(s, es[..|es| - 1]);
      StepNotCancelled(Run(s, es[..|es| - 1]), es[|es| - 1]);
    }
  }

  lemma StepNotCancelled(s: World, e: Event)
    requires !s.cancelled && !e.Cancel?
    ensures !Step(s, e).cancelled
  {
    hide Decide, Classified, Evicted, LegalVictim, Finalized, Leased;
  }

  lemma Starting(now: Time, a: Tag, b: Tag)
    requires a != b
    ensures AtRest(Run(Init(1, now), [Enqueue(a), Enqueue(b)]), {a, b})
    ensures forall d :: InBucket(Run(Init(1, now), [Enqueue(a), Enqueue(b)]).rows, d) == {}
    ensures Run(Init(1, now), [Enqueue(a), Enqueue(b)]).cap == 1
  {
    TwoSteps(Init(1, now), Enqueue(a), Enqueue(b));
    var s := Step(Step(Init(1, now), Enqueue(a)), Enqueue(b));
    assert s.rows.Keys == {a, b} && s.log.Keys == {a, b};
    forall d ensures InBucket(s.rows, d) == {} {}
  }

  /** A run in which the first of two players has taken the one place and the second is due. */
  lemma SecondIsDue(now: Time, first: Visit, second: Visit, b: int) returns (es: seq<Event>)
    requires first.tag != second.tag && Planned([first, second], b)
    ensures var s := Run(Init(1, now), es);
            && Inv(s) && !s.cancelled && s.cap == 1
            && Due(s, second, {}) && Sampling(s, 1, b, {first.tag}) && Active(s.rows, b) == {first.tag}
  {
    hide Due, AtRest, InBucket, Active, Step, Run, Conducted, Inv, Sampling, InShare, Calm;
    var visits := [first, second];
    assert visits[0] == first && visits[1] == second && |visits| == 2;
    var p := Plan(visits, b);
    var start, arrive := [Enqueue(first.tag), Enqueue(second.tag)], Arrive(first);
    var draw := [Sampled(0, p.number(0, Run(Run(Init(1, now), start), arrive), 0), None, NoFault)];
    es := start + arrive + draw + (Depart() + Arrive(second));
    var s0 := Run(Init(1, now), start);
    Starting(now, first.tag, second.tag);
    assert {second.tag} + {first.tag} == {first.tag, second.tag};
    Arrives(s0, first, {second.tag}, b);
    var s1 := Run(s0, arrive);
    assert Later(visits, 1) == {second.tag} && Later(visits, 2) == {} by { LaterOfTwo(first, second); }
    EmptyIsSampling(s1, b);
    DueIsConducted(visits, b, 0, s1, {});
    BranchStep(p, 0, s1, 1, b, {}, first.tag, 0, "");
    VisitIsCalm(visits, b, 0, s1, {}, 0, "");
    var w := Branch(p, 0, s1, b, 0, "");
    assert |InBucket(s1.rows, b)| == 0;
    SingleStep(s1, draw[0]);
    assert w == Run(Run(s1, draw), Depart() + Arrive(second));
    RunSplit(Init(1, now), start, arrive);
    RunSplit(Init(1, now), start + arrive, draw);
    RunSplit(Init(1, now), start + arrive + draw, Depart() + Arrive(second));
    assert Init(1, now).cap == 1 && Inv(Init(1, now)) by { StartsOk(now); }
    RunKeeps(Init(1, now), es);
    NeverCancelled(Init(1, now), es);
    assert {} + {first.tag} == {first.tag};
    CapIs(w, 1, b, {first.tag});
  }

  lemma CapIs(s: World, cap: int, b: int, done: set<Tag>)
    requires Sampling(s, cap, b, done)
    ensures s.cap == cap
  {}

  lemma SingleStep(s: World, e: Event)
    ensures Run(s, [e]) == Step(s, e)
  {
    hide Step;
    assert [e][..0] == [];
    LastStep(s, [e]);
  }

  lemma StartsOk(now: Time)
    ensures Inv(Init(1, now))
  {}

  lemma LaterOfTwo(first: Visit, second: Visit)
    ensures Later([first, second], 1) == {second.tag} && Later([first, second], 2) == {}
  {
    var visits := [first, second];
    forall x ensures x in Later(visits, 1) <==> x == second.tag {
      assert visits[1].tag == second.tag;
    }
  }

  lemma EmptyIsSampling(s: World, b: int)
    requires s.cap == 1 && InBucket(s.rows, b) == {}
    ensures Sampling(s, 1, b, {}) && Active(s.rows, b) == {}
  {
    ActiveInBucket(s.rows, b);
  }

  /** Storing the log fails: the claim goes on to be finalized as an error, which turns nobody over. */
  lemma FailedToStore(s: World, c: Claim, sampledOut: bool, priority: int, waiting: set<Tag>, b: int)
    requires Held(s, c, StoreLog(sampledOut, priority), waiting) && !s.cancelled
    ensures var s' := Step(Step(s, LogStored(0, false)), Committed(0, true));
            && s'.flights == map[] && InBucket(s'.rows, b) == InBucket(s.rows, b) && Active(s'.rows, b) == Active(s.rows, b)
  {
    var p := TransientParams(c, s.now);
    var s' := Step(s, LogStored(0, false));
    assert s' == s.(flights := map[0 := Flight(c, Finalize(p))]);
    assert Step(s', Committed(0, true)) == CommitStep(s', 0, true);
    assert s'.flights - {0} == map[];
    hide BackoffDuration;
    var rows' := Finalized(s.rows, p, s.now);
    assert forall t :: t in rows' ==> t in s.rows && rows'[t].bucket == s.rows[t].bucket && rows'[t].isActive == s.rows[t].isActive;
    SameActivity(s.rows, rows', b, {});
    assert Active(rows', b) - {} == Active(rows', b) && Active(s.rows, b) - {} == Active(s.rows, b);
  }

  lemma ReadyIfDue(s: World, v: Visit, waiting: set<Tag>, b: int)
    requires Due(s, v, waiting) && BucketForTrophies(v.trophies) == b
    ensures Ready(s, b, v.tag, 0) && Owns(s.rows, v.tag, s.flights[0].claim.generation)
  {}

  /** With one place taken, the upper half of the draws rejects the second player. */
  lemma SecondIsRejected(s: World, v: Visit, b: int, done: set<Tag>) returns (u: real)
    requires s.cap == 1 && |done| == 1 && Sampling(s, 1, b, done) && Due(s, v, {}) && BucketForTrophies(v.trophies) == b
    ensures InShare(u, 1, 2) && SampleEnabled(s, v.tag, v.trophies, u, None) && SampleVerdict(s, v.tag, v.trophies, u).Reject?
  {
    u := 1 as real / 2 as real;
    LowestInShare(1, 2);
    var x := Pick(Active(s.rows, b));
    var priority := PriorityForTrophies(v.trophies);
    VerdictIs(s, 1, b, done, v.tag, u, 1, x, priority, v.trophies);
    RejectVerdict(s, b, done, v.tag, u, 1, priority, v.trophies);
    hide Decide, LegalVictim, InShare, Sampling, Due;
    assert VictimOf(1, 2, 1, x) == None;
  }

  /** The cap is exceeded for good in a run from the start: of two players for one place, the second
      is rejected, his battle log fails to store, and both are active with nobody in flight. */
  lemma CapExceeded(now: Time, first: Visit, second: Visit, b: int) returns (es: seq<Event>)
    requires first.tag != second.tag && Planned([first, second], b)
    ensures var s := Run(Init(1, now), es);
            s.cap == 1 && s.flights == map[] && Active(s.rows, b) == {first.tag, second.tag} && |Active(s.rows, b)| == 2
  {
    hide Sampling, InBucket, Active, Step, Run, Inv, InShare, Held, SampleEnabled, SampleVerdict;
    var due := SecondIsDue(now, first, second, b);
    var s := Run(Init(1, now), due);
    assert [first, second][1] == second;
    var u := SecondIsRejected(s, second, b, {first.tag});
    ReadyIfDue(s, second, {}, b);
    ClassificationEffect(s, 1, b, {first.tag}, second.tag, 0, u, 1, first.tag);
    Sampled0(s, second, {}, b, u, 1, first.tag, {first.tag});
    var sampled, stored, committed := Sampled(0, u, None, NoFault), LogStored(0, false), Committed(0, true);
    assert VictimOf(1, 2, 1, first.tag) == None;
    var s1 := Step(s, sampled);
    StepNotCancelled(s, sampled);
    FailedToStore(s1, s.flights[0].claim, true, PriorityForTrophies(second.trophies), {}, b);
    es := due + [sampled] + [stored, committed];
    SingleStep(s, sampled);
    TwoSteps(s1, stored, committed);
    RunSplit(Init(1, now), due, [sampled]);
    RunSplit(Init(1, now), due + [sampled], [stored, committed]);
    assert {first.tag} - {} + {second.tag} == {first.tag, second.tag};
    Population.StepCap(s1, stored);
    Population.StepCap(Step(s1, stored), committed);
  }

  /** In a run from the start, a player whose classification was rolled back but reported as a lost
      commit is deactivated without ever having been classified. */
  lemma LostCommitDeactivates(now: Time, first: Visit, second: Visit, b: int) returns (es: seq<Event>)
    requires first.tag != second.tag && Planned([first, second], b)
    ensures var s := Run(Init(1, now), es);
            && second.tag in s.rows && !s.rows[second.tag].isActive && s.rows[second.tag].bucket.None?
            && 0 !in s.flights
  {
    hide Sampling, InBucket, Active, Step, Run, Inv, InShare, SampleEnabled, SampleVerdict;
    var due := SecondIsDue(now, first, second, b);
    var s := Run(Init(1, now), due);
    assert [first, second][1] == second;
    var u := SecondIsRejected(s, second, b, {first.tag});
    ReadyIfDue(s, second, {}, b);
    var sampled, stored, committed := Sampled(0, u, None, LostCommit(false)), LogStored(0, true), Committed(0, true);
    NothingBetween(Step(s, sampled), 0);
    ErrorDeactivatesIff(s, 0, u, None, LostCommit(false), [], []);
    UnappliedKeepsBuckets(s, 0, u, None);
    es := due + [sampled] + [stored, committed];
    SingleStep(s, sampled);
    TwoSteps(Step(s, sampled), stored, committed);
    RunSplit(Init(1, now), due, [sampled]);
    RunSplit(Init(1, now), due + [sampled], [stored, committed]);
  }

  lemma NothingBetween(s: World, w: nat)
    ensures BeforeCommit(s, w, [], true, []) == Step(s, LogStored(w, true)) && Foreign([], w)
  {}

  lemma UnappliedKeepsBuckets(s: World, w: nat, u: real, victim: Option<Tag>)
    requires !s.cancelled && w in s.flights && s.flights[w].stage.Classify?
    ensures var s1 := Step(Step(s, Sampled(w, u, victim, LostCommit(false))), LogStored(w, true));
            && s1.rows == s.rows
            && forall t :: t in s.rows ==> t in Step(s1, Committed(w, true)).rows
                                           && Step(s1, Committed(w, true)).rows[t].bucket == s.rows[t].bucket
  {
    hide Decide, LegalVictim, Classified, Evicted, Profiled;
    assert Step(s, Sampled(w, u, victim, LostCommit(false))).rows == s.rows;
  }
}
