/** How long an active row can stay out of reach: ten minutes for a lease, and seven days since the
    last finalization.  A claim that outlives its lease can restart the seven days, but only once. */
module Waiting {
  import opened Collections
  import opened CrawlQueue
  import opened Domain
  import opened Worker
  import opened Leases
  import LeaseSafety
  import opened Uniformity
  import opened Consecutive
  import Rejections

  /** The row's current generation has been finalized. */
  ghost predicate Done(s: World, t: Tag) {
    t in s.rows && t in s.log && IsFinalized(s.log[t], s.rows[t].generation)
  }

  /** Nobody claims t in the run. */
  ghost predicate Unclaimed(s: World, es: seq<Event>, t: Tag) {
    t in s.rows && t in Run(s, es).rows && Run(s, es).rows[t].generation == s.rows[t].generation
  }

  lemma StepForward(s: World, e: Event, t: Tag)
    requires Inv(s) && t in s.rows
    ensures var s' := Step(s, e);
            && t in s'.rows && s.rows[t].generation <= s'.rows[t].generation
            && (s'.rows[t].generation == s.rows[t].generation && Done(s, t) ==> Done(s', t))
  {
    hide Step, IsFinalized, RowOk;
    StepOnRow(s, e, t);
    match Delta(s, e, t) {
      case None =>
      case Some(x) => FinalizedAppend(s.log[t], x, s.rows[t].generation);
    }
  }

  lemma {:induction false} RunForward(s: World, es: seq<Event>, t: Tag)
    requires Inv(s) && t in s.rows
    ensures var s' := Run(s, es);
            && t in s'.rows && s.rows[t].generation <= s'.rows[t].generation
            && (s'.rows[t].generation == s.rows[t].generation && Done(s, t) ==> Done(s', t))
    decreases |es|
  {
    hide Step, Done;
    if es != [] {
      RunForward(s, es[..|es| - 1], t);
      RunKeeps(s, es[..|es| - 1]);
      StepForward(Run(s, es[..|es| - 1]), es[|es| - 1], t);
    }
  }

  lemma {:induction false} TimePasses(s: World, es: seq<Event>)
    ensures s.now <= Run(s, es).now
    decreases |es|
  {
    hide Step;
    if es != [] {
      TimePasses(s, es[..|es| - 1]);
      LeaseSafety.StepTime(Run(s, es[..|es| - 1]), es[|es| - 1]);
    }
  }

  /** A step that neither claims t nor finalizes it leaves the row as it is, or inactive; and without a
      claim a lease is at most given up. */
  lemma StepUnclaimed(s: World, e: Event, t: Tag)
    requires Inv(s) && t in s.rows && t in Step(s, e).rows && Step(s, e).rows[t].generation == s.rows[t].generation
    ensures var r, r' := s.rows[t], Step(s, e).rows[t];
            && (r'.leasedUntil == r.leasedUntil || r'.leasedUntil.None?)
            && ((Done(Step(s, e), t) ==> Done(s, t)) ==> CoreOf(r') == CoreOf(r) || !r'.isActive)
            && ((Done(Step(s, e), t) ==> Done(s, t)) && !r.isActive ==> !r'.isActive)
  {
    hide Step, IsFinalized, RowOk;
    StepOnRow(s, e, t);
    match Delta(s, e, t) {
      case None =>
      case Some(x) =>
        FinalizedAppend(s.log[t], x, s.rows[t].generation);
        if e.Committed? {
          assert FlightOk(s.flights[e.w], s.rows, s.log, s.now);
        }
    }
  }

  lemma {:induction false} RunUnclaimed(s: World, es: seq<Event>, t: Tag)
    requires Inv(s) && Unclaimed(s, es, t)
    ensures var r, r' := s.rows[t], Run(s, es).rows[t];
            && (r'.leasedUntil == r.leasedUntil || r'.leasedUntil.None?)
            && ((Done(Run(s, es), t) ==> Done(s, t)) && r'.isActive ==> CoreOf(r') == CoreOf(r))
    decreases |es|
  {
    hide Step, Done, Inv;
    if es != [] {
      var before := es[..|es| - 1];
      RunForward(s, before, t);
      RunKeeps(s, before);
      StepForward(Run(s, before), es[|es| - 1], t);
      RunUnclaimed(s, before, t);
      StepUnclaimed(Run(s, before), es[|es| - 1], t);
    }
  }

  lemma RowBounds(s: World, t: Tag)
    requires Inv(s) && t in s.rows
    ensures s.rows[t].nextCrawlAt <= s.now + MAX_BACKOFF
    ensures s.rows[t].leasedUntil.Some? ==> s.rows[t].leasedUntil.value <= s.now + LEASE
  {
    assert RowOk(s.rows[t], s.log[t], s.now);
  }

  /** Ten minutes: a lease that nobody renews has run out by then, or was given up before. */
  lemma LeaseEnds(s: World, es: seq<Event>, t: Tag)
    requires Inv(s) && Unclaimed(s, es, t) && Run(s, es).now > s.now + LEASE
    ensures LeaseOver(Run(s, es).rows[t], Run(s, es).now)
  {
    hide Run, RowOk, Inv;
    RunUnclaimed(s, es, t);
    RowBounds(s, t);
  }

  /** An active row that nobody claims or finalizes is claimable after seven days. */
  lemma ReadyAfterSevenDays(s: World, es: seq<Event>, t: Tag)
    requires Inv(s) && Unclaimed(s, es, t) && Run(s, es).rows[t].isActive
    requires Done(Run(s, es), t) ==> Done(s, t)
    requires Run(s, es).now >= s.now + MAX_BACKOFF
    ensures t in ClaimableTags(Run(s, es).rows, Run(s, es).now)
  {
    hide Run, RowOk, Done, Inv, LeaseOver;
    RunUnclaimed(s, es, t);
    LeaseEnds(s, es, t);
    RowBounds(s, t);
  }

  /** Nobody is parked for good: in every run in which nothing is committed for an active row, it is
      claimable once seven days have passed. */
  lemma NoTargetLost(s: World, es: seq<Event>, t: Tag)
    requires Inv(s) && t in s.rows && s.rows[t].isActive
    requires t in Run(s, es).log && Run(s, es).log[t] == s.log[t]
    requires Run(s, es).now >= s.now + MAX_BACKOFF
    ensures t in ClaimableTags(Run(s, es).rows, Run(s, es).now)
  {
    RunKeeps(s, es);
    SameHistory(s, Run(s, es), t);
    ReadyAfterSevenDays(s, es, t);
  }

  lemma SameHistory(s: World, s': World, t: Tag)
    requires Inv(s) && Inv(s') && t in s.rows && t in s'.log && s'.log[t] == s.log[t]
    ensures t in s'.rows && CoreOf(s'.rows[t]) == CoreOf(s.rows[t])
  {
    assert RowOk(s.rows[t], s.log[t], s.now);
    assert RowOk(s'.rows[t], s'.log[t], s'.now);
  }

  /** The seven days are restarted at most once.  Over a run in which nobody claims a row, cut into two
      parts of seven days each, the row is claimable at the end of one of them, if it is active then:
      only the worker that still holds its last claim can finalize it, and only once. */
  lemma PostponedOnce(s: World, a: seq<Event>, b: seq<Event>, t: Tag)
    requires Inv(s) && Unclaimed(s, a + b, t)
    requires Run(s, a).now >= s.now + MAX_BACKOFF && Run(s, a + b).now >= Run(s, a).now + MAX_BACKOFF
    ensures var s1, s2 := Run(s, a), Run(s, a + b);
            && t in s1.rows
            && (s1.rows[t].isActive && s2.rows[t].isActive ==>
                  t in ClaimableTags(s1.rows, s1.now) || t in ClaimableTags(s2.rows, s2.now))
  {
    hide Inv, Done, ClaimableTags;
    var s1 := Run(s, a);
    RunSplit(s, a, b);
    RunKeeps(s, a);
    RunForward(s, a, t);
    RunForward(s1, b, t);
    if s1.rows[t].isActive && Run(s, a + b).rows[t].isActive {
      if Done(s1, t) {
        ReadyAfterSevenDays(s1, b, t);
      } else {
        ReadyAfterSevenDays(s, a, t);
      }
    }
  }

  // ------------------------------------------------------- the seven days can indeed be restarted

  /** A worker that still holds the current claim, however long ago its lease ran out, can finalize
      the row and so keep it out of reach for another interval, although nobody claims it. */
  lemma HolderPostpones(s: World, w: nat, d: nat, x: nat)
    requires Inv(s) && w in s.flights && s.flights[w].stage.StoreLog? && !s.flights[w].stage.sampledOut
    requires Owns(s.rows, s.flights[w].claim.tag, s.flights[w].claim.generation)
    requires x < BaseInterval(s.flights[w].stage.priority)
    ensures var t := s.flights[w].claim.tag;
            var s' := Step(Step(Step(Step(s, Tick(d)), LogStored(w, true)), Committed(w, true)), Tick(x));
            && t in s'.rows && s'.rows[t].generation == s.rows[t].generation && s'.rows[t].isActive
            && s'.now == s.now + d + x && t !in ClaimableTags(s'.rows, s'.now)
  {
    hide BaseInterval;
    assert FlightOk(s.flights[w], s.rows, s.log, s.now);
  }

  const DAY: nat := 24 * HOUR

  /** A first crawl up to the point where the battle log is to be stored. */
  lemma StoringLog(now: Time, v: Visit) returns (es: seq<Event>)
    requires v.delay <= LEASE
    ensures var s := Run(Init(1, now), es);
            && Inv(s) && 0 in s.flights && s.flights[0].claim.tag == v.tag
            && s.flights[0].stage == StoreLog(false, PriorityForTrophies(v.trophies))
            && Owns(s.rows, v.tag, s.flights[0].claim.generation)
  {
    hide AtRest, Due, Sampling, InShare, Step, Run, Inv, PriorityForTrophies;
    var start, arrive := [Event.Enqueue(v.tag)], Arrive(v);
    var b, s0 := BucketForTrophies(v.trophies), Run(Init(1, now), start);
    Discovered(now, v.tag, b);
    assert {} + {v.tag} == {v.tag};
    Arrives(s0, v, {}, b);
    var s1 := Run(s0, arrive);
    DueTag(s1, v);
    Rejections.EmptyIsSampling(s1, b);
    FirstShare();
    assert VictimOf(1, 1, 0, "") == None && !Rejects(1, 1, 0);
    Sampled0(s1, v, {}, b, 0.0, 0, "", {});
    var sampled := Sampled(0, 0.0, None, NoFault);
    es := start + arrive + [sampled];
    Rejections.SingleStep(s1, sampled);
    RunSplit(Init(1, now), start, arrive);
    RunSplit(Init(1, now), start + arrive, [sampled]);
    assert Inv(Init(1, now)) by { Rejections.StartsOk(now); }
    RunKeeps(Init(1, now), es);
  }

  lemma DueTag(s: World, v: Visit)
    requires Due(s, v, {})
    ensures 0 in s.flights && s.flights[0].claim.tag == v.tag
  {}

  lemma FirstShare()
    ensures InShare(0.0, 0, 1)
  {
    LowestInShare(0, 1);
    assert 0.0 as real / 1.0 as real == 0.0;
  }

  lemma Discovered(now: Time, t: Tag, b: int)
    ensures var s := Run(Init(1, now), [Event.Enqueue(t)]);
            AtRest(s, {t}) && InBucket(s.rows, b) == {} && s.cap == 1
  {
    Rejections.SingleStep(Init(1, now), Event.Enqueue(t));
  }

  lemma FourSteps(s: World, a: Event, b: Event, c: Event, d: Event)
    ensures Run(s, [a, b, c, d]) == Step(Step(Step(Step(s, a), b), c), d)
  {
    hide Step;
    assert [a, b, c, d][..3] == [a, b, c] && [a, b, c][..2] == [a, b];
    TwoSteps(s, a, b);
    LastStep(s, [a, b, c]);
    LastStep(s, [a, b, c, d]);
  }

  /** In a run from the start, a player is active, nobody claims him for seven days, and still he cannot
      be claimed: on the sixth day the worker that held him all the time finalized his crawl. */
  lemma SevenDaysRestarted(now: Time, v: Visit) returns (es: seq<Event>, rest: seq<Event>)
    requires v.delay <= LEASE && BaseInterval(PriorityForTrophies(v.trophies)) > DAY
    ensures var s := Run(Init(1, now), es);
            var s' := Run(s, rest);
            && Inv(s) && s'.now == s.now + MAX_BACKOFF && Unclaimed(s, rest, v.tag)
            && s'.rows[v.tag].isActive && v.tag !in ClaimableTags(s'.rows, s'.now)
  {
    hide Step, Run, Inv, BaseInterval, PriorityForTrophies;
    es := StoringLog(now, v);
    var s := Run(Init(1, now), es);
    rest := [Tick(6 * DAY), LogStored(0, true), Committed(0, true), Tick(DAY)];
    HolderPostpones(s, 0, 6 * DAY, DAY);
    FourSteps(s, Tick(6 * DAY), LogStored(0, true), Committed(0, true), Tick(DAY));
  }
}
