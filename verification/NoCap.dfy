/** Without a positive cap reservoir sampling is off: no run ever evicts, rejects or samples out a player. */
module NoCap {
  import opened Collections
  import opened CrawlQueue
  import opened Domain
  import opened Worker
  import opened LeaseSafety

  predicate SamplesOut(e: Entry) {
    e.Displaced? || (e.Finished? && e.status.SampledOut?)
  }

  /** No crawl on its way to a rejection. */
  predicate Accepting(stage: Stage) {
    && (stage.StoreLog? ==> !stage.sampledOut)
    && (stage.Finalize? ==> !stage.params.status.SampledOut?)
  }

  ghost predicate NobodySampledOut(s: World) {
    && s.cap <= 0 && s.rejected == {}
    && (forall t :: t in s.log ==> CleanLog(s.log[t]))
    && (forall w :: w in s.flights ==> Accepting(s.flights[w].stage))
    && (forall t :: t in s.rows ==> s.rows[t].lastStatus != Some(SampledOut))
  }

  predicate CleanLog(es: seq<Entry>) {
    forall i :: 0 <= i < |es| ==> !SamplesOut(es[i])
  }

  lemma CleanAppend(es: seq<Entry>, e: Entry)
    requires CleanLog(es) && !SamplesOut(e)
    ensures CleanLog(es + [e])
  {}

  /** One classification without a cap turns nobody over and hands on no rejection. */
  lemma ClassificationKeepsAll(s: World, w: nat, u: real, victim: Option<Tag>, fault: Fault)
    requires s.cap <= 0 && w in s.flights && s.flights[w].stage.Classify?
    ensures var s' := Step(s, Sampled(w, u, victim, fault));
            && s'.rows.Keys == s.rows.Keys && s'.log == s.log && s'.rejected == s.rejected && s'.cap == s.cap
            && (forall t :: t in s.rows ==> s'.rows[t].isActive == s.rows[t].isActive
                                            && s'.rows[t].lastStatus == s.rows[t].lastStatus)
            && (forall v :: v in s'.flights ==>
                  v in s.flights && (s'.flights[v] == s.flights[v] || (s'.flights[v].stage.StoreLog? && !s'.flights[v].stage.sampledOut)))
  {
    AcceptsAll(s, w, u, victim, fault);
    hide Step, SampleEffect, SampleVerdict, SampleEnabled, BucketForTrophies, PriorityForTrophies;
    var c, trophies := s.flights[w].claim, s.flights[w].stage.trophies;
    if !c.isClassified && SampleEnabled(s, c.tag, trophies, u, victim) {
      NoVictim(s, c.tag, trophies, u, victim);
    }
    TablesOf(s, w, u, victim, fault);
    ProfileKeeps(s.rows, c.tag, PriorityForTrophies(trophies), trophies);
  }

  lemma ProfileKeeps(rows: Table, t: Tag, priority: int, trophies: int)
    ensures var rows' := Profiled(rows, t, priority, trophies);
            && rows'.Keys == rows.Keys
            && forall o :: o in rows ==> rows'[o].isActive == rows[o].isActive && rows'[o].lastStatus == rows[o].lastStatus
  {}

  /** The step's tables, apart from the flights. */
  lemma TablesOf(s: World, w: nat, u: real, victim: Option<Tag>, fault: Fault)
    requires w in s.flights && s.flights[w].stage.Classify?
    ensures var s' := Step(s, Sampled(w, u, victim, fault));
            var c, trophies := s.flights[w].claim, s.flights[w].stage.trophies;
            var s1 := if c.isClassified then s.(rows := Profiled(s.rows, c.tag, PriorityForTrophies(trophies), trophies))
                      else if SampleEnabled(s, c.tag, trophies, u, victim) then SampleEffect(s, c.tag, trophies, u, victim) else s;
            && (s'.rows == s.rows || s'.rows == s1.rows) && (s'.log == s.log || s'.log == s1.log)
            && (s'.rejected == s.rejected || s'.rejected == s1.rejected) && (s'.cap == s.cap || s'.cap == s1.cap)
  {
    hide SampleEffect, SampleEnabled, SampleVerdict, Profiled;
  }

  lemma AcceptsAll(s: World, w: nat, u: real, victim: Option<Tag>, fault: Fault)
    requires s.cap <= 0 && w in s.flights && s.flights[w].stage.Classify?
    ensures var s' := Step(s, Sampled(w, u, victim, fault));
            forall v :: v in s'.flights ==>
              v in s.flights && (s'.flights[v] == s.flights[v] || (s'.flights[v].stage.StoreLog? && !s'.flights[v].stage.sampledOut))
  {
    hide SampleEnabled, SampleVerdict, Profiled, BucketForTrophies, PriorityForTrophies;
    var c, trophies := s.flights[w].claim, s.flights[w].stage.trophies;
    if !c.isClassified && SampleEnabled(s, c.tag, trophies, u, victim) {
      NoVictim(s, c.tag, trophies, u, victim);
    }
  }

  lemma NoVictim(s: World, t: Tag, trophies: int, u: real, victim: Option<Tag>)
    requires s.cap <= 0 && SampleEnabled(s, t, trophies, u, victim)
    ensures victim.None? && !SampleVerdict(s, t, trophies, u).Reject?
    ensures var s' := SampleEffect(s, t, trophies, u, victim);
            && s'.rejected == s.rejected && s'.log == s.log && s'.cap == s.cap && s'.rows.Keys == s.rows.Keys
            && forall o :: o in s.rows ==> s'.rows[o].isActive == s.rows[o].isActive
                                           && s'.rows[o].lastStatus == s.rows[o].lastStatus
  {
    SamplingColumns(s.rows, t, BucketForTrophies(trophies), PriorityForTrophies(trophies), trophies, s.cap, u, s.now, victim);
    hide Decide, LegalVictim, Classified, Evicted;
  }

  lemma StepKeeps(s: World, e: Event)
    requires NobodySampledOut(s)
    ensures NobodySampledOut(Step(s, e))
  {
    hide CleanLog, SampleStep, CommitStep, BackoffDuration, BaseInterval;
    match e
    case Sampled(w, u, victim, fault) =>
      if w in s.flights && s.flights[w].stage.Classify? {
        ClassificationKeepsAll(s, w, u, victim, fault);
      }
    case Committed(w, applied) => CommitKeeps(s, w, applied);
    case Take(w, t, delivered) => TakeKeeps(s, w, t, delivered);
    case Enqueue(t) => Fresh(s.now);
    case _ =>
  }

  lemma TakeKeeps(s: World, w: nat, t: Tag, delivered: bool)
    requires NobodySampledOut(s)
    ensures NobodySampledOut(Step(s, Take(w, t, delivered)))
  {
    hide CleanLog;
    if w !in s.flights && t in ClaimableTags(s.rows, s.now) && t in s.log {
      CleanAppend(s.log[t], Issued(s.rows[t].generation + 1, s.now));
    }
  }

  lemma Fresh(now: Time)
    ensures CleanLog([Discovered(now)])
  {}

  lemma CommitKeeps(s: World, w: nat, applied: bool)
    requires NobodySampledOut(s)
    ensures NobodySampledOut(Step(s, Committed(w, applied)))
  {
    hide CleanLog;
    if w in s.flights && s.flights[w].stage.Finalize? && s.flights[w].stage.params.tag in s.log {
      var p := s.flights[w].stage.params;
      CleanAppend(s.log[p.tag], Finished(p.generation, p.status, p.nextCrawlAt, s.now));
    }
  }

  lemma {:induction false} RunKeeps(cap: int, start: Time, es: seq<Event>)
    requires cap <= 0
    ensures NobodySampledOut(Reached(cap, start, es))
    decreases |es|
  {
    hide Step;
    if es != [] {
      RunKeeps(cap, start, es[..|es| - 1]);
      StepKeeps(Reached(cap, start, es[..|es| - 1]), es[|es| - 1]);
    }
  }

  /** In every run without a cap, no row's history holds an eviction or a finalization as sampled out, no
      rejection is outstanding, and no row shows the status. */
  lemma SamplingIsOff(cap: int, start: Time, es: seq<Event>)
    requires cap <= 0
    ensures var s := Reached(cap, start, es);
            && s.rejected == {}
            && (forall t, i :: t in s.log && 0 <= i < |s.log[t]| ==>
                  !s.log[t][i].Displaced? && !(s.log[t][i].Finished? && s.log[t][i].status == SampledOut))
            && (forall t :: t in s.rows ==> s.rows[t].lastStatus != Some(SampledOut))
  {
    RunKeeps(cap, start, es);
    var s := Reached(cap, start, es);
    hide Run;
    forall t, i | t in s.log && 0 <= i < |s.log[t]|
      ensures !s.log[t][i].Displaced? && !(s.log[t][i].Finished? && s.log[t][i].status == SampledOut)
    {
      assert CleanLog(s.log[t]);
      assert !SamplesOut(s.log[t][i]);
    }
  }
}
