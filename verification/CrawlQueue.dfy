/** The crawl_targets table: claiming under leases, compare-and-update finalization, discovery,
    and the classification transaction with its reservoir sampling.  Each SQL transaction is one
    atomic step; times are nanoseconds on one clock. */
module CrawlQueue {
  import opened Collections

  type Tag = string
  type Time = int

  const MINUTE: Time := 60_000_000_000
  const HOUR: Time := 60 * MINUTE
  const LEASE: Time := 10 * MINUTE

  /** The values of last_crawl_status. */
  datatype Outcome = Success | SampledOut | NotFound | RateLimited | Error

  /** One row of crawl_targets. */
  datatype Row = Row(
    priority: int,
    nextCrawlAt: Time,
    lastCrawledAt: Option<Time>,
    lastStatus: Option<Outcome>,
    failures: nat,
    crawlCount: nat,
    isActive: bool,
    generation: nat,
    leasedUntil: Option<Time>,
    bucket: Option<int>,
    trophies: Option<int>)

  type Table = map<Tag, Row>

  /** What ClaimNextTarget hands to a worker, with the time of the claim. */
  datatype Claim = Claim(
    tag: Tag, generation: nat, priority: int, failures: nat, isClassified: bool, issuedAt: Time)

  datatype FinalizeParams = FinalizeParams(
    tag: Tag, generation: nat, status: Outcome, nextCrawlAt: Time, failures: nat, isActive: bool)

  // ---------------------------------------------------------------------- meaning of the SQL

  predicate LeaseOver(row: Row, now: Time) {
    row.leasedUntil.None? || row.leasedUntil.value < now
  }

  predicate Claimable(row: Row, now: Time) {
    row.isActive && row.nextCrawlAt <= now && LeaseOver(row, now)
  }

  function ClaimableTags(rows: Table, now: Time): set<Tag> {
    set t | t in rows && Claimable(rows[t], now)
  }

  /** ORDER BY priority ASC, next_crawl_at ASC */
  predicate NotAfter(a: Row, b: Row) {
    a.priority < b.priority || (a.priority == b.priority && a.nextCrawlAt <= b.nextCrawlAt)
  }

  function ClaimOf(rows: Table, t: Tag, now: Time): Claim
    requires t in rows
  {
    var r := rows[t];
    Claim(t, r.generation + 1, r.priority, r.failures, r.bucket.Some?, now)
  }

  function Leased(rows: Table, t: Tag, now: Time): Table
    requires t in rows
  {
    rows[t := rows[t].(generation := rows[t].generation + 1, leasedUntil := Some(now + LEASE))]
  }

  predicate Owns(rows: Table, t: Tag, generation: nat) {
    t in rows && rows[t].generation == generation
  }

  predicate OwnsLease(rows: Table, t: Tag, generation: nat, now: Time) {
    Owns(rows, t, generation) && rows[t].leasedUntil.Some? && now <= rows[t].leasedUntil.value
  }

  function Finalized(rows: Table, p: FinalizeParams, now: Time): Table {
    if Owns(rows, p.tag, p.generation) then
      rows[p.tag := rows[p.tag].(
        lastStatus := Some(p.status), nextCrawlAt := p.nextCrawlAt, failures := p.failures,
        isActive := p.isActive, crawlCount := rows[p.tag].crawlCount + 1,
        lastCrawledAt := Some(now), leasedUntil := None)]
    else rows
  }

  const DISCOVERY_PRIORITY := 5

  function Enqueued(rows: Table, t: Tag, now: Time): Table {
    if t in rows then rows
    else rows[t := Row(DISCOVERY_PRIORITY, now, None, None, 0, 0, true, 0, None, None, None)]
  }

  /** The rows after enqueuing tags one after the other. */
  function EnqueuedAll(rows: Table, ts: seq<Tag>, now: Time): Table
    decreases |ts|
  {
    if ts == [] then rows else Enqueued(EnqueuedAll(rows, ts[..|ts| - 1], now), ts[|ts| - 1], now)
  }

  lemma {:induction false} EnqueuedConcat(rows: Table, a: seq<Tag>, b: seq<Tag>, now: Time)
    ensures EnqueuedAll(rows, a + b, now) == EnqueuedAll(EnqueuedAll(rows, a, now), b, now)
    decreases |b|
  {
    if b == [] {
      assert a + b == a;
    } else {
      assert (a + b)[..|a + b| - 1] == a + b[..|b| - 1];
      EnqueuedConcat(rows, a, b[..|b| - 1], now);
    }
  }

  function InBucket(rows: Table, b: int): set<Tag> {
    set t | t in rows && rows[t].bucket == Some(b)
  }

  function ActiveTargets(rows: Table): set<Tag> {
    set t | t in rows && rows[t].isActive
  }

  function Active(rows: Table, b: int): set<Tag> {
    set t | t in rows && rows[t].bucket == Some(b) && rows[t].isActive
  }

  /** Who may be evicted in favour of t: active in the bucket, not t, and under no live lease. */
  function Evictable(rows: Table, b: int, t: Tag, now: Time): set<Tag> {
    set u | u in Active(rows, b) - {t} && LeaseOver(rows[u], now)
  }

  function Classified(rows: Table, t: Tag, b: int, priority: int, trophies: int): Table {
    if t in rows && rows[t].bucket.None?
    then rows[t := rows[t].(bucket := Some(b), priority := priority, trophies := Some(trophies))]
    else rows
  }

  function Profiled(rows: Table, t: Tag, priority: int, trophies: int): Table {
    if t in rows then rows[t := rows[t].(priority := priority, trophies := Some(trophies))] else rows
  }

  function Evicted(rows: Table, victim: Option<Tag>): Table {
    if victim.Some? && victim.value in rows
    then rows[victim.value := rows[victim.value].(isActive := false, lastStatus := Some(SampledOut))]
    else rows
  }

  datatype Verdict = Keep | KeepEvicting | Reject

  /** The reservoir decision on the table as classified, for the random number u in [0, 1). */
  function Decide(rows: Table, t: Tag, b: int, cap: int, u: real): Verdict {
    var seen := |InBucket(rows, b)|;
    if cap <= 0 || seen <= cap then Keep
    else if u < cap as real / seen as real then
      if |Active(rows, b) - {t}| >= cap then KeepEvicting else Keep
    else Reject
  }

  /** The rows the victim subquery may return for a verdict: nobody, or any evictable row. */
  predicate LegalVictim(rows: Table, t: Tag, b: int, now: Time, verdict: Verdict, victim: Option<Tag>) {
    if verdict.KeepEvicting? && Evictable(rows, b, t, now) != {}
    then victim.Some? && victim.value in Evictable(rows, b, t, now)
    else victim.None?
  }

  /** The WHERE clause of the claim, in columns. */
  predicate Free(r: Row, now: Time) {
    && r.isActive && !(r.nextCrawlAt > now)
    && (r.leasedUntil.Some? ==> !(r.leasedUntil.value >= now))
  }

  // -------------------------------------------------------------------------- the table object

  class CrawlTargets {
    var rows: Table

    constructor ()
      ensures rows == map[]
    {
      rows := map[];
    }

    /** Claims the first claimable row that no other transaction has locked (SKIP LOCKED). */
    method ClaimNextTarget(now: Time, locked: set<Tag>) returns (claim: Option<Claim>)
      modifies this
      ensures claim.None? <==> ClaimableTags(old(rows), now) <= locked
      ensures claim.None? ==> rows == old(rows)
      ensures claim.Some? ==>
                var t := claim.value.tag;
                && t in ClaimableTags(old(rows), now) - locked
                && (forall u :: u in ClaimableTags(old(rows), now) - locked ==>
                      NotAfter(old(rows)[t], old(rows)[u]))
                && claim.value == ClaimOf(old(rows), t, now)
                && rows == Leased(old(rows), t, now)
      ensures claim.None? <==> forall u :: u in old(rows) && Free(old(rows)[u], now) ==> u in locked
      ensures claim.Some? ==>
                var t := claim.value.tag;
                && t in old(rows) && t !in locked && Free(old(rows)[t], now)
                && (forall u :: u in old(rows) && u !in locked && Free(old(rows)[u], now) ==>
                      && old(rows)[t].priority <= old(rows)[u].priority
                      && (old(rows)[t].priority == old(rows)[u].priority ==>
                            old(rows)[t].nextCrawlAt <= old(rows)[u].nextCrawlAt))
                && var r := old(rows)[t];
                && claim.value.generation == r.generation + 1 && claim.value.priority == r.priority
                && claim.value.failures == r.failures && (claim.value.isClassified <==> r.bucket.Some?)
                && claim.value.issuedAt == now
                && rows == old(rows)[t := r.(generation := r.generation + 1, leasedUntil := Some(now + 600_000_000_000))]
    {
      var candidates := ClaimableTags(rows, now) - locked;
      if candidates == {} {
        assert forall v :: v in ClaimableTags(rows, now) && v !in locked ==> v in candidates;
        return None;
      }
      FirstExists(rows, candidates);
      var t :| t in candidates && forall u :: u in candidates ==> NotAfter(rows[t], rows[u]);
      claim := Some(ClaimOf(rows, t, now));
      rows := Leased(rows, t, now);
    }

    method FinalizeCrawl(p: FinalizeParams, now: Time) returns (ok: bool)
      modifies this
      ensures rows == Finalized(old(rows), p, now)
      ensures ok <==> p.tag in old(rows) && old(rows)[p.tag].generation == p.generation
      ensures !ok ==> rows == old(rows)
      ensures ok ==>
                var r := old(rows)[p.tag];
                rows == old(rows)[p.tag := Row(r.priority, p.nextCrawlAt, Some(now), Some(p.status), p.failures,
                                               r.crawlCount + 1, p.isActive, r.generation, None, r.bucket, r.trophies)]
    {
      ok := p.tag in rows && rows[p.tag].generation == p.generation;
      if ok {
        var row := rows[p.tag];
        rows := rows[p.tag := row.(
          lastStatus := Some(p.status), nextCrawlAt := p.nextCrawlAt, failures := p.failures,
          isActive := p.isActive, crawlCount := row.crawlCount + 1,
          lastCrawledAt := Some(now), leasedUntil := None)];
      }
    }

    /** The pre-ingestion check.  A missing row is an error, reported as None. */
    method OwnershipValid(t: Tag, generation: nat, now: Time) returns (owned: Option<bool>)
      ensures owned.None? <==> t !in rows
      ensures owned == Some(true) <==> OwnsLease(rows, t, generation, now)
      ensures owned == Some(true) <==> && t in rows && rows[t].generation == generation
                                       && rows[t].leasedUntil.Some? && now <= rows[t].leasedUntil.value
    {
      if t !in rows {
        return None;
      }
      if rows[t].generation != generation {
        return Some(false);
      }
      if rows[t].leasedUntil.None? || rows[t].leasedUntil.value < now {
        return Some(false);
      }
      return Some(true);
    }

    method ActiveTargetCount() returns (n: nat)
      ensures n == |ActiveTargets(rows)|
      ensures n == |set t | t in rows.Keys && rows[t].isActive|
    {
      n := |set t | t in rows && rows[t].isActive|;
    }

    method EnqueueDiscoveredPlayer(t: Tag, now: Time) returns (inserted: bool)
      modifies this
      ensures rows == Enqueued(old(rows), t, now)
      ensures inserted <==> t !in old(rows)
      ensures !inserted ==> rows == old(rows)
      ensures inserted ==> rows == old(rows)[t := Row(5, now, None, None, 0, 0, true, 0, None, None, None)]
    {
      inserted := t !in rows;
      if inserted {
        rows := rows[t := Row(5, now, None, None, 0, 0, true, 0, None, None, None)];
      }
    }

    /** Classifies t into its trophy bucket, then keeps it, keeps it and evicts a random idle
        member, or rejects it. */
    method ClassifyAndSampleTarget(t: Tag, b: int, priority: int, trophies: int, cap: int, u: real, now: Time)
      returns (sampledOut: bool, victim: Option<Tag>)
      modifies this
      ensures var classified := Classified(old(rows), t, b, priority, trophies);
              var verdict := Decide(classified, t, b, cap, u);
              && LegalVictim(classified, t, b, now, verdict, victim)
              && rows == Evicted(classified, victim)
              && (sampledOut <==> verdict.Reject?)
    {
      hide InBucket, LeaseOver;
      victim := None;
      if t in rows && rows[t].bucket.None? {
        rows := rows[t := rows[t].(bucket := Some(b), priority := priority, trophies := Some(trophies))];
      }
      var seen := |InBucket(rows, b)|;
      if cap <= 0 || seen <= cap {
        return false, None;
      }
      if u < cap as real / seen as real {
        var activeOthers := |Active(rows, b) - {t}|;
        if activeOthers >= cap {
          var idle := Evictable(rows, b, t, now);
          if idle != {} {
            var pick :| pick in idle;
            rows := rows[pick := rows[pick].(isActive := false, lastStatus := Some(SampledOut))];
            victim := Some(pick);
          }
        }
        return false, victim;
      }
      return true, None;
    }

    method UpdateCrawlProfile(t: Tag, priority: int, trophies: int)
      modifies this
      ensures rows == Profiled(old(rows), t, priority, trophies)
      ensures rows.Keys == old(rows).Keys
      ensures forall o :: o in rows && o != t ==> rows[o] == old(rows)[o]
      ensures t in rows ==> rows[t] == old(rows)[t].(priority := priority, trophies := Some(trophies))
    {
      if t in rows {
        rows := rows[t := rows[t].(priority := priority, trophies := Some(trophies))];
      }
    }
  }

  /** What ClassifyAndSampleTarget may do, in columns.  Without a positive cap, or while the bucket has at
      most cap players, nobody is turned over.  Otherwise t is kept when the draw is below cap / seen, and
      then an idle active member goes if there are cap other active ones; and else t is rejected. */
  lemma SamplingColumns(rows: Table, t: Tag, b: int, priority: int, trophies: int, cap: int, u: real, now: Time,
                        victim: Option<Tag>)
    requires var classified := Classified(rows, t, b, priority, trophies);
             LegalVictim(classified, t, b, now, Decide(classified, t, b, cap, u), victim)
    ensures var classified := Classified(rows, t, b, priority, trophies);
            var after, rejected := Evicted(classified, victim), Decide(classified, t, b, cap, u).Reject?;
            var first := t in rows && rows[t].bucket.None?;
            var seen := |set o | o in rows && (rows[o].bucket == Some(b) || (first && o == t))|;
            var others := set o | o in rows && o != t && rows[o].bucket == Some(b) && rows[o].isActive;
            var full := cap > 0 && seen > cap;
            var kept := full && u < cap as real / seen as real;
            && (rejected <==> full && !kept)
            && (victim.Some? ==> kept && |others| >= cap && victim.value in others
                                 && (rows[victim.value].leasedUntil.Some? ==> rows[victim.value].leasedUntil.value < now))
            && (victim.None? && kept && |others| >= cap ==>
                  forall o :: o in others ==> rows[o].leasedUntil.Some? && rows[o].leasedUntil.value >= now)
            && after.Keys == rows.Keys
            && forall o :: o in rows ==>
                 after[o] == if victim == Some(o) then rows[o].(isActive := false, lastStatus := Some(SampledOut))
                             else if o == t && first
                             then rows[o].(bucket := Some(b), priority := priority, trophies := Some(trophies))
                             else rows[o]
  {
    hide InBucket, Active;
    var classified := Classified(rows, t, b, priority, trophies);
    SeenAndOthers(rows, t, b, priority, trophies);
    var idle := Evictable(classified, b, t, now);
    forall o | o in Active(classified, b) - {t}
      ensures o in idle <==> (rows[o].leasedUntil.Some? ==> rows[o].leasedUntil.value < now) {}
  }

  lemma SeenAndOthers(rows: Table, t: Tag, b: int, priority: int, trophies: int)
    ensures var classified, first := Classified(rows, t, b, priority, trophies), t in rows && rows[t].bucket.None?;
            && InBucket(classified, b) == (set o | o in rows && (rows[o].bucket == Some(b) || (first && o == t)))
            && Active(classified, b) - {t} == (set o | o in rows && o != t && rows[o].bucket == Some(b) && rows[o].isActive)
  {}

  lemma {:induction false} FirstExists(rows: Table, candidates: set<Tag>)
    requires candidates != {} && candidates <= rows.Keys
    ensures exists t :: t in candidates && forall u :: u in candidates ==> NotAfter(rows[t], rows[u])
    decreases |candidates|
  {
    var x := Pick(candidates);
    var rest := candidates - {x};
    assert forall u :: u in candidates ==> u == x || u in rest;
    if rest == {} {
      assert x in candidates && forall u :: u in candidates ==> NotAfter(rows[x], rows[u]);
    } else {
      FirstExists(rows, rest);
      var t :| t in rest && forall u :: u in rest ==> NotAfter(rows[t], rows[u]);
      var first := if NotAfter(rows[x], rows[t]) then x else t;
      assert first in candidates && forall u :: u in candidates ==> NotAfter(rows[first], rows[u]);
    }
  }

  // ------------------------------------------------------------------------------ drain order

  /** A drain: `tables[i + 1]` results from claiming `picks[i]` out of `tables[i]`, each time a
      first claimable row, while the clock stands still and nobody finalizes. */
  ghost predicate Drain(tables: seq<Table>, picks: seq<Tag>, now: Time) {
    && |tables| == |picks| + 1
    && forall i :: 0 <= i < |picks| ==> DrainStep(tables[i], picks[i], tables[i + 1], now)
  }

  ghost predicate DrainStep(before: Table, t: Tag, after: Table, now: Time) {
    && t in ClaimableTags(before, now)
    && (forall u :: u in ClaimableTags(before, now) ==> NotAfter(before[t], before[u]))
    && after == Leased(before, t, now)
  }

  /** One claim removes exactly its own row from the claimable set. */
  lemma ClaimRemovesOne(before: Table, t: Tag, after: Table, now: Time)
    requires DrainStep(before, t, after, now)
    ensures t in ClaimableTags(before, now) && ClaimableTags(after, now) == ClaimableTags(before, now) - {t}
    ensures forall u :: u in ClaimableTags(after, now) ==> after[u] == before[u]
  {}

  function Picked(picks: seq<Tag>, i: nat, j: nat): set<Tag>
    requires i <= j <= |picks|
  {
    set k | i <= k < j :: picks[k]
  }

  /** Between two points of a drain exactly the rows picked in between stop being claimable, each
      for its own claim, and the rows still claimable are untouched. */
  lemma {:induction false} DrainBetween(tables: seq<Table>, picks: seq<Tag>, now: Time, i: nat, j: nat)
    requires Drain(tables, picks, now) && i <= j <= |picks|
    ensures ClaimableTags(tables[j], now) == ClaimableTags(tables[i], now) - Picked(picks, i, j)
    ensures |ClaimableTags(tables[j], now)| == |ClaimableTags(tables[i], now)| - (j - i)
    ensures forall t :: t in ClaimableTags(tables[j], now) ==> tables[j][t] == tables[i][t]
    decreases j
  {
    hide ClaimableTags, DrainStep;
    if i == j {
      assert Picked(picks, i, j) == {};
    } else {
      DrainBetween(tables, picks, now, i, j - 1);
      assert DrainStep(tables[j - 1], picks[j - 1], tables[j], now);
      ClaimRemovesOne(tables[j - 1], picks[j - 1], tables[j], now);
      assert Picked(picks, i, j) == Picked(picks, i, j - 1) + {picks[j - 1]};
    }
  }

  /** Draining the queue returns claimable rows without repetition, in order of (priority,
      next_crawl_at) as they stood at the start; every claim lowers the depth by one; and the
      queue is empty exactly when every row eligible at the start has been returned. */
  lemma DrainOrder(tables: seq<Table>, picks: seq<Tag>, now: Time)
    requires Drain(tables, picks, now)
    ensures forall i :: 0 <= i < |picks| ==>
              |ClaimableTags(tables[i + 1], now)| == |ClaimableTags(tables[i], now)| - 1
    ensures forall i :: 0 <= i < |picks| ==> picks[i] in tables[0] && picks[i] in ClaimableTags(tables[0], now)
    ensures forall i, j :: 0 <= i < j < |picks| ==>
              picks[i] != picks[j] && NotAfter(tables[0][picks[i]], tables[0][picks[j]])
    ensures forall i, j :: 0 <= i < j < |picks| ==>
              && tables[0][picks[i]].priority <= tables[0][picks[j]].priority
              && (tables[0][picks[i]].priority == tables[0][picks[j]].priority ==>
                    tables[0][picks[i]].nextCrawlAt <= tables[0][picks[j]].nextCrawlAt)
    ensures ClaimableTags(tables[|picks|], now) == {} <==>
            Picked(picks, 0, |picks|) == ClaimableTags(tables[0], now)
    ensures ClaimableTags(tables[|picks|], now) == {} <==>
            forall t :: t in tables[0] && Free(tables[0][t], now) ==> t in picks
  {
    forall i | 0 <= i < |picks|
      ensures |ClaimableTags(tables[i + 1], now)| == |ClaimableTags(tables[i], now)| - 1
      ensures picks[i] in ClaimableTags(tables[0], now)
    {
      DrainBetween(tables, picks, now, i, i + 1);
      DrainBetween(tables, picks, now, 0, i);
      assert DrainStep(tables[i], picks[i], tables[i + 1], now);
    }
    forall i, j | 0 <= i < j < |picks|
      ensures picks[i] != picks[j] && NotAfter(tables[0][picks[i]], tables[0][picks[j]])
    {
      DrainBetween(tables, picks, now, 0, i);
      DrainBetween(tables, picks, now, i, j);
      assert DrainStep(tables[i], picks[i], tables[i + 1], now);
      assert DrainStep(tables[j], picks[j], tables[j + 1], now);
      assert picks[i] in Picked(picks, i, j);
    }
    DrainBetween(tables, picks, now, 0, |picks|);
    assert forall t :: t in Picked(picks, 0, |picks|) ==> t in ClaimableTags(tables[0], now);
    assert forall t :: t in ClaimableTags(tables[0], now) <==> t in tables[0] && Free(tables[0][t], now);
    assert forall t :: t in Picked(picks, 0, |picks|) <==> t in picks;
  }

  /** The queue depth is the number of claims it takes to drain the queue: no drain is longer, and a
      drain leaves nothing to claim exactly when it is that long. */
  lemma DepthCountsClaims(tables: seq<Table>, picks: seq<Tag>, now: Time)
    requires Drain(tables, picks, now)
    ensures ClaimableTags(tables[0], now) == set t | t in tables[0] && Free(tables[0][t], now)
    ensures |picks| <= |ClaimableTags(tables[0], now)|
    ensures ClaimableTags(tables[|picks|], now) == {} <==> |picks| == |ClaimableTags(tables[0], now)|
  {
    DrainBetween(tables, picks, now, 0, |picks|);
  }
}
