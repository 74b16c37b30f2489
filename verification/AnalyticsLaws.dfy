/** What the two analytics queries owe their readers: totals are conserved, the queries agree with
    each other, and rounding stays faithful. */
module AnalyticsLaws {
  import opened Collections
  import opened Ingestion
  import opened Analytics

  // ------------------------------------------------------------------------- foreign keys hold

  /** Every foreign key among the tables is honoured. */
  ghost predicate Sound(t: Tables) {
    && (forall k :: k in t.teams ==> k.0 in t.battles)
    && (forall k :: k in t.participants ==> References(t, k.0, t.participants[k]))
  }

  lemma StepSound(t: Tables, w: Write)
    requires Sound(t) && Apply(t, w).Some?
    ensures Sound(Apply(t, w).value)
  {
    var t' := Apply(t, w).value;
    forall k | k in t'.participants ensures References(t', k.0, t'.participants[k]) {
      if k in t.participants {
        assert References(t, k.0, t.participants[k]);
      }
    }
  }

  lemma {:induction false} RunSound(t: Tables, ws: seq<Write>)
    requires Sound(t)
    ensures Sound(ApplyAll(t, ws).tables)
    decreases |ws|
  {
    hide Apply, Sound;
    if ws != [] && Apply(t, ws[0]).Some? {
      StepSound(t, ws[0]);
      RunSound(Apply(t, ws[0]).value, ws[1..]);
    }
  }

  // ------------------------------------------------------------------------------ counting by parts

  /** The rows of the listed brawlers, counted brawler by brawler. */
  function CountAll(t: Tables, rows: set<RowKey>, gs: seq<Group>): nat {
    if gs == [] then 0 else |OfBrawler(t, rows, gs[0].id)| + CountAll(t, rows, gs[1..])
  }

  lemma {:induction false} CountsAdd(t: Tables, rows: set<RowKey>, gs: seq<Group>)
    requires forall i, j :: 0 <= i < j < |gs| ==> gs[i].id != gs[j].id
    requires forall k :: k in rows ==> k in t.participants && exists i :: 0 <= i < |gs| && t.participants[k].brawlerId == Some(gs[i].id)
    ensures CountAll(t, rows, gs) == |rows|
    decreases |gs|
  {
    if gs == [] {
      assert rows == {};
    } else {
      var mine := OfBrawler(t, rows, gs[0].id);
      var others := rows - mine;
      forall k | k in others ensures exists i :: 0 <= i < |gs[1..]| && t.participants[k].brawlerId == Some(gs[1..][i].id) {
        var i :| 0 <= i < |gs| && t.participants[k].brawlerId == Some(gs[i].id);
        assert gs[1..][i - 1] == gs[i];
      }
      CountsAdd(t, others, gs[1..]);
      CountsSame(t, rows, others, gs[1..]);
    }
  }

  /** Rows of brawlers that are not listed do not matter. */
  lemma {:induction false} CountsSame(t: Tables, rows: set<RowKey>, others: set<RowKey>, gs: seq<Group>)
    requires others <= rows
    requires forall k, i :: k in rows - others && 0 <= i < |gs| && k in t.participants ==>
      t.participants[k].brawlerId != Some(gs[i].id)
    ensures CountAll(t, rows, gs) == CountAll(t, others, gs)
    decreases |gs|
  {
    if gs != [] {
      forall k, i | k in rows - others && 0 <= i < |gs[1..]| && k in t.participants
        ensures t.participants[k].brawlerId != Some(gs[1..][i].id)
      {
        assert gs[1..][i] == gs[i + 1];
      }
      CountsSame(t, rows, others, gs[1..]);
      assert OfBrawler(t, rows, gs[0].id) == OfBrawler(t, others, gs[0].id);
    }
  }

  function SumWins(rs: seq<Rate>): nat {
    if rs == [] then 0 else rs[0].wins + SumWins(rs[1..])
  }

  function SumLosses(rs: seq<Rate>): nat {
    if rs == [] then 0 else rs[0].losses + SumLosses(rs[1..])
  }

  function SumSlots(rs: seq<Rate>): nat {
    if rs == [] then 0 else rs[0].slots + SumSlots(rs[1..])
  }

  function SumPickRates(rs: seq<Rate>): nat
    requires forall i :: 0 <= i < |rs| ==> rs[i].pickRate.Some?
  {
    if rs == [] then 0 else rs[0].pickRate.value + SumPickRates(rs[1..])
  }

  /** A brawler's slots are his victories, defeats and draws. */
  lemma SlotsSplit(t: Tables, q: Query, id: int)
    requires id in t.brawlers
    ensures var g, rows := GroupOf(t, q, id), OfBrawler(t, Slots(t, q), id);
            g.wins + g.losses + g.draws == |rows|
  {
    var rows := OfBrawler(t, Slots(t, q), id);
    var v, l, d := Scoring(t, rows, "victory"), Scoring(t, rows, "defeat"), Scoring(t, rows, "draw");
    assert rows == v + l + d by {
      forall k | k in rows ensures k in v + l + d {
        assert IsSlot(t, q, k);
      }
    }
    assert v !! l && (v + l) !! d;
    assert |v + l| == |v| + |l| && |v + l + d| == |v + l| + |d|;
  }

  lemma {:induction false} SumsAreCounts(t: Tables, q: Query, gs: seq<Group>, rs: seq<Rate>)
    requires forall i :: 0 <= i < |gs| ==> gs[i].id in t.brawlers && gs[i] == GroupOf(t, q, gs[i].id)
    requires RatesOf(t, q, gs, rs)
    ensures SumWins(rs) == CountAll(t, Scoring(t, Slots(t, q), "victory"), gs)
    ensures SumLosses(rs) == CountAll(t, Scoring(t, Slots(t, q), "defeat"), gs)
    ensures SumSlots(rs) == CountAll(t, Slots(t, q), gs)
    decreases |gs|
  {
    if gs != [] {
      var all, id := Slots(t, q), gs[0].id;
      hide Slots;
      SumsAreCounts(t, q, gs[1..], rs[1..]);
      SlotsSplit(t, q, id);
      assert Scoring(t, OfBrawler(t, all, id), "victory") == OfBrawler(t, Scoring(t, all, "victory"), id);
      assert Scoring(t, OfBrawler(t, all, id), "defeat") == OfBrawler(t, Scoring(t, all, "defeat"), id);
    }
  }

  /** Without a threshold every eligible row belongs to exactly one listed brawler. */
  lemma EveryRowListed(t: Tables, q: Query, gs: seq<Group>, k: RowKey)
    requires Sound(t) && q.minBattles <= 1 && IsAnswer(t, q, gs) && k in Slots(t, q)
    ensures exists i :: 0 <= i < |gs| && t.participants[k].brawlerId == Some(gs[i].id)
  {
    assert References(t, k.0, t.participants[k]);
    var id := t.participants[k].brawlerId.value;
    var rows := OfBrawler(t, Slots(t, q), id);
    assert k in rows && k.0 in BattlesOf(rows);
    assert |BattlesOf(rows)| >= 1;
    assert id in Qualified(t, q);
    var i :| 0 <= i < |gs| && gs[i].id == id;
  }

  /** Totals are conserved: the brawlers' slots add up to TotalSlots, and so do wins and losses to
      the winning and the losing rows. */
  lemma TotalsConserved(t: Tables, q: Query, gs: seq<Group>, rs: seq<Rate>)
    requires Sound(t) && q.minBattles <= 1 && IsAnswer(t, q, gs) && RatesOf(t, q, gs, rs)
    ensures SumSlots(rs) == |Slots(t, q)|
    ensures SumWins(rs) == |Scoring(t, Slots(t, q), "victory")|
    ensures SumLosses(rs) == |Scoring(t, Slots(t, q), "defeat")|
  {
    SumsAreCounts(t, q, gs, rs);
    forall k | k in Slots(t, q) ensures exists i :: 0 <= i < |gs| && t.participants[k].brawlerId == Some(gs[i].id) {
      EveryRowListed(t, q, gs, k);
    }
    var slots := Slots(t, q);
    assert forall k :: k in slots ==> k in t.participants;
    hide Slots, IsAnswer, Sound, RatesOf;
    CountsAdd(t, slots, gs);
    CountsAdd(t, Scoring(t, slots, "victory"), gs);
    CountsAdd(t, Scoring(t, slots, "defeat"), gs);
  }

  // ------------------------------------------------------------------------------------- slices

  lemma QueueOfSlot(t: Tables, q: Query, k: RowKey)
    requires q.battleType == "competitive"
    ensures IsSlot(t, q, k) <==> IsSlot(t, q.(battleType := "ranked"), k) || IsSlot(t, q.(battleType := "soloRanked"), k)
    ensures !(IsSlot(t, q.(battleType := "ranked"), k) && IsSlot(t, q.(battleType := "soloRanked"), k))
  {}

  lemma TwoParts(rows: set<RowKey>, a: set<RowKey>, b: set<RowKey>)
    requires forall k :: (k in rows <==> k in a || k in b) && !(k in a && k in b)
    ensures |rows| == |a| + |b|
  {
    assert rows == a + b && a !! b;
  }

  /** The two ranked queues make up the competitive slots without overlap, whatever the other filters. */
  lemma QueuesAddUp(t: Tables, q: Query)
    requires q.battleType == "competitive"
    ensures |Slots(t, q)| == |Slots(t, q.(battleType := "ranked"))| + |Slots(t, q.(battleType := "soloRanked"))|
  {
    hide IsSlot;
    var ranked, solo := Slots(t, q.(battleType := "ranked")), Slots(t, q.(battleType := "soloRanked"));
    forall k ensures (k in Slots(t, q) <==> k in ranked || k in solo) && !(k in ranked && k in solo) {
      QueueOfSlot(t, q, k);
    }
    TwoParts(Slots(t, q), ranked, solo);
  }

  /** The rows of one part. */
  function Part<K(==)>(rows: set<RowKey>, of: RowKey -> K, k: K): set<RowKey> {
    set r | r in rows && of(r) == k
  }

  function SumParts<K(==)>(rows: set<RowKey>, of: RowKey -> K, ks: seq<K>): nat {
    if ks == [] then 0 else |Part(rows, of, ks[0])| + SumParts(rows, of, ks[1..])
  }

  lemma {:induction false} PartsAddUp<K>(rows: set<RowKey>, of: RowKey -> K, ks: seq<K>)
    requires forall i, j :: 0 <= i < j < |ks| ==> ks[i] != ks[j]
    requires forall r :: r in rows ==> of(r) in ks
    ensures |rows| == SumParts(rows, of, ks)
    decreases |ks|
  {
    if ks == [] {
      assert rows == {};
    } else {
      var part := Part(rows, of, ks[0]);
      var rest := rows - part;
      PartsAddUp(rest, of, ks[1..]);
      SamePart(rows, rest, of, ks[0], ks[1..]);
      assert rows == part + rest;
    }
  }

  lemma {:induction false} SamePart<K>(rows: set<RowKey>, rest: set<RowKey>, of: RowKey -> K, k: K, ks: seq<K>)
    requires k !in ks && rest == rows - Part(rows, of, k)
    ensures SumParts(rest, of, ks) == SumParts(rows, of, ks)
    decreases |ks|
  {
    if ks != [] {
      assert Part(rest, of, ks[0]) == Part(rows, of, ks[0]);
      SamePart(rows, rest, of, k, ks[1..]);
    }
  }

  /** The trophy buckets of a query, one after the other. */
  function SumBuckets(t: Tables, q: Query, bs: seq<int>): nat {
    if bs == [] then 0 else |Slots(t, q.(bucket := Some(bs[0])))| + SumBuckets(t, q, bs[1..])
  }

  function SumMaps(t: Tables, q: Query, ms: seq<string>): nat {
    if ms == [] then 0 else |Slots(t, q.(mapName := Some(ms[0])))| + SumMaps(t, q, ms[1..])
  }

  function BucketOf(t: Tables, k: RowKey): Option<int> {
    if k in t.participants then t.participants[k].bucket else None
  }

  function MapOf(t: Tables, k: RowKey): string {
    if k.0 in t.battles then t.battles[k.0].mapName else ""
  }

  function Somes(bs: seq<int>): seq<Option<int>> {
    seq(|bs|, i requires 0 <= i < |bs| => Some(bs[i]))
  }

  lemma {:induction false} BucketParts(t: Tables, q: Query, bs: seq<int>)
    requires q.bucket.None?
    ensures SumParts(Slots(t, q), k => BucketOf(t, k), Somes(bs)) == SumBuckets(t, q, bs)
    decreases |bs|
  {
    if bs != [] {
      assert Somes(bs)[0] == Some(bs[0]) && Somes(bs)[1..] == Somes(bs[1..]);
      assert Part(Slots(t, q), k => BucketOf(t, k), Some(bs[0])) == Slots(t, q.(bucket := Some(bs[0])));
      BucketParts(t, q, bs[1..]);
    }
  }

  lemma {:induction false} MapParts(t: Tables, q: Query, ms: seq<string>)
    requires q.mapName.None?
    ensures SumParts(Slots(t, q), k => MapOf(t, k), ms) == SumMaps(t, q, ms)
    decreases |ms|
  {
    if ms != [] {
      assert Part(Slots(t, q), k => MapOf(t, k), ms[0]) == Slots(t, q.(mapName := Some(ms[0])));
      MapParts(t, q, ms[1..]);
    }
  }

  /** Bucket by bucket the slots add up, and what is missing are the rows without a bucket. */
  lemma BucketsAddUp(t: Tables, q: Query, bs: seq<int>)
    requires q.bucket.None? && forall i, j :: 0 <= i < j < |bs| ==> bs[i] != bs[j]
    requires forall k :: k in Slots(t, q) ==> BucketOf(t, k).None? || BucketOf(t, k).value in bs
    ensures |Slots(t, q)| == SumBuckets(t, q, bs) + |set k | k in Slots(t, q) && BucketOf(t, k).None?|
  {
    hide Slots, BucketOf, Somes;
    var rows := Slots(t, q);
    var of: RowKey -> Option<int> := k => BucketOf(t, k);
    var ks := [None] + Somes(bs);
    SomesHave(bs);
    SomesDiffer(bs);
    assert ks[0] == None && ks[1..] == Somes(bs);
    forall r | r in rows ensures of(r) in ks {
      assert of(r) == BucketOf(t, r);
      if of(r).Some? {
        assert BucketOf(t, r).value in bs;
        assert Some(BucketOf(t, r).value) in Somes(bs);
      }
    }
    PartsAddUp(rows, of, ks);
    BucketParts(t, q, bs);
    assert Part(rows, of, None) == set k | k in rows && BucketOf(t, k).None?;
  }

  lemma SomesHave(bs: seq<int>)
    ensures forall b :: b in bs ==> Some(b) in Somes(bs)
    ensures None !in Somes(bs)
  {
    forall b | b in bs ensures Some(b) in Somes(bs) {
      var i :| 0 <= i < |bs| && bs[i] == b;
      assert Somes(bs)[i] == Some(b);
    }
  }

  lemma SomesDiffer(bs: seq<int>)
    requires forall i, j :: 0 <= i < j < |bs| ==> bs[i] != bs[j]
    ensures forall i, j :: 0 <= i < j < |Somes(bs)| ==> Somes(bs)[i] != Somes(bs)[j]
  {}

  /** Map by map they add up, without remainder. */
  lemma MapsAddUp(t: Tables, q: Query, ms: seq<string>)
    requires q.mapName.None? && forall i, j :: 0 <= i < j < |ms| ==> ms[i] != ms[j]
    requires forall k :: k in Slots(t, q) ==> t.battles[k.0].mapName in ms
    ensures |Slots(t, q)| == SumMaps(t, q, ms)
  {
    var of: RowKey -> string := k => MapOf(t, k);
    PartsAddUp(Slots(t, q), of, ms);
    MapParts(t, q, ms);
  }

  // ---------------------------------------------------------------------------------- zero sum

  /** A team's stored rows. */
  function Side(t: Tables, fp: string, i: nat): set<RowKey> {
    set k | k in t.participants && k.0 == fp && t.participants[k].team == Some(i)
  }

  /** A battle of two equally large teams with opposite results, every participant attributed. */
  ghost predicate TwoSided(t: Tables, fp: string) {
    && (fp, 0) in t.teams && (fp, 1) in t.teams
    && t.teams[(fp, 1)] == OppositeResult(t.teams[(fp, 0)])
    && |Side(t, fp, 0)| == |Side(t, fp, 1)|
    && forall k :: k in t.participants && k.0 == fp ==>
         t.participants[k].brawlerId.Some? && (t.participants[k].team == Some(0) || t.participants[k].team == Some(1))
  }

  /** A battle of which no participant was on a team: it gives no slots. */
  ghost predicate Teamless(t: Tables, fp: string) {
    forall k :: k in t.participants && k.0 == fp ==> t.participants[k].team.None?
  }

  function InBattle(rows: set<RowKey>, fp: string): set<RowKey> {
    set k | k in rows && k.0 == fp
  }

  lemma {:induction false} EqualByBattle(a: set<RowKey>, b: set<RowKey>, fps: set<string>)
    requires forall k :: k in a || k in b ==> k.0 in fps
    requires forall fp :: fp in fps ==> |InBattle(a, fp)| == |InBattle(b, fp)|
    ensures |a| == |b|
    decreases |fps|
  {
    if fps == {} {
      assert a == {} && b == {};
    } else {
      var fp := Pick(fps);
      var a', b' := a - InBattle(a, fp), b - InBattle(b, fp);
      forall f | f in fps - {fp} ensures |InBattle(a', f)| == |InBattle(b', f)| {
        assert InBattle(a', f) == InBattle(a, f) && InBattle(b', f) == InBattle(b, f);
      }
      EqualByBattle(a', b', fps - {fp});
    }
  }

  lemma BattleIsFair(t: Tables, q: Query, fp: string)
    requires (TwoSided(t, fp) || Teamless(t, fp)) && q.bucket.None?
    ensures |InBattle(Scoring(t, Slots(t, q), "victory"), fp)| == |InBattle(Scoring(t, Slots(t, q), "defeat"), fp)|
  {
    var won, lost := InBattle(Scoring(t, Slots(t, q), "victory"), fp), InBattle(Scoring(t, Slots(t, q), "defeat"), fp);
    if !BattleMatches(t, q, fp) || Teamless(t, fp) {
      assert won == {} && lost == {};
    } else {
      var r := t.teams[(fp, 0)];
      hide BattleMatches;
      if r == "victory" {
        assert won == Side(t, fp, 0) && lost == Side(t, fp, 1);
      } else if r == "defeat" {
        assert won == Side(t, fp, 1) && lost == Side(t, fp, 0);
      } else {
        assert won == {} && lost == {};
      }
    }
  }

  /** For any mode, map and type filter, over all brawlers as many wins are reported as losses. */
  lemma ZeroSum(t: Tables, q: Query, gs: seq<Group>, rs: seq<Rate>)
    requires Sound(t) && forall fp :: fp in t.battles ==> TwoSided(t, fp) || Teamless(t, fp)
    requires q.minBattles <= 1 && q.bucket.None? && IsAnswer(t, q, gs) && RatesOf(t, q, gs, rs)
    ensures SumWins(rs) == SumLosses(rs) && SumSlots(rs) == |Slots(t, q)|
  {
    TotalsConserved(t, q, gs, rs);
    forall fp | fp in t.battles.Keys
      ensures |InBattle(Scoring(t, Slots(t, q), "victory"), fp)| == |InBattle(Scoring(t, Slots(t, q), "defeat"), fp)|
    {
      BattleIsFair(t, q, fp);
    }
    EqualByBattle(Scoring(t, Slots(t, q), "victory"), Scoring(t, Slots(t, q), "defeat"), t.battles.Keys);
  }

  // ------------------------------------------------------------------------- the queries agree

  /** For a map that MapList returns, its qualifying brawlers are as many as BrawlerWinRates lists for
      that map from ten battles on; its battles are at least the sample battles, and exactly these
      when every scored battle has an attributed participant on a scored team. */
  lemma QueriesAgree(t: Tables, mode: string, battleType: string, es: seq<MapEntry>, i: nat, gs: seq<Group>)
    requires Sound(t) && IsMapAnswer(t, mode, battleType, es) && i < |es|
    requires IsAnswer(t, OnMap(mode, battleType, es[i].mapName), gs)
    ensures es[i].qualifyingBrawlers == |gs|
    ensures var slots := Slots(t, OnMap(mode, battleType, es[i].mapName));
            && es[i].battles >= |BattlesOf(slots)|
            && (es[i].battles == |BattlesOf(slots)| <==>
                  forall fp :: fp in ScoredOn(t, mode, battleType, es[i].mapName) ==> exists k :: k in slots && k.0 == fp)
  {
    var m := es[i].mapName;
    var q := OnMap(mode, battleType, m);
    SameQualified(t, mode, battleType, m);
    IdsCount(gs);
    assert es[i].qualifyingBrawlers == |QualifyingOn(t, mode, battleType, m)|;
    SamplesAreScored(t, mode, battleType, m);
    var slots, scored := Slots(t, q), ScoredOn(t, mode, battleType, m);
    hide Slots, ScoredOn, QualifyingOn, Qualified, Sound, IsMapAnswer;
    SubsetSize(BattlesOf(slots), scored);
    if forall fp :: fp in scored ==> exists k :: k in slots && k.0 == fp {
      assert BattlesOf(slots) == scored;
    } else {
      var fp :| fp in scored && !exists k :: k in slots && k.0 == fp;
      SubsetSize(BattlesOf(slots), scored - {fp});
    }
  }

  lemma {:induction false} IdsCount(gs: seq<Group>)
    requires forall i, j :: 0 <= i < j < |gs| ==> gs[i].id != gs[j].id
    ensures |Ids(gs)| == |gs|
    decreases |gs|
  {
    if gs != [] {
      var before, g := gs[..|gs| - 1], gs[|gs| - 1];
      IdsCount(before);
      forall x | x in Ids(before) ensures x in Ids(gs) - {g.id} {
        var i :| 0 <= i < |before| && before[i].id == x;
        assert gs[i].id == x;
      }
      forall x | x in Ids(gs) - {g.id} ensures x in Ids(before) {
        var i :| 0 <= i < |gs| && gs[i].id == x;
        assert before[i].id == x;
      }
      assert gs[|gs| - 1].id in Ids(gs);
      assert Ids(gs) - {g.id} == Ids(before);
    }
  }

  lemma SameQualified(t: Tables, mode: string, battleType: string, m: string)
    requires Sound(t)
    ensures QualifyingOn(t, mode, battleType, m) == Qualified(t, OnMap(mode, battleType, m))
  {
    var q := OnMap(mode, battleType, m);
    var rows := Slots(t, q);
    forall id ensures id in QualifyingOn(t, mode, battleType, m) <==> id in Qualified(t, q) {
      if id in BrawlersOf(t, rows) {
        var k :| k in rows && t.participants[k].brawlerId == Some(id);
        assert References(t, k.0, t.participants[k]);
      } else {
        assert OfBrawler(t, rows, id) == {};
        assert BattlesOf({}) == {};
      }
    }
  }

  lemma SamplesAreScored(t: Tables, mode: string, battleType: string, m: string)
    ensures BattlesOf(Slots(t, OnMap(mode, battleType, m))) <= ScoredOn(t, mode, battleType, m)
  {
    var q := OnMap(mode, battleType, m);
    forall fp | fp in BattlesOf(Slots(t, q)) ensures fp in ScoredOn(t, mode, battleType, m) {
      var k :| k in Slots(t, q) && k.0 == fp;
      var team := (k.0, t.participants[k].team.value);
      assert team in t.teams && Scored(t.teams[team]);
      assert BattleMatches(t, Query(mode, None, battleType, None, 0), team.0);
      assert fp in ScoredBattles(t, mode, battleType);
    }
  }

  /** A named map with any sample battles is on the list. */
  lemma SampledMapsAreListed(t: Tables, mode: string, battleType: string, es: seq<MapEntry>, m: string)
    requires IsMapAnswer(t, mode, battleType, es) && m != ""
    requires BattlesOf(Slots(t, OnMap(mode, battleType, m))) != {}
    ensures exists i :: 0 <= i < |es| && es[i].mapName == m
  {
    SamplesAreScored(t, mode, battleType, m);
    var fp :| fp in BattlesOf(Slots(t, OnMap(mode, battleType, m)));
    assert fp in ScoredOn(t, mode, battleType, m);
    assert m in Maps(t, mode, battleType);
  }

  // ------------------------------------------------------------------------------ rounding

  lemma RoundedNear(a: nat, n: nat, scale: nat)
    requires n > 0
    ensures 2 * (scale * a) < 2 * (n * Rounded(a, n, scale)) + n
    ensures 2 * (n * Rounded(a, n, scale)) <= 2 * (scale * a) + n
  {
    var x, y := 2 * scale * a + n, 2 * n;
    var r := x / y;
    assert x == y * r + x % y && 0 <= x % y < y;
    assert y * r == 2 * (n * r);
    assert 2 * scale * a == 2 * (scale * a);
  }

  lemma RoundedAtMost(a: nat, n: nat, scale: nat)
    requires n > 0 && a <= n
    ensures Rounded(a, n, scale) <= scale
  {
    var r := Rounded(a, n, scale);
    RoundedNear(a, n, scale);
    hide Rounded;
    Times(n, a, scale);
    if r > scale {
      Times(r, scale + 1, n);
      OneMore(scale, n);
      assert false;
    }
  }

  lemma OneMore(scale: nat, n: nat)
    ensures (scale + 1) * n == scale * n + n
  {}

  lemma RoundedMonotone(a: nat, n: nat, b: nat, m: nat, scale: nat)
    requires n > 0 && m > 0 && a * m >= b * n
    ensures Rounded(a, n, scale) >= Rounded(b, m, scale)
  {
    var r, s := Rounded(a, n, scale), Rounded(b, m, scale);
    RoundedNear(a, n, scale);
    RoundedNear(b, m, scale);
    if r < s {
      // 2ns > 2 scale a + n and 2ms <= 2 scale b + m, multiplied by m and by n
      Times(s, r + 1, n);
      assert n * (r + 1) == n * r + n && s * n == n * s && (r + 1) * n == n * (r + 1);
      assert 2 * (n * s) > 2 * (scale * a) + n;
      Strictly(2 * (n * s), 2 * (scale * a) + n, m);
      Times(2 * (scale * b) + m, 2 * (m * s), n);
      Times(a * m, b * n, 2 * scale);
      Expand(a, n, b, m, s, scale);
      assert false;
    }
  }

  lemma Strictly(x: int, y: int, k: nat)
    requires x > y && k > 0
    ensures x * k > y * k
  {
    Times(x, y + 1, k);
    assert (y + 1) * k == y * k + k;
  }

  lemma Expand(a: nat, n: nat, b: nat, m: nat, s: nat, scale: nat)
    ensures (2 * (n * s)) * m == (2 * (m * s)) * n
    ensures (2 * (scale * a) + n) * m == (a * m) * (2 * scale) + n * m
    ensures (2 * (scale * b) + m) * n == (b * n) * (2 * scale) + n * m
  {}

  /** The list is ordered by the exact ratio, and the rounded percentages follow that order: they
      never rise, and brawlers without one come last. */
  lemma WinPctOrder(t: Tables, q: Query, gs: seq<Group>, rs: seq<Rate>, i: nat, j: nat)
    requires IsAnswer(t, q, gs) && RatesOf(t, q, gs, rs) && i < j < |rs|
    ensures rs[j].winPct.Some? ==> rs[i].winPct.Some? && rs[i].winPct.value >= rs[j].winPct.value
  {
    var a, b := gs[i], gs[j];
    hide Slots, GroupOf, Qualified;
    assert MayPrecede(a, b);
    assert rs[i] == RateOf(a, |Slots(t, q)|) && rs[j] == RateOf(b, |Slots(t, q)|);
    if a.wins + a.losses > 0 && b.wins + b.losses > 0 {
      RoundedMonotone(a.wins, a.wins + a.losses, b.wins, b.wins + b.losses, 1000);
    }
  }

  /** A reported number stands for the ratio a / n: it is at most 1 and within half a unit of it. */
  predicate Near(r: nat, a: nat, n: nat, scale: nat) {
    r <= scale && 2 * (scale * a) < 2 * (n * r) + n && 2 * (n * r) <= 2 * (scale * a) + n
  }

  /** Every reported percentage and pick rate, of every listed brawler, is at most 1 and within half
      a unit of its last digit of the exact ratio; each is present exactly when its ratio exists. */
  lemma RatesFaithful(t: Tables, q: Query, gs: seq<Group>, rs: seq<Rate>, i: nat)
    requires IsAnswer(t, q, gs) && RatesOf(t, q, gs, rs) && i < |rs|
    ensures rs[i].winPct.Some? <==> rs[i].wins + rs[i].losses > 0
    ensures rs[i].winPct.Some? ==> Near(rs[i].winPct.value, rs[i].wins, rs[i].wins + rs[i].losses, 1000)
    ensures rs[i].pickRate.Some? <==> |Slots(t, q)| > 0
    ensures rs[i].pickRate.Some? ==> Near(rs[i].pickRate.value, rs[i].slots, |Slots(t, q)|, 10000)
  {
    hide Slots, GroupOf, Qualified, OfBrawler, Rounded;
    var g, total := gs[i], |Slots(t, q)|;
    SlotsSplit(t, q, g.id);
    SubsetSize(OfBrawler(t, Slots(t, q), g.id), Slots(t, q)) by { BrawlersRows(t, Slots(t, q), g.id); }
    assert rs[i] == RateOf(g, total);
    if g.wins + g.losses > 0 {
      RoundedNear(g.wins, g.wins + g.losses, 1000);
      RoundedAtMost(g.wins, g.wins + g.losses, 1000);
    }
    if total > 0 {
      RoundedNear(rs[i].slots, total, 10000);
      RoundedAtMost(rs[i].slots, total, 10000);
    }
  }

  lemma BrawlersRows(t: Tables, rows: set<RowKey>, id: int)
    ensures OfBrawler(t, rows, id) <= rows
  {}

  lemma {:induction false} PickRatesNear(n: nat, gs: seq<Group>, rs: seq<Rate>)
    requires n > 0 && |rs| == |gs| && forall i :: 0 <= i < |gs| ==> rs[i] == RateOf(gs[i], n)
    ensures forall i :: 0 <= i < |rs| ==> rs[i].pickRate.Some?
    ensures 2 * (n * SumPickRates(rs)) <= 2 * (10000 * SumSlots(rs)) + n * |rs|
    ensures 2 * (10000 * SumSlots(rs)) <= 2 * (n * SumPickRates(rs)) + n * |rs|
    decreases |rs|
  {
    if rs != [] {
      var p, rest := rs[0].pickRate.value, rs[1..];
      PickRatesNear(n, gs[1..], rest);
      RoundedNear(rs[0].slots, n, 10000);
      Distribute(n, p, SumPickRates(rest));
      Distribute(n, 1, |rest|);
    }
  }

  /** With at least one slot, the pick rates of k brawlers add up to 1 within k half-units of their
      last digit. */
  lemma PickRatesSumToOne(t: Tables, q: Query, gs: seq<Group>, rs: seq<Rate>)
    requires Sound(t) && q.minBattles <= 1 && IsAnswer(t, q, gs) && RatesOf(t, q, gs, rs) && |Slots(t, q)| > 0
    ensures forall i :: 0 <= i < |rs| ==> rs[i].pickRate.Some?
    ensures 2 * SumPickRates(rs) <= 2 * 10000 + |rs| && 2 * 10000 <= 2 * SumPickRates(rs) + |rs|
  {
    TotalsConserved(t, q, gs, rs);
    PickRatesNear(|Slots(t, q)|, gs, rs);
    PerSlot(|Slots(t, q)|, SumPickRates(rs), |rs|);
  }

  lemma PerSlot(n: nat, sum: nat, k: nat)
    requires n > 0 && 2 * (n * sum) <= 2 * (10000 * n) + n * k && 2 * (10000 * n) <= 2 * (n * sum) + n * k
    ensures 2 * sum <= 20000 + k && 20000 <= 2 * sum + k
  {
    assert (20000 + k) * n == 2 * (10000 * n) + n * k;
    assert (2 * sum + k) * n == 2 * (n * sum) + n * k;
    assert (2 * sum) * n == 2 * (n * sum);
    Cancel(20000 + k, 2 * sum, n);
    Cancel(2 * sum + k, 20000, n);
  }

  lemma Distribute(n: int, x: int, y: int)
    ensures n * (x + y) == n * x + n * y
  {}
}
