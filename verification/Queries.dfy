/** What the two analytics queries say about the tables, in the tables' own columns; and that nothing else
    in the database matters to them. */
module Queries {
  import opened Collections
  import opened Ingestion
  import opened Analytics
  import opened AnalyticsLaws

  // -------------------------------------------------------------------------------- the columns

  predicate OfType(filter: string, battleType: string) {
    && ((filter == "ranked" || filter == "") ==> battleType == "ranked")
    && (filter == "soloRanked" ==> battleType == "soloRanked")
    && (filter == "competitive" ==> battleType in {"soloRanked", "ranked"})
  }

  /** A battle row that the query is about. */
  predicate Wanted(b: BattleRow, q: Query) {
    && b.mode == q.mode && OfType(q.battleType, b.battleType)
    && (q.mapName.Some? ==> q.mapName.value == b.mapName)
  }

  /** The participant of battle fp with this tag is counted, on a team with the given result. */
  predicate Counted(t: Tables, q: Query, fp: string, tag: string, result: string) {
    && fp in t.battles && Wanted(t.battles[fp], q) && (fp, tag) in t.participants
    && var p := t.participants[(fp, tag)];
    && p.team.Some? && (fp, p.team.value) in t.teams && t.teams[(fp, p.team.value)] == result
    && p.brawlerId.Some? && (q.bucket.Some? ==> p.bucket == q.bucket)
  }

  predicate CountedAtAll(t: Tables, q: Query, k: RowKey) {
    Counted(t, q, k.0, k.1, "victory") || Counted(t, q, k.0, k.1, "defeat") || Counted(t, q, k.0, k.1, "draw")
  }

  lemma SlotMeans(t: Tables, q: Query, k: RowKey)
    ensures k in Slots(t, q) <==> CountedAtAll(t, q, k)
    ensures forall result :: k in Slots(t, q) && HasTeam(t, k) && ResultOf(t, k) == result <==>
                             Counted(t, q, k.0, k.1, result) && (result == "victory" || result == "defeat" || result == "draw")
  {}

  function Having(t: Tables, q: Query, id: int, result: string): set<RowKey> {
    set k | k in t.participants && t.participants[k].brawlerId == Some(id) && Counted(t, q, k.0, k.1, result)
  }

  /** The battles in which the brawler was counted. */
  function BattlesWith(t: Tables, q: Query, id: int): set<string> {
    set k | k in t.participants && t.participants[k].brawlerId == Some(id) && CountedAtAll(t, q, k) :: k.0
  }

  lemma GroupMeans(t: Tables, q: Query, id: int)
    requires id in t.brawlers
    ensures var g := GroupOf(t, q, id);
            && g.id == id && g.name == t.brawlers[id].name && g.battles == |BattlesWith(t, q, id)|
            && g.wins == |Having(t, q, id, "victory")| && g.losses == |Having(t, q, id, "defeat")|
            && g.draws == |Having(t, q, id, "draw")|
  {
    hide Counted, IsSlot, ResultOf, HasTeam;
    var rows := OfBrawler(t, Slots(t, q), id);
    forall k ensures k in rows <==> k in t.participants && t.participants[k].brawlerId == Some(id) && CountedAtAll(t, q, k) {
      SlotMeans(t, q, k);
    }
    SameBattles(t, q, id, rows);
    forall result | result in {"victory", "defeat", "draw"} ensures Scoring(t, rows, result) == Having(t, q, id, result) {
      forall k ensures k in Scoring(t, rows, result) <==> k in Having(t, q, id, result) {
        SlotMeans(t, q, k);
      }
    }
  }

  lemma SameBattles(t: Tables, q: Query, id: int, rows: set<RowKey>)
    requires forall k :: k in rows <==> k in t.participants && t.participants[k].brawlerId == Some(id) && CountedAtAll(t, q, k)
    ensures BattlesOf(rows) == BattlesWith(t, q, id)
  {
    hide CountedAtAll;
    forall fp | fp in BattlesOf(rows) ensures fp in BattlesWith(t, q, id) {
      var k :| k in rows && k.0 == fp;
    }
    forall fp | fp in BattlesWith(t, q, id) ensures fp in BattlesOf(rows) {
      var k :| k in t.participants && t.participants[k].brawlerId == Some(id) && CountedAtAll(t, q, k) && k.0 == fp;
      assert k in rows;
    }
  }

  /** An answer lists exactly the brawlers counted in enough different battles, at least one, each once,
      with their battles, wins, losses and draws; by win ratio, those without a decided slot last, and among
      equals by battles. */
  lemma AnswerMeans(t: Tables, q: Query, gs: seq<Group>)
    requires IsAnswer(t, q, gs)
    ensures forall id :: id in Ids(gs) <==> id in t.brawlers && BattlesWith(t, q, id) != {} && |BattlesWith(t, q, id)| >= q.minBattles
    ensures forall i, j :: 0 <= i < j < |gs| ==> gs[i].id != gs[j].id
    ensures forall i :: 0 <= i < |gs| ==>
              var g := gs[i];
              && g.id in t.brawlers && g.name == t.brawlers[g.id].name && g.battles == |BattlesWith(t, q, g.id)|
              && g.wins == |Having(t, q, g.id, "victory")| && g.losses == |Having(t, q, g.id, "defeat")|
              && g.draws == |Having(t, q, g.id, "draw")|
    ensures forall i, j :: 0 <= i < j < |gs| ==>
              var a, b := gs[i], gs[j];
              && (a.wins + a.losses == 0 ==> b.wins + b.losses == 0)
              && (b.wins + b.losses > 0 ==> a.wins * (b.wins + b.losses) >= b.wins * (a.wins + a.losses))
              && (b.wins + b.losses > 0 && a.wins * (b.wins + b.losses) == b.wins * (a.wins + a.losses) ==> a.battles >= b.battles)
              && (a.wins + a.losses == 0 ==> a.battles >= b.battles)
  {
    forall id ensures id in Ids(gs) <==> id in t.brawlers && BattlesWith(t, q, id) != {} && |BattlesWith(t, q, id)| >= q.minBattles {
      if id in t.brawlers {
        GroupMeans(t, q, id);
        QualifiedMeans(t, q, id);
      }
    }
    forall i | 0 <= i < |gs|
      ensures var g := gs[i];
              && g.id in t.brawlers && g.name == t.brawlers[g.id].name && g.battles == |BattlesWith(t, q, g.id)|
              && g.wins == |Having(t, q, g.id, "victory")| && g.losses == |Having(t, q, g.id, "defeat")|
              && g.draws == |Having(t, q, g.id, "draw")|
    {
      GroupMeans(t, q, gs[i].id);
    }
    hide Having, BattlesWith, GroupOf, Qualified, Ids;
  }

  lemma QualifiedMeans(t: Tables, q: Query, id: int)
    requires id in t.brawlers
    ensures id in Qualified(t, q) <==> GroupOf(t, q, id).battles >= 1 && GroupOf(t, q, id).battles >= q.minBattles
  {}

  /** The rounded rates of a listed brawler, exactly: halves are rounded up, nothing is reported without a
      denominator, and a brawler's slots are his decided and drawn ones. */
  lemma RatesMean(t: Tables, q: Query, gs: seq<Group>, rs: seq<Rate>, i: nat)
    requires RatesOf(t, q, gs, rs) && i < |rs|
    ensures var r, g := rs[i], gs[i];
            var total := |set k | k in t.participants && CountedAtAll(t, q, k)|;
            && r.id == g.id && r.name == g.name && r.battles == g.battles && r.wins == g.wins && r.losses == g.losses
            && r.draws == g.draws && r.slots == r.wins + r.losses + r.draws
            && (r.winPct.Some? <==> r.wins + r.losses > 0)
            && (r.winPct.Some? ==> HalfUp(r.winPct.value, 1000 * r.wins, r.wins + r.losses))
            && (r.pickRate.Some? <==> total > 0)
            && (r.pickRate.Some? ==> HalfUp(r.pickRate.value, 10000 * r.slots, total))
  {
    TotalMeans(t, q);
    assert rs[i] == RateOf(gs[i], |Slots(t, q)|);
    var g, total := gs[i], |Slots(t, q)|;
    if g.wins + g.losses > 0 {
      RoundsHalfUp(g.wins, g.wins + g.losses, 1000);
    }
    if total > 0 {
      RoundsHalfUp(g.wins + g.losses + g.draws, total, 10000);
    }
    hide Slots, CountedAtAll, HalfUp, Rounded;
  }

  /** r is a / n, rounded to the nearest integer and up from a half. */
  predicate HalfUp(r: int, a: int, n: int) {
    2 * n * r - n <= 2 * a < 2 * n * r + n
  }

  lemma RoundsHalfUp(a: nat, n: nat, scale: nat)
    requires n > 0
    ensures HalfUp(Rounded(a, n, scale), scale * a, n)
  {
    var x, r := 2 * scale * a + n, Rounded(a, n, scale);
    Quotient(x, 2 * n);
    assert 2 * scale * a == 2 * (scale * a);
    assert r * (2 * n) == 2 * n * r && (r + 1) * (2 * n) == 2 * n * r + 2 * n;
  }

  lemma Quotient(x: int, m: int)
    requires m > 0
    ensures (x / m) * m <= x < (x / m + 1) * m
  {
    assert x == (x / m) * m + x % m;
    assert (x / m + 1) * m == (x / m) * m + m;
  }

  /** The totals: the different battles with a counted participant, and the counted participants. */
  lemma TotalMeans(t: Tables, q: Query)
    ensures Slots(t, q) == set k | k in t.participants && CountedAtAll(t, q, k)
    ensures BattlesOf(Slots(t, q)) == set k | k in t.participants && CountedAtAll(t, q, k) :: k.0
  {
    hide CountedAtAll, IsSlot;
    forall k ensures k in Slots(t, q) <==> k in t.participants && CountedAtAll(t, q, k) {
      SlotMeans(t, q, k);
      CountedIsStored(t, q, k);
    }
  }

  lemma CountedIsStored(t: Tables, q: Query, k: RowKey)
    ensures CountedAtAll(t, q, k) ==> k in t.participants
  {}

  // ----------------------------------------------------------------------------------- the map list

  /** The battles of a map that the map list counts: of the mode and type, with a scored team. */
  function BattlesOn(t: Tables, mode: string, battleType: string, m: string): set<string> {
    set k | k in t.teams && k.0 in t.battles && Wanted(t.battles[k.0], Query(mode, Some(m), battleType, None, 0))
            && t.teams[k] in {"victory", "defeat", "draw"} :: k.0
  }

  lemma MapBattle(t: Tables, mode: string, battleType: string, m: string, k: (string, nat))
    requires k in t.teams
    ensures var scored := BattleMatches(t, Query(mode, None, battleType, None, 0), k.0) && Scored(t.teams[k]);
            scored && k.0 in t.battles && t.battles[k.0].mapName == m
            <==> k.0 in t.battles && Wanted(t.battles[k.0], Query(mode, Some(m), battleType, None, 0))
                 && t.teams[k] in {"victory", "defeat", "draw"}
  {}

  lemma ScoredOnMeans(t: Tables, mode: string, battleType: string, m: string)
    ensures ScoredOn(t, mode, battleType, m) == BattlesOn(t, mode, battleType, m)
  {
    hide BattleMatches, Scored, Wanted;
    forall fp | fp in ScoredOn(t, mode, battleType, m) ensures fp in BattlesOn(t, mode, battleType, m) {
      var k :| k in t.teams && BattleMatches(t, Query(mode, None, battleType, None, 0), k.0) && Scored(t.teams[k]) && k.0 == fp;
      MapBattle(t, mode, battleType, m, k);
    }
    forall fp | fp in BattlesOn(t, mode, battleType, m) ensures fp in ScoredOn(t, mode, battleType, m) {
      var k :| k in t.teams && k.0 in t.battles && Wanted(t.battles[k.0], Query(mode, Some(m), battleType, None, 0))
               && t.teams[k] in {"victory", "defeat", "draw"} && k.0 == fp;
      MapBattle(t, mode, battleType, m, k);
    }
  }

  /** The brawlers with ten battles or more on the map. */
  function TenOn(t: Tables, mode: string, battleType: string, m: string): set<int> {
    var q := Query(mode, Some(m), battleType, None, 0);
    set k | k in t.participants && CountedAtAll(t, q, k) && t.participants[k].brawlerId.Some?
            && |BattlesWith(t, q, t.participants[k].brawlerId.value)| >= 10 :: t.participants[k].brawlerId.value
  }

  lemma BrawlersBattles(t: Tables, q: Query, id: int)
    ensures BattlesOf(OfBrawler(t, Slots(t, q), id)) == BattlesWith(t, q, id)
  {
    hide IsSlot, CountedAtAll;
    var rows := OfBrawler(t, Slots(t, q), id);
    forall k ensures k in rows <==> k in t.participants && t.participants[k].brawlerId == Some(id) && CountedAtAll(t, q, k) {
      SlotMeans(t, q, k);
    }
    SameBattles(t, q, id, rows);
  }

  lemma QualifyingMeans(t: Tables, mode: string, battleType: string, m: string)
    ensures QualifyingOn(t, mode, battleType, m) == TenOn(t, mode, battleType, m)
  {
    hide CountedAtAll, IsSlot, BattlesWith;
    var q, q0 := OnMap(mode, battleType, m), Query(mode, Some(m), battleType, None, 0);
    SameSlots(t, mode, battleType, m);
    forall id ensures id in QualifyingOn(t, mode, battleType, m) <==> id in TenOn(t, mode, battleType, m) {
      BrawlersBattles(t, q0, id);
      if id in QualifyingOn(t, mode, battleType, m) {
        var k :| k in Slots(t, q) && k in t.participants && t.participants[k].brawlerId == Some(id);
        SlotMeans(t, q0, k);
        assert k in Slots(t, q0);
      }
      if id in TenOn(t, mode, battleType, m) {
        var k :| k in t.participants && CountedAtAll(t, q0, k) && t.participants[k].brawlerId == Some(id);
        SlotMeans(t, q0, k);
        assert k in Slots(t, q);
      }
    }
  }

  lemma SameSlots(t: Tables, mode: string, battleType: string, m: string)
    ensures Slots(t, OnMap(mode, battleType, m)) == Slots(t, Query(mode, Some(m), battleType, None, 0))
  {}

  /** The map list names exactly the named maps with a scored battle of the mode and type, each once, by
      descending battles, with the number of such battles and of brawlers with ten of them. */
  lemma MapListMeans(t: Tables, mode: string, battleType: string, es: seq<MapEntry>)
    requires IsMapAnswer(t, mode, battleType, es)
    ensures forall m :: m in MapNames(es) <==> m != "" && BattlesOn(t, mode, battleType, m) != {}
    ensures forall i, j :: 0 <= i < j < |es| ==> es[i].mapName != es[j].mapName && es[i].battles >= es[j].battles
    ensures forall i :: 0 <= i < |es| ==>
              && es[i].battles == |BattlesOn(t, mode, battleType, es[i].mapName)|
              && es[i].qualifyingBrawlers == |TenOn(t, mode, battleType, es[i].mapName)|
  {
    hide BattlesOn, TenOn, ScoredOn, QualifyingOn, MapNames, Maps;
    forall m ensures m in MapNames(es) <==> m != "" && BattlesOn(t, mode, battleType, m) != {} {
      ScoredOnMeans(t, mode, battleType, m);
      ListedMap(t, mode, battleType, m);
    }
    forall i | 0 <= i < |es|
      ensures && es[i].battles == |BattlesOn(t, mode, battleType, es[i].mapName)|
              && es[i].qualifyingBrawlers == |TenOn(t, mode, battleType, es[i].mapName)|
    {
      ScoredOnMeans(t, mode, battleType, es[i].mapName);
      QualifyingMeans(t, mode, battleType, es[i].mapName);
    }
  }

  lemma ListedMap(t: Tables, mode: string, battleType: string, m: string)
    ensures m in Maps(t, mode, battleType) <==> m != "" && ScoredOn(t, mode, battleType, m) != {}
  {
    hide ScoredBattles;
    if m in Maps(t, mode, battleType) {
      var fp :| fp in ScoredBattles(t, mode, battleType) && fp in t.battles && t.battles[fp].mapName == m;
      assert fp in ScoredOn(t, mode, battleType, m);
    }
    if ScoredOn(t, mode, battleType, m) != {} {
      var fp :| fp in ScoredOn(t, mode, battleType, m);
    }
  }

  /** The modes without team results or attribution have no answers. */
  lemma NoAnswerModes(mode: string)
    ensures IsIneligibleMode(mode) <==> mode in {"tagTeam", "soloShowdown", "duoShowdown", "trioShowdown"}
  {}

  // ------------------------------------------------------------------- what does not matter to a query

  /** The tables say the same about the battles of the mode. */
  ghost predicate SameInMode(t: Tables, t': Tables, mode: string) {
    && t.brawlers == t'.brawlers
    && (forall fp :: InMode(t, fp, mode) <==> InMode(t', fp, mode))
    && (forall fp :: InMode(t, fp, mode) ==>
          && t'.battles[fp] == t.battles[fp]
          && (forall i: nat :: (fp, i) in t.teams <==> (fp, i) in t'.teams)
          && (forall i: nat :: (fp, i) in t.teams ==> t'.teams[(fp, i)] == t.teams[(fp, i)])
          && (forall tag: string :: (fp, tag) in t.participants <==> (fp, tag) in t'.participants)
          && (forall tag: string :: (fp, tag) in t.participants ==> t'.participants[(fp, tag)] == t.participants[(fp, tag)]))
  }

  predicate InMode(t: Tables, fp: string, mode: string) {
    fp in t.battles && t.battles[fp].mode == mode
  }

  lemma SameCount(t: Tables, t': Tables, q: Query, fp: string, tag: string, result: string)
    requires SameInMode(t, t', q.mode)
    ensures Counted(t, q, fp, tag, result) <==> Counted(t', q, fp, tag, result)
    ensures Counted(t, q, fp, tag, result) ==> t'.participants[(fp, tag)] == t.participants[(fp, tag)]
  {
    assert InMode(t, fp, q.mode) <==> InMode(t', fp, q.mode);
  }

  lemma SameGroups(t: Tables, t': Tables, q: Query, id: int)
    requires SameInMode(t, t', q.mode)
    ensures BattlesWith(t, q, id) == BattlesWith(t', q, id)
    ensures forall result :: Having(t, q, id, result) == Having(t', q, id, result)
  {
    hide Counted, SameInMode;
    forall k: RowKey, result: string
      ensures Counted(t, q, k.0, k.1, result) <==> Counted(t', q, k.0, k.1, result)
      ensures Counted(t, q, k.0, k.1, result) ==> k in t.participants && k in t'.participants && t'.participants[k] == t.participants[k]
    {
      SameCount(t, t', q, k.0, k.1, result);
      CountedRow(t, q, k, result);
      CountedRow(t', q, k, result);
    }
  }

  lemma CountedRow(t: Tables, q: Query, k: RowKey, result: string)
    ensures Counted(t, q, k.0, k.1, result) ==> k in t.participants
  {}

  /** Battles of other modes do not matter: databases that agree on the battles of the queried mode have the
      same answers to the win rate query, with the same totals. */
  lemma OtherModesDoNotMatter(t: Tables, t': Tables, q: Query, gs: seq<Group>)
    requires SameInMode(t, t', q.mode)
    ensures Slots(t, q) == Slots(t', q)
    ensures IsAnswer(t, q, gs) <==> IsAnswer(t', q, gs)
  {
    hide SameInMode, Counted, Slots, GroupOf, Qualified, Ordered, Ids;
    TotalMeans(t, q);
    TotalMeans(t', q);
    forall k ensures k in t.participants && CountedAtAll(t, q, k) <==> k in t'.participants && CountedAtAll(t', q, k) {
      forall result ensures Counted(t, q, k.0, k.1, result) <==> Counted(t', q, k.0, k.1, result) {
        SameCount(t, t', q, k.0, k.1, result);
      }
      CountedIsStored(t, q, k);
      CountedIsStored(t', q, k);
    }
    SameBrawlers(t, t', q.mode);
    forall id ensures id in Qualified(t, q) <==> id in Qualified(t', q) {
      SameGroup(t, t', q, id);
    }
    assert Qualified(t, q) == Qualified(t', q);
    forall id | id in t.brawlers ensures GroupOf(t, q, id) == GroupOf(t', q, id) {
      SameGroup(t, t', q, id);
    }
  }

  lemma SameGroup(t: Tables, t': Tables, q: Query, id: int)
    requires SameInMode(t, t', q.mode)
    ensures id in Qualified(t, q) <==> id in Qualified(t', q)
    ensures t.brawlers == t'.brawlers && (id in t.brawlers ==> GroupOf(t, q, id) == GroupOf(t', q, id))
  {
    hide SameInMode, Counted, GroupOf, Qualified, Having, BattlesWith;
    SameBrawlers(t, t', q.mode);
    QualifiedExist(t, q);
    QualifiedExist(t', q);
    if id in t.brawlers {
      GroupMeans(t, q, id);
      GroupMeans(t', q, id);
      SameGroups(t, t', q, id);
      QualifiedMeans(t, q, id);
      QualifiedMeans(t', q, id);
    }
  }

  lemma SameBrawlers(t: Tables, t': Tables, mode: string)
    requires SameInMode(t, t', mode)
    ensures t.brawlers == t'.brawlers
  {}

  lemma QualifiedExist(t: Tables, q: Query)
    ensures forall id :: id in Qualified(t, q) ==> id in t.brawlers
  {}

  /** .. and to the map query. */
  lemma OtherModesDoNotMatterToMaps(t: Tables, t': Tables, mode: string, battleType: string, es: seq<MapEntry>)
    requires SameInMode(t, t', mode)
    ensures IsMapAnswer(t, mode, battleType, es) <==> IsMapAnswer(t', mode, battleType, es)
  {
    hide SameInMode, BattlesOn, TenOn, ScoredOn, QualifyingOn, Maps, MapNames;
    forall m ensures EntryOf(t, mode, battleType, m) == EntryOf(t', mode, battleType, m)
      ensures m in Maps(t, mode, battleType) <==> m in Maps(t', mode, battleType)
    {
      ScoredOnMeans(t, mode, battleType, m);
      ScoredOnMeans(t', mode, battleType, m);
      QualifyingMeans(t, mode, battleType, m);
      QualifyingMeans(t', mode, battleType, m);
      SameBattlesOn(t, t', mode, battleType, m);
      SameTen(t, t', mode, battleType, m);
      ListedMap(t, mode, battleType, m);
      ListedMap(t', mode, battleType, m);
    }
    assert Maps(t, mode, battleType) == Maps(t', mode, battleType);
  }

  lemma SameBattlesOn(t: Tables, t': Tables, mode: string, battleType: string, m: string)
    requires SameInMode(t, t', mode)
    ensures BattlesOn(t, mode, battleType, m) == BattlesOn(t', mode, battleType, m)
  {
    hide OfType;
    forall fp, i: nat
      ensures (fp, i) in t.teams && InMode(t, fp, mode) <==> (fp, i) in t'.teams && InMode(t', fp, mode)
      ensures (fp, i) in t.teams && InMode(t, fp, mode) ==> t'.teams[(fp, i)] == t.teams[(fp, i)] && t'.battles[fp] == t.battles[fp]
    {
      assert InMode(t, fp, mode) <==> InMode(t', fp, mode);
    }
    assert forall k: (string, nat) :: k == (k.0, k.1);
    var q := Query(mode, Some(m), battleType, None, 0);
    forall k: (string, nat) | k in t.teams && k.0 in t.battles && Wanted(t.battles[k.0], q)
      ensures k in t'.teams && k.0 in t'.battles && t'.battles[k.0] == t.battles[k.0] && t'.teams[k] == t.teams[k]
    {
      assert InMode(t, k.0, mode);
    }
    forall k: (string, nat) | k in t'.teams && k.0 in t'.battles && Wanted(t'.battles[k.0], q)
      ensures k in t.teams && k.0 in t.battles && t'.battles[k.0] == t.battles[k.0] && t'.teams[k] == t.teams[k]
    {
      assert InMode(t', k.0, mode);
    }
  }

  lemma SameTen(t: Tables, t': Tables, mode: string, battleType: string, m: string)
    requires SameInMode(t, t', mode)
    ensures TenOn(t, mode, battleType, m) == TenOn(t', mode, battleType, m)
  {
    hide SameInMode, Counted, BattlesWith;
    var q := Query(mode, Some(m), battleType, None, 0);
    forall k: RowKey, result: string
      ensures Counted(t, q, k.0, k.1, result) <==> Counted(t', q, k.0, k.1, result)
      ensures Counted(t, q, k.0, k.1, result) ==> k in t.participants && k in t'.participants && t'.participants[k] == t.participants[k]
    {
      SameCount(t, t', q, k.0, k.1, result);
      CountedRow(t, q, k, result);
      CountedRow(t', q, k, result);
    }
    forall id ensures BattlesWith(t, q, id) == BattlesWith(t', q, id) {
      SameGroups(t, t', q, id);
    }
  }

  // -------------------------------------------------------------------------------- modes add up

  function ModeOf(t: Tables, k: RowKey): string {
    if k.0 in t.battles then t.battles[k.0].mode else ""
  }

  /** The participants counted by the query of their own battle's mode. */
  function SlotsOfAnyMode(t: Tables, q: Query): set<RowKey> {
    set k | k in t.participants && CountedAtAll(t, q.(mode := ModeOf(t, k)), k)
  }

  function SumModes(t: Tables, q: Query, ms: seq<string>): nat {
    if ms == [] then 0 else |Slots(t, q.(mode := ms[0]))| + SumModes(t, q, ms[1..])
  }

  lemma ModePart(t: Tables, q: Query, m: string)
    ensures Part(SlotsOfAnyMode(t, q), (k: RowKey) => ModeOf(t, k), m) == Slots(t, q.(mode := m))
  {
    hide IsSlot, CountedAtAll;
    forall k ensures k in Part(SlotsOfAnyMode(t, q), k => ModeOf(t, k), m) <==> k in Slots(t, q.(mode := m)) {
      SlotMeans(t, q.(mode := m), k);
      CountedIsStored(t, q.(mode := m), k);
      CountedInMode(t, q.(mode := m), k);
    }
  }

  lemma CountedInMode(t: Tables, q: Query, k: RowKey)
    ensures CountedAtAll(t, q, k) ==> k.0 in t.battles && t.battles[k.0].mode == q.mode && ModeOf(t, k) == q.mode
  {}

  lemma {:induction false} ModeParts(t: Tables, q: Query, ms: seq<string>)
    ensures SumParts(SlotsOfAnyMode(t, q), k => ModeOf(t, k), ms) == SumModes(t, q, ms)
    decreases |ms|
  {
    hide SlotsOfAnyMode, Slots;
    if ms != [] {
      ModePart(t, q, ms[0]);
      ModeParts(t, q, ms[1..]);
    }
  }

  /** Mode by mode the slots add up: each counted participant is in the slots of one mode's query. */
  lemma ModesAddUp(t: Tables, q: Query, ms: seq<string>)
    requires forall i, j :: 0 <= i < j < |ms| ==> ms[i] != ms[j]
    requires forall k :: k in SlotsOfAnyMode(t, q) ==> ModeOf(t, k) in ms
    ensures |SlotsOfAnyMode(t, q)| == SumModes(t, q, ms)
  {
    hide SlotsOfAnyMode;
    var of: RowKey -> string := k => ModeOf(t, k);
    PartsAddUp(SlotsOfAnyMode(t, q), of, ms);
    ModeParts(t, q, ms);
  }
}
