/** The two analytics queries over the ingested tables.  Ratios are exact; a rounded percentage is
    an integer number of thousandths, a rounded pick rate one of ten-thousandths. */
module Analytics {
  import opened Collections
  import opened Ingestion

  // ------------------------------------------------------------------------------------ filters

  predicate IsIneligibleMode(mode: string) {
    mode == "soloShowdown" || mode == "duoShowdown" || mode == "trioShowdown" || mode == "tagTeam"
  }

  /** An empty filter means ranked; one that is not recognized does not filter. */
  predicate TypeMatches(filter: string, battleType: string) {
    if filter == "" || filter == "ranked" then battleType == "ranked"
    else if filter == "soloRanked" then battleType == "soloRanked"
    else if filter == "competitive" then battleType == "ranked" || battleType == "soloRanked"
    else true
  }

  predicate Scored(result: string) {
    result == "victory" || result == "defeat" || result == "draw"
  }

  datatype Query = Query(mode: string, mapName: Option<string>, battleType: string, bucket: Option<int>, minBattles: int)

  type RowKey = (string, string)

  /** The participant's team row, where the join finds one. */
  predicate HasTeam(t: Tables, k: RowKey) {
    k in t.participants && t.participants[k].team.Some? && (k.0, t.participants[k].team.value) in t.teams
  }

  function ResultOf(t: Tables, k: RowKey): string
    requires HasTeam(t, k)
  {
    t.teams[(k.0, t.participants[k].team.value)]
  }

  predicate BattleMatches(t: Tables, q: Query, fp: string) {
    && fp in t.battles
    && t.battles[fp].mode == q.mode
    && TypeMatches(q.battleType, t.battles[fp].battleType)
    && (q.mapName.Some? ==> t.battles[fp].mapName == q.mapName.value)
  }

  predicate IsSlot(t: Tables, q: Query, k: RowKey) {
    && HasTeam(t, k)
    && BattleMatches(t, q, k.0)
    && t.participants[k].brawlerId.Some?
    && Scored(ResultOf(t, k))
    && (q.bucket.Some? ==> t.participants[k].bucket == q.bucket)
  }

  function Slots(t: Tables, q: Query): (rows: set<RowKey>) {
    set k | k in t.participants && IsSlot(t, q, k)
  }

  function OfBrawler(t: Tables, rows: set<RowKey>, id: int): set<RowKey> {
    set k | k in rows && k in t.participants && t.participants[k].brawlerId == Some(id)
  }

  function Scoring(t: Tables, rows: set<RowKey>, result: string): set<RowKey> {
    set k | k in rows && HasTeam(t, k) && ResultOf(t, k) == result
  }

  function BattlesOf(rows: set<RowKey>): set<string> {
    set k | k in rows :: k.0
  }

  // ------------------------------------------------------------------------- win rates per brawler

  datatype Group = Group(id: int, name: string, battles: nat, wins: nat, losses: nat, draws: nat)

  function GroupOf(t: Tables, q: Query, id: int): Group
    requires id in t.brawlers
  {
    var rows := OfBrawler(t, Slots(t, q), id);
    Group(id, t.brawlers[id].name, |BattlesOf(rows)|,
          |Scoring(t, rows, "victory")|, |Scoring(t, rows, "defeat")|, |Scoring(t, rows, "draw")|)
  }

  function MinBattles(q: Query): nat {
    if q.minBattles < 1 then 1 else q.minBattles
  }

  function Qualified(t: Tables, q: Query): set<int> {
    set id | id in t.brawlers && |BattlesOf(OfBrawler(t, Slots(t, q), id))| >= MinBattles(q)
  }

  /** a may be listed before b: by exact win ratio, brawlers without a decided slot last, and by
      battles among equals. */
  predicate MayPrecede(a: Group, b: Group) {
    var m, n := a.wins + a.losses, b.wins + b.losses;
    if m == 0 || n == 0 then n == 0 && (m == 0 ==> a.battles >= b.battles)
    else a.wins * n > b.wins * m || (a.wins * n == b.wins * m && a.battles >= b.battles)
  }

  ghost predicate Ordered(gs: seq<Group>) {
    forall i, j :: 0 <= i < j < |gs| ==> MayPrecede(gs[i], gs[j])
  }

  function Ids(gs: seq<Group>): set<int> {
    set i | 0 <= i < |gs| :: gs[i].id
  }

  ghost predicate Lists(t: Tables, q: Query, ids: set<int>, gs: seq<Group>) {
    && ids == Ids(gs)
    && (forall i, j :: 0 <= i < j < |gs| ==> gs[i].id != gs[j].id)
    && (forall i :: 0 <= i < |gs| ==> gs[i].id in t.brawlers && gs[i] == GroupOf(t, q, gs[i].id))
    && Ordered(gs)
  }

  /** A row sequence the database may return; ties are in any order. */
  ghost predicate IsAnswer(t: Tables, q: Query, gs: seq<Group>) {
    Lists(t, q, Qualified(t, q), gs)
  }

  /** a / n on the given scale, rounded half away from zero. */
  function Rounded(a: nat, n: nat, scale: nat): nat
    requires n > 0
  {
    (2 * scale * a + n) / (2 * n)
  }

  datatype Rate = Rate(
    id: int, name: string, battles: nat, slots: nat, wins: nat, losses: nat, draws: nat,
    winPct: Option<nat>, pickRate: Option<nat>)

  function RateOf(g: Group, total: nat): Rate {
    var slots := g.wins + g.losses + g.draws;
    Rate(g.id, g.name, g.battles, slots, g.wins, g.losses, g.draws,
         if g.wins + g.losses > 0 then Some(Rounded(g.wins, g.wins + g.losses, 1000)) else None,
         if total > 0 then Some(Rounded(slots, total, 10000)) else None)
  }

  datatype WinRates = WinRates(sampleBattles: nat, totalSlots: nat, brawlers: seq<Rate>)

  /** The rates reported for the groups, in their order. */
  ghost predicate RatesOf(t: Tables, q: Query, gs: seq<Group>, rs: seq<Rate>) {
    |rs| == |gs| && forall i :: 0 <= i < |gs| ==> rs[i] == RateOf(gs[i], |Slots(t, q)|)
  }

  function Insert<T>(l: seq<T>, p: nat, x: T): seq<T>
    requires p <= |l|
  {
    l[..p] + [x] + l[p..]
  }

  /** The first place in the list before whose occupant the group may stand. */
  function PlaceFor(g: Group, gs: seq<Group>): (p: nat)
    ensures p <= |gs| && (forall i :: 0 <= i < p ==> !MayPrecede(g, gs[i]))
    ensures p < |gs| ==> MayPrecede(g, gs[p])
  {
    if gs == [] || MayPrecede(g, gs[0]) then 0 else 1 + PlaceFor(g, gs[1..])
  }

  /** The grouped and ordered query. */
  method QueryBrawlers(t: Tables, q: Query) returns (gs: seq<Group>)
    ensures IsAnswer(t, q, gs)
  {
    var all := Qualified(t, q);
    var todo := all;
    gs := [];
    NoGroups();
    assert all - todo == {};
    while todo != {}
      invariant todo <= all && Lists(t, q, all - todo, gs)
      decreases |todo|
    {
      var id :| id in todo;
      var g := GroupOf(t, q, id);
      ListsInsert(t, q, all - todo, gs, id);
      assert all - (todo - {id}) == (all - todo) + {id};
      gs, todo := Insert(gs, PlaceFor(g, gs), g), todo - {id};
    }
    assert all - todo == all;
  }

  method BrawlerWinRates(t: Tables, q: Query) returns (r: Option<WinRates>)
    ensures r.None? <==> IsIneligibleMode(q.mode)
    ensures r.Some? ==>
              && r.value.sampleBattles == |BattlesOf(Slots(t, q))|
              && r.value.totalSlots == |Slots(t, q)|
              && exists gs :: IsAnswer(t, q, gs) && RatesOf(t, q, gs, r.value.brawlers)
  {
    if IsIneligibleMode(q.mode) {
      return None;
    }
    var sampleBattles, totalSlots := |BattlesOf(Slots(t, q))|, |Slots(t, q)|;
    var rows := QueryBrawlers(t, q);
    var brawlers: seq<Rate> := [];
    for i := 0 to |rows|
      invariant |brawlers| == i
      invariant forall j :: 0 <= j < i ==> brawlers[j] == RateOf(rows[j], totalSlots)
    {
      var g := rows[i];
      var slots := g.wins + g.losses + g.draws;
      var winPct, pickRate := None, None;
      if g.wins + g.losses > 0 {
        winPct := Some(Rounded(g.wins, g.wins + g.losses, 1000));
      }
      if totalSlots > 0 {
        pickRate := Some(Rounded(slots, totalSlots, 10000));
      }
      brawlers := brawlers + [Rate(g.id, g.name, g.battles, slots, g.wins, g.losses, g.draws, winPct, pickRate)];
    }
    assert RatesOf(t, q, rows, brawlers);
    r := Some(WinRates(sampleBattles, totalSlots, brawlers));
  }

  // ------------------------------------------------------------------------------------- maps

  datatype MapEntry = MapEntry(mapName: string, battles: nat, qualifyingBrawlers: nat)

  function OnMap(mode: string, battleType: string, mapName: string): Query {
    Query(mode, Some(mapName), battleType, None, 10)
  }

  /** Battles of the mode and type with at least one team that has a scored result. */
  function ScoredBattles(t: Tables, mode: string, battleType: string): set<string> {
    set k | k in t.teams && BattleMatches(t, Query(mode, None, battleType, None, 0), k.0) && Scored(t.teams[k]) :: k.0
  }

  function ScoredOn(t: Tables, mode: string, battleType: string, mapName: string): set<string> {
    set fp | fp in ScoredBattles(t, mode, battleType) && fp in t.battles && t.battles[fp].mapName == mapName
  }

  function Maps(t: Tables, mode: string, battleType: string): set<string> {
    set fp | fp in ScoredBattles(t, mode, battleType) && fp in t.battles && t.battles[fp].mapName != "" :: t.battles[fp].mapName
  }

  function BrawlersOf(t: Tables, rows: set<RowKey>): set<int> {
    set k | k in rows && k in t.participants && t.participants[k].brawlerId.Some? :: t.participants[k].brawlerId.value
  }

  /** The brawlers with ten battles on the map, grouped by the participants' own brawler ids. */
  function QualifyingOn(t: Tables, mode: string, battleType: string, mapName: string): set<int> {
    var rows := Slots(t, OnMap(mode, battleType, mapName));
    set id | id in BrawlersOf(t, rows) && |BattlesOf(OfBrawler(t, rows, id))| >= 10
  }

  function EntryOf(t: Tables, mode: string, battleType: string, m: string): MapEntry {
    MapEntry(m, |ScoredOn(t, mode, battleType, m)|, |QualifyingOn(t, mode, battleType, m)|)
  }

  function MapNames(es: seq<MapEntry>): set<string> {
    set i | 0 <= i < |es| :: es[i].mapName
  }

  /** One entry for each of the maps, by descending battles. */
  ghost predicate ListsMaps(t: Tables, mode: string, battleType: string, maps: set<string>, es: seq<MapEntry>) {
    && MapNames(es) == maps
    && (forall i, j :: 0 <= i < j < |es| ==> es[i].mapName != es[j].mapName && es[i].battles >= es[j].battles)
    && (forall i :: 0 <= i < |es| ==> es[i] == EntryOf(t, mode, battleType, es[i].mapName))
  }

  /** A row sequence the database may return for the map query; ties are in any order. */
  ghost predicate IsMapAnswer(t: Tables, mode: string, battleType: string, es: seq<MapEntry>) {
    ListsMaps(t, mode, battleType, Maps(t, mode, battleType), es)
  }

  /** The first place in the list whose occupant has fewer battles. */
  function PlaceForMap(e: MapEntry, es: seq<MapEntry>): (p: nat)
    ensures p <= |es| && (forall i :: 0 <= i < p ==> es[i].battles >= e.battles)
    ensures p < |es| ==> es[p].battles < e.battles
  {
    if es == [] || es[0].battles < e.battles then 0 else 1 + PlaceForMap(e, es[1..])
  }

  /** The grouped and ordered map query. */
  method QueryMaps(t: Tables, mode: string, battleType: string) returns (es: seq<MapEntry>)
    ensures IsMapAnswer(t, mode, battleType, es)
  {
    hide Maps, ListsMaps, EntryOf;
    var all := Maps(t, mode, battleType);
    var todo := all;
    es := [];
    NoMaps(t, mode, battleType);
    assert all - todo == {};
    while todo != {}
      invariant todo <= all && ListsMaps(t, mode, battleType, all - todo, es)
      decreases |todo|
    {
      var m :| m in todo;
      var e := EntryOf(t, mode, battleType, m);
      ListsMapsInsert(t, mode, battleType, all - todo, es, m);
      assert all - (todo - {m}) == (all - todo) + {m};
      es, todo := Insert(es, PlaceForMap(e, es), e), todo - {m};
    }
    assert all - todo == all;
  }

  lemma NoMaps(t: Tables, mode: string, battleType: string)
    ensures ListsMaps(t, mode, battleType, {}, [])
  {}

  lemma ListsMapsInsert(t: Tables, mode: string, battleType: string, maps: set<string>, es: seq<MapEntry>, m: string)
    requires ListsMaps(t, mode, battleType, maps, es) && m !in maps
    ensures var e := EntryOf(t, mode, battleType, m); ListsMaps(t, mode, battleType, maps + {m}, Insert(es, PlaceForMap(e, es), e))
  {
    hide EntryOf, PlaceForMap, MapNames;
    var e := EntryOf(t, mode, battleType, m);
    EntryName(t, mode, battleType, m);
    InsertedNames(es, e, PlaceForMap(e, es));
    InsertedBelow(es, e, PlaceForMap(e, es));
  }

  lemma EntryName(t: Tables, mode: string, battleType: string, m: string)
    ensures EntryOf(t, mode, battleType, m).mapName == m
  {}

  lemma InsertedNames(es: seq<MapEntry>, e: MapEntry, p: nat)
    requires p <= |es| && e.mapName !in MapNames(es)
    ensures MapNames(Insert(es, p, e)) == MapNames(es) + {e.mapName}
    ensures forall i :: 0 <= i < |es| ==> es[i].mapName != e.mapName
  {
    var r := Insert(es, p, e);
    forall x | x in MapNames(es) ensures x in MapNames(r) {
      var i :| 0 <= i < |es| && es[i].mapName == x;
      assert r[if i < p then i else i + 1] == es[i];
    }
    assert r[p].mapName == e.mapName;
    forall i | 0 <= i < |es| ensures es[i].mapName != e.mapName {
      assert es[i].mapName in MapNames(es);
    }
  }

  lemma InsertedBelow(es: seq<MapEntry>, e: MapEntry, p: nat)
    requires p <= |es| && (forall i :: 0 <= i < p ==> es[i].battles >= e.battles) && (p < |es| ==> es[p].battles < e.battles)
    requires forall i, j :: 0 <= i < j < |es| ==> es[i].mapName != es[j].mapName && es[i].battles >= es[j].battles
    requires forall i :: 0 <= i < |es| ==> es[i].mapName != e.mapName
    ensures var r := Insert(es, p, e);
            && (forall i, j :: 0 <= i < j < |r| ==> r[i].mapName != r[j].mapName && r[i].battles >= r[j].battles)
            && forall i :: 0 <= i < |r| ==> r[i] == e || (exists j :: 0 <= j < |es| && r[i] == es[j])
  {
    var r := Insert(es, p, e);
    forall i | 0 <= i < |r| ensures r[i] == if i < p then es[i] else if i == p then e else es[i - 1] {}
  }

  method MapList(t: Tables, mode: string, battleType: string) returns (r: Option<seq<MapEntry>>)
    ensures r.None? <==> IsIneligibleMode(mode)
    ensures r.Some? ==> IsMapAnswer(t, mode, battleType, r.value)
  {
    if IsIneligibleMode(mode) {
      return None;
    }
    var rows := QueryMaps(t, mode, battleType);
    var maps := [];
    for i := 0 to |rows|
      invariant maps == rows[..i]
    {
      maps := maps + [rows[i]];
    }
    assert rows[..|rows|] == rows;
    r := Some(maps);
  }

  // ------------------------------------------------------------------------ answers always exist

  lemma Comparable(a: Group, b: Group)
    ensures MayPrecede(a, b) || MayPrecede(b, a)
  {}

  lemma PrecedenceTransitive(a: Group, b: Group, c: Group)
    requires MayPrecede(a, b) && MayPrecede(b, c)
    ensures MayPrecede(a, c)
  {
    var l, m, n := a.wins + a.losses, b.wins + b.losses, c.wins + c.losses;
    if l > 0 && m > 0 && n > 0 {
      RatioTransitive(a.wins, l, b.wins, m, c.wins, n);
    }
  }

  /** Comparing fractions a/l >= b/m >= c/n by cross-multiplication. */
  lemma RatioTransitive(a: nat, l: nat, b: nat, m: nat, c: nat, n: nat)
    requires l > 0 && m > 0 && n > 0 && a * m >= b * l && b * n >= c * m
    ensures a * n >= c * l
    ensures a * n == c * l ==> a * m == b * l && b * n == c * m
  {
    Times(a * m, b * l, n);
    Times(b * n, c * m, l);
    assert (a * m) * n == (a * n) * m && (b * l) * n == (b * n) * l && (c * m) * l == (c * l) * m;
    Cancel(a * n, c * l, m);
    if a * n == c * l {
      Cancel(b * l, a * m, n);
      Cancel(c * m, b * n, l);
    }
  }

  lemma Times(x: int, y: int, k: nat)
    requires x >= y
    ensures x * k >= y * k
  {}

  lemma Cancel(x: int, y: int, k: nat)
    requires x * k >= y * k && k > 0
    ensures x >= y
  {
    if x < y {
      Times(y, x + 1, k);
    }
  }

  /** Listing one more group at its place. */
  lemma ListsInsert(t: Tables, q: Query, ids: set<int>, gs: seq<Group>, id: int)
    requires Lists(t, q, ids, gs) && id in t.brawlers && id !in ids
    ensures var g := GroupOf(t, q, id); Lists(t, q, ids + {id}, Insert(gs, PlaceFor(g, gs), g))
  {
    hide MayPrecede, GroupOf, PlaceFor;
    var g := GroupOf(t, q, id);
    var p := PlaceFor(g, gs);
    GroupId(t, q, id);
    forall i | 0 <= i < p ensures MayPrecede(gs[i], g) {
      Comparable(g, gs[i]);
    }
    forall j | p <= j < |gs| ensures MayPrecede(g, gs[j]) {
      if j > p {
        PrecedenceTransitive(g, gs[p], gs[j]);
      }
    }
    InsertedIds(gs, g, p);
    InsertedGroups(t, q, gs, g, p);
  }

  lemma InsertedGroups(t: Tables, q: Query, rest: seq<Group>, g: Group, p: nat)
    requires p <= |rest| && g.id in t.brawlers && g == GroupOf(t, q, g.id)
    requires forall i :: 0 <= i < |rest| ==> rest[i].id in t.brawlers && rest[i] == GroupOf(t, q, rest[i].id)
    requires forall i, j :: 0 <= i < j < |rest| ==> rest[i].id != rest[j].id
    requires forall i :: 0 <= i < |rest| ==> rest[i].id != g.id
    ensures var gs := rest[..p] + [g] + rest[p..];
            && (forall i :: 0 <= i < |gs| ==> gs[i].id in t.brawlers && gs[i] == GroupOf(t, q, gs[i].id))
            && forall i, j :: 0 <= i < j < |gs| ==> gs[i].id != gs[j].id
  {
    hide GroupOf;
    var gs := rest[..p] + [g] + rest[p..];
    forall i | 0 <= i < |gs| ensures gs[i] == if i < p then rest[i] else if i == p then g else rest[i - 1] {}
  }

  lemma InsertedIds(rest: seq<Group>, g: Group, p: nat)
    requires p <= |rest| && g.id !in Ids(rest)
    ensures Ids(rest[..p] + [g] + rest[p..]) == Ids(rest) + {g.id}
    ensures forall i :: 0 <= i < |rest| ==> rest[i].id != g.id
  {
    var gs := rest[..p] + [g] + rest[p..];
    forall x | x in Ids(rest) ensures x in Ids(gs) {
      var i :| 0 <= i < |rest| && rest[i].id == x;
      assert gs[if i < p then i else i + 1] == rest[i];
    }
    assert gs[p].id == g.id;
    forall i | 0 <= i < |rest| ensures rest[i].id != g.id {
      assert rest[i].id in Ids(rest);
    }
  }

  lemma NoGroups()
    ensures Ids([]) == {} && Ordered([])
  {}

  lemma GroupId(t: Tables, q: Query, id: int)
    requires id in t.brawlers
    ensures GroupOf(t, q, id).id == id
  {}

  lemma {:induction false} ListExists(t: Tables, q: Query, ids: set<int>) returns (gs: seq<Group>)
    requires ids <= t.brawlers.Keys
    ensures Lists(t, q, ids, gs)
    decreases |ids|
  {
    hide GroupOf, MayPrecede, Ids, Ordered, PlaceFor;
    if ids == {} {
      gs := [];
      NoGroups();
    } else {
      var id := Pick(ids);
      var rest := ListExists(t, q, ids - {id});
      ListsInsert(t, q, ids - {id}, rest, id);
      gs := Insert(rest, PlaceFor(GroupOf(t, q, id), rest), GroupOf(t, q, id));
      assert ids == (ids - {id}) + {id};
    }
  }

  lemma AnswerExists(t: Tables, q: Query)
    ensures exists gs :: IsAnswer(t, q, gs)
  {
    var gs := ListExists(t, q, Qualified(t, q));
    assert IsAnswer(t, q, gs);
  }
}
