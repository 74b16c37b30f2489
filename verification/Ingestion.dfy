/** Battle ingestion: one log entry becomes a sequence of idempotent writes to tables keyed by
    their unique constraints.  The sequence is not a transaction, so it can stop anywhere.
    A battle is named by its fingerprint; its surrogate id is kept beside it. */
module Ingestion {
  import opened Collections
  import opened CrawlQueue
  import opened Domain
  import opened Fingerprint

  // ------------------------------------------------------------------------------ API entries

  datatype Participant = Participant(
    tag: string, name: string, brawlerId: int, brawlerName: string, power: int, trophies: int)

  /** One battle log entry.  `time` is the parsed and formatted timestamp, None if unparseable. */
  datatype BattleEntry = BattleEntry(
    time: Option<string>, eventId: int, mode: string, mapName: string, battleType: string,
    result: string, duration: int, trophyChange: Option<int>, starPlayer: Option<string>,
    teams: seq<seq<Participant>>, players: seq<Participant>)

  // ----------------------------------------------------------------------------------- tables

  type EventKey = (int, string, string)

  datatype BattleRow = BattleRow(
    time: string, event: EventKey, mode: string, mapName: string, battleType: string,
    duration: Option<int>, starPlayer: Option<string>, trophyChange: Option<int>, discoveredVia: string)

  datatype ParticipantRow = ParticipantRow(
    team: Option<nat>, name: string, brawlerId: Option<int>, power: Option<int>,
    trophies: Option<int>, isStarPlayer: bool, bucket: Option<int>)

  datatype BrawlerRow = BrawlerRow(name: string, isActive: bool)

  datatype Tables = Tables(
    events: set<EventKey>,
    battles: map<string, BattleRow>,
    teams: map<(string, nat), string>,
    participants: map<(string, string), ParticipantRow>,
    brawlers: map<int, BrawlerRow>)

  datatype Write =
    | PutEvent(event: EventKey)
    | PutBattle(fp: string, battle: BattleRow)
    | PutTeam(fp: string, team: nat, result: string)
    | PutBrawler(id: int, name: string)
    | PutParticipant(fp: string, tag: string, row: ParticipantRow)
    | Discover(tag: string)

  function PlaceholderName(id: int, name: string): string {
    if name == "" then "BRAWLER_" + Decimal(id) else name
  }

  /** The foreign keys of a participant row. */
  predicate References(t: Tables, fp: string, row: ParticipantRow) {
    && fp in t.battles
    && (row.team.Some? ==> (fp, row.team.value) in t.teams)
    && (row.brawlerId.Some? ==> row.brawlerId.value in t.brawlers)
  }

  /** One statement, None when it violates a foreign key.  Battles, brawlers and participants are
      inserted or left alone; a team's result is overwritten. */
  function Apply(t: Tables, w: Write): Option<Tables> {
    match w
    case PutEvent(e) => Some(t.(events := t.events + {e}))
    case PutBattle(fp, row) => Some(if fp in t.battles then t else t.(battles := t.battles[fp := row]))
    case PutTeam(fp, i, result) =>
      if fp in t.battles then Some(t.(teams := t.teams[(fp, i) := result])) else None
    case PutBrawler(id, name) =>
      Some(if id in t.brawlers then t
           else t.(brawlers := t.brawlers[id := BrawlerRow(PlaceholderName(id, name), false)]))
    case PutParticipant(fp, tag, row) =>
      if (fp, tag) in t.participants then Some(t)
      else if References(t, fp, row) then Some(t.(participants := t.participants[(fp, tag) := row]))
      else None
    case Discover(_) => Some(t)
  }

  datatype Progress = Progress(tables: Tables, done: bool)

  /** The statements in order, up to the first that fails. */
  function ApplyAll(t: Tables, ws: seq<Write>): Progress
    decreases |ws|
  {
    if ws == [] then Progress(t, true)
    else match Apply(t, ws[0])
      case None => Progress(t, false)
      case Some(t') => ApplyAll(t', ws[1..])
  }

  // ------------------------------------------------------------------ what an entry writes

  function OppositeResult(result: string): string {
    if result == "victory" then "defeat" else if result == "defeat" then "victory" else result
  }

  predicate OnTeam(team: seq<Participant>, tag: string) {
    exists i :: 0 <= i < |team| && NormalizeTag(team[i].tag) == tag
  }

  /** The first team, from index `from` on, that has the player on it. */
  function TeamOf(teams: seq<seq<Participant>>, tag: string, from: nat): Option<nat>
    requires from <= |teams|
    decreases |teams| - from
  {
    if from == |teams| then None
    else if OnTeam(teams[from], tag) then Some(from)
    else TeamOf(teams, tag, from + 1)
  }

  function TeamResult(teams: seq<seq<Participant>>, result: string, discoverer: string, i: nat): string {
    match TeamOf(teams, discoverer, 0)
    case None => ""
    case Some(own) => if i == own then result else OppositeResult(result)
  }

  function Flatten(teams: seq<seq<Participant>>): seq<Participant> {
    if teams == [] then [] else teams[0] + Flatten(teams[1..])
  }

  function Tags(ps: seq<Participant>): seq<string> {
    seq(|ps|, i requires 0 <= i < |ps| => ps[i].tag)
  }

  function AllTags(e: BattleEntry): seq<string> {
    Tags(Flatten(e.teams)) + Tags(e.players)
  }

  function KeyOf(e: BattleEntry): BattleKey
    requires e.time.Some?
  {
    BattleKey(e.time.value, e.eventId, AllTags(e))
  }

  function StarTag(e: BattleEntry): Option<string> {
    if e.starPlayer.Some? then Some(NormalizeTag(e.starPlayer.value)) else None
  }

  function TeamRow(e: BattleEntry, i: nat, p: Participant): ParticipantRow {
    ParticipantRow(Some(i), p.name, Some(p.brawlerId), Some(p.power), Some(p.trophies),
                   StarTag(e) == Some(NormalizeTag(p.tag)), Some(BucketForTrophies(p.trophies)))
  }

  function FlatRow(p: Participant): ParticipantRow {
    if p.brawlerId == 0 then ParticipantRow(None, p.name, None, None, None, false, None)
    else ParticipantRow(None, p.name, Some(p.brawlerId), Some(p.power), Some(p.trophies), false,
                        Some(BucketForTrophies(p.trophies)))
  }

  function PlayerWrites(fp: string, p: Participant, row: ParticipantRow): seq<Write> {
    (if p.brawlerId != 0 then [PutBrawler(p.brawlerId, p.brawlerName)] else [])
    + [PutParticipant(fp, NormalizeTag(p.tag), row), Discover(NormalizeTag(p.tag))]
  }

  function MemberWrites(e: BattleEntry, fp: string, i: nat, team: seq<Participant>): seq<Write> {
    if team == [] then []
    else PlayerWrites(fp, team[0], TeamRow(e, i, team[0])) + MemberWrites(e, fp, i, team[1..])
  }

  function TeamWrites(e: BattleEntry, fp: string, discoverer: string, from: nat): seq<Write>
    requires from <= |e.teams|
    decreases |e.teams| - from
  {
    if from == |e.teams| then []
    else [PutTeam(fp, from, TeamResult(e.teams, e.result, discoverer, from))]
         + MemberWrites(e, fp, from, e.teams[from])
         + TeamWrites(e, fp, discoverer, from + 1)
  }

  function FlatWrites(fp: string, ps: seq<Participant>): seq<Write> {
    if ps == [] then []
    else PlayerWrites(fp, ps[0], FlatRow(ps[0])) + FlatWrites(fp, ps[1..])
  }

  function NullableInt(n: int): Option<int> {
    if n == 0 then None else Some(n)
  }

  function BattleOf(e: BattleEntry, discoverer: string): BattleRow
    requires e.time.Some?
  {
    BattleRow(e.time.value, (e.eventId, e.mode, e.mapName), e.mode, e.mapName, e.battleType,
              NullableInt(e.duration), StarTag(e), e.trophyChange, discoverer)
  }

  /** Entries that fail before the first statement: unparseable time, or nobody took part. */
  predicate Ingestible(e: BattleEntry) {
    e.time.Some? && AllTags(e) != []
  }

  function Writes(e: BattleEntry, discoverer: string): seq<Write>
    requires Ingestible(e)
  {
    var fp := Preimage(KeyOf(e));
    [PutEvent((e.eventId, e.mode, e.mapName)), PutBattle(fp, BattleOf(e, discoverer))]
    + if |e.teams| > 0 then TeamWrites(e, fp, discoverer, 0) else FlatWrites(fp, e.players)
  }

  // ---------------------------------------------------------------- discovery and the whole desk

  /** The tables, the crawl queue's tags, and one ingestor's discovery count.  `found` lists the
      tags this ingestor has enqueued. */
  datatype Desk = Desk(tables: Tables, targets: set<string>, count: nat, found: seq<string>)

  datatype Budget = Budget(discoverer: string, max: int)

  function Discovered(b: Budget, d: Desk, tag: string): Desk {
    if tag == b.discoverer || (b.max > 0 && d.count >= b.max) || tag in d.targets then d
    else d.(targets := d.targets + {tag}, count := d.count + 1, found := d.found + [tag])
  }

  datatype Work = Work(desk: Desk, done: bool)

  /** The statements from number i on; ok(i) says whether the database carries statement i out.
      A failed discovery is only logged; any other failure ends the ingestion. */
  function Perform(b: Budget, d: Desk, ws: seq<Write>, ok: nat -> bool, i: nat): Work
    decreases |ws|
  {
    if ws == [] then Work(d, true)
    else if ws[0].Discover? then
      Perform(b, if ok(i) then Discovered(b, d, ws[0].tag) else d, ws[1..], ok, i + 1)
    else if !ok(i) then Work(d, false)
    else match Apply(d.tables, ws[0])
      case None => Work(d, false)
      case Some(t) => Perform(b, d.(tables := t), ws[1..], ok, i + 1)
  }

  lemma Finished(b: Budget, d: Desk, ok: nat -> bool, i: nat)
    ensures Perform(b, d, [], ok, i) == Work(d, true)
  {}

  lemma PerformStep(b: Budget, d: Desk, w: Write, rest: seq<Write>, ok: nat -> bool, i: nat)
    requires !w.Discover?
    ensures Perform(b, d, [w] + rest, ok, i)
            == var t := Apply(d.tables, w);
               if !ok(i) || t.None? then Work(d, false)
               else Perform(b, d.(tables := t.value), rest, ok, i + 1)
  {
    assert ([w] + rest)[1..] == rest;
  }

  lemma DiscoverStep(b: Budget, d: Desk, tag: string, rest: seq<Write>, ok: nat -> bool, i: nat)
    ensures Perform(b, d, [Discover(tag)] + rest, ok, i)
            == Perform(b, if ok(i) then Discovered(b, d, tag) else d, rest, ok, i + 1)
  {
    assert ([Discover(tag)] + rest)[1..] == rest;
  }

  lemma TeamStep(e: BattleEntry, fp: string, discoverer: string, i: nat)
    requires i <= |e.teams|
    ensures TeamWrites(e, fp, discoverer, i)
            == if i == |e.teams| then []
               else [PutTeam(fp, i, TeamResult(e.teams, e.result, discoverer, i))]
                    + (MemberWrites(e, fp, i, e.teams[i]) + TeamWrites(e, fp, discoverer, i + 1))
  {}

  lemma MemberStep(e: BattleEntry, fp: string, i: nat, team: seq<Participant>, j: nat, after: seq<Write>)
    requires j < |team|
    ensures MemberWrites(e, fp, i, team[j..]) + after
            == PlayerWrites(fp, team[j], TeamRow(e, i, team[j])) + (MemberWrites(e, fp, i, team[j + 1..]) + after)
  {
    hide PlayerWrites, TeamRow;
    assert team[j..][1..] == team[j + 1..];
  }

  lemma NoMembers(e: BattleEntry, fp: string, i: nat, team: seq<Participant>, after: seq<Write>)
    ensures MemberWrites(e, fp, i, team[|team|..]) + after == after
  {}

  lemma FlatStep(fp: string, players: seq<Participant>, j: nat)
    requires j <= |players|
    ensures FlatWrites(fp, players[j..])
            == if j == |players| then []
               else PlayerWrites(fp, players[j], FlatRow(players[j])) + FlatWrites(fp, players[j + 1..])
  {
    if j < |players| {
      assert players[j..][1..] == players[j + 1..];
    }
  }

  // -------------------------------------------------------------------------- the ingestor object

  method CollectParticipantTags(e: BattleEntry) returns (tags: seq<string>)
    ensures tags == AllTags(e)
  {
    tags := [];
    for i := 0 to |e.teams|
      invariant tags + Tags(Flatten(e.teams[i..])) == Tags(Flatten(e.teams))
    {
      var team := e.teams[i];
      ghost var before := tags;
      for j := 0 to |team|
        invariant tags == before + Tags(team[..j])
      {
        tags := tags + [team[j].tag];
        assert team[..j + 1] == team[..j] + [team[j]];
      }
      assert team[..|team|] == team;
      assert e.teams[i..][1..] == e.teams[i + 1..];
      TagsConcat(team, Flatten(e.teams[i + 1..]));
    }
    ghost var fromTeams := tags;
    for j := 0 to |e.players|
      invariant tags == fromTeams + Tags(e.players[..j])
    {
      tags := tags + [e.players[j].tag];
      assert e.players[..j + 1] == e.players[..j] + [e.players[j]];
    }
    assert e.players[..|e.players|] == e.players;
  }

  lemma TagsConcat(a: seq<Participant>, b: seq<Participant>)
    ensures Tags(a + b) == Tags(a) + Tags(b)
  {}

  method ResolveTeamResults(teams: seq<seq<Participant>>, discovererResult: string, discoverer: string)
    returns (results: map<nat, string>)
    ensures results == map i: nat | i < |teams| :: TeamResult(teams, discovererResult, discoverer, i)
  {
    var discovererTeam := -1;
    var i := 0;
    while i < |teams| && discovererTeam < 0
      invariant 0 <= i <= |teams|
      invariant discovererTeam < 0 ==> TeamOf(teams, discoverer, 0) == TeamOf(teams, discoverer, i)
      invariant discovererTeam >= 0 ==> TeamOf(teams, discoverer, 0) == Some(discovererTeam)
    {
      var team := teams[i];
      for j := 0 to |team|
        invariant discovererTeam < 0
        invariant forall k :: 0 <= k < j ==> NormalizeTag(team[k].tag) != discoverer
      {
        if NormalizeTag(team[j].tag) == discoverer {
          discovererTeam := i;
          break;
        }
      }
      i := i + 1;
    }
    results := map[];
    for k := 0 to |teams|
      invariant results == map i: nat | i < k :: TeamResult(teams, discovererResult, discoverer, i)
    {
      if discovererTeam < 0 {
        results := results[k := ""];
      } else if k == discovererTeam {
        results := results[k := discovererResult];
      } else {
        results := results[k := OppositeResult(discovererResult)];
      }
    }
  }

  datatype IngestResult = IngestResult(fingerprint: string, isNew: bool, newDiscoveries: seq<string>)

  class BattleIngestor {
    const budget: Budget
    const queue: CrawlTargets
    var tables: Tables
    var discoveriesThisCrawl: nat
    var found: seq<string>

    ghost function State(): Desk
      reads this, queue
    {
      Desk(tables, queue.rows.Keys, discoveriesThisCrawl, found)
    }

    constructor (tables: Tables, queue: CrawlTargets, budget: Budget)
      ensures State() == Desk(tables, queue.rows.Keys, 0, []) && this.queue == queue && this.budget == budget
    {
      this.tables, this.queue, this.budget := tables, queue, budget;
      discoveriesThisCrawl := 0;
      found := [];
    }

    /** One statement other than a discovery. */
    method Execute(w: Write, dbOk: bool) returns (ok: bool)
      requires !w.Discover?
      modifies this`tables
      ensures ok <==> dbOk && Apply(old(tables), w).Some?
      ensures tables == if ok then Apply(old(tables), w).value else old(tables)
    {
      ok := dbOk;
      if !ok {
        return;
      }
      match w {
        case PutEvent(event) =>
          tables := tables.(events := tables.events + {event});
        case PutBattle(fp, battle) =>
          if fp !in tables.battles {
            tables := tables.(battles := tables.battles[fp := battle]);
          }
        case PutTeam(fp, team, result) =>
          ok := fp in tables.battles;
          if ok {
            tables := tables.(teams := tables.teams[(fp, team) := result]);
          }
        case PutBrawler(id, name) =>
          if id !in tables.brawlers {
            tables := tables.(brawlers := tables.brawlers[id := BrawlerRow(PlaceholderName(id, name), false)]);
          }
        case PutParticipant(fp, tag, row) =>
          if (fp, tag) !in tables.participants {
            ok := References(tables, fp, row);
            if ok {
              tables := tables.(participants := tables.participants[(fp, tag) := row]);
            }
          }
      }
    }

    method DiscoverPlayer(tag: string, now: Time, dbOk: bool, discoveries: seq<string>) returns (r: seq<string>)
      modifies this, queue
      ensures State() == if dbOk then Discovered(budget, old(State()), tag) else old(State())
      ensures discoveries <= r && found == old(found) + r[|discoveries|..]
      ensures queue.rows == EnqueuedAll(old(queue.rows), r[|discoveries|..], now)
      ensures tables == old(tables)
      ensures if dbOk && tag != budget.discoverer && tag !in old(queue.rows)
                 && (budget.max <= 0 || old(discoveriesThisCrawl) < budget.max)
              then r == discoveries + [tag] && discoveriesThisCrawl == old(discoveriesThisCrawl) + 1
                   && tag in queue.rows && queue.rows[tag].priority == 5 && queue.rows[tag].nextCrawlAt == now
              else r == discoveries && queue.rows == old(queue.rows) && discoveriesThisCrawl == old(discoveriesThisCrawl)
    {
      r := discoveries;
      if tag == budget.discoverer {
        return;
      }
      if budget.max > 0 && discoveriesThisCrawl >= budget.max {
        return;
      }
      if !dbOk {
        return;
      }
      var inserted := queue.EnqueueDiscoveredPlayer(tag, now);
      if !inserted {
        return;
      }
      discoveriesThisCrawl := discoveriesThisCrawl + 1;
      found := found + [tag];
      r := discoveries + [tag];
    }

    /** The statements for one participant, number i onwards; `rest` is what the caller does next. */
    method WritePlayer(fp: string, p: Participant, row: ParticipantRow, now: Time, ok: nat -> bool, i: nat,
                       discoveries: seq<string>, ghost rest: seq<Write>)
      returns (done: bool, next: nat, r: seq<string>)
      modifies this, queue
      ensures done ==> Perform(budget, old(State()), PlayerWrites(fp, p, row) + rest, ok, i)
                       == Perform(budget, State(), rest, ok, next)
      ensures !done ==> Perform(budget, old(State()), PlayerWrites(fp, p, row) + rest, ok, i)
                        == Work(State(), false)
      ensures discoveries <= r && found == old(found) + r[|discoveries|..]
      ensures queue.rows == EnqueuedAll(old(queue.rows), r[|discoveries|..], now)
    {
      hide Perform, Apply, Discovered, NormalizeTag;
      next, r := i, discoveries;
      var tag := NormalizeTag(p.tag);
      ghost var put, seen := PutParticipant(fp, tag, row), Discover(tag);
      if p.brawlerId != 0 {
        ghost var make := PutBrawler(p.brawlerId, p.brawlerName);
        assert PlayerWrites(fp, p, row) + rest == [make] + ([put] + ([seen] + rest));
        PerformStep(budget, State(), make, [put] + ([seen] + rest), ok, next);
        done := Execute(PutBrawler(p.brawlerId, p.brawlerName), ok(next));
        if !done { return; }
        next := next + 1;
      } else {
        assert PlayerWrites(fp, p, row) + rest == [put] + ([seen] + rest);
      }
      PerformStep(budget, State(), put, [seen] + rest, ok, next);
      done := Execute(PutParticipant(fp, tag, row), ok(next));
      if !done { return; }
      next := next + 1;
      DiscoverStep(budget, State(), tag, rest, ok, next);
      r := DiscoverPlayer(tag, now, ok(next), discoveries);
      next := next + 1;
    }

    /** The statements for one team. */
    method WriteTeam(e: BattleEntry, fp: string, t: nat, result: string, now: Time, ok: nat -> bool, start: nat,
                     discoveries: seq<string>, ghost after: seq<Write>)
      returns (done: bool, i: nat, r: seq<string>)
      requires t < |e.teams|
      modifies this, queue
      ensures var all := Perform(budget, old(State()),
                                 [PutTeam(fp, t, result)] + (MemberWrites(e, fp, t, e.teams[t]) + after), ok, start);
              all == if done then Perform(budget, State(), after, ok, i) else Work(State(), false)
      ensures discoveries <= r && found == old(found) + r[|discoveries|..]
      ensures queue.rows == EnqueuedAll(old(queue.rows), r[|discoveries|..], now)
    {
      hide Perform, PlayerWrites, MemberWrites, TeamRow, NormalizeTag, Discovered, Apply;
      i, r := start, discoveries;
      var team := e.teams[t];
      ghost var all := Perform(budget, old(State()), [PutTeam(fp, t, result)] + (MemberWrites(e, fp, t, team) + after), ok, start);
      PerformStep(budget, State(), PutTeam(fp, t, result), MemberWrites(e, fp, t, team) + after, ok, i);
      done := Execute(PutTeam(fp, t, result), ok(i));
      if !done { return; }
      i := i + 1;
      assert team[0..] == team;
      for j := 0 to |team|
        invariant all == Perform(budget, State(), MemberWrites(e, fp, t, team[j..]) + after, ok, i)
        invariant discoveries <= r && found == old(found) + r[|discoveries|..]
        invariant queue.rows == EnqueuedAll(old(queue.rows), r[|discoveries|..], now)
      {
        var p := team[j];
        ghost var rest := MemberWrites(e, fp, t, team[j + 1..]) + after;
        MemberStep(e, fp, t, team, j, after);
        ghost var before := r;
        done, i, r := WritePlayer(fp, p, TeamRow(e, t, p), now, ok, i, r, rest);
        EnqueuedConcat(old(queue.rows), before[|discoveries|..], r[|before|..], now);
        assert r[|discoveries|..] == before[|discoveries|..] + r[|before|..];
        if !done { return; }
      }
      NoMembers(e, fp, t, team, after);
    }

    method WriteTeams(e: BattleEntry, fp: string, teamResults: map<nat, string>, now: Time,
                      ok: nat -> bool, start: nat)
      returns (done: bool, discoveries: seq<string>)
      requires teamResults == map i: nat | i < |e.teams| :: TeamResult(e.teams, e.result, budget.discoverer, i)
      modifies this, queue
      ensures Work(State(), done)
              == Perform(budget, old(State()), TeamWrites(e, fp, budget.discoverer, 0), ok, start)
      ensures found == old(found) + discoveries && queue.rows == EnqueuedAll(old(queue.rows), discoveries, now)
    {
      hide Perform, MemberWrites, TeamWrites, TeamResult;
      var i := start;
      discoveries := [];
      ghost var all := Perform(budget, old(State()), TeamWrites(e, fp, budget.discoverer, 0), ok, start);
      for t := 0 to |e.teams|
        invariant all == Perform(budget, State(), TeamWrites(e, fp, budget.discoverer, t), ok, i)
        invariant found == old(found) + discoveries && queue.rows == EnqueuedAll(old(queue.rows), discoveries, now)
      {
        TeamStep(e, fp, budget.discoverer, t);
        ghost var before := discoveries;
        done, i, discoveries := WriteTeam(e, fp, t, teamResults[t], now, ok, i, discoveries,
                                          TeamWrites(e, fp, budget.discoverer, t + 1));
        EnqueuedConcat(old(queue.rows), before, discoveries[|before|..], now);
        assert discoveries == before + discoveries[|before|..];
        if !done { return; }
      }
      TeamStep(e, fp, budget.discoverer, |e.teams|);
      Finished(budget, State(), ok, i);
      done := true;
    }

    method WritePlayers(players: seq<Participant>, fp: string, now: Time, ok: nat -> bool, start: nat)
      returns (done: bool, discoveries: seq<string>)
      modifies this, queue
      ensures Work(State(), done) == Perform(budget, old(State()), FlatWrites(fp, players), ok, start)
      ensures found == old(found) + discoveries && queue.rows == EnqueuedAll(old(queue.rows), discoveries, now)
    {
      hide Perform, PlayerWrites, FlatWrites, FlatRow, NormalizeTag, Discovered;
      var i := start;
      discoveries := [];
      ghost var all := Perform(budget, old(State()), FlatWrites(fp, players), ok, start);
      assert players[0..] == players;
      for j := 0 to |players|
        invariant all == Perform(budget, State(), FlatWrites(fp, players[j..]), ok, i)
        invariant found == old(found) + discoveries && queue.rows == EnqueuedAll(old(queue.rows), discoveries, now)
      {
        var p := players[j];
        ghost var rest := FlatWrites(fp, players[j + 1..]);
        FlatStep(fp, players, j);
        ghost var before := discoveries;
        done, i, discoveries := WritePlayer(fp, p, FlatRow(p), now, ok, i, discoveries, rest);
        EnqueuedConcat(old(queue.rows), before, discoveries[|before|..], now);
        assert discoveries == before + discoveries[|before|..];
        if !done { return; }
      }
      FlatStep(fp, players, |players|);
      Finished(budget, State(), ok, i);
      done := true;
    }

    /** ok(i) says whether the database carries out the i-th statement. */
    method IngestBattle(e: BattleEntry, now: Time, ok: nat -> bool) returns (r: Option<IngestResult>)
      modifies this, queue
      ensures !Ingestible(e) ==> r.None? && State() == old(State())
      ensures Ingestible(e) ==>
                Work(State(), r.Some?) == Perform(budget, old(State()), Writes(e, budget.discoverer), ok, 0)
      ensures r.Some? ==> && e.time.Some?
                          && r.value.fingerprint == Preimage(KeyOf(e))
                          && (r.value.isNew <==> Preimage(KeyOf(e)) !in old(tables.battles))
                          && found == old(found) + r.value.newDiscoveries
      ensures old(found) <= found && queue.rows == EnqueuedAll(old(queue.rows), found[|old(found)|..], now)
    {
      hide Perform, TeamWrites, FlatWrites, Preimage, BattleOf, TeamResult, Discovered;
      if e.time.None? {
        return None;
      }
      var allTags := CollectParticipantTags(e);
      if |allTags| == 0 {
        return None;
      }
      var fp := ComputeFingerprint(BattleKey(e.time.value, e.eventId, allTags));
      ghost var body := if |e.teams| > 0 then TeamWrites(e, fp, budget.discoverer, 0) else FlatWrites(fp, e.players);
      ghost var event, battle := PutEvent((e.eventId, e.mode, e.mapName)), PutBattle(fp, BattleOf(e, budget.discoverer));
      assert Writes(e, budget.discoverer) == [event] + ([battle] + body);
      PerformStep(budget, State(), event, [battle] + body, ok, 0);
      var done := Execute(PutEvent((e.eventId, e.mode, e.mapName)), ok(0));
      if !done { return None; }
      PerformStep(budget, State(), battle, body, ok, 1);
      var teamResults := ResolveTeamResults(e.teams, e.result, budget.discoverer);
      var isNew := fp !in tables.battles;
      done := Execute(PutBattle(fp, BattleOf(e, budget.discoverer)), ok(1));
      if !done { return None; }
      var discoveries: seq<string>;
      if |e.teams| > 0 {
        done, discoveries := WriteTeams(e, fp, teamResults, now, ok, 2);
      } else {
        done, discoveries := WritePlayers(e.players, fp, now, ok, 2);
      }
      if !done { return None; }
      r := Some(IngestResult(fp, isNew, discoveries));
    }
  }
}
