/** Databases whose battles come from two-team logs are zero-sum: attempts may interleave and break
    off as long as each battle's logs agree and one of them was ingested completely; without
    agreement, complete ingestions one after the other do as well. */
module FairPlay {
  import opened Collections
  import opened Fingerprint
  import opened Ingestion
  import opened Confluence
  import opened Completion
  import opened Analytics
  import opened AnalyticsLaws

  /** The log of a battle between two equally large teams of different players. */
  ghost predicate TwoTeams(e: BattleEntry) {
    |e.teams| == 2 && |e.teams[0]| == |e.teams[1]| && e.players == [] && DistinctTags(e.teams)
  }

  /** .. or of one without teams. */
  ghost predicate Playable(e: BattleEntry) {
    Ingestible(e) && WellFormed(KeyOf(e)) && (e.teams == [] || TwoTeams(e))
  }

  /** A database before its first battle, with any brawlers and events. */
  ghost predicate Seed(t: Tables) {
    Sound(t) && t.battles == map[] && t.teams == map[] && t.participants == map[]
  }

  /** The fingerprint under which an ingestible log is stored. */
  function FingerprintOf(e: BattleEntry): string {
    if Ingestible(e) then Preimage(KeyOf(e)) else ""
  }

  // ------------------------------------------------------------------------------- rows that fit

  predicate SitsAt(e: BattleEntry, k: RowKey, row: ParticipantRow, i: nat, j: nat) {
    && i < |e.teams| && j < |e.teams[i]| && k.1 == NormalizeTag(e.teams[i][j].tag)
    && row.team == Some(i) && row.brawlerId.Some?
  }

  /** The row is one the log writes: a player's without a team, or a member's on his own team. */
  ghost predicate Fits(e: BattleEntry, k: RowKey, row: ParticipantRow) {
    if e.teams == [] then row.team.None? else exists i: nat, j: nat :: SitsAt(e, k, row, i, j)
  }

  ghost predicate RowsFit(t: Tables, fp: string, e: BattleEntry) {
    forall k :: k in t.participants && k.0 == fp ==> Fits(e, k, t.participants[k])
  }

  ghost predicate AllStored(t: Tables, fp: string, e: BattleEntry) {
    forall i, j :: 0 <= i < |e.teams| && 0 <= j < |e.teams[i]| ==> (fp, NormalizeTag(e.teams[i][j].tag)) in t.participants
  }

  function Keys(fp: string, team: seq<Participant>): set<RowKey> {
    set j | 0 <= j < |team| :: (fp, NormalizeTag(team[j].tag))
  }

  lemma {:induction false} KeysSize(fp: string, team: seq<Participant>)
    requires forall j, k :: 0 <= j < k < |team| ==> NormalizeTag(team[j].tag) != NormalizeTag(team[k].tag)
    ensures |Keys(fp, team)| == |team|
    decreases |team|
  {
    hide NormalizeTag;
    if team != [] {
      var rest, key := team[..|team| - 1], (fp, NormalizeTag(team[|team| - 1].tag));
      KeysSize(fp, rest);
      forall k | k in Keys(fp, rest) ensures k in Keys(fp, team) && k != key {
        var j :| 0 <= j < |rest| && k == (fp, NormalizeTag(rest[j].tag));
        assert team[j] == rest[j];
      }
      forall k | k in Keys(fp, team) && k != key ensures k in Keys(fp, rest) {
        var j :| 0 <= j < |team| && k == (fp, NormalizeTag(team[j].tag));
        assert team[j] == rest[j];
      }
      assert Keys(fp, team) == Keys(fp, rest) + {key};
    }
  }

  lemma SideIsTeam(t: Tables, fp: string, e: BattleEntry, i: nat)
    requires TwoTeams(e) && RowsFit(t, fp, e) && AllStored(t, fp, e) && i < 2
    ensures Side(t, fp, i) == Keys(fp, e.teams[i]) && |Side(t, fp, i)| == |e.teams[i]|
  {
    hide NormalizeTag;
    forall k | k in Side(t, fp, i) ensures k in Keys(fp, e.teams[i]) {
      assert Fits(e, k, t.participants[k]);
      var a: nat, j: nat :| SitsAt(e, k, t.participants[k], a, j);
      assert k == (fp, NormalizeTag(e.teams[i][j].tag));
    }
    forall k | k in Keys(fp, e.teams[i]) ensures k in Side(t, fp, i) {
      var j :| 0 <= j < |e.teams[i]| && k == (fp, NormalizeTag(e.teams[i][j].tag));
      assert Fits(e, k, t.participants[k]);
      var a: nat, j': nat :| SitsAt(e, k, t.participants[k], a, j');
      assert a == i;
    }
    KeysSize(fp, e.teams[i]);
  }

  /** A battle with exactly a two-team log's rows, and opposite results, is two-sided. */
  lemma FittingIsTwoSided(t: Tables, fp: string, e: BattleEntry)
    requires TwoTeams(e) && RowsFit(t, fp, e) && AllStored(t, fp, e)
    requires (fp, 0) in t.teams && (fp, 1) in t.teams && t.teams[(fp, 1)] == OppositeResult(t.teams[(fp, 0)])
    ensures TwoSided(t, fp)
  {
    SideIsTeam(t, fp, e, 0);
    SideIsTeam(t, fp, e, 1);
    hide NormalizeTag, Side, DistinctTags;
    forall k | k in t.participants && k.0 == fp
      ensures t.participants[k].brawlerId.Some? && (t.participants[k].team == Some(0) || t.participants[k].team == Some(1))
    {
      assert Fits(e, k, t.participants[k]);
      var i: nat, j: nat :| SitsAt(e, k, t.participants[k], i, j);
    }
  }

  lemma FittingIsTeamless(t: Tables, fp: string, e: BattleEntry)
    requires e.teams == [] && RowsFit(t, fp, e)
    ensures Teamless(t, fp)
  {}

  lemma Opposites(e: BattleEntry, d: string)
    requires |e.teams| == 2
    ensures TeamResult(e.teams, e.result, d, 1) == OppositeResult(TeamResult(e.teams, e.result, d, 0))
  {
    TeamOfInRange(e.teams, d, 0);
  }

  /** What each statement of a log may write. */
  ghost predicate WriteFits(e: BattleEntry, d: string, fp: string, w: Write) {
    match w
    case PutTeam(f, i, result) => f == fp && i < |e.teams| && result == TeamResult(e.teams, e.result, d, i)
    case PutParticipant(f, tag, row) => f == fp && Fits(e, (fp, tag), row)
    case PutBattle(f, _) => f == fp
    case _ => true
  }

  lemma WritesFit(e: BattleEntry, d: string, w: Write)
    requires Ingestible(e) && w in Writes(e, d)
    ensures WriteFits(e, d, FingerprintOf(e), w)
  {
    hide NormalizeTag, Preimage, TeamWrites, FlatWrites, TeamResult, AllTags, TeamRow, FlatRow;
    var fp, ws := FingerprintOf(e), Writes(e, d);
    if w != ws[0] && w != ws[1] {
      if |e.teams| > 0 {
        assert w in TeamWrites(e, fp, d, 0);
        if w.PutTeam? {
          TeamWritesResolve(e, fp, d, 0, w);
        } else if w.PutParticipant? {
          var i, j := TeamMemberRow(e, fp, d, 0, w);
          MemberSits(e, (fp, w.tag), i, j);
        } else {
          TeamsAbout(e, fp, d, 0, w);
        }
      } else {
        assert w in FlatWrites(fp, e.players);
        FlatWriteNoTeam(fp, e.players, w);
        FlatAbout(fp, e.players, w);
        if w.PutParticipant? {
          var j := PlayerRow(fp, e.players, w);
          FlatHasNoTeam(e.players[j]);
        }
      }
    }
  }

  lemma MemberSits(e: BattleEntry, k: RowKey, i: nat, j: nat)
    requires i < |e.teams| && j < |e.teams[i]| && k.1 == NormalizeTag(e.teams[i][j].tag)
    ensures Fits(e, k, TeamRow(e, i, e.teams[i][j]))
  {
    assert SitsAt(e, k, TeamRow(e, i, e.teams[i][j]), i, j);
  }

  lemma FlatHasNoTeam(p: Participant)
    ensures FlatRow(p).team.None?
  {}

  // ------------------------------------------------- attempts that interleave and break off anywhere

  /** Two logs of one battle that list the same teams and give them the same results. */
  ghost predicate Agree(e: BattleEntry, d: string, e': BattleEntry, d': string) {
    && e.teams == e'.teams
    && forall i: nat :: i < |e.teams| ==> TeamResult(e.teams, e.result, d, i) == TeamResult(e'.teams, e'.result, d', i)
  }

  /** Truthful logs that list the teams in the same order agree. */
  lemma TruthfulLogsAgree(e0: BattleEntry, home: string, e: BattleEntry, d: string, e': BattleEntry, d': string)
    requires Sees(e0, home, e, d) && Sees(e0, home, e', d')
    ensures Agree(e, d, e', d')
  {
    forall i: nat | i < |e.teams| ensures TeamResult(e.teams, e.result, d, i) == TeamResult(e'.teams, e'.result, d', i) {
      PerspectiveResolves(e, d, home, i);
      PerspectiveResolves(e', d', home, i);
    }
  }

  ghost predicate LogsOf(es: seq<BattleEntry>, ds: seq<string>, logs: seq<seq<Write>>) {
    |es| == |ds| == |logs| && forall i :: 0 <= i < |es| ==> Playable(es[i]) && logs[i] == Writes(es[i], ds[i])
  }

  ghost predicate LogsAgree(es: seq<BattleEntry>, ds: seq<string>)
    requires |es| == |ds|
  {
    forall i, j :: 0 <= i < |es| && 0 <= j < |es| && FingerprintOf(es[i]) == FingerprintOf(es[j]) ==>
      Agree(es[i], ds[i], es[j], ds[j])
  }

  /** What is stored about the battle is what the log e of d writes. */
  ghost predicate AsLogged(t: Tables, e: BattleEntry, d: string) {
    && RowsFit(t, FingerprintOf(e), e)
    && forall k :: k in t.teams && k.0 == FingerprintOf(e) ==>
         k.1 < |e.teams| && t.teams[k] == TeamResult(e.teams, e.result, d, k.1)
  }

  lemma AgreeingWrite(t: Tables, e: BattleEntry, d: string, e': BattleEntry, d': string, w: Write)
    requires Ingestible(e) && Ingestible(e') && AsLogged(t, e, d) && Apply(t, w).Some?
    requires WriteFits(e', d', FingerprintOf(e'), w)
    requires FingerprintOf(e') == FingerprintOf(e) ==> Agree(e', d', e, d)
    ensures AsLogged(Apply(t, w).value, e, d)
  {
    hide Preimage, TeamResult, Ingestible;
    var t', fp := Apply(t, w).value, FingerprintOf(e);
    forall k | k in t'.participants && k.0 == fp ensures Fits(e, k, t'.participants[k]) {
      if k in t.participants {
        assert Fits(e, k, t.participants[k]);
        KeepsRow(t, w, k);
      } else {
        NewRow(t, w, k);
        SameFit(e', e, k, t'.participants[k]);
      }
    }
  }

  lemma KeepsRow(t: Tables, w: Write, k: RowKey)
    requires Apply(t, w).Some? && k in t.participants
    ensures k in Apply(t, w).value.participants && Apply(t, w).value.participants[k] == t.participants[k]
  {}

  lemma NewRow(t: Tables, w: Write, k: RowKey)
    requires Apply(t, w).Some? && k !in t.participants && k in Apply(t, w).value.participants
    ensures w == PutParticipant(k.0, k.1, Apply(t, w).value.participants[k])
  {}

  lemma SameFit(e: BattleEntry, e': BattleEntry, k: RowKey, row: ParticipantRow)
    requires e.teams == e'.teams && Fits(e, k, row)
    ensures Fits(e', k, row)
  {
    if e.teams != [] {
      var i: nat, j: nat :| SitsAt(e, k, row, i, j);
      assert SitsAt(e', k, row, i, j);
    }
  }

  /** The statement has been carried out, so its row is there for good. */
  predicate CarriedOut(t: Tables, w: Write) {
    match w
    case PutTeam(fp, i, _) => (fp, i) in t.teams
    case PutParticipant(fp, tag, _) => (fp, tag) in t.participants
    case _ => true
  }

  lemma CarriedOutStays(t: Tables, w: Write, v: Write)
    requires Apply(t, v).Some? && (CarriedOut(t, w) || v == w)
    ensures CarriedOut(Apply(t, v).value, w)
  {}

  /** Whatever interleaves with them, the logs of a battle leave what each of them writes. */
  lemma {:induction false} InterleavedAsLogged(es: seq<BattleEntry>, ds: seq<string>, logs: seq<seq<Write>>,
                                               seed: Tables, turns: seq<nat>, j: nat)
    requires Seed(seed) && LogsOf(es, ds, logs) && LogsAgree(es, ds) && j < |es|
    ensures var s := Interleave(logs, seed, turns);
            && |s.pos| == |logs| && Sound(s.tables) && AsLogged(s.tables, es[j], ds[j])
            && (forall i, p :: 0 <= i < |logs| && 0 <= p < s.pos[i] <= |logs[i]| ==> CarriedOut(s.tables, logs[i][p]))
            && (forall fp :: fp in s.tables.battles ==> exists i :: 0 <= i < |es| && FingerprintOf(es[i]) == fp)
    decreases |turns|
  {
    hide Apply, Ingestible, TwoTeams, WellFormed, Agree, Sound, AsLogged, CarriedOut, WriteFits, Writes, FingerprintOf;
    if turns == [] {
      SeedAsLogged(seed, es[j], ds[j]);
    } else {
      InterleavedAsLogged(es, ds, logs, seed, turns[..|turns| - 1], j);
      var s, i := Interleave(logs, seed, turns[..|turns| - 1]), turns[|turns| - 1];
      if i < |logs| && s.pos[i] < |logs[i]| && Apply(s.tables, logs[i][s.pos[i]]).Some? {
        var w := logs[i][s.pos[i]];
        assert w in logs[i];
        WritesFit(es[i], ds[i], w);
        StepSound(s.tables, w);
        AgreeingWrite(s.tables, es[j], ds[j], es[i], ds[i], w);
        forall a, p | 0 <= a < |logs| && 0 <= p < s.pos[a] + (if a == i then 1 else 0) <= |logs[a]|
          ensures CarriedOut(Apply(s.tables, w).value, logs[a][p])
        {
          CarriedOutStays(s.tables, logs[a][p], w);
        }
        NewBattle(s.tables, w, es[i], ds[i]);
      }
    }
  }

  lemma SeedAsLogged(t: Tables, e: BattleEntry, d: string)
    requires Seed(t) && Playable(e)
    ensures AsLogged(t, e, d) && Sound(t) && t.battles == map[]
  {}

  lemma NewBattle(t: Tables, w: Write, e: BattleEntry, d: string)
    requires Ingestible(e) && WriteFits(e, d, FingerprintOf(e), w) && Apply(t, w).Some?
    ensures forall fp :: fp in Apply(t, w).value.battles ==> fp in t.battles || fp == FingerprintOf(e)
  {}

  /** Every two-team battle that is stored has an attempt that ran to its end. */
  ghost predicate EachCompleted(es: seq<BattleEntry>, logs: seq<seq<Write>>, s: Session)
    requires |es| == |logs| == |s.pos|
  {
    forall i :: 0 <= i < |es| && es[i].teams != [] && FingerprintOf(es[i]) in s.tables.battles ==>
      exists j :: 0 <= j < |es| && FingerprintOf(es[j]) == FingerprintOf(es[i]) && s.pos[j] == |logs[j]|
  }

  lemma CompletedIsTwoSided(t: Tables, e: BattleEntry, d: string)
    requires Playable(e) && e.teams != [] && AsLogged(t, e, d)
    requires forall w :: w in Writes(e, d) ==> CarriedOut(t, w)
    ensures TwoSided(t, FingerprintOf(e))
  {
    hide Preimage, TeamResult, Writes, WellFormed, NormalizeTag, DistinctTags, TeamRow, RowsFit, Ingestible;
    var fp := FingerprintOf(e);
    forall i, j | 0 <= i < |e.teams| && 0 <= j < |e.teams[i]| ensures (fp, NormalizeTag(e.teams[i][j].tag)) in t.participants {
      var w := PutParticipant(fp, NormalizeTag(e.teams[i][j].tag), TeamRow(e, i, e.teams[i][j]));
      TeamMemberIsWritten(e, fp, d, 0, i, j);
      TeamWriteIsWrite(e, d, w);
    }
    forall i: nat | i < 2 ensures (fp, i) in t.teams {
      TeamIsWritten(e, fp, d, 0, i);
      TeamWriteIsWrite(e, d, PutTeam(fp, i, TeamResult(e.teams, e.result, d, i)));
    }
    Opposites(e, d);
    FittingIsTwoSided(t, fp, e);
  }

  lemma TeamWriteIsWrite(e: BattleEntry, d: string, w: Write)
    requires Ingestible(e) && |e.teams| > 0 && w in TeamWrites(e, FingerprintOf(e), d, 0)
    ensures w in Writes(e, d)
  {
    hide TeamWrites, Preimage;
  }

  /** The log of a completed attempt: what is stored is what it writes, all of it. */
  lemma CompletedAttempt(es: seq<BattleEntry>, ds: seq<string>, logs: seq<seq<Write>>, seed: Tables, turns: seq<nat>, j: nat)
    requires Seed(seed) && LogsOf(es, ds, logs) && LogsAgree(es, ds) && j < |es|
    requires Interleave(logs, seed, turns).pos[j] == |logs[j]|
    requires es[j].teams != []
    ensures TwoSided(Interleave(logs, seed, turns).tables, FingerprintOf(es[j]))
  {
    hide Interleave, TwoSided, CarriedOut, FingerprintOf, Writes, LogsAgree, AsLogged, Ingestible, WellFormed, TwoTeams, Sound;
    var t := Interleave(logs, seed, turns).tables;
    InterleavedAsLogged(es, ds, logs, seed, turns, j);
    forall w | w in Writes(es[j], ds[j]) ensures CarriedOut(t, w) {
      var p :| 0 <= p < |logs[j]| && logs[j][p] == w;
    }
    CompletedIsTwoSided(t, es[j], ds[j]);
  }

  lemma InterleavedBattle(es: seq<BattleEntry>, ds: seq<string>, logs: seq<seq<Write>>, seed: Tables, turns: seq<nat>, i: nat)
    requires Seed(seed) && LogsOf(es, ds, logs) && LogsAgree(es, ds)
    requires EachCompleted(es, logs, Interleave(logs, seed, turns))
    requires i < |es| && FingerprintOf(es[i]) in Interleave(logs, seed, turns).tables.battles
    ensures var t, fp := Interleave(logs, seed, turns).tables, FingerprintOf(es[i]); TwoSided(t, fp) || Teamless(t, fp)
  {
    hide Interleave, TwoSided, Teamless, FingerprintOf, Playable, LogsAgree, AsLogged, Seed;
    var s := Interleave(logs, seed, turns);
    if es[i].teams == [] {
      InterleavedAsLogged(es, ds, logs, seed, turns, i);
      LoggedRows(s.tables, es[i], ds[i]);
      FittingIsTeamless(s.tables, FingerprintOf(es[i]), es[i]);
    } else {
      var j: nat :| j < |es| && FingerprintOf(es[j]) == FingerprintOf(es[i]) && s.pos[j] == |logs[j]|;
      SameTeams(es, ds, i, j);
      CompletedAttempt(es, ds, logs, seed, turns, j);
    }
  }

  lemma LoggedRows(t: Tables, e: BattleEntry, d: string)
    requires AsLogged(t, e, d)
    ensures RowsFit(t, FingerprintOf(e), e)
  {}

  lemma SameTeams(es: seq<BattleEntry>, ds: seq<string>, i: nat, j: nat)
    requires |es| == |ds| && LogsAgree(es, ds)
    requires i < |es| && j < |es| && FingerprintOf(es[i]) == FingerprintOf(es[j])
    ensures es[i].teams == es[j].teams
  {
    assert Agree(es[i], ds[i], es[j], ds[j]);
  }

  lemma {:induction false} NoLogs(seed: Tables, turns: seq<nat>)
    requires Seed(seed)
    ensures Sound(Interleave([], seed, turns).tables) && Interleave([], seed, turns).tables.battles == map[]
    decreases |turns|
  {
    if turns != [] {
      NoLogs(seed, turns[..|turns| - 1]);
    }
  }

  /** Zero-sum analytics.  Start from any database before its first battle, ingest any number of logs,
      with and without teams, interleaved statement by statement and broken off anywhere.  If the logs
      of each battle agree on its teams and results, and one attempt at each stored two-team battle ran
      to its end, then every win rate query without bucket filter and threshold reports as many wins as
      losses, and slots that add up to its total. */
  lemma ZeroSumAnalytics(es: seq<BattleEntry>, ds: seq<string>, logs: seq<seq<Write>>, seed: Tables, turns: seq<nat>,
                         q: Query, gs: seq<Group>, rs: seq<Rate>)
    requires Seed(seed) && LogsOf(es, ds, logs) && LogsAgree(es, ds)
    requires EachCompleted(es, logs, Interleave(logs, seed, turns))
    requires var t := Interleave(logs, seed, turns).tables;
             q.minBattles <= 1 && q.bucket.None? && IsAnswer(t, q, gs) && RatesOf(t, q, gs, rs)
    ensures SumWins(rs) == SumLosses(rs) && SumSlots(rs) == |Slots(Interleave(logs, seed, turns).tables, q)|
  {
    hide Interleave, TwoSided, Teamless, IsAnswer, RatesOf, Slots, LogsAgree, Playable, Seed, EachCompleted, AsLogged, CarriedOut, FingerprintOf;
    var t := Interleave(logs, seed, turns).tables;
    if es == [] {
      assert logs == [];
      NoLogs(seed, turns);
    } else {
      InterleavedAsLogged(es, ds, logs, seed, turns, 0);
    }
    forall fp | fp in t.battles ensures TwoSided(t, fp) || Teamless(t, fp) {
      var i: nat :| i < |es| && FingerprintOf(es[i]) == fp;
      InterleavedBattle(es, ds, logs, seed, turns, i);
    }
    ZeroSum(t, q, gs, rs);
  }

  // ------------------------------------------- complete ingestions one after the other, agreeing or not

  datatype Ingested = Ingested(entry: BattleEntry, discoverer: string)

  /** The database after the ingestions, of which every one completed. */
  ghost predicate FilledBy(seed: Tables, t: Tables, h: seq<Ingested>)
    decreases |h|
  {
    if h == [] then t == seed && Seed(seed)
    else
      var last := h[|h| - 1];
      && Playable(last.entry)
      && exists before :: FilledBy(seed, before, h[..|h| - 1])
           && ApplyAll(before, Writes(last.entry, last.discoverer)) == Progress(t, true)
  }

  /** All players of the battle are stored. */
  ghost predicate FieldedBy(t: Tables, fp: string, key: BattleKey) {
    WellFormed(key) && Preimage(key) == fp && forall tag :: tag in Normalized(key.tags) ==> (fp, tag) in t.participants
  }

  ghost predicate Fielded(t: Tables, fp: string) {
    exists key :: FieldedBy(t, fp, key)
  }

  ghost predicate Balanced(t: Tables) {
    Sound(t) && forall fp :: fp in t.battles ==> (TwoSided(t, fp) || Teamless(t, fp)) && Fielded(t, fp)
  }

  /** The tags of a playable entry, in the order they are collected. */
  lemma TagsOf(e: BattleEntry)
    requires e.teams == [] || TwoTeams(e)
    ensures AllTags(e) == if e.teams == [] then Tags(e.players) else Tags(e.teams[0]) + Tags(e.teams[1])
  {
    if e.teams == [] {
      assert Tags(Flatten([])) == [];
    } else {
      FlattenTwo(e.teams);
      TagsConcat(e.teams[0], e.teams[1]);
      assert Tags(e.players) == [];
    }
  }

  lemma FromNormalized(tags: seq<string>, tag: string) returns (j: nat)
    requires tag in Normalized(tags)
    ensures j < |tags| && NormalizeTag(tags[j]) == tag
  {
    hide NormalizeTag;
    j :| 0 <= j < |Normalized(tags)| && Normalized(tags)[j] == tag;
  }

  lemma ToNormalized(tags: seq<string>, j: nat)
    requires j < |tags|
    ensures NormalizeTag(tags[j]) in Normalized(tags)
  {
    hide NormalizeTag;
    assert Normalized(tags)[j] == NormalizeTag(tags[j]);
  }

  /** Every participant a log writes is one of its key's tags, and the other way round. */
  lemma WrittenTag(e: BattleEntry, d: string, w: Write)
    requires Playable(e) && w in Writes(e, d) && w.PutParticipant?
    ensures w.tag in Normalized(AllTags(e))
  {
    hide NormalizeTag, Preimage, TeamWrites, FlatWrites, AllTags, TeamRow, FlatRow, WellFormed, DistinctTags, Normalized;
    var fp := FingerprintOf(e);
    if |e.teams| > 0 {
      assert w in TeamWrites(e, fp, d, 0);
      var i, j := TeamMemberRow(e, fp, d, 0, w);
      MemberTag(e, i, j);
    } else {
      assert w in FlatWrites(fp, e.players);
      var j := PlayerRow(fp, e.players, w);
      TagsOf(e);
      ToNormalized(AllTags(e), j);
    }
  }

  lemma MemberTag(e: BattleEntry, i: nat, j: nat)
    requires TwoTeams(e) && i < 2 && j < |e.teams[i]|
    ensures NormalizeTag(e.teams[i][j].tag) in Normalized(AllTags(e))
  {
    hide NormalizeTag, AllTags, DistinctTags, Normalized;
    TagsOf(e);
    ToNormalized(AllTags(e), if i == 0 then j else |e.teams[0]| + j);
  }

  lemma TagOnTeam(e: BattleEntry, tag: string) returns (i: nat, j: nat)
    requires TwoTeams(e) && tag in Normalized(AllTags(e))
    ensures i < 2 && j < |e.teams[i]| && NormalizeTag(e.teams[i][j].tag) == tag
  {
    TagsOf(e);
    hide NormalizeTag, AllTags, DistinctTags, Normalized;
    var p := FromNormalized(AllTags(e), tag);
    if p < |e.teams[0]| {
      i, j := 0, p;
    } else {
      i, j := 1, p - |e.teams[0]|;
    }
  }

  lemma TagOfPlayer(e: BattleEntry, tag: string) returns (j: nat)
    requires e.teams == [] && tag in Normalized(AllTags(e))
    ensures j < |e.players| && NormalizeTag(e.players[j].tag) == tag
  {
    hide NormalizeTag, AllTags, Normalized;
    TagsOf(e);
    j := FromNormalized(AllTags(e), tag);
  }

  lemma NowFielded(t: Tables, e: BattleEntry, d: string)
    requires Playable(e) && ApplyAll(t, Writes(e, d)).done
    ensures FieldedBy(ApplyAll(t, Writes(e, d)).tables, FingerprintOf(e), KeyOf(e))
  {
    hide NormalizeTag, Preimage, Writes, ApplyAll, AllTags, WellFormed, DistinctTags, Normalized, TeamResult;
    CompleteIngestion(e, d, t);
    var t', fp := ApplyAll(t, Writes(e, d)).tables, FingerprintOf(e);
    forall tag | tag in Normalized(AllTags(e)) ensures (fp, tag) in t'.participants {
      if e.teams == [] {
        var j := TagOfPlayer(e, tag);
      } else {
        var i, j := TagOnTeam(e, tag);
      }
    }
  }

  /** Once a battle is fielded, no log with its fingerprint adds a row. */
  lemma RepeatAddsNone(t: Tables, e: BattleEntry, d: string)
    requires Playable(e) && Fielded(t, FingerprintOf(e))
    ensures ApplyAll(t, Writes(e, d)).tables.participants == t.participants
  {
    hide NormalizeTag, Preimage, Writes, ApplyAll, AllTags, Normalized, WellFormed, TwoTeams;
    var ws, fp := Writes(e, d), FingerprintOf(e);
    var t' := ApplyAll(t, ws).tables;
    var key :| FieldedBy(t, fp, key);
    Grows(t, ws);
    forall k | k in t'.participants && k !in t.participants ensures false {
      var w := RowFromWrite(t, ws, k);
      WrittenTag(e, d, w);
      WritesFit(e, d, w);
      SameTags(key, KeyOf(e), w.tag);
    }
  }

  lemma SameTags(a: BattleKey, b: BattleKey, tag: string)
    requires WellFormed(a) && WellFormed(b) && Preimage(a) == Preimage(b)
    ensures tag in Normalized(a.tags) <==> tag in Normalized(b.tags)
  {
    PreimageExact(a, b);
    hide Normalized, Preimage, WellFormed;
    assert tag in multiset(Normalized(a.tags)) <==> tag in multiset(Normalized(b.tags));
  }

  lemma {:induction false} NoTeamStatements(t: Tables, ws: seq<Write>)
    requires forall i :: 0 <= i < |ws| ==> !ws[i].PutTeam?
    ensures ApplyAll(t, ws).tables.teams == t.teams
    decreases |ws|
  {
    if ws != [] && Apply(t, ws[0]).Some? {
      NoTeamStatements(Apply(t, ws[0]).value, ws[1..]);
    }
  }

  lemma RepeatedIngestion(t: Tables, e: BattleEntry, d: string)
    requires Playable(e) && ApplyAll(t, Writes(e, d)).done && Fielded(t, FingerprintOf(e))
    requires TwoSided(t, FingerprintOf(e)) || Teamless(t, FingerprintOf(e))
    ensures var t', fp := ApplyAll(t, Writes(e, d)).tables, FingerprintOf(e);
            && (Teamless(t, fp) ==> Teamless(t', fp)) && (TwoSided(t, fp) ==> TwoSided(t', fp))
  {
    var t', fp, ws := ApplyAll(t, Writes(e, d)).tables, FingerprintOf(e), Writes(e, d);
    RepeatAddsNone(t, e, d);
    CompleteIngestion(e, d, t);
    hide NormalizeTag, Preimage, ApplyAll, WellFormed, TeamResult, FlatWrites, DistinctTags, Fielded, AllTags;
    if TwoSided(t, fp) {
      if e.teams == [] {
        forall i | 0 <= i < |ws| ensures !ws[i].PutTeam? {
          if i >= 2 {
            assert ws[i] in FlatWrites(fp, e.players);
            FlatWriteNoTeam(fp, e.players, ws[i]);
          }
        }
        NoTeamStatements(t, ws);
      } else {
        Opposites(e, d);
      }
      StillTwoSided(t, t', fp);
    }
  }

  lemma StillTwoSided(t: Tables, t': Tables, fp: string)
    requires TwoSided(t, fp) && t'.participants == t.participants
    requires (fp, 0) in t'.teams && (fp, 1) in t'.teams && t'.teams[(fp, 1)] == OppositeResult(t'.teams[(fp, 0)])
    ensures TwoSided(t', fp)
  {
    assert Side(t', fp, 0) == Side(t, fp, 0) && Side(t', fp, 1) == Side(t, fp, 1);
  }

  /** A battle that was not stored before is two-sided or teamless afterwards. */
  lemma FirstIngestion(t: Tables, e: BattleEntry, d: string)
    requires Sound(t) && Playable(e) && ApplyAll(t, Writes(e, d)).done && FingerprintOf(e) !in t.battles
    ensures var t' := ApplyAll(t, Writes(e, d)).tables; TwoSided(t', FingerprintOf(e)) || Teamless(t', FingerprintOf(e))
  {
    var t', fp, ws := ApplyAll(t, Writes(e, d)).tables, FingerprintOf(e), Writes(e, d);
    CompleteIngestion(e, d, t);
    hide NormalizeTag, Preimage, ApplyAll, WellFormed, TeamResult, Writes, DistinctTags, AllTags, TwoSided, Teamless;
    forall k | k in t'.participants && k.0 == fp ensures Fits(e, k, t'.participants[k]) {
      assert k !in t.participants by {
        assert k in t.participants ==> References(t, k.0, t.participants[k]);
      }
      var w := RowFromWrite(t, ws, k);
      WritesFit(e, d, w);
    }
    if e.teams == [] {
      FittingIsTeamless(t', fp, e);
    } else {
      Opposites(e, d);
      FittingIsTwoSided(t', fp, e);
    }
  }

  lemma OthersStay(t: Tables, t': Tables, fp: string, other: string)
    requires SameElsewhere(t, t', fp) && other != fp
    ensures other in t'.battles ==> other in t.battles
    ensures TwoSided(t, other) ==> TwoSided(t', other)
    ensures Teamless(t, other) ==> Teamless(t', other)
  {
    forall k: RowKey | k.0 == other
      ensures (k in t.participants <==> k in t'.participants)
              && (k in t.participants ==> t'.participants[k] == t.participants[k])
    {}
    assert Side(t', other, 0) == Side(t, other, 0) && Side(t', other, 1) == Side(t, other, 1);
    if TwoSided(t, other) {
      assert (other, 0) in t'.teams && (other, 1) in t'.teams;
    }
  }

  lemma FieldedGrows(t: Tables, t': Tables, fp: string)
    requires Grown(t, t') && Fielded(t, fp)
    ensures Fielded(t', fp)
  {
    var key :| FieldedBy(t, fp, key);
    assert FieldedBy(t', fp, key);
  }

  lemma IngestionBalances(t: Tables, e: BattleEntry, d: string)
    requires Balanced(t) && Playable(e) && ApplyAll(t, Writes(e, d)).done
    ensures Balanced(ApplyAll(t, Writes(e, d)).tables)
  {
    var fp, ws := FingerprintOf(e), Writes(e, d);
    var t' := ApplyAll(t, ws).tables;
    if fp in t.battles {
      RepeatedIngestion(t, e, d);
    } else {
      FirstIngestion(t, e, d);
    }
    NowFielded(t, e, d);
    assert Fielded(t', fp);
    hide Preimage, Writes, ApplyAll, WellFormed, TwoSided, Teamless, TwoTeams, Sound, Fielded, SameElsewhere, Grown, About, Ingestible;
    RunSound(t, ws);
    WritesAbout(e, d);
    OthersUntouched(t, ws, fp);
    Grows(t, ws);
    forall f | f in t'.battles ensures (TwoSided(t', f) || Teamless(t', f)) && Fielded(t', f) {
      if f != fp {
        OthersStay(t, t', fp, f);
        FieldedGrows(t, t', f);
      }
    }
  }

  lemma {:induction false} FilledIsBalanced(seed: Tables, t: Tables, h: seq<Ingested>)
    requires FilledBy(seed, t, h)
    ensures Balanced(t)
    decreases |h|
  {
    hide Writes, ApplyAll, TwoSided, Teamless, Fielded, TwoTeams, WellFormed;
    if h != [] {
      var last := h[|h| - 1];
      var before :| FilledBy(seed, before, h[..|h| - 1])
        && ApplyAll(before, Writes(last.entry, last.discoverer)) == Progress(t, true);
      FilledIsBalanced(seed, before, h[..|h| - 1]);
      IngestionBalances(before, last.entry, last.discoverer);
    }
  }

  /** Logs that contradict each other about results or team order do no harm either, as long as every
      ingestion runs to its end before the next one starts. */
  lemma ZeroSumOneByOne(seed: Tables, t: Tables, h: seq<Ingested>, q: Query, gs: seq<Group>, rs: seq<Rate>)
    requires FilledBy(seed, t, h)
    requires q.minBattles <= 1 && q.bucket.None? && IsAnswer(t, q, gs) && RatesOf(t, q, gs, rs)
    ensures SumWins(rs) == SumLosses(rs) && SumSlots(rs) == |Slots(t, q)|
  {
    FilledIsBalanced(seed, t, h);
    hide TwoSided, Teamless, Fielded, IsAnswer, RatesOf, Slots, FilledBy;
    ZeroSum(t, q, gs, rs);
  }
}
