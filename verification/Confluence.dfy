/** IngestBattle is not a transaction: it can stop after any statement, be retried, and run at the
    same time as other ingestions of the same battle.  All of that leaves what one run leaves. */
module Confluence {
  import opened Collections
  import opened Fingerprint
  import opened Ingestion

  // --------------------------------------------------------- statements that were carried out stay so

  /** Repeating the statement changes nothing. */
  predicate Settled(t: Tables, w: Write) {
    Apply(t, w) == Some(t)
  }

  /** Statements never disagree about a team's result, the only value that is overwritten. */
  ghost predicate Consistent(ws: seq<Write>) {
    forall i, j :: 0 <= i < |ws| && 0 <= j < |ws| ==> Compatible(ws[i], ws[j])
  }

  predicate Compatible(w: Write, v: Write) {
    w.PutTeam? && v.PutTeam? && w.fp == v.fp && w.team == v.team ==> w.result == v.result
  }

  /** What a settled statement has left in the tables. */
  lemma SettledMeans(t: Tables, w: Write)
    ensures Settled(t, w) <==>
      match w
      case PutEvent(e) => e in t.events
      case PutBattle(fp, _) => fp in t.battles
      case PutTeam(fp, i, result) => fp in t.battles && (fp, i) in t.teams && t.teams[(fp, i)] == result
      case PutBrawler(id, _) => id in t.brawlers
      case PutParticipant(fp, tag, _) => (fp, tag) in t.participants
      case Discover(_) => true
  {
    match w
    case PutEvent(e) =>
      assert e in t.events + {e};
      assert e in t.events ==> t.events + {e} == t.events;
    case PutBattle(fp, row) => assert fp in t.battles[fp := row];
    case PutTeam(fp, i, result) =>
      assert t.teams[(fp, i) := result][(fp, i)] == result;
      assert (fp, i) in t.teams && t.teams[(fp, i)] == result ==> t.teams[(fp, i) := result] == t.teams;
    case PutBrawler(id, name) => assert id in t.brawlers[id := BrawlerRow(PlaceholderName(id, name), false)];
    case PutParticipant(fp, tag, row) => assert (fp, tag) in t.participants[(fp, tag) := row];
    case Discover(_) =>
  }

  lemma JustSettled(t: Tables, w: Write)
    requires Apply(t, w).Some?
    ensures Settled(Apply(t, w).value, w)
  {
    SettledMeans(Apply(t, w).value, w);
  }

  lemma StaysSettled(t: Tables, w: Write, v: Write)
    requires Settled(t, w) && Compatible(w, v) && Apply(t, v).Some?
    ensures Settled(Apply(t, v).value, w)
  {
    SettledMeans(t, w);
    SettledMeans(Apply(t, v).value, w);
  }

  lemma {:induction false} ApplySnoc(t: Tables, ws: seq<Write>, w: Write)
    ensures ApplyAll(t, ws + [w])
            == var p := ApplyAll(t, ws);
               var next := Apply(p.tables, w);
               if !p.done then p else if next.None? then p.(done := false) else Progress(next.value, true)
    decreases |ws|
  {
    hide Apply;
    if ws == [] {
      assert ApplyAll(t, [w]) == match Apply(t, w) case None => Progress(t, false) case Some(t') => ApplyAll(t', []);
    } else {
      assert (ws + [w])[1..] == ws[1..] + [w];
      if Apply(t, ws[0]).Some? {
        ApplySnoc(Apply(t, ws[0]).value, ws[1..], w);
      }
    }
  }

  lemma {:induction false} AllSettled(t: Tables, ws: seq<Write>, p: nat)
    requires Consistent(ws) && ApplyAll(t, ws).done && p < |ws|
    ensures Settled(ApplyAll(t, ws).tables, ws[p])
    decreases |ws|
  {
    var before, w := ws[..|ws| - 1], ws[|ws| - 1];
    assert ws == before + [w];
    ApplySnoc(t, before, w);
    var t0 := ApplyAll(t, before).tables;
    if p < |before| {
      AllSettled(t, before, p);
      StaysSettled(t0, ws[p], w);
    } else {
      JustSettled(t0, w);
    }
  }

  // ------------------------------------------------------------------- many runs, statement by statement

  /** The shared tables, and how many statements each run has carried out. */
  datatype Session = Session(tables: Tables, pos: seq<nat>)

  function Zeros(n: nat): seq<nat> {
    seq(n, _ => 0)
  }

  /** Run i carries out its next statement; a finished run, or one whose statement violates a foreign
      key, does nothing.  A run that crashed is one that gets no more turns. */
  function Turn(logs: seq<seq<Write>>, s: Session, i: nat): Session {
    if i < |logs| && i < |s.pos| && s.pos[i] < |logs[i]| then
      match Apply(s.tables, logs[i][s.pos[i]])
      case None => s
      case Some(t) => Session(t, s.pos[i := s.pos[i] + 1])
    else s
  }

  function Interleave(logs: seq<seq<Write>>, t: Tables, turns: seq<nat>): (s: Session)
    ensures |s.pos| == |logs|
  {
    if turns == [] then Session(t, Zeros(|logs|))
    else Turn(logs, Interleave(logs, t, turns[..|turns| - 1]), turns[|turns| - 1])
  }

  predicate Furthest(pos: seq<nat>, m: nat) {
    (forall i :: 0 <= i < |pos| ==> pos[i] <= m) && (m == 0 || m in pos)
  }

  /** However the runs of one statement sequence interleave, they leave what a single run leaves
      after as many statements as the run that got furthest. */
  lemma {:induction false} InterleavingIsOneRun(logs: seq<seq<Write>>, ws: seq<Write>, t: Tables, turns: seq<nat>)
    returns (m: nat)
    requires Consistent(ws) && forall i :: 0 <= i < |logs| ==> logs[i] == ws
    ensures var s := Interleave(logs, t, turns);
            && |s.pos| == |logs| && Furthest(s.pos, m) && m <= |ws|
            && ApplyAll(t, ws[..m]) == Progress(s.tables, true)
    decreases |turns|
  {
    hide Apply;
    if turns == [] {
      m := 0;
    } else {
      m := InterleavingIsOneRun(logs, ws, t, turns[..|turns| - 1]);
      var s, i := Interleave(logs, t, turns[..|turns| - 1]), turns[|turns| - 1];
      if i < |logs| && s.pos[i] < |ws| && Apply(s.tables, ws[s.pos[i]]).Some? {
        var p := s.pos[i];
        if p < m {
          assert ws[..m][p] == ws[p];
          AllSettled(t, ws[..m], p);
          StillFurthest(s.pos, i, m);
        } else {
          assert ws[..m + 1] == ws[..m] + [ws[m]];
          ApplySnoc(t, ws[..m], ws[m]);
          m := m + 1;
          assert s.pos[i := m][i] == m;
        }
      }
    }
  }

  lemma StillFurthest(pos: seq<nat>, i: nat, m: nat)
    requires i < |pos| && Furthest(pos, m) && pos[i] < m
    ensures Furthest(pos[i := pos[i] + 1], m)
  {
    var k: nat :| k < |pos| && pos[k] == m;
    assert pos[i := pos[i] + 1][k] == m;
  }

  // ---------------------------------------------------------------------------------- one entry

  lemma {:induction false} MembersWriteNoTeam(e: BattleEntry, fp: string, i: nat, team: seq<Participant>, w: Write)
    requires w in MemberWrites(e, fp, i, team)
    ensures !w.PutTeam?
    decreases |team|
  {
    hide TeamRow;
    if team != [] && w !in PlayerWrites(fp, team[0], TeamRow(e, i, team[0])) {
      MembersWriteNoTeam(e, fp, i, team[1..], w);
    }
  }

  lemma {:induction false} FlatWriteNoTeam(fp: string, ps: seq<Participant>, w: Write)
    requires w in FlatWrites(fp, ps)
    ensures !w.PutTeam?
    decreases |ps|
  {
    hide FlatRow;
    if ps != [] && w !in PlayerWrites(fp, ps[0], FlatRow(ps[0])) {
      FlatWriteNoTeam(fp, ps[1..], w);
    }
  }

  lemma {:induction false} TeamWritesResolve(e: BattleEntry, fp: string, d: string, from: nat, w: Write)
    requires from <= |e.teams| && w in TeamWrites(e, fp, d, from) && w.PutTeam?
    ensures w.team < |e.teams| && w == PutTeam(fp, w.team, TeamResult(e.teams, e.result, d, w.team))
    decreases |e.teams| - from
  {
    hide TeamResult, MemberWrites;
    if from < |e.teams| {
      if w in MemberWrites(e, fp, from, e.teams[from]) {
        MembersWriteNoTeam(e, fp, from, e.teams[from], w);
      } else if w in TeamWrites(e, fp, d, from + 1) {
        TeamWritesResolve(e, fp, d, from + 1, w);
      }
    }
  }

  lemma WritesConsistent(e: BattleEntry, d: string)
    requires Ingestible(e)
    ensures Consistent(Writes(e, d))
  {
    hide TeamResult, MemberWrites, TeamWrites, FlatWrites, Preimage;
    var ws, fp := Writes(e, d), Preimage(KeyOf(e));
    forall i | 0 <= i < |ws| && ws[i].PutTeam?
      ensures ws[i] == PutTeam(fp, ws[i].team, TeamResult(e.teams, e.result, d, ws[i].team))
    {
      if |e.teams| > 0 {
        assert ws[i] in TeamWrites(e, fp, d, 0);
        TeamWritesResolve(e, fp, d, 0, ws[i]);
      } else {
        assert ws[i] in FlatWrites(fp, e.players);
        FlatWriteNoTeam(fp, e.players, ws[i]);
      }
    }
  }

  /** Any number of attempts at one entry, interleaved statement by statement and broken off anywhere:
      as soon as one of them completes, every table holds exactly what one undisturbed ingestion leaves. */
  lemma RetriesRepair(e: BattleEntry, d: string, attempts: nat, t: Tables, turns: seq<nat>)
    requires Ingestible(e)
    ensures var ws := Writes(e, d);
            var s := Interleave(seq(attempts, _ => ws), t, turns);
            |ws| in s.pos ==> ApplyAll(t, ws) == Progress(s.tables, true)
  {
    var ws := Writes(e, d);
    hide Writes;
    WritesConsistent(e, d);
    var m := InterleavingIsOneRun(seq(attempts, _ => ws), ws, t, turns);
    if |ws| in Interleave(seq(attempts, _ => ws), t, turns).pos {
      assert ws[..m] == ws;
    }
  }

  // ------------------------------------------------- the ingestor's runs are runs of these statements

  /** What the ingestor leaves, whichever statements the database refused, is a prefix's work; it
      reports success exactly when that prefix is the whole sequence. */
  lemma {:induction false} PerformIsPrefix(b: Budget, d: Desk, ws: seq<Write>, ok: nat -> bool, i: nat)
    returns (n: nat)
    ensures var w := Perform(b, d, ws, ok, i);
            && n <= |ws| && ApplyAll(d.tables, ws[..n]) == Progress(w.desk.tables, true)
            && (w.done <==> n == |ws|)
    decreases |ws|
  {
    hide Apply, Discovered;
    n := 0;
    if ws != [] {
      var w := ws[0];
      var next := if w.Discover? then if ok(i) then Discovered(b, d, w.tag) else d
                  else if ok(i) && Apply(d.tables, w).Some? then d.(tables := Apply(d.tables, w).value) else d;
      if w.Discover? || (ok(i) && Apply(d.tables, w).Some?) {
        DiscoverKeepsTables(b, d, w, ok(i));
        n := PerformIsPrefix(b, next, ws[1..], ok, i + 1);
        n := n + 1;
        assert ws[..n][1..] == ws[1..][..n - 1];
      }
    }
  }

  lemma DiscoverKeepsTables(b: Budget, d: Desk, w: Write, ok: bool)
    ensures w.Discover? ==> Apply(d.tables, w) == Some(d.tables) && Discovered(b, d, w.tag).tables == d.tables
  {}

  /** An ingestion that broke off anywhere, followed by a complete one of the same entry, leaves what
      the complete one alone would have left, and a second complete one leaves that as it is. */
  lemma RepairAfterFailure(e: BattleEntry, d: string, t: Tables, b: Budget, first: Desk, ok: nat -> bool,
                           again: Desk, ok': nat -> bool)
    requires Ingestible(e) && first.tables == t
    requires again.tables == Perform(b, first, Writes(e, d), ok, 0).desk.tables
    requires Perform(b, again, Writes(e, d), ok', 0).done
    ensures ApplyAll(t, Writes(e, d)) == Progress(Perform(b, again, Writes(e, d), ok', 0).desk.tables, true)
    ensures Perform(b, first, Writes(e, d), ok, 0).done ==>
              Perform(b, again, Writes(e, d), ok', 0).desk.tables == again.tables
  {
    var ws := Writes(e, d);
    WritesConsistent(e, d);
    hide Writes, Perform;
    var n := PerformIsPrefix(b, first, ws, ok, 0);
    var all := PerformIsPrefix(b, again, ws, ok', 0);
    assert ws[..|ws|] == ws;
    Replay(t, ws, n);
  }

  /** The statements already carried out change nothing the second time. */
  lemma Replay(t: Tables, ws: seq<Write>, n: nat)
    requires Consistent(ws) && n <= |ws| && ApplyAll(t, ws[..n]).done
    ensures ApplyAll(ApplyAll(t, ws[..n]).tables, ws) == ApplyAll(t, ws)
  {
    hide Apply;
    var t' := ApplyAll(t, ws[..n]).tables;
    forall p | 0 <= p < n ensures Settled(t', ws[..n][p]) {
      AllSettled(t, ws[..n], p);
    }
    Skip(t', ws, n);
    assert ws == ws[..n] + ws[n..];
    Splice(t, ws[..n], ws[n..]);
  }

  lemma {:induction false} Skip(t: Tables, ws: seq<Write>, n: nat)
    requires n <= |ws| && forall p :: 0 <= p < n ==> Settled(t, ws[p])
    ensures ApplyAll(t, ws) == ApplyAll(t, ws[n..])
    decreases n
  {
    hide Apply;
    if n > 0 {
      assert Settled(t, ws[0]);
      Skip(t, ws[1..], n - 1);
      assert ws[1..][n - 1..] == ws[n..];
    } else {
      assert ws[0..] == ws;
    }
  }

  lemma {:induction false} Splice(t: Tables, a: seq<Write>, b: seq<Write>)
    requires ApplyAll(t, a).done
    ensures ApplyAll(t, a + b) == ApplyAll(ApplyAll(t, a).tables, b)
    decreases |a|
  {
    hide Apply;
    if a == [] {
      assert a + b == b;
    } else {
      assert (a + b)[1..] == a[1..] + b;
      Splice(Apply(t, a[0]).value, a[1..], b);
    }
  }

  // ------------------------------------------------------------------------- other players' logs

  /** A battle row without what the first discoverer's perspective put there. */
  function Blank(row: BattleRow): BattleRow {
    row.(trophyChange := None, discoveredVia := "")
  }

  function Strip(t: Tables): Tables {
    t.(battles := map fp | fp in t.battles :: Blank(t.battles[fp]))
  }

  function StripWrite(w: Write): Write {
    if w.PutBattle? then PutBattle(w.fp, Blank(w.battle)) else w
  }

  function StripAll(ws: seq<Write>): seq<Write> {
    seq(|ws|, i requires 0 <= i < |ws| => StripWrite(ws[i]))
  }

  function StripLogs(logs: seq<seq<Write>>): seq<seq<Write>> {
    seq(|logs|, i requires 0 <= i < |logs| => StripAll(logs[i]))
  }

  lemma StripApply(t: Tables, w: Write)
    ensures Apply(Strip(t), StripWrite(w))
            == match Apply(t, w) case None => None case Some(t') => Some(Strip(t'))
  {
    if w.PutBattle? && w.fp !in t.battles {
      assert Strip(t).battles[w.fp := Blank(w.battle)] == Strip(Apply(t, w).value).battles;
    }
  }

  lemma {:induction false} StripInterleave(logs: seq<seq<Write>>, t: Tables, turns: seq<nat>)
    ensures var s := Interleave(logs, t, turns);
            Interleave(StripLogs(logs), Strip(t), turns) == Session(Strip(s.tables), s.pos) && |s.pos| == |logs|
    decreases |turns|
  {
    hide Apply, Strip, StripWrite;
    if turns != [] {
      StripInterleave(logs, t, turns[..|turns| - 1]);
      var s, i := Interleave(logs, t, turns[..|turns| - 1]), turns[|turns| - 1];
      if i < |logs| && s.pos[i] < |logs[i]| {
        StripApply(s.tables, logs[i][s.pos[i]]);
      }
    }
  }

  lemma {:induction false} StripApplyAll(t: Tables, ws: seq<Write>)
    ensures ApplyAll(Strip(t), StripAll(ws)) == Progress(Strip(ApplyAll(t, ws).tables), ApplyAll(t, ws).done)
    decreases |ws|
  {
    hide Apply, Strip, StripWrite;
    if ws != [] {
      StripApply(t, ws[0]);
      assert StripAll(ws)[1..] == StripAll(ws[1..]);
      if Apply(t, ws[0]).Some? {
        StripApplyAll(Apply(t, ws[0]).value, ws[1..]);
      }
    }
  }

  /** The log of d, who is on a team, tells the truth about a two-team battle whose first-listed team
      had the result `first`. */
  predicate Truthful(e: BattleEntry, d: string, first: string) {
    var own := TeamOf(e.teams, d, 0);
    own.Some? && e.result == if own == Some(0) then first else OppositeResult(first)
  }

  /** The entry is how the player d saw the two-team battle e0 in which team 0 had the result `home`:
      the logs agree on everything but the result and the player's trophy change. */
  predicate Sees(e0: BattleEntry, home: string, e: BattleEntry, d: string) {
    && |e0.teams| == 2
    && e == e0.(result := e.result, trophyChange := e.trophyChange)
    && Truthful(e, d, home)
  }

  /** Whoever's log it is, the two teams get the same results. */
  lemma PerspectiveResolves(e: BattleEntry, d: string, home: string, i: nat)
    requires |e.teams| == 2 && Truthful(e, d, home) && i < 2
    ensures TeamResult(e.teams, e.result, d, i) == if i == 0 then home else OppositeResult(home)
  {
    TeamOfInRange(e.teams, d, 0);
  }

  lemma {:induction false} TeamOfInRange(teams: seq<seq<Participant>>, d: string, from: nat)
    requires from <= |teams|
    ensures var own := TeamOf(teams, d, from); own.Some? ==> from <= own.value < |teams|
    decreases |teams| - from
  {
    if from < |teams| {
      TeamOfInRange(teams, d, from + 1);
    }
  }

  lemma {:induction false} MembersAgree(e: BattleEntry, e': BattleEntry, fp: string, i: nat, team: seq<Participant>)
    requires e.starPlayer == e'.starPlayer
    ensures MemberWrites(e, fp, i, team) == MemberWrites(e', fp, i, team)
    decreases |team|
  {
    if team != [] {
      MembersAgree(e, e', fp, i, team[1..]);
      assert TeamRow(e, i, team[0]) == TeamRow(e', i, team[0]);
    }
  }

  lemma {:induction false} TeamsAgree(e: BattleEntry, d: string, e': BattleEntry, d': string, fp: string, from: nat)
    requires e.teams == e'.teams && e.starPlayer == e'.starPlayer && from <= |e.teams|
    requires forall i: nat :: i < |e.teams| ==>
      TeamResult(e.teams, e.result, d, i) == TeamResult(e'.teams, e'.result, d', i)
    ensures TeamWrites(e, fp, d, from) == TeamWrites(e', fp, d', from)
    decreases |e.teams| - from
  {
    hide TeamResult, MemberWrites;
    if from < |e.teams| {
      MembersAgree(e, e', fp, from, e.teams[from]);
      TeamsAgree(e, d, e', d', fp, from + 1);
    }
  }

  lemma SameStatements(e0: BattleEntry, home: string, e: BattleEntry, d: string, e': BattleEntry, d': string)
    requires Sees(e0, home, e, d) && Sees(e0, home, e', d') && Ingestible(e0)
    ensures Ingestible(e) && Ingestible(e') && StripAll(Writes(e, d)) == StripAll(Writes(e', d'))
  {
    forall i: nat | i < 2
      ensures TeamResult(e.teams, e.result, d, i) == TeamResult(e'.teams, e'.result, d', i)
    {
      PerspectiveResolves(e, d, home, i);
      PerspectiveResolves(e', d', home, i);
    }
    hide TeamResult, MemberWrites, TeamWrites, Preimage, NormalizeTag, StripAll;
    assert AllTags(e) == AllTags(e0) && AllTags(e') == AllTags(e0);
    var fp := Preimage(KeyOf(e));
    TeamsAgree(e, d, e', d', fp, 0);
    StripHead(PutEvent((e.eventId, e.mode, e.mapName)), PutBattle(fp, BattleOf(e, d)), PutBattle(fp, BattleOf(e', d')),
              TeamWrites(e, fp, d, 0));
  }

  lemma StripHead(event: Write, battle: Write, battle': Write, rest: seq<Write>)
    requires StripWrite(battle) == StripWrite(battle')
    ensures StripAll([event, battle] + rest) == StripAll([event, battle'] + rest)
  {
    var a, b := [event, battle] + rest, [event, battle'] + rest;
    forall i | 0 <= i < |a| ensures StripAll(a)[i] == StripAll(b)[i] {
      assert i != 1 ==> a[i] == b[i];
    }
  }

  /** Logs of any number of participants of one battle, ingested in any order, interleaved statement
      by statement, some of them broken off: once one is complete, the events, teams, results,
      participants, brawlers and battles are those left by ingesting any single one of the logs. */
  lemma PerspectiveConfluence(e0: BattleEntry, home: string, es: seq<BattleEntry>, ds: seq<string>,
                              logs: seq<seq<Write>>, t: Tables, turns: seq<nat>, whole: nat, k: nat)
    requires Ingestible(e0) && |es| == |ds| == |logs|
    requires forall i :: 0 <= i < |es| ==>
      Sees(e0, home, es[i], ds[i]) && Ingestible(es[i]) && logs[i] == Writes(es[i], ds[i])
    requires whole < |logs| && k < |logs|
    ensures var s := Interleave(logs, t, turns);
            && |s.pos| == |logs|
            && (s.pos[whole] == |logs[whole]| ==>
                  ApplyAll(t, logs[k]).done && Strip(s.tables) == Strip(ApplyAll(t, logs[k]).tables))
  {
    var ws := StripAll(logs[k]);
    forall i | 0 <= i < |logs| ensures StripLogs(logs)[i] == ws {
      SameStatements(e0, home, es[i], ds[i], es[k], ds[k]);
    }
    WritesConsistent(es[k], ds[k]);
    hide Writes, Strip, Sees, Ingestible;
    StripConsistent(logs[k]);
    StripInterleave(logs, t, turns);
    var m := InterleavingIsOneRun(StripLogs(logs), ws, Strip(t), turns);
    StripApplyAll(t, logs[k]);
    var s := Interleave(logs, t, turns);
    if s.pos[whole] == |logs[whole]| {
      assert StripLogs(logs)[whole] == ws;
      assert m == |ws|;
      assert ws[..m] == ws;
    }
  }

  lemma StripConsistent(ws: seq<Write>)
    requires Consistent(ws)
    ensures Consistent(StripAll(ws))
  {
    forall i, j | 0 <= i < |ws| && 0 <= j < |ws| ensures Compatible(StripAll(ws)[i], StripAll(ws)[j]) {
      assert Compatible(ws[i], ws[j]);
    }
  }
}
