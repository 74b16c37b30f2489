/** When an ingestion completes, and what it has then written. */
module Completion {
  import opened Collections
  import opened Domain
  import opened Fingerprint
  import opened Ingestion
  import opened Confluence

  // ----------------------------------------------------------------- nothing is ever taken away

  /** Insert-or-ignore tables only grow; teams stay, though their results may be overwritten. */
  ghost predicate Grown(t: Tables, t': Tables) {
    && t.events <= t'.events
    && (forall fp :: fp in t.battles ==> fp in t'.battles && t'.battles[fp] == t.battles[fp])
    && (forall k :: k in t.teams ==> k in t'.teams)
    && (forall id :: id in t.brawlers ==> id in t'.brawlers && t'.brawlers[id] == t.brawlers[id])
    && (forall k :: k in t.participants ==> k in t'.participants && t'.participants[k] == t.participants[k])
  }

  lemma StepGrows(t: Tables, w: Write)
    requires Apply(t, w).Some?
    ensures Grown(t, Apply(t, w).value)
  {}

  lemma GrownTransitive(a: Tables, b: Tables, c: Tables)
    requires Grown(a, b) && Grown(b, c)
    ensures Grown(a, c)
  {
    assert a.events <= b.events <= c.events;
  }

  lemma {:induction false} Grows(t: Tables, ws: seq<Write>)
    ensures Grown(t, ApplyAll(t, ws).tables)
    decreases |ws|
  {
    if ws == [] || Apply(t, ws[0]).None? {
      GrownReflexive(t);
    } else {
      hide Apply, Grown;
      var t' := Apply(t, ws[0]).value;
      StepGrows(t, ws[0]);
      Grows(t', ws[1..]);
      GrownTransitive(t, t', ApplyAll(t', ws[1..]).tables);
    }
  }

  lemma GrownReflexive(t: Tables)
    ensures Grown(t, t)
  {}

  /** The battle a statement writes about, if any. */
  predicate About(w: Write, fp: string) {
    match w
    case PutBattle(fp', _) => fp' == fp
    case PutTeam(fp', _, _) => fp' == fp
    case PutParticipant(fp', _, _) => fp' == fp
    case _ => true
  }

  ghost predicate SameElsewhere(t: Tables, t': Tables, fp: string) {
    && (forall f | f != fp :: (f in t.battles <==> f in t'.battles) && (f in t.battles ==> t'.battles[f] == t.battles[f]))
    && (forall k: (string, nat) | k.0 != fp :: (k in t.teams <==> k in t'.teams) && (k in t.teams ==> t'.teams[k] == t.teams[k]))
    && (forall k: (string, string) | k.0 != fp ::
          (k in t.participants <==> k in t'.participants) && (k in t.participants ==> t'.participants[k] == t.participants[k]))
  }

  lemma {:induction false} OthersUntouched(t: Tables, ws: seq<Write>, fp: string)
    requires forall i :: 0 <= i < |ws| ==> About(ws[i], fp)
    ensures SameElsewhere(t, ApplyAll(t, ws).tables, fp)
    decreases |ws|
  {
    if ws != [] && Apply(t, ws[0]).Some? {
      assert About(ws[0], fp);
      var t' := Apply(t, ws[0]).value;
      assert SameElsewhere(t, t', fp);
      OthersUntouched(t', ws[1..], fp);
    }
  }

  lemma {:induction false} MembersAbout(e: BattleEntry, fp: string, i: nat, team: seq<Participant>, w: Write)
    requires w in MemberWrites(e, fp, i, team)
    ensures About(w, fp)
    decreases |team|
  {
    hide TeamRow;
    if team != [] && w !in PlayerWrites(fp, team[0], TeamRow(e, i, team[0])) {
      MembersAbout(e, fp, i, team[1..], w);
    }
  }

  lemma {:induction false} TeamsAbout(e: BattleEntry, fp: string, d: string, from: nat, w: Write)
    requires from <= |e.teams| && w in TeamWrites(e, fp, d, from)
    ensures About(w, fp)
    decreases |e.teams| - from
  {
    hide TeamResult, MemberWrites;
    if from < |e.teams| {
      if w in MemberWrites(e, fp, from, e.teams[from]) {
        MembersAbout(e, fp, from, e.teams[from], w);
      } else if w in TeamWrites(e, fp, d, from + 1) {
        TeamsAbout(e, fp, d, from + 1, w);
      }
    }
  }

  lemma {:induction false} FlatAbout(fp: string, ps: seq<Participant>, w: Write)
    requires w in FlatWrites(fp, ps)
    ensures About(w, fp)
    decreases |ps|
  {
    hide FlatRow;
    if ps != [] && w !in PlayerWrites(fp, ps[0], FlatRow(ps[0])) {
      FlatAbout(fp, ps[1..], w);
    }
  }

  lemma WritesAbout(e: BattleEntry, d: string)
    requires Ingestible(e)
    ensures forall i :: 0 <= i < |Writes(e, d)| ==> About(Writes(e, d)[i], Preimage(KeyOf(e)))
  {
    hide MemberWrites, TeamWrites, FlatWrites, Preimage;
    var ws, fp := Writes(e, d), Preimage(KeyOf(e));
    forall i | 0 <= i < |ws| ensures About(ws[i], fp) {
      if i >= 2 {
        if |e.teams| > 0 {
          assert ws[i] in TeamWrites(e, fp, d, 0);
          TeamsAbout(e, fp, d, 0, ws[i]);
        } else {
          assert ws[i] in FlatWrites(fp, e.players);
          FlatAbout(fp, e.players, ws[i]);
        }
      }
    }
  }

  // -------------------------------------------------------------- what a complete ingestion has written

  lemma {:induction false} TeamIsWritten(e: BattleEntry, fp: string, d: string, from: nat, i: nat)
    requires from <= i < |e.teams|
    ensures PutTeam(fp, i, TeamResult(e.teams, e.result, d, i)) in TeamWrites(e, fp, d, from)
    decreases |e.teams| - from
  {
    hide TeamResult, MemberWrites;
    if from < i {
      TeamIsWritten(e, fp, d, from + 1, i);
    }
  }

  lemma {:induction false} MemberIsWritten(e: BattleEntry, fp: string, i: nat, team: seq<Participant>, j: nat)
    requires j < |team|
    ensures PutParticipant(fp, NormalizeTag(team[j].tag), TeamRow(e, i, team[j])) in MemberWrites(e, fp, i, team)
    ensures Discover(NormalizeTag(team[j].tag)) in MemberWrites(e, fp, i, team)
    decreases |team|
  {
    hide TeamRow;
    if j > 0 {
      MemberIsWritten(e, fp, i, team[1..], j - 1);
    } else {
      var ws := PlayerWrites(fp, team[0], TeamRow(e, i, team[0]));
      assert ws[|ws| - 2] in ws && ws[|ws| - 1] in ws;
    }
  }

  lemma {:induction false} TeamMemberIsWritten(e: BattleEntry, fp: string, d: string, from: nat, i: nat, j: nat)
    requires from <= i < |e.teams| && j < |e.teams[i]|
    ensures PutParticipant(fp, NormalizeTag(e.teams[i][j].tag), TeamRow(e, i, e.teams[i][j])) in TeamWrites(e, fp, d, from)
    ensures Discover(NormalizeTag(e.teams[i][j].tag)) in TeamWrites(e, fp, d, from)
    decreases |e.teams| - from
  {
    hide TeamResult, MemberWrites, TeamRow;
    if from < i {
      TeamMemberIsWritten(e, fp, d, from + 1, i, j);
    } else {
      MemberIsWritten(e, fp, i, e.teams[i], j);
    }
  }

  lemma {:induction false} PlayerIsWritten(fp: string, ps: seq<Participant>, j: nat)
    requires j < |ps|
    ensures PutParticipant(fp, NormalizeTag(ps[j].tag), FlatRow(ps[j])) in FlatWrites(fp, ps)
    ensures Discover(NormalizeTag(ps[j].tag)) in FlatWrites(fp, ps)
    decreases |ps|
  {
    hide FlatRow;
    if j > 0 {
      PlayerIsWritten(fp, ps[1..], j - 1);
    } else {
      var ws := PlayerWrites(fp, ps[0], FlatRow(ps[0]));
      assert ws[|ws| - 2] in ws && ws[|ws| - 1] in ws;
    }
  }

  lemma SettledWrite(t: Tables, ws: seq<Write>, w: Write)
    requires Consistent(ws) && ApplyAll(t, ws).done && w in ws
    ensures Settled(ApplyAll(t, ws).tables, w)
  {
    var p: nat :| p < |ws| && ws[p] == w;
    AllSettled(t, ws, p);
  }

  /** A complete ingestion leaves the battle, every team with its resolved result, and a row for
      every participant on a team, or in a mode without teams for every player. */
  lemma CompleteIngestion(e: BattleEntry, d: string, t: Tables)
    requires Ingestible(e) && ApplyAll(t, Writes(e, d)).done
    ensures var t', fp := ApplyAll(t, Writes(e, d)).tables, Preimage(KeyOf(e));
            && fp in t'.battles && (e.eventId, e.mode, e.mapName) in t'.events
            && (forall i: nat :: i < |e.teams| ==>
                  (fp, i) in t'.teams && t'.teams[(fp, i)] == TeamResult(e.teams, e.result, d, i))
            && (forall i: nat, j: nat :: i < |e.teams| && j < |e.teams[i]| ==>
                  (fp, NormalizeTag(e.teams[i][j].tag)) in t'.participants)
            && (e.teams == [] ==> forall j :: 0 <= j < |e.players| ==>
                  (fp, NormalizeTag(e.players[j].tag)) in t'.participants)
  {
    hide TeamResult, MemberWrites, TeamWrites, FlatWrites, Preimage, ApplyAll, Apply, TeamRow, FlatRow, NormalizeTag;
    var ws, fp := Writes(e, d), Preimage(KeyOf(e));
    var t' := ApplyAll(t, ws).tables;
    WritesConsistent(e, d);
    SettledWrite(t, ws, ws[0]);
    SettledMeans(t', ws[0]);
    SettledWrite(t, ws, ws[1]);
    SettledMeans(t', ws[1]);
    forall i: nat | i < |e.teams|
      ensures (fp, i) in t'.teams && t'.teams[(fp, i)] == TeamResult(e.teams, e.result, d, i)
    {
      var w := PutTeam(fp, i, TeamResult(e.teams, e.result, d, i));
      TeamIsWritten(e, fp, d, 0, i);
      SettledWrite(t, ws, w);
      SettledMeans(t', w);
    }
    forall i: nat, j: nat | i < |e.teams| && j < |e.teams[i]|
      ensures (fp, NormalizeTag(e.teams[i][j].tag)) in t'.participants
    {
      var w := PutParticipant(fp, NormalizeTag(e.teams[i][j].tag), TeamRow(e, i, e.teams[i][j]));
      TeamMemberIsWritten(e, fp, d, 0, i, j);
      SettledWrite(t, ws, w);
      SettledMeans(t', w);
    }
    forall j: nat | e.teams == [] && j < |e.players|
      ensures (fp, NormalizeTag(e.players[j].tag)) in t'.participants
    {
      var w := PutParticipant(fp, NormalizeTag(e.players[j].tag), FlatRow(e.players[j]));
      PlayerIsWritten(fp, e.players, j);
      SettledWrite(t, ws, w);
      SettledMeans(t', w);
    }
  }

  // ------------------------------------------------------------------------- when it completes

  /** In team modes brawler id 0 is stored as it is, so it violates the brawler foreign key unless a
      brawler 0 exists or the participant already has a row. */
  predicate Attributable(t: Tables, fp: string, p: Participant) {
    p.brawlerId != 0 || 0 in t.brawlers || (fp, NormalizeTag(p.tag)) in t.participants
  }

  /** The tables once a participant's statements are carried out. */
  function AfterPlayer(t: Tables, fp: string, p: Participant, row: ParticipantRow): Tables {
    var key := (fp, NormalizeTag(p.tag));
    t.(brawlers := if p.brawlerId == 0 || p.brawlerId in t.brawlers then t.brawlers
                   else t.brawlers[p.brawlerId := BrawlerRow(PlaceholderName(p.brawlerId, p.brawlerName), false)],
       participants := if key in t.participants then t.participants else t.participants[key := row])
  }

  lemma PlayerRun(t: Tables, fp: string, p: Participant, row: ParticipantRow, rest: seq<Write>)
    requires fp in t.battles && row.brawlerId == Some(p.brawlerId)
    requires row.team.Some? && (fp, row.team.value) in t.teams
    ensures ApplyAll(t, PlayerWrites(fp, p, row) + rest)
            == if Attributable(t, fp, p) then ApplyAll(AfterPlayer(t, fp, p, row), rest) else Progress(t, false)
  {
    var tag := NormalizeTag(p.tag);
    hide NormalizeTag, Decimal, Apply;
    var all := PlayerWrites(fp, p, row) + rest;
    var make, put, seen := PutBrawler(p.brawlerId, p.brawlerName), PutParticipant(fp, tag, row), Discover(tag);
    PlayerStatements(t, fp, p, row);
    var t1 := if p.brawlerId == 0 then t else Apply(t, make).value;
    if p.brawlerId != 0 {
      assert all[0] == make && all[1..] == [put, seen] + rest;
    } else {
      assert all == [put, seen] + rest;
    }
    assert ApplyAll(t, all) == ApplyAll(t1, [put, seen] + rest);
    PutRun(t1, put, seen, rest);
  }

  lemma PutRun(t: Tables, put: Write, seen: Write, rest: seq<Write>)
    requires seen.Discover?
    ensures ApplyAll(t, [put, seen] + rest)
            == match Apply(t, put) case None => Progress(t, false) case Some(t') => ApplyAll(t', rest)
  {
    assert ([put, seen] + rest)[1..] == [seen] + rest;
    assert ([seen] + rest)[1..] == rest;
  }

  lemma PlayerStatements(t: Tables, fp: string, p: Participant, row: ParticipantRow)
    requires fp in t.battles && row.brawlerId == Some(p.brawlerId)
    requires row.team.Some? && (fp, row.team.value) in t.teams
    ensures var make, put := PutBrawler(p.brawlerId, p.brawlerName), PutParticipant(fp, NormalizeTag(p.tag), row);
            var t1 := if p.brawlerId == 0 then Some(t) else Apply(t, make);
            && t1.Some?
            && Apply(t1.value, put) == if Attributable(t, fp, p) then Some(AfterPlayer(t, fp, p, row)) else None
  {
    hide NormalizeTag, PlaceholderName;
  }

  function AfterMembers(t: Tables, e: BattleEntry, fp: string, i: nat, team: seq<Participant>): Tables
    decreases |team|
  {
    if team == [] then t
    else AfterMembers(AfterPlayer(t, fp, team[0], TeamRow(e, i, team[0])), e, fp, i, team[1..])
  }

  lemma PlayerGrows(t: Tables, fp: string, p: Participant, row: ParticipantRow)
    ensures var t' := AfterPlayer(t, fp, p, row);
            && Grown(t, t') && t'.battles == t.battles && t'.teams == t.teams
            && (0 in t'.brawlers <==> 0 in t.brawlers)
            && t'.participants.Keys == t.participants.Keys + {(fp, NormalizeTag(p.tag))}
  {
    hide NormalizeTag, PlaceholderName;
  }

  lemma {:induction false} MembersGrow(t: Tables, e: BattleEntry, fp: string, i: nat, team: seq<Participant>)
    ensures var t' := AfterMembers(t, e, fp, i, team);
            && Grown(t, t') && t'.battles == t.battles && t'.teams == t.teams
            && (0 in t'.brawlers <==> 0 in t.brawlers)
            && forall k :: k in t'.participants && k !in t.participants ==> k.0 == fp && OnTeam(team, k.1)
    decreases |team|
  {
    hide Grown, AfterPlayer, TeamRow, NormalizeTag;
    if team == [] {
      GrownReflexive(t);
    } else {
      var t1 := AfterPlayer(t, fp, team[0], TeamRow(e, i, team[0]));
      PlayerGrows(t, fp, team[0], TeamRow(e, i, team[0]));
      MembersGrow(t1, e, fp, i, team[1..]);
      var t' := AfterMembers(t1, e, fp, i, team[1..]);
      GrownTransitive(t, t1, t');
      forall k | k in t'.participants && k !in t.participants ensures k.0 == fp && OnTeam(team, k.1) {
        if k !in t1.participants {
          var j :| 0 <= j < |team[1..]| && NormalizeTag(team[1..][j].tag) == k.1;
          assert team[j + 1] == team[1..][j];
        } else {
          assert NormalizeTag(team[0].tag) == k.1;
        }
      }
    }
  }

  lemma AttributableGrows(t: Tables, t': Tables, fp: string, p: Participant)
    requires Grown(t, t') && Attributable(t, fp, p)
    ensures Attributable(t', fp, p)
  {}

  /** A team's statements go through when every member is attributable, and only then. */
  lemma {:induction false} MembersRun(t: Tables, e: BattleEntry, fp: string, i: nat, team: seq<Participant>, rest: seq<Write>)
    requires fp in t.battles && (fp, i) in t.teams
    ensures (forall j :: 0 <= j < |team| ==> Attributable(t, fp, team[j]))
              || ApplyAll(t, MemberWrites(e, fp, i, team) + rest).done ==>
              ApplyAll(t, MemberWrites(e, fp, i, team) + rest) == ApplyAll(AfterMembers(t, e, fp, i, team), rest)
    decreases |team|
  {
    hide Attributable, Apply, PlayerWrites, AfterPlayer;
    if team == [] {
      assert MemberWrites(e, fp, i, team) + rest == rest;
    } else {
      var p, row, later := team[0], TeamRow(e, i, team[0]), MemberWrites(e, fp, i, team[1..]) + rest;
      assert MemberWrites(e, fp, i, team) + rest == PlayerWrites(fp, p, row) + later;
      PlayerRun(t, fp, p, row, later);
      if Attributable(t, fp, p) {
        var t1 := AfterPlayer(t, fp, p, row);
        PlayerGrows(t, fp, p, row);
        forall j | 0 <= j < |team[1..]| && Attributable(t, fp, team[1..][j]) ensures Attributable(t1, fp, team[1..][j]) {
          AttributableGrows(t, t1, fp, team[1..][j]);
        }
        MembersRun(t1, e, fp, i, team[1..], rest);
      }
    }
  }

  /** No participant tag occurs twice in the entry's teams. */
  ghost predicate DistinctTags(teams: seq<seq<Participant>>) {
    forall i, j, k, l | 0 <= i < |teams| && 0 <= j < |teams[i]| && 0 <= k < |teams| && 0 <= l < |teams[k]| ::
      NormalizeTag(teams[i][j].tag) == NormalizeTag(teams[k][l].tag) ==> i == k && j == l
  }

  /** A member without a brawler stops his team's statements. */
  lemma {:induction false} MembersStop(t: Tables, e: BattleEntry, fp: string, i: nat, team: seq<Participant>, rest: seq<Write>, j: nat)
    requires fp in t.battles && (fp, i) in t.teams && j < |team|
    requires !Attributable(t, fp, team[j])
    requires forall k :: 0 <= k < j ==> NormalizeTag(team[k].tag) != NormalizeTag(team[j].tag)
    ensures !ApplyAll(t, MemberWrites(e, fp, i, team) + rest).done
    decreases |team|
  {
    hide Apply, PlayerWrites, AfterPlayer, NormalizeTag;
    var p, row, later := team[0], TeamRow(e, i, team[0]), MemberWrites(e, fp, i, team[1..]) + rest;
    assert MemberWrites(e, fp, i, team) + rest == PlayerWrites(fp, p, row) + later;
    PlayerRun(t, fp, p, row, later);
    if j > 0 && Attributable(t, fp, p) {
      PlayerGrows(t, fp, p, row);
      assert team[1..][j - 1] == team[j];
      MembersStop(AfterPlayer(t, fp, p, row), e, fp, i, team[1..], rest, j - 1);
    }
  }

  function AfterTeam(t: Tables, e: BattleEntry, fp: string, d: string, i: nat): Tables
    requires i < |e.teams|
  {
    AfterMembers(t.(teams := t.teams[(fp, i) := TeamResult(e.teams, e.result, d, i)]), e, fp, i, e.teams[i])
  }

  function AfterTeams(t: Tables, e: BattleEntry, fp: string, d: string, from: nat): Tables
    requires from <= |e.teams|
    decreases |e.teams| - from
  {
    if from == |e.teams| then t else AfterTeams(AfterTeam(t, e, fp, d, from), e, fp, d, from + 1)
  }

  lemma TeamGrows(t: Tables, e: BattleEntry, fp: string, d: string, i: nat)
    requires i < |e.teams|
    ensures var t' := AfterTeam(t, e, fp, d, i);
            && Grown(t, t') && t'.battles == t.battles && (0 in t'.brawlers <==> 0 in t.brawlers)
            && t'.teams == t.teams[(fp, i) := TeamResult(e.teams, e.result, d, i)]
            && forall k :: k in t'.participants && k !in t.participants ==> k.0 == fp && OnTeam(e.teams[i], k.1)
  {
    hide TeamResult, AfterMembers, OnTeam;
    var t1 := t.(teams := t.teams[(fp, i) := TeamResult(e.teams, e.result, d, i)]);
    assert Grown(t, t1);
    MembersGrow(t1, e, fp, i, e.teams[i]);
    GrownTransitive(t, t1, AfterMembers(t1, e, fp, i, e.teams[i]));
  }

  /** One team's statements, carried out or not. */
  lemma TeamRun(t: Tables, e: BattleEntry, fp: string, d: string, i: nat)
    requires fp in t.battles && i < |e.teams|
    ensures (forall j :: 0 <= j < |e.teams[i]| ==> Attributable(t, fp, e.teams[i][j]))
              || ApplyAll(t, TeamWrites(e, fp, d, i)).done ==>
              ApplyAll(t, TeamWrites(e, fp, d, i)) == ApplyAll(AfterTeam(t, e, fp, d, i), TeamWrites(e, fp, d, i + 1))
    ensures forall j: nat ::
      j < |e.teams[i]| && !Attributable(t, fp, e.teams[i][j])
      && (forall k :: 0 <= k < j ==> NormalizeTag(e.teams[i][k].tag) != NormalizeTag(e.teams[i][j].tag)) ==>
        !ApplyAll(t, TeamWrites(e, fp, d, i)).done
  {
    var ws, rest := TeamWrites(e, fp, d, i), TeamWrites(e, fp, d, i + 1);
    var members := MemberWrites(e, fp, i, e.teams[i]) + rest;
    TeamStep(e, fp, d, i);
    hide TeamResult, MemberWrites, TeamWrites, AfterMembers, NormalizeTag;
    var t1 := t.(teams := t.teams[(fp, i) := TeamResult(e.teams, e.result, d, i)]);
    assert ws[1..] == members;
    assert ApplyAll(t, ws) == ApplyAll(t1, members);
    MembersRun(t1, e, fp, i, e.teams[i], rest);
    assert forall j :: 0 <= j < |e.teams[i]| ==>
      (Attributable(t1, fp, e.teams[i][j]) <==> Attributable(t, fp, e.teams[i][j]));
    forall j: nat | j < |e.teams[i]| && !Attributable(t, fp, e.teams[i][j])
      && (forall k :: 0 <= k < j ==> NormalizeTag(e.teams[i][k].tag) != NormalizeTag(e.teams[i][j].tag))
      ensures !ApplyAll(t, ws).done
    {
      MembersStop(t1, e, fp, i, e.teams[i], rest, j);
    }
  }

  ghost predicate AllAttributable(t: Tables, fp: string, teams: seq<seq<Participant>>, from: nat) {
    forall i, j :: from <= i < |teams| && 0 <= j < |teams[i]| ==> Attributable(t, fp, teams[i][j])
  }

  lemma {:induction false} TeamsRun(t: Tables, e: BattleEntry, fp: string, d: string, from: nat)
    requires fp in t.battles && from <= |e.teams|
    ensures AllAttributable(t, fp, e.teams, from) || ApplyAll(t, TeamWrites(e, fp, d, from)).done ==>
              ApplyAll(t, TeamWrites(e, fp, d, from)) == Progress(AfterTeams(t, e, fp, d, from), true)
    decreases |e.teams| - from
  {
    hide Apply, AfterTeam, Attributable, TeamResult, MemberWrites, NormalizeTag;
    if from < |e.teams| {
      var t1 := AfterTeam(t, e, fp, d, from);
      TeamRun(t, e, fp, d, from);
      TeamGrows(t, e, fp, d, from);
      if AllAttributable(t, fp, e.teams, from) {
        forall i, j | from < i < |e.teams| && 0 <= j < |e.teams[i]| ensures Attributable(t1, fp, e.teams[i][j]) {
          AttributableGrows(t, t1, fp, e.teams[i][j]);
        }
      }
      TeamsRun(t1, e, fp, d, from + 1);
    }
  }

  lemma {:induction false} TeamsStop(t: Tables, e: BattleEntry, fp: string, d: string, from: nat, i: nat, j: nat)
    requires fp in t.battles && DistinctTags(e.teams)
    requires from <= i < |e.teams| && j < |e.teams[i]| && !Attributable(t, fp, e.teams[i][j])
    ensures !ApplyAll(t, TeamWrites(e, fp, d, from)).done
    decreases |e.teams| - from
  {
    hide Apply, AfterTeam, TeamResult, MemberWrites, NormalizeTag, TeamWrites;
    var p := e.teams[i][j];
    TeamRun(t, e, fp, d, from);
    if from < i && ApplyAll(t, TeamWrites(e, fp, d, from)).done {
      var t1 := AfterTeam(t, e, fp, d, from);
      TeamGrows(t, e, fp, d, from);
      assert !OnTeam(e.teams[from], NormalizeTag(p.tag));
      assert (fp, NormalizeTag(p.tag)) !in t1.participants;
      TeamsStop(t1, e, fp, d, from + 1, i, j);
    } else if from == i {
      forall k | 0 <= k < j ensures NormalizeTag(e.teams[i][k].tag) != NormalizeTag(p.tag) {}
    }
  }

  /** The tables right after the event and the battle row. */
  function AfterBattle(t: Tables, e: BattleEntry, d: string): Tables
    requires Ingestible(e)
  {
    var fp := Preimage(KeyOf(e));
    t.(events := t.events + {(e.eventId, e.mode, e.mapName)},
       battles := if fp in t.battles then t.battles else t.battles[fp := BattleOf(e, d)])
  }

  lemma BattleRun(e: BattleEntry, d: string, t: Tables)
    requires Ingestible(e)
    ensures var fp := Preimage(KeyOf(e));
            ApplyAll(t, Writes(e, d))
            == ApplyAll(AfterBattle(t, e, d), if |e.teams| > 0 then TeamWrites(e, fp, d, 0) else FlatWrites(fp, e.players))
  {
    var fp := Preimage(KeyOf(e));
    hide TeamWrites, FlatWrites, Preimage, BattleOf, ApplyAll;
    var body := if |e.teams| > 0 then TeamWrites(e, fp, d, 0) else FlatWrites(fp, e.players);
    var event, battle := PutEvent((e.eventId, e.mode, e.mapName)), PutBattle(fp, BattleOf(e, d));
    var t1 := t.(events := t.events + {event.event});
    assert Apply(t, event) == Some(t1);
    assert Apply(t1, battle) == Some(AfterBattle(t, e, d));
    TwoSteps(t, event, battle, body);
  }

  lemma TwoSteps(t: Tables, w: Write, v: Write, rest: seq<Write>)
    requires Apply(t, w).Some? && Apply(Apply(t, w).value, v).Some?
    ensures ApplyAll(t, [w, v] + rest) == ApplyAll(Apply(Apply(t, w).value, v).value, rest)
  {
    hide Apply;
    assert ([w, v] + rest)[1..] == [v] + rest;
    assert ([v] + rest)[1..] == rest;
  }

  lemma {:induction false} FlatRun(t: Tables, fp: string, ps: seq<Participant>)
    requires fp in t.battles
    ensures ApplyAll(t, FlatWrites(fp, ps)).done
    decreases |ps|
  {
    hide NormalizeTag, Apply, PlayerWrites, FlatRow, ApplyAll;
    if ps == [] {
      NothingToDo(t);
    } else {
      var t' := FlatPlayerRun(t, fp, ps[0], FlatWrites(fp, ps[1..]));
      FlatRun(t', fp, ps[1..]);
    }
  }

  lemma NothingToDo(t: Tables)
    ensures ApplyAll(t, []).done
  {}

  lemma FlatPlayerRun(t: Tables, fp: string, p: Participant, rest: seq<Write>) returns (t': Tables)
    requires fp in t.battles
    ensures fp in t'.battles && ApplyAll(t, PlayerWrites(fp, p, FlatRow(p)) + rest) == ApplyAll(t', rest)
  {
    hide NormalizeTag, Apply, FlatRow;
    var make, put, seen := PutBrawler(p.brawlerId, p.brawlerName), PutParticipant(fp, NormalizeTag(p.tag), FlatRow(p)),
                           Discover(NormalizeTag(p.tag));
    var all := PlayerWrites(fp, p, FlatRow(p)) + rest;
    FlatStatements(t, fp, p);
    var t1 := if p.brawlerId == 0 then t else Apply(t, make).value;
    if p.brawlerId != 0 {
      assert all[0] == make && all[1..] == [put, seen] + rest;
    } else {
      assert all == [put, seen] + rest;
    }
    assert ApplyAll(t, all) == ApplyAll(t1, [put, seen] + rest);
    PutRun(t1, put, seen, rest);
    t' := Apply(t1, put).value;
  }

  lemma FlatStatements(t: Tables, fp: string, p: Participant)
    requires fp in t.battles
    ensures var make, put := PutBrawler(p.brawlerId, p.brawlerName), PutParticipant(fp, NormalizeTag(p.tag), FlatRow(p));
            var t1 := if p.brawlerId == 0 then Some(t) else Apply(t, make);
            t1.Some? && Apply(t1.value, put).Some? && fp in Apply(t1.value, put).value.battles
  {
    hide NormalizeTag, PlaceholderName;
  }

  /** With a database that carries out every statement, an entry without teams is always ingested
      completely, and one with teams exactly when every member is attributable.  An entry with teams
      and a member whose brawler id is 0 therefore fails, after writing the rows before that member,
      as long as there is no brawler 0 and no other log has stored a row for him. */
  lemma CompletesIff(e: BattleEntry, d: string, t: Tables)
    requires Ingestible(e) && DistinctTags(e.teams)
    ensures ApplyAll(t, Writes(e, d)).done <==> AllAttributable(t, Preimage(KeyOf(e)), e.teams, 0)
  {
    var fp := Preimage(KeyOf(e));
    var t0 := AfterBattle(t, e, d);
    BattleRun(e, d, t);
    hide TeamWrites, FlatWrites, Preimage, Apply, Writes, NormalizeTag;
    if |e.teams| == 0 {
      FlatRun(t0, fp, e.players);
    } else {
      forall i, j | 0 <= i < |e.teams| && 0 <= j < |e.teams[i]|
        ensures Attributable(t0, fp, e.teams[i][j]) <==> Attributable(t, fp, e.teams[i][j]) {}
      if AllAttributable(t, fp, e.teams, 0) {
        TeamsRun(t0, e, fp, d, 0);
      } else {
        var i: nat, j: nat :| i < |e.teams| && j < |e.teams[i]| && !Attributable(t, fp, e.teams[i][j]);
        TeamsStop(t0, e, fp, d, 0, i, j);
      }
    }
  }

  // ------------------------------------------------------------------------ what the rows contain

  lemma {:induction false} RowFromWrite(t: Tables, ws: seq<Write>, k: (string, string)) returns (w: Write)
    requires k !in t.participants && k in ApplyAll(t, ws).tables.participants
    ensures w in ws && w == PutParticipant(k.0, k.1, ApplyAll(t, ws).tables.participants[k])
    decreases |ws|
  {
    var t' := Apply(t, ws[0]).value;
    if k in t'.participants {
      Grows(t', ws[1..]);
      w := ws[0];
    } else {
      w := RowFromWrite(t', ws[1..], k);
    }
  }

  lemma {:induction false} MemberRow(e: BattleEntry, fp: string, i: nat, team: seq<Participant>, w: Write) returns (j: nat)
    requires w in MemberWrites(e, fp, i, team) && w.PutParticipant?
    ensures j < |team| && w == PutParticipant(fp, NormalizeTag(team[j].tag), TeamRow(e, i, team[j]))
    decreases |team|
  {
    hide TeamRow, NormalizeTag;
    if w in PlayerWrites(fp, team[0], TeamRow(e, i, team[0])) {
      j := 0;
    } else {
      j := MemberRow(e, fp, i, team[1..], w);
      j := j + 1;
    }
  }

  lemma {:induction false} TeamMemberRow(e: BattleEntry, fp: string, d: string, from: nat, w: Write) returns (i: nat, j: nat)
    requires from <= |e.teams| && w in TeamWrites(e, fp, d, from) && w.PutParticipant?
    ensures i < |e.teams| && j < |e.teams[i]|
    ensures w == PutParticipant(fp, NormalizeTag(e.teams[i][j].tag), TeamRow(e, i, e.teams[i][j]))
    decreases |e.teams| - from
  {
    hide TeamRow, NormalizeTag, TeamResult, MemberWrites;
    if w in MemberWrites(e, fp, from, e.teams[from]) {
      i := from;
      j := MemberRow(e, fp, from, e.teams[from], w);
    } else {
      i, j := TeamMemberRow(e, fp, d, from + 1, w);
    }
  }

  lemma {:induction false} PlayerRow(fp: string, ps: seq<Participant>, w: Write) returns (j: nat)
    requires w in FlatWrites(fp, ps) && w.PutParticipant?
    ensures j < |ps| && w == PutParticipant(fp, NormalizeTag(ps[j].tag), FlatRow(ps[j]))
    decreases |ps|
  {
    hide FlatRow, NormalizeTag;
    if w in PlayerWrites(fp, ps[0], FlatRow(ps[0])) {
      j := 0;
    } else {
      j := PlayerRow(fp, ps[1..], w);
      j := j + 1;
    }
  }

  /** What a first complete ingestion stores about a team member: his own data, his team, whether he
      is the star player, and the bucket of his brawler's trophies. */
  lemma StoredMember(e: BattleEntry, d: string, t: Tables, i: nat, j: nat)
    requires Ingestible(e) && DistinctTags(e.teams) && ApplyAll(t, Writes(e, d)).done
    requires i < |e.teams| && j < |e.teams[i]|
    requires (Preimage(KeyOf(e)), NormalizeTag(e.teams[i][j].tag)) !in t.participants
    ensures var p, k := e.teams[i][j], (Preimage(KeyOf(e)), NormalizeTag(e.teams[i][j].tag));
            var t' := ApplyAll(t, Writes(e, d)).tables;
            && k in t'.participants
            && var row := t'.participants[k];
            && row.team == Some(i) && row.name == p.name
            && row.brawlerId == Some(p.brawlerId) && row.power == Some(p.power) && row.trophies == Some(p.trophies)
            && (row.isStarPlayer <==> e.starPlayer.Some? && NormalizeTag(e.starPlayer.value) == k.1)
            && row.bucket == Some(BucketForTrophies(p.trophies))
  {
    hide NormalizeTag, Preimage, ApplyAll, TeamWrites, AllTags, BucketForTrophies;
    var fp, ws := Preimage(KeyOf(e)), Writes(e, d);
    CompleteIngestion(e, d, t);
    var w := RowFromWrite(t, ws, (fp, NormalizeTag(e.teams[i][j].tag)));
    assert w in TeamWrites(e, fp, d, 0);
    var i', j' := TeamMemberRow(e, fp, d, 0, w);
    assert i' == i && j' == j;
  }

  /** In modes without teams there is neither a team nor a star player, and the sentinel brawler 0
      leaves every brawler column empty. */
  lemma StoredPlayer(e: BattleEntry, d: string, t: Tables, j: nat)
    requires Ingestible(e) && e.teams == [] && DistinctTags([e.players]) && ApplyAll(t, Writes(e, d)).done
    requires j < |e.players| && (Preimage(KeyOf(e)), NormalizeTag(e.players[j].tag)) !in t.participants
    ensures var p, k := e.players[j], (Preimage(KeyOf(e)), NormalizeTag(e.players[j].tag));
            var t' := ApplyAll(t, Writes(e, d)).tables;
            && k in t'.participants
            && var row := t'.participants[k];
            && row.team.None? && row.name == p.name && !row.isStarPlayer
            && (p.brawlerId == 0 ==> row.brawlerId.None? && row.power.None? && row.trophies.None? && row.bucket.None?)
            && (p.brawlerId != 0 ==> row.brawlerId == Some(p.brawlerId) && row.power == Some(p.power)
                                     && row.trophies == Some(p.trophies) && row.bucket == Some(BucketForTrophies(p.trophies)))
  {
    hide NormalizeTag, Preimage, ApplyAll, FlatWrites, AllTags, BucketForTrophies;
    var fp, ws := Preimage(KeyOf(e)), Writes(e, d);
    CompleteIngestion(e, d, t);
    var w := RowFromWrite(t, ws, (fp, NormalizeTag(e.players[j].tag)));
    assert w in FlatWrites(fp, e.players);
    var j' := PlayerRow(fp, e.players, w);
    assert [e.players][0][j'] == e.players[j'] && [e.players][0][j] == e.players[j];
    assert j' == j;
  }

  /** A new battle is stored as its first discoverer saw it; an unknown duration is no duration. */
  lemma StoredBattle(e: BattleEntry, d: string, t: Tables)
    requires Ingestible(e) && Preimage(KeyOf(e)) !in t.battles
    ensures var battles, fp := ApplyAll(t, Writes(e, d)).tables.battles, Preimage(KeyOf(e));
            && fp in battles
            && var row := battles[fp];
            && row.time == e.time.value && row.event == (e.eventId, e.mode, e.mapName)
            && row.mode == e.mode && row.mapName == e.mapName && row.battleType == e.battleType
            && (row.duration.None? <==> e.duration == 0) && (e.duration != 0 ==> row.duration == Some(e.duration))
            && (row.starPlayer.Some? <==> e.starPlayer.Some?)
            && (e.starPlayer.Some? ==> row.starPlayer.value == NormalizeTag(e.starPlayer.value))
            && row.trophyChange == e.trophyChange && row.discoveredVia == d
  {
    var fp, t1 := Preimage(KeyOf(e)), AfterBattle(t, e, d);
    BattleRun(e, d, t);
    hide Preimage, Writes, TeamWrites, FlatWrites, NormalizeTag, ApplyAll;
    Grows(t1, if |e.teams| > 0 then TeamWrites(e, fp, d, 0) else FlatWrites(fp, e.players));
  }

  /** A brawler that was missing is stored as a retired placeholder, under its own name or, without one,
      under its number; one that exists is left alone. */
  lemma StoredBrawler(e: BattleEntry, d: string, t: Tables, id: int)
    requires Ingestible(e) && id in ApplyAll(t, Writes(e, d)).tables.brawlers
    ensures var after := ApplyAll(t, Writes(e, d)).tables.brawlers;
            if id in t.brawlers then after[id] == t.brawlers[id]
            else && !after[id].isActive
                 && exists p :: p in e.players + Flatten(e.teams) && p.brawlerId == id && id != 0
                                && after[id].name == if p.brawlerName != "" then p.brawlerName else "BRAWLER_" + Decimal(id)
  {
    hide Preimage, TeamWrites, FlatWrites, AllTags, BattleOf, ApplyAll, Decimal;
    var ws, fp := Writes(e, d), Preimage(KeyOf(e));
    Grows(t, ws);
    if id !in t.brawlers {
      var w := BrawlerFromWrite(t, ws, id);
      if |e.teams| > 0 {
        assert w in TeamWrites(e, fp, d, 0);
        var p := TeamBrawler(e, fp, d, 0, w);
        assert e.teams[0..] == e.teams;
      } else {
        assert w in FlatWrites(fp, e.players);
        var p := FlatBrawler(fp, e.players, w);
      }
    }
  }

  lemma {:induction false} BrawlerFromWrite(t: Tables, ws: seq<Write>, id: int) returns (w: Write)
    requires id !in t.brawlers && id in ApplyAll(t, ws).tables.brawlers
    ensures w in ws && w.PutBrawler? && w.id == id
    ensures ApplyAll(t, ws).tables.brawlers[id] == BrawlerRow(if w.name == "" then "BRAWLER_" + Decimal(id) else w.name, false)
    decreases |ws|
  {
    var t' := Apply(t, ws[0]).value;
    if id in t'.brawlers {
      Grows(t', ws[1..]);
      w := ws[0];
    } else {
      w := BrawlerFromWrite(t', ws[1..], id);
    }
  }

  lemma {:induction false} MemberBrawler(e: BattleEntry, fp: string, i: nat, team: seq<Participant>, w: Write) returns (p: Participant)
    requires w in MemberWrites(e, fp, i, team) && w.PutBrawler?
    ensures p in team && w == PutBrawler(p.brawlerId, p.brawlerName) && p.brawlerId != 0
    decreases |team|
  {
    hide TeamRow, NormalizeTag;
    if w in PlayerWrites(fp, team[0], TeamRow(e, i, team[0])) {
      p := team[0];
    } else {
      p := MemberBrawler(e, fp, i, team[1..], w);
    }
  }

  lemma {:induction false} TeamBrawler(e: BattleEntry, fp: string, d: string, from: nat, w: Write) returns (p: Participant)
    requires from <= |e.teams| && w in TeamWrites(e, fp, d, from) && w.PutBrawler?
    ensures p in Flatten(e.teams[from..]) && w == PutBrawler(p.brawlerId, p.brawlerName) && p.brawlerId != 0
    decreases |e.teams| - from
  {
    hide TeamResult, MemberWrites;
    assert e.teams[from..][1..] == e.teams[from + 1..];
    if w in MemberWrites(e, fp, from, e.teams[from]) {
      p := MemberBrawler(e, fp, from, e.teams[from], w);
    } else {
      p := TeamBrawler(e, fp, d, from + 1, w);
    }
  }

  lemma {:induction false} FlatBrawler(fp: string, ps: seq<Participant>, w: Write) returns (p: Participant)
    requires w in FlatWrites(fp, ps) && w.PutBrawler?
    ensures p in ps && w == PutBrawler(p.brawlerId, p.brawlerName) && p.brawlerId != 0
    decreases |ps|
  {
    hide FlatRow, NormalizeTag;
    if w in PlayerWrites(fp, ps[0], FlatRow(ps[0])) {
      p := ps[0];
    } else {
      p := FlatBrawler(fp, ps[1..], w);
    }
  }

  // --------------------------------------------------------------------- why team order must agree

  lemma NormalizedConcat(a: seq<string>, b: seq<string>)
    ensures Normalized(a + b) == Normalized(a) + Normalized(b)
  {
    hide NormalizeTag;
  }

  lemma SwappedTags(a: seq<string>, b: seq<string>, c: seq<string>)
    ensures Sorted(Normalized(a + b + c)) == Sorted(Normalized(b + a + c))
  {
    hide NormalizeTag, Sorted, Normalized;
    NormalizedConcat(a + b, c);
    NormalizedConcat(a, b);
    NormalizedConcat(b + a, c);
    NormalizedConcat(b, a);
    SortedCanonical(Normalized(a + b + c), Normalized(b + a + c));
  }

  lemma SwappedKey(e: BattleEntry, e': BattleEntry)
    requires e.time.Some? && e'.time == e.time && e'.eventId == e.eventId && e'.players == e.players
    requires |e.teams| == 2 && e'.teams == [e.teams[1], e.teams[0]]
    ensures AllTags(e') != [] <==> AllTags(e) != []
    ensures Preimage(KeyOf(e')) == Preimage(KeyOf(e))
  {
    hide Tags, Flatten, Sorted, Normalized, Join, Decimal;
    var a, b, c := Tags(e.teams[0]), Tags(e.teams[1]), Tags(e.players);
    FlattenTwo(e.teams);
    FlattenTwo(e'.teams);
    TagsConcat(e.teams[0], e.teams[1]);
    TagsConcat(e.teams[1], e.teams[0]);
    assert AllTags(e) == a + b + c && AllTags(e') == b + a + c;
    SwappedTags(a, b, c);
  }

  lemma FlattenTwo(teams: seq<seq<Participant>>)
    requires |teams| == 2
    ensures Flatten(teams) == teams[0] + teams[1]
  {
    assert teams[1..] == [teams[1]] && teams[1..][1..] == [];
    assert Flatten(teams[1..]) == teams[1];
  }

  /** When every member already has a row, a later log of the battle is ingested completely. */
  lemma RepeatCompletes(t: Tables, e: BattleEntry, d: string)
    requires Ingestible(e) && e.teams != []
    requires forall i, j :: 0 <= i < |e.teams| && 0 <= j < |e.teams[i]| ==>
      (Preimage(KeyOf(e)), NormalizeTag(e.teams[i][j].tag)) in t.participants
    ensures ApplyAll(t, Writes(e, d)).done
  {
    var fp, t0 := Preimage(KeyOf(e)), AfterBattle(t, e, d);
    BattleRun(e, d, t);
    hide Preimage, TeamWrites, FlatWrites, Apply, Writes, NormalizeTag;
    forall i, j | 0 <= i < |e.teams| && 0 <= j < |e.teams[i]| ensures Attributable(t0, fp, e.teams[i][j]) {}
    TeamsRun(t0, e, fp, d, 0);
  }

  /** The fingerprint ignores the order of the teams, but team rows are keyed by it and overwritten.
      If a second player's log, from whichever team, lists the same two teams the other way round,
      then it is ingested completely, every participant keeps his team row, and that row's result is
      flipped: what is stored stays right exactly when the result was neither a victory nor a defeat. */
  lemma SwappedTeamOrder(e: BattleEntry, d: string, e': BattleEntry, d': string, home: string, t: Tables)
    requires Ingestible(e) && |e.teams| == 2
    requires e' == e.(teams := [e.teams[1], e.teams[0]], result := e'.result, trophyChange := e'.trophyChange)
    requires Truthful(e, d, home) && Truthful(e', d', OppositeResult(home))
    requires ApplyAll(t, Writes(e, d)).done
    ensures Ingestible(e') && Preimage(KeyOf(e')) == Preimage(KeyOf(e))
    ensures var fp, t1 := Preimage(KeyOf(e)), ApplyAll(t, Writes(e, d)).tables;
            var second := ApplyAll(t1, Writes(e', d'));
            && second.done
            && (forall k :: k in t1.participants ==> k in second.tables.participants
                                                     && second.tables.participants[k] == t1.participants[k])
            && (forall i: nat :: i < 2 ==> (fp, i) in t1.teams && (fp, i) in second.tables.teams)
            && t1.teams[(fp, 0)] == home && t1.teams[(fp, 1)] == OppositeResult(home)
            && second.tables.teams[(fp, 0)] == OppositeResult(home) && second.tables.teams[(fp, 1)] == home
            && ((forall i: nat :: i < 2 ==> second.tables.teams[(fp, i)] == t1.teams[(fp, i)])
                  <==> home != "victory" && home != "defeat")
  {
    SwappedKey(e, e');
    var fp, t1 := Preimage(KeyOf(e)), ApplyAll(t, Writes(e, d)).tables;
    CompleteIngestion(e, d, t);
    SwappedCompletes(e, e', d', t1);
    hide Preimage, Writes, ApplyAll, AllTags, TeamOf, TeamResult, Truthful, NormalizeTag;
    CompleteIngestion(e', d', t1);
    Grows(t1, Writes(e', d'));
    assert OppositeResult(home) == home <==> home != "victory" && home != "defeat";
    var t2 := ApplyAll(t1, Writes(e', d')).tables;
    forall i: nat | i < 2
      ensures t1.teams[(fp, i)] == if i == 0 then home else OppositeResult(home)
      ensures t2.teams[(fp, i)] == if i == 0 then OppositeResult(home) else home
    {
      PerspectiveResolves(e, d, home, i);
      PerspectiveResolves(e', d', OppositeResult(home), i);
    }
  }

  lemma SwappedCompletes(e: BattleEntry, e': BattleEntry, d': string, t1: Tables)
    requires Ingestible(e) && |e.teams| == 2 && Ingestible(e') && e'.teams == [e.teams[1], e.teams[0]]
    requires Preimage(KeyOf(e')) == Preimage(KeyOf(e))
    requires forall i, j :: 0 <= i < 2 && 0 <= j < |e.teams[i]| ==>
      (Preimage(KeyOf(e)), NormalizeTag(e.teams[i][j].tag)) in t1.participants
    ensures ApplyAll(t1, Writes(e', d')).done
  {
    hide Preimage, Writes, ApplyAll, NormalizeTag, AllTags;
    forall i, j | 0 <= i < 2 && 0 <= j < |e'.teams[i]|
      ensures (Preimage(KeyOf(e')), NormalizeTag(e'.teams[i][j].tag)) in t1.participants
    {
      assert e'.teams[i] == e.teams[1 - i];
    }
    RepeatCompletes(t1, e', d');
  }
}
