/** Logs that list a battle's two teams in different orders.  A broken-off battle is not always
    repaired by a later, complete log: rows keep the team numbers they were first stored with. */
module TeamOrder {
  import opened Collections
  import opened Fingerprint
  import opened Ingestion
  import opened Confluence
  import opened Completion
  import opened Analytics
  import opened AnalyticsLaws
  import opened FairPlay

  /** e' is a log of the same battle that lists the teams the other way round. */
  ghost predicate Swaps(e: BattleEntry, e': BattleEntry) {
    && Ingestible(e) && Ingestible(e') && TwoTeams(e) && e'.teams == [e.teams[1], e.teams[0]]
    && FingerprintOf(e') == FingerprintOf(e)
  }

  lemma SwapsDistinct(e: BattleEntry, e': BattleEntry)
    requires Swaps(e, e')
    ensures DistinctTags(e'.teams)
  {
    hide NormalizeTag, FingerprintOf, Ingestible;
    forall i, j, k, l | 0 <= i < 2 && 0 <= j < |e'.teams[i]| && 0 <= k < 2 && 0 <= l < |e'.teams[k]|
      && NormalizeTag(e'.teams[i][j].tag) == NormalizeTag(e'.teams[k][l].tag) ensures i == k && j == l
    {
      assert e'.teams[i] == e.teams[1 - i] && e'.teams[k] == e.teams[1 - k];
    }
  }

  // ------------------------------------------------------------------- rows by the team of their player

  lemma TeamKeys(fp: string, e: BattleEntry)
    requires TwoTeams(e)
    ensures |Keys(fp, e.teams[0])| == |Keys(fp, e.teams[1])| == |e.teams[0]|
    ensures Keys(fp, e.teams[0]) !! Keys(fp, e.teams[1])
  {
    hide NormalizeTag;
    KeysSize(fp, e.teams[0]);
    KeysSize(fp, e.teams[1]);
  }

  lemma FitsItsTeam(fp: string, e: BattleEntry, k: RowKey, row: ParticipantRow)
    requires |e.teams| == 2 && Fits(e, k, row) && k.0 == fp
    ensures row.brawlerId.Some?
    ensures (row.team == Some(0) && k in Keys(fp, e.teams[0])) || (row.team == Some(1) && k in Keys(fp, e.teams[1]))
  {
    hide NormalizeTag;
    var i: nat, j: nat :| SitsAt(e, k, row, i, j);
    assert k == (fp, NormalizeTag(e.teams[i][j].tag));
  }

  /** What a complete log adds about its battle. */
  lemma AddedRow(t: Tables, e: BattleEntry, d: string, k: RowKey)
    requires Ingestible(e) && k !in t.participants && k.0 == FingerprintOf(e)
    requires k in ApplyAll(t, Writes(e, d)).tables.participants
    ensures Fits(e, k, ApplyAll(t, Writes(e, d)).tables.participants[k])
  {
    hide FingerprintOf, Writes, ApplyAll, Fits;
    var w := RowFromWrite(t, Writes(e, d), k);
    WritesFit(e, d, w);
  }

  lemma PlayerStored(t: Tables, e: BattleEntry, d: string, i: nat, k: RowKey)
    requires Ingestible(e) && ApplyAll(t, Writes(e, d)).done && i < |e.teams| && k in Keys(FingerprintOf(e), e.teams[i])
    ensures k in ApplyAll(t, Writes(e, d)).tables.participants
  {
    CompleteIngestion(e, d, t);
    hide NormalizeTag, Writes, ApplyAll, TeamResult;
    var j: nat :| j < |e.teams[i]| && k == (FingerprintOf(e), NormalizeTag(e.teams[i][j].tag));
  }

  /** Stored rows stay on their teams, and the other players sit with the wrong ones. */
  lemma SidesAfterSwap(t: Tables, e: BattleEntry, e': BattleEntry, d': string, i: nat)
    requires Swaps(e, e') && RowsFit(t, FingerprintOf(e), e) && ApplyAll(t, Writes(e', d')).done && i < 2
    ensures var t', fp := ApplyAll(t, Writes(e', d')).tables, FingerprintOf(e);
            && Side(t', fp, i) == Side(t, fp, i) + (Keys(fp, e.teams[1 - i]) - Side(t, fp, 1 - i))
            && Side(t, fp, i) <= Keys(fp, e.teams[i])
  {
    var t', fp := ApplyAll(t, Writes(e', d')).tables, FingerprintOf(e);
    Grows(t, Writes(e', d'));
    hide ApplyAll, Writes, FingerprintOf, Fits, Keys, TwoTeams, Ingestible;
    forall k | k in t.participants && k.0 == fp ensures Fits(e, k, t.participants[k]) {}
    forall k ensures k in Side(t, fp, i) ==> k in Keys(fp, e.teams[i]) {
      if k in Side(t, fp, i) {
        FitsItsTeam(fp, e, k, t.participants[k]);
      }
    }
    forall k ensures k in Side(t', fp, i) <==> k in Side(t, fp, i) + (Keys(fp, e.teams[1 - i]) - Side(t, fp, 1 - i)) {
      RowAfterSwap(t, e, e', d', i, k);
    }
  }

  lemma RowAfterSwap(t: Tables, e: BattleEntry, e': BattleEntry, d': string, i: nat, k: RowKey)
    requires Swaps(e, e') && RowsFit(t, FingerprintOf(e), e) && ApplyAll(t, Writes(e', d')).done && i < 2
    ensures var t', fp := ApplyAll(t, Writes(e', d')).tables, FingerprintOf(e);
            k in Side(t', fp, i) <==> k in Side(t, fp, i) || (k in Keys(fp, e.teams[1 - i]) && k !in Side(t, fp, 1 - i))
  {
    var t', fp := ApplyAll(t, Writes(e', d')).tables, FingerprintOf(e);
    Grows(t, Writes(e', d'));
    TeamKeys(fp, e);
    if k in Keys(fp, e.teams[1 - i]) {
      assert e'.teams[i] == e.teams[1 - i];
      KeyInBattle(fp, e.teams[1 - i], k);
      PlayerStored(t, e', d', i, k);
    }
    if k in t.participants && k.0 == fp {
      FitsItsTeam(fp, e, k, t.participants[k]);
    } else if k in t'.participants && k.0 == fp {
      AddedRow(t, e', d', k);
      FitsItsTeam(fp, e', k, t'.participants[k]);
    }
    hide ApplyAll, Writes, FingerprintOf, Fits, Keys, TwoTeams, Ingestible;
  }

  lemma KeyInBattle(fp: string, team: seq<Participant>, k: RowKey)
    requires k in Keys(fp, team)
    ensures k.0 == fp
  {}

  lemma CrossedSizes(a: set<RowKey>, b: set<RowKey>, home: set<RowKey>, away: set<RowKey>)
    requires a <= home && b <= away && home !! away
    ensures |a + (away - b)| == |a| + |away| - |b|
  {
    assert away == b + (away - b) && a !! (away - b);
    assert |away| == |b| + |away - b|;
  }

  lemma SwappedSize(t: Tables, e: BattleEntry, e': BattleEntry, d': string, i: nat, o: nat)
    requires Swaps(e, e') && RowsFit(t, FingerprintOf(e), e) && ApplyAll(t, Writes(e', d')).done && i + o == 1
    ensures var t', fp := ApplyAll(t, Writes(e', d')).tables, FingerprintOf(e);
            |Side(t', fp, i)| == |Side(t, fp, i)| + |e.teams[0]| - |Side(t, fp, o)|
  {
    hide ApplyAll, Writes, FingerprintOf, Keys, Side, RowsFit, DistinctTags, Ingestible;
    var t', fp := ApplyAll(t, Writes(e', d')).tables, FingerprintOf(e);
    SidesAfterSwap(t, e, e', d', i);
    SidesAfterSwap(t, e, e', d', o);
    TeamKeys(fp, e);
    assert 1 - i == o && 1 - o == i;
    CrossedSizes(Side(t, fp, i), Side(t, fp, o), Keys(fp, e.teams[i]), Keys(fp, e.teams[o]));
  }

  /** Equally many rows of either team are stored. */
  ghost predicate Level(t: Tables, fp: string) {
    |Side(t, fp, 0)| == |Side(t, fp, 1)|
  }

  lemma SwapKeepsLevel(t: Tables, e: BattleEntry, e': BattleEntry, d': string)
    requires Swaps(e, e') && RowsFit(t, FingerprintOf(e), e) && ApplyAll(t, Writes(e', d')).done
    ensures Level(ApplyAll(t, Writes(e', d')).tables, FingerprintOf(e)) <==> Level(t, FingerprintOf(e))
  {
    hide ApplyAll, Writes, FingerprintOf, Side, RowsFit, TwoTeams, Ingestible;
    SwappedSize(t, e, e', d', 0, 1);
    SwappedSize(t, e, e', d', 1, 0);
  }

  lemma RowsSeated(t: Tables, e: BattleEntry, e': BattleEntry, d': string, k: RowKey)
    requires Swaps(e, e') && RowsFit(t, FingerprintOf(e), e)
    requires k in ApplyAll(t, Writes(e', d')).tables.participants && k.0 == FingerprintOf(e)
    ensures var row := ApplyAll(t, Writes(e', d')).tables.participants[k];
            && row.brawlerId.Some? && (row.team == Some(0) || row.team == Some(1))
            && (k in Keys(FingerprintOf(e), e.teams[0]) || k in Keys(FingerprintOf(e), e.teams[1]))
  {
    var t', fp := ApplyAll(t, Writes(e', d')).tables, FingerprintOf(e);
    Grows(t, Writes(e', d'));
    hide ApplyAll, Writes, FingerprintOf, Fits, Keys, DistinctTags;
    if k in t.participants {
      FitsItsTeam(fp, e, k, t.participants[k]);
    } else {
      AddedRow(t, e', d', k);
      FitsItsTeam(fp, e', k, t'.participants[k]);
    }
  }

  /** Everybody stored about the battle has a brawler and a team, and the teams have opposite results. */
  ghost predicate Seated(t: Tables, fp: string) {
    && (fp, 0) in t.teams && (fp, 1) in t.teams && t.teams[(fp, 1)] == OppositeResult(t.teams[(fp, 0)])
    && forall k :: k in t.participants && k.0 == fp ==>
         t.participants[k].brawlerId.Some? && (t.participants[k].team == Some(0) || t.participants[k].team == Some(1))
  }

  lemma SeatedIff(t: Tables, fp: string)
    requires Seated(t, fp)
    ensures TwoSided(t, fp) <==> Level(t, fp)
  {}

  lemma OppositeTeams(t: Tables, e: BattleEntry, d: string)
    requires Ingestible(e) && |e.teams| == 2 && ApplyAll(t, Writes(e, d)).done
    ensures var t', fp := ApplyAll(t, Writes(e, d)).tables, FingerprintOf(e);
            (fp, 0) in t'.teams && (fp, 1) in t'.teams && t'.teams[(fp, 1)] == OppositeResult(t'.teams[(fp, 0)])
  {
    hide ApplyAll, Writes, TeamResult, Preimage;
    CompleteIngestion(e, d, t);
    Opposites(e, d);
  }

  lemma SeatedAfterSwap(t: Tables, e: BattleEntry, e': BattleEntry, d': string)
    requires Swaps(e, e') && RowsFit(t, FingerprintOf(e), e) && ApplyAll(t, Writes(e', d')).done
    ensures Seated(ApplyAll(t, Writes(e', d')).tables, FingerprintOf(e))
  {
    var t', fp := ApplyAll(t, Writes(e', d')).tables, FingerprintOf(e);
    hide ApplyAll, Writes, FingerprintOf, RowsFit, Keys, TwoTeams, Ingestible;
    OppositeTeams(t, e', d');
    forall k | k in t'.participants && k.0 == fp
      ensures t'.participants[k].brawlerId.Some? && (t'.participants[k].team == Some(0) || t'.participants[k].team == Some(1))
    {
      RowsSeated(t, e, e', d', k);
    }
  }

  /** Whatever part of a two-team battle is stored, a complete log that lists the teams the other way
      round makes it two-sided if and only if equally many rows of either team were stored before. */
  lemma SwappedRepairsIff(t: Tables, e: BattleEntry, e': BattleEntry, d': string)
    requires Swaps(e, e') && RowsFit(t, FingerprintOf(e), e) && ApplyAll(t, Writes(e', d')).done
    ensures TwoSided(ApplyAll(t, Writes(e', d')).tables, FingerprintOf(e)) <==> Level(t, FingerprintOf(e))
  {
    hide ApplyAll, Writes, FingerprintOf, RowsFit, Level, TwoSided, Seated, TwoTeams, Ingestible;
    SeatedAfterSwap(t, e, e', d');
    SwapKeepsLevel(t, e, e', d');
    SeatedIff(ApplyAll(t, Writes(e', d')).tables, FingerprintOf(e));
  }

  /** A complete log that lists the teams in the stored order always repairs the battle. */
  lemma SameOrderRepairs(t: Tables, e: BattleEntry, d: string)
    requires Ingestible(e) && TwoTeams(e) && RowsFit(t, FingerprintOf(e), e) && ApplyAll(t, Writes(e, d)).done
    ensures TwoSided(ApplyAll(t, Writes(e, d)).tables, FingerprintOf(e))
  {
    var t', fp := ApplyAll(t, Writes(e, d)).tables, FingerprintOf(e);
    Grows(t, Writes(e, d));
    hide ApplyAll, Writes, FingerprintOf, Fits, NormalizeTag, DistinctTags, Ingestible, TwoSided;
    OppositeTeams(t, e, d);
    forall k | k in t'.participants && k.0 == fp ensures Fits(e, k, t'.participants[k]) {
      if k !in t.participants {
        AddedRow(t, e, d, k);
      }
    }
    forall i: nat, j: nat | i < |e.teams| && j < |e.teams[i]| ensures (fp, NormalizeTag(e.teams[i][j].tag)) in t'.participants {
      PlayerStored(t, e, d, i, (fp, NormalizeTag(e.teams[i][j].tag)));
    }
    FittingIsTwoSided(t', fp, e);
  }

  // ------------------------------------------------------------------------------ and that is for good

  /** Statements of any logs whatsoever. */
  ghost predicate OfLogs(ws: seq<Write>) {
    forall w :: w in ws ==> exists e, d :: Playable(e) && w in Writes(e, d)
  }

  lemma NobodyNew(t: Tables, e: BattleEntry, ws: seq<Write>, k: RowKey)
    requires Playable(e) && TwoTeams(e) && AllStored(t, FingerprintOf(e), e) && OfLogs(ws)
    requires k in ApplyAll(t, ws).tables.participants && k.0 == FingerprintOf(e)
    ensures k in t.participants
  {
    if k !in t.participants {
      var w := RowFromWrite(t, ws, k);
      var other, d :| Playable(other) && w in Writes(other, d);
      hide ApplyAll, Writes, FingerprintOf, Normalized, NormalizeTag, DistinctTags, WellFormed, AllTags;
      WrittenTag(other, d, w);
      WritesFit(other, d, w);
      SameFingerprintTags(other, e, k.1);
      var i, j := TagOnTeam(e, k.1);
    }
  }

  lemma SameFingerprintTags(e: BattleEntry, e': BattleEntry, tag: string)
    requires Playable(e) && Playable(e') && FingerprintOf(e) == FingerprintOf(e')
    ensures tag in Normalized(AllTags(e)) <==> tag in Normalized(AllTags(e'))
  {
    hide Preimage, Normalized, AllTags, WellFormed, TwoTeams;
    SameTags(KeyOf(e), KeyOf(e'), tag);
  }

  /** Once all players of a battle are stored, its sides stay as they are. */
  lemma SidesStay(t: Tables, e: BattleEntry, ws: seq<Write>, i: nat)
    requires Playable(e) && TwoTeams(e) && AllStored(t, FingerprintOf(e), e) && OfLogs(ws)
    ensures Side(ApplyAll(t, ws).tables, FingerprintOf(e), i) == Side(t, FingerprintOf(e), i)
  {
    var t', fp := ApplyAll(t, ws).tables, FingerprintOf(e);
    Grows(t, ws);
    hide ApplyAll, FingerprintOf, Playable, TwoTeams, AllStored, OfLogs;
    forall k ensures k in Side(t', fp, i) <==> k in Side(t, fp, i) {
      if k in t'.participants && k.0 == fp {
        NobodyNew(t, e, ws, k);
      }
    }
  }

  lemma StoredBySwapped(t: Tables, e: BattleEntry, e': BattleEntry, d': string)
    requires Swaps(e, e') && ApplyAll(t, Writes(e', d')).done
    ensures AllStored(ApplyAll(t, Writes(e', d')).tables, FingerprintOf(e), e)
  {
    var t', fp := ApplyAll(t, Writes(e', d')).tables, FingerprintOf(e);
    hide ApplyAll, Writes, FingerprintOf, NormalizeTag, DistinctTags, Ingestible;
    forall i: nat, j: nat | i < |e.teams| && j < |e.teams[i]| ensures (fp, NormalizeTag(e.teams[i][j].tag)) in t'.participants {
      assert e'.teams[1 - i] == e.teams[i];
      PlayerStored(t, e', d', 1 - i, (fp, NormalizeTag(e.teams[i][j].tag)));
    }
  }

  /** If the swapped log left the battle lopsided, then no statements of any logs, in any order and
      however often repeated, ever make it two-sided. */
  lemma LopsidedForGood(t: Tables, e: BattleEntry, e': BattleEntry, d': string, more: seq<Write>)
    requires Playable(e) && Swaps(e, e') && RowsFit(t, FingerprintOf(e), e) && ApplyAll(t, Writes(e', d')).done
    requires !Level(t, FingerprintOf(e)) && OfLogs(more)
    ensures !TwoSided(ApplyAll(ApplyAll(t, Writes(e', d')).tables, more).tables, FingerprintOf(e))
  {
    var t' := ApplyAll(t, Writes(e', d')).tables;
    hide ApplyAll, Writes, FingerprintOf, RowsFit, Side, OfLogs, AllStored, Playable, TwoTeams, Ingestible, TwoSided;
    StoredBySwapped(t, e, e', d');
    SwapKeepsLevel(t, e, e', d');
    LevelStays(t', e, more);
    UnlevelIsNotTwoSided(ApplyAll(t', more).tables, FingerprintOf(e));
  }

  lemma LevelStays(t: Tables, e: BattleEntry, ws: seq<Write>)
    requires Playable(e) && TwoTeams(e) && AllStored(t, FingerprintOf(e), e) && OfLogs(ws)
    ensures Level(ApplyAll(t, ws).tables, FingerprintOf(e)) <==> Level(t, FingerprintOf(e))
  {
    hide ApplyAll, FingerprintOf, Side, OfLogs, AllStored, Playable, TwoTeams;
    SidesStay(t, e, ws, 0);
    SidesStay(t, e, ws, 1);
  }

  lemma UnlevelIsNotTwoSided(t: Tables, fp: string)
    requires !Level(t, fp)
    ensures !TwoSided(t, fp)
  {}

  // ------------------------------------------------------------- after broken-off attempts of one log

  ghost predicate NobodyStored(t: Tables, fp: string) {
    forall k :: k in t.participants ==> k.0 != fp
  }

  /** The statements up to the last player of the first team. */
  function FirstTeam(e: BattleEntry, d: string): seq<Write>
    requires Ingestible(e) && e.teams != []
  {
    var fp := FingerprintOf(e);
    [PutEvent((e.eventId, e.mode, e.mapName)), PutBattle(fp, BattleOf(e, d)), PutTeam(fp, 0, TeamResult(e.teams, e.result, d, 0))]
    + MemberWrites(e, fp, 0, e.teams[0])
  }

  lemma FirstTeamFirst(e: BattleEntry, d: string)
    requires Ingestible(e) && e.teams != []
    ensures Writes(e, d) == FirstTeam(e, d) + TeamWrites(e, FingerprintOf(e), d, 1)
  {
    hide Preimage, TeamResult, BattleOf, MemberWrites;
    TeamStep(e, FingerprintOf(e), d, 0);
  }

  lemma StoredByAttempts(seed: Tables, e: BattleEntry, d: string, n: nat, k: RowKey)
    requires Seed(seed) && Ingestible(e) && e.teams != [] && n <= |Writes(e, d)|
    requires k in ApplyAll(seed, Writes(e, d)[..n]).tables.participants && k.0 == FingerprintOf(e)
    ensures Fits(e, k, ApplyAll(seed, Writes(e, d)[..n]).tables.participants[k])
    ensures n <= |FirstTeam(e, d)| ==> ApplyAll(seed, Writes(e, d)[..n]).tables.participants[k].team == Some(0)
  {
    hide FingerprintOf, ApplyAll, Fits, FirstTeam, Ingestible;
    var ws := Writes(e, d)[..n];
    var w := RowFromWrite(seed, ws, k);
    assert w in Writes(e, d);
    WritesFit(e, d, w);
    FirstTeamFirst(e, d);
    if n <= |FirstTeam(e, d)| {
      assert ws == FirstTeam(e, d)[..n];
      FirstTeamRow(e, d, w);
    }
  }

  lemma FirstTeamRow(e: BattleEntry, d: string, w: Write)
    requires Ingestible(e) && e.teams != [] && w in FirstTeam(e, d) && w.PutParticipant?
    ensures w.row.team == Some(0)
  {
    hide FingerprintOf, TeamResult, BattleOf, MemberWrites;
    assert w in MemberWrites(e, FingerprintOf(e), 0, e.teams[0]);
    var j := MemberRow(e, FingerprintOf(e), 0, e.teams[0], w);
  }

  lemma FirstTeamStored(seed: Tables, e: BattleEntry, d: string, n: nat, k: RowKey)
    requires Ingestible(e) && e.teams != [] && |FirstTeam(e, d)| <= n <= |Writes(e, d)|
    requires ApplyAll(seed, Writes(e, d)[..n]).done && k in Keys(FingerprintOf(e), e.teams[0])
    ensures k in ApplyAll(seed, Writes(e, d)[..n]).tables.participants
  {
    hide ApplyAll, Writes, FingerprintOf, NormalizeTag, TeamRow, MemberWrites, TeamWrites, TeamResult, BattleOf, Ingestible;
    var fp, ws := FingerprintOf(e), Writes(e, d)[..n];
    var j: nat :| j < |e.teams[0]| && k == (fp, NormalizeTag(e.teams[0][j].tag));
    var w := PutParticipant(fp, k.1, TeamRow(e, 0, e.teams[0][j]));
    MemberIsWritten(e, fp, 0, e.teams[0], j);
    assert w in FirstTeam(e, d);
    FirstTeamFirst(e, d);
    var p: nat :| p < |FirstTeam(e, d)| && FirstTeam(e, d)[p] == w;
    assert ws[p] == w;
    WritesConsistent(e, d);
    SettledWrite(seed, ws, w);
    SettledMeans(ApplyAll(seed, ws).tables, w);
  }

  /** What attempts at one log leave of its two sides: the second one is begun only when the first is
      complete. */
  lemma SidesOfAttempts(seed: Tables, e: BattleEntry, d: string, n: nat)
    requires Seed(seed) && Ingestible(e) && TwoTeams(e) && n <= |Writes(e, d)| && ApplyAll(seed, Writes(e, d)[..n]).done
    ensures var t, fp := ApplyAll(seed, Writes(e, d)[..n]).tables, FingerprintOf(e);
            && RowsFit(t, fp, e)
            && Side(t, fp, 0) <= Keys(fp, e.teams[0]) && Side(t, fp, 1) <= Keys(fp, e.teams[1])
            && (Side(t, fp, 1) == {} || Side(t, fp, 0) == Keys(fp, e.teams[0]))
  {
    var t, fp := ApplyAll(seed, Writes(e, d)[..n]).tables, FingerprintOf(e);
    hide ApplyAll, Writes, FingerprintOf, FirstTeam, Fits, Keys, Seed, Ingestible, DistinctTags;
    forall k | k in t.participants && k.0 == fp
      ensures Fits(e, k, t.participants[k]) && (n <= |FirstTeam(e, d)| ==> t.participants[k].team == Some(0))
      ensures (t.participants[k].team == Some(0) && k in Keys(fp, e.teams[0]))
              || (t.participants[k].team == Some(1) && k in Keys(fp, e.teams[1]))
    {
      StoredByAttempts(seed, e, d, n, k);
      FitsItsTeam(fp, e, k, t.participants[k]);
    }
    if n > |FirstTeam(e, d)| {
      TeamKeys(fp, e);
      forall k | k in Keys(fp, e.teams[0]) ensures k in Side(t, fp, 0) {
        KeyInBattle(fp, e.teams[0], k);
        FirstTeamStored(seed, e, d, n, k);
      }
    }
  }

  lemma EqualSides(t: Tables, fp: string, e: BattleEntry)
    requires TwoTeams(e) && RowsFit(t, fp, e)
    requires Side(t, fp, 0) <= Keys(fp, e.teams[0]) && Side(t, fp, 1) <= Keys(fp, e.teams[1])
    requires Side(t, fp, 1) == {} || Side(t, fp, 0) == Keys(fp, e.teams[0])
    ensures Level(t, fp) <==> NobodyStored(t, fp) || AllStored(t, fp, e)
  {
    hide NormalizeTag, Fits, DistinctTags;
    TeamKeys(fp, e);
    if AllStored(t, fp, e) {
      SideIsTeam(t, fp, e, 0);
      SideIsTeam(t, fp, e, 1);
    }
    if NobodyStored(t, fp) {
      assert Side(t, fp, 0) == {} && Side(t, fp, 1) == {};
    }
    if |Side(t, fp, 0)| == |Side(t, fp, 1)| {
      if Side(t, fp, 1) == {} {
        Empty(t, fp, e);
      } else {
        SameSizeSubset(Side(t, fp, 1), Keys(fp, e.teams[1]));
        Full(t, fp, e);
      }
    }
  }

  lemma OnASide(t: Tables, fp: string, e: BattleEntry, k: RowKey)
    requires |e.teams| == 2 && RowsFit(t, fp, e) && k in t.participants && k.0 == fp
    ensures k in Side(t, fp, 0) + Side(t, fp, 1)
  {
    hide Fits, Keys;
    FitsItsTeam(fp, e, k, t.participants[k]);
  }

  lemma Empty(t: Tables, fp: string, e: BattleEntry)
    requires |e.teams| == 2 && RowsFit(t, fp, e) && Side(t, fp, 0) == {} && Side(t, fp, 1) == {}
    ensures NobodyStored(t, fp)
  {
    hide Side, RowsFit;
    forall k | k in t.participants ensures k.0 != fp {
      if k.0 == fp {
        OnASide(t, fp, e, k);
      }
    }
  }

  lemma Full(t: Tables, fp: string, e: BattleEntry)
    requires |e.teams| == 2 && Side(t, fp, 0) == Keys(fp, e.teams[0]) && Side(t, fp, 1) == Keys(fp, e.teams[1])
    ensures AllStored(t, fp, e)
  {
    hide NormalizeTag;
    forall i: nat, j: nat | i < |e.teams| && j < |e.teams[i]| ensures (fp, NormalizeTag(e.teams[i][j].tag)) in t.participants {
      assert (fp, NormalizeTag(e.teams[i][j].tag)) in Keys(fp, e.teams[i]);
      assert (fp, NormalizeTag(e.teams[i][j].tag)) in Side(t, fp, i);
    }
  }

  lemma SameSizeSubset(a: set<RowKey>, b: set<RowKey>)
    requires a <= b && |a| == |b|
    ensures a == b
  {
    assert b == a + (b - a) && |b| == |a| + |b - a|;
  }

  /** Any number of attempts at one log, interleaved and broken off anywhere, and then a complete log
      that lists the teams the other way round: it repairs the battle if and only if the attempts had
      stored nobody or everybody. */
  lemma AttemptsThenSwapped(seed: Tables, e: BattleEntry, d: string, attempts: nat, turns: seq<nat>,
                            e': BattleEntry, d': string)
    requires Seed(seed) && Swaps(e, e')
    requires ApplyAll(Interleave(seq(attempts, _ => Writes(e, d)), seed, turns).tables, Writes(e', d')).done
    ensures var t := Interleave(seq(attempts, _ => Writes(e, d)), seed, turns).tables;
            TwoSided(ApplyAll(t, Writes(e', d')).tables, FingerprintOf(e))
            <==> NobodyStored(t, FingerprintOf(e)) || AllStored(t, FingerprintOf(e), e)
  {
    hide Interleave, ApplyAll, TwoSided, FingerprintOf, AllStored, NobodyStored, Level, Side, RowsFit, Keys, DistinctTags, Seed, Ingestible, Writes;
    var t, ws := Interleave(seq(attempts, _ => Writes(e, d)), seed, turns).tables, Writes(e, d);
    WritesConsistent(e, d);
    var n := InterleavingIsOneRun(seq(attempts, _ => ws), ws, seed, turns);
    SidesOfAttempts(seed, e, d, n);
    EqualSides(t, FingerprintOf(e), e);
    SwappedRepairsIff(t, e, e', d');
  }

  // --------------------------------------------------------------------------------- such a run exists

  /** A battle between two teams, everybody with a brawler. */
  ghost predicate Manned(e: BattleEntry) {
    && Playable(e) && e.teams != [] && e.teams[0] != []
    && forall i, j :: 0 <= i < 2 && 0 <= j < |e.teams[i]| ==> e.teams[i][j].brawlerId != 0
  }

  function FirstKey(e: BattleEntry, i: nat): RowKey
    requires i < |e.teams| && e.teams[i] != []
  {
    (FingerprintOf(e), NormalizeTag(e.teams[i][0].tag))
  }

  lemma FirstSix(e: BattleEntry, d: string)
    requires Manned(e)
    ensures var fp, p := FingerprintOf(e), e.teams[0][0];
            && |Writes(e, d)| >= 6
            && Writes(e, d)[..6] == [PutEvent((e.eventId, e.mode, e.mapName)), PutBattle(fp, BattleOf(e, d))]
                                    + ([PutTeam(fp, 0, TeamResult(e.teams, e.result, d, 0))]
                                       + (PlayerWrites(fp, p, TeamRow(e, 0, p)) + []))
  {
    hide Preimage, TeamResult, BattleOf, TeamRow, NormalizeTag, AllTags, WellFormed, DistinctTags;
    var fp, p := FingerprintOf(e), e.teams[0][0];
    FirstTeamFirst(e, d);
    assert FirstTeam(e, d)[..6] == [PutEvent((e.eventId, e.mode, e.mapName)), PutBattle(fp, BattleOf(e, d)),
                                    PutTeam(fp, 0, TeamResult(e.teams, e.result, d, 0))] + PlayerWrites(fp, p, TeamRow(e, 0, p));
  }

  /** What the broken-off attempt has stored. */
  lemma FirstStored(seed: Tables, e: BattleEntry, d: string)
    requires Seed(seed) && Manned(e)
    ensures |Writes(e, d)| >= 6
    ensures ApplyAll(seed, Writes(e, d)[..6]).done
    ensures ApplyAll(seed, Writes(e, d)[..6]).tables.participants == map[FirstKey(e, 0) := TeamRow(e, 0, e.teams[0][0])]
  {
    FirstSix(e, d);
    hide Preimage, TeamResult, BattleOf, TeamRow, NormalizeTag, AllTags, WellFormed, DistinctTags, PlayerWrites, ApplyAll, Sound;
    var fp, p := FingerprintOf(e), e.teams[0][0];
    var event, battle := PutEvent((e.eventId, e.mode, e.mapName)), PutBattle(fp, BattleOf(e, d));
    var team, rest := PutTeam(fp, 0, TeamResult(e.teams, e.result, d, 0)), PlayerWrites(fp, p, TeamRow(e, 0, p)) + [];
    TwoSteps(seed, event, battle, [team] + rest);
    var t0 := Apply(Apply(seed, event).value, battle).value;
    OneStep(t0, team, rest);
    var t1 := Apply(t0, team).value;
    assert TeamRow(e, 0, p).team == Some(0) && TeamRow(e, 0, p).brawlerId == Some(p.brawlerId) by { RowOfMember(e, p); }
    PlayerRun(t1, fp, p, TeamRow(e, 0, p), []);
    NothingLeft(AfterPlayer(t1, fp, p, TeamRow(e, 0, p)));
  }

  lemma RowOfMember(e: BattleEntry, p: Participant)
    ensures TeamRow(e, 0, p).team == Some(0) && TeamRow(e, 0, p).brawlerId == Some(p.brawlerId)
  {}

  lemma OneStep(t: Tables, w: Write, rest: seq<Write>)
    requires Apply(t, w).Some?
    ensures ApplyAll(t, [w] + rest) == ApplyAll(Apply(t, w).value, rest)
  {
    assert ([w] + rest)[1..] == rest;
  }

  lemma NothingLeft(t: Tables)
    ensures ApplyAll(t, []) == Progress(t, true)
  {}

  lemma SwappedStands(e: BattleEntry, e': BattleEntry, d': string, t: Tables)
    requires Manned(e) && e' == e.(teams := [e.teams[1], e.teams[0]], result := e'.result, trophyChange := e'.trophyChange)
    ensures Swaps(e, e') && ApplyAll(t, Writes(e', d')).done
  {
    hide NormalizeTag, Preimage, AllTags, WellFormed, ApplyAll, Writes, DistinctTags;
    SwappedKey(e, e');
    SwapsDistinct(e, e');
    assert AllAttributable(t, FingerprintOf(e'), e'.teams, 0) by {
      assert forall i, j :: 0 <= i < 2 && 0 <= j < |e'.teams[i]| ==> e'.teams[i][j] == e.teams[1 - i][j];
    }
    CompletesIff(e', d', t);
  }

  lemma OnlyFirst(t: Tables, e: BattleEntry, row: ParticipantRow)
    requires TwoTeams(e) && e.teams[0] != [] && t.participants == map[FirstKey(e, 0) := row] && row.team == Some(0)
    ensures !Level(t, FingerprintOf(e))
  {
    hide NormalizeTag, FingerprintOf;
    assert Side(t, FingerprintOf(e), 0) == {FirstKey(e, 0)};
    assert Side(t, FingerprintOf(e), 1) == {};
  }

  /** A first attempt at the battle breaks off after storing its first player; then a log that lists
      the teams the other way round is ingested completely.  One player too many now sits on team 0,
      and no statements of any logs ever mend that. */
  lemma BrokenOffThenSwapped(seed: Tables, e: BattleEntry, d: string, e': BattleEntry, d': string, more: seq<Write>)
    requires Seed(seed) && Manned(e) && OfLogs(more)
    requires e' == e.(teams := [e.teams[1], e.teams[0]], result := e'.result, trophyChange := e'.trophyChange)
    ensures |Writes(e, d)| >= 6
    ensures var t := ApplyAll(seed, Writes(e, d)[..6]).tables;
            var second := ApplyAll(t, Writes(e', d'));
            second.done && !TwoSided(ApplyAll(second.tables, more).tables, FingerprintOf(e))
  {
    FirstStored(seed, e, d);
    var t := ApplyAll(seed, Writes(e, d)[..6]).tables;
    SwappedStands(e, e', d', t);
    RowOfMember(e, e.teams[0][0]);
    hide FingerprintOf, Writes, ApplyAll, TwoSided, TeamRow, RowsFit, OfLogs, Side, Level, Seed;
    OnlyFirst(t, e, TeamRow(e, 0, e.teams[0][0]));
    SidesOfAttempts(seed, e, d, 6);
    LopsidedForGood(t, e, e', d', more);
  }
}
