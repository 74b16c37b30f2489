/** What the active-target ceiling does to discovery: exactly how many players a complete ingestion
    enqueues, below the ceiling and at it. */
module Ceiling {
  import opened Collections
  import opened Fingerprint
  import opened Ingestion
  import opened Completion
  import opened Discovery
  import BattleLog

  /** Everybody the log's statements try to enqueue. */
  ghost function Mentioned(ws: seq<Write>): set<string> {
    set i | 0 <= i < |ws| && ws[i].Discover? :: ws[i].tag
  }

  /** Those who are neither queued nor the discoverer. */
  ghost function NewAmong(tags: set<string>, b: Budget, targets: set<string>): set<string> {
    tags - {b.discoverer} - targets
  }

  /** A count held down to the limit, which only a positive one does. */
  function Limited(max: int, n: nat): int {
    if 0 < max < n then max else n
  }

  lemma MentionedCons(w: Write, rest: seq<Write>)
    ensures Mentioned([w] + rest) == Mentioned(rest) + if w.Discover? then {w.tag} else {}
  {
    MentionedConcat([w], rest);
    assert Mentioned([w]) == if w.Discover? then {w.tag} else {} by {
      assert [w][0] == w;
    }
  }

  lemma MentionedConcat(a: seq<Write>, b: seq<Write>)
    ensures Mentioned(a + b) == Mentioned(a) + Mentioned(b)
  {
    forall x | x in Mentioned(a + b) ensures x in Mentioned(a) + Mentioned(b) {
      var k :| 0 <= k < |a + b| && (a + b)[k].Discover? && (a + b)[k].tag == x;
      assert if k < |a| then a[k].tag == x else b[k - |a|].tag == x;
    }
    forall x | x in Mentioned(a) ensures x in Mentioned(a + b) {
      var k :| 0 <= k < |a| && a[k].Discover? && a[k].tag == x;
      assert (a + b)[k] == a[k];
    }
    forall x | x in Mentioned(b) ensures x in Mentioned(a + b) {
      var k :| 0 <= k < |b| && b[k].Discover? && b[k].tag == x;
      assert (a + b)[|a| + k] == b[k];
    }
  }

  lemma KnownTag(b: Budget, targets: set<string>, tag: string, rest: set<string>)
    requires tag == b.discoverer || tag in targets
    ensures NewAmong(rest + {tag}, b, targets) == NewAmong(rest, b, targets)
  {}

  lemma NewTag(b: Budget, targets: set<string>, tag: string, rest: set<string>)
    requires tag != b.discoverer && tag !in targets
    ensures var before, after := NewAmong(rest + {tag}, b, targets), NewAmong(rest, b, targets + {tag});
            before == after + {tag} && |before| == |after| + 1 && targets + {tag} + after == targets + before
  {
    var before, after := NewAmong(rest + {tag}, b, targets), NewAmong(rest, b, targets + {tag});
    assert before == after + {tag};
    assert tag !in after;
  }

  /** One discovery: either it changes nothing, or the newcomers become one fewer. */
  lemma DiscoveryCounts(b: Budget, d: Desk, tag: string, rest: set<string>)
    requires b.max > 0 ==> d.count <= b.max
    ensures var d' := Discovered(b, d, tag);
            && (b.max > 0 ==> d'.count <= b.max)
            && Limited(b.max, d'.count + |NewAmong(rest, b, d'.targets)|)
               == Limited(b.max, d.count + |NewAmong(rest + {tag}, b, d.targets)|)
            && (b.max <= 0 ==> d'.targets + NewAmong(rest, b, d'.targets) == d.targets + NewAmong(rest + {tag}, b, d.targets))
  {
    hide NewAmong;
    if tag == b.discoverer || tag in d.targets {
      KnownTag(b, d.targets, tag, rest);
    } else {
      NewTag(b, d.targets, tag, rest);
    }
  }

  /** How many targets an ingestion leaves counted, if the database carries everything out: all that
      are new, held down to the budget.  Without a limit they are all queued. */
  lemma {:induction false} CompleteCount(b: Budget, d: Desk, ws: seq<Write>, ok: nat -> bool, i: nat)
    requires (b.max > 0 ==> d.count <= b.max) && (forall k :: ok(k)) && Perform(b, d, ws, ok, i).done
    ensures var d', news := Perform(b, d, ws, ok, i).desk, NewAmong(Mentioned(ws), b, d.targets);
            && d'.count == Limited(b.max, d.count + |news|)
            && (b.max <= 0 ==> d'.targets == d.targets + news)
    decreases |ws|
  {
    hide Apply, Discovered, Mentioned, NewAmong, Limited;
    if ws == [] {
      NobodyMentioned(b, d);
    } else {
      var w, rest := ws[0], ws[1..];
      assert ws == [w] + rest;
      MentionedCons(w, rest);
      if w.Discover? {
        DiscoveryCounts(b, d, w.tag, Mentioned(rest));
        CompleteCount(b, Discovered(b, d, w.tag), rest, ok, i + 1);
      } else {
        assert ok(i);
        CompleteCount(b, d.(tables := Apply(d.tables, w).value), rest, ok, i + 1);
        assert Mentioned(rest) + {} == Mentioned(rest);
      }
    }
  }

  lemma NobodyMentioned(b: Budget, d: Desk)
    requires b.max > 0 ==> d.count <= b.max
    ensures var news := NewAmong(Mentioned([]), b, d.targets);
            d.count == Limited(b.max, d.count + |news|) && d.targets == d.targets + news
  {
    assert Mentioned([]) == {};
    assert NewAmong({}, b, d.targets) == {};
  }

  // ------------------------------------------------------------------ the players of a log entry

  function TagsIn(ps: seq<Participant>): set<string> {
    set j | 0 <= j < |ps| :: NormalizeTag(ps[j].tag)
  }

  /** Everybody who took part. */
  function Everybody(e: BattleEntry): set<string> {
    if |e.teams| > 0 then TagsIn(Flatten(e.teams)) else TagsIn(e.players)
  }

  lemma TagsInConcat(a: seq<Participant>, b: seq<Participant>)
    ensures TagsIn(a + b) == TagsIn(a) + TagsIn(b)
  {
    hide NormalizeTag;
    forall x | x in TagsIn(a) ensures x in TagsIn(a + b) {
      var k :| 0 <= k < |a| && NormalizeTag(a[k].tag) == x;
      assert (a + b)[k] == a[k];
    }
    forall x | x in TagsIn(b) ensures x in TagsIn(a + b) {
      var k :| 0 <= k < |b| && NormalizeTag(b[k].tag) == x;
      assert (a + b)[|a| + k] == b[k];
    }
  }

  lemma TagsInCons(ps: seq<Participant>)
    requires ps != []
    ensures TagsIn(ps) == {NormalizeTag(ps[0].tag)} + TagsIn(ps[1..])
  {
    hide NormalizeTag;
    assert ps == [ps[0]] + ps[1..];
    TagsInConcat([ps[0]], ps[1..]);
    assert TagsIn([ps[0]]) == {NormalizeTag(ps[0].tag)} by {
      assert [ps[0]][0] == ps[0];
    }
  }

  lemma PlayerMentioned(fp: string, p: Participant, row: ParticipantRow)
    ensures Mentioned(PlayerWrites(fp, p, row)) == {NormalizeTag(p.tag)}
  {
    hide NormalizeTag;
    var ws := PlayerWrites(fp, p, row);
    assert ws[|ws| - 1] == Discover(NormalizeTag(p.tag));
    forall i | 0 <= i < |ws| - 1 ensures !ws[i].Discover? {}
  }

  lemma {:induction false} MembersMentioned(e: BattleEntry, fp: string, i: nat, team: seq<Participant>)
    ensures Mentioned(MemberWrites(e, fp, i, team)) == TagsIn(team)
    decreases |team|
  {
    hide Mentioned, TagsIn, PlayerWrites, TeamRow, NormalizeTag;
    if team == [] {
      Nobody();
    } else {
      MembersMentioned(e, fp, i, team[1..]);
      PlayerMentioned(fp, team[0], TeamRow(e, i, team[0]));
      MentionedConcat(PlayerWrites(fp, team[0], TeamRow(e, i, team[0])), MemberWrites(e, fp, i, team[1..]));
      TagsInCons(team);
    }
  }

  lemma Nobody()
    ensures Mentioned([]) == {} && TagsIn([]) == {}
  {}

  lemma {:induction false} FlatMentioned(fp: string, ps: seq<Participant>)
    ensures Mentioned(FlatWrites(fp, ps)) == TagsIn(ps)
    decreases |ps|
  {
    hide Mentioned, TagsIn, PlayerWrites, FlatRow, NormalizeTag;
    if ps == [] {
      Nobody();
    } else {
      FlatMentioned(fp, ps[1..]);
      PlayerMentioned(fp, ps[0], FlatRow(ps[0]));
      MentionedConcat(PlayerWrites(fp, ps[0], FlatRow(ps[0])), FlatWrites(fp, ps[1..]));
      TagsInCons(ps);
    }
  }

  lemma {:induction false} TeamsMentioned(e: BattleEntry, fp: string, d: string, from: nat)
    requires from <= |e.teams|
    ensures Mentioned(TeamWrites(e, fp, d, from)) == TagsIn(Flatten(e.teams[from..]))
    decreases |e.teams| - from
  {
    hide Mentioned, TagsIn, MemberWrites, TeamResult, NormalizeTag;
    TeamStep(e, fp, d, from);
    if from == |e.teams| {
      Nobody();
    } else {
      var members, rest := MemberWrites(e, fp, from, e.teams[from]), TeamWrites(e, fp, d, from + 1);
      TeamsMentioned(e, fp, d, from + 1);
      MembersMentioned(e, fp, from, e.teams[from]);
      MentionedConcat(members, rest);
      MentionedCons(PutTeam(fp, from, TeamResult(e.teams, e.result, d, from)), members + rest);
      assert e.teams[from..][1..] == e.teams[from + 1..];
      TagsInConcat(e.teams[from], Flatten(e.teams[from + 1..]));
    }
  }

  /** An entry's statements try to enqueue everybody who took part, and nobody else. */
  lemma EverybodyMentioned(e: BattleEntry, d: string)
    requires Ingestible(e)
    ensures Mentioned(Writes(e, d)) == Everybody(e)
  {
    hide Mentioned, TagsIn, TeamWrites, FlatWrites, Preimage, AllTags, BattleOf;
    var fp := Preimage(KeyOf(e));
    var body := if |e.teams| > 0 then TeamWrites(e, fp, d, 0) else FlatWrites(fp, e.players);
    var event, battle := PutEvent((e.eventId, e.mode, e.mapName)), PutBattle(fp, BattleOf(e, d));
    if |e.teams| > 0 {
      TeamsMentioned(e, fp, d, 0);
      assert e.teams[0..] == e.teams;
    } else {
      FlatMentioned(fp, e.players);
    }
    assert Writes(e, d) == [event] + ([battle] + body);
    MentionedCons(event, [battle] + body);
    MentionedCons(battle, body);
  }

  // --------------------------------------------------------------------------------- the ceiling

  /** The participants a crawl could discover. */
  ghost function Newcomers(e: BattleEntry, discoverer: string, targets: set<string>): set<string> {
    Everybody(e) - {discoverer} - targets
  }

  /** Reaching the active-target ceiling lifts the limit instead of disabling discovery: the budget
      becomes 0, which the ingestor takes as unlimited, and a complete ingestion enqueues exactly the
      newcomers.  So nobody is enqueued if and only if there are none, and at most `configured` are if
      and only if there are at most so many.  Below the ceiling a positive limit holds, and is used up
      as far as there are newcomers. */
  lemma CeilingLiftsLimit(configured: int, ceiling: int, activeCount: Option<nat>, discoverer: string,
                          d: Desk, e: BattleEntry, ok: nat -> bool)
    requires Ingestible(e) && forall k :: ok(k)
    requires !AtCeiling(ceiling, activeCount) && configured > 0 ==> d.count <= configured
    requires var b := Budget(discoverer, CrawlBudget(configured, ceiling, activeCount));
             Perform(b, d, Writes(e, discoverer), ok, 0).done
    ensures var b := Budget(discoverer, CrawlBudget(configured, ceiling, activeCount));
            var d', news := Perform(b, d, Writes(e, discoverer), ok, 0).desk, Newcomers(e, discoverer, d.targets);
            if AtCeiling(ceiling, activeCount) then
              && d'.targets == d.targets + news && d'.count == d.count + |news|
              && (d'.targets == d.targets <==> news == {})
              && (d'.count - d.count <= configured <==> |news| <= configured)
            else d'.count == Limited(configured, d.count + |news|)
  {
    hide Perform, Writes, Mentioned, Everybody, Ingestible;
    var b := Budget(discoverer, CrawlBudget(configured, ceiling, activeCount));
    EverybodyMentioned(e, discoverer);
    CompleteCount(b, d, Writes(e, discoverer), ok, 0);
    var news := Newcomers(e, discoverer, d.targets);
    assert NewAmong(Everybody(e), b, d.targets) == news;
    assert news != {} ==> news - d.targets == news;
  }

  // ------------------------------------------------------------------------ such an entry exists

  /** Longer than every tag in the set. */
  lemma {:induction false} LongerThanAll(tags: set<string>) returns (n: nat)
    ensures n > 0 && forall x :: x in tags ==> |x| < n
    decreases |tags|
  {
    n := 1;
    if tags != {} {
      var x := Pick(tags);
      n := LongerThanAll(tags - {x});
      n := n + |x| + 1;
    }
  }

  function Eights(n: nat): string {
    seq(n, _ => '8')
  }

  function Stranger(n: nat): Participant {
    Participant(Eights(n), "", 0, "", 0, 0)
  }

  /** A log entry without teams of n players whose tags are longer than the given length. */
  function Crowd(n: nat, length: nat): BattleEntry {
    BattleEntry(Some("20250101T000000.000Z"), 0, "soloShowdown", "", "", "", 0, None, None, [],
                seq(n, i requires 0 <= i < n => Stranger(length + i)))
  }

  lemma EightsStay(n: nat)
    ensures NormalizeTag(Eights(n)) == Eights(n) && |Eights(n)| == n
  {}

  lemma CrowdLengths(n: nat, length: nat)
    ensures forall x :: x in TagsIn(Crowd(n, length).players) ==> length <= |x| < length + n
  {
    hide NormalizeTag, Eights;
    var ps := Crowd(n, length).players;
    forall x | x in TagsIn(ps) ensures length <= |x| < length + n {
      var j :| 0 <= j < |ps| && NormalizeTag(ps[j].tag) == x;
      EightsStay(length + j);
    }
  }

  lemma OneMoreInCrowd(n: nat, length: nat)
    ensures TagsIn(Crowd(n + 1, length).players) == TagsIn(Crowd(n, length).players) + {Eights(length + n)}
  {
    hide NormalizeTag, Eights, TagsIn;
    assert Crowd(n + 1, length).players == Crowd(n, length).players + [Stranger(length + n)];
    TagsInConcat(Crowd(n, length).players, [Stranger(length + n)]);
    TagsInCons([Stranger(length + n)]);
    assert [Stranger(length + n)][1..] == [];
    Nobody();
    EightsStay(length + n);
  }

  lemma {:induction false} CrowdSize(n: nat, length: nat)
    ensures |TagsIn(Crowd(n, length).players)| == n
    decreases n
  {
    hide TagsIn, Crowd, Eights;
    if n == 0 {
      EmptyCrowd(length);
    } else {
      CrowdSize(n - 1, length);
      CrowdLengths(n - 1, length);
      OneMoreInCrowd(n - 1, length);
      EightsStay(length + n - 1);
    }
  }

  lemma EmptyCrowd(length: nat)
    ensures TagsIn(Crowd(0, length).players) == {}
  {}

  lemma NoTeamsComplete(e: BattleEntry, b: Budget, d: Desk, ok: nat -> bool)
    requires Ingestible(e) && e.teams == [] && forall k :: ok(k)
    ensures Perform(b, d, Writes(e, b.discoverer), ok, 0).done
  {
    hide Perform, Writes, ApplyAll, Ingestible;
    CompletesIff(e, b.discoverer, d.tables);
    BattleLog.PerformDone(b, d, Writes(e, b.discoverer), ok, 0);
  }

  /** For every limit, every queue and every tables there is an entry that is ingested completely at
      the ceiling and enqueues more players than the limit allows. */
  lemma CeilingExceedsLimit(configured: int, ceiling: int, activeCount: Option<nat>, discoverer: string, d: Desk,
                            ok: nat -> bool) returns (e: BattleEntry)
    requires configured > 0 && AtCeiling(ceiling, activeCount) && forall k :: ok(k)
    ensures Ingestible(e)
    ensures var b := Budget(discoverer, CrawlBudget(configured, ceiling, activeCount));
            var w := Perform(b, d, Writes(e, discoverer), ok, 0);
            w.done && w.desk.count - d.count > configured && |w.desk.targets| > |d.targets| + configured
  {
    hide Perform, Writes, Newcomers, Crowd, Ingestible;
    var n := configured + 1;
    var length := LongerThanAll(d.targets + {discoverer});
    e := Crowd(n, length);
    CrowdIngestible(n, length);
    CrowdIsNew(n, length, discoverer, d.targets);
    NoTeamsComplete(e, Budget(discoverer, CrawlBudget(configured, ceiling, activeCount)), d, ok);
    CeilingLiftsLimit(configured, ceiling, activeCount, discoverer, d, e, ok);
    DisjointSize(d.targets, Newcomers(e, discoverer, d.targets));
  }

  lemma DisjointSize(a: set<string>, b: set<string>)
    requires a !! b
    ensures |a + b| == |a| + |b|
  {}

  lemma CrowdIsNew(n: nat, length: nat, discoverer: string, targets: set<string>)
    requires forall x :: x in targets + {discoverer} ==> |x| < length
    ensures var news := Newcomers(Crowd(n, length), discoverer, targets); |news| == n && news !! targets
  {
    hide NormalizeTag;
    CrowdSize(n, length);
    CrowdLengths(n, length);
    var tags := TagsIn(Crowd(n, length).players);
    assert tags - {discoverer} - targets == tags;
  }

  lemma CrowdIngestible(n: nat, length: nat)
    requires n > 0
    ensures Ingestible(Crowd(n, length)) && Crowd(n, length).teams == []
  {
    var e := Crowd(n, length);
    assert |AllTags(e)| >= n;
  }
}
