/** Player tags come with and without a leading '#' and in either case.  Which of them name the same player,
    and that ingestion does not depend on how they are written. */
module Tags {
  import opened Collections
  import opened Fingerprint
  import opened Ingestion

  /** The same ASCII letter in either case, or the same character. */
  predicate SameLetter(c: char, d: char) {
    c == d || ('A' <= c <= 'Z' && d as int - c as int == 32) || ('A' <= d <= 'Z' && c as int - d as int == 32)
  }

  predicate SameLetters(a: string, b: string) {
    |a| == |b| && forall i :: 0 <= i < |a| ==> SameLetter(a[i], b[i])
  }

  /** The tag without the '#' in front of it, if there is one. */
  function Bare(tag: string): string {
    if "#" <= tag then tag[1..] else tag
  }

  predicate SamePlayer(a: string, b: string) {
    SameLetters(Bare(a), Bare(b))
  }

  lemma LetterUp(c: char)
    ensures SameLetter(c, UpperChar(c)) && !('a' <= UpperChar(c) <= 'z')
    ensures !('a' <= c <= 'z') ==> UpperChar(c) == c
  {}

  lemma LettersUp(c: char, d: char)
    ensures UpperChar(c) == UpperChar(d) <==> SameLetter(c, d)
  {}

  lemma BareStart(tag: string)
    ensures "#" <= tag <==> tag != "" && tag[0] == '#'
  {}

  /** Normalizing drops one '#' and changes nothing but the case, to upper case. */
  lemma NormalForm(tag: string)
    ensures SameLetters(Bare(tag), NormalizeTag(tag))
    ensures forall i :: 0 <= i < |NormalizeTag(tag)| ==> !('a' <= NormalizeTag(tag)[i] <= 'z')
  {
    BareStart(tag);
    forall i | 0 <= i < |NormalizeTag(tag)|
      ensures SameLetter(Bare(tag)[i], NormalizeTag(tag)[i]) && !('a' <= NormalizeTag(tag)[i] <= 'z')
    {
      LetterUp(Bare(tag)[i]);
    }
  }

  /** The string that is hashed, for a battle of three: the time, the event and the tags in byte order. */
  lemma HashedString()
    ensures Preimage(BattleKey("20250310T120000.000Z", 15, ["#b2", "AB", "#a"])) == "20250310T120000.000Z|15|A|AB|B2"
  {
    hide NormalizeTag, Normalized, Sorted, Join, Decimal;
    ThreeTags();
    ThreeSorted();
    ThreeJoined();
    Fifteen();
  }

  lemma ThreeTags()
    ensures Normalized(["#b2", "AB", "#a"]) == ["B2", "AB", "A"]
  {
    assert NormalizeTag("#b2") == "B2" && NormalizeTag("AB") == "AB" && NormalizeTag("#a") == "A";
    hide NormalizeTag;
  }

  lemma ThreeSorted()
    ensures Sorted(["B2", "AB", "A"]) == ["A", "AB", "B2"]
  {
    Before();
    hide Le;
    assert ["B2", "AB", "A"][1..] == ["AB", "A"] && ["AB", "A"][1..] == ["A"] && ["A"][1..] == [];
    assert Sorted(["A"]) == ["A"];
    assert Insert("AB", ["A"]) == ["A", "AB"];
    assert Sorted(["AB", "A"]) == ["A", "AB"];
    assert ["A", "AB"][1..] == ["AB"];
    assert Insert("B2", ["AB"]) == ["AB", "B2"];
  }

  lemma Before()
    ensures !Le("AB", "A") && !Le("B2", "A") && !Le("B2", "AB")
  {}

  lemma ThreeJoined()
    ensures Join(["A", "AB", "B2"]) == "A|AB|B2"
  {
    assert ["A", "AB", "B2"][1..] == ["AB", "B2"] && ["AB", "B2"][1..] == ["B2"];
  }

  lemma Fifteen()
    ensures Decimal(15) == "15"
  {
    assert Digits(1) == "1";
  }

  /** Two tags normalize alike if and only if they differ in nothing but a leading '#' and case. */
  lemma NormalizesAlike(a: string, b: string)
    ensures NormalizeTag(a) == NormalizeTag(b) <==> SamePlayer(a, b)
  {
    BareStart(a);
    BareStart(b);
    var x, y := Bare(a), Bare(b);
    assert NormalizeTag(a) == ToUpper(x) && NormalizeTag(b) == ToUpper(y);
    if ToUpper(x) == ToUpper(y) {
      forall i | 0 <= i < |x| ensures SameLetter(x[i], y[i]) {
        assert ToUpper(x)[i] == ToUpper(y)[i];
        LettersUp(x[i], y[i]);
      }
    }
    if SameLetters(x, y) {
      forall i | 0 <= i < |x| ensures UpperChar(x[i]) == UpperChar(y[i]) {
        LettersUp(x[i], y[i]);
      }
    }
  }

  /** A tag with '#' in front is that of the same player. */
  lemma HashIgnored(tag: string)
    ensures !("#" <= tag) ==> NormalizeTag("#" + tag) == NormalizeTag(tag)
  {
    assert ("#" + tag)[1..] == tag;
  }

  /** Normalizing twice is normalizing once, unless a second '#' follows the first. */
  lemma NormalizesOnce(tag: string)
    ensures NormalizeTag(NormalizeTag(tag)) == NormalizeTag(tag) <==> !("#" <= Bare(tag))
  {
    var n := NormalizeTag(tag);
    NormalForm(tag);
    BareStart(n);
    BareStart(Bare(tag));
    if "#" <= Bare(tag) {
      assert SameLetter(Bare(tag)[0], n[0]);
      assert |NormalizeTag(n)| == |n| - 1;
    } else {
      assert n != "" ==> SameLetter(Bare(tag)[0], n[0]);
      forall i | 0 <= i < |n| ensures UpperChar(n[i]) == n[i] {
        LetterUp(n[i]);
      }
      assert ToUpper(n) == n;
    }
  }

  // ----------------------------------------------------------------------------- who takes part

  function TeamSizes(teams: seq<seq<Participant>>): nat {
    if teams == [] then 0 else |teams[0]| + TeamSizes(teams[1..])
  }

  lemma {:induction false} FlattenedHas(teams: seq<seq<Participant>>, p: Participant)
    ensures p in Flatten(teams) <==> exists i :: 0 <= i < |teams| && p in teams[i]
    ensures |Flatten(teams)| == TeamSizes(teams)
    decreases |teams|
  {
    if teams != [] {
      FlattenedHas(teams[1..], p);
      if i :| 0 <= i < |teams| && p in teams[i] {
        assert i > 0 ==> p in teams[1..][i - 1];
      }
      if i :| 0 <= i < |teams[1..]| && p in teams[1..][i] {
        assert p in teams[i + 1];
      }
    }
  }

  /** Every participant's tag is collected, of teams and of players, each as often as it occurs; and an entry
      can be ingested exactly when its time is readable and somebody took part. */
  lemma EverybodyCollected(e: BattleEntry, p: Participant)
    ensures (exists i :: 0 <= i < |e.teams| && p in e.teams[i]) || p in e.players ==> p.tag in AllTags(e)
    ensures |AllTags(e)| == TeamSizes(e.teams) + |e.players|
    ensures Ingestible(e) <==> e.time.Some? && TeamSizes(e.teams) + |e.players| > 0
  {
    FlattenedHas(e.teams, p);
    TagCollected(Flatten(e.teams), p);
    TagCollected(e.players, p);
  }

  lemma TagCollected(ps: seq<Participant>, p: Participant)
    ensures p in ps ==> p.tag in Ingestion.Tags(ps)
    ensures |Ingestion.Tags(ps)| == |ps|
  {
    if p in ps {
      var i :| 0 <= i < |ps| && ps[i] == p;
      assert Ingestion.Tags(ps)[i] == p.tag;
    }
  }

  /** Two entries get one fingerprint exactly when time and event agree and the same players took part,
      each as often. */
  lemma OneFingerprint(e: BattleEntry, e': BattleEntry)
    requires e.time.Some? && e'.time.Some? && WellFormed(KeyOf(e)) && WellFormed(KeyOf(e'))
    ensures Preimage(KeyOf(e)) == Preimage(KeyOf(e'))
            <==> e.time == e'.time && e.eventId == e'.eventId
                 && multiset(Normalized(AllTags(e))) == multiset(Normalized(AllTags(e')))
  {
    PreimageExact(KeyOf(e), KeyOf(e'));
    hide Preimage, WellFormed, AllTags, Normalized;
  }

  // -------------------------------------------------------------------- entries written differently

  predicate SameParticipant(p: Participant, p': Participant) {
    p' == p.(tag := p'.tag) && SamePlayer(p.tag, p'.tag)
  }

  ghost predicate SameTeam(a: seq<Participant>, b: seq<Participant>) {
    |a| == |b| && forall j :: 0 <= j < |a| ==> SameParticipant(a[j], b[j])
  }

  /** Two copies of a log entry that differ in nothing but how its tags are written. */
  ghost predicate SameEntry(e: BattleEntry, e': BattleEntry) {
    && e' == e.(starPlayer := e'.starPlayer, teams := e'.teams, players := e'.players)
    && (e.starPlayer.Some? <==> e'.starPlayer.Some?)
    && (e.starPlayer.Some? ==> SamePlayer(e.starPlayer.value, e'.starPlayer.value))
    && |e.teams| == |e'.teams| && (forall i :: 0 <= i < |e.teams| ==> SameTeam(e.teams[i], e'.teams[i]))
    && SameTeam(e.players, e'.players)
  }

  lemma SameNormalized(a: seq<Participant>, b: seq<Participant>)
    requires SameTeam(a, b)
    ensures Normalized(Ingestion.Tags(a)) == Normalized(Ingestion.Tags(b)) && |Ingestion.Tags(a)| == |a|
  {
    hide NormalizeTag, SamePlayer;
    forall j | 0 <= j < |a| ensures NormalizeTag(a[j].tag) == NormalizeTag(b[j].tag) {
      assert SameParticipant(a[j], b[j]);
      NormalizesAlike(a[j].tag, b[j].tag);
    }
  }

  lemma {:induction false} SameFlattened(a: seq<seq<Participant>>, b: seq<seq<Participant>>)
    requires |a| == |b| && forall i :: 0 <= i < |a| ==> SameTeam(a[i], b[i])
    ensures SameTeam(Flatten(a), Flatten(b))
    decreases |a|
  {
    hide SameParticipant;
    if a != [] {
      assert SameTeam(a[0], b[0]);
      SameFlattened(a[1..], b[1..]);
    }
  }

  lemma SameKey(e: BattleEntry, e': BattleEntry)
    requires SameEntry(e, e')
    ensures Normalized(AllTags(e)) == Normalized(AllTags(e')) && |AllTags(e)| == |AllTags(e')|
    ensures Ingestible(e) <==> Ingestible(e')
    ensures e.time.Some? ==> Preimage(KeyOf(e)) == Preimage(KeyOf(e'))
  {
    hide NormalizeTag, SameParticipant, Sorted, Join, Decimal;
    SameFlattened(e.teams, e'.teams);
    SameNormalized(Flatten(e.teams), Flatten(e'.teams));
    SameNormalized(e.players, e'.players);
    NormalizedParts(Ingestion.Tags(Flatten(e.teams)), Ingestion.Tags(e.players));
    NormalizedParts(Ingestion.Tags(Flatten(e'.teams)), Ingestion.Tags(e'.players));
  }

  lemma NormalizedParts(a: seq<string>, b: seq<string>)
    ensures Normalized(a + b) == Normalized(a) + Normalized(b)
  {
    hide NormalizeTag;
  }

  lemma SameOnTeam(a: seq<Participant>, b: seq<Participant>, tag: string)
    requires SameTeam(a, b)
    ensures OnTeam(a, tag) <==> OnTeam(b, tag)
  {
    hide NormalizeTag, SamePlayer;
    forall j | 0 <= j < |a| ensures NormalizeTag(a[j].tag) == NormalizeTag(b[j].tag) {
      assert SameParticipant(a[j], b[j]);
      NormalizesAlike(a[j].tag, b[j].tag);
    }
  }

  lemma {:induction false} SameTeamOf(a: seq<seq<Participant>>, b: seq<seq<Participant>>, tag: string, from: nat)
    requires |a| == |b| && from <= |a| && forall i :: 0 <= i < |a| ==> SameTeam(a[i], b[i])
    ensures TeamOf(a, tag, from) == TeamOf(b, tag, from)
    decreases |a| - from
  {
    hide OnTeam, SameTeam;
    if from < |a| {
      SameOnTeam(a[from], b[from], tag);
      SameTeamOf(a, b, tag, from + 1);
    }
  }

  lemma SamePlayerWrites(fp: string, p: Participant, p': Participant, row: ParticipantRow)
    requires SameParticipant(p, p')
    ensures PlayerWrites(fp, p, row) == PlayerWrites(fp, p', row)
  {
    hide NormalizeTag, SamePlayer;
    NormalizesAlike(p.tag, p'.tag);
  }

  lemma SameTeamRow(e: BattleEntry, e': BattleEntry, i: nat, p: Participant, p': Participant)
    requires SameEntry(e, e') && SameParticipant(p, p')
    ensures TeamRow(e, i, p) == TeamRow(e', i, p')
  {
    hide NormalizeTag, SamePlayer;
    NormalizesAlike(p.tag, p'.tag);
    if e.starPlayer.Some? {
      NormalizesAlike(e.starPlayer.value, e'.starPlayer.value);
    }
  }

  lemma {:induction false} SameMembers(e: BattleEntry, e': BattleEntry, fp: string, i: nat, a: seq<Participant>, b: seq<Participant>)
    requires SameEntry(e, e') && SameTeam(a, b)
    ensures MemberWrites(e, fp, i, a) == MemberWrites(e', fp, i, b)
    decreases |a|
  {
    hide PlayerWrites, TeamRow, SameParticipant, SameEntry;
    if a != [] {
      assert SameParticipant(a[0], b[0]);
      SameTeamRow(e, e', i, a[0], b[0]);
      SamePlayerWrites(fp, a[0], b[0], TeamRow(e, i, a[0]));
      SameMembers(e, e', fp, i, a[1..], b[1..]);
    }
  }

  lemma {:induction false} SameTeams(e: BattleEntry, e': BattleEntry, fp: string, d: string, from: nat)
    requires SameEntry(e, e') && from <= |e.teams|
    ensures TeamWrites(e, fp, d, from) == TeamWrites(e', fp, d, from)
    decreases |e.teams| - from
  {
    hide MemberWrites, SameTeam;
    if from < |e.teams| {
      SameTeamOf(e.teams, e'.teams, d, 0);
      SameMembers(e, e', fp, from, e.teams[from], e'.teams[from]);
      SameTeams(e, e', fp, d, from + 1);
    }
  }

  lemma SameFlatRow(p: Participant, p': Participant)
    requires SameParticipant(p, p')
    ensures FlatRow(p) == FlatRow(p')
  {}

  lemma {:induction false} SameFlat(fp: string, a: seq<Participant>, b: seq<Participant>)
    requires SameTeam(a, b)
    ensures FlatWrites(fp, a) == FlatWrites(fp, b)
    decreases |a|
  {
    hide PlayerWrites, FlatRow, SameParticipant;
    if a != [] {
      assert SameParticipant(a[0], b[0]);
      SameFlatRow(a[0], b[0]);
      SamePlayerWrites(fp, a[0], b[0], FlatRow(a[0]));
      SameFlat(fp, a[1..], b[1..]);
    }
  }

  /** However its tags are written, with '#' or without and in either case, an entry has the same
      fingerprint and the same statements. */
  lemma SameIngestion(e: BattleEntry, e': BattleEntry, d: string)
    requires SameEntry(e, e') && Ingestible(e)
    ensures Ingestible(e') && Preimage(KeyOf(e')) == Preimage(KeyOf(e)) && Writes(e', d) == Writes(e, d)
  {
    hide Preimage, TeamWrites, FlatWrites, AllTags, SamePlayer, NormalizeTag, SameTeam;
    SameKey(e, e');
    var fp := Preimage(KeyOf(e));
    SameTeams(e, e', fp, d, 0);
    SameFlat(fp, e.players, e'.players);
    if e.starPlayer.Some? {
      NormalizesAlike(e.starPlayer.value, e'.starPlayer.value);
    }
    assert BattleOf(e', d) == BattleOf(e, d);
  }

  predicate ListsPlayer(team: seq<Participant>, tag: string) {
    exists j :: 0 <= j < |team| && SamePlayer(team[j].tag, tag)
  }

  /** The player whose log it is, by his queue tag, is found on the first team that lists him, however the
      entry writes his tag; that team gets his result, and every other team the opposite of a victory or a
      defeat, and any other result as it is.  If no team lists him, they all get none. */
  lemma DiscovererFound(e: BattleEntry, tag: string, i: nat)
    requires i < |e.teams|
    ensures ListsPlayer(e.teams[i], tag) && (forall k :: 0 <= k < i ==> !ListsPlayer(e.teams[k], tag)) ==>
              forall k: nat :: k < |e.teams| ==>
                TeamResult(e.teams, e.result, NormalizeTag(tag), k)
                == if k == i then e.result else if e.result == "victory" then "defeat"
                   else if e.result == "defeat" then "victory" else e.result
    ensures (forall k :: 0 <= k < |e.teams| ==> !ListsPlayer(e.teams[k], tag)) ==>
              TeamResult(e.teams, e.result, NormalizeTag(tag), i) == ""
  {
    hide NormalizeTag, ListsPlayer, OnTeam;
    forall k | 0 <= k < |e.teams| ensures OnTeam(e.teams[k], NormalizeTag(tag)) <==> ListsPlayer(e.teams[k], tag) {
      Listed(e.teams[k], tag);
    }
    FirstTeam(e.teams, NormalizeTag(tag), 0);
  }

  lemma Listed(team: seq<Participant>, tag: string)
    ensures OnTeam(team, NormalizeTag(tag)) <==> ListsPlayer(team, tag)
  {
    hide NormalizeTag, SamePlayer;
    forall j | 0 <= j < |team| ensures NormalizeTag(team[j].tag) == NormalizeTag(tag) <==> SamePlayer(team[j].tag, tag) {
      NormalizesAlike(team[j].tag, tag);
    }
  }

  lemma {:induction false} FirstTeam(teams: seq<seq<Participant>>, d: string, from: nat)
    requires from <= |teams|
    ensures TeamOf(teams, d, from).None? <==> forall k :: from <= k < |teams| ==> !OnTeam(teams[k], d)
    ensures TeamOf(teams, d, from).Some? ==>
              var i := TeamOf(teams, d, from).value;
              from <= i < |teams| && OnTeam(teams[i], d) && forall k :: from <= k < i ==> !OnTeam(teams[k], d)
    decreases |teams| - from
  {
    hide OnTeam;
    if from < |teams| && !OnTeam(teams[from], d) {
      FirstTeam(teams, d, from + 1);
    }
  }
}
