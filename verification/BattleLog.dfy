/** A whole battle log ingested entry by entry, while other workers write in between: what the
    database holds after it, and which entries were new battles when their turn came. */
module BattleLog {
  import opened Fingerprint
  import opened Ingestion
  import opened Confluence
  import opened Completion
  import Dedup

  /** The entries of one player's log, the statements other workers carry out before each of them, and
      whether the database carries out statement k of entry i. */
  datatype Log = Log(entries: seq<BattleEntry>, discoverer: string, others: nat -> seq<Write>, ok: nat -> nat -> bool)

  /** Statements of others; one that violates a foreign key has no effect. */
  function Carried(t: Tables, ws: seq<Write>): Tables
    decreases |ws|
  {
    if ws == [] then t
    else Carried(match Apply(t, ws[0]) case Some(t') => t' case None => t, ws[1..])
  }

  /** The database once the first n entries are ingested completely. */
  function After(l: Log, t: Tables, n: nat): Tables
    requires n <= |l.entries|
  {
    if n == 0 then t
    else if !Ingestible(l.entries[n - 1]) then Carried(After(l, t, n - 1), l.others(n - 1))
    else ApplyAll(Carried(After(l, t, n - 1), l.others(n - 1)), Writes(l.entries[n - 1], l.discoverer)).tables
  }

  /** The database when entry i's turn comes. */
  function Turn(l: Log, t: Tables, i: nat): Tables
    requires i < |l.entries|
  {
    Carried(After(l, t, i), l.others(i))
  }

  /** The entry is ingested completely on tables t. */
  ghost predicate Goes(t: Tables, e: BattleEntry, discoverer: string, ok: nat -> bool) {
    && Ingestible(e)
    && var ws := Writes(e, discoverer);
       (forall k: nat :: k < |ws| && !ws[k].Discover? ==> ok(k)) && ApplyAll(t, ws).done
  }

  ghost predicate Complete(l: Log, t: Tables, i: nat)
    requires i < |l.entries|
  {
    Goes(Turn(l, t, i), l.entries[i], l.discoverer, l.ok(i))
  }

  ghost predicate AllComplete(l: Log, t: Tables, n: nat)
    requires n <= |l.entries|
  {
    forall i: nat :: i < n ==> Complete(l, t, i)
  }

  function FingerprintAt(l: Log, i: nat): string
    requires i < |l.entries| && l.entries[i].time.Some?
  {
    Preimage(KeyOf(l.entries[i]))
  }

  predicate IsNew(l: Log, t: Tables, i: nat)
    requires i < |l.entries|
  {
    l.entries[i].time.Some? && FingerprintAt(l, i) !in Turn(l, t, i).battles
  }

  function NewCount(l: Log, t: Tables, n: nat): nat
    requires n <= |l.entries|
  {
    if n == 0 then 0 else NewCount(l, t, n - 1) + if IsNew(l, t, n - 1) then 1 else 0
  }

  // --------------------------------------------------------------------- the ingestor and the tables

  /** An ingestion succeeds exactly when the database carries out its statements and no foreign key is
      violated, and then its tables are those of the statement sequence. */
  lemma {:induction false} PerformDone(b: Budget, d: Desk, ws: seq<Write>, ok: nat -> bool, i: nat)
    ensures var w := Perform(b, d, ws, ok, i);
            && (w.done <==> ApplyAll(d.tables, ws).done && forall k: nat :: k < |ws| && !ws[k].Discover? ==> ok(i + k))
            && (w.done ==> w.desk.tables == ApplyAll(d.tables, ws).tables)
    decreases |ws|
  {
    hide Apply, Discovered;
    if ws != [] {
      var w, rest := ws[0], ws[1..];
      DiscoverKeepsTables(b, d, w, ok(i));
      if w.Discover? {
        PerformDone(b, if ok(i) then Discovered(b, d, w.tag) else d, rest, ok, i + 1);
      } else if Apply(d.tables, w).Some? {
        PerformDone(b, d.(tables := Apply(d.tables, w).value), rest, ok, i + 1);
      }
      Shifted(ws, ok, i);
    }
  }

  lemma GoesWhenDone(b: Budget, d: Desk, e: BattleEntry, ok: nat -> bool)
    ensures Goes(d.tables, e, b.discoverer, ok) <==> Ingestible(e) && Perform(b, d, Writes(e, b.discoverer), ok, 0).done
    ensures Goes(d.tables, e, b.discoverer, ok) ==>
              Perform(b, d, Writes(e, b.discoverer), ok, 0).desk.tables
              == ApplyAll(d.tables, Writes(e, b.discoverer)).tables
  {
    hide Perform, ApplyAll, Writes;
    if Ingestible(e) {
      var ws := Writes(e, b.discoverer);
      PerformDone(b, d, ws, ok, 0);
      assert forall k: nat :: k < |ws| && !ws[k].Discover? ==> (ok(0 + k) <==> ok(k));
    }
  }

  lemma NoEntryYet(l: Log, t: Tables)
    ensures After(l, t, 0) == t && AllComplete(l, t, 0) && NewCount(l, t, 0) == 0
  {}

  lemma Broken(l: Log, t: Tables, i: nat)
    requires i < |l.entries| && !Complete(l, t, i)
    ensures !AllComplete(l, t, |l.entries|)
  {}

  lemma NextEntry(l: Log, t: Tables, i: nat)
    requires i < |l.entries|
    ensures var turn, e := Carried(After(l, t, i), l.others(i)), l.entries[i];
            && (Complete(l, t, i) <==> Goes(turn, e, l.discoverer, l.ok(i)))
            && (AllComplete(l, t, i + 1) <==> AllComplete(l, t, i) && Complete(l, t, i))
            && (Complete(l, t, i) ==>
                  && After(l, t, i + 1) == ApplyAll(turn, Writes(e, l.discoverer)).tables
                  && NewCount(l, t, i + 1)
                     == NewCount(l, t, i) + if Preimage(KeyOf(e)) !in turn.battles then 1 else 0)
  {
    hide Writes, Preimage, ApplyAll, Carried;
  }

  lemma Shifted(ws: seq<Write>, ok: nat -> bool, i: nat)
    requires ws != []
    ensures (forall k: nat :: k < |ws| && !ws[k].Discover? ==> ok(i + k))
            <==> (!ws[0].Discover? ==> ok(i)) && forall k: nat :: k < |ws[1..]| && !ws[1..][k].Discover? ==> ok(i + 1 + k)
  {
    if (!ws[0].Discover? ==> ok(i)) && forall k: nat :: k < |ws[1..]| && !ws[1..][k].Discover? ==> ok(i + 1 + k) {
      forall k: nat | k < |ws| && !ws[k].Discover? ensures ok(i + k) {
        if k > 0 {
          var j: nat := k - 1;
          assert ws[1..][j] == ws[k];
          assert i + 1 + j == i + k;
        }
      }
    }
    if forall k: nat :: k < |ws| && !ws[k].Discover? ==> ok(i + k) {
      assert !ws[0].Discover? ==> ok(i + 0);
      forall k: nat | k < |ws[1..]| && !ws[1..][k].Discover? ensures ok(i + 1 + k) {
        assert ws[k + 1] == ws[1..][k];
        assert i + 1 + k == i + (k + 1);
      }
    }
  }

  // ------------------------------------------------------------------------------ nothing is lost

  lemma {:induction false} CarriedGrows(t: Tables, ws: seq<Write>)
    ensures Grown(t, Carried(t, ws))
    decreases |ws|
  {
    hide Apply, Grown;
    GrownReflexive(t);
    if ws != [] {
      var t' := if Apply(t, ws[0]).Some? then Apply(t, ws[0]).value else t;
      if Apply(t, ws[0]).Some? {
        StepGrows(t, ws[0]);
      }
      CarriedGrows(t', ws[1..]);
      GrownTransitive(t, t', Carried(t', ws[1..]));
    }
  }

  lemma OneTurnGrows(l: Log, t: Tables, i: nat)
    requires i < |l.entries|
    ensures Grown(After(l, t, i), Turn(l, t, i)) && Grown(Turn(l, t, i), After(l, t, i + 1))
  {
    hide Grown, Writes, Ingestible, ApplyAll;
    CarriedGrows(After(l, t, i), l.others(i));
    GrownReflexive(Turn(l, t, i));
    if Ingestible(l.entries[i]) {
      Grows(Turn(l, t, i), Writes(l.entries[i], l.discoverer));
    }
  }

  lemma {:induction false} LogGrows(l: Log, t: Tables, i: nat, n: nat)
    requires i <= n <= |l.entries|
    ensures Grown(After(l, t, i), After(l, t, n))
    decreases n
  {
    hide Grown, After, Turn;
    if i == n {
      GrownReflexive(After(l, t, i));
    } else {
      LogGrows(l, t, i, n - 1);
      OneTurnGrows(l, t, n - 1);
      GrownTransitive(After(l, t, n - 1), Turn(l, t, n - 1), After(l, t, n));
      GrownTransitive(After(l, t, i), After(l, t, n - 1), After(l, t, n));
    }
  }

  /** Whatever the others write in between, a completely ingested log leaves every battle of it and a
      row for everybody who took part. */
  lemma LogIsStored(l: Log, t: Tables, n: nat, i: nat)
    requires i < n <= |l.entries| && Complete(l, t, i)
    ensures var e, t' := l.entries[i], After(l, t, n);
            && FingerprintAt(l, i) in t'.battles
            && (forall j: nat, k: nat :: j < |e.teams| && k < |e.teams[j]| ==>
                  (FingerprintAt(l, i), NormalizeTag(e.teams[j][k].tag)) in t'.participants)
            && (e.teams == [] ==> forall k :: 0 <= k < |e.players| ==>
                  (FingerprintAt(l, i), NormalizeTag(e.players[k].tag)) in t'.participants)
  {
    hide Preimage, NormalizeTag, Writes, ApplyAll, Carried;
    CompleteIngestion(l.entries[i], l.discoverer, Turn(l, t, i));
    LogGrows(l, t, i + 1, n);
  }

  // ------------------------------------------------------------------------ which entries are new

  ghost predicate Inserts(ws: seq<Write>, fp: string) {
    exists k :: 0 <= k < |ws| && ws[k].PutBattle? && ws[k].fp == fp
  }

  lemma {:induction false} CarriedBattle(t: Tables, ws: seq<Write>, fp: string)
    ensures fp in Carried(t, ws).battles <==> fp in t.battles || Inserts(ws, fp)
    decreases |ws|
  {
    if ws != [] {
      var w, rest := ws[0], ws[1..];
      var t' := if Apply(t, w).Some? then Apply(t, w).value else t;
      assert fp in t'.battles <==> fp in t.battles || (w.PutBattle? && w.fp == fp);
      CarriedBattle(t', rest, fp);
      assert Inserts(ws, fp) <==> (w.PutBattle? && w.fp == fp) || Inserts(rest, fp) by {
        if Inserts(rest, fp) {
          var k :| 0 <= k < |rest| && rest[k].PutBattle? && rest[k].fp == fp;
          assert ws[k + 1] == rest[k];
        }
        if Inserts(ws, fp) && !(w.PutBattle? && w.fp == fp) {
          var k :| 0 <= k < |ws| && ws[k].PutBattle? && ws[k].fp == fp;
          assert rest[k - 1] == ws[k];
        }
      }
    }
  }

  lemma EntryBattle(l: Log, t: Tables, i: nat, fp: string)
    requires i < |l.entries| && Complete(l, t, i)
    ensures fp in After(l, t, i + 1).battles <==> fp in Turn(l, t, i).battles || fp == FingerprintAt(l, i)
  {
    hide Preimage, Writes, ApplyAll, Carried;
    var e := l.entries[i];
    CompleteIngestion(e, l.discoverer, Turn(l, t, i));
    OneTurnGrows(l, t, i);
    WritesAbout(e, l.discoverer);
    OthersUntouched(Turn(l, t, i), Writes(e, l.discoverer), FingerprintAt(l, i));
  }

  predicate HasFingerprint(e: BattleEntry, fp: string) {
    e.time.Some? && Preimage(KeyOf(e)) == fp
  }

  lemma {:induction false} StoredSoFar(l: Log, t: Tables, n: nat, fp: string)
    requires n <= |l.entries| && AllComplete(l, t, n)
    ensures fp in After(l, t, n).battles
            <==> fp in t.battles || exists k: nat :: k < n && (Inserts(l.others(k), fp) || HasFingerprint(l.entries[k], fp))
    decreases n
  {
    hide Preimage, After, Turn, Inserts, Carried, Writes, ApplyAll;
    if n == 0 {
      NoEntryYet(l, t);
    } else {
      StoredSoFar(l, t, n - 1, fp);
      assert Complete(l, t, n - 1);
      EntryBattle(l, t, n - 1, fp);
      TurnBattle(l, t, n - 1, fp);
    }
  }

  lemma TurnBattle(l: Log, t: Tables, i: nat, fp: string)
    requires i < |l.entries|
    ensures fp in Turn(l, t, i).battles <==> fp in After(l, t, i).battles || Inserts(l.others(i), fp)
  {
    CarriedBattle(After(l, t, i), l.others(i), fp);
  }

  ghost predicate WellFormedEntry(e: BattleEntry) {
    e.time.Some? && WellFormed(KeyOf(e))
  }

  ghost predicate WellFormedLog(l: Log, n: nat)
    requires n <= |l.entries|
  {
    forall k: nat :: k < n ==> l.entries[k].time.Some? && WellFormedEntry(l.entries[k])
  }

  /** Same time, same event, and the same multiset of participants. */
  ghost predicate SameBattle(a: BattleEntry, b: BattleEntry) {
    a.time.Some? && b.time.Some? && Dedup.CanonicalOf(KeyOf(a)) == Dedup.CanonicalOf(KeyOf(b))
  }

  lemma SameBattleExact(a: BattleEntry, b: BattleEntry)
    requires WellFormedEntry(a) && WellFormedEntry(b)
    ensures HasFingerprint(a, Preimage(KeyOf(b))) <==> SameBattle(a, b)
  {
    hide Preimage, WellFormed, KeyOf, Dedup.CanonicalOf;
    Dedup.SameFingerprint(KeyOf(a), KeyOf(b));
  }

  /** An entry is new exactly when its battle was not stored before, nobody else stored it since, and
      no earlier entry of the log is the same battle. */
  lemma NewIff(l: Log, t: Tables, i: nat)
    requires i < |l.entries| && AllComplete(l, t, i) && WellFormedLog(l, i + 1)
    ensures IsNew(l, t, i) <==>
              && FingerprintAt(l, i) !in t.battles
              && (forall k: nat :: k <= i ==> !Inserts(l.others(k), FingerprintAt(l, i)))
              && (forall k: nat :: k < i ==> !SameBattle(l.entries[k], l.entries[i]))
  {
    hide Preimage, Turn, After, Inserts, Complete, WellFormed, HasFingerprint, SameBattle, KeyOf;
    assert WellFormedEntry(l.entries[i]);
    var fp := FingerprintAt(l, i);
    StoredSoFar(l, t, i, fp);
    TurnBattle(l, t, i, fp);
    forall k: nat | k < i ensures HasFingerprint(l.entries[k], fp) <==> SameBattle(l.entries[k], l.entries[i]) {
      SameBattleExact(l.entries[k], l.entries[i]);
    }
  }

  /** Nobody else stores a battle of the log. */
  ghost predicate Alone(l: Log) {
    forall i: nat, k: nat :: i < |l.entries| && k < |l.entries| && l.entries[i].time.Some?
                             ==> !Inserts(l.others(k), FingerprintAt(l, i))
  }

  ghost function Keys(l: Log, n: nat): (keys: seq<BattleKey>)
    requires n <= |l.entries| && forall k: nat :: k < n ==> l.entries[k].time.Some?
    ensures |keys| == n
  {
    seq(n, k requires 0 <= k < n => KeyOf(l.entries[k]))
  }

  /** The two tables of battles agree: on a database without battles, entry by entry, an ingestion
      reports a new battle exactly when the insert of its fingerprint does, and a crawl counts as many
      new battles as there are different battles in its log. */
  lemma {:induction false} CountsDifferentBattles(l: Log, t: Tables, n: nat)
    requires n <= |l.entries| && AllComplete(l, t, n) && WellFormedLog(l, n)
    requires Alone(l) && t.battles == map[]
    ensures forall i: nat :: i < n ==> (IsNew(l, t, i) <==> Dedup.Result(Keys(l, n), i).isNew)
    ensures NewCount(l, t, n) == |Dedup.Battles(Keys(l, n), n)|
  {
    hide Preimage, Turn, After, Inserts, Complete, WellFormed, KeyOf, Dedup.Result, IsNew, Dedup.CanonicalOf;
    var keys := Keys(l, n);
    forall i: nat | i < n ensures IsNew(l, t, i) <==> Dedup.Result(keys, i).isNew {
      NewIff(l, t, i);
      Dedup.DeduplicationIsExact(keys, i, i);
      assert WellFormedEntry(l.entries[i]);
      forall k: nat | k < i ensures SameBattle(l.entries[k], l.entries[i]) <==> Dedup.CanonicalOf(keys[k]) == Dedup.CanonicalOf(keys[i]) {
        assert WellFormedEntry(l.entries[k]);
      }
    }
    SameCounts(l, t, n, keys, n);
    Dedup.NewCountsBattles(keys, n);
  }

  lemma {:induction false} SameCounts(l: Log, t: Tables, n: nat, keys: seq<BattleKey>, m: nat)
    requires m <= n <= |l.entries| && |keys| == n
    requires forall i: nat :: i < n ==> (IsNew(l, t, i) <==> Dedup.Result(keys, i).isNew)
    ensures NewCount(l, t, m) == Dedup.NewCount(keys, m)
    decreases m
  {
    hide Dedup.Result, IsNew;
    if m > 0 {
      SameCounts(l, t, n, keys, m - 1);
    }
  }

  function AddedByOthers(l: Log, t: Tables, n: nat): int
    requires n <= |l.entries|
  {
    if n == 0 then 0
    else AddedByOthers(l, t, n - 1) + |Turn(l, t, n - 1).battles| - |After(l, t, n - 1).battles|
  }

  /** Every battle row is accounted for: what a completely ingested log adds to the table beyond the
      others' rows is the number of new battles reported. */
  lemma {:induction false} RowsAreNewBattles(l: Log, t: Tables, n: nat)
    requires n <= |l.entries| && AllComplete(l, t, n)
    ensures |After(l, t, n).battles| == |t.battles| + NewCount(l, t, n) + AddedByOthers(l, t, n)
    decreases n
  {
    hide Complete, IsNew, Turn, After, Writes, ApplyAll;
    if n == 0 {
      NoEntryYet(l, t);
    } else {
      RowsAreNewBattles(l, t, n - 1);
      assert Complete(l, t, n - 1);
      OneRow(l, t, n - 1);
    }
  }

  lemma OneRow(l: Log, t: Tables, i: nat)
    requires i < |l.entries| && Complete(l, t, i)
    ensures |After(l, t, i + 1).battles| == |Turn(l, t, i).battles| + if IsNew(l, t, i) then 1 else 0
  {
    hide Preimage, Turn, After, Writes, ApplyAll;
    var a, b, fp := Turn(l, t, i).battles, After(l, t, i + 1).battles, FingerprintAt(l, i);
    forall x ensures x in b <==> x in a || x == fp {
      EntryBattle(l, t, i, x);
    }
    OneKey(a.Keys, b.Keys, fp);
    assert |a.Keys| == |a| && |b.Keys| == |b|;
  }

  lemma OneKey(a: set<string>, b: set<string>, fp: string)
    requires forall x :: x in b <==> x in a || x == fp
    ensures |b| == |a| + if fp in a then 0 else 1
  {
    if fp in a {
      assert b == a;
    } else {
      assert b == a + {fp} && b - {fp} == a;
      assert |b - {fp}| == |b| - 1;
    }
  }
}
