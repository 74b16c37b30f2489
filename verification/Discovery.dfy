/** Discovery accounting: what one ingestor adds to the crawl queue over all its calls. */
module Discovery {
  import opened Collections
  import opened Ingestion

  /** One IngestBattle call: the entry, which of its statements the database carries out, and the
      targets that other workers enqueue just before each of its statements. */
  datatype Call = Call(entry: BattleEntry, ok: nat -> bool, others: nat -> set<string>)

  /** The desk amid other workers; `others` are the tags that they, and not this ingestor, enqueued. */
  datatype Shared = Shared(desk: Desk, others: set<string>)

  function OthersEnqueue(s: Shared, more: set<string>): Shared {
    Shared(s.desk.(targets := s.desk.targets + more), s.others + (more - s.desk.targets))
  }

  datatype Outcome = Outcome(shared: Shared, done: bool)

  /** Ingestion.Perform with other workers in between the statements. */
  function PerformAmid(b: Budget, s: Shared, ws: seq<Write>, ok: nat -> bool, others: nat -> set<string>, i: nat): Outcome
    decreases |ws|
  {
    if ws == [] then Outcome(s, true)
    else
      var s1 := OthersEnqueue(s, others(i));
      var d := s1.desk;
      if ws[0].Discover? then
        PerformAmid(b, s1.(desk := if ok(i) then Discovered(b, d, ws[0].tag) else d), ws[1..], ok, others, i + 1)
      else if !ok(i) then Outcome(s1, false)
      else match Apply(d.tables, ws[0])
        case None => Outcome(s1, false)
        case Some(t) => PerformAmid(b, s1.(desk := d.(tables := t)), ws[1..], ok, others, i + 1)
  }

  /** Undisturbed, this is what the ingestor does. */
  lemma {:induction false} Undisturbed(b: Budget, s: Shared, ws: seq<Write>, ok: nat -> bool, others: nat -> set<string>, i: nat)
    requires forall k :: others(k) == {}
    ensures var w := Perform(b, s.desk, ws, ok, i);
            PerformAmid(b, s, ws, ok, others, i) == Outcome(Shared(w.desk, s.others), w.done)
    decreases |ws|
  {
    hide Apply, Discovered;
    if ws != [] {
      assert OthersEnqueue(s, others(i)) == s by {
        assert s.desk.targets + {} == s.desk.targets && s.others + ({} - s.desk.targets) == s.others;
      }
      var d := s.desk;
      if ws[0].Discover? {
        Undisturbed(b, s.(desk := if ok(i) then Discovered(b, d, ws[0].tag) else d), ws[1..], ok, others, i + 1);
      } else if ok(i) && Apply(d.tables, ws[0]).Some? {
        Undisturbed(b, s.(desk := d.(tables := Apply(d.tables, ws[0]).value)), ws[1..], ok, others, i + 1);
      }
    }
  }

  /** The desk after a number of calls, the discoveries the calls returned, and those that were made
      by calls which then failed. */
  datatype Ledger = Ledger(shared: Shared, returned: seq<string>, lost: seq<string>, failed: bool)

  function Start(tables: Tables, targets: set<string>): Ledger {
    Ledger(Shared(Desk(tables, targets, 0, []), {}), [], [], false)
  }

  function AfterCall(b: Budget, l: Ledger, c: Call): Ledger {
    if !Ingestible(c.entry) then l.(failed := true)
    else
      var o := PerformAmid(b, l.shared, Writes(c.entry, b.discoverer), c.ok, c.others, 0);
      var was, found := l.shared.desk.found, o.shared.desk.found;
      var news := if |was| <= |found| then found[|was|..] else [];
      if o.done then Ledger(o.shared, l.returned + news, l.lost, l.failed)
      else Ledger(o.shared, l.returned, l.lost + news, true)
  }

  function Calls(b: Budget, tables: Tables, targets: set<string>, cs: seq<Call>): Ledger
    decreases |cs|
  {
    if cs == [] then Start(tables, targets)
    else AfterCall(b, Calls(b, tables, targets, cs[..|cs| - 1]), cs[|cs| - 1])
  }

  function Elements(s: seq<string>): set<string> {
    set i | 0 <= i < |s| :: s[i]
  }

  ghost predicate Accounted(b: Budget, before: set<string>, others: set<string>, d: Desk) {
    && d.count == |d.found|
    && (forall i, j :: 0 <= i < j < |d.found| ==> d.found[i] != d.found[j])
    && (forall i :: 0 <= i < |d.found| ==> d.found[i] != b.discoverer && d.found[i] !in before && d.found[i] !in others)
    && d.targets == before + others + Elements(d.found)
    && (b.max > 0 ==> d.count <= b.max)
  }

  lemma DiscoverAccounts(b: Budget, before: set<string>, others: set<string>, d: Desk, tag: string)
    requires Accounted(b, before, others, d)
    ensures Accounted(b, before, others, Discovered(b, d, tag)) && d.found <= Discovered(b, d, tag).found
  {
    var d' := Discovered(b, d, tag);
    if d' != d {
      assert forall i :: 0 <= i < |d.found| ==> d.found[i] in Elements(d.found);
      assert d'.found[|d.found|] == tag;
      assert Elements(d'.found) == Elements(d.found) + {tag} by {
        forall x | x in Elements(d.found) ensures x in Elements(d'.found) {
          var i :| 0 <= i < |d.found| && d.found[i] == x;
          assert d'.found[i] == x;
        }
      }
    }
  }

  lemma OthersAccount(b: Budget, before: set<string>, s: Shared, more: set<string>)
    requires Accounted(b, before, s.others, s.desk)
    ensures Accounted(b, before, OthersEnqueue(s, more).others, OthersEnqueue(s, more).desk)
  {
    assert forall i :: 0 <= i < |s.desk.found| ==> s.desk.found[i] in Elements(s.desk.found);
  }

  lemma {:induction false} PerformAccounts(b: Budget, before: set<string>, s: Shared, ws: seq<Write>,
                                           ok: nat -> bool, others: nat -> set<string>, i: nat)
    requires Accounted(b, before, s.others, s.desk)
    ensures var o := PerformAmid(b, s, ws, ok, others, i).shared;
            Accounted(b, before, o.others, o.desk) && s.desk.found <= o.desk.found
    decreases |ws|
  {
    hide Apply, Discovered, Accounted;
    if ws != [] {
      var s1 := OthersEnqueue(s, others(i));
      OthersAccount(b, before, s, others(i));
      if ws[0].Discover? {
        DiscoverAccounts(b, before, s1.others, s1.desk, ws[0].tag);
        PerformAccounts(b, before, s1.(desk := if ok(i) then Discovered(b, s1.desk, ws[0].tag) else s1.desk), ws[1..],
                        ok, others, i + 1);
      } else if ok(i) && Apply(s1.desk.tables, ws[0]).Some? {
        var next := s1.(desk := s1.desk.(tables := Apply(s1.desk.tables, ws[0]).value));
        TablesDoNotCount(b, before, s1, next);
        PerformAccounts(b, before, next, ws[1..], ok, others, i + 1);
      }
    }
  }

  lemma TablesDoNotCount(b: Budget, before: set<string>, s: Shared, s': Shared)
    requires Accounted(b, before, s.others, s.desk) && s'.others == s.others
    requires s'.desk.targets == s.desk.targets && s'.desk.count == s.desk.count && s'.desk.found == s.desk.found
    ensures Accounted(b, before, s'.others, s'.desk)
  {}

  /** One call with nobody in between its statements. */
  lemma CallAccounts(b: Budget, before: set<string>, others: set<string>, d: Desk, ws: seq<Write>, ok: nat -> bool)
    requires Accounted(b, before, others, d)
    ensures Accounted(b, before, others, Perform(b, d, ws, ok, 0).desk)
  {
    hide Perform, PerformAmid, Accounted;
    var nobody: nat -> set<string> := _ => {};
    Undisturbed(b, Shared(d, others), ws, ok, nobody, 0);
    PerformAccounts(b, before, Shared(d, others), ws, ok, nobody, 0);
  }

  /** Between calls, others may enqueue and store what they like. */
  lemma OthersBetween(b: Budget, before: set<string>, others: set<string>, d: Desk, targets: set<string>, tables: Tables)
    requires Accounted(b, before, others, d) && d.targets <= targets
    ensures Accounted(b, before, others + (targets - d.targets), d.(targets := targets, tables := tables))
  {
    OthersAccount(b, before, Shared(d, others), targets);
    assert d.targets + targets == targets;
  }

  ghost predicate Reconciled(b: Budget, before: set<string>, l: Ledger) {
    && Accounted(b, before, l.shared.others, l.shared.desk)
    && multiset(l.returned) + multiset(l.lost) == multiset(l.shared.desk.found)
    && (!l.failed ==> l.returned == l.shared.desk.found && l.lost == [])
  }

  lemma CallReconciles(b: Budget, before: set<string>, l: Ledger, c: Call)
    requires Reconciled(b, before, l)
    ensures Reconciled(b, before, AfterCall(b, l, c))
  {
    hide PerformAmid, Writes, Accounted, Ingestible;
    if Ingestible(c.entry) {
      var ws := Writes(c.entry, b.discoverer);
      PerformAccounts(b, before, l.shared, ws, c.ok, c.others, 0);
      var was, found := l.shared.desk.found, PerformAmid(b, l.shared, ws, c.ok, c.others, 0).shared.desk.found;
      assert found == was + found[|was|..];
    }
  }

  /** Over any calls, failing or not, with other workers filling the queue between their statements:
      the rows this ingestor inserted are its discoveries, each once, never the discoverer, never a
      tag that was queued before or by somebody else, counted exactly and within a positive budget.
      The returned lists hold all of them but those of failed calls. */
  lemma DiscoveryAccounting(b: Budget, tables: Tables, targets: set<string>, cs: seq<Call>)
    ensures var l := Calls(b, tables, targets, cs);
            && Accounted(b, targets, l.shared.others, l.shared.desk)
            && multiset(l.returned) + multiset(l.lost) == multiset(l.shared.desk.found)
            && |l.returned| + |l.lost| == l.shared.desk.count
            && (!l.failed ==> l.returned == l.shared.desk.found)
  {
    hide Calls;
    RunReconciles(b, tables, targets, cs);
    var l := Calls(b, tables, targets, cs);
    assert |multiset(l.returned) + multiset(l.lost)| == |multiset(l.shared.desk.found)|;
  }

  lemma {:induction false} RunReconciles(b: Budget, tables: Tables, targets: set<string>, cs: seq<Call>)
    ensures Reconciled(b, targets, Calls(b, tables, targets, cs))
    decreases |cs|
  {
    hide AfterCall;
    if cs == [] {
      assert Elements([]) == {};
    } else {
      var before := cs[..|cs| - 1];
      RunReconciles(b, tables, targets, before);
      hide Reconciled;
      CallReconciles(b, targets, Calls(b, tables, targets, before), cs[|cs| - 1]);
    }
  }

  // ------------------------------------------------------------------------- the budget in a crawl

  /** The count of active targets was read and has reached the ceiling. */
  predicate AtCeiling(ceiling: int, activeCount: Option<nat>) {
    ceiling > 0 && activeCount.Some? && activeCount.value >= ceiling
  }

  /** The ingestor's budget: the configured one, or 0 at the ceiling. */
  function CrawlBudget(configured: int, ceiling: int, activeCount: Option<nat>): int {
    if AtCeiling(ceiling, activeCount) then 0 else configured
  }
}
