/** Battle rows and their surrogate ids: deduplication over whole runs. */
module Dedup {
  import opened Fingerprint

  /** The battles table reduced to fingerprint and id; `next` is the id sequence, which also loses a
      number whenever an insert finds the fingerprint taken. */
  datatype Store = Store(ids: map<string, nat>, next: nat)

  datatype Inserted = Inserted(battleId: nat, isNew: bool)

  function After(s: Store, fp: string): Store {
    if fp in s.ids then s.(next := s.next + 1) else Store(s.ids[fp := s.next], s.next + 1)
  }

  function Outcome(s: Store, fp: string): Inserted {
    if fp in s.ids then Inserted(s.ids[fp], false) else Inserted(s.next, true)
  }

  class BattleStore {
    var ids: map<string, nat>
    var next: nat

    ghost function Contents(): Store
      reads this
    {
      Store(ids, next)
    }

    constructor ()
      ensures Contents() == Store(map[], 1)
    {
      ids, next := map[], 1;
    }

    method InsertBattle(fp: string) returns (r: Inserted)
      modifies this
      ensures r == Outcome(old(Contents()), fp) && Contents() == After(old(Contents()), fp)
      ensures r.isNew <==> fp !in old(ids)
      ensures r.battleId == if fp in old(ids) then old(ids)[fp] else old(next)
      ensures next == old(next) + 1 && ids == if fp in old(ids) then old(ids) else old(ids)[fp := old(next)]
    {
      var id := next;
      next := next + 1;
      if fp !in ids {
        ids := ids[fp := id];
        return Inserted(id, true);
      }
      r := Inserted(ids[fp], false);
    }
  }

  /** The table before insert number n of a run that starts empty. */
  function Before(keys: seq<BattleKey>, n: nat): Store
    requires n <= |keys|
  {
    if n == 0 then Store(map[], 1) else After(Before(keys, n - 1), Preimage(keys[n - 1]))
  }

  function Result(keys: seq<BattleKey>, n: nat): Inserted
    requires n < |keys|
  {
    Outcome(Before(keys, n), Preimage(keys[n]))
  }

  /** What identifies a real-world battle. */
  type Canonical = (string, int, multiset<string>)

  ghost function CanonicalOf(key: BattleKey): Canonical {
    (key.time, key.eventId, multiset(Normalized(key.tags)))
  }

  ghost predicate AllWellFormed(keys: seq<BattleKey>) {
    forall i :: 0 <= i < |keys| ==> WellFormed(keys[i])
  }

  lemma SameFingerprint(a: BattleKey, b: BattleKey)
    requires WellFormed(a) && WellFormed(b)
    ensures Preimage(a) == Preimage(b) <==> CanonicalOf(a) == CanonicalOf(b)
  {
    PreimageExact(a, b);
  }

  /** Different fingerprints have different ids, all drawn from the sequence already. */
  ghost predicate Distinct(s: Store) {
    && (forall fp :: fp in s.ids ==> s.ids[fp] < s.next)
    && (forall f, g :: f in s.ids && g in s.ids && s.ids[f] == s.ids[g] ==> f == g)
  }

  lemma InsertKeepsDistinct(s: Store, fp: string)
    requires Distinct(s)
    ensures Distinct(After(s, fp))
  {}

  lemma {:induction false} IdsUnique(keys: seq<BattleKey>, n: nat)
    requires n <= |keys|
    ensures Distinct(Before(keys, n))
    decreases n
  {
    if n > 0 {
      IdsUnique(keys, n - 1);
      InsertKeepsDistinct(Before(keys, n - 1), Preimage(keys[n - 1]));
    }
  }

  /** The fingerprint of insert i is stored, under the id that insert returned, from then on. */
  lemma {:induction false} IdStays(keys: seq<BattleKey>, i: nat, n: nat)
    requires i < n <= |keys|
    ensures var s := Before(keys, n);
            Preimage(keys[i]) in s.ids && s.ids[Preimage(keys[i])] == Result(keys, i).battleId
    decreases n
  {
    hide Preimage;
    if i < n - 1 {
      IdStays(keys, i, n - 1);
    }
  }

  lemma {:induction false} StoredBefore(keys: seq<BattleKey>, n: nat, fp: string)
    requires n <= |keys| && fp in Before(keys, n).ids
    ensures exists i :: 0 <= i < n && Preimage(keys[i]) == fp
    decreases n
  {
    hide Preimage;
    if n > 0 {
      if Preimage(keys[n - 1]) != fp {
        StoredBefore(keys, n - 1, fp);
      }
    }
  }

  /** Over any run, an insert is new exactly when no earlier one had the same time, event and multiset
      of participants, and two inserts return one id exactly when they agree on these. */
  lemma DeduplicationIsExact(keys: seq<BattleKey>, i: nat, j: nat)
    requires AllWellFormed(keys) && i < |keys| && j < |keys|
    ensures Result(keys, i).isNew <==> forall k :: 0 <= k < i ==> CanonicalOf(keys[k]) != CanonicalOf(keys[i])
    ensures Result(keys, i).battleId == Result(keys, j).battleId <==> CanonicalOf(keys[i]) == CanonicalOf(keys[j])
  {
    IdsUnique(keys, |keys|);
    IdStays(keys, i, |keys|);
    IdStays(keys, j, |keys|);
    if Preimage(keys[i]) in Before(keys, i).ids {
      StoredBefore(keys, i, Preimage(keys[i]));
    }
    forall k | 0 <= k < i ensures Preimage(keys[k]) in Before(keys, i).ids {
      IdStays(keys, k, i);
    }
    forall k | 0 <= k < |keys| ensures Preimage(keys[k]) == Preimage(keys[i]) <==> CanonicalOf(keys[k]) == CanonicalOf(keys[i]) {
      SameFingerprint(keys[k], keys[i]);
    }
    hide Preimage, CanonicalOf, WellFormed;
  }

  function NewCount(keys: seq<BattleKey>, n: nat): nat
    requires n <= |keys|
  {
    if n == 0 then 0 else NewCount(keys, n - 1) + if Result(keys, n - 1).isNew then 1 else 0
  }

  ghost function Battles(keys: seq<BattleKey>, n: nat): set<Canonical>
    requires n <= |keys|
  {
    set i | 0 <= i < n :: CanonicalOf(keys[i])
  }

  /** The number of inserts reported as new is the number of different battles. */
  lemma {:induction false} NewCountsBattles(keys: seq<BattleKey>, n: nat)
    requires AllWellFormed(keys) && n <= |keys|
    ensures NewCount(keys, n) == |Battles(keys, n)|
    decreases n
  {
    hide Preimage, CanonicalOf, WellFormed;
    if n > 0 {
      NewCountsBattles(keys, n - 1);
      DeduplicationIsExact(keys, n - 1, n - 1);
      var c := CanonicalOf(keys[n - 1]);
      assert Battles(keys, n) == Battles(keys, n - 1) + {c};
      assert c in Battles(keys, n - 1) <==> !Result(keys, n - 1).isNew;
    }
  }
}
