/** Counting reservoir draws.  Players arrive one by one into a reservoir of cap; once it is full,
    the seen-th player draws r < seen and a victim from the reservoir, replaces the victim if
    r < cap and is turned away otherwise.  The draws that go unused are counted too, so that all
    draw sequences weigh the same. */
module Reservoir {
  import opened Collections

  type Player = string

  /** The elements of a finite set, each once, in some order. */
  ghost function Listing(s: set<Player>): (l: seq<Player>)
    ensures |l| == |s|
    ensures forall x :: x in l <==> x in s
    ensures Distinct(l)
    decreases |s|
  {
    if s == {} then [] else
    var x := Pick(s);
    Listing(s - {x}) + [x]
  }

  predicate Distinct(l: seq<Player>) {
    forall i, j :: 0 <= i < j < |l| ==> l[i] != l[j]
  }

  function Elements(l: seq<Player>): set<Player> {
    set t | t in l
  }

  function Exchange(active: set<Player>, t: Player, cap: nat, r: nat, v: Player): set<Player> {
    if r < cap then active - {v} + {t} else active
  }

  function DrawRow(active: set<Player>, t: Player, cap: nat, r: nat, victims: seq<Player>): seq<set<Player>>
    decreases |victims|
  {
    if victims == [] then []
    else DrawRow(active, t, cap, r, victims[..|victims| - 1]) + [Exchange(active, t, cap, r, victims[|victims| - 1])]
  }

  function DrawRows(active: set<Player>, t: Player, cap: nat, r: nat, victims: seq<Player>): seq<set<Player>> {
    if r == 0 then []
    else DrawRows(active, t, cap, r - 1, victims) + DrawRow(active, t, cap, r - 1, victims)
  }

  /** The reservoirs after player t arrives as the seen-th, one for every draw. */
  ghost function Branches(active: set<Player>, t: Player, cap: nat, seen: nat): seq<set<Player>> {
    if seen <= cap then [active + {t}] else DrawRows(active, t, cap, seen, Listing(active))
  }

  ghost function AllBranches(l: seq<set<Player>>, t: Player, cap: nat, seen: nat): seq<set<Player>>
    decreases |l|
  {
    if l == [] then []
    else AllBranches(l[..|l| - 1], t, cap, seen) + Branches(l[|l| - 1], t, cap, seen)
  }

  /** The reservoirs after the players have arrived in turn, one for every draw sequence. */
  ghost function Samples(players: seq<Player>, cap: nat): seq<set<Player>>
    decreases |players|
  {
    if players == [] then [{}]
    else AllBranches(Samples(players[..|players| - 1], cap), players[|players| - 1], cap, |players|)
  }

  /** The number of entries that belong to the family. */
  function Hits(l: seq<set<Player>>, family: set<set<Player>>): nat
    decreases |l|
  {
    if l == [] then 0
    else Hits(l[..|l| - 1], family) + if l[|l| - 1] in family then 1 else 0
  }

  lemma {:induction false} HitsConcat(a: seq<set<Player>>, c: seq<set<Player>>, family: set<set<Player>>)
    ensures Hits(a + c, family) == Hits(a, family) + Hits(c, family)
    decreases |c|
  {
    if c == [] {
      assert a + c == a;
    } else {
      assert (a + c)[..|a + c| - 1] == a + c[..|c| - 1];
      HitsConcat(a, c[..|c| - 1], family);
    }
  }

  lemma {:induction false} HitsSplit(l: seq<set<Player>>, f: set<set<Player>>, g: set<set<Player>>)
    requires f !! g
    ensures Hits(l, f + g) == Hits(l, f) + Hits(l, g)
    decreases |l|
  {
    if l != [] {
      HitsSplit(l[..|l| - 1], f, g);
    }
  }

  lemma NothingHits(family: set<set<Player>>)
    ensures Hits([], family) == 0
  {}

  lemma {:induction false} NoHits(l: seq<set<Player>>)
    ensures Hits(l, {}) == 0
    decreases |l|
  {
    if l != [] {
      NoHits(l[..|l| - 1]);
    }
  }

  // ----------------------------------------------------------------------- one arrival's draws

  /** The sets that consist of base and one element of extra. */
  function Family(base: set<Player>, extra: set<Player>): set<set<Player>> {
    set x | x in extra :: base + {x}
  }

  /** Some victim turns the reservoir into target's rest. */
  predicate OneExchange(active: set<Player>, victims: seq<Player>, rest: set<Player>) {
    exists v :: v in victims && active - {v} == rest
  }

  /** A rejecting draw leaves the reservoir alone, whatever the unused victim. */
  lemma {:induction false} RejectHits(active: set<Player>, t: Player, cap: nat, r: nat, victims: seq<Player>, target: set<Player>)
    requires r >= cap
    ensures Hits(DrawRow(active, t, cap, r, victims), {target}) == if active == target then |victims| else 0
    decreases |victims|
  {
    if victims != [] {
      RejectHits(active, t, cap, r, victims[..|victims| - 1], target);
      assert DrawRow(active, t, cap, r, victims)[..|victims| - 1] == DrawRow(active, t, cap, r, victims[..|victims| - 1]) by {
        RowSize(active, t, cap, r, victims[..|victims| - 1]);
      }
    }
  }

  lemma {:induction false} RowSize(active: set<Player>, t: Player, cap: nat, r: nat, victims: seq<Player>)
    ensures |DrawRow(active, t, cap, r, victims)| == |victims|
    decreases |victims|
  {
    if victims != [] {
      RowSize(active, t, cap, r, victims[..|victims| - 1]);
    }
  }

  /** An accepting draw reaches a target with t in it through exactly one victim if the reservoir
      is one exchange away, and through none otherwise. */
  lemma {:induction false} AcceptHits(active: set<Player>, t: Player, cap: nat, r: nat, victims: seq<Player>, target: set<Player>)
    requires r < cap && t !in active && Distinct(victims) && forall v :: v in victims ==> v in active
    ensures Hits(DrawRow(active, t, cap, r, victims), {target}) ==
            if t in target && OneExchange(active, victims, target - {t}) then 1 else 0
    decreases |victims|
  {
    if victims != [] {
      var rest, v := victims[..|victims| - 1], victims[|victims| - 1];
      assert forall x :: x in victims <==> x in rest || x == v;
      AcceptHits(active, t, cap, r, rest, target);
      RowSize(active, t, cap, r, rest);
      assert DrawRow(active, t, cap, r, victims)[..|rest|] == DrawRow(active, t, cap, r, rest);
      assert active - {v} + {t} == target <==> t in target && active - {v} == target - {t};
      forall x | x in rest ensures active - {x} != active - {v} {
        assert v in active - {x} && v !in active - {v};
      }
    }
  }

  /** The number of draws below r that lead from a full reservoir to target: every reject draw
      keeps the reservoir, with each unused victim, and every accept draw reaches a set that is
      one exchange away through one victim. */
  function Weight(active: set<Player>, done: set<Player>, t: Player, cap: nat, target: set<Player>, r: nat): nat {
    if t in target then
      if active in Family(target - {t}, done - target) then (if r < cap then r else cap) else 0
    else if active == target && r >= cap then (r - cap) * cap
    else 0
  }

  lemma ExchangeFamily(active: set<Player>, done: set<Player>, t: Player, target: set<Player>)
    requires active <= done && t !in done && |active| == |target| && t in target
    ensures OneExchange(active, Listing(active), target - {t}) <==> active in Family(target - {t}, done - target)
  {
    hide Listing;
    if OneExchange(active, Listing(active), target - {t}) {
      ExchangeIsNeighbour(active, done, t, target);
    }
    if active in Family(target - {t}, done - target) {
      NeighbourIsExchange(active, done, t, target);
    }
  }

  lemma ExchangeIsNeighbour(active: set<Player>, done: set<Player>, t: Player, target: set<Player>)
    requires active <= done && t !in done && |active| == |target| && t in target
    requires OneExchange(active, Listing(active), target - {t})
    ensures active in Family(target - {t}, done - target)
  {
    hide Listing;
    var v :| v in Listing(active) && active - {v} == target - {t};
    assert v in active && v != t;
    assert v !in target - {t};
    assert active == (target - {t}) + {v};
  }

  lemma NeighbourIsExchange(active: set<Player>, done: set<Player>, t: Player, target: set<Player>)
    requires active in Family(target - {t}, done - target)
    ensures OneExchange(active, Listing(active), target - {t})
  {
    hide Listing;
    var x :| x in done - target && active == (target - {t}) + {x};
    assert x in Listing(active) && active - {x} == target - {t};
  }

  lemma OneMore(n: int, k: int)
    ensures (n + 1) * k == n * k + k
  {}

  lemma {:induction false} RowsBelowHits(active: set<Player>, done: set<Player>, t: Player, cap: nat, r: nat, target: set<Player>)
    requires active <= done && t !in done && |active| == cap == |target| && cap > 0
    ensures Hits(DrawRows(active, t, cap, r, Listing(active)), {target}) == Weight(active, done, t, cap, target, r)
    ensures |DrawRows(active, t, cap, r, Listing(active))| == r * cap
  {
    hide Hits, DrawRow, Listing, Family, OneExchange;
    var victims := Listing(active);
    if r == 0 {
      NothingHits({target});
    } else {
      RowsBelowHits(active, done, t, cap, r - 1, target);
      HitsConcat(DrawRows(active, t, cap, r - 1, victims), DrawRow(active, t, cap, r - 1, victims), {target});
      RowSize(active, t, cap, r - 1, victims);
      OneMore(r - 1, cap);
      if r - 1 < cap {
        AcceptHits(active, t, cap, r - 1, victims, target);
        if t in target {
          ExchangeFamily(active, done, t, target);
        }
      } else {
        RejectHits(active, t, cap, r - 1, victims, target);
        OneMore(r - 1 - cap, cap);
      }
    }
  }

  // --------------------------------------------------------------------------- all arrivals

  ghost predicate AllSubsets(l: seq<set<Player>>, done: set<Player>, size: nat) {
    forall i :: 0 <= i < |l| ==> l[i] <= done && |l[i]| == size
  }

  /** Player t arrives at every full reservoir of the list: a set without t keeps its own draw
      sequences, a set with t inherits those of its one-exchange neighbours. */
  lemma {:induction false} AllBranchesHits(l: seq<set<Player>>, done: set<Player>, t: Player, cap: nat, target: set<Player>)
    requires AllSubsets(l, done, cap) && t !in done && |done| >= cap > 0 && |target| == cap
    ensures Hits(AllBranches(l, t, cap, |done| + 1), {target}) ==
              if t in target then cap * Hits(l, Family(target - {t}, done - target))
              else ((|done| + 1 - cap) * cap) * Hits(l, {target})
    ensures |AllBranches(l, t, cap, |done| + 1)| == ((|done| + 1) * cap) * |l|
    decreases |l|
  {
    hide DrawRow, DrawRows, Listing, Family;
    if l != [] {
      var rest, active := l[..|l| - 1], l[|l| - 1];
      AllBranchesHits(rest, done, t, cap, target);
      HitsConcat(AllBranches(rest, t, cap, |done| + 1), Branches(active, t, cap, |done| + 1), {target});
      RowsBelowHits(active, done, t, cap, |done| + 1, target);
      OneMoreTimes((|done| + 1) * cap, |rest|);
      if t in target {
        OneMoreTimes(cap, Hits(rest, Family(target - {t}, done - target)));
      } else {
        OneMoreTimes((|done| + 1 - cap) * cap, Hits(rest, {target}));
      }
    }
  }

  lemma OneMoreTimes(k: int, n: int)
    ensures k * (n + 1) == k * n + k
  {}

  /** If every set base + {x} has the same count, the family has |extra| times it. */
  lemma {:induction false} FamilyHits(l: seq<set<Player>>, base: set<Player>, extra: set<Player>, each: nat)
    requires base !! extra
    requires forall x :: x in extra ==> Hits(l, {base + {x}}) == each
    ensures Hits(l, Family(base, extra)) == |extra| * each
    decreases |extra|
  {
    if extra == {} {
      assert Family(base, extra) == {};
      NoHits(l);
    } else {
      var x := Pick(extra);
      var rest := extra - {x};
      FamilyHits(l, base, rest, each);
      assert Family(base, extra) == Family(base, rest) + {base + {x}};
      forall y | y in rest ensures base + {y} != base + {x} {
        assert x !in base + {y};
      }
      HitsSplit(l, Family(base, rest), {base + {x}});
      OneMore(|rest|, each);
    }
  }

  lemma {:induction false} SamplesAreSubsets(players: seq<Player>, cap: nat)
    requires Distinct(players) && cap > 0
    ensures |Elements(players)| == |players|
    ensures |players| <= cap ==> Samples(players, cap) == [Elements(players)]
    ensures AllSubsets(Samples(players, cap), Elements(players), if |players| <= cap then |players| else cap)
    decreases |players|
  {
    hide AllBranches, Samples;
    if players == [] {
      SamplesNone(cap);
    } else {
      var before, t := players[..|players| - 1], players[|players| - 1];
      SamplesAreSubsets(before, cap);
      SamplesStep(players, cap);
      assert Elements(players) == Elements(before) + {t};
      if |players| <= cap {
        OneBranch(Elements(before), t, cap, |players|);
      } else {
        AllBranchesSubsets(Samples(before, cap), Elements(before), t, cap, |players|);
      }
    }
  }

  lemma SamplesNone(cap: nat)
    ensures Samples([], cap) == [{}] && Elements([]) == {}
  {}

  lemma OneBranch(active: set<Player>, t: Player, cap: nat, seen: nat)
    requires seen <= cap
    ensures AllBranches([active], t, cap, seen) == [active + {t}]
  {
    assert [active][..0] == [];
    assert AllBranches([], t, cap, seen) == [];
  }

  lemma {:induction false} AllBranchesSubsets(l: seq<set<Player>>, done: set<Player>, t: Player, cap: nat, seen: nat)
    requires AllSubsets(l, done, cap) && t !in done && seen > cap
    ensures AllSubsets(AllBranches(l, t, cap, seen), done + {t}, cap)
    decreases |l|
  {
    if l != [] {
      AllBranchesSubsets(l[..|l| - 1], done, t, cap, seen);
      RowsBelowSubsets(l[|l| - 1], done, t, cap, seen);
    }
  }

  lemma {:induction false} RowsBelowSubsets(active: set<Player>, done: set<Player>, t: Player, cap: nat, r: nat)
    requires active <= done && |active| == cap && t !in done
    ensures AllSubsets(DrawRows(active, t, cap, r, Listing(active)), done + {t}, cap)
  {
    hide Listing, DrawRow;
    if r > 0 {
      RowsBelowSubsets(active, done, t, cap, r - 1);
      RowSubsets(active, done, t, cap, r - 1, Listing(active));
    }
  }

  lemma {:induction false} RowSubsets(active: set<Player>, done: set<Player>, t: Player, cap: nat, r: nat, victims: seq<Player>)
    requires active <= done && |active| == cap && t !in done && forall v :: v in victims ==> v in active
    ensures AllSubsets(DrawRow(active, t, cap, r, victims), done + {t}, cap)
    decreases |victims|
  {
    if victims != [] {
      RowSubsets(active, done, t, cap, r, victims[..|victims| - 1]);
      assert victims[|victims| - 1] in active;
    }
  }

  lemma SamplesStep(players: seq<Player>, cap: nat)
    requires players != []
    ensures Samples(players, cap) ==
            AllBranches(Samples(players[..|players| - 1], cap), players[|players| - 1], cap, |players|)
  {}

  /** The number of draw sequences per cap-element subset after n players. */
  function Ways(n: nat, cap: nat): nat {
    if n <= cap then 1 else ((n - cap) * cap) * Ways(n - 1, cap)
  }

  /** After n >= cap players every cap-element subset of them is reached by equally many draw
      sequences. */
  lemma {:induction false} EqualWays(players: seq<Player>, cap: nat, target: set<Player>)
    requires Distinct(players) && |players| >= cap > 0
    requires target <= Elements(players) && |target| == cap
    ensures Hits(Samples(players, cap), {target}) == Ways(|players|, cap)
    decreases |players|
  {
    hide AllBranches, Samples, Family, Hits, Ways, Elements, AllSubsets;
    SamplesAreSubsets(players, cap);
    WaysStep(|players|, cap);
    if |players| == cap {
      SameSize(target, Elements(players));
      HitItself(target);
    } else {
      var before, t := players[..|players| - 1], players[|players| - 1];
      var done, l := Elements(before), Samples(before, cap);
      LastPlayer(players);
      SamplesAreSubsets(before, cap);
      SamplesStep(players, cap);
      if t in target {
        var base, extra := target - {t}, done - target;
        forall x | x in extra ensures Hits(l, {base + {x}}) == Ways(|before|, cap) {
          EqualWays(before, cap, base + {x});
        }
        NeighbourWays(l, done, t, cap, target, Ways(|before|, cap));
      } else {
        EqualWays(before, cap, target);
        AllBranchesHits(l, done, t, cap, target);
      }
    }
  }

  lemma LastPlayer(players: seq<Player>)
    requires players != [] && Distinct(players)
    ensures var before, t := players[..|players| - 1], players[|players| - 1];
            Elements(players) == Elements(before) + {t} && t !in Elements(before) && Distinct(before)
  {
    var before, t := players[..|players| - 1], players[|players| - 1];
    assert players == before + [t];
  }

  lemma WaysStep(n: nat, cap: nat)
    ensures n <= cap ==> Ways(n, cap) == 1
    ensures n > cap ==> Ways(n, cap) == ((n - cap) * cap) * Ways(n - 1, cap)
  {}

  lemma HitItself(target: set<Player>)
    ensures Hits([target], {target}) == 1
  {
    assert [target][..0] == [];
  }

  lemma NeighbourWays(l: seq<set<Player>>, done: set<Player>, t: Player, cap: nat, target: set<Player>, each: nat)
    requires AllSubsets(l, done, cap)
    requires t in target && t !in done && target <= done + {t} && |target| == cap <= |done|
    requires forall x :: x in done - target ==> Hits(l, {(target - {t}) + {x}}) == each
    ensures Hits(AllBranches(l, t, cap, |done| + 1), {target}) == ((|done| + 1 - cap) * cap) * each
  {
    hide Hits, Family, AllBranches, AllSubsets;
    AllBranchesHits(l, done, t, cap, target);
    FamilyHits(l, target - {t}, done - target, each);
    OneOut(done, t, target);
    Commute(cap, |done - target|, each);
  }

  lemma OneOut(done: set<Player>, t: Player, target: set<Player>)
    requires t in target && t !in done && target <= done + {t}
    ensures |done - target| == |done| + 1 - |target|
  {
    var base := target - {t};
    assert done == base + (done - target);
    assert |target| == |base| + 1;
  }

  lemma Commute(a: int, b: int, c: int)
    ensures a * (b * c) == (b * a) * c
  {}

  lemma SameSize(a: set<Player>, b: set<Player>)
    requires a <= b && |a| == |b|
    ensures a == b
  {
    if x :| x in b && x !in a {
      SubsetSize(a, b - {x});
    }
  }

  function Binomial(n: nat, k: nat): nat {
    if k == 0 then 1 else if n == 0 then 0 else Binomial(n - 1, k - 1) + Binomial(n - 1, k)
  }

  /** Together the subsets account for every draw sequence: the number of sequences is the number
      of cap-element subsets times the sequences of each. */
  lemma {:induction false} TotalWays(players: seq<Player>, cap: nat)
    requires Distinct(players) && |players| >= cap > 0
    ensures |Samples(players, cap)| == Binomial(|players|, cap) * Ways(|players|, cap)
    decreases |players|
  {
    hide AllBranches, Samples, Binomial, Hits, Ways;
    SamplesAreSubsets(players, cap);
    if |players| == cap {
      WaysStep(cap, cap);
      BinomialFull(cap);
    } else {
      var before, t := players[..|players| - 1], players[|players| - 1];
      var n := |before|;
      assert Elements(players) == Elements(before) + {t};
      SamplesAreSubsets(before, cap);
      TotalWays(before, cap);
      SamplesStep(players, cap);
      AllBranchesSize(Samples(before, cap), Elements(before), t, cap);
      TotalStep(n, cap, |Samples(before, cap)|);
    }
  }

  lemma AllBranchesSize(l: seq<set<Player>>, done: set<Player>, t: Player, cap: nat)
    requires AllSubsets(l, done, cap) && t !in done && |done| >= cap > 0
    ensures |AllBranches(l, t, cap, |done| + 1)| == ((|done| + 1) * cap) * |l|
  {
    AllBranchesHits(l, done, t, cap, AnySubset(done, cap));
  }

  lemma TotalStep(n: nat, cap: nat, total: nat)
    requires n >= cap > 0 && total == Binomial(n, cap) * Ways(n, cap)
    ensures ((n + 1) * cap) * total == Binomial(n + 1, cap) * Ways(n + 1, cap)
  {
    hide Binomial, Ways;
    WaysStep(n + 1, cap);
    Absorption(n, cap);
    Regroup(n + 1, cap, Binomial(n, cap), Ways(n, cap), n + 1 - cap, Binomial(n + 1, cap));
  }

  ghost function AnySubset(s: set<Player>, n: nat): (r: set<Player>)
    requires n <= |s|
    ensures r <= s && |r| == n
    decreases n
  {
    if n == 0 then {} else
    var x := Pick(s);
    AnySubset(s - {x}, n - 1) + {x}
  }

  lemma Regroup(n: int, k: int, c: int, w: int, m: int, d: int)
    requires n * c == m * d
    ensures (n * k) * (c * w) == d * ((m * k) * w)
  {
    assert (n * k) * (c * w) == (n * c) * (k * w);
    assert d * ((m * k) * w) == (m * d) * (k * w);
  }

  lemma {:induction false} BinomialFull(n: nat)
    ensures Binomial(n, n) == 1 && Binomial(n, n + 1) == 0
  {
    if n > 0 {
      BinomialFull(n - 1);
      BinomialOver(n - 1, n + 1);
    }
  }

  lemma {:induction false} BinomialOver(n: nat, k: nat)
    requires k > n
    ensures Binomial(n, k) == 0
  {
    if n > 0 {
      BinomialOver(n - 1, k - 1);
      BinomialOver(n - 1, k);
    }
  }

  lemma {:induction false} Absorption(n: nat, k: nat)
    requires k <= n + 1
    ensures (n + 1) * Binomial(n, k) == (n + 1 - k) * Binomial(n + 1, k)
  {
    if k == 0 {
    } else if k == n + 1 {
      BinomialFull(n);
    } else {
      assert n >= 1;
      Absorption(n - 1, k);
      Absorption(n - 1, k - 1);
      var a, b, c := Binomial(n - 1, k - 1), Binomial(n - 1, k), Binomial(n, k - 1);
      assert Binomial(n, k) == a + b;
      assert Binomial(n + 1, k) == c + (a + b);
      assert n * b == (n - k) * (a + b);
      assert n * a == (n - k + 1) * c;
      AbsorptionAlgebra(n, k, a, b, c);
    }
  }

  lemma AbsorptionAlgebra(n: int, k: int, a: int, b: int, c: int)
    requires n * b == (n - k) * (a + b)
    requires n * a == (n - k + 1) * c
    ensures (n + 1) * (a + b) == (n + 1 - k) * (c + (a + b))
  {
    assert (n + 1 - k) * (c + (a + b)) == (n - k + 1) * c + (n + 1 - k) * (a + b);
    assert (n + 1 - k) * (a + b) == (n - k) * (a + b) + (a + b);
    assert (n + 1) * (a + b) == n * a + n * b + (a + b);
  }

  /** Uniformity of the reservoir: each of the C(n, cap) subsets has the same share of all draw
      sequences, and nothing but such subsets ever results. */
  lemma ReservoirIsUniform(players: seq<Player>, cap: nat, target: set<Player>)
    requires Distinct(players) && |players| >= cap > 0
    requires target <= Elements(players) && |target| == cap
    ensures Hits(Samples(players, cap), {target}) * Binomial(|players|, cap) == |Samples(players, cap)|
    ensures AllSubsets(Samples(players, cap), Elements(players), cap)
  {
    hide *;
    EqualWays(players, cap, target);
    TotalWays(players, cap);
    SamplesAreSubsets(players, cap);
  }
}
