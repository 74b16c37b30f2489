/** The battle fingerprint.  SHA-256 is taken as injective, so a fingerprint is represented by the
    string that is hashed. */
module Fingerprint {

  /** The battle time is its formatted UTC token, "YYYYMMDDTHHMMSS.mmmZ". */
  datatype BattleKey = BattleKey(time: string, eventId: int, tags: seq<string>)

  function UpperChar(c: char): char {
    if 'a' <= c <= 'z' then (c as int - 32) as char else c
  }

  function ToUpper(s: string): string {
    seq(|s|, i requires 0 <= i < |s| => UpperChar(s[i]))
  }

  /** Strips one leading '#' and uppercases. */
  function NormalizeTag(tag: string): string {
    ToUpper(if tag != "" && tag[0] == '#' then tag[1..] else tag)
  }

  function Normalized(tags: seq<string>): seq<string> {
    seq(|tags|, i requires 0 <= i < |tags| => NormalizeTag(tags[i]))
  }

  predicate Le(a: string, b: string)
    decreases |a|
  {
    a == "" || (b != "" && (a[0] < b[0] || (a[0] == b[0] && Le(a[1..], b[1..]))))
  }

  function Insert(x: string, l: seq<string>): seq<string> {
    if l == [] || Le(x, l[0]) then [x] + l else [l[0]] + Insert(x, l[1..])
  }

  function Sorted(l: seq<string>): seq<string> {
    if l == [] then [] else Insert(l[0], Sorted(l[1..]))
  }

  function Join(l: seq<string>): string {
    if l == [] then "" else if |l| == 1 then l[0] else l[0] + "|" + Join(l[1..])
  }

  function Digits(n: nat): string {
    if n < 10 then [('0' as int + n) as char] else Digits(n / 10) + [('0' as int + n % 10) as char]
  }

  function Decimal(n: int): string {
    if n < 0 then "-" + Digits(-n) else Digits(n)
  }

  function Preimage(key: BattleKey): string {
    key.time + "|" + (Decimal(key.eventId) + "|" + Join(Sorted(Normalized(key.tags))))
  }

  predicate Ascending(l: seq<string>) {
    forall i, j :: 0 <= i < j < |l| ==> Le(l[i], l[j])
  }

  /** sort.Strings: sorts the slice in place, here by insertion. */
  method SortStrings(a: array<string>)
    modifies a
    ensures Ascending(a[..]) && multiset(a[..]) == multiset(old(a[..]))
  {
    hide Le;
    for n := 0 to a.Length
      invariant Ascending(a[..n]) && multiset(a[..]) == multiset(old(a[..]))
    {
      SinkInto(a, n);
    }
    assert a[..a.Length] == a[..];
  }

  /** Ascending up to n, except that element j may be too small for its place. */
  predicate AscendingBut(l: seq<string>, j: nat, n: nat) {
    n < |l| && forall i, k :: 0 <= i < k <= n && k != j ==> Le(l[i], l[k])
  }

  lemma Sunk(l: seq<string>, j: nat, n: nat)
    requires j <= n && AscendingBut(l, j, n) && (j > 0 ==> Le(l[j - 1], l[j]))
    ensures Ascending(l[..n + 1])
  {
    hide Le;
    forall i | 0 <= i < j ensures Le(l[i], l[j]) {
      if i < j - 1 {
        LeTransitive(l[i], l[j - 1], l[j]);
      }
    }
  }

  lemma SinksOne(l: seq<string>, j: nat, n: nat)
    requires 0 < j <= n && AscendingBut(l, j, n) && !Le(l[j - 1], l[j])
    ensures var l' := l[j - 1 := l[j]][j := l[j - 1]]; AscendingBut(l', j - 1, n) && multiset(l') == multiset(l)
  {
    hide Le;
    LeTotal(l[j - 1], l[j]);
  }

  /** Moves element n down to its place in the sorted part before it. */
  method SinkInto(a: array<string>, n: nat)
    requires n < a.Length && Ascending(a[..n])
    modifies a
    ensures Ascending(a[..n + 1]) && multiset(a[..]) == multiset(old(a[..]))
  {
    hide Le, Ascending, AscendingBut;
    StartsSinking(a[..], n);
    var j: nat := n;
    while j > 0 && !Le(a[j - 1], a[j])
      invariant j <= n && multiset(a[..]) == multiset(old(a[..])) && AscendingBut(a[..], j, n)
    {
      SinksOne(a[..], j, n);
      ghost var before := a[..];
      a[j - 1], a[j] := a[j], a[j - 1];
      assert a[..] == before[j - 1 := before[j]][j := before[j - 1]];
      j := j - 1;
    }
    Sunk(a[..], j, n);
    assert a[..][..n + 1] == a[..n + 1];
  }

  lemma StartsSinking(l: seq<string>, n: nat)
    requires n < |l| && Ascending(l[..n])
    ensures AscendingBut(l, n, n)
  {
    forall i, k | 0 <= i < k <= n && k != n ensures Le(l[i], l[k]) {
      assert l[..n][i] == l[i] && l[..n][k] == l[k];
    }
  }

  method ComputeFingerprint(key: BattleKey) returns (raw: string)
    ensures raw == Preimage(key)
  {
    var tags := new string[|key.tags|];
    for i := 0 to |key.tags|
      invariant forall j :: 0 <= j < i ==> tags[j] == NormalizeTag(key.tags[j])
    {
      tags[i] := NormalizeTag(key.tags[i]);
    }
    assert tags[..] == Normalized(key.tags);
    SortStrings(tags);
    SortedIsPermutation(Normalized(key.tags));
    AscendingUnique(tags[..], Sorted(Normalized(key.tags)));
    raw := key.time + "|" + (Decimal(key.eventId) + "|" + Join(tags[..]));
  }

  // ------------------------------------------------------------------------ sorting is canonical

  lemma {:induction false} LeTotal(a: string, b: string)
    ensures Le(a, b) || Le(b, a)
    ensures Le(a, b) && Le(b, a) ==> a == b
    decreases |a|
  {
    if a != "" && b != "" {
      LeTotal(a[1..], b[1..]);
      assert a == [a[0]] + a[1..] && b == [b[0]] + b[1..];
    }
  }

  lemma {:induction false} LeTransitive(a: string, b: string, c: string)
    requires Le(a, b) && Le(b, c)
    ensures Le(a, c)
    decreases |a|
  {
    if a != "" && a[0] == b[0] == c[0] {
      LeTransitive(a[1..], b[1..], c[1..]);
    }
  }

  lemma {:induction false} InsertKeeps(x: string, l: seq<string>)
    requires Ascending(l)
    ensures Ascending(Insert(x, l))
    ensures multiset(Insert(x, l)) == multiset(l) + multiset{x}
    decreases |l|
  {
    if l == [] {
    } else if Le(x, l[0]) {
      forall j | 0 <= j < |l| ensures Le(x, l[j]) {
        if j > 0 {
          LeTransitive(x, l[0], l[j]);
        }
      }
    } else {
      LeTotal(x, l[0]);
      assert l == [l[0]] + l[1..];
      InsertKeeps(x, l[1..]);
      var rest := Insert(x, l[1..]);
      forall j | 0 <= j < |rest| ensures Le(l[0], rest[j]) {
        assert rest[j] in multiset(rest);
        assert rest[j] == x || rest[j] in multiset(l[1..]);
      }
    }
  }

  lemma {:induction false} SortedIsPermutation(l: seq<string>)
    ensures Ascending(Sorted(l)) && multiset(Sorted(l)) == multiset(l)
    decreases |l|
  {
    if l != [] {
      SortedIsPermutation(l[1..]);
      InsertKeeps(l[0], Sorted(l[1..]));
      assert l == [l[0]] + l[1..];
    }
  }

  lemma {:induction false} AscendingUnique(a: seq<string>, b: seq<string>)
    requires Ascending(a) && Ascending(b) && multiset(a) == multiset(b)
    ensures a == b
    decreases |a|
  {
    hide Le;
    assert |a| == |multiset(a)| == |multiset(b)| == |b|;
    if a != [] {
      SameFirst(a, b);
      WithoutFirst(a);
      WithoutFirst(b);
      AscendingUnique(a[1..], b[1..]);
      assert a == [a[0]] + a[1..] && b == [b[0]] + b[1..];
    }
  }

  lemma SameFirst(a: seq<string>, b: seq<string>)
    requires Ascending(a) && Ascending(b) && multiset(a) == multiset(b) && a != [] && b != []
    ensures a[0] == b[0]
  {
    hide Le;
    assert a[0] in multiset(b) && b[0] in multiset(a);
    var i :| 0 <= i < |b| && b[i] == a[0];
    var j :| 0 <= j < |a| && a[j] == b[0];
    LeTotal(a[0], b[0]);
    LeTotal(a[0], a[0]);
  }

  lemma WithoutFirst(a: seq<string>)
    requires a != []
    ensures multiset(a[1..]) == multiset(a) - multiset{a[0]}
  {
    assert a == [a[0]] + a[1..];
  }

  lemma SortedCanonical(a: seq<string>, b: seq<string>)
    ensures Sorted(a) == Sorted(b) <==> multiset(a) == multiset(b)
  {
    SortedIsPermutation(a);
    SortedIsPermutation(b);
    if multiset(a) == multiset(b) {
      AscendingUnique(Sorted(a), Sorted(b));
    }
  }

  // ----------------------------------------------------------------------- the format is injective

  predicate NoBar(s: string) {
    '|' !in s
  }

  lemma FirstBar(a: string, x: string)
    requires NoBar(a)
    ensures (a + "|" + x)[|a|] == '|' && forall i :: 0 <= i < |a| ==> (a + "|" + x)[i] != '|'
    ensures (a + "|" + x)[..|a|] == a && (a + "|" + x)[|a| + 1..] == x
  {}

  lemma CutAtBar(a: string, x: string, b: string, y: string)
    requires NoBar(a) && NoBar(b) && a + "|" + x == b + "|" + y
    ensures a == b && x == y
  {
    FirstBar(a, x);
    FirstBar(b, y);
    assert |a| == |b|;
  }

  predicate Clean(l: seq<string>) {
    forall i :: 0 <= i < |l| ==> l[i] != "" && NoBar(l[i])
  }

  /** A joined list shows whether it has no, one, or several elements. */
  lemma JoinShape(l: seq<string>)
    requires Clean(l)
    ensures l == [] <==> Join(l) == ""
    ensures |l| > 1 <==> !NoBar(Join(l))
  {
    if |l| > 1 {
      assert Join(l)[|l[0]|] == '|';
    }
  }

  lemma {:induction false} JoinInjective(a: seq<string>, b: seq<string>)
    requires Clean(a) && Clean(b) && Join(a) == Join(b)
    ensures a == b
    decreases |a|
  {
    JoinShape(a);
    JoinShape(b);
    if |a| > 1 {
      CutAtBar(a[0], Join(a[1..]), b[0], Join(b[1..]));
      JoinInjective(a[1..], b[1..]);
      assert a == [a[0]] + a[1..] && b == [b[0]] + b[1..];
    }
  }

  lemma {:induction false} DigitsPlain(n: nat)
    ensures Digits(n) != "" && forall c :: c in Digits(n) ==> '0' <= c <= '9'
  {
    if n >= 10 {
      DigitsPlain(n / 10);
    }
  }

  lemma {:induction false} DigitsInjective(m: nat, n: nat)
    requires Digits(m) == Digits(n)
    ensures m == n
  {
    DigitsPlain(m / 10);
    DigitsPlain(n / 10);
    var a, b := Digits(m), Digits(n);
    assert a[|a| - 1] == ('0' as int + m % 10) as char;
    assert b[|b| - 1] == ('0' as int + n % 10) as char;
    if m >= 10 && n >= 10 {
      assert Digits(m / 10) == a[..|a| - 1] && Digits(n / 10) == b[..|b| - 1];
      DigitsInjective(m / 10, n / 10);
    }
  }

  lemma DecimalSign(n: int)
    ensures NoBar(Decimal(n)) && Decimal(n) != "" && (n < 0 <==> Decimal(n)[0] == '-')
    ensures n < 0 ==> Decimal(n)[1..] == Digits(-n)
  {
    DigitsPlain(if n < 0 then -n else n);
    assert n >= 0 ==> Digits(n)[0] in Digits(n);
  }

  lemma DecimalInjective(m: int, n: int)
    requires Decimal(m) == Decimal(n)
    ensures m == n
  {
    DecimalSign(m);
    DecimalSign(n);
    if m < 0 {
      DigitsInjective(-m, -n);
    } else {
      DigitsInjective(m, n);
    }
  }

  /** The time token and every normalized tag can be told apart from the separators. */
  predicate WellFormed(key: BattleKey) {
    NoBar(key.time) && Clean(Normalized(key.tags))
  }

  /** Deduplication keys are exact: two battles share a fingerprint if and only if they agree on
      time, event and the multiset of normalized participant tags, in whatever order. */
  lemma PreimageExact(a: BattleKey, b: BattleKey)
    requires WellFormed(a) && WellFormed(b)
    ensures Preimage(a) == Preimage(b) <==>
            a.time == b.time && a.eventId == b.eventId
            && multiset(Normalized(a.tags)) == multiset(Normalized(b.tags))
  {
    var x, y := Normalized(a.tags), Normalized(b.tags);
    SortedCanonical(x, y);
    if Preimage(a) == Preimage(b) {
      DecimalSign(a.eventId);
      DecimalSign(b.eventId);
      CutAtBar(a.time, Decimal(a.eventId) + "|" + Join(Sorted(x)), b.time, Decimal(b.eventId) + "|" + Join(Sorted(y)));
      CutAtBar(Decimal(a.eventId), Join(Sorted(x)), Decimal(b.eventId), Join(Sorted(y)));
      DecimalInjective(a.eventId, b.eventId);
      SortedClean(x);
      SortedClean(y);
      JoinInjective(Sorted(x), Sorted(y));
    }
  }

  lemma SortedClean(l: seq<string>)
    requires Clean(l)
    ensures Clean(Sorted(l))
  {
    SortedIsPermutation(l);
    var s := Sorted(l);
    forall i | 0 <= i < |s| ensures s[i] != "" && NoBar(s[i]) {
      assert s[i] in multiset(s);
      assert s[i] in multiset(l);
    }
  }
}
