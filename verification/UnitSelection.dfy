/** Which of a donor's (namespace, slot) units make up a planned amount: greedy, largest first. */
module UnitSelection {
  import opened Basics

  datatype Unit = Unit(ns: string, slot: nat)

  datatype Stat = Stat(unit: Unit, count: nat)

  predicate UnitLess(a: Unit, b: Unit) { Less(a.ns, b.ns) || (a.ns == b.ns && a.slot < b.slot) }

  /** Larger counts first, then lower units. */
  predicate Before(a: Stat, b: Stat) { a.count > b.count || (a.count == b.count && UnitLess(a.unit, b.unit)) }

  function Positive(stats: seq<Stat>): seq<Stat> {
    if stats == [] then [] else (if stats[0].count > 0 then [stats[0]] else []) + Positive(stats[1..])
  }

  function Insert(x: Stat, sorted: seq<Stat>): seq<Stat> {
    if sorted == [] || Before(x, sorted[0]) then [x] + sorted else [sorted[0]] + Insert(x, sorted[1..])
  }

  function Sort(stats: seq<Stat>): seq<Stat> {
    if stats == [] then [] else Insert(stats[0], Sort(stats[1..]))
  }

  function Sum(stats: seq<Stat>): nat {
    if stats == [] then 0 else Sum(stats[..|stats| - 1]) + stats[|stats| - 1].count
  }

  function Units(stats: seq<Stat>): seq<Unit> {
    seq(|stats|, i requires 0 <= i < |stats| => stats[i].unit)
  }

  /** How many of the sorted units are taken, `have` of them being taken already. */
  function Taken(sorted: seq<Stat>, amount: nat, cap: nat, have: nat): (k: nat)
    requires have <= |sorted|
    ensures have <= k <= |sorted|
    decreases |sorted| - have
  {
    if have == |sorted| || have >= cap || (Sum(sorted[..have]) >= amount && have != 0) then have
    else Taken(sorted, amount, cap, have + 1)
  }

  /** The units chosen, with their counts. */
  function Chosen(stats: seq<Stat>, amount: nat, cap: nat): seq<Stat> {
    var sorted := Sort(Positive(stats));
    if amount == 0 then [] else sorted[..Taken(sorted, amount, cap, 0)]
  }

  method SelectUnits(stats: seq<Stat>, amount: nat, cap: nat) returns (units: seq<Unit>)
    ensures units == Units(Chosen(stats, amount, cap))
  {
    var sorted := Sort(Positive(stats));
    var picked: seq<Unit> := [];
    var total := 0;
    var i := 0;
    while i < |sorted| && !(|picked| >= cap || (total >= amount && picked != []))
      invariant i <= |sorted| && picked == Units(sorted[..i]) && total == Sum(sorted[..i])
      invariant Taken(sorted, amount, cap, i) == Taken(sorted, amount, cap, 0)
    {
      assert sorted[..i + 1][..i] == sorted[..i];
      picked := picked + [sorted[i].unit];
      total := total + sorted[i].count;
      i := i + 1;
    }
    units := if amount == 0 then [] else picked;
  }

  // ---- how much is taken ------------------------------------------------------------

  lemma {:induction false} TakenStops(sorted: seq<Stat>, amount: nat, cap: nat, have: nat)
    requires amount > 0 && have <= |sorted| && (have > 0 ==> have <= cap && Sum(sorted[..have - 1]) < amount)
    ensures var k := Taken(sorted, amount, cap, have);
            && (k == |sorted| || k >= cap || (Sum(sorted[..k]) >= amount && k != 0))
            && (k > 0 ==> k <= cap && Sum(sorted[..k - 1]) < amount)
    decreases |sorted| - have
  {
    if Taken(sorted, amount, cap, have) != have { TakenStops(sorted, amount, cap, have + 1); }
  }

  /**
   * A non-zero amount is reached or passed, unless the cap or the units run out first; without its
   * last unit it would not be reached; and some unit moves whenever a non-empty one and the cap allow.
   */
  lemma {:induction false} ReachesWithoutOvershoot(stats: seq<Stat>, amount: nat, cap: nat)
    requires amount > 0
    ensures var c := Chosen(stats, amount, cap);
            && |c| <= cap
            && (Sum(c) < amount ==> |c| == cap || |c| == |Positive(stats)|)
            && (c != [] ==> Sum(c[..|c| - 1]) < amount && Sum(c) < amount + c[|c| - 1].count)
            && (c == [] ==> cap == 0 || Positive(stats) == [])
  {
    SortPermutes(Positive(stats));
    assert |multiset(Sort(Positive(stats)))| == |Sort(Positive(stats))|;
    assert |multiset(Positive(stats))| == |Positive(stats)|;
    FrontReaches(Sort(Positive(stats)), amount, cap);
  }

  lemma {:induction false} FrontReaches(sorted: seq<Stat>, amount: nat, cap: nat)
    requires amount > 0
    ensures var c := sorted[..Taken(sorted, amount, cap, 0)];
            && |c| <= cap
            && (Sum(c) < amount ==> |c| == cap || |c| == |sorted|)
            && (c != [] ==> Sum(c[..|c| - 1]) < amount && Sum(c) < amount + c[|c| - 1].count)
            && (c == [] ==> cap == 0 || sorted == [])
  {
    TakenStops(sorted, amount, cap, 0);
    var k := Taken(sorted, amount, cap, 0);
    if k > 0 { assert sorted[..k][..k - 1] == sorted[..k - 1]; }
  }

  // ---- sorting is a function of the multiset --------------------------------------------

  predicate Ordered(s: seq<Stat>) {
    |s| <= 1 || (!Before(s[1], s[0]) && Ordered(s[1..]))
  }

  lemma {:induction false} UnitLessTotal(a: Unit, b: Unit)
    ensures a == b || UnitLess(a, b) || UnitLess(b, a)
    ensures !(UnitLess(a, b) && UnitLess(b, a))
  {
    LessTotal(a.ns, b.ns);
    if Less(a.ns, b.ns) { LessAsymmetric(a.ns, b.ns); }
    if Less(b.ns, a.ns) { LessAsymmetric(b.ns, a.ns); }
  }

  lemma {:induction false} BeforeTotal(a: Stat, b: Stat)
    ensures a == b || Before(a, b) || Before(b, a)
    ensures !(Before(a, b) && Before(b, a))
  {
    UnitLessTotal(a.unit, b.unit);
  }

  lemma {:induction false} NotBeforeTransitive(a: Stat, b: Stat, c: Stat)
    requires !Before(b, a) && !Before(c, b)
    ensures !Before(c, a)
  {
    BeforeTotal(a, b);
    BeforeTotal(b, c);
    BeforeTotal(a, c);
    if Less(a.unit.ns, b.unit.ns) && Less(b.unit.ns, c.unit.ns) { LessTransitive(a.unit.ns, b.unit.ns, c.unit.ns); }
  }

  lemma {:induction false} InsertPermutes(x: Stat, sorted: seq<Stat>)
    ensures multiset(Insert(x, sorted)) == multiset(sorted) + multiset{x}
  {
    if !(sorted == [] || Before(x, sorted[0])) {
      InsertPermutes(x, sorted[1..]);
      assert sorted == [sorted[0]] + sorted[1..];
    }
  }

  lemma {:induction false} SortPermutes(stats: seq<Stat>)
    ensures multiset(Sort(stats)) == multiset(stats)
  {
    if stats != [] {
      SortPermutes(stats[1..]);
      InsertPermutes(stats[0], Sort(stats[1..]));
      assert stats == [stats[0]] + stats[1..];
    }
  }

  lemma {:induction false} InsertOrders(x: Stat, sorted: seq<Stat>)
    requires Ordered(sorted)
    ensures Ordered(Insert(x, sorted))
    ensures Insert(x, sorted)[0] == x || (sorted != [] && Insert(x, sorted)[0] == sorted[0])
  {
    if sorted == [] {
    } else if Before(x, sorted[0]) {
      BeforeTotal(x, sorted[0]);
      assert ([x] + sorted)[1..] == sorted;
    } else {
      InsertOrders(x, sorted[1..]);
      var rest := Insert(x, sorted[1..]);
      assert ([sorted[0]] + rest)[1..] == rest;
    }
  }

  lemma {:induction false} SortOrders(stats: seq<Stat>)
    ensures Ordered(Sort(stats))
  {
    if stats != [] {
      SortOrders(stats[1..]);
      InsertOrders(stats[0], Sort(stats[1..]));
    }
  }

  lemma {:induction false} HeadFirst(s: seq<Stat>, j: nat)
    requires Ordered(s) && j < |s|
    ensures !Before(s[j], s[0])
    decreases |s|
  {
    BeforeTotal(s[0], s[0]);
    if j > 0 {
      HeadFirst(s[1..], j - 1);
      NotBeforeTransitive(s[0], s[1], s[j]);
    }
  }

  lemma {:induction false} OrderedHead(a: seq<Stat>, b: seq<Stat>)
    requires Ordered(a) && Ordered(b) && multiset(a) == multiset(b) && a != [] && b != []
    ensures a[0] == b[0]
  {
    assert a[0] in multiset(b) && b[0] in multiset(a);
    var i :| 0 <= i < |b| && b[i] == a[0];
    var j :| 0 <= j < |a| && a[j] == b[0];
    HeadFirst(b, i);
    HeadFirst(a, j);
    BeforeTotal(a[0], b[0]);
  }

  lemma {:induction false} OrderedIsUnique(a: seq<Stat>, b: seq<Stat>)
    requires Ordered(a) && Ordered(b) && multiset(a) == multiset(b)
    ensures a == b
    decreases |a|
  {
    assert |multiset(a)| == |a| && |multiset(b)| == |b|;
    if a != [] {
      OrderedHead(a, b);
      RemoveOne(a, 0);
      RemoveOne(b, 0);
      assert a[..0] + a[1..] == a[1..] && b[..0] + b[1..] == b[1..];
      OrderedIsUnique(a[1..], b[1..]);
      assert a == [a[0]] + a[1..] && b == [b[0]] + b[1..];
    }
  }

  lemma {:induction false} PositiveCounts(stats: seq<Stat>, x: Stat)
    ensures multiset(Positive(stats))[x] == if x.count > 0 then multiset(stats)[x] else 0
  {
    if stats != [] {
      PositiveCounts(stats[1..], x);
      assert stats == [stats[0]] + stats[1..];
    }
  }

  /** Every listing of the same statistics yields the same units in the same order. */
  lemma {:induction false} SelectionIgnoresOrder(stats: seq<Stat>, others: seq<Stat>, amount: nat, cap: nat)
    requires multiset(stats) == multiset(others)
    ensures Chosen(stats, amount, cap) == Chosen(others, amount, cap)
  {
    var a, b := Positive(stats), Positive(others);
    forall x ensures multiset(a)[x] == multiset(b)[x] {
      PositiveCounts(stats, x);
      PositiveCounts(others, x);
    }
    assert multiset(a) == multiset(b);
    SortPermutes(a);
    SortPermutes(b);
    SortOrders(a);
    SortOrders(b);
    OrderedIsUnique(Sort(a), Sort(b));
  }

  // ---- no smaller set would do ------------------------------------------------------------

  lemma {:induction false} SumCons(x: Stat, s: seq<Stat>)
    ensures Sum([x] + s) == x.count + Sum(s)
  {
    if s == [] {
      assert ([x] + s)[..0] == [];
    } else {
      SumCons(x, s[..|s| - 1]);
      assert ([x] + s)[..|s|] == [x] + s[..|s| - 1];
    }
  }

  lemma {:induction false} SumWithout(s: seq<Stat>, i: nat)
    requires i < |s|
    ensures Sum(s) == Sum(s[..i] + s[i + 1..]) + s[i].count
  {
    if i == 0 {
      assert s == [s[0]] + s[1..] && s[..0] + s[1..] == s[1..];
      SumCons(s[0], s[1..]);
    } else {
      var rest := s[1..][..i - 1] + s[1..][i..];
      SumWithout(s[1..], i - 1);
      assert s == [s[0]] + s[1..];
      assert s[..i] + s[i + 1..] == [s[0]] + rest;
      SumCons(s[0], s[1..]);
      SumCons(s[0], rest);
    }
  }

  lemma {:induction false} CountsDescend(s: seq<Stat>, n: nat)
    requires Ordered(s) && 0 < n < |s|
    ensures s[n].count <= s[n - 1].count
  {
    if n > 1 { CountsDescend(s[1..], n - 1); }
  }

  /** In a descending list the first `n` weigh at least as much as the `n` after the first. */
  lemma {:induction false} FirstOutweigh(s: seq<Stat>, n: nat)
    requires Ordered(s) && n < |s|
    ensures Sum(s[1..][..n]) <= Sum(s[..n])
  {
    if n > 0 {
      FirstOutweigh(s, n - 1);
      assert s[1..][..n][..n - 1] == s[1..][..n - 1];
      assert s[..n][..n - 1] == s[..n - 1];
      CountsDescend(s, n);
    }
  }

  lemma {:induction false} TailCounts(s: seq<Stat>)
    requires s != []
    ensures multiset(s[1..]) == multiset(s) - multiset{s[0]}
  {
    RemoveOne(s, 0);
    assert s[..0] + s[1..] == s[1..];
  }

  lemma {:induction false} WithoutHead(s: seq<Stat>, t: seq<Stat>, i: nat)
    requires multiset(t) <= multiset(s) && s != [] && i < |t| && t[i] == s[0]
    ensures multiset(t[..i] + t[i + 1..]) <= multiset(s[1..])
  {
    TailCounts(s);
    RemoveOne(t, i);
  }

  lemma {:induction false} MissingHead(s: seq<Stat>, t: seq<Stat>)
    requires multiset(t) <= multiset(s) && s != [] && s[0] !in t
    ensures multiset(t) <= multiset(s[1..])
  {
    TailCounts(s);
    assert multiset(t)[s[0]] == 0;
  }

  lemma {:induction false} WithHead(s: seq<Stat>, t: seq<Stat>, i: nat)
    requires i < |t| <= |s| && t[i] == s[0] && Sum(t[..i] + t[i + 1..]) <= Sum(s[1..][..|t| - 1])
    ensures Sum(t) <= Sum(s[..|t|])
  {
    SumWithout(t, i);
    assert s[..|t|] == [s[0]] + s[1..][..|t| - 1];
    SumCons(s[0], s[1..][..|t| - 1]);
  }

  /** No selection from an ordered list outweighs as many from its front. */
  lemma {:induction false} FrontIsHeaviest(s: seq<Stat>, t: seq<Stat>)
    requires Ordered(s) && multiset(t) <= multiset(s)
    ensures |t| <= |s| && Sum(t) <= Sum(s[..|t|])
    decreases |s|
  {
    if t != [] { assert t[0] in multiset(t); }
    if s == [] {
    } else if s[0] in t {
      var i :| 0 <= i < |t| && t[i] == s[0];
      WithoutHead(s, t, i);
      FrontIsHeaviest(s[1..], t[..i] + t[i + 1..]);
      WithHead(s, t, i);
    } else {
      MissingHead(s, t);
      FrontIsHeaviest(s[1..], t);
      FirstOutweigh(s, |t|);
    }
  }

  lemma {:induction false} SumPositive(stats: seq<Stat>)
    ensures Sum(Positive(stats)) == Sum(stats) && |Positive(stats)| <= |stats|
  {
    if stats != [] {
      SumPositive(stats[1..]);
      assert stats == [stats[0]] + stats[1..];
      SumCons(stats[0], stats[1..]);
      SumCons(stats[0], Positive(stats[1..]));
      assert stats[0].count == 0 ==> Positive(stats) == Positive(stats[1..]);
    }
  }

  lemma {:induction false} SubsetPositive(t: seq<Stat>, stats: seq<Stat>)
    requires multiset(t) <= multiset(stats)
    ensures multiset(Positive(t)) <= multiset(Positive(stats))
  {
    forall x ensures multiset(Positive(t))[x] <= multiset(Positive(stats))[x] {
      PositiveCounts(t, x);
      PositiveCounts(stats, x);
    }
  }

  lemma {:induction false} SumPrefix(s: seq<Stat>, i: nat, j: nat)
    requires i <= j <= |s|
    ensures Sum(s[..i]) <= Sum(s[..j])
    decreases j
  {
    if i < j {
      SumPrefix(s, i, j - 1);
      assert s[..j][..j - 1] == s[..j - 1];
    }
  }

  lemma {:induction false} ShortOfFront(sorted: seq<Stat>, amount: nat, k: nat, t: seq<Stat>)
    requires Ordered(sorted) && |t| < k <= |sorted| && Sum(sorted[..k - 1]) < amount && multiset(t) <= multiset(sorted)
    ensures Sum(t) < amount
  {
    FrontIsHeaviest(sorted, t);
    SumPrefix(sorted, |t|, k - 1);
  }

  /** Any selection of fewer units falls short of the amount. */
  lemma {:induction false} NoSmallerSelectionReaches(stats: seq<Stat>, amount: nat, cap: nat, t: seq<Stat>)
    requires amount > 0 && multiset(t) <= multiset(stats) && |t| < |Chosen(stats, amount, cap)|
    ensures Sum(t) < amount
  {
    var sorted := Sort(Positive(stats));
    var k := Taken(sorted, amount, cap, 0);
    SortPermutes(Positive(stats));
    SortOrders(Positive(stats));
    SumPositive(t);
    SubsetPositive(t, stats);
    TakenStops(sorted, amount, cap, 0);
    ShortOfFront(sorted, amount, k, Positive(t));
  }
}
