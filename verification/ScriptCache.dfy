/**
 * The bounded cache of script texts: per namespace a first-in first-out list with a count and a
 * byte bound, and one byte bound over all namespaces.
 */
module ScriptCache {
  import opened Basics

  type Name = string
  type Text = string

  const SCRIPTS_PER_NS: nat := 1000
  const BYTES_PER_NS: nat := 8388608
  const BYTES_TOTAL: nat := 134217728

  // ---- one namespace ---------------------------------------------------------------

  /** `order` lists the stored hashes, oldest first. */
  datatype Ns = Ns(texts: map<string, Text>, order: seq<string>, bytes: nat)

  const EMPTY := Ns(map[], [], 0)

  function Elements(s: seq<string>): set<string> { set x | x in s }

  function Size(texts: map<string, Text>, order: seq<string>): nat {
    if order == [] then 0 else (if order[0] in texts then |texts[order[0]]| else 0) + Size(texts, order[1..])
  }

  /** The list is a duplicate-free listing of exactly the stored hashes, and the counter is the true sum. */
  predicate ValidNs(n: Ns) {
    && |Elements(n.order)| == |n.order|
    && n.texts.Keys == Elements(n.order)
    && n.bytes == Size(n.texts, n.order)
  }

  predicate NoEmptyText(n: Ns) { forall s :: s in n.texts ==> n.texts[s] != "" }

  predicate Fits(n: Ns) { |n.texts| <= SCRIPTS_PER_NS && n.bytes <= BYTES_PER_NS }

  lemma {:induction false} SizeIgnores(texts: map<string, Text>, others: map<string, Text>, order: seq<string>)
    requires forall s :: s in order ==> (s in texts <==> s in others) && (s in texts ==> texts[s] == others[s])
    ensures Size(texts, order) == Size(others, order)
  {
    if order != [] {
      assert order[0] in order;
      assert forall s :: s in order[1..] ==> s in order;
      SizeIgnores(texts, others, order[1..]);
    }
  }

  lemma {:induction false} SizeSnoc(texts: map<string, Text>, order: seq<string>, s: string)
    ensures Size(texts, order + [s]) == Size(texts, order) + (if s in texts then |texts[s]| else 0)
  {
    if order == [] {
      assert ([s])[1..] == [] && order + [s] == [s];
    } else {
      assert (order + [s])[1..] == order[1..] + [s];
      SizeSnoc(texts, order[1..], s);
    }
  }

  lemma {:induction false} TextsCount(n: Ns)
    requires ValidNs(n)
    ensures |n.texts| == |n.order|
  {
    assert |n.texts.Keys| == |n.texts|;
  }

  /** There is an oldest script and its bytes are counted. */
  predicate HasOldest(n: Ns) { n.order != [] && n.order[0] in n.texts && |n.texts[n.order[0]]| <= n.bytes }

  /** The namespace without its oldest script. */
  function Older(n: Ns): Ns
    requires HasOldest(n)
  {
    Ns(n.texts - {n.order[0]}, n.order[1..], n.bytes - |n.texts[n.order[0]]|)
  }

  lemma {:induction false} ElementsAtMost(order: seq<string>)
    ensures |Elements(order)| <= |order|
  {
    if order != [] {
      ElementsAtMost(order[1..]);
      assert Elements(order) == {order[0]} + Elements(order[1..]);
    }
  }

  /** A listing as long as its set of elements has no duplicate, and neither has its tail. */
  lemma {:induction false} HeadAndTail(order: seq<string>)
    requires |Elements(order)| == |order| && order != []
    ensures order[0] !in order[1..] && |Elements(order[1..])| == |order| - 1
    ensures Elements(order[1..]) == Elements(order) - {order[0]} && order[0] in Elements(order)
  {
    ElementsAtMost(order[1..]);
    assert Elements(order) == {order[0]} + Elements(order[1..]);
  }

  lemma {:induction false} OlderValid(n: Ns)
    requires ValidNs(n) && n.order != []
    ensures HasOldest(n) && ValidNs(Older(n))
  {
    HeadAndTail(n.order);
    SizeIgnores(n.texts, n.texts - {n.order[0]}, n.order[1..]);
  }

  /** The list from its first stored hash on. */
  function Stored(texts: map<string, Text>, order: seq<string>): (r: seq<string>)
    ensures r != [] ==> r[0] in texts
  {
    if order == [] || order[0] in texts then order else Stored(texts, order[1..])
  }

  method EvictOldest(n: Ns) returns (n': Ns, freed: nat)
    requires forall s :: s in n.texts ==> |n.texts[s]| <= n.bytes
    ensures var from := n.(order := Stored(n.texts, n.order));
            if from.order == [] then n' == from && freed == 0
            else n' == Older(from) && freed == |n.texts[from.order[0]]|
  {
    var order := n.order;
    while order != []
      invariant Stored(n.texts, order) == Stored(n.texts, n.order)
      decreases |order|
    {
      var sha := order[0];
      order := order[1..];
      if sha in n.texts {
        freed := |n.texts[sha]|;
        n' := Ns(n.texts - {sha}, order, n.bytes - freed);
        return;
      }
    }
    n', freed := n.(order := []), 0;
  }

  /** Evict from the front while over a bound; an empty text ends it once the count is in bounds. */
  ghost function Trim(n: Ns): Ns
    decreases |n.order|
  {
    if Fits(n) || !HasOldest(n) then n else
    var m := Older(n);
    if n.texts[n.order[0]] == "" && |m.texts| <= SCRIPTS_PER_NS then m else Trim(m)
  }

  predicate Suffix(a: seq<string>, b: seq<string>) { |a| <= |b| && forall i :: 0 <= i < |a| ==> a[i] == b[|b| - |a| + i] }

  /** `m` is `n` without some of its oldest scripts. */
  predicate Newest(m: Ns, n: Ns) {
    && Suffix(m.order, n.order) && m.bytes <= n.bytes
    && forall s :: s in m.texts ==> s in n.texts && m.texts[s] == n.texts[s]
  }

  lemma {:induction false} NewestTransitive(a: Ns, b: Ns, c: Ns)
    requires Newest(a, b) && Newest(b, c)
    ensures Newest(a, c)
  {
    SuffixTransitive(a.order, b.order, c.order);
  }

  lemma {:induction false} TrimValid(n: Ns)
    requires ValidNs(n)
    ensures ValidNs(Trim(n)) && Newest(Trim(n), n)
    decreases |n.order|
  {
    if !Fits(n) && n.order != [] {
      OlderValid(n);
      var m := Older(n);
      assert Newest(m, n);
      TrimValid(m);
      NewestTransitive(Trim(m), m, n);
    }
  }

  /** What trimming keeps: the newest scripts, unchanged, within the count, and within both bounds if none is empty. */
  lemma {:induction false} TrimBounds(n: Ns)
    requires ValidNs(n)
    ensures |Trim(n).texts| <= SCRIPTS_PER_NS && (NoEmptyText(n) ==> Fits(Trim(n)))
    decreases |n.order|
  {
    TextsCount(n);
    if !Fits(n) && n.order != [] {
      OlderValid(n);
      TrimBounds(Older(n));
    }
  }

  /** The namespace without its `k` oldest scripts. */
  ghost function Without(n: Ns, k: nat): Ns
    requires ValidNs(n) && k <= |n.order|
    decreases k
  {
    if k == 0 then n else
    OlderValid(n);
    Without(Older(n), k - 1)
  }

  /** The fewest oldest scripts that have to go for the namespace to be in bounds. */
  ghost function Excess(n: Ns): (k: nat)
    requires ValidNs(n)
    ensures k <= |n.order|
    decreases |n.order|
  {
    if Fits(n) || n.order == [] then 0 else
    OlderValid(n);
    Excess(Older(n)) + 1
  }

  /** Once that many are gone the namespace is in bounds ... */
  lemma {:induction false} ExcessSuffices(n: Ns)
    requires ValidNs(n)
    ensures Fits(Without(n, Excess(n)))
    decreases |n.order|
  {
    TextsCount(n);
    if !Fits(n) && n.order != [] {
      OlderValid(n);
      ExcessSuffices(Older(n));
    }
  }

  /** ... and with fewer gone it is not. */
  lemma {:induction false} ExcessIsLeast(n: Ns, k: nat)
    requires ValidNs(n) && k < Excess(n)
    ensures !Fits(Without(n, k))
    decreases k
  {
    if k > 0 {
      OlderValid(n);
      ExcessIsLeast(Older(n), k - 1);
    }
  }

  /** The `p`-th oldest text is empty, and the count is in bounds once it goes. */
  predicate Shield(n: Ns, p: nat) {
    p < |n.order| <= SCRIPTS_PER_NS + p + 1 && n.order[p] in n.texts && n.texts[n.order[p]] == ""
  }

  /** Such a text stands before the last of those that have to go. */
  ghost predicate StopsShort(n: Ns)
    requires ValidNs(n)
  {
    exists p: nat :: p + 1 < Excess(n) && Shield(n, p)
  }

  lemma {:induction false} ShieldShifts(n: Ns, m: Ns, p: nat)
    requires ValidNs(n) && n.order != [] && m.order == n.order[1..] && m.texts == n.texts - {n.order[0]}
    ensures Shield(n, p + 1) <==> Shield(m, p)
  {
    HeadAndTail(n.order);
    if p < |m.order| { assert m.order[p] == n.order[p + 1] && m.order[p] in n.order[1..]; }
  }

  lemma {:induction false} StopsShortUp(n: Ns, m: Ns)
    requires ValidNs(n) && n.order != [] && m.order == n.order[1..] && m.texts == n.texts - {n.order[0]} && ValidNs(m)
    requires Excess(n) == Excess(m) + 1 && StopsShort(m)
    ensures StopsShort(n)
  {
    var p: nat :| p + 1 < Excess(m) && Shield(m, p);
    ShieldShifts(n, m, p);
    var q: nat := p + 1;
    assert q + 1 < Excess(n) && Shield(n, q);
  }

  lemma {:induction false} StopsShortDown(n: Ns, m: Ns)
    requires ValidNs(n) && n.order != [] && m.order == n.order[1..] && m.texts == n.texts - {n.order[0]} && ValidNs(m)
    requires Excess(n) == Excess(m) + 1 && StopsShort(n)
    ensures StopsShort(m) || (1 < Excess(n) && Shield(n, 0))
  {
    var p: nat :| p + 1 < Excess(n) && Shield(n, p);
    if p > 0 {
      var q: nat := p - 1;
      ShieldShifts(n, m, q);
      assert q + 1 < Excess(m) && Shield(m, q);
    }
  }

  lemma {:induction false} ShieldedFirst(n: Ns)
    requires ValidNs(n) && 1 < Excess(n) && Shield(n, 0)
    ensures StopsShort(n)
  {
    var p: nat := 0;
    assert p + 1 < Excess(n) && Shield(n, p);
  }

  /** Trimming brings a namespace into its bounds exactly when no such empty text stops it. */
  lemma {:induction false} TrimFitsIff(n: Ns)
    requires ValidNs(n)
    ensures Fits(Trim(n)) <==> !StopsShort(n)
    decreases |n.order|
  {
    TextsCount(n);
    if !Fits(n) && n.order != [] {
      OlderValid(n);
      var m := Older(n);
      TextsCount(m);
      TrimFitsIff(m);
      if StopsShort(m) { StopsShortUp(n, m); }
      if StopsShort(n) { StopsShortDown(n, m); }
      if 1 < Excess(n) && Shield(n, 0) { ShieldedFirst(n); }
    }
  }

  /** An empty oldest text shields any oversized one behind it. */
  lemma {:induction false} EmptyTextShieldsExcess(t: Text)
    requires |t| > BYTES_PER_NS
    ensures var n := Ns(map["e" := "", "x" := t], ["e", "x"], |t|);
            ValidNs(n) && Trim(n).bytes > BYTES_PER_NS && StopsShort(n)
  {
    var n := Ns(map["e" := "", "x" := t], ["e", "x"], |t|);
    assert n.order[1..] == ["x"] && ["x"][1..] == [];
    assert Size(n.texts, []) == 0 && Size(n.texts, ["x"]) == |t| && Size(n.texts, n.order) == |t|;
    assert Elements(n.order) == {"e", "x"};
    OlderValid(n);
    TextsCount(Older(n));
    assert Trim(n) == Older(n);
    TrimFitsIff(n);
  }

  lemma {:induction false} EachWithin(texts: map<string, Text>, order: seq<string>, sha: string)
    requires sha in order && sha in texts
    ensures |texts[sha]| <= Size(texts, order)
  {
    if order[0] != sha { EachWithin(texts, order[1..], sha); }
  }

  lemma {:induction false} AllWithin(n: Ns)
    requires ValidNs(n)
    ensures forall s :: s in n.texts ==> |n.texts[s]| <= n.bytes
  {
    forall s | s in n.texts ensures |n.texts[s]| <= n.bytes { EachWithin(n.texts, n.order, s); }
  }

  /** Evicting from a valid namespace drops its oldest script, if it has one. */
  method Evict(n: Ns) returns (n': Ns, freed: nat)
    requires ValidNs(n)
    ensures ValidNs(n') && Newest(n', n) && freed == n.bytes - n'.bytes
    ensures n.order == [] ==> n' == n
    ensures n.order != [] ==> n.order[0] in n.texts && freed == |n.texts[n.order[0]]| && n' == Older(n)
  {
    AllWithin(n);
    n', freed := EvictOldest(n);
    if n.order != [] { OlderValid(n); }
  }

  /** The namespace pays for its own excess first. */
  method TrimToFit(n: Ns, total: nat) returns (n': Ns, total': nat)
    requires ValidNs(n) && n.bytes <= total
    ensures n' == Trim(n) && n'.bytes <= n.bytes && total' == total - (n.bytes - n'.bytes)
  {
    n', total' := n, total;
    while |n'.texts| > SCRIPTS_PER_NS || n'.bytes > BYTES_PER_NS
      invariant ValidNs(n') && Trim(n') == Trim(n) && n'.bytes <= n.bytes && total' == total - (n.bytes - n'.bytes)
      decreases |n'.order|
    {
      TextsCount(n');
      var m, freed := Evict(n');
      ghost var stops := freed == 0 && |m.texts| <= SCRIPTS_PER_NS;
      assert Trim(n') == if stops then m else Trim(m);
      n' := m;
      if freed == 0 && |n'.texts| <= SCRIPTS_PER_NS { break; }
      total' := total' - freed;
    }
  }

  // ---- all namespaces ----------------------------------------------------------------

  ghost function TotalOf(m: map<Name, Ns>): nat
    decreases |m|
  {
    if m == map[] then 0 else
    var k :| k in m;
    m[k].bytes + TotalOf(m - {k})
  }

  lemma {:induction false} TotalRemove(m: map<Name, Ns>, k: Name)
    requires k in m
    ensures TotalOf(m) == m[k].bytes + TotalOf(m - {k})
    decreases |m|
  {
    var c :| c in m && TotalOf(m) == m[c].bytes + TotalOf(m - {c});
    if c != k {
      TotalRemove(m - {c}, k);
      TotalRemove(m - {k}, c);
      assert m - {c} - {k} == m - {k} - {c};
    }
  }

  lemma {:induction false} TotalUpdate(m: map<Name, Ns>, k: Name, n: Ns)
    ensures TotalOf(m[k := n]) == n.bytes + TotalOf(m - {k})
  {
    TotalRemove(m[k := n], k);
    assert m[k := n] - {k} == m - {k};
  }

  lemma {:induction false} TotalZero(m: map<Name, Ns>)
    requires forall k :: k in m ==> m[k].bytes == 0
    ensures TotalOf(m) == 0
    decreases |m|
  {
    if m != map[] {
      var k :| k in m;
      TotalRemove(m, k);
      TotalZero(m - {k});
    }
  }

  lemma {:induction false} TotalBounds(m: map<Name, Ns>, k: Name)
    requires k in m
    ensures m[k].bytes <= TotalOf(m)
  {
    TotalRemove(m, k);
  }

  // which namespace holds the most

  predicate Biggest(m: map<Name, Ns>, k: Name) { k in m && forall j :: j in m ==> m[j].bytes <= m[k].bytes }

  /** A way of picking a namespace that holds the most bytes; which, if several do, is left open. */
  ghost predicate Picks(pick: map<Name, Ns> -> Name) {
    forall m {:trigger pick(m)} :: m != map[] ==> Biggest(m, pick(m))
  }

  function BytesOf(m: map<Name, Ns>, k: Name): nat { if k in m then m[k].bytes else 0 }

  /** The last of the listed namespaces that hold the most. */
  function LastMost(m: map<Name, Ns>, listed: seq<Name>): Name
    requires listed != []
  {
    var n := |listed| - 1;
    if n == 0 then listed[0] else
    var k := LastMost(m, listed[..n]);
    if BytesOf(m, listed[n]) >= BytesOf(m, k) then listed[n] else k
  }

  lemma {:induction false} LastMostBiggest(m: map<Name, Ns>, listed: seq<Name>)
    requires listed != []
    ensures LastMost(m, listed) in listed
    ensures forall j :: j in listed ==> BytesOf(m, j) <= BytesOf(m, LastMost(m, listed))
    decreases |listed|
  {
    var n := |listed| - 1;
    if n > 0 {
      LastMostBiggest(m, listed[..n]);
      assert listed == listed[..n] + [listed[n]];
    }
  }

  /** The order in which the hash map lists its entries: every one of them, nothing else. */
  ghost predicate ListsEntries(listing: map<Name, Ns> -> seq<Name>) {
    forall m {:trigger listing(m)} :: Elements(listing(m)) == m.Keys
  }

  ghost function Picked(listing: map<Name, Ns> -> seq<Name>): map<Name, Ns> -> Name {
    m => if listing(m) == [] then "" else LastMost(m, listing(m))
  }

  lemma {:induction false} PickedPicks(listing: map<Name, Ns> -> seq<Name>)
    requires ListsEntries(listing)
    ensures Picks(Picked(listing))
  {
    forall m: map<Name, Ns> | m != map[] ensures Biggest(m, Picked(listing)(m)) {
      var listed := listing(m);
      var some :| some in m;
      assert some in Elements(listed);
      LastMostBiggest(m, listed);
      assert LastMost(m, listed) in Elements(listed);
      forall j | j in m ensures m[j].bytes <= m[LastMost(m, listed)].bytes {
        assert j in Elements(listed);
      }
    }
  }

  /** The entry listed last among those that hold the most. */
  method Largest(m: map<Name, Ns>, listed: seq<Name>) returns (k: Name)
    requires listed != []
    ensures k == LastMost(m, listed)
  {
    k := listed[0];
    assert listed[..1] == [listed[0]];
    for i := 1 to |listed|
      invariant k == LastMost(m, listed[..i])
    {
      assert listed[..i + 1][..i] == listed[..i];
      if BytesOf(m, listed[i]) >= BytesOf(m, k) { k := listed[i]; }
    }
    assert listed[..|listed|] == listed;
  }

  predicate ValidAndFew(n: Ns) { ValidNs(n) && |n.texts| <= SCRIPTS_PER_NS }

  predicate AllValid(m: map<Name, Ns>) { forall k {:trigger ValidAndFew(m[k])} :: k in m ==> ValidAndFew(m[k]) }

  predicate NoneEmpty(m: map<Name, Ns>) { forall k {:trigger NoEmptyText(m[k])} :: k in m ==> NoEmptyText(m[k]) }

  /** Every namespace of `m` is that of `before` without some of its oldest scripts. */
  predicate AllNewest(m: map<Name, Ns>, before: map<Name, Ns>) {
    m.Keys == before.Keys && forall k {:trigger Newest(m[k], before[k])} :: k in m ==> Newest(m[k], before[k])
  }

  lemma {:induction false} NewestCount(n: Ns, was: Ns)
    requires ValidNs(n) && ValidNs(was) && Newest(n, was)
    ensures |n.texts| <= |was.texts| && (NoEmptyText(was) ==> NoEmptyText(n))
  {
    TextsCount(n);
    TextsCount(was);
  }

  lemma {:induction false} ValidWith(m: map<Name, Ns>, k: Name, n: Ns)
    requires AllValid(m) && ValidAndFew(n)
    ensures AllValid(m[k := n])
  {
    var m' := m[k := n];
    forall j | j in m' ensures ValidAndFew(m'[j]) {
      if j != k { assert ValidAndFew(m[j]); }
    }
  }

  lemma {:induction false} NewestWith(m: map<Name, Ns>, before: map<Name, Ns>, k: Name, n: Ns)
    requires AllNewest(m, before) && k in m && Newest(n, before[k])
    ensures AllNewest(m[k := n], before)
  {
    var m' := m[k := n];
    forall j | j in m' ensures Newest(m'[j], before[j]) {
      if j != k { assert Newest(m[j], before[j]); }
    }
  }

  lemma {:induction false} NoneEmptyWith(m: map<Name, Ns>, k: Name, n: Ns)
    requires NoneEmpty(m) && NoEmptyText(n)
    ensures NoneEmpty(m[k := n])
  {
    var m' := m[k := n];
    forall j | j in m' ensures NoEmptyText(m'[j]) {
      if j != k { assert NoEmptyText(m[j]); }
    }
  }

  lemma {:induction false} NewestItself(m: map<Name, Ns>)
    ensures AllNewest(m, m)
  {
  }

  lemma {:induction false} EvictOneOf(m: map<Name, Ns>, before: map<Name, Ns>, k: Name, n: Ns)
    requires AllValid(m) && AllNewest(m, before) && k in m && ValidNs(n) && Newest(n, m[k])
    ensures AllValid(m[k := n]) && AllNewest(m[k := n], before)
    ensures NoneEmpty(m) ==> NoneEmpty(m[k := n])
  {
    assert ValidAndFew(m[k]) && Newest(m[k], before[k]);
    NewestCount(n, m[k]);
    NewestTransitive(n, m[k], before[k]);
    ValidWith(m, k, n);
    NewestWith(m, before, k, n);
    if NoneEmpty(m) {
      assert NoEmptyText(m[k]);
      NoneEmptyWith(m, k, n);
    }
  }

  lemma {:induction false} EvictTotal(m: map<Name, Ns>, k: Name, n: Ns)
    requires k in m && n.bytes <= m[k].bytes
    ensures TotalOf(m[k := n]) == TotalOf(m) - (m[k].bytes - n.bytes)
  {
    TotalUpdate(m, k, n);
    TotalRemove(m, k);
  }

  /** The namespace picked loses its oldest script. */
  ghost function Drop(pick: map<Name, Ns> -> Name, m: map<Name, Ns>): map<Name, Ns> {
    var k := pick(m);
    if k in m && HasOldest(m[k]) then m[k := Older(m[k])] else m
  }

  /** The script that goes next is empty. */
  predicate DropsEmpty(pick: map<Name, Ns> -> Name, m: map<Name, Ns>) {
    var k := pick(m);
    k in m && HasOldest(m[k]) && m[k].texts[m[k].order[0]] == ""
  }

  /** Whoever holds the most pays, until the total is in bounds or nothing was freed. */
  ghost function Evicted(pick: map<Name, Ns> -> Name, m: map<Name, Ns>): map<Name, Ns>
    decreases TotalOf(m)
  {
    if TotalOf(m) <= BYTES_TOTAL then m else
    var m' := Drop(pick, m);
    if TotalOf(m') < TotalOf(m) then Evicted(pick, m') else m'
  }

  /** The largest namespace can be without a script only when no namespace has any bytes. */
  lemma {:induction false} LargestHasScripts(m: map<Name, Ns>, k: Name)
    requires AllValid(m) && Biggest(m, k) && TotalOf(m) > 0
    ensures ValidNs(m[k]) && HasOldest(m[k])
  {
    assert ValidAndFew(m[k]);
    if m[k].order == [] { TotalZero(m); }
    OlderValid(m[k]);
  }

  lemma {:induction false} DropOne(pick: map<Name, Ns> -> Name, m: map<Name, Ns>)
    requires AllValid(m)
    ensures AllValid(Drop(pick, m)) && AllNewest(Drop(pick, m), m) && TotalOf(Drop(pick, m)) <= TotalOf(m)
    ensures NoneEmpty(m) ==> NoneEmpty(Drop(pick, m))
    ensures DropsEmpty(pick, m) ==> TotalOf(Drop(pick, m)) == TotalOf(m)
    ensures Picks(pick) && TotalOf(m) > BYTES_TOTAL && !DropsEmpty(pick, m) ==> TotalOf(Drop(pick, m)) < TotalOf(m)
  {
    var k := pick(m);
    NewestItself(m);
    if Picks(pick) && TotalOf(m) > BYTES_TOTAL { LargestHasScripts(m, k); }
    if k in m && HasOldest(m[k]) {
      assert ValidAndFew(m[k]);
      OlderValid(m[k]);
      assert Newest(Older(m[k]), m[k]);
      EvictOneOf(m, m, k, Older(m[k]));
      EvictTotal(m, k, Older(m[k]));
    }
  }

  /** After as many evictions, whether or not they freed anything. */
  ghost function Dropped(pick: map<Name, Ns> -> Name, m: map<Name, Ns>, count: nat): map<Name, Ns> {
    if count == 0 then m else Dropped(pick, Drop(pick, m), count - 1)
  }

  lemma {:induction false} DroppedWithin(pick: map<Name, Ns> -> Name, m: map<Name, Ns>, count: nat)
    requires AllValid(m)
    ensures TotalOf(Dropped(pick, m, count)) <= TotalOf(m)
    decreases count
  {
    if count > 0 {
      DropOne(pick, m);
      DroppedWithin(pick, Drop(pick, m), count - 1);
    }
  }

  /** One of the scripts that must go, the largest namespace's oldest each time, is empty. */
  ghost predicate MeetsEmpty(pick: map<Name, Ns> -> Name, m: map<Name, Ns>) {
    exists count: nat :: TotalOf(Dropped(pick, m, count)) > BYTES_TOTAL && DropsEmpty(pick, Dropped(pick, m, count))
  }

  lemma {:induction false} MeetsEmptyNow(pick: map<Name, Ns> -> Name, m: map<Name, Ns>)
    requires TotalOf(m) > BYTES_TOTAL && DropsEmpty(pick, m)
    ensures MeetsEmpty(pick, m)
  {
    var none: nat := 0;
    assert Dropped(pick, m, none) == m;
  }

  lemma {:induction false} MeetsEmptyLater(pick: map<Name, Ns> -> Name, m: map<Name, Ns>)
    requires !DropsEmpty(pick, m)
    ensures MeetsEmpty(pick, m) <==> MeetsEmpty(pick, Drop(pick, m))
  {
    if MeetsEmpty(pick, m) {
      var count: nat :| TotalOf(Dropped(pick, m, count)) > BYTES_TOTAL && DropsEmpty(pick, Dropped(pick, m, count));
      var less: nat := count - 1;
      assert Dropped(pick, m, count) == Dropped(pick, Drop(pick, m), less);
    }
    if MeetsEmpty(pick, Drop(pick, m)) {
      var count: nat :| TotalOf(Dropped(pick, Drop(pick, m), count)) > BYTES_TOTAL
                        && DropsEmpty(pick, Dropped(pick, Drop(pick, m), count));
      var more: nat := count + 1;
      assert Dropped(pick, m, more) == Dropped(pick, Drop(pick, m), count);
    }
  }

  /** However ties are broken, the total ends in bounds exactly when no script that must go is empty. */
  lemma {:induction false} TotalFitsIff(pick: map<Name, Ns> -> Name, m: map<Name, Ns>)
    requires Picks(pick) && AllValid(m)
    ensures TotalOf(Evicted(pick, m)) <= BYTES_TOTAL <==> !MeetsEmpty(pick, m)
    decreases TotalOf(m)
  {
    if TotalOf(m) <= BYTES_TOTAL {
      if MeetsEmpty(pick, m) {
        var count: nat :| TotalOf(Dropped(pick, m, count)) > BYTES_TOTAL && DropsEmpty(pick, Dropped(pick, m, count));
        DroppedWithin(pick, m, count);
      }
    } else {
      DropOne(pick, m);
      if DropsEmpty(pick, m) {
        MeetsEmptyNow(pick, m);
      } else {
        MeetsEmptyLater(pick, m);
        TotalFitsIff(pick, Drop(pick, m));
      }
    }
  }

  lemma {:induction false} EvictedValid(pick: map<Name, Ns> -> Name, m: map<Name, Ns>)
    requires AllValid(m)
    ensures AllValid(Evicted(pick, m)) && AllNewest(Evicted(pick, m), m)
    ensures NoneEmpty(m) ==> NoneEmpty(Evicted(pick, m)) && (Picks(pick) ==> TotalOf(Evicted(pick, m)) <= BYTES_TOTAL)
    decreases TotalOf(m)
  {
    NewestItself(m);
    if TotalOf(m) > BYTES_TOTAL {
      var m' := Drop(pick, m);
      DropOne(pick, m);
      if NoneEmpty(m) && pick(m) in m { assert NoEmptyText(m[pick(m)]); }
      if TotalOf(m') < TotalOf(m) {
        EvictedValid(pick, m');
        AllNewestTransitive(Evicted(pick, m'), m', m);
      }
    }
  }

  lemma {:induction false} AllNewestTransitive(a: map<Name, Ns>, b: map<Name, Ns>, c: map<Name, Ns>)
    requires AllNewest(a, b) && AllNewest(b, c)
    ensures AllNewest(a, c)
  {
    forall k | k in a ensures Newest(a[k], c[k]) {
      assert Newest(a[k], b[k]) && Newest(b[k], c[k]);
      NewestTransitive(a[k], b[k], c[k]);
    }
  }

  /** Over the total, whoever holds the most pays. */
  method TrimTotal(listing: map<Name, Ns> -> seq<Name>, before: map<Name, Ns>, total: nat)
    returns (m: map<Name, Ns>, total': nat)
    requires ListsEntries(listing) && AllValid(before) && total == TotalOf(before)
    ensures m == Evicted(Picked(listing), before) && total' == TotalOf(m)
  {
    ghost var pick := Picked(listing);
    PickedPicks(listing);
    m, total' := before, total;
    while total' > BYTES_TOTAL
      invariant AllValid(m) && total' == TotalOf(m) && Evicted(pick, m) == Evicted(pick, before)
      decreases total'
    {
      if listing(m) == [] { break; }
      var k := Largest(m, listing(m));
      assert k == pick(m) && Biggest(m, k);
      LargestHasScripts(m, k);
      DropOne(pick, m);
      var n, freed := Evict(m[k]);
      EvictTotal(m, k, n);
      assert m[k := n] == Drop(pick, m);
      m := m[k := n];
      if freed == 0 { break; }
      total' := total' - freed;
    }
  }

  /** A strictly largest namespace whose oldest text is empty keeps the total where it is. */
  lemma {:induction false} EmptyTextShieldsTotal(pick: map<Name, Ns> -> Name, m: map<Name, Ns>, k: Name)
    requires Picks(pick) && AllValid(m) && TotalOf(m) > BYTES_TOTAL
    requires k in m && forall j :: j in m && j != k ==> m[j].bytes < m[k].bytes
    requires HasOldest(m[k]) && m[k].texts[m[k].order[0]] == ""
    ensures Evicted(pick, m) == m[k := Older(m[k])] && TotalOf(Evicted(pick, m)) == TotalOf(m) && MeetsEmpty(pick, m)
  {
    assert pick(m) == k by { assert Biggest(m, pick(m)); }
    DropOne(pick, m);
    MeetsEmptyNow(pick, m);
  }

  predicate WithinEach(m: map<Name, Ns>) { forall k :: k in m ==> m[k].bytes <= BYTES_PER_NS }

  /** A namespace with one script. */
  function One(t: Text): Ns { Ns(map["x" := t], ["x"], |t|) }

  /** A namespace whose oldest script is empty. */
  function EmptyFirst(t: Text): Ns { Ns(map["e" := "", "x" := t], ["e", "x"], |t|) }

  lemma {:induction false} SmallValid(t: Text)
    ensures ValidAndFew(One(t)) && ValidAndFew(EmptyFirst(t)) && HasOldest(EmptyFirst(t))
  {
    var a, e := One(t), EmptyFirst(t);
    assert e.order[1..] == ["x"] && ["x"][1..] == [];
    assert Size(a.texts, []) == 0 && Size(a.texts, a.order) == |t|;
    assert Size(e.texts, []) == 0 && Size(e.texts, ["x"]) == |t| && Size(e.texts, e.order) == |t|;
    assert Elements(a.order) == {"x"} && Elements(e.order) == {"e", "x"};
    TextsCount(a);
    TextsCount(e);
  }

  /** As many namespaces, named by strings of their own length, with one script each. */
  function Crowd(count: nat, t: Text): map<Name, Ns> {
    if count == 0 then map[] else Crowd(count - 1, t)[seq(count, _ => 'b') := One(t)]
  }

  lemma {:induction false} CrowdNames(count: nat, t: Text)
    ensures forall k :: k in Crowd(count, t) ==> 0 < |k| <= count && k[0] == 'b' && Crowd(count, t)[k] == One(t)
    decreases count
  {
    if count > 0 { CrowdNames(count - 1, t); }
  }

  lemma {:induction false} JoinsValid(m: map<Name, Ns>, k: Name, n: Ns)
    requires AllValid(m) && ValidAndFew(n) && WithinEach(m) && n.bytes <= BYTES_PER_NS
    ensures AllValid(m[k := n]) && WithinEach(m[k := n])
  {
    ValidWith(m, k, n);
  }

  lemma {:induction false} WithoutAbsent(m: map<Name, Ns>, k: Name)
    requires k !in m
    ensures m - {k} == m
  {
  }

  lemma {:induction false} JoinsTotal(m: map<Name, Ns>, k: Name, n: Ns)
    requires k !in m
    ensures TotalOf(m[k := n]) == n.bytes + TotalOf(m)
  {
    WithoutAbsent(m, k);
    TotalUpdate(m, k, n);
  }

  lemma {:induction false} CrowdTotal(count: nat, t: Text)
    ensures TotalOf(Crowd(count, t)) == count * |t|
    decreases count
  {
    if count > 0 {
      CrowdTotal(count - 1, t);
      CrowdNames(count - 1, t);
      JoinsTotal(Crowd(count - 1, t), seq(count, _ => 'b'), One(t));
      assert (count - 1) * |t| + |t| == count * |t|;
    }
  }

  lemma {:induction false} CrowdValid(count: nat, t: Text)
    requires |t| <= BYTES_PER_NS
    ensures AllValid(Crowd(count, t)) && WithinEach(Crowd(count, t)) && "a" !in Crowd(count, t) && "q" !in Crowd(count, t)
  {
    var m := Crowd(count, t);
    CrowdNames(count, t);
    SmallValid(t);
    forall k | k in m ensures ValidAndFew(m[k]) { }
  }

  /** A crowd, a larger namespace whose oldest script is empty, and a small newcomer. */
  function Crowded(count: nat, big: Text, t: Text, last: Text): map<Name, Ns> {
    Crowd(count, t)["a" := EmptyFirst(big)]["q" := One(last)]
  }

  lemma {:induction false} CrowdedTotal(count: nat, big: Text, t: Text, last: Text)
    requires |last| < |t| < |big| <= BYTES_PER_NS
    ensures var m := Crowded(count, big, t, last);
            AllValid(m) && WithinEach(m) && TotalOf(m) == count * |t| + |big| + |last|
  {
    var crowd := Crowd(count, t);
    CrowdTotal(count, t);
    CrowdValid(count, t);
    SmallValid(big);
    SmallValid(last);
    JoinsValid(crowd, "a", EmptyFirst(big));
    JoinsValid(crowd["a" := EmptyFirst(big)], "q", One(last));
    JoinsTotal(crowd, "a", EmptyFirst(big));
    JoinsTotal(crowd["a" := EmptyFirst(big)], "q", One(last));
  }

  lemma {:induction false} CrowdedLargest(count: nat, big: Text, t: Text, last: Text)
    requires |last| < |t| < |big|
    ensures var m := Crowded(count, big, t, last);
            "a" in m && m["a"] == EmptyFirst(big) && forall j :: j in m && j != "a" ==> m[j].bytes < |big|
  {
    CrowdNames(count, t);
  }

  /**
   * Sixteen namespaces and a newcomer, each within its own bound, one strictly the largest, and its
   * oldest text empty: the total is one byte over and stays there.
   */
  lemma {:induction false} OneByteOver(pick: map<Name, Ns> -> Name, count: nat, big: Text, t: Text, last: Text)
    requires Picks(pick) && count == 15 && |big| == BYTES_PER_NS && |t| == BYTES_PER_NS - 1 && |last| == 16
    ensures var m := Crowded(count, big, t, last);
            AllValid(m) && WithinEach(m) && TotalOf(m) == BYTES_TOTAL + 1 && TotalOf(Evicted(pick, m)) == BYTES_TOTAL + 1
  {
    CrowdedTotal(count, big, t, last);
    CrowdedLargest(count, big, t, last);
    SmallValid(big);
    EmptyTextShieldsTotal(pick, Crowded(count, big, t, last), "a");
  }

  // ---- the cache --------------------------------------------------------------------------

  function EntryOf(m: map<Name, Ns>, ns: Name): Ns { if ns in m then m[ns] else EMPTY }

  function Added(n: Ns, sha: string, text: Text): Ns {
    Ns(n.texts[sha := text], n.order + [sha], n.bytes + |text|)
  }

  lemma {:induction false} AddedValid(n: Ns, sha: string, text: Text)
    requires ValidNs(n) && sha !in n.texts
    ensures ValidNs(Added(n, sha, text))
  {
    var a := Added(n, sha, text);
    SizeSnoc(a.texts, n.order, sha);
    SizeIgnores(n.texts, a.texts, n.order);
    assert sha !in Elements(n.order);
    assert Elements(a.order) == Elements(n.order) + {sha};
  }

  function InsertedBy(inserted: map<Name, seq<string>>, ns: Name): seq<string> { if ns in inserted then inserted[ns] else [] }

  lemma {:induction false} NewestWithin(m: map<Name, Ns>, before: map<Name, Ns>)
    requires AllNewest(m, before) && WithinEach(before)
    ensures WithinEach(m)
  {
    forall k | k in m ensures m[k].bytes <= BYTES_PER_NS { assert Newest(m[k], before[k]); }
  }

  /** A valid namespace takes a new script and pays for its own excess. */
  method Grow(n: Ns, sha: string, text: Text, total: nat) returns (n': Ns, left: nat)
    requires ValidNs(n) && sha !in n.texts && n.bytes <= total
    ensures n' == Trim(Added(n, sha, text)) && left == total - n.bytes + n'.bytes
    ensures ValidAndFew(n') && Newest(n', Added(n, sha, text))
    ensures NoEmptyText(n) && text != "" ==> Fits(n') && NoEmptyText(n')
  {
    var grown := Added(n, sha, text);
    AddedValid(n, sha, text);
    n', left := TrimToFit(grown, total + |text|);
    TrimValid(grown);
    TrimBounds(grown);
    NewestCount(n', grown);
  }

  lemma {:induction false} EntryWithin(m: map<Name, Ns>, ns: Name)
    ensures EntryOf(m, ns).bytes <= TotalOf(m)
  {
    if ns in m { TotalBounds(m, ns); }
  }

  lemma {:induction false} TotalWith(m: map<Name, Ns>, ns: Name, n: Ns)
    ensures TotalOf(m[ns := n]) == TotalOf(m) - EntryOf(m, ns).bytes + n.bytes
  {
    TotalUpdate(m, ns, n);
    if ns in m { TotalRemove(m, ns); } else { assert m - {ns} == m; }
  }

  lemma {:induction false} EntryValid(m: map<Name, Ns>, ns: Name)
    requires AllValid(m)
    ensures ValidAndFew(EntryOf(m, ns)) && (NoneEmpty(m) ==> NoEmptyText(EntryOf(m, ns)))
  {
    if ns in m { assert ValidAndFew(m[ns]) && (NoneEmpty(m) ==> NoEmptyText(m[ns])); } else { assert Elements([]) == {}; }
  }

  lemma {:induction false} OwnBounds(m: map<Name, Ns>, ns: Name, n: Ns)
    requires NoEmptyText(n) && Fits(n) && NoneEmpty(m)
    ensures NoneEmpty(m[ns := n])
    ensures WithinEach(m) ==> WithinEach(m[ns := n])
  {
    NoneEmptyWith(m, ns, n);
  }

  /** Put a new hash into a namespace, which pays for its own excess. */
  method PutOwn(m: map<Name, Ns>, total: nat, ns: Name, sha: string, text: Text) returns (kept: Ns, left: nat)
    requires AllValid(m) && EntryOf(m, ns).bytes <= total && sha !in EntryOf(m, ns).texts
    ensures kept == Trim(Added(EntryOf(m, ns), sha, text)) && left == total - EntryOf(m, ns).bytes + kept.bytes
    ensures AllValid(m[ns := kept]) && Newest(kept, Added(EntryOf(m, ns), sha, text))
    ensures NoneEmpty(m) && text != "" ==> NoneEmpty(m[ns := kept]) && (WithinEach(m) ==> WithinEach(m[ns := kept]))
  {
    EntryValid(m, ns);
    kept, left := Grow(EntryOf(m, ns), sha, text, total);
    ValidWith(m, ns, kept);
    if NoneEmpty(m) && text != "" { OwnBounds(m, ns, kept); }
  }

  /** The namespace with the new script, its own excess paid for. */
  ghost function Own(m: map<Name, Ns>, ns: Name, sha: string, text: Text): Ns { Trim(Added(EntryOf(m, ns), sha, text)) }

  /** ... and then, over the total, whoever holds the most pays. */
  method Put(listing: map<Name, Ns> -> seq<Name>, m: map<Name, Ns>, total: nat, ns: Name, sha: string, text: Text)
    returns (m': map<Name, Ns>, total': nat)
    requires ListsEntries(listing) && AllValid(m) && total == TotalOf(m) && sha !in EntryOf(m, ns).texts
    ensures m' == Evicted(Picked(listing), m[ns := Own(m, ns, sha, text)]) && total' == TotalOf(m')
    ensures AllValid(m[ns := Own(m, ns, sha, text)]) && Newest(Own(m, ns, sha, text), Added(EntryOf(m, ns), sha, text))
    ensures total + |text| <= BYTES_TOTAL ==> m' == m[ns := Own(m, ns, sha, text)]
    ensures NoneEmpty(m) && text != "" && WithinEach(m) ==> WithinEach(m[ns := Own(m, ns, sha, text)])
    ensures NoneEmpty(m) && text != "" ==> NoneEmpty(m[ns := Own(m, ns, sha, text)])
  {
    EntryWithin(m, ns);
    var kept, left := PutOwn(m, total, ns, sha, text);
    TotalWith(m, ns, kept);
    m', total' := TrimTotal(listing, m[ns := kept], left);
  }

  class Cache {
    var byNs: map<Name, Ns>
    var bytes: nat
    /** Every hash ever put into a namespace since its last flush, in order. */
    ghost var inserted: map<Name, seq<string>>

    ghost predicate Valid()
      reads this
    {
      AllValid(byNs) && bytes == TotalOf(byNs) && Survive(byNs, inserted)
    }

    ghost predicate Bounded()
      reads this
    {
      bytes <= BYTES_TOTAL && WithinEach(byNs)
    }

    constructor ()
      ensures Valid() && Bounded() && byNs == map[] && inserted == map[]
    {
      byNs, bytes, inserted := map[], 0, map[];
    }

    /**
     * A known hash changes nothing. A new one joins its namespace last; what then goes are oldest
     * scripts only, of other namespaces only over the total; and unless a text is empty every
     * bound holds afterwards. With empty texts the total is in bounds exactly when none of them is
     * among the scripts that must go. `listing` is the order in which the hash map lists its entries.
     */
    method Remember(listing: map<Name, Ns> -> seq<Name>, ns: Name, sha: string, text: Text)
      requires Valid() && ListsEntries(listing)
      modifies this
      ensures Valid()
      ensures sha in EntryOf(old(byNs), ns).texts ==> byNs == old(byNs) && bytes == old(bytes) && inserted == old(inserted)
      ensures sha !in EntryOf(old(byNs), ns).texts ==>
                && byNs == Evicted(Picked(listing), old(byNs)[ns := Own(old(byNs), ns, sha, text)])
                && inserted == old(inserted)[ns := InsertedBy(old(inserted), ns) + [sha]]
                && AllNewest(byNs, old(byNs)[ns := Added(EntryOf(old(byNs), ns), sha, text)])
                && (old(bytes) + |text| <= BYTES_TOTAL ==> byNs == old(byNs)[ns := Own(old(byNs), ns, sha, text)])
                && (bytes <= BYTES_TOTAL <==> !MeetsEmpty(Picked(listing), old(byNs)[ns := Own(old(byNs), ns, sha, text)]))
      ensures old(Bounded()) && NoneEmpty(old(byNs)) && text != "" ==> Bounded() && NoneEmpty(byNs)
    {
      if sha in EntryOf(byNs, ns).texts { return; }
      ghost var pick, own := Picked(listing), Own(byNs, ns, sha, text);
      ghost var trimmed := byNs[ns := own];
      byNs, bytes := Put(listing, byNs, bytes, ns, sha, text);
      PickedPicks(listing);
      EvictedValid(pick, trimmed);
      TotalFitsIff(pick, trimmed);
      if WithinEach(trimmed) { NewestWithin(byNs, trimmed); }
      AllNewestThrough(byNs, old(byNs), ns, own, Added(EntryOf(old(byNs), ns), sha, text));
      inserted := inserted[ns := InsertedBy(inserted, ns) + [sha]];
      SurvivorsGrow(byNs, old(byNs), old(inserted), ns, sha, text);
    }

    method Lookup(ns: Name, sha: string) returns (r: Option<Text>)
      ensures r == if ns in byNs && sha in byNs[ns].texts then Some(byNs[ns].texts[sha]) else None
    {
      r := None;
      if ns in byNs && sha in byNs[ns].texts { r := Some(byNs[ns].texts[sha]); }
    }

    /** One namespace is forgotten and every other one is untouched. */
    method Flush(ns: Name)
      requires Valid()
      modifies this
      ensures Valid() && byNs == old(byNs) - {ns} && inserted == old(inserted) - {ns}
      ensures old(Bounded()) ==> Bounded()
    {
      FlushedValid(byNs, inserted, ns);
      if ns in byNs {
        bytes := bytes - byNs[ns].bytes;
        byNs := byNs - {ns};
      }
      inserted := inserted - {ns};
    }
  }

  /** Each namespace's scripts are the newest of all that were put into it. */
  predicate Survive(m: map<Name, Ns>, inserted: map<Name, seq<string>>) {
    forall k {:trigger Survives(m[k], inserted, k)} :: k in m ==> Survives(m[k], inserted, k)
  }

  predicate Survives(n: Ns, inserted: map<Name, seq<string>>, k: Name) { Suffix(n.order, InsertedBy(inserted, k)) }

  lemma {:induction false} FlushedValid(m: map<Name, Ns>, inserted: map<Name, seq<string>>, ns: Name)
    requires AllValid(m) && Survive(m, inserted)
    ensures AllValid(m - {ns}) && Survive(m - {ns}, inserted - {ns})
    ensures ns in m ==> TotalOf(m) == m[ns].bytes + TotalOf(m - {ns})
    ensures ns !in m ==> m - {ns} == m
  {
    if ns in m { TotalRemove(m, ns); }
    var m' := m - {ns};
    forall k | k in m' ensures ValidAndFew(m'[k]) { assert ValidAndFew(m[k]); }
    forall k | k in m' ensures Survives(m'[k], inserted - {ns}, k) { assert Survives(m[k], inserted, k); }
  }

  lemma {:induction false} AllNewestThrough(m: map<Name, Ns>, was: map<Name, Ns>, ns: Name, kept: Ns, grown: Ns)
    requires AllNewest(m, was[ns := kept]) && Newest(kept, grown)
    ensures AllNewest(m, was[ns := grown])
  {
    var mid, before := was[ns := kept], was[ns := grown];
    forall k | k in m ensures Newest(m[k], before[k]) {
      assert Newest(m[k], mid[k]);
      if k == ns { NewestTransitive(m[k], kept, grown); }
    }
  }

  lemma {:induction false} GrownSuffix(a: seq<string>, o: seq<string>, i: seq<string>, sha: string)
    requires Suffix(a, o + [sha]) && Suffix(o, i)
    ensures Suffix(a, i + [sha])
  {
    assert Suffix(o + [sha], i + [sha]);
    SuffixTransitive(a, o + [sha], i + [sha]);
  }

  lemma {:induction false} SurvivorsGrow(m: map<Name, Ns>, was: map<Name, Ns>, inserted: map<Name, seq<string>>,
                                         ns: Name, sha: string, text: Text)
    requires AllNewest(m, was[ns := Added(EntryOf(was, ns), sha, text)]) && Survive(was, inserted)
    ensures Survive(m, inserted[ns := InsertedBy(inserted, ns) + [sha]])
  {
    var grown, i := Added(EntryOf(was, ns), sha, text), InsertedBy(inserted, ns);
    var before, later := was[ns := grown], inserted[ns := i + [sha]];
    forall k | k in m ensures Survives(m[k], later, k) {
      assert Newest(m[k], before[k]);
      if k == ns {
        OwnSuffix(was, inserted, ns);
        GrownSuffix(m[k].order, EntryOf(was, ns).order, i, sha);
      } else {
        assert Survives(was[k], inserted, k);
        SuffixTransitive(m[k].order, was[k].order, InsertedBy(inserted, k));
      }
    }
  }

  lemma {:induction false} OwnSuffix(was: map<Name, Ns>, inserted: map<Name, seq<string>>, ns: Name)
    requires Survive(was, inserted)
    ensures Suffix(EntryOf(was, ns).order, InsertedBy(inserted, ns))
  {
    if ns in was { assert Survives(was[ns], inserted, ns); }
  }

  lemma {:induction false} SuffixTransitive(a: seq<string>, b: seq<string>, c: seq<string>)
    requires Suffix(a, b) && Suffix(b, c)
    ensures Suffix(a, c)
  {
  }

  /** Survivors of an insertion order: no script is gone while an older one of its namespace stays. */
  lemma {:induction false} NoneGoneBeforeAnOlder(survivors: seq<string>, inserted: seq<string>, i: nat, j: nat)
    requires Suffix(survivors, inserted) && i < j < |inserted|
    requires |inserted| - |survivors| <= i
    ensures inserted[j] in survivors && inserted[i] in survivors
  {
    var d := |inserted| - |survivors|;
    assert survivors[j - d] == inserted[j] && survivors[i - d] == inserted[i];
  }
}
