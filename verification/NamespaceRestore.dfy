/**
 * Restoring one namespace from a backup set into a live cluster: every row of the namespace is
 * renamed into the destination namespace, routed by its slot and sent in bounded batches.
 */
module NamespaceRestore {
  import opened Basics

  type Byte = x: nat | x < 256
  type Bytes = seq<Byte>

  datatype Row = Row(key: Bytes, value: Bytes)

  const BATCH_ROWS: nat := 200
  const BATCH_BYTES: nat := 1048576
  const SLOTS: nat := 16384

  /** The column families of a namespace's rows: M, S and Z. */
  const FAMILIES: seq<Byte> := [77, 83, 90]

  // ---- keys --------------------------------------------------------------------------

  /** The prefix rows are selected by; the length is cut to a byte. */
  function Prefix(cf: Byte, ns: Bytes): Bytes { [cf, |ns| % 256] + ns }

  /** The namespace a key is in: its second byte counts the bytes of it that follow. */
  function NamespaceOf(key: Bytes): Option<Bytes> {
    if |key| >= 2 && |key| >= 2 + key[1] as nat then Some(key[2..2 + key[1] as nat]) else None
  }

  function Tail(key: Bytes, ns: Bytes): Bytes
    requires |key| >= 2 + |ns|
  {
    key[2 + |ns|..]
  }

  /** The key under another namespace, everything from the slot on unchanged. */
  function Renamed(key: Bytes, src: Bytes, dest: Bytes): Bytes
    requires |key| >= 2 + |src|
  {
    [key[0], |dest| % 256] + dest + Tail(key, src)
  }

  function SlotOf(key: Bytes, ns: Bytes): nat
    requires |key| >= 4 + |ns|
  {
    Tail(key, ns)[0] as nat * 256 + Tail(key, ns)[1] as nat
  }

  /** Below 256 bytes a name's prefix selects exactly the keys of that namespace and family. */
  lemma {:induction false} PrefixSelectsNamespace(key: Bytes, cf: Byte, ns: Bytes)
    requires |ns| < 256
    ensures Prefix(cf, ns) <= key <==> |key| >= 2 && key[0] == cf && NamespaceOf(key) == Some(ns)
  {
    if Prefix(cf, ns) <= key {
      assert key[0] == Prefix(cf, ns)[0] && key[1] == Prefix(cf, ns)[1];
      assert key[2..2 + |ns|] == Prefix(cf, ns)[2..];
    }
    if |key| >= 2 && key[0] == cf && NamespaceOf(key) == Some(ns) {
      assert key[..2 + |ns|] == [key[0], key[1]] + key[2..2 + |ns|];
      assert key[..2 + |ns|] == Prefix(cf, ns);
    }
  }

  /** A slot as two bytes, the high one first. */
  function SlotBytes(slot: nat): Bytes
    requires slot < 65536
  {
    [slot / 256, slot % 256]
  }

  /** A row's key as the storage engine writes it; here too the length is cut to a byte. */
  function Envelope(cf: Byte, ns: Bytes, slot: nat, user: Bytes): Bytes
    requires slot < 65536
  {
    [cf, |ns| % 256] + ns + SlotBytes(slot) + user
  }

  /** A name's own rows are selected, however long the name. */
  lemma {:induction false} OwnRowsSelected(cf: Byte, ns: Bytes, slot: nat, user: Bytes)
    requires slot < 65536
    ensures Prefix(cf, ns) <= Envelope(cf, ns, slot, user)
  {
  }

  /**
   * Whose rows a prefix selects: those of the family whose name has the same length in the byte and
   * which go on like `ns`, within the name if that is long enough and beyond it into slot and key if not.
   */
  lemma {:induction false} PrefixSelectsExactly(cf: Byte, ns: Bytes, cf': Byte, ns': Bytes, slot: nat, user: Bytes)
    requires slot < 65536
    ensures Prefix(cf, ns) <= Envelope(cf', ns', slot, user) <==>
            && cf == cf' && |ns| % 256 == |ns'| % 256
            && if |ns| <= |ns'| then ns <= ns' else ns' < ns && ns[|ns'|..] <= SlotBytes(slot) + user
  {
    var p, e, rest := Prefix(cf, ns), Envelope(cf', ns', slot, user), SlotBytes(slot) + user;
    assert e == [cf', |ns'| % 256] + (ns' + rest);
    assert p <= e <==> cf == cf' && |ns| % 256 == |ns'| % 256 && ns <= ns' + rest by {
      assert p == [cf, |ns| % 256] + ns;
      if p <= e {
        assert p[0] == e[0] && p[1] == e[1];
        assert forall i :: 0 <= i < |ns| ==> ns[i] == p[i + 2] == e[i + 2] == (ns' + rest)[i];
      }
    }
    PrefixOfJoin(ns, ns', rest);
  }

  lemma {:induction false} PrefixOfJoin(a: Bytes, b: Bytes, rest: Bytes)
    ensures a <= b + rest <==> if |a| <= |b| then a <= b else b < a && a[|b|..] <= rest
  {
    if |a| > |b| {
      assert a == a[..|b|] + a[|b|..];
      if a <= b + rest {
        assert forall i :: 0 <= i < |b| ==> a[i] == (b + rest)[i];
        assert forall i :: 0 <= i < |a| - |b| ==> a[|b|..][i] == a[|b| + i] == (b + rest)[|b| + i];
      }
      if b < a && a[|b|..] <= rest {
        assert a[..|b|] == b;
      }
    } else if a <= b + rest {
      assert forall i :: 0 <= i < |a| ==> a[i] == (b + rest)[i];
    }
  }

  /** The name cut to the length its byte can tell, the slot and key that spell out the rest. */
  lemma {:induction false} LongNameCollides(cf: Byte, ns: Bytes)
    requires |ns| >= 256
    ensures var short := ns[..|ns| % 256]; var rest := ns[|ns| % 256..];
            |short| < 256 && short != ns && rest[0] as nat * 256 + rest[1] as nat < 65536
            && Envelope(cf, short, rest[0] as nat * 256 + rest[1] as nat, rest[2..]) == Prefix(cf, ns)
  {
    var short, rest := ns[..|ns| % 256], ns[|ns| % 256..];
    assert SlotBytes(rest[0] as nat * 256 + rest[1] as nat) == [rest[0], rest[1]];
    assert rest == [rest[0], rest[1]] + rest[2..];
    assert ns == short + rest;
  }

  ghost predicate SelectsOnlyItself(cf: Byte, ns: Bytes) {
    forall ns': Bytes, slot: nat, user ::
      |ns'| < 256 && slot < 65536 && Prefix(cf, ns) <= Envelope(cf, ns', slot, user) ==> ns' == ns
  }

  /** Among names a length byte can hold, a prefix selects its own rows alone exactly if its name is one of them. */
  lemma {:induction false} SelectsOnlyItselfIff(cf: Byte, ns: Bytes)
    ensures SelectsOnlyItself(cf, ns) <==> |ns| < 256
  {
    if |ns| < 256 {
      forall ns': Bytes, slot: nat, user | |ns'| < 256 && slot < 65536 && Prefix(cf, ns) <= Envelope(cf, ns', slot, user)
        ensures ns' == ns
      {
        PrefixSelectsExactly(cf, ns, cf, ns', slot, user);
      }
    } else {
      LongNameCollides(cf, ns);
      var short, rest := ns[..|ns| % 256], ns[|ns| % 256..];
      assert Prefix(cf, ns) <= Envelope(cf, short, rest[0] as nat * 256 + rest[1] as nat, rest[2..]);
    }
  }

  /** Renaming can be undone, so no two rows of a namespace are renamed to one key. */
  lemma {:induction false} RenamingInverts(key: Bytes, src: Bytes, dest: Bytes)
    requires |src| < 256 && |dest| < 256 && NamespaceOf(key) == Some(src)
    ensures NamespaceOf(Renamed(key, src, dest)) == Some(dest) && Renamed(key, src, dest)[0] == key[0]
    ensures Tail(Renamed(key, src, dest), dest) == Tail(key, src)
    ensures Renamed(Renamed(key, src, dest), dest, src) == key
  {
    var r := Renamed(key, src, dest);
    assert r[2..2 + |dest|] == dest;
    assert r[2 + |dest|..] == Tail(key, src);
    assert key == [key[0], key[1]] + key[2..2 + |src|] + key[2 + |src|..];
  }

  lemma {:induction false} RenamingIsInjective(a: Bytes, b: Bytes, src: Bytes, dest: Bytes)
    requires |src| < 256 && |dest| < 256 && NamespaceOf(a) == Some(src) && NamespaceOf(b) == Some(src)
    requires Renamed(a, src, dest) == Renamed(b, src, dest)
    ensures a == b
  {
    RenamingInverts(a, src, dest);
    RenamingInverts(b, src, dest);
  }

  // ---- owners --------------------------------------------------------------------------

  datatype Range = Unranged | Range(lo: nat, hi: nat)

  datatype Exception = Exception(lo: nat, hi: nat, pair: nat)

  datatype Topology = Topology(exceptions: seq<Exception>, ranges: seq<Range>, pairs: nat)

  function FirstException(es: seq<Exception>, slot: nat): Option<nat> {
    if es == [] then None
    else if es[0].lo <= slot <= es[0].hi then Some(es[0].pair)
    else FirstException(es[1..], slot)
  }

  function FirstRange(rs: seq<Range>, slot: nat, i: nat): Option<nat> {
    if rs == [] then None
    else if rs[0].Range? && rs[0].lo <= slot <= rs[0].hi then Some(i)
    else FirstRange(rs[1..], slot, i + 1)
  }

  function Ranged(rs: seq<Range>): nat {
    if rs == [] then 0 else (if rs[0].Range? then 1 else 0) + Ranged(rs[1..])
  }

  function DefaultPair(slot: nat, t: Topology): Option<nat> {
    if t.pairs == 0 then None else
    var r := FirstRange(t.ranges, slot, 0);
    if r.Some? then r else Some(slot * (if Ranged(t.ranges) > 0 then Ranged(t.ranges) else t.pairs) / SLOTS)
  }

  function OwnerOf(slot: nat, t: Topology): nat {
    var e := FirstException(t.exceptions, slot);
    if e.Some? then e.value else
    var d := DefaultPair(slot, t);
    if d.Some? then d.value else 0
  }

  lemma {:induction false} FirstRangeIn(rs: seq<Range>, slot: nat, i: nat)
    ensures FirstRange(rs, slot, i).Some? ==> i <= FirstRange(rs, slot, i).value < i + |rs|
    ensures Ranged(rs) <= |rs|
  {
    if rs != [] { FirstRangeIn(rs[1..], slot, i + 1); }
  }

  lemma {:induction false} FirstExceptionIn(es: seq<Exception>, slot: nat, n: nat)
    requires forall i :: 0 <= i < |es| ==> es[i].pair < n
    ensures FirstException(es, slot).Some? ==> FirstException(es, slot).value < n
  {
    if es != [] { FirstExceptionIn(es[1..], slot, n); }
  }

  /** Every slot of the keyspace has an owner among the pairs, if the exceptions name pairs that exist. */
  lemma {:induction false} OwnerInRange(slot: nat, t: Topology)
    requires slot < SLOTS && t.pairs > 0 && |t.ranges| <= t.pairs && forall i :: 0 <= i < |t.exceptions| ==> t.exceptions[i].pair < t.pairs
    ensures OwnerOf(slot, t) < t.pairs
  {
    FirstExceptionIn(t.exceptions, slot, t.pairs);
    FirstRangeIn(t.ranges, slot, 0);
    ScaledBelow(slot, if Ranged(t.ranges) > 0 then Ranged(t.ranges) else t.pairs);
  }

  lemma {:induction false} ScaledBelow(slot: nat, n: nat)
    requires slot < SLOTS && n > 0
    ensures 0 <= slot * n / SLOTS < n
  {
    var p := slot * n;
    ProductBound(slot, n);
    Quotient(p, n);
  }

  lemma {:induction false} ProductBound(slot: nat, n: nat)
    requires slot <= 16383
    ensures slot * n <= 16383 * n
    decreases n
  {
    if n > 0 {
      ProductBound(slot, n - 1);
      assert slot * n == slot * (n - 1) + slot;
    }
  }

  lemma {:induction false} Quotient(p: nat, n: nat)
    requires p <= 16383 * n && n > 0
    ensures 0 <= p / SLOTS < n
  {
  }

  // ---- the sender ---------------------------------------------------------------------------

  function Concat(bs: seq<seq<Row>>): seq<Row> {
    if bs == [] then [] else Concat(bs[..|bs| - 1]) + bs[|bs| - 1]
  }

  /** What a row counts for: the bytes of its value and of its key before renaming, which adds `shift` to its length. */
  function Cost(row: Row, shift: int): int { |row.key| - shift + |row.value| }

  function Weight(batch: seq<Row>, shift: int): int {
    if batch == [] then 0 else Weight(batch[..|batch| - 1], shift) + Cost(batch[|batch| - 1], shift)
  }

  /** The batch has reached one of its bounds. */
  predicate Full(batch: seq<Row>, shift: int) { |batch| >= BATCH_ROWS || Weight(batch, shift) >= BATCH_BYTES }

  /** Until its last row came, the batch was under both bounds. */
  predicate Timely(batch: seq<Row>, shift: int) { batch != [] && !Full(batch[..|batch| - 1], shift) }

  /** A batch being filled. */
  predicate Open(batch: seq<Row>, shift: int) { !Full(batch, shift) && (batch != [] ==> Timely(batch, shift)) }

  /** Every batch but the last went out when it was full and no later. */
  predicate Packed(bs: seq<seq<Row>>, shift: int) {
    forall i :: 0 <= i < |bs| ==> Timely(bs[i], shift) && (i < |bs| - 1 ==> Full(bs[i], shift))
  }

  predicate AllFull(bs: seq<seq<Row>>, shift: int) {
    forall i :: 0 <= i < |bs| ==> Timely(bs[i], shift) && Full(bs[i], shift)
  }

  /** A full batch is at most the row bound long, and without its last row under the byte bound. */
  lemma {:induction false} PackedBounds(bs: seq<seq<Row>>, shift: int, i: nat)
    requires Packed(bs, shift) && i < |bs|
    ensures 1 <= |bs[i]| <= BATCH_ROWS && Weight(bs[i][..|bs[i]| - 1], shift) < BATCH_BYTES
    ensures i < |bs| - 1 ==> |bs[i]| == BATCH_ROWS || Weight(bs[i], shift) >= BATCH_BYTES
  {
    assert Timely(bs[i], shift);
  }

  /** The counters of one pair are the true sums. */
  predicate Counted(batch: seq<Row>, bytes: nat, sent: nat, wire: seq<seq<Row>>, shift: int) {
    bytes == Weight(batch, shift) && sent == |Concat(wire)|
  }

  predicate PairValid(batch: seq<Row>, bytes: nat, sent: nat, wire: seq<seq<Row>>, shift: int) {
    Counted(batch, bytes, sent, wire, shift) && Open(batch, shift) && AllFull(wire, shift)
  }

  lemma {:induction false} Grown(batch: seq<Row>, row: Row, shift: int)
    requires !Full(batch, shift)
    ensures Weight(batch + [row], shift) == Weight(batch, shift) + Cost(row, shift) && Timely(batch + [row], shift)
  {
    var grown := batch + [row];
    assert grown[..|grown| - 1] == batch;
  }

  lemma {:induction false} Taken(wire: seq<seq<Row>>, batch: seq<Row>)
    ensures Concat(wire + [batch]) == Concat(wire) + batch
  {
    var taken := wire + [batch];
    assert taken[..|taken| - 1] == wire;
  }

  lemma {:induction false} OneMoreFull(wire: seq<seq<Row>>, batch: seq<Row>, shift: int)
    requires AllFull(wire, shift) && Timely(batch, shift) && Full(batch, shift)
    ensures AllFull(wire + [batch], shift)
  {
  }

  lemma {:induction false} LastMaybeShort(wire: seq<seq<Row>>, batch: seq<Row>, shift: int)
    requires AllFull(wire, shift) && Open(batch, shift)
    ensures Packed(if batch == [] then wire else wire + [batch], shift)
  {
  }

  /** The batches being filled for each pair and, in `wire`, those its master has taken. */
  class Sender {
    const shift: int
    var batches: seq<seq<Row>>
    var batchBytes: seq<nat>
    var sent: seq<nat>
    var wire: seq<seq<seq<Row>>>

    ghost predicate Shaped(pairs: nat)
      reads this
    {
      |batches| == |batchBytes| == |sent| == |wire| == pairs
    }

    ghost predicate Valid(pairs: nat)
      reads this
    {
      Shaped(pairs) && forall p: nat {:trigger PairOk(p)} :: p < pairs ==> PairOk(p)
    }

    ghost predicate PairOk(p: nat)
      reads this
    {
      p < |batches| == |batchBytes| == |sent| == |wire| && PairValid(batches[p], batchBytes[p], sent[p], wire[p], shift)
    }

    /** Everything handed over for a pair so far, in order. */
    function Routed(p: nat): seq<Row>
      requires p < |wire| && p < |batches|
      reads this
    {
      Concat(wire[p]) + batches[p]
    }

    constructor (pairs: nat, shift: int)
      ensures this.shift == shift && Valid(pairs) && forall p: nat :: p < pairs ==> Routed(p) == []
    {
      this.shift := shift;
      batches := seq(pairs, _ => []);
      batchBytes := seq(pairs, _ => 0);
      sent := seq(pairs, _ => 0);
      wire := seq(pairs, _ => []);
    }

    method Flush(p: nat, ghost pairs: nat)
      requires Shaped(pairs) && p < pairs && Counted(batches[p], batchBytes[p], sent[p], wire[p], shift)
      modifies this
      ensures Shaped(pairs) && batches[p] == [] && Counted(batches[p], batchBytes[p], sent[p], wire[p], shift)
      ensures wire[p] == if old(batches[p]) == [] then old(wire[p]) else old(wire[p]) + [old(batches[p])]
      ensures Concat(wire[p]) == old(Routed(p))
      ensures forall q :: 0 <= q < pairs && q != p ==>
                batches[q] == old(batches[q]) && batchBytes[q] == old(batchBytes[q])
                && wire[q] == old(wire[q]) && sent[q] == old(sent[q])
    {
      if batches[p] == [] { return; }
      var batch := batches[p];
      Taken(wire[p], batch);
      wire := wire[p := wire[p] + [batch]];
      sent := sent[p := sent[p] + |batch|];
      batches := batches[p := []];
      batchBytes := batchBytes[p := 0];
    }

    method Push(p: nat, row: Row, cost: nat, ghost pairs: nat)
      requires Valid(pairs) && p < pairs && cost == Cost(row, shift)
      modifies this
      ensures Valid(pairs) && Routed(p) == old(Routed(p)) + [row]
      ensures forall q: nat :: q < pairs && q != p ==> Routed(q) == old(Routed(q))
    {
      ghost var before := Routed(p);
      assert PairOk(p);
      Grown(batches[p], row, shift);
      batches := batches[p := batches[p] + [row]];
      batchBytes := batchBytes[p := batchBytes[p] + cost];
      assert Routed(p) == before + [row];
      if |batches[p]| >= BATCH_ROWS || batchBytes[p] >= BATCH_BYTES {
        OneMoreFull(wire[p], batches[p], shift);
        Flush(p, pairs);
      }
      assert PairOk(p);
      forall q: nat | q < pairs && q != p ensures PairOk(q) { assert old(PairOk(q)); }
    }
  }

  // ---- which rows, in which order ----------------------------------------------------------

  predicate Selected(row: Row, ns: Bytes) { exists i :: 0 <= i < |FAMILIES| && Prefix(FAMILIES[i], ns) <= row.key }

  /** Rows as the storage engine writes them: a selected key has a slot after its prefix, and the slot an owner. */
  predicate Routable(rows: seq<Row>, ns: Bytes, t: Topology) {
    forall i :: 0 <= i < |rows| && Selected(rows[i], ns) ==>
      |rows[i].key| >= 4 + |ns| && OwnerOf(SlotOf(rows[i].key, ns), t) < t.pairs
  }

  predicate Owned(row: Row, src: Bytes, t: Topology, p: nat) {
    |row.key| >= 4 + |src| && OwnerOf(SlotOf(row.key, src), t) == p
  }

  function Rewritten(row: Row, src: Bytes, dest: Bytes): Row
    requires |row.key| >= 2 + |src|
  {
    Row(Renamed(row.key, src, dest), row.value)
  }

  /** The row, renamed, if it is of the family and goes to pair `p`. */
  function Pick(row: Row, cf: Byte, src: Bytes, dest: Bytes, t: Topology, p: nat): seq<Row> {
    if Prefix(cf, src) <= row.key && Owned(row, src, t, p) then [Rewritten(row, src, dest)] else []
  }

  /** The rows of one family that go to pair `p`, renamed, in scan order. */
  function Family(rows: seq<Row>, cf: Byte, src: Bytes, dest: Bytes, t: Topology, p: nat): seq<Row> {
    if rows == [] then [] else Pick(rows[0], cf, src, dest, t, p) + Family(rows[1..], cf, src, dest, t, p)
  }

  function Families(rows: seq<Row>, cfs: seq<Byte>, src: Bytes, dest: Bytes, t: Topology, p: nat): seq<Row> {
    if cfs == [] then [] else Family(rows, cfs[0], src, dest, t, p) + Families(rows, cfs[1..], src, dest, t, p)
  }

  function Checkpoints(sets: seq<seq<Row>>, src: Bytes, dest: Bytes, t: Topology, p: nat): seq<Row> {
    if sets == [] then [] else Families(sets[0], FAMILIES, src, dest, t, p) + Checkpoints(sets[1..], src, dest, t, p)
  }

  method SendRow(s: Sender, row: Row, cf: Byte, src: Bytes, dest: Bytes, t: Topology)
    requires s.Valid(t.pairs) && s.shift == |dest| - |src|
    requires Prefix(cf, src) <= row.key ==> |row.key| >= 4 + |src| && OwnerOf(SlotOf(row.key, src), t) < t.pairs
    modifies s
    ensures s.Valid(t.pairs)
    ensures forall p: nat :: p < t.pairs ==> s.Routed(p) == old(s.Routed(p)) + Pick(row, cf, src, dest, t, p)
  {
    if Prefix(cf, src) <= row.key {
      var owner := OwnerOf(SlotOf(row.key, src), t);
      s.Push(owner, Rewritten(row, src, dest), |row.key| + |row.value|, t.pairs);
    }
  }

  lemma {:induction false} FamilyStep(rows: seq<Row>, i: nat, cf: Byte, src: Bytes, dest: Bytes, t: Topology, p: nat)
    requires i < |rows|
    ensures Family(rows[i..], cf, src, dest, t, p) == Pick(rows[i], cf, src, dest, t, p) + Family(rows[i + 1..], cf, src, dest, t, p)
  {
    assert rows[i..][1..] == rows[i + 1..];
  }

  lemma {:induction false} RoutableRow(rows: seq<Row>, i: nat, cf: Byte, src: Bytes, t: Topology)
    requires Routable(rows, src, t) && cf in FAMILIES && i < |rows| && Prefix(cf, src) <= rows[i].key
    ensures |rows[i].key| >= 4 + |src| && OwnerOf(SlotOf(rows[i].key, src), t) < t.pairs
  {
    assert Selected(rows[i], src);
  }

  /** Send one family of one checkpoint. */
  method SendFamily(s: Sender, rows: seq<Row>, cf: Byte, src: Bytes, dest: Bytes, t: Topology)
    requires s.Valid(t.pairs) && s.shift == |dest| - |src| && Routable(rows, src, t) && cf in FAMILIES
    modifies s
    ensures s.Valid(t.pairs)
    ensures forall p: nat :: p < t.pairs ==> s.Routed(p) == old(s.Routed(p)) + Family(rows, cf, src, dest, t, p)
  {
    for i := 0 to |rows|
      invariant s.Valid(t.pairs)
      invariant forall p: nat :: p < t.pairs ==>
                  s.Routed(p) + Family(rows[i..], cf, src, dest, t, p) == old(s.Routed(p)) + Family(rows, cf, src, dest, t, p)
    {
      ghost var before := seq(t.pairs, p requires 0 <= p < t.pairs reads s requires s.Valid(t.pairs) => s.Routed(p));
      if Prefix(cf, src) <= rows[i].key { RoutableRow(rows, i, cf, src, t); }
      SendRow(s, rows[i], cf, src, dest, t);
      forall p: nat | p < t.pairs
        ensures s.Routed(p) + Family(rows[i + 1..], cf, src, dest, t, p) == before[p] + Family(rows[i..], cf, src, dest, t, p)
      {
        FamilyStep(rows, i, cf, src, dest, t, p);
      }
    }
    assert rows[|rows|..] == [];
  }

  /** Send the families of one checkpoint. */
  method SendCheckpoint(s: Sender, rows: seq<Row>, src: Bytes, dest: Bytes, t: Topology)
    requires s.Valid(t.pairs) && s.shift == |dest| - |src| && Routable(rows, src, t)
    modifies s
    ensures s.Valid(t.pairs)
    ensures forall p: nat :: p < t.pairs ==> s.Routed(p) == old(s.Routed(p)) + Families(rows, FAMILIES, src, dest, t, p)
  {
    for c := 0 to |FAMILIES|
      invariant s.Valid(t.pairs)
      invariant forall p: nat :: p < t.pairs ==>
                  s.Routed(p) + Families(rows, FAMILIES[c..], src, dest, t, p)
                  == old(s.Routed(p)) + Families(rows, FAMILIES, src, dest, t, p)
    {
      ghost var before := seq(t.pairs, p requires 0 <= p < t.pairs reads s requires s.Valid(t.pairs) => s.Routed(p));
      SendFamily(s, rows, FAMILIES[c], src, dest, t);
      forall p: nat | p < t.pairs
        ensures s.Routed(p) + Families(rows, FAMILIES[c + 1..], src, dest, t, p)
                == before[p] + Families(rows, FAMILIES[c..], src, dest, t, p)
      {
        assert FAMILIES[c..][1..] == FAMILIES[c + 1..];
      }
    }
    assert FAMILIES[|FAMILIES|..] == [];
  }

  method SendCheckpoints(s: Sender, sets: seq<seq<Row>>, src: Bytes, dest: Bytes, t: Topology)
    requires s.Valid(t.pairs) && s.shift == |dest| - |src| && forall i :: 0 <= i < |sets| ==> Routable(sets[i], src, t)
    modifies s
    ensures s.Valid(t.pairs)
    ensures forall p: nat :: p < t.pairs ==> s.Routed(p) == old(s.Routed(p)) + Checkpoints(sets, src, dest, t, p)
  {
    for i := 0 to |sets|
      invariant s.Valid(t.pairs)
      invariant forall p: nat :: p < t.pairs ==>
                  s.Routed(p) + Checkpoints(sets[i..], src, dest, t, p) == old(s.Routed(p)) + Checkpoints(sets, src, dest, t, p)
    {
      ghost var before := seq(t.pairs, p requires 0 <= p < t.pairs reads s requires s.Valid(t.pairs) => s.Routed(p));
      SendCheckpoint(s, sets[i], src, dest, t);
      forall p: nat | p < t.pairs
        ensures s.Routed(p) + Checkpoints(sets[i + 1..], src, dest, t, p) == before[p] + Checkpoints(sets[i..], src, dest, t, p)
      {
        assert sets[i..][1..] == sets[i + 1..];
      }
    }
    assert sets[|sets|..] == [];
  }

  /** The rows went out in this order, packed, and were counted. */
  predicate Delivered(rows: seq<Row>, wire: seq<seq<Row>>, sent: nat, shift: int) {
    Concat(wire) == rows && Packed(wire, shift) && sent == |rows|
  }

  method FlushAll(s: Sender, pairs: nat)
    requires s.Valid(pairs)
    modifies s
    ensures s.Shaped(pairs)
    ensures forall p: nat :: p < pairs ==> Delivered(old(s.Routed(p)), s.wire[p], s.sent[p], s.shift)
  {
    for p := 0 to pairs
      invariant s.Shaped(pairs)
      invariant forall q: nat :: q < p ==> Delivered(old(s.Routed(q)), s.wire[q], s.sent[q], s.shift)
      invariant forall q: nat :: p <= q < pairs ==> s.wire[q] == old(s.wire[q]) && s.batches[q] == old(s.batches[q])
      invariant forall q: nat {:trigger s.PairOk(q)} :: p <= q < pairs ==> s.PairOk(q)
    {
      assert s.PairOk(p);
      LastMaybeShort(s.wire[p], s.batches[p], s.shift);
      label before:
      s.Flush(p, pairs);
      forall q: nat | p < q < pairs ensures s.PairOk(q) { assert old@before(s.PairOk(q)); }
    }
  }

  /**
   * The whole restore. Each pair has taken, in scan order, exactly the renamed rows it owns, in
   * batches that went out when they reached two hundred rows or a megabyte and no later, and its
   * counter is their number.
   */
  method RestoreNamespace(sets: seq<seq<Row>>, src: Bytes, dest: Bytes, t: Topology) returns (s: Sender)
    requires forall i :: 0 <= i < |sets| ==> Routable(sets[i], src, t)
    ensures |s.wire| == |s.sent| == t.pairs
    ensures forall p: nat :: p < t.pairs ==>
              Delivered(Checkpoints(sets, src, dest, t, p), s.wire[p], s.sent[p], |dest| - |src|)
  {
    s := new Sender(t.pairs, |dest| - |src|);
    SendCheckpoints(s, sets, src, dest, t);
    FlushAll(s, t.pairs);
  }

  // ---- as a multiset: exactly the namespace's rows ----------------------------------------------

  /** The row is one of the namespace's, in one of the families, and pair `p` owns its slot. */
  predicate Belongs(row: Row, src: Bytes, t: Topology, p: nat) {
    |row.key| >= 2 && row.key[0] in FAMILIES && NamespaceOf(row.key) == Some(src) && Owned(row, src, t, p)
  }

  function BelongingTo(rows: seq<Row>, src: Bytes, dest: Bytes, t: Topology, p: nat): seq<Row> {
    if rows == [] then [] else
    Keep(rows[0], src, dest, t, p) + BelongingTo(rows[1..], src, dest, t, p)
  }

  function Keep(row: Row, src: Bytes, dest: Bytes, t: Topology, p: nat): seq<Row> {
    if Belongs(row, src, t, p) then [Rewritten(row, src, dest)] else []
  }

  function AllRows(sets: seq<seq<Row>>): seq<Row> { if sets == [] then [] else sets[0] + AllRows(sets[1..]) }

  lemma {:induction false} FamiliesAreThree(rows: seq<Row>, src: Bytes, dest: Bytes, t: Topology, p: nat)
    ensures Families(rows, FAMILIES, src, dest, t, p)
            == Family(rows, 77, src, dest, t, p) + Family(rows, 83, src, dest, t, p) + Family(rows, 90, src, dest, t, p)
  {
    var fs := FAMILIES;
    assert fs[1..] == [83, 90] && fs[1..][1..] == [90] && fs[1..][1..][1..] == [];
    var none: seq<Byte> := [];
    assert Families(rows, none, src, dest, t, p) == [];
    assert Families(rows, [90], src, dest, t, p) == Family(rows, 90, src, dest, t, p) + [];
    assert Families(rows, [83, 90], src, dest, t, p) == Family(rows, 83, src, dest, t, p) + Families(rows, [90], src, dest, t, p);
  }

  lemma {:induction false} OneOfThree(row: Row, src: Bytes, dest: Bytes, t: Topology, p: nat)
    requires |src| < 256
    ensures multiset(Pick(row, 77, src, dest, t, p)) + multiset(Pick(row, 83, src, dest, t, p))
            + multiset(Pick(row, 90, src, dest, t, p)) == multiset(Keep(row, src, dest, t, p))
  {
    PrefixSelectsNamespace(row.key, 77, src);
    PrefixSelectsNamespace(row.key, 83, src);
    PrefixSelectsNamespace(row.key, 90, src);
    assert FAMILIES == [77, 83, 90];
  }

  lemma {:induction false} ThreeAreAll(rows: seq<Row>, src: Bytes, dest: Bytes, t: Topology, p: nat)
    requires |src| < 256
    ensures multiset(Family(rows, 77, src, dest, t, p)) + multiset(Family(rows, 83, src, dest, t, p))
            + multiset(Family(rows, 90, src, dest, t, p)) == multiset(BelongingTo(rows, src, dest, t, p))
  {
    if rows != [] {
      ThreeAreAll(rows[1..], src, dest, t, p);
      OneOfThree(rows[0], src, dest, t, p);
      FamilyStep(rows, 0, 77, src, dest, t, p);
      FamilyStep(rows, 0, 83, src, dest, t, p);
      FamilyStep(rows, 0, 90, src, dest, t, p);
      assert rows[0..] == rows;
    }
  }

  lemma {:induction false} BelongingAppend(a: seq<Row>, b: seq<Row>, src: Bytes, dest: Bytes, t: Topology, p: nat)
    ensures BelongingTo(a + b, src, dest, t, p) == BelongingTo(a, src, dest, t, p) + BelongingTo(b, src, dest, t, p)
  {
    if a == [] {
      assert a + b == b;
    } else {
      assert (a + b)[1..] == a[1..] + b;
      BelongingAppend(a[1..], b, src, dest, t, p);
    }
  }

  /** What a pair is sent is, as a multiset, exactly the namespace's rows it owns, renamed. */
  lemma {:induction false} SentIsTheNamespace(sets: seq<seq<Row>>, src: Bytes, dest: Bytes, t: Topology, p: nat)
    requires |src| < 256
    ensures multiset(Checkpoints(sets, src, dest, t, p)) == multiset(BelongingTo(AllRows(sets), src, dest, t, p))
    decreases |sets|
  {
    if sets != [] {
      SentIsTheNamespace(sets[1..], src, dest, t, p);
      FamiliesAreThree(sets[0], src, dest, t, p);
      ThreeAreAll(sets[0], src, dest, t, p);
      BelongingAppend(sets[0], AllRows(sets[1..]), src, dest, t, p);
    }
  }
}
