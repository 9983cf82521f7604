/**
 * The control plane's Raft store: vote, log, applied registry and snapshot in one record, kept in
 * one file that is replaced whole. The registry is any deterministic machine with a lossless
 * encoding; a committed log is a sequence whose entry `i` carries index `i`.
 */
module RaftStore {
  import opened Basics

  type Bytes = seq<bv8>

  // ---- data ------------------------------------------------------------------------

  /** The registry as the store uses it: it applies mutations, reports a version and is serialised. */
  datatype Machine<!R, !M> = Machine(initial: R, apply: (R, M) -> R, version: R -> nat,
                                     encode: R -> Bytes, decode: Bytes -> Option<R>)

  ghost predicate Lossless<R(!new), M>(m: Machine<R, M>) {
    forall r :: m.decode(m.encode(r)) == Some(r)
  }

  datatype Vote = Vote(term: nat, node: nat, committed: bool)

  datatype LogId = LogId(term: nat, node: nat, index: nat)

  datatype Members = Members(configs: seq<set<nat>>, nodes: map<nat, string>)

  datatype StoredMembership = StoredMembership(at: Option<LogId>, members: Members)

  datatype Payload<M> = Blank | Normal(mutation: M) | Membership(members: Members)

  datatype Entry<M> = Entry(id: LogId, payload: Payload<M>)

  datatype SnapshotMeta = SnapshotMeta(last: Option<LogId>, membership: StoredMembership, snapshotId: nat)

  datatype StoredSnapshot = StoredSnapshot(meta: SnapshotMeta, data: Bytes)

  datatype Persisted<R, M> = Persisted(
    vote: Option<Vote>, lastPurged: Option<LogId>, log: map<nat, Entry<M>>, lastApplied: Option<LogId>,
    lastMembership: StoredMembership, registry: R, snapshot: Option<StoredSnapshot>)

  const NO_MEMBERS := StoredMembership(None, Members([], map[]))

  function Blankslate<R, M>(m: Machine<R, M>): Persisted<R, M> {
    Persisted(None, None, map[], None, NO_MEMBERS, m.initial, None)
  }

  // ---- what each call does to the record --------------------------------------------

  datatype Call<M> =
    | SaveVote(vote: Vote)
    | Append(entries: seq<Entry<M>>)
    | DeleteSince(since: LogId)
    | Purge(upto: LogId)
    | Apply(entries: seq<Entry<M>>)
    | BuildSnapshot
    | Install(meta: SnapshotMeta, data: Bytes)

  function Inserted<M>(log: map<nat, Entry<M>>, entries: seq<Entry<M>>): map<nat, Entry<M>>
    decreases |entries|
  {
    if entries == [] then log else
    var n := |entries| - 1;
    Inserted(log, entries[..n])[entries[n].id.index := entries[n]]
  }

  function Below<M>(log: map<nat, Entry<M>>, index: nat): map<nat, Entry<M>> {
    map i | i in log && i < index :: log[i]
  }

  function From<M>(log: map<nat, Entry<M>>, index: nat): map<nat, Entry<M>> {
    map i | i in log && i >= index :: log[i]
  }

  function ApplyOne<R, M>(m: Machine<R, M>, p: Persisted<R, M>, e: Entry<M>): Persisted<R, M> {
    var q := p.(lastApplied := Some(e.id));
    match e.payload
    case Blank => q
    case Normal(mutation) => q.(registry := m.apply(p.registry, mutation))
    case Membership(members) => q.(lastMembership := StoredMembership(Some(e.id), members))
  }

  function Applied<R, M>(m: Machine<R, M>, p: Persisted<R, M>, entries: seq<Entry<M>>): Persisted<R, M>
    decreases |entries|
  {
    if entries == [] then p else
    var n := |entries| - 1;
    ApplyOne(m, Applied(m, p, entries[..n]), entries[n])
  }

  function MetaOf<R, M>(p: Persisted<R, M>): SnapshotMeta {
    SnapshotMeta(p.lastApplied, p.lastMembership, if p.lastApplied.Some? then p.lastApplied.value.index else 0)
  }

  /** The call is refused before anything changes: the snapshot's bytes are not a registry. */
  predicate Refused<R, M>(m: Machine<R, M>, c: Call<M>) {
    c.Install? && m.decode(c.data).None?
  }

  function Effect<R, M>(m: Machine<R, M>, p: Persisted<R, M>, c: Call<M>): Persisted<R, M> {
    match c
    case SaveVote(vote) => p.(vote := Some(vote))
    case Append(entries) => p.(log := Inserted(p.log, entries))
    case DeleteSince(since) => p.(log := Below(p.log, since.index))
    case Purge(upto) => p.(lastPurged := Some(upto), log := From(p.log, upto.index + 1))
    case Apply(entries) => Applied(m, p, entries)
    case BuildSnapshot => p.(snapshot := Some(StoredSnapshot(MetaOf(p), m.encode(p.registry))))
    case Install(meta, data) =>
      if Refused(m, c) then p else
      p.(registry := m.decode(data).value, lastApplied := meta.last, lastMembership := meta.membership,
         snapshot := Some(StoredSnapshot(meta, data)))
  }

  // ---- the store ------------------------------------------------------------------------

  datatype Outcome = Ok | Err

  /** One record in memory and the file it is flushed to, seen through the file's lossless encoding. */
  class Store<R(!new), M(!new)> {
    const m: Machine<R, M>
    var vote: Option<Vote>
    var lastPurged: Option<LogId>
    var log: map<nat, Entry<M>>
    var lastApplied: Option<LogId>
    var lastMembership: StoredMembership
    var registry: R
    var snapshot: Option<StoredSnapshot>
    var file: Option<Persisted<R, M>>

    function View(): Persisted<R, M>
      reads this
    {
      Persisted(vote, lastPurged, log, lastApplied, lastMembership, registry, snapshot)
    }

    /** No file is a new node; a file is the record it holds. */
    constructor Open(m: Machine<R, M>, file: Option<Persisted<R, M>>)
      ensures this.m == m && this.file == file
      ensures View() == if file.Some? then file.value else Blankslate(m)
    {
      this.m, this.file := m, file;
      var p := if file.Some? then file.value else Blankslate(m);
      vote, lastPurged, log, lastApplied := p.vote, p.lastPurged, p.log, p.lastApplied;
      lastMembership, registry, snapshot := p.lastMembership, p.registry, p.snapshot;
    }

    method Flush(writes: bool) returns (o: Outcome)
      modifies this`file
      ensures file == (if writes then Some(View()) else old(file)) && (o == Ok <==> writes)
    {
      if writes {
        file := Some(View());
        o := Ok;
      } else {
        o := Err;
      }
    }

    method SaveVote(v: Vote, writes: bool) returns (o: Outcome)
      modifies this
      ensures View() == Effect(m, old(View()), Call.SaveVote(v))
      ensures file == (if writes then Some(View()) else old(file)) && (o == Ok <==> writes)
    {
      vote := Some(v);
      o := Flush(writes);
    }

    method AppendToLog(entries: seq<Entry<M>>, writes: bool) returns (o: Outcome)
      modifies this
      ensures View() == Effect(m, old(View()), Append(entries))
      ensures file == (if writes then Some(View()) else old(file)) && (o == Ok <==> writes)
    {
      for i := 0 to |entries|
        invariant View() == old(View()).(log := Inserted(old(log), entries[..i])) && file == old(file)
      {
        log := log[entries[i].id.index := entries[i]];
        assert entries[..i + 1][..i] == entries[..i];
      }
      assert entries[..|entries|] == entries;
      o := Flush(writes);
    }

    method DeleteConflictLogsSince(since: LogId, writes: bool) returns (o: Outcome)
      modifies this
      ensures View() == Effect(m, old(View()), DeleteSince(since))
      ensures file == (if writes then Some(View()) else old(file)) && (o == Ok <==> writes)
    {
      log := map i | i in log && i < since.index :: log[i];
      o := Flush(writes);
    }

    method PurgeLogsUpto(upto: LogId, writes: bool) returns (o: Outcome)
      modifies this
      ensures View() == Effect(m, old(View()), Purge(upto))
      ensures file == (if writes then Some(View()) else old(file)) && (o == Ok <==> writes)
    {
      lastPurged := Some(upto);
      log := map i | i in log && i >= upto.index + 1 :: log[i];
      o := Flush(writes);
    }

    /** Each reply carries the registry's version right after its own entry. */
    method ApplyToStateMachine(entries: seq<Entry<M>>, writes: bool) returns (o: Outcome, replies: seq<nat>)
      modifies this
      ensures View() == Effect(m, old(View()), Apply(entries))
      ensures file == (if writes then Some(View()) else old(file)) && (o == Ok <==> writes)
      ensures |replies| == |entries|
      ensures forall i :: 0 <= i < |entries| ==>
                replies[i] == m.version(Applied(m, old(View()), entries[..i + 1]).registry)
    {
      replies := [];
      for i := 0 to |entries|
        invariant View() == Applied(m, old(View()), entries[..i]) && file == old(file) && |replies| == i
        invariant forall j :: 0 <= j < i ==> replies[j] == m.version(Applied(m, old(View()), entries[..j + 1]).registry)
      {
        var e := entries[i];
        lastApplied := Some(e.id);
        match e.payload {
          case Blank =>
          case Normal(mutation) => registry := m.apply(registry, mutation);
          case Membership(members) => lastMembership := StoredMembership(Some(e.id), members);
        }
        assert entries[..i + 1][..i] == entries[..i];
        replies := replies + [m.version(registry)];
      }
      assert entries[..|entries|] == entries;
      o := Flush(writes);
    }

    method TakeSnapshot(writes: bool) returns (o: Outcome, taken: StoredSnapshot)
      modifies this
      ensures View() == Effect(m, old(View()), BuildSnapshot)
      ensures file == (if writes then Some(View()) else old(file)) && (o == Ok <==> writes)
      ensures snapshot == Some(taken)
    {
      taken := StoredSnapshot(MetaOf(View()), m.encode(registry));
      snapshot := Some(taken);
      o := Flush(writes);
    }

    method InstallSnapshot(meta: SnapshotMeta, data: Bytes, writes: bool) returns (o: Outcome)
      modifies this
      ensures View() == Effect(m, old(View()), Install(meta, data))
      ensures Refused(m, Install(meta, data)) ==> o == Err && file == old(file)
      ensures !Refused(m, Install(meta, data)) ==>
                file == (if writes then Some(View()) else old(file)) && (o == Ok <==> writes)
    {
      var r := m.decode(data);
      if r.None? { return Err; }
      registry, lastApplied, lastMembership := r.value, meta.last, meta.membership;
      snapshot := Some(StoredSnapshot(meta, data));
      o := Flush(writes);
    }

    /** What is purged, and the id of the greatest index in the log, or of the purge if the log is empty. */
    method GetLogState() returns (purged: Option<LogId>, last: Option<LogId>)
      ensures purged == lastPurged
      ensures log == map[] ==> last == lastPurged
      ensures log != map[] ==> exists i :: i in log && last == Some(log[i].id) && forall j :: j in log ==> j <= i
    {
      purged, last := lastPurged, lastPurged;
      if log != map[] {
        var i :| i in log;
        var todo := log.Keys - {i};
        while todo != {}
          invariant i in log && todo <= log.Keys && forall j :: j in log && j !in todo ==> j <= i
          decreases |todo|
        {
          var j :| j in todo;
          if j > i { i := j; }
          todo := todo - {j};
        }
        last := Some(log[i].id);
      }
    }

    /** The entries of a range, in index order. */
    method TryGetLogEntries(lo: nat, hi: nat) returns (entries: seq<Entry<M>>)
      ensures entries == Slice(log, lo, hi)
    {
      entries := [];
      for i := lo to (if lo <= hi then hi else lo)
        invariant entries == Slice(log, lo, i)
      {
        if i in log { entries := entries + [log[i]]; }
      }
    }
  }

  /** The map's entries from `lo` below `hi`, by increasing index. */
  function Slice<M>(log: map<nat, Entry<M>>, lo: nat, hi: nat): seq<Entry<M>>
    decreases hi
  {
    if hi <= lo then [] else
    Slice(log, lo, hi - 1) + (if hi - 1 in log then [log[hi - 1]] else [])
  }

  // ---- the fold of committed entries --------------------------------------------------------

  function Mutations<M>(entries: seq<Entry<M>>): seq<M> {
    if entries == [] then [] else
    var n := |entries| - 1;
    Mutations(entries[..n]) + (if entries[n].payload.Normal? then [entries[n].payload.mutation] else [])
  }

  function Reduce<R, M>(m: Machine<R, M>, mutations: seq<M>): R {
    if mutations == [] then m.initial else
    var n := |mutations| - 1;
    m.apply(Reduce(m, mutations[..n]), mutations[n])
  }

  /** The registry the committed entries stand for: their mutations, in order, on the initial one. */
  function RegistryOf<R, M>(m: Machine<R, M>, entries: seq<Entry<M>>): R { Reduce(m, Mutations(entries)) }

  /** The latest membership entry, with the id it was committed under. */
  function MembershipOf<M>(entries: seq<Entry<M>>): StoredMembership {
    if entries == [] then NO_MEMBERS else
    var last := entries[|entries| - 1];
    if last.payload.Membership? then StoredMembership(Some(last.id), last.payload.members)
    else MembershipOf(entries[..|entries| - 1])
  }

  function LastId<M>(entries: seq<Entry<M>>): Option<LogId> {
    if entries == [] then None else Some(entries[|entries| - 1].id)
  }

  function Count(last: Option<LogId>): nat { if last.Some? then last.value.index + 1 else 0 }

  predicate Indexed<M>(committed: seq<Entry<M>>) {
    forall i :: 0 <= i < |committed| ==> committed[i].id.index == i
  }

  /** This id, membership and registry are those of the committed entries up to the id. */
  predicate FoldsAt<R(==), M(==)>(m: Machine<R, M>, committed: seq<Entry<M>>, last: Option<LogId>,
                                  membership: StoredMembership, registry: R)
  {
    var k := Count(last);
    && k <= |committed|
    && last == LastId(committed[..k])
    && membership == MembershipOf(committed[..k])
    && registry == RegistryOf(m, committed[..k])
  }

  predicate SnapshotFolds<R(==), M(==)>(m: Machine<R, M>, committed: seq<Entry<M>>, meta: SnapshotMeta, data: Bytes) {
    var r := m.decode(data);
    r.Some? && FoldsAt(m, committed, meta.last, meta.membership, r.value)
  }

  /** The applied state is the fold at `lastApplied`, and the kept snapshot is the fold at its own index. */
  predicate Sound<R(==), M(==)>(m: Machine<R, M>, committed: seq<Entry<M>>, p: Persisted<R, M>) {
    && FoldsAt(m, committed, p.lastApplied, p.lastMembership, p.registry)
    && (p.snapshot.Some? ==> SnapshotFolds(m, committed, p.snapshot.value.meta, p.snapshot.value.data))
  }

  /** What a correct Raft core asks: apply the next committed entries, install a peer's true snapshot. */
  predicate Permitted<R(==), M(==)>(m: Machine<R, M>, committed: seq<Entry<M>>, p: Persisted<R, M>, c: Call<M>) {
    match c
    case Apply(entries) =>
      var k := Count(p.lastApplied);
      k + |entries| <= |committed| && entries == committed[k..k + |entries|]
    case Install(meta, data) => Refused(m, c) || SnapshotFolds(m, committed, meta, data)
    case _ => true
  }

  lemma {:induction false} MutationsSnoc<M>(entries: seq<Entry<M>>, e: Entry<M>)
    ensures Mutations(entries + [e]) == Mutations(entries) + (if e.payload.Normal? then [e.payload.mutation] else [])
  {
    assert (entries + [e])[..|entries|] == entries;
  }

  lemma {:induction false} RegistrySnoc<R, M>(m: Machine<R, M>, entries: seq<Entry<M>>, e: Entry<M>)
    ensures RegistryOf(m, entries + [e]) ==
            if e.payload.Normal? then m.apply(RegistryOf(m, entries), e.payload.mutation) else RegistryOf(m, entries)
  {
    MutationsSnoc(entries, e);
    if e.payload.Normal? {
      var all := Mutations(entries) + [e.payload.mutation];
      assert all[..|all| - 1] == Mutations(entries);
    } else {
      assert Mutations(entries) + [] == Mutations(entries);
    }
  }

  lemma {:induction false} ApplyOneFolds<R, M>(m: Machine<R, M>, committed: seq<Entry<M>>, p: Persisted<R, M>)
    requires Indexed(committed) && Count(p.lastApplied) < |committed|
    requires FoldsAt(m, committed, p.lastApplied, p.lastMembership, p.registry)
    ensures var q := ApplyOne(m, p, committed[Count(p.lastApplied)]);
            FoldsAt(m, committed, q.lastApplied, q.lastMembership, q.registry)
            && Count(q.lastApplied) == Count(p.lastApplied) + 1 && q.snapshot == p.snapshot
  {
    var k := Count(p.lastApplied);
    var before, e := committed[..k], committed[k];
    assert committed[..k + 1] == before + [e];
    assert (before + [e])[..k] == before;
    RegistrySnoc(m, before, e);
  }

  lemma {:induction false} ApplyFolds<R, M>(m: Machine<R, M>, committed: seq<Entry<M>>, p: Persisted<R, M>, n: nat)
    requires Indexed(committed) && Count(p.lastApplied) + n <= |committed|
    requires FoldsAt(m, committed, p.lastApplied, p.lastMembership, p.registry)
    ensures var k := Count(p.lastApplied);
            var q := Applied(m, p, committed[k..k + n]);
            FoldsAt(m, committed, q.lastApplied, q.lastMembership, q.registry)
            && Count(q.lastApplied) == k + n && q.snapshot == p.snapshot
    decreases n
  {
    var k := Count(p.lastApplied);
    if n > 0 {
      ApplyFolds(m, committed, p, n - 1);
      assert committed[k..k + n][..n - 1] == committed[k..k + n - 1];
      ApplyOneFolds(m, committed, Applied(m, p, committed[k..k + n - 1]));
    }
  }

  lemma {:induction false} BlankslateSound<R, M>(m: Machine<R, M>, committed: seq<Entry<M>>)
    ensures Sound(m, committed, Blankslate(m))
  {
    assert committed[..0] == [];
  }

  /** Every permitted call keeps the applied state and the snapshot equal to their folds. */
  lemma {:induction false} CallKeepsSound<R(!new), M>(m: Machine<R, M>, committed: seq<Entry<M>>, p: Persisted<R, M>, c: Call<M>)
    requires Lossless(m) && Indexed(committed) && Sound(m, committed, p) && Permitted(m, committed, p, c)
    ensures Sound(m, committed, Effect(m, p, c))
  {
    match c
    case Apply(entries) => ApplyFolds(m, committed, p, |entries|);
    case _ =>
  }

  /** Each call was one a correct core could make in the record the earlier calls left. */
  predicate Proper<R(==), M(==)>(m: Machine<R, M>, committed: seq<Entry<M>>, calls: seq<Call<M>>) {
    calls == [] ||
    var n := |calls| - 1;
    Proper(m, committed, calls[..n]) && Permitted(m, committed, After(m, calls[..n]), calls[n])
  }

  /** The record after a whole number of calls on a new node. */
  function After<R, M>(m: Machine<R, M>, calls: seq<Call<M>>): Persisted<R, M> {
    if calls == [] then Blankslate(m) else
    var n := |calls| - 1;
    Effect(m, After(m, calls[..n]), calls[n])
  }

  /** Over every sequence of calls a correct core makes, the store is the fold of what was committed. */
  lemma {:induction false} EveryRunFolds<R(!new), M(!new)>(m: Machine<R, M>, committed: seq<Entry<M>>, calls: seq<Call<M>>)
    requires Lossless(m) && Indexed(committed) && Proper(m, committed, calls)
    ensures Sound(m, committed, After(m, calls))
    decreases |calls|
  {
    if calls == [] {
      BlankslateSound(m, committed);
    } else {
      var n := |calls| - 1;
      EveryRunFolds(m, committed, calls[..n]);
      CallKeepsSound(m, committed, After(m, calls[..n]), calls[n]);
    }
  }

  /**
   * Installing a peer's snapshot and applying the entries after it gives the registry, membership
   * and position of a new node that applied every entry itself, whatever the store held before.
   */
  lemma {:induction false} SnapshotPlusRestIsEverything<R(!new), M>(m: Machine<R, M>, committed: seq<Entry<M>>, p: Persisted<R, M>,
                                                 meta: SnapshotMeta, data: Bytes, n: nat)
    requires Indexed(committed) && SnapshotFolds(m, committed, meta, data)
    requires Count(meta.last) <= n <= |committed|
    ensures var installed := Effect(m, p, Install(meta, data));
            var caughtUp := Effect(m, installed, Apply(committed[Count(meta.last)..n]));
            var replayed := Effect(m, Blankslate(m), Apply(committed[..n]));
            && caughtUp.registry == replayed.registry && caughtUp.lastMembership == replayed.lastMembership
            && caughtUp.lastApplied == replayed.lastApplied
            && caughtUp.snapshot == Some(StoredSnapshot(meta, data))
  {
    var installed := Effect(m, p, Install(meta, data));
    ApplyFolds(m, committed, installed, n - Count(meta.last));
    BlankslateSound(m, committed);
    ApplyFolds(m, committed, Blankslate(m), n);
    assert committed[0..n] == committed[..n];
  }

  // ---- the log as Raft sees it ----------------------------------------------------------------

  /** The log as a run of entries whose first index is `start`. */
  datatype Run<M> = Run(start: nat, entries: seq<Entry<M>>)

  /** The index map holds exactly the run, each entry at its own index. */
  ghost predicate Laid<M>(run: Run<M>, log: map<nat, Entry<M>>) {
    && (forall i :: i in log <==> run.start <= i < run.start + |run.entries|)
    && (forall j :: 0 <= j < |run.entries| ==>
          log[run.start + j] == run.entries[j] && run.entries[j].id.index == run.start + j)
  }

  ghost predicate Represents<R, M>(run: Run<M>, p: Persisted<R, M>) {
    run.start == Count(p.lastPurged) && Laid(run, p.log)
  }

  /** Appends start inside or right after the run, deletions and purges never go back before it. */
  predicate LogCall<M>(run: Run<M>, c: Call<M>) {
    match c
    case Append(entries) =>
      entries != [] ==>
        && run.start <= entries[0].id.index <= run.start + |run.entries|
        && forall i :: 0 <= i < |entries| ==> entries[i].id.index == entries[0].id.index + i
    case DeleteSince(since) => run.start <= since.index
    case Purge(upto) => run.start <= upto.index + 1
    case _ => true
  }

  /** `b` written over `a` from position `at`. */
  function Spliced<T>(a: seq<T>, at: nat, b: seq<T>): (r: seq<T>)
    requires at <= |a|
    ensures |r| == if at + |b| < |a| then |a| else at + |b|
    ensures forall j :: 0 <= j < |r| ==> r[j] == if at <= j < at + |b| then b[j - at] else a[j]
  {
    a[..at] + b + (if at + |b| < |a| then a[at + |b|..] else [])
  }

  function OnRun<M>(run: Run<M>, c: Call<M>): Run<M>
    requires LogCall(run, c)
  {
    match c
    case Append(entries) =>
      if entries == [] then run else
      run.(entries := Spliced(run.entries, entries[0].id.index - run.start, entries))
    case DeleteSince(since) =>
      if since.index - run.start < |run.entries| then run.(entries := run.entries[..since.index - run.start]) else run
    case Purge(upto) =>
      var gone := upto.index + 1 - run.start;
      Run(upto.index + 1, if gone < |run.entries| then run.entries[gone..] else [])
    case _ => run
  }

  lemma {:induction false} InsertedAt<M>(log: map<nat, Entry<M>>, entries: seq<Entry<M>>, first: nat)
    requires forall i :: 0 <= i < |entries| ==> entries[i].id.index == first + i
    ensures forall i :: i in Inserted(log, entries) <==> i in log || first <= i < first + |entries|
    ensures forall i :: i in log && !(first <= i < first + |entries|) ==> Inserted(log, entries)[i] == log[i]
    ensures forall i :: 0 <= i < |entries| ==> Inserted(log, entries)[first + i] == entries[i]
    decreases |entries|
  {
    if entries != [] { InsertedAt(log, entries[..|entries| - 1], first); }
  }

  lemma {:induction false} InsertedKeys<M>(log: map<nat, Entry<M>>, entries: seq<Entry<M>>, first: nat, start: nat, end: nat)
    requires start <= first <= end && forall i :: i in log <==> start <= i < end
    requires forall i :: 0 <= i < |entries| ==> entries[i].id.index == first + i
    ensures forall i :: i in Inserted(log, entries) <==> start <= i < (if first + |entries| < end then end else first + |entries|)
  {
    InsertedAt(log, entries, first);
  }

  lemma {:induction false} SplicedEntry<M>(run: Run<M>, log: map<nat, Entry<M>>, entries: seq<Entry<M>>, at: nat, j: nat)
    requires Laid(run, log) && at <= |run.entries| && forall i :: 0 <= i < |entries| ==> entries[i].id.index == run.start + at + i
    requires j < |Spliced(run.entries, at, entries)|
    ensures var e := Spliced(run.entries, at, entries)[j];
            run.start + j in Inserted(log, entries) && Inserted(log, entries)[run.start + j] == e && e.id.index == run.start + j
  {
    InsertedAt(log, entries, run.start + at);
    if at <= j < at + |entries| {
      assert Inserted(log, entries)[run.start + at + (j - at)] == entries[j - at];
    } else {
      assert log[run.start + j] == run.entries[j];
    }
  }

  lemma {:induction false} SplicedLaid<M>(run: Run<M>, log: map<nat, Entry<M>>, entries: seq<Entry<M>>, at: nat)
    requires Laid(run, log) && at <= |run.entries| && forall i :: 0 <= i < |entries| ==> entries[i].id.index == run.start + at + i
    ensures Laid(Run(run.start, Spliced(run.entries, at, entries)), Inserted(log, entries))
  {
    InsertedKeys(log, entries, run.start + at, run.start, run.start + |run.entries|);
    forall j | 0 <= j < |Spliced(run.entries, at, entries)|
      ensures var e := Spliced(run.entries, at, entries)[j];
              run.start + j in Inserted(log, entries) && Inserted(log, entries)[run.start + j] == e && e.id.index == run.start + j
    {
      SplicedEntry(run, log, entries, at, j);
    }
  }

  lemma {:induction false} AppendOnRun<R, M>(m: Machine<R, M>, run: Run<M>, p: Persisted<R, M>, entries: seq<Entry<M>>)
    requires Represents(run, p) && LogCall(run, Append(entries)) && entries != []
    ensures Represents(OnRun(run, Append(entries)), Effect(m, p, Append(entries)))
  {
    SplicedLaid(run, p.log, entries, entries[0].id.index - run.start);
  }

  lemma {:induction false} DeleteOnRun<R, M>(m: Machine<R, M>, run: Run<M>, p: Persisted<R, M>, since: LogId)
    requires Represents(run, p) && LogCall(run, DeleteSince(since))
    ensures Represents(OnRun(run, DeleteSince(since)), Effect(m, p, DeleteSince(since)))
  {
    assert Effect(m, p, DeleteSince(since)).log == Below(p.log, since.index);
  }

  lemma {:induction false} PurgeOnRun<R, M>(m: Machine<R, M>, run: Run<M>, p: Persisted<R, M>, upto: LogId)
    requires Represents(run, p) && LogCall(run, Purge(upto))
    ensures Represents(OnRun(run, Purge(upto)), Effect(m, p, Purge(upto)))
  {
    var run' := OnRun(run, Purge(upto));
    var log' := From(p.log, upto.index + 1);
    forall j | 0 <= j < |run'.entries|
      ensures log'[run'.start + j] == run'.entries[j] && run'.entries[j].id.index == run'.start + j
    {
      var k := run'.start + j - run.start;
      assert run'.entries[j] == run.entries[k] && p.log[run.start + k] == run.entries[k];
    }
  }

  /** The map and the run stay two views of one log, and no other call touches either. */
  lemma {:induction false} CallOnRun<R, M>(m: Machine<R, M>, run: Run<M>, p: Persisted<R, M>, c: Call<M>)
    requires Represents(run, p) && LogCall(run, c)
    ensures Represents(OnRun(run, c), Effect(m, p, c))
  {
    match c
    case Append(entries) => if entries != [] { AppendOnRun(m, run, p, entries); }
    case DeleteSince(since) => DeleteOnRun(m, run, p, since);
    case Purge(upto) => PurgeOnRun(m, run, p, upto);
    case Apply(entries) => AppliedKeepsLog(m, p, entries);
    case _ =>
  }

  lemma {:induction false} AppliedKeepsLog<R, M>(m: Machine<R, M>, p: Persisted<R, M>, entries: seq<Entry<M>>)
    ensures var q := Applied(m, p, entries); q.log == p.log && q.lastPurged == p.lastPurged && q.vote == p.vote
    decreases |entries|
  {
    if entries != [] { AppliedKeepsLog(m, p, entries[..|entries| - 1]); }
  }

  /** The run these calls make of an empty log, if each of them starts where the log then allows. */
  function RunOf<M>(calls: seq<Call<M>>): Option<Run<M>> {
    if calls == [] then Some(Run(0, [])) else
    var n := |calls| - 1;
    match RunOf(calls[..n])
    case None => None
    case Some(run) => if LogCall(run, calls[n]) then Some(OnRun(run, calls[n])) else None
  }

  /** Over every sequence of calls the log is one contiguous run from the purge point on, the one the calls made. */
  lemma {:induction false} LogIsOneRun<R(!new), M(!new)>(m: Machine<R, M>, calls: seq<Call<M>>)
    requires RunOf(calls).Some?
    ensures Represents(RunOf(calls).value, After(m, calls))
    decreases |calls|
  {
    if calls != [] {
      var n := |calls| - 1;
      LogIsOneRun(m, calls[..n]);
      CallOnRun(m, RunOf(calls[..n]).value, After(m, calls[..n]), calls[n]);
    }
  }

  lemma {:induction false} RunOfPrefix<M>(calls: seq<Call<M>>, n: nat)
    requires RunOf(calls).Some? && n <= |calls|
    ensures RunOf(calls[..n]).Some?
    decreases |calls|
  {
    if n == |calls| {
      assert calls[..n] == calls;
    } else {
      RunOfPrefix(calls[..|calls| - 1], n);
      assert calls[..|calls| - 1][..n] == calls[..n];
    }
  }

  /** A range read returns exactly the part of the run it covers, in order. */
  lemma {:induction false} ReadOnRun<R, M>(run: Run<M>, p: Persisted<R, M>, lo: nat, hi: nat)
    requires Represents(run, p) && run.start <= lo <= hi <= run.start + |run.entries|
    ensures Slice(p.log, lo, hi) == run.entries[lo - run.start..hi - run.start]
    decreases hi
  {
    if lo < hi { ReadOnRun(run, p, lo, hi - 1); }
  }

  /** Reading past either end of the run adds nothing. */
  lemma {:induction false} ReadOutsideRun<R, M>(run: Run<M>, p: Persisted<R, M>, lo: nat, hi: nat)
    requires Represents(run, p)
    ensures var a := if lo < run.start then run.start else lo;
            var end := run.start + |run.entries|;
            var b := if hi > end then end else hi;
            Slice(p.log, lo, hi) == if a <= b then Slice(p.log, a, b) else []
    decreases hi
  {
    if lo < hi { ReadOutsideRun(run, p, lo, hi - 1); }
  }

  /** The greatest index in a non-empty run's map is that of the run's last entry. */
  lemma {:induction false} LastOnRun<R, M>(run: Run<M>, p: Persisted<R, M>, i: nat)
    requires Represents(run, p) && i in p.log && forall j :: j in p.log ==> j <= i
    ensures run.entries != [] && p.log[i] == run.entries[|run.entries| - 1]
  {
    var end := run.start + |run.entries| - 1;
    assert end in p.log;
  }
}
