/**
 * The ledger oracle of the chaos runner: one sequential writer, a ledger of what it was told, the
 * pass that retires what a master kill lost, and the check after a replica kill that allows no
 * loss at all. The cluster is any that loses only writes a dead master had served.
 */
module ChaosOracle {
  import opened Basics

  // ---- the ledger ------------------------------------------------------------------

  datatype Ack = Ack(num: nat, sent: nat, acked: nat)

  datatype Entry = Entry(written: seq<nat>, lastAcked: nat, lastWritten: nat, ackedAt: seq<Ack>)

  datatype Served = MaybeOldMaster | NewMaster | Ambiguous

  function ClassifySend(sent: nat, dead: nat): Served {
    if sent < dead then MaybeOldMaster else if sent == dead then Ambiguous else NewMaster
  }

  function Attempted(e: Entry, num: nat): Entry { e.(written := e.written + [num], lastWritten := num) }

  function Acked(e: Entry, a: Ack): Entry { e.(lastAcked := a.num, ackedAt := e.ackedAt + [a]) }

  /** The acks kept: those the survivor covers and those the dead master cannot have served. */
  function Kept(acks: seq<Ack>, got: Option<nat>, dead: nat): seq<Ack> {
    if acks == [] then [] else
    var rest := Kept(acks[1..], got, dead);
    if (got.Some? && acks[0].num <= got.value) || acks[0].sent >= dead then [acks[0]] + rest else rest
  }

  function Newest(acks: seq<Ack>): nat {
    if acks == [] then 0 else var rest := Newest(acks[1..]); if acks[0].num > rest then acks[0].num else rest
  }

  /** The entry after a master kill's pass; `got` is None when the survivor would not answer. */
  function Pruned(e: Entry, got: Option<nat>, dead: nat): Entry {
    var kept := Kept(e.ackedAt, got, dead);
    e.(ackedAt := kept, lastAcked := Newest(kept))
  }

  class KeyLedger {
    var written: seq<nat>
    var lastAcked: nat
    var lastWritten: nat
    var ackedAt: seq<Ack>

    function View(): Entry
      reads this
    {
      Entry(written, lastAcked, lastWritten, ackedAt)
    }

    constructor ()
      ensures View() == Entry([], 0, 0, [])
    {
      written, lastAcked, lastWritten, ackedAt := [], 0, 0, [];
    }

    method RecordAttempt(num: nat)
      modifies this
      ensures View() == Attempted(old(View()), num)
    {
      written := written + [num];
      lastWritten := num;
    }

    method RecordAck(num: nat, sent: nat, acked: nat)
      modifies this
      ensures View() == Acked(old(View()), Ack(num, sent, acked))
    {
      lastAcked := num;
      ackedAt := ackedAt + [Ack(num, sent, acked)];
    }

    /** Both prunes of the master-kill pass, with the newest kept sequence as the new floor. */
    method Retire(got: Option<nat>, dead: nat)
      modifies this
      ensures View() == Pruned(old(View()), got, dead)
    {
      ghost var before := ackedAt;
      var kept: seq<Ack> := [];
      for i := 0 to |ackedAt|
        invariant ackedAt == before && View() == old(View())
        invariant kept + Kept(before[i..], got, dead) == Kept(before, got, dead)
      {
        var a := ackedAt[i];
        if (got.Some? && a.num <= got.value) || a.sent >= dead { kept := kept + [a]; }
      }
      assert kept == Kept(before, got, dead);
      ackedAt := kept;
      var floor := 0;
      for i := 0 to |kept|
        invariant ackedAt == kept && floor >= 0
        invariant written == old(written) && lastWritten == old(lastWritten)
        invariant Newest(kept) == if floor > Newest(kept[i..]) then floor else Newest(kept[i..])
      {
        if kept[i].num > floor { floor := kept[i].num; }
      }
      assert kept[|kept|..] == [];
      lastAcked := floor;
    }
  }

  lemma {:induction false} KeptExactly(acks: seq<Ack>, got: Option<nat>, dead: nat, a: Ack)
    ensures a in Kept(acks, got, dead) <==>
            a in acks && ((got.Some? && a.num <= got.value) || ClassifySend(a.sent, dead) != MaybeOldMaster)
  {
    if acks != [] {
      KeptExactly(acks[1..], got, dead, a);
      assert acks == [acks[0]] + acks[1..];
    }
  }

  lemma {:induction false} NewestIsListed(acks: seq<Ack>)
    ensures forall a :: a in acks ==> a.num <= Newest(acks)
    ensures Newest(acks) != 0 ==> exists i :: 0 <= i < |acks| && acks[i].num == Newest(acks)
  {
    if acks != [] {
      NewestIsListed(acks[1..]);
      if Newest(acks) != acks[0].num {
        var i :| 0 <= i < |acks[1..]| && acks[1..][i].num == Newest(acks[1..]);
        assert acks[i + 1].num == Newest(acks);
      }
    }
  }

  // ---- the run ------------------------------------------------------------------------

  /** The writer's one outstanding write. `served` says a master applied it; the writer cannot see that. */
  datatype Flight = Idle | Attempting(key: string, num: nat) | Sent(key: string, num: nat, at: nat, served: bool)

  /** What the harness is doing. A kill's `instant` is when the master stopped serving; `dead` is its stamp. */
  datatype Harness =
    | Calm
    | Died(instant: nat)
    | Stamped(instant: nat, dead: nat)
    | Passing(instant: nat, dead: nat, todo: set<string>, reading: Option<(string, nat)>)
    | Checking(snapshot: map<string, nat>)

  datatype State = State(store: map<string, nat>, ledger: map<string, Entry>, num: nat, clock: nat,
                         flight: Flight, harness: Harness)

  datatype Action =
    | Attempt(key: string) | Send | Serve | Answer | GiveUp
    | Advance(micros: nat)
    | Die(survivor: map<string, nat>) | Stamp
    | StartPass | Get(key: string) | Prune | PruneUnread(key: string) | EndPass
    | StartCheck | EndCheck

  /** Which of the two conditions of a sound run are imposed. */
  datatype Rules = Rules(tieFree: bool, answered: bool)

  function Held(store: map<string, nat>, key: string): nat { if key in store then store[key] else 0 }

  function EntryOf(s: State, key: string): Entry { if key in s.ledger then s.ledger[key] else Entry([], 0, 0, []) }

  /** No acknowledged or served write that the survivor lacks was stamped at this very instant. */
  predicate NoTie(s: State) {
    && (forall k, i :: k in s.ledger && 0 <= i < |s.ledger[k].ackedAt| && s.ledger[k].ackedAt[i].num > Held(s.store, k)
                       ==> s.ledger[k].ackedAt[i].sent != s.clock)
    && (s.flight.Sent? && s.flight.served && s.flight.num > Held(s.store, s.flight.key) ==> s.flight.at != s.clock)
  }

  /** No write that the dead master served and the survivor lacks is still waiting for its answer to be read. */
  predicate Answered(s: State) {
    s.flight.Sent? && s.flight.served ==> s.flight.num <= Held(s.store, s.flight.key)
  }

  predicate Enabled(s: State, act: Action, rules: Rules) {
    match act
    case Attempt(_) => s.flight.Idle?
    case Send => s.flight.Attempting?
    case Serve => s.flight.Sent? && !s.flight.served
    case Answer => s.flight.Sent? && s.flight.served
    case GiveUp => s.flight.Sent?
    case Advance(_) => true
    case Die(survivor) => s.harness.Calm? && forall k :: k in survivor ==> survivor[k] <= Held(s.store, k)
    case Stamp => s.harness.Died? && (rules.tieFree ==> NoTie(s))
    case StartPass => s.harness.Stamped? && (rules.answered ==> Answered(s))
    case Get(key) => s.harness.Passing? && s.harness.reading.None? && key in s.harness.todo
    case Prune => s.harness.Passing? && s.harness.reading.Some?
    case PruneUnread(key) => s.harness.Passing? && s.harness.reading.None? && key in s.harness.todo
    case EndPass => s.harness.Passing? && s.harness.todo == {}
    case StartCheck => s.harness.Calm?
    case EndCheck => s.harness.Checking?
  }

  function Next(s: State, act: Action, rules: Rules): State
    requires Enabled(s, act, rules)
  {
    match act
    case Attempt(key) =>
      s.(num := s.num + 1, flight := Attempting(key, s.num + 1),
         ledger := s.ledger[key := Attempted(EntryOf(s, key), s.num + 1)])
    case Send => s.(flight := Sent(s.flight.key, s.flight.num, s.clock, false))
    case Serve => s.(store := s.store[s.flight.key := s.flight.num], flight := s.flight.(served := true))
    case Answer =>
      var f := s.flight;
      s.(flight := Idle, ledger := s.ledger[f.key := Acked(EntryOf(s, f.key), Ack(f.num, f.at, s.clock))])
    case GiveUp => s.(flight := Idle)
    case Advance(micros) => s.(clock := s.clock + micros)
    case Die(survivor) => s.(store := survivor, harness := Died(s.clock))
    case Stamp => s.(harness := Stamped(s.harness.instant, s.clock))
    case StartPass =>
      s.(harness := Passing(s.harness.instant, s.harness.dead, AckedKeys(s), None))
    case Get(key) => s.(harness := s.harness.(reading := Some((key, Held(s.store, key)))))
    case Prune =>
      var (key, got) := s.harness.reading.value;
      Retired(s, key, Some(got))
    case PruneUnread(key) => Retired(s, key, None)
    case EndPass => s.(harness := Calm)
    case StartCheck => s.(harness := Checking(map k | k in s.ledger && s.ledger[k].lastAcked != 0 :: s.ledger[k].lastAcked))
    case EndCheck => s.(harness := Calm)
  }

  function AckedKeys(s: State): set<string> { set k | k in s.ledger && s.ledger[k].lastAcked != 0 }

  function Retired(s: State, key: string, got: Option<nat>): State
    requires s.harness.Passing?
  {
    s.(ledger := if key in s.ledger then s.ledger[key := Pruned(s.ledger[key], got, s.harness.dead)] else s.ledger,
       harness := s.harness.(todo := s.harness.todo - {key}, reading := None))
  }

  /** The replica-kill check, reading this key now, would report a lost acknowledged write. */
  predicate Alarms(s: State, key: string) {
    s.harness.Checking? && key in s.harness.snapshot && Held(s.store, key) < s.harness.snapshot[key]
  }

  ghost predicate Allowed(s: State, acts: seq<Action>, rules: Rules)
    decreases |acts|
  {
    acts == [] || (Enabled(s, acts[0], rules) && Allowed(Next(s, acts[0], rules), acts[1..], rules))
  }

  ghost function Run(s: State, acts: seq<Action>, rules: Rules): State
    requires Allowed(s, acts, rules)
    decreases |acts|
  {
    if acts == [] then s else Run(Next(s, acts[0], rules), acts[1..], rules)
  }

  const FRESH := State(map[], map[], 0, 0, Idle, Calm)

  // ---- the invariant -----------------------------------------------------------------------

  /** A write sent by then may be missing from the survivor without blame. */
  predicate Excused(h: Harness, sent: nat) {
    match h
    case Died(instant) => sent <= instant
    case Stamped(instant, dead) => sent <= instant && sent != dead
    case Passing(instant, dead, _, _) => sent <= instant && sent != dead
    case _ => false
  }

  predicate EntryListed(e: Entry) {
    if e.lastAcked == 0 then e.ackedAt == [] else exists i :: 0 <= i < |e.ackedAt| && e.ackedAt[i].num == e.lastAcked
  }

  /** Every ack of the key is held by the master or excused; once the pass is done with it, held. */
  predicate EntrySound(s: State, key: string, e: Entry) {
    && EntryListed(e)
    && forall i :: 0 <= i < |e.ackedAt| ==>
         && e.ackedAt[i].sent <= s.clock && e.ackedAt[i].num > 0
         && (e.ackedAt[i].num <= Held(s.store, key)
             || (Excused(s.harness, e.ackedAt[i].sent) && (s.harness.Passing? ==> key in s.harness.todo)))
  }

  predicate FlightSound(s: State) {
    match s.flight
    case Idle => true
    case Attempting(_, num) => num == s.num && num > 0
    case Sent(key, num, at, served) =>
      && num == s.num && num > 0 && at <= s.clock
      && (served ==> num <= Held(s.store, key) || (Excused(s.harness, at) && !s.harness.Passing?))
  }

  predicate HarnessSound(s: State) {
    match s.harness
    case Died(instant) => instant <= s.clock
    case Stamped(instant, dead) => instant <= dead <= s.clock
    case Passing(instant, dead, todo, reading) =>
      && instant <= dead <= s.clock
      && (reading.Some? ==> reading.value.0 in todo && reading.value.1 <= Held(s.store, reading.value.0))
    case Checking(snapshot) => forall k :: k in snapshot ==> snapshot[k] <= Held(s.store, k)
    case Calm => true
  }

  predicate StoreSound(s: State) { forall k :: k in s.store ==> s.store[k] <= s.num }

  predicate LedgerSound(s: State) { forall k :: k in s.ledger ==> EntrySound(s, k, s.ledger[k]) }

  predicate Inv(s: State) { StoreSound(s) && LedgerSound(s) && FlightSound(s) && HarnessSound(s) }

  // ---- every step keeps it -------------------------------------------------------------------

  const SOUND := Rules(true, true)

  /** An entry stays sound when the clock and the store grow and the harness excuses no less. */
  lemma {:induction false} EntryCarriesOver(s: State, s': State, key: string, e: Entry)
    requires EntrySound(s, key, e) && s.clock <= s'.clock && Held(s.store, key) <= Held(s'.store, key)
    requires s'.harness == s.harness
    ensures EntrySound(s', key, e)
  {
  }

  lemma {:induction false} WriterStepKeepsInv(s: State, act: Action, rules: Rules)
    requires Inv(s) && Enabled(s, act, rules)
    requires act.Attempt? || act.Send? || act.Serve? || act.Answer? || act.GiveUp? || act.Advance?
    ensures Inv(Next(s, act, rules))
  {
    var s' := Next(s, act, rules);
    assert forall k :: Held(s.store, k) <= Held(s'.store, k);
    forall k | k in s'.ledger ensures EntrySound(s', k, s'.ledger[k]) {
      var e := EntryOf(s, k);
      assert EntrySound(s, k, e);
      EntryCarriesOver(s, s', k, e);
      if act.Answer? && k == s.flight.key {
        var a := Ack(s.flight.num, s.flight.at, s.clock);
        assert s'.ledger[k].ackedAt == e.ackedAt + [a];
        assert s'.ledger[k].ackedAt[|e.ackedAt|].num == a.num;
      }
    }
  }

  lemma {:induction false} DieKeepsInv(s: State, survivor: map<string, nat>, rules: Rules)
    requires Inv(s) && Enabled(s, Die(survivor), rules)
    ensures Inv(Next(s, Die(survivor), rules))
  {
    var s' := Next(s, Die(survivor), rules);
    forall k | k in s'.ledger ensures EntrySound(s', k, s'.ledger[k]) { assert EntrySound(s, k, s.ledger[k]); }
    forall k | k in s'.store ensures s'.store[k] <= s'.num { assert survivor[k] <= Held(s.store, k); }
  }

  lemma {:induction false} StampKeepsInv(s: State, rules: Rules)
    requires Inv(s) && Enabled(s, Stamp, rules) && NoTie(s)
    ensures Inv(Next(s, Stamp, rules))
  {
    var s' := Next(s, Stamp, rules);
    forall k | k in s'.ledger ensures EntrySound(s', k, s'.ledger[k]) {
      assert EntrySound(s, k, s.ledger[k]);
      forall i | 0 <= i < |s.ledger[k].ackedAt| && s.ledger[k].ackedAt[i].num > Held(s.store, k)
        ensures s.ledger[k].ackedAt[i].sent != s.clock {}
    }
  }

  lemma {:induction false} StartPassKeepsInv(s: State, rules: Rules)
    requires Inv(s) && Enabled(s, StartPass, rules) && Answered(s)
    ensures Inv(Next(s, StartPass, rules))
  {
    var s' := Next(s, StartPass, rules);
    forall k | k in s'.ledger ensures EntrySound(s', k, s'.ledger[k]) { assert EntrySound(s, k, s.ledger[k]); }
  }

  /** Pruning leaves only acks the survivor holds: what the dead master could have served is gone or covered. */
  lemma {:induction false} PrunedEntryHeld(s: State, key: string, e: Entry, got: Option<nat>)
    requires s.harness.Passing? && EntrySound(s, key, e) && s.harness.instant <= s.harness.dead
    requires got.Some? ==> got.value <= Held(s.store, key)
    ensures EntryListed(Pruned(e, got, s.harness.dead))
    ensures forall a :: a in Pruned(e, got, s.harness.dead).ackedAt ==> a in e.ackedAt && a.num <= Held(s.store, key)
  {
    var kept := Kept(e.ackedAt, got, s.harness.dead);
    NewestIsListed(kept);
    forall a | a in kept ensures a in e.ackedAt && a.num <= Held(s.store, key) {
      KeptExactly(e.ackedAt, got, s.harness.dead, a);
    }
    if kept != [] { assert kept[0] in kept; }
  }

  lemma {:induction false} RetireKeepsInv(s: State, key: string, got: Option<nat>)
    requires Inv(s) && s.harness.Passing? && (got.Some? ==> got.value <= Held(s.store, key))
    ensures Inv(Retired(s, key, got))
  {
    var s' := Retired(s, key, got);
    forall k | k in s'.ledger ensures EntrySound(s', k, s'.ledger[k]) {
      assert EntrySound(s, k, s.ledger[k]);
      if k == key { PrunedEntryHeld(s, key, s.ledger[key], got); }
    }
  }

  lemma {:induction false} HarnessStepKeepsInv(s: State, act: Action, rules: Rules)
    requires Inv(s) && Enabled(s, act, rules)
    requires act.Get? || act.EndPass? || act.StartCheck? || act.EndCheck?
    ensures Inv(Next(s, act, rules))
  {
    var s' := Next(s, act, rules);
    forall k | k in s'.ledger ensures EntrySound(s', k, s'.ledger[k]) { assert EntrySound(s, k, s.ledger[k]); }
    if act.StartCheck? {
      forall k | k in s'.harness.snapshot ensures s'.harness.snapshot[k] <= Held(s'.store, k) {
        assert EntrySound(s, k, s.ledger[k]);
      }
    }
  }

  lemma {:induction false} StepKeepsInv(s: State, act: Action)
    requires Inv(s) && Enabled(s, act, SOUND)
    ensures Inv(Next(s, act, SOUND))
  {
    match act
    case Die(survivor) => DieKeepsInv(s, survivor, SOUND);
    case Stamp => StampKeepsInv(s, SOUND);
    case StartPass => StartPassKeepsInv(s, SOUND);
    case Prune => RetireKeepsInv(s, s.harness.reading.value.0, Some(s.harness.reading.value.1));
    case PruneUnread(key) => RetireKeepsInv(s, key, None);
    case Get(_) => HarnessStepKeepsInv(s, act, SOUND);
    case EndPass => HarnessStepKeepsInv(s, act, SOUND);
    case StartCheck => HarnessStepKeepsInv(s, act, SOUND);
    case EndCheck => HarnessStepKeepsInv(s, act, SOUND);
    case _ => WriterStepKeepsInv(s, act, SOUND);
  }

  lemma {:induction false} RunKeepsInv(s: State, acts: seq<Action>)
    requires Inv(s) && Allowed(s, acts, SOUND)
    ensures Inv(Run(s, acts, SOUND))
    decreases |acts|
  {
    if acts != [] {
      StepKeepsInv(s, acts[0]);
      RunKeepsInv(Next(s, acts[0], SOUND), acts[1..]);
    }
  }

  /**
   * In every run whose death stamps tie with no send of a lost write and whose passes begin once the
   * dead master's answers for lost writes are read, the replica-kill check raises no alarm, and whenever no kill is being
   * accounted for, every key's floor is at or below what the master holds.
   */
  lemma {:induction false} NoFalseAlarm(acts: seq<Action>, key: string)
    requires Allowed(FRESH, acts, SOUND)
    ensures var s := Run(FRESH, acts, SOUND);
            && !Alarms(s, key)
            && (s.harness.Calm? || s.harness.Checking? ==> EntryOf(s, key).lastAcked <= Held(s.store, key))
  {
    RunKeepsInv(FRESH, acts);
    var s := Run(FRESH, acts, SOUND);
    if key in s.ledger { assert EntrySound(s, key, s.ledger[key]); }
  }

  // ---- both conditions are exact ---------------------------------------------------------------

  const FREE := Rules(false, false)

  /** Some run from here on, itself keeping both conditions, ends in an alarm. */
  ghost predicate CanAlarm(s: State) {
    exists acts, key :: EndsInAlarm(s, acts, key)
  }

  ghost predicate EndsInAlarm(s: State, acts: seq<Action>, key: string) {
    Allowed(s, acts, SOUND) && Alarms(Run(s, acts, SOUND), key)
  }

  lemma {:induction false} AlarmsLater(s: State, act: Action)
    requires Enabled(s, act, SOUND) && CanAlarm(Next(s, act, SOUND))
    ensures CanAlarm(s)
  {
    var acts, key :| EndsInAlarm(Next(s, act, SOUND), acts, key);
    var more := [act] + acts;
    assert more[1..] == acts;
    assert EndsInAlarm(s, more, key);
  }

  lemma {:induction false} CheckAlarms(s: State, key: string)
    requires s.harness.Calm? && key in s.ledger && s.ledger[key].lastAcked > Held(s.store, key)
    ensures CanAlarm(s)
  {
    var t := Next(s, StartCheck, SOUND);
    assert Alarms(t, key);
    var none: seq<Action> := [];
    assert EndsInAlarm(t, none, key);
    AlarmsLater(s, StartCheck);
  }

  /** The floor of the key is above what the survivor holds, and stays there or will be raised there by its prune. */
  predicate FloorTooHigh(s: State, key: string) {
    && s.harness.Passing? && key in s.ledger
    && if key in s.harness.todo
       then exists i :: 0 <= i < |s.ledger[key].ackedAt| && s.ledger[key].ackedAt[i].num > Held(s.store, key)
                        && s.ledger[key].ackedAt[i].sent >= s.harness.dead
       else s.ledger[key].lastAcked > Held(s.store, key)
  }

  lemma {:induction false} PruneKeepsTie(s: State, key: string, other: string)
    requires FloorTooHigh(s, key) && other in s.harness.todo
    ensures FloorTooHigh(Retired(s, other, None), key)
  {
    if other == key {
      var acks := s.ledger[key].ackedAt;
      var i :| 0 <= i < |acks| && acks[i].num > Held(s.store, key) && acks[i].sent >= s.harness.dead;
      KeptExactly(acks, None, s.harness.dead, acks[i]);
      NewestIsListed(Kept(acks, None, s.harness.dead));
    }
  }

  lemma {:induction false} TiedPassAlarms(s: State, key: string)
    requires s.harness.Passing? && s.harness.reading.None? && FloorTooHigh(s, key)
    ensures CanAlarm(s)
    decreases |s.harness.todo|
  {
    if s.harness.todo == {} {
      CheckAlarms(Next(s, EndPass, SOUND), key);
      AlarmsLater(s, EndPass);
    } else {
      var other :| other in s.harness.todo;
      PruneKeepsTie(s, key, other);
      TiedPassAlarms(Retired(s, other, None), key);
      AlarmsLater(s, PruneUnread(other));
    }
  }

  /** A lost write acknowledged at the stamp itself survives the pass. */
  lemma {:induction false} TiedAckAlarms(s: State, key: string, i: nat)
    requires s.harness.Stamped? && s.flight.Idle? && key in s.ledger && EntryListed(s.ledger[key])
    requires i < |s.ledger[key].ackedAt|
    requires s.ledger[key].ackedAt[i].num > Held(s.store, key) && s.ledger[key].ackedAt[i].sent >= s.harness.dead
    ensures CanAlarm(s)
  {
    var t := Next(s, StartPass, SOUND);
    assert key in AckedKeys(s);
    assert FloorTooHigh(t, key);
    TiedPassAlarms(t, key);
    AlarmsLater(s, StartPass);
  }

  /** So does one whose answer was not read yet. */
  lemma {:induction false} TiedFlightAlarms(s: State)
    requires s.harness.Stamped? && LedgerSound(s) && s.flight.Sent? && s.flight.served
    requires s.flight.num > Held(s.store, s.flight.key) && s.flight.at >= s.harness.dead
    ensures CanAlarm(s)
  {
    var key, t := s.flight.key, Next(s, Answer, SOUND);
    var acks := t.ledger[key].ackedAt;
    assert acks[|acks| - 1] == Ack(s.flight.num, s.flight.at, s.clock);
    assert EntryListed(t.ledger[key]) by { assert acks[|acks| - 1].num == t.ledger[key].lastAcked; }
    TiedAckAlarms(t, key, |acks| - 1);
    AlarmsLater(s, Answer);
  }

  lemma {:induction false} TieAlarms(s: State)
    requires Inv(s) && s.harness.Died? && !NoTie(s)
    ensures CanAlarm(Next(s, Stamp, FREE))
  {
    var t := Next(s, Stamp, FREE);
    assert forall k :: k in s.ledger ==> EntryListed(s.ledger[k]) by {
      forall k | k in s.ledger ensures EntryListed(s.ledger[k]) { assert EntrySound(s, k, s.ledger[k]); }
    }
    if k, i :| k in s.ledger && 0 <= i < |s.ledger[k].ackedAt| && s.ledger[k].ackedAt[i].num > Held(s.store, k)
               && s.ledger[k].ackedAt[i].sent == s.clock {
      if t.flight.Sent? {
        TiedAckAlarms(t.(flight := Idle), k, i);
        AlarmsLater(t, GiveUp);
      } else if t.flight.Attempting? {
        var sent := Next(t, Send, SOUND);
        TiedAckAlarms(sent.(flight := Idle), k, i);
        AlarmsLater(sent, GiveUp);
        AlarmsLater(t, Send);
      } else {
        TiedAckAlarms(t, k, i);
      }
    } else {
      TiedFlightAlarms(t);
    }
  }

  /** An answer read after the pass raises the floor above what the survivor holds. */
  lemma {:induction false} LatePassAlarms(s: State)
    requires s.harness.Passing? && s.harness.reading.None?
    requires s.flight.Sent? && s.flight.served && s.flight.num > Held(s.store, s.flight.key)
    ensures CanAlarm(s)
    decreases |s.harness.todo|
  {
    if s.harness.todo == {} {
      var calm := Next(s, EndPass, SOUND);
      CheckAlarms(Next(calm, Answer, SOUND), s.flight.key);
      AlarmsLater(calm, Answer);
      AlarmsLater(s, EndPass);
    } else {
      var other :| other in s.harness.todo;
      LatePassAlarms(Retired(s, other, None));
      AlarmsLater(s, PruneUnread(other));
    }
  }

  lemma {:induction false} SoundNeverAlarms(s: State)
    requires Inv(s)
    ensures !CanAlarm(s)
  {
    if acts, key :| EndsInAlarm(s, acts, key) {
      RunKeepsInv(s, acts);
    }
  }

  /**
   * From a sound state, stamping a death leaves some run to a false alarm exactly when a write the
   * survivor lacks was sent at the stamp.
   */
  lemma {:induction false} TieExactly(s: State)
    requires Inv(s) && s.harness.Died?
    ensures CanAlarm(Next(s, Stamp, FREE)) <==> !NoTie(s)
  {
    if NoTie(s) {
      StampKeepsInv(s, FREE);
      SoundNeverAlarms(Next(s, Stamp, FREE));
    } else {
      TieAlarms(s);
    }
  }

  /** ... and beginning the pass does exactly when an answer for such a write is still unread. */
  lemma {:induction false} LateAnswerExactly(s: State)
    requires Inv(s) && s.harness.Stamped?
    ensures CanAlarm(Next(s, StartPass, FREE)) <==> !Answered(s)
  {
    if Answered(s) {
      StartPassKeepsInv(s, FREE);
      SoundNeverAlarms(Next(s, StartPass, FREE));
    } else {
      LatePassAlarms(Next(s, StartPass, FREE));
    }
  }

  // ---- and both can fail -----------------------------------------------------------------------

  /** `t` can be reached from `s` in `n` steps under the rules. */
  ghost predicate Reach(s: State, t: State, rules: Rules, n: nat)
    decreases n
  {
    if n == 0 then s == t
    else exists mid, act :: Reach(s, mid, rules, n - 1) && Enabled(mid, act, rules) && Next(mid, act, rules) == t
  }

  ghost predicate Reachable(t: State, rules: Rules) {
    exists n: nat :: Reach(FRESH, t, rules, n)
  }

  lemma {:induction false} ReachStep(mid: State, act: Action, rules: Rules, t: State)
    requires Reachable(mid, rules) && Enabled(mid, act, rules) && Next(mid, act, rules) == t
    ensures Reachable(t, rules)
  {
    var n: nat :| Reach(FRESH, mid, rules, n);
    var m := n + 1;
    assert Reach(FRESH, mid, rules, m - 1);
    assert Reach(FRESH, t, rules, m);
  }

  function OneWrite(key: string, store: map<string, nat>, entry: Entry, clock: nat, flight: Flight, h: Harness): State {
    State(store, map[key := entry], 1, clock, flight, h)
  }

  const ATTEMPTED := Entry([1], 0, 1, [])

  function Told(): Entry { Entry([1], 1, 1, [Ack(1, 0, 0)]) }

  /** One write, sent and served at time 0, its answer not yet read. */
  lemma {:induction false} ReachServed(key: string, rules: Rules)
    ensures Reachable(OneWrite(key, map[key := 1], ATTEMPTED, 0, Sent(key, 1, 0, true), Calm), rules)
  {
    var zero: nat := 0;
    assert Reach(FRESH, FRESH, rules, zero);
    var s1 := OneWrite(key, map[], ATTEMPTED, 0, Attempting(key, 1), Calm);
    assert Attempted(EntryOf(FRESH, key), 1) == ATTEMPTED;
    assert Next(FRESH, Attempt(key), rules).ledger == map[key := ATTEMPTED];
    ReachStep(FRESH, Attempt(key), rules, s1);
    var s2 := s1.(flight := Sent(key, 1, 0, false));
    ReachStep(s1, Send, rules, s2);
    ReachStep(s2, Serve, rules, OneWrite(key, map[key := 1], ATTEMPTED, 0, Sent(key, 1, 0, true), Calm));
  }

  /** The answered write, lost with the master and kept by the pass, trips the check. */
  lemma {:induction false} KeptLossAlarms(key: string, rules: Rules, clock: nat)
    requires Reachable(OneWrite(key, map[], Told(), clock, Idle, Calm), rules)
    ensures exists t :: Reachable(t, rules) && Alarms(t, key)
  {
    var s := OneWrite(key, map[], Told(), clock, Idle, Calm);
    var t := Next(s, StartCheck, rules);
    ReachStep(s, StartCheck, rules, t);
    assert Alarms(t, key);
  }

  /** A death stamped at the very microsecond of the send: the pass keeps the lost write. */
  lemma {:induction false} TieRaisesFalseAlarm(key: string)
    ensures exists t :: Reachable(t, Rules(false, true)) && Alarms(t, key)
  {
    var rules := Rules(false, true);
    ReachTiedPass(key);
    var s := OneWrite(key, map[], Told(), 0, Idle, Passing(0, 0, {key}, Some((key, 0))));
    assert Told().ackedAt[1..] == [];
    assert Kept([], Some(0), 0) == [] && Kept(Told().ackedAt, Some(0), 0) == Told().ackedAt;
    assert Newest([]) == 0 && Newest(Told().ackedAt) == 1;
    var pruned := OneWrite(key, map[], Told(), 0, Idle, Passing(0, 0, {}, None));
    assert Retired(s, key, Some(0)).ledger == map[key := Told()];
    assert {key} - {key} == {};
    assert Next(s, Prune, rules) == Retired(s, key, Some(0)) == pruned;
    ReachStep(s, Prune, rules, pruned);
    ReachStep(pruned, EndPass, rules, OneWrite(key, map[], Told(), 0, Idle, Calm));
    KeptLossAlarms(key, rules, 0);
  }

  lemma {:induction false} ReachTiedPass(key: string)
    ensures Reachable(OneWrite(key, map[], Told(), 0, Idle, Passing(0, 0, {key}, Some((key, 0)))), Rules(false, true))
  {
    var rules := Rules(false, true);
    ReachServed(key, rules);
    var served := OneWrite(key, map[key := 1], ATTEMPTED, 0, Sent(key, 1, 0, true), Calm);
    var told := OneWrite(key, map[key := 1], Told(), 0, Idle, Calm);
    assert Acked(ATTEMPTED, Ack(1, 0, 0)) == Told();
    assert Next(served, Answer, rules).ledger == map[key := Told()];
    ReachStep(served, Answer, rules, told);
    var dead := OneWrite(key, map[], Told(), 0, Idle, Died(0));
    ReachStep(told, Die(map[]), rules, dead);
    var stamped := dead.(harness := Stamped(0, 0));
    ReachStep(dead, Stamp, rules, stamped);
    var passing := dead.(harness := Passing(0, 0, {key}, None));
    assert AckedKeys(stamped) == {key};
    ReachStep(stamped, StartPass, rules, passing);
    ReachStep(passing, Get(key), rules, dead.(harness := Passing(0, 0, {key}, Some((key, 0)))));
  }

  /** An answer of the dead master read only after the pass took its snapshot: nothing retires the write. */
  lemma {:induction false} LateAnswerRaisesFalseAlarm(key: string)
    ensures exists t :: Reachable(t, Rules(true, false)) && Alarms(t, key)
  {
    var rules := Rules(true, false);
    ReachLatePass(key);
    var passing := OneWrite(key, map[], ATTEMPTED, 1, Sent(key, 1, 0, true), Passing(0, 1, {}, None));
    var told := passing.(flight := Idle, ledger := map[key := Entry([1], 1, 1, [Ack(1, 0, 1)])]);
    assert Acked(ATTEMPTED, Ack(1, 0, 1)) == Entry([1], 1, 1, [Ack(1, 0, 1)]);
    assert Next(passing, Answer, rules).ledger == told.ledger;
    ReachStep(passing, Answer, rules, told);
    var calm := told.(harness := Calm);
    ReachStep(told, EndPass, rules, calm);
    var t := Next(calm, StartCheck, rules);
    ReachStep(calm, StartCheck, rules, t);
    assert Alarms(t, key);
  }

  lemma {:induction false} ReachLatePass(key: string)
    ensures Reachable(OneWrite(key, map[], ATTEMPTED, 1, Sent(key, 1, 0, true), Passing(0, 1, {}, None)), Rules(true, false))
  {
    var rules := Rules(true, false);
    ReachServed(key, rules);
    var served := OneWrite(key, map[key := 1], ATTEMPTED, 0, Sent(key, 1, 0, true), Calm);
    var dead := served.(store := map[], harness := Died(0));
    ReachStep(served, Die(map[]), rules, dead);
    var later := dead.(clock := 1);
    ReachStep(dead, Advance(1), rules, later);
    var stamped := later.(harness := Stamped(0, 1));
    ReachStep(later, Stamp, rules, stamped);
    assert AckedKeys(stamped) == {};
    ReachStep(stamped, StartPass, rules, stamped.(harness := Passing(0, 1, {}, None)));
  }
}
