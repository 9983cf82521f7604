/**
 * What the guards of slot moves keep out: exactly which copies a recovery pass purges, and exactly which
 * steps leave a run to the loss of an owner's copy.
 */
module SlotLosses {
  import opened Basics
  import opened SlotMoves

  lemma {:induction false} MigratingPartComplete(rows: seq<Row>, part: seq<Row>, reachable: set<string>, r: Row, c: Command)
    requires r in part && r.record.Migrating? && c in ForMigrating(rows, r, reachable)
    ensures c in MigratingPart(rows, part, reachable)
  {
    if part[0] != r { MigratingPartComplete(rows, part[1..], reachable, r, c); }
  }

  lemma {:induction false} DeliveredDisownPurges(s: State, commands: seq<Command>, lost: set<nat>, src: string, dest: string, u: Unit)
    requires DisownArrived(commands, lost, src, dest, u)
    ensures Key(src, u) !in ExecuteAll(s, commands, lost).holders
    decreases |commands|
  {
    var n := |commands| - 1;
    var front := commands[..n];
    assert forall i :: 0 <= i < n ==> front[i] == commands[i];
    CommandKeeps(ExecuteAll(s, front, lost), commands[n]);
    if DisownArrived(front, lost, src, dest, u) {
      DeliveredDisownPurges(s, front, lost, src, dest, u);
    }
  }

  /** Which copies a pass purges when every command arrives. */
  lemma {:induction false} PassPurgesExactly(s: State, rows: seq<Row>, reachable: set<string>, src: string, u: Unit)
    requires Key(src, u) in s.holders
    ensures Key(src, u) !in ExecuteAll(s, Plan(rows, reachable), {}).holders <==>
            exists dest :: Row(src, u, Migrating(dest)) in rows && dest in reachable
                           && !SomeImporting(rows, dest, u.slot) && !SomeAborted(rows, dest, u.slot)
  {
    var commands := Plan(rows, reachable);
    var s' := ExecuteAll(s, commands, {});
    if Key(src, u) !in s'.holders {
      ExecutedPass(s, commands, {});
      PlanDisownsJustified(rows, reachable);
      PlanDisownsReachable(rows, reachable);
      var dest :| DisownArrived(commands, {}, src, dest, u);
      assert MoveAway(src, dest, u) in commands;
      assert Row(src, u, Migrating(dest)) in rows;
    }
    forall dest | Row(src, u, Migrating(dest)) in rows && dest in reachable
                  && !SomeImporting(rows, dest, u.slot) && !SomeAborted(rows, dest, u.slot)
      ensures Key(src, u) !in s'.holders
    {
      var r, c := Row(src, u, Migrating(dest)), MoveAway(src, dest, u);
      assert ForMigrating(rows, r, reachable) == [c];
      MigratingPartComplete(rows, rows, reachable, r, c);
      assert c in commands;
      DeliveredDisownPurges(s, commands, {}, src, dest, u);
    }
  }

  lemma {:induction false} MigratingPartReaches(rows: seq<Row>, part: seq<Row>, reachable: set<string>, c: Command)
    requires c in MigratingPart(rows, part, reachable) && c.MoveAway?
    ensures c.dest in reachable
  {
    if !(part[0].record.Migrating? && c in ForMigrating(rows, part[0], reachable)) {
      MigratingPartReaches(rows, part[1..], reachable, c);
    }
  }

  lemma {:induction false} PlanDisownsReachable(rows: seq<Row>, reachable: set<string>)
    ensures forall c :: c in Plan(rows, reachable) && c.MoveAway? ==> c.dest in reachable
  {
    forall c | c in Plan(rows, reachable) && c.MoveAway? ensures c.dest in reachable {
      if c in ImportingPart(rows, reachable) { ImportingPartNeverDisowns(rows, reachable, c); }
      else if c in AbortedPart(rows, rows) { AbortedPartNeverDisowns(rows, rows, c); }
      else { MigratingPartReaches(rows, rows, reachable, c); }
    }
  }

  /** The unsettled records of some of the keys, listed in some order. */
  lemma {:induction false} ListKeys(s: State, keys: set<Key>) returns (rows: seq<Row>)
    requires keys <= s.records.Keys && forall k :: k in keys ==> !s.records[k].Moved?
    ensures Distinct(rows) && (forall r :: r in rows ==> Key(r.node, r.unit) in keys && r.record == s.records[Key(r.node, r.unit)])
    ensures forall k :: k in keys ==> Row(k.node, k.unit, s.records[k]) in rows
  {
    if keys == {} {
      rows := [];
    } else {
      var k :| k in keys;
      var rest := ListKeys(s, keys - {k});
      var row := Row(k.node, k.unit, s.records[k]);
      rows := [row] + rest;
      assert row !in rest;
    }
  }

  /** A reading of the given nodes as they are. */
  lemma {:induction false} Reading(s: State, answered: set<string>) returns (rows: seq<Row>)
    ensures Lists(s, rows, answered)
  {
    rows := ListKeys(s, set k | k in s.records && k.node in answered && !s.records[k].Moved?);
  }

  /** The pass purges `src`'s copy of the unit. */
  ghost predicate Purges(s: State, pass: Action, src: string, u: Unit) {
    pass.Recover? && Enabled(s, pass) && Key(src, u) !in Next(s, pass).holders
  }

  lemma {:induction false} PurgedBy(s: State, rows: seq<Row>, answered: set<string>, reachable: set<string>, src: string, dest: string, u: Unit)
    requires Lists(s, rows, answered) && src in answered && dest in reachable && Frozen(s, src, u, dest)
    requires !SomeImporting(rows, dest, u.slot) && !SomeAborted(rows, dest, u.slot)
    ensures Purges(s, Recover(rows, answered, reachable, {}), src, u)
  {
    assert Row(src, u, Migrating(dest)) in rows;
    ExecutedPass(s, Plan(rows, reachable), {});
    if Key(src, u) in s.holders { PassPurgesExactly(s, rows, reachable, src, u); }
  }

  /** The destination lists no import and no abort of the slot in any namespace. */
  ghost predicate NothingPending(s: State, dest: string, slot: nat) {
    forall v: Unit :: v.slot == slot && RecordOf(s, dest, v).Some? ==>
      !RecordOf(s, dest, v).value.Importing? && !RecordOf(s, dest, v).value.Aborted?
  }

  /**
   * Why unexplained freezes are shut out: in any state, a source frozen for a destination that lists
   * nothing pending loses its copy to a pass that every node answers and that reaches everyone.
   */
  lemma {:induction false} UnmarkedFreezeCostsTheCopy(s: State, dest: string, u: Unit, src: string)
    requires Frozen(s, src, u, dest) && NothingPending(s, dest, u.slot)
    ensures exists rows, everyone: set<string> ::
              DestinationsAnswered(rows, everyone) && Purges(s, Recover(rows, everyone, everyone, {}), src, u)
  {
    var nodes, peers := set k | k in s.records :: k.node, set k | k in s.records :: s.records[k].peer;
    var everyone := nodes + peers;
    var rows := Reading(s, everyone);
    assert Key(src, u) in s.records && s.records[Key(src, u)].peer == dest;
    forall r | r in rows && r.record.Migrating? ensures r.record.peer in everyone { assert Key(r.node, r.unit) in s.records; }
    forall i | 0 <= i < |rows| && rows[i].node == dest && rows[i].unit.slot == u.slot
      ensures !rows[i].record.Importing? && !rows[i].record.Aborted?
    {
      assert rows[i] in rows && RecordOf(s, dest, rows[i].unit) == Some(rows[i].record);
    }
    PurgedBy(s, rows, everyone, everyone, src, dest, u);
    assert DestinationsAnswered(rows, everyone);
  }

  /** Why every destination must answer: any frozen source, marked or not, loses its copy to a pass that hears it alone. */
  lemma {:induction false} UnheardDestinationCostsTheCopy(s: State, dest: string, u: Unit, src: string)
    requires Frozen(s, src, u, dest) && dest != src
    ensures exists rows :: Purges(s, Recover(rows, {src}, {dest}, {}), src, u)
  {
    var rows := Reading(s, {src});
    assert forall i :: 0 <= i < |rows| ==> rows[i] in rows;
    PurgedBy(s, rows, {src}, {dest}, src, dest, u);
  }

  // ---- which steps leave a run to a loss ---------------------------------------------------------

  /** What owners need, whatever became of others: their copy, and a marker while they are frozen. */
  ghost predicate FrozenOwnersMarked(s: State) {
    forall u, dest {:trigger Frozen(s, s.owner[u], u, dest)} ::
      u in s.owner && Frozen(s, s.owner[u], u, dest) ==> Marked(s, dest, u, s.owner[u])
  }

  ghost predicate Guarded(s: State) {
    OwnersHold(s) && FrozenOwnersMarked(s) && MovedHoldNothing(s) && ImportsFormed(s)
  }

  lemma {:induction false} SoundIsGuarded(s: State)
    requires Inv(s)
    ensures Guarded(s)
  {
  }

  /** Some run from here on, avoiding every guard, ends with an owner that does not hold its unit. */
  ghost predicate CanLose(s: State) { exists acts :: LosesBy(s, acts) }

  ghost predicate LosesBy(s: State, acts: seq<Action>) { Careful(s, acts) && !OwnersHold(Run(s, acts)) }

  /** The owner is frozen for `dest`. */
  predicate OwnerFrozen(s: State, u: Unit, dest: string) { u in s.owner && Frozen(s, s.owner[u], u, dest) }

  predicate Owns(s: State, node: string, u: Unit) { u in s.owner && s.owner[u] == node }

  /** What the step would do to an owner: take its copy, or the marker that vouches for its freeze. */
  ghost predicate Endangers(s: State, act: Action)
    requires Enabled(s, act)
  {
    match act
    case StartImport(_, u, dest, src) => OwnerFrozen(s, u, dest) && s.owner[u] != src
    case Freeze(id, _) =>
      var i := s.imports[id];
      (Owns(s, i.src, i.unit) && !Marked(s, i.dest, i.unit, i.src)) || OwnerFrozen(s, i.unit, i.src)
    case Finish(id) => !Whole(s, id) && OwnerFrozen(s, s.imports[id].unit, s.imports[id].dest)
    case HandOff(id, applied) =>
      applied && (Owns(s, s.imports[id].src, s.imports[id].unit) || OwnerFrozen(s, s.imports[id].unit, s.imports[id].src))
    case ClearMarker(id) => OwnerFrozen(s, s.imports[id].unit, s.imports[id].dest)
    case RollbackMark(id) =>
      OwnerFrozen(s, s.imports[id].unit, s.imports[id].dest) && s.owner[s.imports[id].unit] != s.imports[id].src
    case RollbackUnfreeze(id, applied, _) => applied && ClearsOwnersMarker(s, s.imports[id].src, s.imports[id].unit)
    case Overwrite(id) => Owns(s, s.imports[id].dest, s.imports[id].unit)
    case ClientWrite(u, node) => Key(node, u) !in s.holders
    case AbortArrives(u, node) => ClearsOwnersMarker(s, node, u)
    case DisownArrives(u, src, _) => Owns(s, src, u) || OwnerFrozen(s, u, src)
    case Recover(rows, _, reachable, lost) =>
      || (exists dest, u :: u in s.owner && GaveUp(s, dest, u, s.owner[u])
            && Arrived(Plan(rows, reachable), lost, dest, u) && !Arrived(Plan(rows, reachable), lost, s.owner[u], u))
      || (exists dest, u :: u in s.owner && DisownArrived(Plan(rows, reachable), lost, s.owner[u], dest, u))
    case _ => false
  }

  predicate ClearsOwnersMarker(s: State, node: string, u: Unit) { u in s.owner && GaveUp(s, node, u, s.owner[u]) }

  /** What a step leaves: owners that hold their units, frozen only for destinations that say so. */
  ghost predicate Unharmed(s: State) { OwnersHold(s) && FrozenOwnersMarked(s) }

  ghost predicate StillFormed(s: State) { MovedHoldNothing(s) && ImportsFormed(s) }

  lemma {:induction false} MovesStayEmpty(s: State, s': State)
    requires MovedHoldNothing(s) && s'.holders <= s.holders
    requires forall n, v {:trigger HasMoved(s', n, v)} :: HasMoved(s', n, v) ==> HasMoved(s, n, v) || Key(n, v) !in s'.holders
    ensures MovedHoldNothing(s')
  {
  }

  lemma {:induction false} StartHarms(s: State, act: Action)
    requires act.StartImport? && Guarded(s) && Enabled(s, act)
    ensures StillFormed(Next(s, act)) && (Unharmed(Next(s, act)) <==> !Endangers(s, act))
  {
    var s', u, dest := Next(s, act), act.unit, act.dest;
    forall n, v | HasMoved(s', n, v) ensures HasMoved(s, n, v) { }
    forall v, d | v in s'.owner && Frozen(s', s'.owner[v], v, d)
      ensures Marked(s', d, v, s'.owner[v]) <==> !(v == u && d == dest && s.owner[u] != act.src)
    {
      assert Frozen(s, s.owner[v], v, d);
    }
    if Endangers(s, act) { assert Frozen(s', s'.owner[u], u, dest); }
  }

  lemma {:induction false} FreezeHarms(s: State, act: Action)
    requires act.Freeze? && Guarded(s) && Enabled(s, act)
    ensures StillFormed(Next(s, act)) && (Unharmed(Next(s, act)) <==> !Endangers(s, act))
  {
    var s', i := Next(s, act), s.imports[act.id];
    forall n, v | HasMoved(s', n, v) ensures HasMoved(s, n, v) { }
    forall v, d | v in s'.owner && Frozen(s', s'.owner[v], v, d)
      ensures Marked(s', d, v, s'.owner[v]) <==>
              if v == i.unit && s.owner[v] == i.src then Marked(s, i.dest, v, i.src) else !(v == i.unit && d == i.src)
    {
      if !(v == i.unit && s.owner[v] == i.src) { assert Frozen(s, s.owner[v], v, d); }
    }
    assert Owns(s, i.src, i.unit) ==> Frozen(s', s'.owner[i.unit], i.unit, i.dest);
    if OwnerFrozen(s, i.unit, i.src) { assert Frozen(s', s'.owner[i.unit], i.unit, i.src) && !Marked(s', i.src, i.unit, s.owner[i.unit]); }
  }

  /** The destination's record is cleared or replaced by an abort marker. */
  lemma {:induction false} MarkerHarms(s: State, act: Action)
    requires (act.ClearMarker? || act.RollbackMark?) && Guarded(s) && Enabled(s, act)
    ensures StillFormed(Next(s, act)) && (Unharmed(Next(s, act)) <==> !Endangers(s, act))
  {
    var s', i := Next(s, act), s.imports[act.id];
    forall n, v | HasMoved(s', n, v) ensures HasMoved(s, n, v) { }
    MovesStayEmpty(s, s');
    forall v, d | v in s'.owner && Frozen(s', s'.owner[v], v, d)
      ensures Marked(s', d, v, s'.owner[v]) <==> !(v == i.unit && d == i.dest && !(act.RollbackMark? && s.owner[v] == i.src))
    {
      assert Frozen(s, s.owner[v], v, d);
    }
    if Endangers(s, act) { assert Frozen(s', s'.owner[i.unit], i.unit, i.dest); }
  }

  lemma {:induction false} FinishHarms(s: State, act: Action)
    requires act.Finish? && Guarded(s) && Enabled(s, act)
    ensures StillFormed(Next(s, act)) && (Unharmed(Next(s, act)) <==> !Endangers(s, act))
  {
    var s', i := Next(s, act), s.imports[act.id];
    forall n, v | HasMoved(s', n, v) ensures Key(n, v) !in s'.holders { assert HasMoved(s, n, v); }
    forall v, d | v in s'.owner && Frozen(s', s'.owner[v], v, d)
      ensures Marked(s', d, v, s'.owner[v]) <==> !(v == i.unit && d == i.dest)
      ensures v == i.unit ==> !Whole(s, act.id)
    {
      assert s'.owner[v] == s.owner[v] && Frozen(s, s.owner[v], v, d);
    }
    if Endangers(s, act) { assert Frozen(s', s'.owner[i.unit], i.unit, i.dest); }
  }

  lemma {:induction false} DisownHarms(s: State, s': State, src: string, dest: string, u: Unit)
    requires Guarded(s) && u in s.owner && s'.(imports := s.imports) == SlotMoved(s, src, u, dest)
    ensures MovedHoldNothing(s') && (Unharmed(s') <==> !(Owns(s, src, u) || OwnerFrozen(s, u, src)))
  {
    forall n, v | HasMoved(s', n, v) ensures HasMoved(s, n, v) || Key(n, v) !in s'.holders { }
    MovesStayEmpty(s, s');
    forall v, d | v in s'.owner && Frozen(s', s'.owner[v], v, d)
      ensures Marked(s', d, v, s'.owner[v]) <==> !(v == u && d == src)
    {
      assert Frozen(s, s.owner[v], v, d);
    }
    if OwnerFrozen(s, u, src) && !Owns(s, src, u) { assert Frozen(s', s'.owner[u], u, src); }
    if Owns(s, src, u) { assert Key(s'.owner[u], u) !in s'.holders; }
  }

  lemma {:induction false} AbortHarms(s: State, s': State, node: string, u: Unit)
    requires Guarded(s) && s'.(imports := s.imports) == SlotAbort(s, node, u)
    ensures MovedHoldNothing(s') && (Unharmed(s') <==> !ClearsOwnersMarker(s, node, u))
  {
    forall n, v | HasMoved(s', n, v) ensures HasMoved(s, n, v) { }
    MovesStayEmpty(s, s');
    forall v, d | v in s'.owner && Frozen(s', s'.owner[v], v, d)
      ensures Marked(s', d, v, s'.owner[v]) <==> !(v == u && d == node && ClearsOwnersMarker(s, node, u))
    {
      assert Frozen(s, s.owner[v], v, d);
    }
    if ClearsOwnersMarker(s, node, u) { assert Frozen(s', s'.owner[u], u, node); }
  }

  /** Steps that leave the records alone. */
  lemma {:induction false} QuietHarms(s: State, act: Action)
    requires act.Open? || act.Mark? || act.Overwrite? || act.Crash? || act.ClientWrite?
             || (act.HandOff? && !act.applied) || (act.RollbackUnfreeze? && !act.applied)
    requires Guarded(s) && Enabled(s, act)
    ensures StillFormed(Next(s, act)) && (Unharmed(Next(s, act)) <==> !Endangers(s, act))
  {
    var s' := Next(s, act);
    forall n, v | HasMoved(s', n, v) ensures HasMoved(s, n, v) { }
    MovesStayEmpty(s, s');
    forall v, d | v in s'.owner && Frozen(s', s'.owner[v], v, d) ensures Marked(s', d, v, s'.owner[v]) {
      assert s'.owner[v] == s.owner[v] && Frozen(s, s.owner[v], v, d);
    }
    if act.ClientWrite? && Endangers(s, act) { assert Key(s'.owner[act.unit], act.unit) !in s'.holders; }
  }

  lemma {:induction false} ArrivalHarms(s: State, act: Action)
    requires (act.HandOff? && act.applied) || (act.RollbackUnfreeze? && act.applied) || act.AbortArrives? || act.DisownArrives?
    requires Guarded(s) && Enabled(s, act)
    ensures StillFormed(Next(s, act)) && (Unharmed(Next(s, act)) <==> !Endangers(s, act))
  {
    var s' := Next(s, act);
    match act
    case HandOff(id, _) => DisownHarms(s, s', s.imports[id].src, s.imports[id].dest, s.imports[id].unit);
    case RollbackUnfreeze(id, _, _) => AbortHarms(s, s', s.imports[id].src, s.imports[id].unit);
    case AbortArrives(u, node) => AbortHarms(s, s', node, u);
    case DisownArrives(u, src, dest) => if u in s.owner { DisownHarms(s, s', src, dest, u); } else { UnknownDisowned(s, s', src, dest, u); }
  }

  lemma {:induction false} UnknownDisowned(s: State, s': State, src: string, dest: string, u: Unit)
    requires Guarded(s) && u !in s.owner && s' == SlotMoved(s, src, u, dest)
    ensures MovedHoldNothing(s') && Unharmed(s')
  {
    forall n, v | HasMoved(s', n, v) ensures HasMoved(s, n, v) || Key(n, v) !in s'.holders { }
    MovesStayEmpty(s, s');
    forall v, d | v in s'.owner && Frozen(s', s'.owner[v], v, d) ensures Marked(s', d, v, s'.owner[v]) {
      assert Frozen(s, s.owner[v], v, d);
    }
  }

  /** The owner is frozen and nothing says so: a pass that hears it alone, sending one command, takes its copy. */
  lemma {:induction false} ExposedCanLose(s: State, u: Unit, dest: string)
    requires OwnerFrozen(s, u, dest) && !Marked(s, dest, u, s.owner[u]) && s.owner[u] != dest
    ensures CanLose(s)
  {
    var src := s.owner[u];
    var rows := Reading(s, {src});
    var commands, row := Plan(rows, {dest}), Row(src, u, Migrating(dest));
    assert row in rows;
    assert forall i :: 0 <= i < |rows| ==> rows[i] in rows;
    assert ForMigrating(rows, row, {dest}) == [MoveAway(src, dest, u)];
    MigratingPartComplete(rows, rows, {dest}, row, MoveAway(src, dest, u));
    assert MoveAway(src, dest, u) in commands;
    var k :| 0 <= k < |commands| && commands[k] == MoveAway(src, dest, u);
    OneCommandLoses(s, rows, {src}, {dest}, k, src, dest, u);
  }

  lemma {:induction false} OneCommandLoses(s: State, rows: seq<Row>, answered: set<string>, reachable: set<string>, k: nat,
                                           src: string, dest: string, u: Unit)
    requires Lists(s, rows, answered) && k < |Plan(rows, reachable)| && Plan(rows, reachable)[k] == MoveAway(src, dest, u)
    requires Owns(s, src, u) && Frozen(s, src, u, dest) && !Marked(s, dest, u, src)
    ensures CanLose(s)
  {
    var commands := Plan(rows, reachable);
    var lost := set i: nat {:trigger commands[i]} | i < |commands| && i != k;
    var pass := Recover(rows, answered, reachable, lost);
    forall node, v | Arrived(commands, lost, node, v) ensures node == src && v == u { }
    forall a, b, v | DisownArrived(commands, lost, a, b, v) ensures a == src && b == dest && v == u { }
    assert DisownArrived(commands, lost, src, dest, u);
    DeliveredDisownPurges(s, commands, lost, src, dest, u);
    ExecutedPass(s, commands, lost);
    var t := Next(s, pass);
    assert t == ExecuteAll(s, commands, lost);
    assert !LosesTrack(s, pass);
    assert Key(t.owner[u], u) !in t.holders;
    LosesAfter(s, pass);
  }

  lemma {:induction false} LosesAfter(s: State, act: Action)
    requires Enabled(s, act) && !LosesTrack(s, act) && !OwnersHold(Next(s, act))
    ensures CanLose(s)
  {
    var acts := [act];
    assert acts[1..] == [];
    assert Careful(Next(s, act), acts[1..]) && Run(Next(s, act), acts[1..]) == Next(s, act);
    assert LosesBy(s, acts);
  }

  lemma {:induction false} LostAlready(s: State)
    requires !OwnersHold(s)
    ensures CanLose(s)
  {
    var acts: seq<Action> := [];
    assert LosesBy(s, acts);
  }

  /** A pass forgets a frozen owner exactly as it forgets any frozen source. */
  lemma {:induction false} PassHarmsMarkers(s: State, act: Action)
    requires act.Recover? && Guarded(s) && Enabled(s, act)
    ensures FrozenOwnersMarked(Next(s, act)) <==>
            !exists dest, u :: u in s.owner && GaveUp(s, dest, u, s.owner[u])
                               && Arrived(Plan(act.rows, act.reachable), act.lost, dest, u)
                               && !Arrived(Plan(act.rows, act.reachable), act.lost, s.owner[u], u)
  {
    var commands, s' := Plan(act.rows, act.reachable), Next(s, act);
    ExecutedPass(s, commands, act.lost);
    assert s' == ExecuteAll(s, commands, act.lost);
    forall v, d | v in s'.owner && Frozen(s', s'.owner[v], v, d)
      ensures Marked(s', d, v, s'.owner[v]) <==>
              !(GaveUp(s, d, v, s.owner[v]) && Arrived(commands, act.lost, d, v) && !Arrived(commands, act.lost, s.owner[v], v))
    {
      assert Frozen(s, s.owner[v], v, d);
      PassForgetsExactly(s, act.rows, act.answered, act.reachable, act.lost, d, v, s.owner[v]);
    }
    if d, v :| v in s.owner && GaveUp(s, d, v, s.owner[v]) && Arrived(commands, act.lost, d, v) && !Arrived(commands, act.lost, s.owner[v], v) {
      NotArrivedUnchanged(s, commands, act.lost, s.owner[v], v);
      assert Frozen(s', s'.owner[v], v, d);
    }
  }

  lemma {:induction false} PassHarmsOwners(s: State, act: Action)
    requires act.Recover? && Guarded(s) && Enabled(s, act)
    ensures StillFormed(Next(s, act))
    ensures OwnersHold(Next(s, act)) <==>
            !exists dest, u :: u in s.owner && DisownArrived(Plan(act.rows, act.reachable), act.lost, s.owner[u], dest, u)
  {
    var commands, s' := Plan(act.rows, act.reachable), Next(s, act);
    ExecutedPass(s, commands, act.lost);
    assert s' == ExecuteAll(s, commands, act.lost);
    MovesStayEmpty(s, s');
    forall v | v in s'.owner ensures Key(s'.owner[v], v) !in s'.holders <==> exists d :: DisownArrived(commands, act.lost, s.owner[v], d, v) {
      if d :| DisownArrived(commands, act.lost, s.owner[v], d, v) {
        DeliveredDisownPurges(s, commands, act.lost, s.owner[v], d, v);
      }
    }
  }

  lemma {:induction false} PassHarms(s: State, act: Action)
    requires act.Recover? && Guarded(s) && Enabled(s, act)
    ensures StillFormed(Next(s, act)) && (Unharmed(Next(s, act)) <==> !Endangers(s, act))
  {
    PassHarmsMarkers(s, act);
    PassHarmsOwners(s, act);
  }

  lemma {:induction false} StepHarms(s: State, act: Action)
    requires Guarded(s) && Enabled(s, act)
    ensures StillFormed(Next(s, act)) && (Unharmed(Next(s, act)) <==> !Endangers(s, act))
  {
    match act
    case StartImport(_, _, _, _) => StartHarms(s, act);
    case Freeze(_, _) => FreezeHarms(s, act);
    case Finish(_) => FinishHarms(s, act);
    case ClearMarker(_) => MarkerHarms(s, act);
    case RollbackMark(_) => MarkerHarms(s, act);
    case HandOff(_, applied) => if applied { ArrivalHarms(s, act); } else { QuietHarms(s, act); }
    case RollbackUnfreeze(_, applied, _) => if applied { ArrivalHarms(s, act); } else { QuietHarms(s, act); }
    case AbortArrives(_, _) => ArrivalHarms(s, act);
    case DisownArrives(_, _, _) => ArrivalHarms(s, act);
    case Recover(_, _, _, _) => PassHarms(s, act);
    case Open(_) => QuietHarms(s, act);
    case Mark(_) => QuietHarms(s, act);
    case Overwrite(_) => QuietHarms(s, act);
    case Crash(_) => QuietHarms(s, act);
    case ClientWrite(_, _) => QuietHarms(s, act);
  }

  /** Whatever endangers an owner is kept out by a guard. */
  lemma {:induction false} GuardsSuffice(s: State, act: Action)
    requires Guarded(s) && Enabled(s, act) && Endangers(s, act)
    ensures LosesTrack(s, act)
  {
    match act
    case StartImport(_, u, dest, _) => assert Vouches(s, dest, u, s.owner[u]);
    case Freeze(id, _) =>
      var i := s.imports[id];
      if OwnerFrozen(s, i.unit, i.src) { assert Vouches(s, i.src, i.unit, s.owner[i.unit]); }
    case Finish(id) => assert Vouches(s, s.imports[id].dest, s.imports[id].unit, s.owner[s.imports[id].unit]);
    case ClearMarker(id) => assert Vouches(s, s.imports[id].dest, s.imports[id].unit, s.owner[s.imports[id].unit]);
    case RollbackMark(id) => assert Vouches(s, s.imports[id].dest, s.imports[id].unit, s.owner[s.imports[id].unit]);
    case HandOff(id, _) => EndangeredNotDue(s, s.imports[id].src, s.imports[id].dest, s.imports[id].unit);
    case DisownArrives(u, src, dest) => EndangeredNotDue(s, src, dest, u);
    case Recover(rows, answered, reachable, lost) =>
      if dest, u :| u in s.owner && DisownArrived(Plan(rows, reachable), lost, s.owner[u], dest, u) {
        PlanDisownsJustified(rows, reachable);
        assert MoveAway(s.owner[u], dest, u) in Plan(rows, reachable);
        assert Row(s.owner[u], u, Migrating(dest)) in rows;
        assert Frozen(s, s.owner[u], u, dest);
      }
    case _ =>
  }

  lemma {:induction false} EndangeredNotDue(s: State, src: string, dest: string, u: Unit)
    requires Guarded(s) && (Owns(s, src, u) || OwnerFrozen(s, u, src))
    ensures !Due(s, src, dest, u)
  {
    if OwnerFrozen(s, u, src) { assert Marked(s, src, u, s.owner[u]); }
    if Owns(s, src, u) && Frozen(s, src, u, dest) { assert Frozen(s, s.owner[u], u, dest); }
  }

  lemma {:induction false} GuardedNeverLoses(s: State, acts: seq<Action>)
    requires Guarded(s) && Careful(s, acts)
    ensures OwnersHold(Run(s, acts))
    decreases |acts|
  {
    if acts != [] {
      StepHarms(s, acts[0]);
      if Endangers(s, acts[0]) { GuardsSuffice(s, acts[0]); }
      GuardedNeverLoses(Next(s, acts[0]), acts[1..]);
    }
  }

  lemma {:induction false} PassFreezesNobody(s: State, act: Action, u: Unit, dest: string)
    requires act.Recover? && Enabled(s, act) && OwnerFrozen(Next(s, act), u, dest)
    ensures u in s.owner && Next(s, act).owner[u] == s.owner[u] && Frozen(s, s.owner[u], u, dest)
  {
    ExecutedPass(s, Plan(act.rows, act.reachable), act.lost);
    assert Next(s, act) == ExecuteAll(s, Plan(act.rows, act.reachable), act.lost);
  }

  lemma {:induction false} ImportFreezesNobody(s: State, act: Action, u: Unit, dest: string)
    requires act.StartImport? || act.Open? || act.Mark? || act.Finish? || act.ClearMarker? || act.RollbackMark? || act.Overwrite?
    requires Enabled(s, act) && OwnerFrozen(Next(s, act), u, dest)
    ensures u in s.owner && Next(s, act).owner[u] == s.owner[u] && Frozen(s, s.owner[u], u, dest)
  {
  }

  lemma {:induction false} ArrivalFreezesNobody(s: State, act: Action, u: Unit, dest: string)
    requires act.HandOff? || act.RollbackUnfreeze? || act.Crash? || act.ClientWrite? || act.AbortArrives? || act.DisownArrives?
    requires Enabled(s, act) && OwnerFrozen(Next(s, act), u, dest)
    ensures u in s.owner && Next(s, act).owner[u] == s.owner[u] && Frozen(s, s.owner[u], u, dest)
  {
  }

  lemma {:induction false} FreezeFreezesOne(s: State, act: Action, u: Unit, dest: string)
    requires act.Freeze? && Guarded(s) && Enabled(s, act) && OwnerFrozen(Next(s, act), u, dest)
    ensures Next(s, act).owner[u] != dest
  {
    var i := s.imports[act.id];
    if !(i.unit == u && i.src == s.owner[u]) { assert Frozen(s, s.owner[u], u, dest); }
  }

  /** A step from a guarded state freezes no owner for itself. */
  lemma {:induction false} NotFrozenForItself(s: State, act: Action, u: Unit, dest: string)
    requires Guarded(s) && Enabled(s, act) && OwnerFrozen(Next(s, act), u, dest)
    ensures Next(s, act).owner[u] != dest
  {
    match act
    case Recover(_, _, _, _) => PassFreezesNobody(s, act, u, dest);
    case Freeze(_, _) => FreezeFreezesOne(s, act, u, dest);
    case StartImport(_, _, _, _) => ImportFreezesNobody(s, act, u, dest);
    case Open(_) => ImportFreezesNobody(s, act, u, dest);
    case Mark(_) => ImportFreezesNobody(s, act, u, dest);
    case Finish(_) => ImportFreezesNobody(s, act, u, dest);
    case ClearMarker(_) => ImportFreezesNobody(s, act, u, dest);
    case RollbackMark(_) => ImportFreezesNobody(s, act, u, dest);
    case Overwrite(_) => ImportFreezesNobody(s, act, u, dest);
    case _ => ArrivalFreezesNobody(s, act, u, dest);
  }

  lemma {:induction false} HarmedCanLose(s: State, act: Action)
    requires Guarded(s) && Enabled(s, act) && !Unharmed(Next(s, act))
    ensures CanLose(Next(s, act))
  {
    var s' := Next(s, act);
    if !OwnersHold(s') {
      LostAlready(s');
    } else {
      var u, dest :| u in s'.owner && Frozen(s', s'.owner[u], u, dest) && !Marked(s', dest, u, s'.owner[u]);
      NotFrozenForItself(s, act, u, dest);
      ExposedCanLose(s', u, dest);
    }
  }

  /**
   * A step leaves some run, itself avoiding every guard, to the loss of an owner's copy exactly when it
   * takes that copy or the marker that vouches for the owner's freeze.
   */
  lemma {:induction false} LossExactly(s: State, act: Action)
    requires Guarded(s) && Enabled(s, act)
    ensures CanLose(Next(s, act)) <==> Endangers(s, act)
  {
    StepHarms(s, act);
    if Endangers(s, act) {
      HarmedCanLose(s, act);
    } else if acts :| LosesBy(Next(s, act), acts) {
      GuardedNeverLoses(Next(s, act), acts);
    }
  }

  /** So it is over every careful run from the start, and whatever step comes next. */
  lemma {:induction false} LossExactlyInRuns(s: State, acts: seq<Action>, act: Action)
    requires Start(s) && Careful(s, acts) && Enabled(Run(s, acts), act)
    ensures CanLose(Next(Run(s, acts), act)) <==> Endangers(Run(s, acts), act)
    ensures Endangers(Run(s, acts), act) ==> LosesTrack(Run(s, acts), act)
  {
    StartIsSound(s);
    RunKeepsInv(s, acts);
    SoundIsGuarded(Run(s, acts));
    LossExactly(Run(s, acts), act);
    if Endangers(Run(s, acts), act) { GuardsSuffice(Run(s, acts), act); }
  }
}
