/**
 * Slot moves between nodes and the controller's recovery of interrupted ones. A unit is one
 * namespace's slot. The destination of a move pulls, freezes the source, drains, takes over and
 * tells the source to disown; any of it may stop half-way and be picked up by a recovery pass.
 */
module SlotMoves {
  import opened Basics

  datatype Unit = Unit(ns: string, slot: nat)

  datatype Key = Key(node: string, unit: Unit)

  /** A node's durable record for a unit. No record means the node serves what it holds. */
  datatype Record = Importing(peer: string) | Migrating(peer: string) | Aborted(peer: string) | Moved(peer: string)

  /**
   * How far a live import has come. `Draining` is the destination knowing the source is frozen,
   * `Clearing` its knowing the source was let go again.
   */
  datatype Phase = Starting | Pulling | Draining | Aborting | Clearing | HandingOff

  /** `marks` are the caught-up marks the source has sent and the destination has not read, oldest first. */
  datatype Import = Import(unit: Unit, dest: string, src: string, phase: Phase, marks: seq<nat>)

  /**
   * `holders` are the nodes whose copy of a unit has every acknowledged write; `owner` is one of
   * them, the last to take a write or to finish a whole import; `positions` count what a node has
   * written to a unit, a client's write or an import taken over; `imports` are the FLINTMIGRATEIN
   * calls now running, any number of them for one unit; `finished` records (destination, source)
   * pairs whose last import ran to its end.
   */
  datatype State = State(records: map<Key, Record>, holders: set<Key>, owner: map<Unit, string>, positions: map<Key, nat>,
                         imports: map<nat, Import>, finished: set<(Key, string)>)

  function Position(s: State, node: string, u: Unit): nat {
    if Key(node, u) in s.positions then s.positions[Key(node, u)] else 0
  }

  function RecordOf(s: State, node: string, u: Unit): Option<Record> {
    if Key(node, u) in s.records then Some(s.records[Key(node, u)]) else None
  }

  function Put(s: State, node: string, u: Unit, r: Record): State {
    s.(records := s.records[Key(node, u) := r])
  }

  function Clear(s: State, node: string, u: Unit): State {
    s.(records := s.records - {Key(node, u)})
  }

  // ---- the node commands -----------------------------------------------------

  /** FLINTSLOTABORT. An abandoned import is recorded, not forgotten; settled ownership is refused. */
  function SlotAbort(s: State, node: string, u: Unit): State {
    match RecordOf(s, node, u)
    case Some(Moved(_)) => s
    case Some(Importing(peer)) => Put(s, node, u, Aborted(peer))
    case Some(_) => Clear(s, node, u)
    case None => s
  }

  predicate AbortAnswersOk(s: State, node: string, u: Unit) {
    var r := RecordOf(s, node, u);
    !(r.Some? && r.value.Moved?)
  }

  /** FLINTSLOTMOVED: the node disowns the unit and purges its rows, whatever its record was. */
  function SlotMoved(s: State, node: string, u: Unit, to: string): State {
    Put(s, node, u, Moved(to)).(holders := s.holders - {Key(node, u)})
  }

  // ---- recovery ----------------------------------------------------------------

  /** One row of FLINTMIGRATIONS as the controller keeps it. */
  datatype Row = Row(node: string, unit: Unit, record: Record)

  datatype Command =
    | Resume(dest: string, src: string, unit: Unit)
    | Abort(node: string, unit: Unit)
    | MoveAway(src: string, dest: string, unit: Unit)

  /** The rows match on node and slot; the namespace plays no part. */
  predicate SomeImporting(rows: seq<Row>, node: string, slot: nat) {
    exists i :: 0 <= i < |rows| && rows[i].record.Importing? && rows[i].node == node && rows[i].unit.slot == slot
  }

  predicate SomeAborted(rows: seq<Row>, node: string, slot: nat) {
    exists i :: 0 <= i < |rows| && rows[i].record.Aborted? && rows[i].node == node && rows[i].unit.slot == slot
  }

  predicate SomeMigrating(rows: seq<Row>, node: string, slot: nat) {
    exists i :: 0 <= i < |rows| && rows[i].record.Migrating? && rows[i].node == node && rows[i].unit.slot == slot
  }

  function ForImporting(r: Row, reachable: set<string>): seq<Command>
    requires r.record.Importing?
  {
    if r.record.peer in reachable then [Resume(r.node, r.record.peer, r.unit)] else [Abort(r.node, r.unit)]
  }

  function ForMigrating(rows: seq<Row>, r: Row, reachable: set<string>): seq<Command>
    requires r.record.Migrating?
  {
    var dest := r.record.peer;
    if SomeImporting(rows, dest, r.unit.slot) then []
    else if SomeAborted(rows, dest, r.unit.slot) then [Abort(r.node, r.unit), Abort(dest, r.unit)]
    else if dest in reachable then [MoveAway(r.node, dest, r.unit)]
    else [Abort(r.node, r.unit)]
  }

  function ForAborted(rows: seq<Row>, r: Row): seq<Command>
    requires r.record.Aborted?
  {
    if SomeMigrating(rows, r.record.peer, r.unit.slot) then [] else [Abort(r.node, r.unit)]
  }

  function ImportingPart(part: seq<Row>, reachable: set<string>): seq<Command> {
    if part == [] then [] else
    (if part[0].record.Importing? then ForImporting(part[0], reachable) else []) + ImportingPart(part[1..], reachable)
  }

  function MigratingPart(rows: seq<Row>, part: seq<Row>, reachable: set<string>): seq<Command> {
    if part == [] then [] else
    (if part[0].record.Migrating? then ForMigrating(rows, part[0], reachable) else [])
    + MigratingPart(rows, part[1..], reachable)
  }

  function AbortedPart(rows: seq<Row>, part: seq<Row>): seq<Command> {
    if part == [] then [] else
    (if part[0].record.Aborted? then ForAborted(rows, part[0]) else []) + AbortedPart(rows, part[1..])
  }

  /** The commands one recovery pass issues for the rows it read. */
  function Plan(rows: seq<Row>, reachable: set<string>): seq<Command> {
    ImportingPart(rows, reachable) + MigratingPart(rows, rows, reachable) + AbortedPart(rows, rows)
  }

  method ResumeImports(rows: seq<Row>, reachable: set<string>) returns (commands: seq<Command>)
    ensures commands == ImportingPart(rows, reachable)
  {
    commands := [];
    for i := 0 to |rows|
      invariant commands + ImportingPart(rows[i..], reachable) == ImportingPart(rows, reachable)
    {
      if rows[i].record.Importing? {
        commands := commands + ForImporting(rows[i], reachable);
      }
    }
    assert commands == commands + ImportingPart(rows[|rows|..], reachable);
  }

  method SettleFrozen(rows: seq<Row>, reachable: set<string>) returns (commands: seq<Command>)
    ensures commands == MigratingPart(rows, rows, reachable)
  {
    commands := [];
    for i := 0 to |rows|
      invariant commands + MigratingPart(rows, rows[i..], reachable) == MigratingPart(rows, rows, reachable)
    {
      if rows[i].record.Migrating? {
        commands := commands + ForMigrating(rows, rows[i], reachable);
      }
    }
    assert commands == commands + MigratingPart(rows, rows[|rows|..], reachable);
  }

  method ClearAborted(rows: seq<Row>) returns (commands: seq<Command>)
    ensures commands == AbortedPart(rows, rows)
  {
    commands := [];
    for i := 0 to |rows|
      invariant commands + AbortedPart(rows, rows[i..]) == AbortedPart(rows, rows)
    {
      if rows[i].record.Aborted? {
        commands := commands + ForAborted(rows, rows[i]);
      }
    }
    assert commands == commands + AbortedPart(rows, rows[|rows|..]);
  }

  /** The pass as the controller runs it: one loop over each of the lists it filled. */
  method RecoverMigrations(rows: seq<Row>, reachable: set<string>) returns (commands: seq<Command>)
    ensures commands == Plan(rows, reachable)
  {
    var resumed := ResumeImports(rows, reachable);
    var settled := SettleFrozen(rows, reachable);
    var cleared := ClearAborted(rows);
    commands := resumed + settled + cleared;
  }

  /** The rows list exactly, and once each, the unsettled records of the nodes that answered. */
  ghost predicate Lists(s: State, rows: seq<Row>, answered: set<string>) {
    && Distinct(rows)
    && (forall r :: r in rows ==> r.node in answered && Key(r.node, r.unit) in s.records
                                  && s.records[Key(r.node, r.unit)] == r.record && !r.record.Moved?)
    && (forall k :: k in s.records && k.node in answered && !s.records[k].Moved?
                    ==> Row(k.node, k.unit, s.records[k]) in rows)
  }

  predicate Distinct(rows: seq<Row>) {
    forall i, j :: 0 <= i < j < |rows| ==> rows[i] != rows[j]
  }

  /** Every destination a frozen source names was among those that answered. */
  predicate DestinationsAnswered(rows: seq<Row>, answered: set<string>) {
    forall r :: r in rows && r.record.Migrating? ==> r.record.peer in answered
  }

  /** A resumed import is a new import; its steps are actions of their own. */
  function Execute(s: State, c: Command): State {
    match c
    case Resume(_, _, _) => s
    case Abort(node, u) => SlotAbort(s, node, u)
    case MoveAway(src, dest, u) => SlotMoved(s, src, u, dest)
  }

  /** Run the commands in order; those whose index is in `lost` never arrive, and nobody notices. */
  function ExecuteAll(s: State, commands: seq<Command>, lost: set<nat>): State {
    if commands == [] then s else
    var n := |commands| - 1;
    var before := ExecuteAll(s, commands[..n], lost);
    if n in lost then before else Execute(before, commands[n])
  }

  // ---- the steps -------------------------------------------------------------------

  /**
   * `StartImport` is FLINTMIGRATEIN, from the planner or from a recovery pass that resumes a move; it
   * may be one of several for a unit, even into one node.
   * `Mark` is the source telling how far the stream has come, which it does on a timer as well; the
   * destination freezes the source at the first mark it reads and takes over at the next. `Overwrite` is a stream from an incomplete copy reaching the destination: older
   * rows, or the deletes of a purge. `Recover` is a pass that acts at once on what it read;
   * `AbortArrives` and `DisownArrives` are its commands arriving at any other time, or sent by hand.
   */
  datatype Action =
    | StartImport(id: nat, unit: Unit, dest: string, src: string)
    | Open(id: nat)
    | Freeze(id: nat, heard: bool)
    | Mark(id: nat)
    | Finish(id: nat)
    | HandOff(id: nat, applied: bool)
    | ClearMarker(id: nat)
    | RollbackMark(id: nat)
    | RollbackUnfreeze(id: nat, applied: bool, heard: bool)
    | Overwrite(id: nat)
    | Crash(node: string)
    | ClientWrite(unit: Unit, node: string)
    | AbortArrives(unit: Unit, node: string)
    | DisownArrives(unit: Unit, src: string, dest: string)
    | Recover(rows: seq<Row>, answered: set<string>, reachable: set<string>, lost: set<nat>)

  predicate Streams(i: Import) { i.phase.Pulling? || i.phase.Draining? }

  ghost predicate Enabled(s: State, act: Action) {
    match act
    case StartImport(id, u, dest, src) => id !in s.imports && u in s.owner && dest != src
    case Open(id) =>
      // the source refuses to stream a unit it has moved away or is importing
      && id in s.imports && s.imports[id].phase.Starting?
      && var r := RecordOf(s, s.imports[id].src, s.imports[id].unit);
         r.Some? ==> !r.value.Moved? && !r.value.Importing?
    case Freeze(id, _) => id in s.imports && s.imports[id].phase.Pulling? && s.imports[id].marks != []
    case Mark(id) => id in s.imports && Streams(s.imports[id])
    case Finish(id) => id in s.imports && s.imports[id].phase.Draining? && s.imports[id].marks != []
    case HandOff(id, _) => id in s.imports && s.imports[id].phase.HandingOff?
    case ClearMarker(id) =>
      id in s.imports && (s.imports[id].phase.Starting? || s.imports[id].phase.Pulling? || s.imports[id].phase.Clearing?)
    case RollbackMark(id) =>
      // from `HandingOff` when the imported rows cannot be made durable
      id in s.imports && (s.imports[id].phase.Draining? || s.imports[id].phase.HandingOff?)
    case RollbackUnfreeze(id, _, _) => id in s.imports && s.imports[id].phase.Aborting?
    case Overwrite(id) =>
      id in s.imports && Streams(s.imports[id]) && Key(s.imports[id].src, s.imports[id].unit) !in s.holders
    case Crash(_) => true
    case ClientWrite(u, node) => RecordOf(s, node, u).None? && u in s.owner
    case AbortArrives(_, _) => true
    case DisownArrives(_, _, _) => true
    case Recover(rows, answered, _, _) => Lists(s, rows, answered)
  }

  /** The next mark to be read was made after all the source has written, and the source has everything. */
  predicate Whole(s: State, id: nat)
    requires id in s.imports && s.imports[id].marks != []
  {
    var i := s.imports[id];
    Key(i.src, i.unit) in s.holders && i.marks[0] == Position(s, i.src, i.unit)
  }

  /** The node has written to the unit once more. */
  function Wrote(s: State, node: string, u: Unit): State {
    s.(positions := s.positions[Key(node, u) := Position(s, node, u) + 1])
  }

  /** The destination has read the oldest mark. */
  function Read(s: State, id: nat): State
    requires id in s.imports && s.imports[id].marks != []
  {
    s.(imports := s.imports[id := s.imports[id].(marks := s.imports[id].marks[1..])])
  }

  function Stop(s: State, id: nat): State { s.(imports := s.imports - {id}) }

  function At(s: State, id: nat, p: Phase): State
    requires id in s.imports
  {
    s.(imports := s.imports[id := s.imports[id].(phase := p)])
  }

  function Next(s: State, act: Action): State
    requires Enabled(s, act)
  {
    match act
    case StartImport(id, u, dest, src) =>
      // the destination starts over: it does not remember whether an earlier attempt froze the source
      Put(s, dest, u, Importing(src)).(imports := s.imports[id := Import(u, dest, src, Starting, [])],
                                        finished := s.finished - {(Key(dest, u), src)})
    case Open(id) => At(s, id, Pulling)
    case Freeze(id, heard) =>
      var i := s.imports[id];
      var frozen := Put(s, i.src, i.unit, Migrating(i.dest));
      if heard then At(Read(frozen, id), id, Draining) else frozen
    case Mark(id) =>
      var i := s.imports[id];
      s.(imports := s.imports[id := i.(marks := i.marks + [Position(s, i.src, i.unit)])])
    case Finish(id) =>
      var i := s.imports[id];
      At(Wrote(Clear(Read(s, id), i.dest, i.unit), i.dest, i.unit), id, HandingOff)
        .(holders := if Whole(s, id) then s.holders + {Key(i.dest, i.unit)} else s.holders,
          owner := if Whole(s, id) then s.owner[i.unit := i.dest] else s.owner,
          finished := s.finished + {(Key(i.dest, i.unit), i.src)})
    case HandOff(id, applied) =>
      var i := s.imports[id];
      Stop(if applied then SlotMoved(s, i.src, i.unit, i.dest) else s, id)
    case ClearMarker(id) => Stop(Clear(s, s.imports[id].dest, s.imports[id].unit), id)
    case RollbackMark(id) =>
      var i := s.imports[id];
      At(Put(s, i.dest, i.unit, Aborted(i.src)), id, Aborting).(finished := s.finished - {(Key(i.dest, i.unit), i.src)})
    case RollbackUnfreeze(id, applied, heard) =>
      var i := s.imports[id];
      var unfrozen := if applied then SlotAbort(s, i.src, i.unit) else s;
      if applied && heard && AbortAnswersOk(s, i.src, i.unit) then At(unfrozen, id, Clearing) else Stop(unfrozen, id)
    case Overwrite(id) => s.(holders := s.holders - {Key(s.imports[id].dest, s.imports[id].unit)})
    case Crash(node) =>
      s.(imports := map id | id in s.imports && s.imports[id].dest != node :: s.imports[id])
    case ClientWrite(u, node) =>
      Wrote(s, node, u).(holders := (set k | k in s.holders && (k.unit != u || k.node == node)), owner := s.owner[u := node])
    case AbortArrives(u, node) => SlotAbort(s, node, u)
    case DisownArrives(u, src, dest) => SlotMoved(s, src, u, dest)
    case Recover(rows, answered, reachable, lost) => ExecuteAll(s, Plan(rows, reachable), lost)
  }

  // ---- the invariant -----------------------------------------------------------------

  predicate Frozen(s: State, src: string, u: Unit, dest: string) {
    RecordOf(s, src, u) == Some(Migrating(dest))
  }

  /** The destination says its import from `src` is not done. */
  predicate Marked(s: State, dest: string, u: Unit, src: string) {
    var r := RecordOf(s, dest, u);
    r == Some(Importing(src)) || r == Some(Aborted(src))
  }

  /** The destination ran an import from the source to its end and another node owns the unit. */
  predicate TakenOver(s: State, dest: string, u: Unit, src: string) {
    (Key(dest, u), src) in s.finished && u in s.owner && s.owner[u] != src
  }

  predicate Explained(s: State, dest: string, u: Unit, src: string) {
    Marked(s, dest, u, src) || TakenOver(s, dest, u, src)
  }

  /** Every frozen source's destination either still says so or has taken over. */
  ghost predicate FreezesExplained(s: State) {
    forall dest, u, src {:trigger Frozen(s, src, u, dest)} :: Frozen(s, src, u, dest) ==> Explained(s, dest, u, src)
  }

  ghost predicate MarksUnfinished(s: State) {
    forall dest, u, src {:trigger Marked(s, dest, u, src)} :: Marked(s, dest, u, src) ==> (Key(dest, u), src) !in s.finished
  }

  predicate OwnersHold(s: State) {
    forall u :: u in s.owner ==> Key(s.owner[u], u) in s.holders
  }

  predicate HasMoved(s: State, node: string, u: Unit) {
    RecordOf(s, node, u).Some? && RecordOf(s, node, u).value.Moved?
  }

  ghost predicate MovedHoldNothing(s: State) {
    forall node, u {:trigger HasMoved(s, node, u)} :: HasMoved(s, node, u) ==> Key(node, u) !in s.holders
  }

  predicate ImportsFormed(s: State) {
    forall id :: id in s.imports ==> s.imports[id].dest != s.imports[id].src && s.imports[id].unit in s.owner
  }

  ghost predicate Inv(s: State) {
    OwnersHold(s) && FreezesExplained(s) && MarksUnfinished(s) && MovedHoldNothing(s) && ImportsFormed(s)
  }

  /** Nothing in flight, and every unit has an owner that holds it. */
  predicate Start(s: State) {
    s.records == map[] && s.imports == map[] && OwnersHold(s)
  }

  // ---- what a step must not do -----------------------------------------------------------

  /** One of the commands that arrived addresses this node's record of the unit. */
  predicate Arrived(commands: seq<Command>, lost: set<nat>, node: string, u: Unit) {
    exists i :: 0 <= i < |commands| && i !in lost && Addresses(commands[i], node, u)
  }

  predicate Addresses(c: Command, node: string, u: Unit) {
    match c
    case Resume(_, _, _) => false
    case Abort(n, v) => n == node && v == u
    case MoveAway(src, _, v) => src == node && v == u
  }

  predicate DisownArrived(commands: seq<Command>, lost: set<nat>, src: string, dest: string, u: Unit) {
    exists i :: 0 <= i < |commands| && i !in lost && commands[i] == MoveAway(src, dest, u)
  }

  /** The step makes `src` disown the unit in favour of `dest` and purge its copy. */
  predicate Disowns(s: State, act: Action, src: string, dest: string, u: Unit) {
    match act
    case HandOff(id, applied) =>
      applied && id in s.imports && s.imports[id].src == src && s.imports[id].dest == dest && s.imports[id].unit == u
    case DisownArrives(v, n, d) => n == src && d == dest && v == u
    case Recover(rows, _, reachable, lost) => DisownArrived(Plan(rows, reachable), lost, src, dest, u)
    case _ => false
  }

  /** The source has disowned already, or is still frozen for a destination that has taken over. */
  predicate Proper(s: State, src: string, dest: string, u: Unit) {
    HasMoved(s, src, u) || (Frozen(s, src, u, dest) && TakenOver(s, dest, u, src))
  }

  /** The step keeps the invariant and purges no copy before another node has taken the unit over. */
  ghost predicate Safe(s: State, act: Action)
    requires Enabled(s, act)
  {
    && Inv(Next(s, act))
    && (forall src, dest, u {:trigger Disowns(s, act, src, dest, u)} :: Disowns(s, act, src, dest, u) ==> Proper(s, src, dest, u))
  }

  /** The destination's marker is what tells that `src` is frozen for an unfinished import. */
  predicate Vouches(s: State, dest: string, u: Unit, src: string) {
    Marked(s, dest, u, src) && Frozen(s, src, u, dest)
  }

  /** As above, by a marker that an abort clears. */
  predicate GaveUp(s: State, dest: string, u: Unit, src: string) {
    RecordOf(s, dest, u) == Some(Aborted(src)) && Frozen(s, src, u, dest)
  }

  /** As far as the two records tell, the source may disown the unit. */
  predicate Due(s: State, src: string, dest: string, u: Unit) {
    HasMoved(s, src, u) || (Frozen(s, src, u, dest) && !Marked(s, dest, u, src))
  }

  /** The guards, each visible before the step, of the steps that are not safe. */
  ghost predicate LosesTrack(s: State, act: Action)
    requires Enabled(s, act)
  {
    match act
    case StartImport(_, u, dest, src) =>
      // an import from elsewhere overwrites the marker
      exists prior :: prior != src && Vouches(s, dest, u, prior)
    case Freeze(id, _) =>
      // the destination's marker is gone, or the source carries a marker of its own
      var i := s.imports[id];
      !Explained(s, i.dest, i.unit, i.src) || exists prior :: Vouches(s, i.src, i.unit, prior)
    case Finish(id) =>
      // another import's marker is cleared, or the oldest unread mark is not where the frozen owner is
      var i := s.imports[id];
      || (exists prior :: prior != i.src && Vouches(s, i.dest, i.unit, prior))
      || (&& Frozen(s, i.src, i.unit, i.dest) && i.unit in s.owner && s.owner[i.unit] == i.src
          && i.marks[0] != Position(s, i.src, i.unit))
    case HandOff(id, applied) =>
      applied && !Due(s, s.imports[id].src, s.imports[id].dest, s.imports[id].unit)
    case ClearMarker(id) =>
      // a source is frozen though this attempt did not freeze it, or was frozen again
      exists prior :: Vouches(s, s.imports[id].dest, s.imports[id].unit, prior)
    case RollbackMark(id) =>
      exists prior :: prior != s.imports[id].src && Vouches(s, s.imports[id].dest, s.imports[id].unit, prior)
    case RollbackUnfreeze(id, applied, _) =>
      // the abort sent to the source clears a marker of the source's own
      applied && exists prior :: GaveUp(s, s.imports[id].src, s.imports[id].unit, prior)
    case Overwrite(id) =>
      // a stream from an incomplete copy reaches the owner
      s.imports[id].unit in s.owner && s.owner[s.imports[id].unit] == s.imports[id].dest
    case ClientWrite(u, node) =>
      // the node takes a write on top of an incomplete copy
      Key(node, u) !in s.holders
    case AbortArrives(u, node) => exists prior :: GaveUp(s, node, u, prior)
    case DisownArrives(u, src, dest) => !Due(s, src, dest, u)
    case Recover(rows, _, reachable, lost) =>
      // an abort reached the marked destination and not its frozen source, or a source was disowned
      // though its destination, which did not answer, is marked
      || (exists dest, u, src :: GaveUp(s, dest, u, src)
            && Arrived(Plan(rows, reachable), lost, dest, u) && !Arrived(Plan(rows, reachable), lost, src, u))
      || (exists dest, u, src :: DisownArrived(Plan(rows, reachable), lost, src, dest, u) && Marked(s, dest, u, src))
    case _ => false
  }

  // ---- exactly which steps are safe ---------------------------------------------------------

  /** A frozen source is either still vouched for or taken over, never both. */
  lemma {:induction false} MarkedOrTaken(s: State, dest: string, u: Unit, src: string)
    requires FreezesExplained(s) && MarksUnfinished(s) && Frozen(s, src, u, dest)
    ensures Marked(s, dest, u, src) <==> !TakenOver(s, dest, u, src)
  {
  }

  lemma {:induction false} DueExactly(s: State, src: string, dest: string, u: Unit)
    requires Inv(s)
    ensures Due(s, src, dest, u) <==> Proper(s, src, dest, u)
    ensures Due(s, src, dest, u) && u in s.owner ==> s.owner[u] != src
  {
    if Frozen(s, src, u, dest) { MarkedOrTaken(s, dest, u, src); }
  }

  lemma {:induction false} StartExactly(s: State, act: Action)
    requires act.StartImport? && Inv(s) && Enabled(s, act)
    ensures Safe(s, act) <==> !LosesTrack(s, act)
  {
    var s', u, dest, src := Next(s, act), act.unit, act.dest, act.src;
    forall d, v, p | Frozen(s', p, v, d)
      ensures Explained(s', d, v, p) <==> !(d == dest && v == u && p != src && Vouches(s, dest, u, p))
    {
      assert Frozen(s, p, v, d);
    }
    forall d, v, p | Marked(s', d, v, p) ensures (Key(d, v), p) !in s'.finished {
      if !(d == dest && v == u) { assert Marked(s, d, v, p); }
    }
    forall n, v | HasMoved(s', n, v) ensures Key(n, v) !in s'.holders { assert HasMoved(s, n, v); }
    forall p | p != src && Vouches(s, dest, u, p) ensures Frozen(s', p, u, dest) { }
  }

  /** A step that leaves the records, the owners and the finished imports alone and gains no holder. */
  lemma {:induction false} RecordsKept(s: State, s': State)
    requires FreezesExplained(s) && MarksUnfinished(s) && MovedHoldNothing(s)
    requires s'.records == s.records && s'.owner == s.owner && s'.finished == s.finished && s'.holders <= s.holders
    ensures FreezesExplained(s') && MarksUnfinished(s') && MovedHoldNothing(s')
  {
    forall d, v, p | Frozen(s', p, v, d) ensures Explained(s', d, v, p) { assert Frozen(s, p, v, d); }
    forall d, v, p | Marked(s', d, v, p) ensures (Key(d, v), p) !in s'.finished { assert Marked(s, d, v, p); }
    forall n, v | HasMoved(s', n, v) ensures Key(n, v) !in s'.holders { assert HasMoved(s, n, v); }
  }

  lemma {:induction false} FreezeExactly(s: State, act: Action)
    requires act.Freeze? && Inv(s) && Enabled(s, act)
    ensures Safe(s, act) <==> !LosesTrack(s, act)
  {
    var s', i := Next(s, act), s.imports[act.id];
    var u, dest, src := i.unit, i.dest, i.src;
    forall d, v, p | Frozen(s', p, v, d)
      ensures Explained(s', d, v, p) <==>
              if p == src && v == u then Explained(s, dest, u, src) else !(d == src && v == u && Vouches(s, src, u, p))
    {
      if !(p == src && v == u) { assert Frozen(s, p, v, d); }
    }
    forall d, v, p | Marked(s', d, v, p) ensures (Key(d, v), p) !in s'.finished { assert Marked(s, d, v, p); }
    forall n, v | HasMoved(s', n, v) ensures Key(n, v) !in s'.holders { assert HasMoved(s, n, v); }
    assert Frozen(s', src, u, dest);
    forall p | Vouches(s, src, u, p) ensures p != src && Frozen(s', p, u, src) { }
  }

  /** What clearing or overwriting the destination's record costs. */
  lemma {:induction false} FinishExactly(s: State, act: Action)
    requires act.Finish? && Inv(s) && Enabled(s, act)
    ensures Safe(s, act) <==> !LosesTrack(s, act)
  {
    var s', i := Next(s, act), s.imports[act.id];
    var u, dest, src := i.unit, i.dest, i.src;
    forall d, v, p | Frozen(s', p, v, d)
      ensures Explained(s', d, v, p) <==>
              !(d == dest && v == u && (if p == src then !Whole(s, act.id) && s.owner[u] == src else Vouches(s, dest, u, p)))
    {
      assert Frozen(s, p, v, d);
      assert !(p == dest && v == u);
    }
    forall d, v, p | Marked(s', d, v, p) ensures (Key(d, v), p) !in s'.finished { assert Marked(s, d, v, p); }
    forall n, v | HasMoved(s', n, v) ensures Key(n, v) !in s'.holders { assert HasMoved(s, n, v); }
    forall p | p != src && Vouches(s, dest, u, p) ensures Frozen(s', p, u, dest) { }
    assert Frozen(s, src, u, dest) ==> Frozen(s', src, u, dest);
  }

  lemma {:induction false} DisownExactly(s: State, act: Action, src: string, dest: string, u: Unit)
    requires Inv(s) && Enabled(s, act) && Disowns(s, act, src, dest, u) && !act.Recover?
    requires forall a, b, v :: Disowns(s, act, a, b, v) ==> a == src && b == dest && v == u
    requires var s' := Next(s, act); s'.(imports := s.imports) == SlotMoved(s, src, u, dest) && ImportsFormed(s')
    ensures Safe(s, act) <==> Due(s, src, dest, u)
  {
    var s' := Next(s, act);
    DueExactly(s, src, dest, u);
    if Due(s, src, dest, u) {
      forall d, v, p | Frozen(s', p, v, d) ensures Explained(s', d, v, p) {
        assert Frozen(s, p, v, d);
        assert s'.records == s.records[Key(src, u) := Moved(dest)];
        assert d == src && v == u ==> !Marked(s, src, u, p);
      }
      forall d, v, p | Marked(s', d, v, p) ensures (Key(d, v), p) !in s'.finished { assert Marked(s, d, v, p); }
      forall n, v | HasMoved(s', n, v) ensures Key(n, v) !in s'.holders {
        if !(n == src && v == u) { assert HasMoved(s, n, v); }
      }
    }
  }

  lemma {:induction false} HandOffExactly(s: State, act: Action)
    requires act.HandOff? && Inv(s) && Enabled(s, act)
    ensures Safe(s, act) <==> !LosesTrack(s, act)
  {
    if act.applied {
      DisownExactly(s, act, s.imports[act.id].src, s.imports[act.id].dest, s.imports[act.id].unit);
    } else {
      RecordsKept(s, Next(s, act));
    }
  }

  lemma {:induction false} ClearMarkerExactly(s: State, act: Action)
    requires act.ClearMarker? && Inv(s) && Enabled(s, act)
    ensures Safe(s, act) <==> !LosesTrack(s, act)
  {
    var s', u, dest := Next(s, act), s.imports[act.id].unit, s.imports[act.id].dest;
    forall d, v, p | Frozen(s', p, v, d)
      ensures Explained(s', d, v, p) <==> !(d == dest && v == u && Vouches(s, dest, u, p))
    {
      assert Frozen(s, p, v, d);
      if d == dest && v == u { MarkedOrTaken(s, d, v, p); }
    }
    forall d, v, p | Marked(s', d, v, p) ensures (Key(d, v), p) !in s'.finished { assert Marked(s, d, v, p); }
    forall n, v | HasMoved(s', n, v) ensures Key(n, v) !in s'.holders { assert HasMoved(s, n, v); }
    forall p | Vouches(s, dest, u, p) ensures Frozen(s', p, u, dest) { }
  }

  lemma {:induction false} RollbackMarkExactly(s: State, act: Action)
    requires act.RollbackMark? && Inv(s) && Enabled(s, act)
    ensures Safe(s, act) <==> !LosesTrack(s, act)
  {
    var s', i := Next(s, act), s.imports[act.id];
    var u, dest, src := i.unit, i.dest, i.src;
    forall d, v, p | Frozen(s', p, v, d)
      ensures Explained(s', d, v, p) <==> !(d == dest && v == u && p != src && Vouches(s, dest, u, p))
    {
      assert Frozen(s, p, v, d);
      if d == dest && v == u { MarkedOrTaken(s, d, v, p); }
    }
    forall d, v, p | Marked(s', d, v, p) ensures (Key(d, v), p) !in s'.finished {
      if !(d == dest && v == u) { assert Marked(s, d, v, p); }
    }
    forall n, v | HasMoved(s', n, v) ensures Key(n, v) !in s'.holders { assert HasMoved(s, n, v); }
    forall p | p != src && Vouches(s, dest, u, p) ensures Frozen(s', p, u, dest) { }
  }

  lemma {:induction false} AbortStrikes(s: State, s': State, node: string, u: Unit, n: string, v: Unit)
    requires s'.(imports := s.imports) == SlotAbort(s, node, u)
    ensures RecordOf(s', n, v) == if n == node && v == u then Struck(Abort(node, u), RecordOf(s, n, v)) else RecordOf(s, n, v)
  {
  }

  lemma {:induction false} AbortKeeps(s: State, s': State, node: string, u: Unit)
    requires Inv(s) && s'.(imports := s.imports) == SlotAbort(s, node, u)
    ensures MarksUnfinished(s') && MovedHoldNothing(s') && OwnersHold(s')
  {
    forall d, v, p | Marked(s', d, v, p) ensures (Key(d, v), p) !in s'.finished {
      AbortStrikes(s, s', node, u, d, v);
      assert Marked(s, d, v, p);
    }
    forall n, v | HasMoved(s', n, v) ensures Key(n, v) !in s'.holders {
      AbortStrikes(s, s', node, u, n, v);
      assert HasMoved(s, n, v);
    }
  }

  /** An abort that arrives at `node` forgets a frozen source exactly when it clears that source's marker. */
  lemma {:induction false} AbortExactly(s: State, s': State, node: string, u: Unit)
    requires Inv(s) && s'.(imports := s.imports) == SlotAbort(s, node, u) && ImportsFormed(s')
    ensures Inv(s') <==> !exists prior :: GaveUp(s, node, u, prior)
  {
    AbortKeeps(s, s', node, u);
    forall d, v, p | Frozen(s', p, v, d)
      ensures Explained(s', d, v, p) <==> !(d == node && v == u && GaveUp(s, node, u, p))
    {
      AbortStrikes(s, s', node, u, p, v);
      AbortStrikes(s, s', node, u, d, v);
      assert Frozen(s, p, v, d);
      MarkedOrTaken(s, d, v, p);
    }
    forall p | GaveUp(s, node, u, p) ensures Frozen(s', p, u, node) { AbortStrikes(s, s', node, u, p, u); }
  }

  lemma {:induction false} WriteExactly(s: State, act: Action)
    requires act.ClientWrite? && Inv(s) && Enabled(s, act)
    ensures Safe(s, act) <==> !LosesTrack(s, act)
  {
    var s' := Next(s, act);
    assert Key(act.node, act.unit) !in s.holders ==> Key(s'.owner[act.unit], act.unit) !in s'.holders;
    forall d, v, p | Frozen(s', p, v, d) ensures Explained(s', d, v, p) { assert Frozen(s, p, v, d); }
    forall d, v, p | Marked(s', d, v, p) ensures (Key(d, v), p) !in s'.finished { assert Marked(s, d, v, p); }
    forall n, v | HasMoved(s', n, v) ensures Key(n, v) !in s'.holders { assert HasMoved(s, n, v); }
  }

  lemma {:induction false} OverwriteExactly(s: State, act: Action)
    requires act.Overwrite? && Inv(s) && Enabled(s, act)
    ensures Safe(s, act) <==> !LosesTrack(s, act)
  {
    RecordsKept(s, Next(s, act));
  }

  // ---- what a recovery pass does ----------------------------------------------------------

  /** A source is told to disown only if no row says its destination is not done with the slot. */
  predicate DisownJustified(rows: seq<Row>, c: Command) {
    c.MoveAway? ==> (&& Row(c.src, c.unit, Migrating(c.dest)) in rows
                     && !SomeImporting(rows, c.dest, c.unit.slot) && !SomeAborted(rows, c.dest, c.unit.slot))
  }

  lemma {:induction false} ImportingPartNeverDisowns(part: seq<Row>, reachable: set<string>, c: Command)
    requires c in ImportingPart(part, reachable)
    ensures !c.MoveAway?
  {
    if !(part[0].record.Importing? && c in ForImporting(part[0], reachable)) {
      ImportingPartNeverDisowns(part[1..], reachable, c);
    }
  }

  lemma {:induction false} MigratingPartDisowns(rows: seq<Row>, part: seq<Row>, reachable: set<string>, c: Command)
    requires c in MigratingPart(rows, part, reachable) && forall r :: r in part ==> r in rows
    ensures DisownJustified(rows, c)
  {
    if part[0].record.Migrating? && c in ForMigrating(rows, part[0], reachable) {
      assert part[0] == Row(part[0].node, part[0].unit, Migrating(part[0].record.peer));
    } else {
      MigratingPartDisowns(rows, part[1..], reachable, c);
    }
  }

  lemma {:induction false} AbortedPartNeverDisowns(rows: seq<Row>, part: seq<Row>, c: Command)
    requires c in AbortedPart(rows, part)
    ensures !c.MoveAway?
  {
    if !(part[0].record.Aborted? && c in ForAborted(rows, part[0])) {
      AbortedPartNeverDisowns(rows, part[1..], c);
    }
  }

  lemma {:induction false} PlanDisownsJustified(rows: seq<Row>, reachable: set<string>)
    ensures forall c :: c in Plan(rows, reachable) ==> DisownJustified(rows, c)
  {
    forall c | c in Plan(rows, reachable) ensures DisownJustified(rows, c) {
      if c in MigratingPart(rows, rows, reachable) { MigratingPartDisowns(rows, rows, reachable, c); }
      else if c in ImportingPart(rows, reachable) { ImportingPartNeverDisowns(rows, reachable, c); }
      else { AbortedPartNeverDisowns(rows, rows, c); }
    }
  }

  /**
   * Over a reading that every destination of a frozen source answered, a planned disown goes to a
   * source that is frozen for a destination which has taken over.
   */
  lemma {:induction false} DisownedSourceIsNotOwner(s: State, rows: seq<Row>, answered: set<string>, reachable: set<string>, c: Command)
    requires Inv(s) && Lists(s, rows, answered) && DestinationsAnswered(rows, answered)
    requires c in Plan(rows, reachable) && c.MoveAway?
    ensures Frozen(s, c.src, c.unit, c.dest) && TakenOver(s, c.dest, c.unit, c.src)
    ensures s.owner[c.unit] != c.src && Key(s.owner[c.unit], c.unit) in s.holders
  {
    PlanDisownsJustified(rows, reachable);
    var r := Row(c.src, c.unit, Migrating(c.dest));
    assert r in rows && r.record.peer in answered;
    var k := Key(c.dest, c.unit);
    if k in s.records && !s.records[k].Moved? {
      assert Row(c.dest, c.unit, s.records[k]) in rows;
    }
    assert Frozen(s, c.src, c.unit, c.dest) && !Marked(s, c.dest, c.unit, c.src);
  }

  /** What executing `commands` may have changed. */
  ghost predicate Executed(s: State, commands: seq<Command>, lost: set<nat>, s': State) {
    && s'.owner == s.owner && s'.finished == s.finished && s'.imports == s.imports && s'.positions == s.positions
    && s'.holders <= s.holders
    && (forall dest, u, src {:trigger Frozen(s', src, u, dest)} :: Frozen(s', src, u, dest) ==> Frozen(s, src, u, dest))
    && (forall dest, u, src {:trigger Marked(s', dest, u, src)} :: Marked(s', dest, u, src) ==> Marked(s, dest, u, src))
    && (forall node, u {:trigger HasMoved(s', node, u)} :: HasMoved(s', node, u) ==> HasMoved(s, node, u) || Key(node, u) !in s'.holders)
    && (forall k :: k in s.holders && k !in s'.holders ==> exists dest :: DisownArrived(commands, lost, k.node, dest, k.unit))
  }

  /** What one command may have changed. */
  lemma {:induction false} CommandKeeps(s: State, c: Command)
    ensures var s' := Execute(s, c);
            && s'.owner == s.owner && s'.finished == s.finished && s'.imports == s.imports && s'.positions == s.positions
            && s'.holders <= s.holders
            && (forall dest, u, src {:trigger Frozen(s', src, u, dest)} :: Frozen(s', src, u, dest) ==> Frozen(s, src, u, dest))
            && (forall dest, u, src {:trigger Marked(s', dest, u, src)} :: Marked(s', dest, u, src) ==> Marked(s, dest, u, src))
            && (forall node, u {:trigger HasMoved(s', node, u)} :: HasMoved(s', node, u) ==> HasMoved(s, node, u) || Key(node, u) !in s'.holders)
            && (forall k :: k in s.holders && k !in s'.holders ==> c.MoveAway? && c == MoveAway(k.node, c.dest, k.unit))
  {
  }

  lemma {:induction false} ExecutedPass(s: State, commands: seq<Command>, lost: set<nat>)
    ensures Executed(s, commands, lost, ExecuteAll(s, commands, lost))
    decreases |commands|
  {
    if commands != [] {
      var n := |commands| - 1;
      var front, c := commands[..n], commands[n];
      ExecutedPass(s, front, lost);
      var mid, s' := ExecuteAll(s, front, lost), ExecuteAll(s, commands, lost);
      CommandKeeps(mid, c);
      forall k | k in s.holders && k !in s'.holders
        ensures exists dest :: DisownArrived(commands, lost, k.node, dest, k.unit)
      {
        if k in mid.holders {
          assert commands[n] == MoveAway(k.node, c.dest, k.unit);
          assert DisownArrived(commands, lost, k.node, c.dest, k.unit);
        } else {
          var dest :| DisownArrived(front, lost, k.node, dest, k.unit);
          var i :| 0 <= i < n && i !in lost && front[i] == MoveAway(k.node, dest, k.unit);
          assert commands[i] == front[i];
          assert DisownArrived(commands, lost, k.node, dest, k.unit);
        }
      }
    }
  }

  /** What a command that addresses a record makes of it. */
  function Struck(c: Command, r: Option<Record>): Option<Record> {
    if c.MoveAway? then Some(Moved(c.dest))
    else match r
         case Some(Moved(_)) => r
         case Some(Importing(peer)) => Some(Aborted(peer))
         case _ => None
  }

  lemma {:induction false} CommandStrikes(s: State, c: Command, node: string, u: Unit)
    ensures RecordOf(Execute(s, c), node, u) == if Addresses(c, node, u) then Struck(c, RecordOf(s, node, u)) else RecordOf(s, node, u)
  {
  }

  lemma {:induction false} NotArrivedUnchanged(s: State, commands: seq<Command>, lost: set<nat>, node: string, u: Unit)
    requires !Arrived(commands, lost, node, u)
    ensures RecordOf(ExecuteAll(s, commands, lost), node, u) == RecordOf(s, node, u)
    decreases |commands|
  {
    if commands != [] {
      var n := |commands| - 1;
      assert forall i :: 0 <= i < n ==> commands[..n][i] == commands[i];
      NotArrivedUnchanged(s, commands[..n], lost, node, u);
      assert n !in lost ==> !Addresses(commands[n], node, u);
      CommandStrikes(ExecuteAll(s, commands[..n], lost), commands[n], node, u);
    }
  }

  /** A command that arrives ends a freeze and a marker, unless the marker was an unfinished import. */
  lemma {:induction false} ArrivedEnds(s: State, commands: seq<Command>, lost: set<nat>, node: string, u: Unit)
    requires Arrived(commands, lost, node, u)
    requires RecordOf(s, node, u).Some? && !RecordOf(s, node, u).value.Importing?
    ensures var r := RecordOf(ExecuteAll(s, commands, lost), node, u); r.None? || r.value.Moved?
    decreases |commands|
  {
    var n := |commands| - 1;
    var front := commands[..n];
    assert forall i :: 0 <= i < n ==> front[i] == commands[i];
    CommandStrikes(ExecuteAll(s, front, lost), commands[n], node, u);
    if Arrived(front, lost, node, u) {
      ArrivedEnds(s, front, lost, node, u);
    } else {
      NotArrivedUnchanged(s, front, lost, node, u);
    }
  }

  predicate AtMostOnce(commands: seq<Command>, node: string, u: Unit) {
    forall i, j :: 0 <= i < j < |commands| ==> !(Addresses(commands[i], node, u) && Addresses(commands[j], node, u))
  }

  predicate NeverAddresses(commands: seq<Command>, node: string, u: Unit) {
    forall c :: c in commands ==> !Addresses(c, node, u)
  }

  lemma {:induction false} OnceKeepsMarker(s: State, commands: seq<Command>, lost: set<nat>, dest: string, u: Unit, src: string)
    requires AtMostOnce(commands, dest, u) && (forall c :: c in commands && c.MoveAway? ==> !Addresses(c, dest, u))
    requires RecordOf(s, dest, u) == Some(Importing(src))
    ensures Marked(ExecuteAll(s, commands, lost), dest, u, src)
    ensures NeverAddresses(commands, dest, u) ==> RecordOf(ExecuteAll(s, commands, lost), dest, u) == Some(Importing(src))
    decreases |commands|
  {
    if commands != [] {
      var n := |commands| - 1;
      var front := commands[..n];
      assert forall i :: 0 <= i < n ==> front[i] == commands[i];
      OnceKeepsMarker(s, front, lost, dest, u, src);
      CommandStrikes(ExecuteAll(s, front, lost), commands[n], dest, u);
      assert commands[n] in commands;
      if Addresses(commands[n], dest, u) {
        assert NeverAddresses(front, dest, u);
      }
    }
  }

  /** The row of this node and unit says the import is unfinished, as does no other row of theirs. */
  predicate OnlyImporting(part: seq<Row>, node: string, u: Unit) {
    forall r :: r in part && r.node == node && r.unit == u ==> r.record.Importing?
  }

  predicate NoRow(part: seq<Row>, node: string, u: Unit) {
    forall r :: r in part ==> !(r.node == node && r.unit == u)
  }

  lemma {:induction false} ImportingPartOnce(part: seq<Row>, reachable: set<string>, node: string, u: Unit)
    requires forall i, j :: 0 <= i < j < |part| ==> !(part[i].node == node && part[i].unit == u && part[j].node == node && part[j].unit == u)
    ensures AtMostOnce(ImportingPart(part, reachable), node, u)
    ensures NoRow(part, node, u) ==> NeverAddresses(ImportingPart(part, reachable), node, u)
  {
    if part != [] {
      ImportingPartOnce(part[1..], reachable, node, u);
      assert part[0] in part;
      if part[0].node == node && part[0].unit == u { assert NoRow(part[1..], node, u); }
    }
  }

  lemma {:induction false} MigratingPartSpares(rows: seq<Row>, part: seq<Row>, reachable: set<string>, dest: string, u: Unit)
    requires OnlyImporting(part, dest, u)
    requires SomeImporting(rows, dest, u.slot) || !SomeAborted(rows, dest, u.slot)
    ensures NeverAddresses(MigratingPart(rows, part, reachable), dest, u)
  {
    if part != [] {
      assert part[0] in part;
      assert OnlyImporting(part[1..], dest, u);
      MigratingPartSpares(rows, part[1..], reachable, dest, u);
    }
  }

  lemma {:induction false} AbortedPartSpares(rows: seq<Row>, part: seq<Row>, dest: string, u: Unit)
    requires OnlyImporting(part, dest, u)
    ensures NeverAddresses(AbortedPart(rows, part), dest, u)
  {
    if part != [] {
      assert part[0] in part;
      assert OnlyImporting(part[1..], dest, u);
      AbortedPartSpares(rows, part[1..], dest, u);
    }
  }

  /** A pass leaves an unfinished import marked: as unfinished, or as given up. */
  lemma {:induction false} PassKeepsUnfinishedMark(s: State, rows: seq<Row>, answered: set<string>, reachable: set<string>, lost: set<nat>,
                                dest: string, u: Unit, src: string)
    requires Lists(s, rows, answered) && RecordOf(s, dest, u) == Some(Importing(src))
    ensures Marked(ExecuteAll(s, Plan(rows, reachable), lost), dest, u, src)
  {
    var a, b, c := ImportingPart(rows, reachable), MigratingPart(rows, rows, reachable), AbortedPart(rows, rows);
    assert forall r :: r in rows && r.node == dest && r.unit == u ==> r.record == Importing(src);
    ImportingPartOnce(rows, reachable, dest, u);
    if dest in answered { assert Row(dest, u, Importing(src)) in rows; }
    MigratingPartSpares(rows, rows, reachable, dest, u);
    AbortedPartSpares(rows, rows, dest, u);
    PlanDisownsJustified(rows, reachable);
    forall m | m in Plan(rows, reachable) && m.MoveAway? ensures !Addresses(m, dest, u) {
      assert Row(m.src, m.unit, Migrating(m.dest)) in rows;
    }
    OnceKeepsMarker(s, a + b + c, lost, dest, u, src);
  }

  /** A pass forgets a frozen source exactly when an abort arrives at the marked destination and not at the source. */
  lemma {:induction false} PassForgetsExactly(s: State, rows: seq<Row>, answered: set<string>, reachable: set<string>, lost: set<nat>,
                                              dest: string, u: Unit, src: string)
    requires Lists(s, rows, answered)
    ensures var commands := Plan(rows, reachable); var s' := ExecuteAll(s, commands, lost);
            Vouches(s, dest, u, src) && Frozen(s', src, u, dest) && !Marked(s', dest, u, src) <==>
            GaveUp(s, dest, u, src) && Arrived(commands, lost, dest, u) && !Arrived(commands, lost, src, u)
  {
    var commands := Plan(rows, reachable);
    if RecordOf(s, dest, u) == Some(Importing(src)) {
      PassKeepsUnfinishedMark(s, rows, answered, reachable, lost, dest, u, src);
    } else if GaveUp(s, dest, u, src) {
      if Arrived(commands, lost, dest, u) { ArrivedEnds(s, commands, lost, dest, u); }
      else { NotArrivedUnchanged(s, commands, lost, dest, u); }
      if Arrived(commands, lost, src, u) { ArrivedEnds(s, commands, lost, src, u); }
      else { NotArrivedUnchanged(s, commands, lost, src, u); }
    }
  }

  /** A source a pass makes disown is frozen, so what its destination's record says decides. */
  lemma {:induction false} PassDisownsFrozen(s: State, rows: seq<Row>, answered: set<string>, reachable: set<string>, lost: set<nat>,
                                             src: string, dest: string, u: Unit)
    requires Inv(s) && Lists(s, rows, answered) && DisownArrived(Plan(rows, reachable), lost, src, dest, u)
    ensures Frozen(s, src, u, dest) && (Proper(s, src, dest, u) <==> !Marked(s, dest, u, src))
  {
    PlanDisownsJustified(rows, reachable);
    assert MoveAway(src, dest, u) in Plan(rows, reachable);
    assert Row(src, u, Migrating(dest)) in rows;
    assert Frozen(s, src, u, dest);
    MarkedOrTaken(s, dest, u, src);
  }

  lemma {:induction false} PassKeepsOwners(s: State, rows: seq<Row>, answered: set<string>, reachable: set<string>, lost: set<nat>)
    requires Inv(s) && Lists(s, rows, answered)
    requires forall src, dest, u :: DisownArrived(Plan(rows, reachable), lost, src, dest, u) ==> Proper(s, src, dest, u)
    ensures OwnersHold(ExecuteAll(s, Plan(rows, reachable), lost))
  {
    var commands, s' := Plan(rows, reachable), ExecuteAll(s, Plan(rows, reachable), lost);
    ExecutedPass(s, commands, lost);
    forall u | u in s'.owner ensures Key(s'.owner[u], u) in s'.holders {
      if Key(s.owner[u], u) !in s'.holders {
        var dest :| DisownArrived(commands, lost, s.owner[u], dest, u);
        PassDisownsFrozen(s, rows, answered, reachable, lost, s.owner[u], dest, u);
      }
    }
  }

  lemma {:induction false} PassIsSafe(s: State, act: Action)
    requires act.Recover? && Inv(s) && Enabled(s, act) && !LosesTrack(s, act)
    ensures Safe(s, act)
  {
    var commands, s' := Plan(act.rows, act.reachable), Next(s, act);
    ExecutedPass(s, commands, act.lost);
    forall src, dest, u | Disowns(s, act, src, dest, u) ensures Proper(s, src, dest, u) {
      PassDisownsFrozen(s, act.rows, act.answered, act.reachable, act.lost, src, dest, u);
    }
    forall src, dest, u | DisownArrived(commands, act.lost, src, dest, u) ensures Proper(s, src, dest, u) {
      assert Disowns(s, act, src, dest, u);
    }
    PassKeepsOwners(s, act.rows, act.answered, act.reachable, act.lost);
    forall dest, u, src | Frozen(s', src, u, dest) ensures Explained(s', dest, u, src) {
      PassForgetsExactly(s, act.rows, act.answered, act.reachable, act.lost, dest, u, src);
    }
    assert FreezesExplained(s') && MarksUnfinished(s') && MovedHoldNothing(s');
  }

  lemma {:induction false} PassExactly(s: State, act: Action)
    requires act.Recover? && Inv(s) && Enabled(s, act)
    ensures Safe(s, act) <==> !LosesTrack(s, act)
  {
    var commands, s' := Plan(act.rows, act.reachable), Next(s, act);
    ExecutedPass(s, commands, act.lost);
    if !LosesTrack(s, act) {
      PassIsSafe(s, act);
    } else if dest, u, src :| GaveUp(s, dest, u, src) && Arrived(commands, act.lost, dest, u) && !Arrived(commands, act.lost, src, u) {
      PassForgetsExactly(s, act.rows, act.answered, act.reachable, act.lost, dest, u, src);
      MarkedOrTaken(s, dest, u, src);
      assert Frozen(s', src, u, dest) && !Explained(s', dest, u, src);
    } else {
      var dest, u, src :| DisownArrived(commands, act.lost, src, dest, u) && Marked(s, dest, u, src);
      PassDisownsFrozen(s, act.rows, act.answered, act.reachable, act.lost, src, dest, u);
      assert Disowns(s, act, src, dest, u);
    }
  }

  lemma {:induction false} QuietExactly(s: State, act: Action)
    requires act.Open? || act.Mark? || act.Overwrite? || act.Crash?
    requires Inv(s) && Enabled(s, act)
    ensures Safe(s, act) <==> !LosesTrack(s, act)
  {
    if act.Overwrite? { OverwriteExactly(s, act); } else { RecordsKept(s, Next(s, act)); }
  }

  lemma {:induction false} ArrivalExactly(s: State, act: Action)
    requires act.RollbackUnfreeze? || act.AbortArrives? || act.DisownArrives?
    requires Inv(s) && Enabled(s, act)
    ensures Safe(s, act) <==> !LosesTrack(s, act)
  {
    match act
    case RollbackUnfreeze(id, applied, _) =>
      if applied { AbortExactly(s, Next(s, act), s.imports[id].src, s.imports[id].unit); } else { RecordsKept(s, Next(s, act)); }
    case AbortArrives(u, node) => AbortExactly(s, Next(s, act), node, u);
    case DisownArrives(u, src, dest) => DisownExactly(s, act, src, dest, u);
  }

  lemma {:induction false} OwnersStayKnown(s: State, act: Action)
    requires Enabled(s, act)
    ensures s.owner.Keys <= Next(s, act).owner.Keys
  {
    if act.Recover? { ExecutedPass(s, Plan(act.rows, act.reachable), act.lost); }
  }

  /** A step is safe exactly when its guard in `LosesTrack` does not hold. */
  lemma {:induction false} SafeExactly(s: State, act: Action)
    requires Inv(s) && Enabled(s, act)
    ensures Safe(s, act) <==> !LosesTrack(s, act)
  {
    match act
    case StartImport(_, _, _, _) => StartExactly(s, act);
    case Freeze(_, _) => FreezeExactly(s, act);
    case Finish(_) => FinishExactly(s, act);
    case HandOff(_, _) => HandOffExactly(s, act);
    case ClearMarker(_) => ClearMarkerExactly(s, act);
    case RollbackMark(_) => RollbackMarkExactly(s, act);
    case ClientWrite(_, _) => WriteExactly(s, act);
    case Recover(_, _, _, _) => PassExactly(s, act);
    case Open(_) => QuietExactly(s, act);
    case Mark(_) => QuietExactly(s, act);
    case Overwrite(_) => QuietExactly(s, act);
    case Crash(_) => QuietExactly(s, act);
    case RollbackUnfreeze(_, _, _) => ArrivalExactly(s, act);
    case AbortArrives(_, _) => ArrivalExactly(s, act);
    case DisownArrives(_, _, _) => ArrivalExactly(s, act);
  }

  // ---- safety over whole runs ----------------------------------------------------------------

  /** Every action was possible when taken, and no guard held. */
  ghost predicate Careful(s: State, acts: seq<Action>)
    decreases |acts|
  {
    acts == [] || (&& Enabled(s, acts[0]) && !LosesTrack(s, acts[0])
                   && Careful(Next(s, acts[0]), acts[1..]))
  }

  ghost function Run(s: State, acts: seq<Action>): State
    requires Careful(s, acts)
    decreases |acts|
  {
    if acts == [] then s else Run(Next(s, acts[0]), acts[1..])
  }

  lemma {:induction false} RunKeepsInv(s: State, acts: seq<Action>)
    requires Inv(s) && Careful(s, acts)
    ensures Inv(Run(s, acts)) && s.owner.Keys <= Run(s, acts).owner.Keys
    decreases |acts|
  {
    if acts != [] {
      SafeExactly(s, acts[0]);
      OwnersStayKnown(s, acts[0]);
      RunKeepsInv(Next(s, acts[0]), acts[1..]);
    }
  }

  // ---- every run, unsafe steps included ------------------------------------------------------

  /** Every action was possible when taken. */
  ghost predicate Possible(s: State, acts: seq<Action>)
    decreases |acts|
  {
    acts == [] || (Enabled(s, acts[0]) && Possible(Next(s, acts[0]), acts[1..]))
  }

  ghost function After(s: State, acts: seq<Action>): State
    requires Possible(s, acts)
    decreases |acts|
  {
    if acts == [] then s else After(Next(s, acts[0]), acts[1..])
  }

  lemma {:induction false} StartIsSound(s: State)
    requires Start(s)
    ensures Inv(s)
  {
    assert forall n, u :: RecordOf(s, n, u) == None;
  }

  /** Over every careful run from the start, every unit keeps a full copy, held by its owner. */
  lemma {:induction false} NoRunPurgesTheOnlyCopy(s: State, acts: seq<Action>, u: Unit)
    requires Start(s) && Careful(s, acts) && u in s.owner
    ensures var t := Run(s, acts); u in t.owner && Key(t.owner[u], u) in t.holders
  {
    StartIsSound(s);
    RunKeepsInv(s, acts);
  }

  /**
   * Whatever the next careful step makes disown a unit, by hand-off, by a late command or by a pass,
   * either has disowned it already or is frozen for a destination that ran its import to the end,
   * while another node, which holds everything, owns the unit.
   */
  lemma {:induction false} DisownFollowsFinishedImport(s: State, acts: seq<Action>, act: Action, src: string, dest: string, u: Unit)
    requires Start(s) && Careful(s, acts) && Enabled(Run(s, acts), act) && !LosesTrack(Run(s, acts), act)
    requires Disowns(Run(s, acts), act, src, dest, u)
    ensures var t := Run(s, acts);
            || (HasMoved(t, src, u) && Key(src, u) !in t.holders)
            || (&& Frozen(t, src, u, dest) && (Key(dest, u), src) in t.finished
                && u in t.owner && t.owner[u] != src && Key(t.owner[u], u) in t.holders)
  {
    StartIsSound(s);
    RunKeepsInv(s, acts);
    SafeExactly(Run(s, acts), act);
  }
}
