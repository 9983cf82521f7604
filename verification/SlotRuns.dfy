/**
 * Runs of slot moves, step by step: the ordinary one, and one for each way of losing a unit's only copy.
 * Every run names its actions and says of each whether its guard holds.
 */
module SlotRuns {
  import opened Basics
  import opened SlotMoves

  /** An action whose guard does not hold when it is taken, or one whose guard does. */
  datatype Move = Fine(act: Action) | Risky(act: Action)

  ghost predicate StepsTo(s: State, m: Move, t: State) {
    Enabled(s, m.act) && Next(s, m.act) == t && (m.Risky? <==> LosesTrack(s, m.act))
  }

  /** The moves, each possible and rightly labelled, lead from `s` to `t`. */
  ghost predicate Leads(s: State, moves: seq<Move>, t: State)
    decreases |moves|
  {
    if moves == [] then s == t
    else Enabled(s, moves[0].act) && (moves[0].Risky? <==> LosesTrack(s, moves[0].act)) && Leads(Next(s, moves[0].act), moves[1..], t)
  }

  /** The moves end with nobody holding a full copy of anything. */
  ghost predicate LeadsToLoss(s: State, moves: seq<Move>) { exists t :: Leads(s, moves, t) && t.holders == {} }

  lemma {:induction false} Extend(s: State, moves: seq<Move>, mid: State, m: Move, t: State)
    requires Leads(s, moves, mid) && StepsTo(mid, m, t)
    ensures Leads(s, moves + [m], t)
    decreases |moves|
  {
    var more := moves + [m];
    if moves == [] {
      assert more == [m] && more[1..] == [];
    } else {
      assert more[1..] == moves[1..] + [m];
      Extend(Next(s, moves[0].act), moves[1..], mid, m, t);
    }
  }

  /** A run of fine moves is a careful run. */
  lemma {:induction false} FineMovesAreCareful(s: State, moves: seq<Move>, t: State)
    requires Leads(s, moves, t) && forall i :: 0 <= i < |moves| ==> moves[i].Fine?
    ensures Careful(s, Acts(moves)) && Run(s, Acts(moves)) == t
    decreases |moves|
  {
    if moves != [] {
      assert Acts(moves)[1..] == Acts(moves[1..]);
      FineMovesAreCareful(Next(s, moves[0].act), moves[1..], t);
    }
  }

  function Acts(moves: seq<Move>): seq<Action> { seq(|moves|, i requires 0 <= i < |moves| => moves[i].act) }

  // ---- the states on the way -------------------------------------------------------------------

  /** One node holds the unit and nothing is in flight. */
  function Alone(u: Unit, src: string): State {
    State(map[], {Key(src, u)}, map[u := src], map[], map[], {})
  }

  /** The unit's source holds the only copy; `records` and `imports` say how far a move has come. */
  function Underway(u: Unit, src: string, records: map<Key, Record>, imports: map<nat, Import>): State {
    Alone(u, src).(records := records, imports := imports)
  }

  function Marker(u: Unit, dest: string, r: Record): map<Key, Record> { map[Key(dest, u) := r] }

  function Both(u: Unit, dest: string, src: string, r: Record): map<Key, Record> {
    map[Key(dest, u) := r, Key(src, u) := Migrating(dest)]
  }

  function One(u: Unit, dest: string, src: string, phase: Phase, marks: seq<nat>): map<nat, Import> {
    map[0 := Import(u, dest, src, phase, marks)]
  }

  /** The source frozen, nothing at the destination, nobody importing. */
  function Forgotten(u: Unit, dest: string, src: string): State {
    Underway(u, src, map[Key(src, u) := Migrating(dest)], map[])
  }

  // ---- the beginnings ----------------------------------------------------------------------------

  /** The import has opened the stream. */
  function Pull(u: Unit, dest: string, src: string): seq<Move> { [Fine(StartImport(0, u, dest, src))] + [Fine(Open(0))] }

  lemma {:induction false} StartsFine(u: Unit, dest: string, src: string)
    requires dest != src
    ensures Start(Alone(u, src))
    ensures StepsTo(Alone(u, src), Fine(StartImport(0, u, dest, src)), Underway(u, src, Marker(u, dest, Importing(src)), One(u, dest, src, Starting, [])))
  {
    assert Next(Alone(u, src), StartImport(0, u, dest, src)) == Underway(u, src, Marker(u, dest, Importing(src)), One(u, dest, src, Starting, []));
  }

  lemma {:induction false} Pulls(u: Unit, dest: string, src: string)
    requires dest != src
    ensures Leads(Alone(u, src), Pull(u, dest, src), Underway(u, src, Marker(u, dest, Importing(src)), One(u, dest, src, Pulling, [])))
  {
    var s0, marked := Alone(u, src), Marker(u, dest, Importing(src));
    var s1, s2 := Underway(u, src, marked, One(u, dest, src, Starting, [])), Underway(u, src, marked, One(u, dest, src, Pulling, []));
    StartsFine(u, dest, src);
    Extend(s0, [], s0, Fine(StartImport(0, u, dest, src)), s1);
    assert Next(s1, Open(0)) == s2;
    Extend(s0, [] + [Fine(StartImport(0, u, dest, src))], s1, Fine(Open(0)), s2);
    assert [] + [Fine(StartImport(0, u, dest, src))] == [Fine(StartImport(0, u, dest, src))];
  }

  /** ... and has read a mark and frozen the source. */
  function Drain(u: Unit, dest: string, src: string): seq<Move> {
    Pull(u, dest, src) + [Fine(Mark(0))] + [Fine(Freeze(0, true))]
  }

  lemma {:induction false} MarkFine(u: Unit, dest: string, src: string, records: map<Key, Record>, phase: Phase, marks: seq<nat>)
    requires phase.Pulling? || phase.Draining?
    ensures StepsTo(Underway(u, src, records, One(u, dest, src, phase, marks)), Fine(Mark(0)),
                    Underway(u, src, records, One(u, dest, src, phase, marks + [0])))
  {
    assert Next(Underway(u, src, records, One(u, dest, src, phase, marks)), Mark(0))
           == Underway(u, src, records, One(u, dest, src, phase, marks + [0]));
  }

  lemma {:induction false} FreezeFine(u: Unit, dest: string, src: string, heard: bool)
    requires dest != src
    ensures StepsTo(Underway(u, src, Marker(u, dest, Importing(src)), One(u, dest, src, Pulling, [0])), Fine(Freeze(0, heard)),
                    Underway(u, src, Both(u, dest, src, Importing(src)), if heard then One(u, dest, src, Draining, []) else One(u, dest, src, Pulling, [0])))
  {
    var s := Underway(u, src, Marker(u, dest, Importing(src)), One(u, dest, src, Pulling, [0]));
    assert [0][1..] == [];
    assert Next(s, Freeze(0, heard)) == Underway(u, src, Both(u, dest, src, Importing(src)),
                                                 if heard then One(u, dest, src, Draining, []) else One(u, dest, src, Pulling, [0]));
    assert Explained(s, dest, u, src);
  }

  lemma {:induction false} Drains(u: Unit, dest: string, src: string)
    requires dest != src
    ensures Leads(Alone(u, src), Drain(u, dest, src), Underway(u, src, Both(u, dest, src, Importing(src)), One(u, dest, src, Draining, [])))
  {
    var marked := Marker(u, dest, Importing(src));
    Pulls(u, dest, src);
    MarkFine(u, dest, src, marked, Pulling, []);
    assert [] + [0] == [0];
    Extend(Alone(u, src), Pull(u, dest, src), Underway(u, src, marked, One(u, dest, src, Pulling, [])), Fine(Mark(0)),
           Underway(u, src, marked, One(u, dest, src, Pulling, [0])));
    FreezeFine(u, dest, src, true);
    Extend(Alone(u, src), Pull(u, dest, src) + [Fine(Mark(0))], Underway(u, src, marked, One(u, dest, src, Pulling, [0])),
           Fine(Freeze(0, true)), Underway(u, src, Both(u, dest, src, Importing(src)), One(u, dest, src, Draining, [])));
  }

  /** ... and has rolled back, recording that it gave up, without reaching the source. */
  function GiveUp(u: Unit, dest: string, src: string): seq<Move> {
    Drain(u, dest, src) + [Fine(RollbackMark(0))] + [Fine(RollbackUnfreeze(0, false, false))]
  }

  function GivenUp(u: Unit, dest: string, src: string): State { Underway(u, src, Both(u, dest, src, Aborted(src)), map[]) }

  lemma {:induction false} RollbackFine(u: Unit, dest: string, src: string)
    requires dest != src
    ensures StepsTo(Underway(u, src, Both(u, dest, src, Importing(src)), One(u, dest, src, Draining, [])), Fine(RollbackMark(0)),
                    Underway(u, src, Both(u, dest, src, Aborted(src)), One(u, dest, src, Aborting, [])))
  {
    assert Next(Underway(u, src, Both(u, dest, src, Importing(src)), One(u, dest, src, Draining, [])), RollbackMark(0))
           == Underway(u, src, Both(u, dest, src, Aborted(src)), One(u, dest, src, Aborting, []));
  }

  lemma {:induction false} UnheardFine(u: Unit, dest: string, src: string)
    requires dest != src
    ensures StepsTo(Underway(u, src, Both(u, dest, src, Aborted(src)), One(u, dest, src, Aborting, [])),
                    Fine(RollbackUnfreeze(0, false, false)), GivenUp(u, dest, src))
  {
    assert Next(Underway(u, src, Both(u, dest, src, Aborted(src)), One(u, dest, src, Aborting, [])), RollbackUnfreeze(0, false, false))
           == GivenUp(u, dest, src);
  }

  lemma {:induction false} GivesUp(u: Unit, dest: string, src: string)
    requires dest != src
    ensures Leads(Alone(u, src), GiveUp(u, dest, src), GivenUp(u, dest, src))
  {
    var giving := Underway(u, src, Both(u, dest, src, Aborted(src)), One(u, dest, src, Aborting, []));
    Drains(u, dest, src);
    RollbackFine(u, dest, src);
    Extend(Alone(u, src), Drain(u, dest, src), Underway(u, src, Both(u, dest, src, Importing(src)), One(u, dest, src, Draining, [])),
           Fine(RollbackMark(0)), giving);
    UnheardFine(u, dest, src);
    Extend(Alone(u, src), Drain(u, dest, src) + [Fine(RollbackMark(0))], giving, Fine(RollbackUnfreeze(0, false, false)), GivenUp(u, dest, src));
  }

  // ---- the passes --------------------------------------------------------------------------------

  lemma {:induction false} PlanOfOne(r: Row, reachable: set<string>)
    ensures var rows := [r];
            Plan(rows, reachable) == match r.record
                                     case Importing(_) => ForImporting(r, reachable)
                                     case Migrating(_) => ForMigrating(rows, r, reachable)
                                     case Aborted(_) => ForAborted(rows, r)
                                     case Moved(_) => []
  {
    var rows := [r];
    assert rows[1..] == [];
    assert ImportingPart([], reachable) == [] && MigratingPart(rows, [], reachable) == [] && AbortedPart(rows, []) == [];
  }

  lemma {:induction false} ExecuteOne(s: State, c: Command)
    ensures ExecuteAll(s, [c], {}) == Execute(s, c)
  {
    assert [c][..0] == [];
    assert ExecuteAll(s, [], {}) == s;
  }

  /** What a pass with one command does, and when its guard holds. */
  lemma {:induction false} OneCommandPass(s: State, rows: seq<Row>, answered: set<string>, reachable: set<string>, c: Command)
    requires Lists(s, rows, answered) && Plan(rows, reachable) == [c]
    ensures var pass := Recover(rows, answered, reachable, {});
            && Enabled(s, pass) && Next(s, pass) == Execute(s, c)
            && (LosesTrack(s, pass) <==> match c
                                         case Resume(_, _, _) => false
                                         case Abort(node, u) => exists src :: GaveUp(s, node, u, src)
                                         case MoveAway(src, dest, u) => Marked(s, dest, u, src) || exists prior :: GaveUp(s, src, u, prior))
  {
    ExecuteOne(s, c);
    var commands: seq<Command> := [c];
    forall node, u ensures Arrived(commands, {}, node, u) <==> Addresses(c, node, u) {
      if Addresses(c, node, u) { assert commands[0] == c; }
    }
    forall src, dest, u ensures DisownArrived(commands, {}, src, dest, u) <==> c == MoveAway(src, dest, u) {
      if c == MoveAway(src, dest, u) { assert commands[0] == c; }
    }
    assert forall dest, u, src :: GaveUp(s, dest, u, src) && Addresses(c, dest, u) ==> !Addresses(c, src, u);
    match c
    case Resume(_, _, _) =>
    case Abort(node, u) =>
      if src :| GaveUp(s, node, u, src) { assert Arrived(commands, {}, node, u) && !Arrived(commands, {}, src, u); }
    case MoveAway(src, dest, u) =>
      assert DisownArrived(commands, {}, src, dest, u);
      if prior :| GaveUp(s, src, u, prior) { assert Arrived(commands, {}, src, u) && !Arrived(commands, {}, prior, u); }
  }

  /** The pass that sees a frozen source and a destination with nothing to say. */
  function LastPass(u: Unit, dest: string, src: string): Action {
    Recover([Row(src, u, Migrating(dest))], {src, dest}, {src, dest}, {})
  }

  lemma {:induction false} LastPassTakes(s: State, u: Unit, dest: string, src: string)
    requires dest != src && s.records == map[Key(src, u) := Migrating(dest)] && s.holders == {Key(src, u)}
    ensures StepsTo(s, Fine(LastPass(u, dest, src)), SlotMoved(s, src, u, dest)) && SlotMoved(s, src, u, dest).holders == {}
  {
    var row := Row(src, u, Migrating(dest));
    PlanOfOne(row, {src, dest});
    assert Plan([row], {src, dest}) == [MoveAway(src, dest, u)];
    OneCommandPass(s, [row], {src, dest}, {src, dest}, MoveAway(src, dest, u));
  }

  /** Whatever leads to a frozen source that nothing vouches for, one more pass takes the only copy. */
  lemma {:induction false} ThenLost(s: State, moves: seq<Move>, mid: State, u: Unit, dest: string, src: string)
    requires Leads(s, moves, mid) && dest != src && mid.records == map[Key(src, u) := Migrating(dest)] && mid.holders == {Key(src, u)}
    ensures LeadsToLoss(s, moves + [Fine(LastPass(u, dest, src))])
  {
    LastPassTakes(mid, u, dest, src);
    Extend(s, moves, mid, Fine(LastPass(u, dest, src)), SlotMoved(mid, src, u, dest));
  }

  lemma {:induction false} StepThenLost(s: State, moves: seq<Move>, mid: State, m: Move, t: State, u: Unit, dest: string, src: string)
    requires Leads(s, moves, mid) && StepsTo(mid, m, t)
    requires dest != src && t.records == map[Key(src, u) := Migrating(dest)] && t.holders == {Key(src, u)}
    ensures LeadsToLoss(s, moves + [m, Fine(LastPass(u, dest, src))])
  {
    Extend(s, moves, mid, m, t);
    ThenLost(s, moves + [m], t, u, dest, src);
    assert moves + [m] + [Fine(LastPass(u, dest, src))] == moves + [m, Fine(LastPass(u, dest, src))];
  }

  /** A pass that sends one abort takes a risk if that clears the marker of a frozen source ... */
  lemma {:induction false} RiskyAbortPass(s: State, rows: seq<Row>, answered: set<string>, reachable: set<string>, node: string, u: Unit, src: string)
    requires Lists(s, rows, answered) && Plan(rows, reachable) == [Abort(node, u)] && GaveUp(s, node, u, src)
    ensures StepsTo(s, Risky(Recover(rows, answered, reachable, {})), SlotAbort(s, node, u))
  {
    OneCommandPass(s, rows, answered, reachable, Abort(node, u));
  }

  /** ... and none if it does not. */
  lemma {:induction false} FineAbortPass(s: State, rows: seq<Row>, answered: set<string>, reachable: set<string>, node: string, u: Unit)
    requires Lists(s, rows, answered) && Plan(rows, reachable) == [Abort(node, u)] && forall src :: !GaveUp(s, node, u, src)
    ensures StepsTo(s, Fine(Recover(rows, answered, reachable, {})), SlotAbort(s, node, u))
  {
    OneCommandPass(s, rows, answered, reachable, Abort(node, u));
  }

  // ---- runs to the loss of the only copy -------------------------------------------------------------

  lemma {:induction false} CrashFine(u: Unit, dest: string, src: string)
    ensures StepsTo(Underway(u, src, Both(u, dest, src, Importing(src)), One(u, dest, src, Draining, [])), Fine(Crash(dest)),
                    Underway(u, src, Both(u, dest, src, Importing(src)), map[]))
  {
    assert Next(Underway(u, src, Both(u, dest, src, Importing(src)), One(u, dest, src, Draining, [])), Crash(dest))
           == Underway(u, src, Both(u, dest, src, Importing(src)), map[]);
  }

  lemma {:induction false} ResumeFine(u: Unit, dest: string, src: string)
    requires dest != src
    ensures StepsTo(Underway(u, src, Both(u, dest, src, Importing(src)), map[]), Fine(StartImport(1, u, dest, src)),
                    Underway(u, src, Both(u, dest, src, Importing(src)), map[1 := Import(u, dest, src, Starting, [])]))
  {
    assert Next(Underway(u, src, Both(u, dest, src, Importing(src)), map[]), StartImport(1, u, dest, src))
           == Underway(u, src, Both(u, dest, src, Importing(src)), map[1 := Import(u, dest, src, Starting, [])]);
  }

  lemma {:induction false} ResumesAfterCrash(u: Unit, dest: string, src: string)
    requires dest != src
    ensures Leads(Alone(u, src), Drain(u, dest, src) + [Fine(Crash(dest))] + [Fine(StartImport(1, u, dest, src))],
                  Underway(u, src, Both(u, dest, src, Importing(src)), map[1 := Import(u, dest, src, Starting, [])]))
  {
    var s0, d, both := Alone(u, src), Drain(u, dest, src), Both(u, dest, src, Importing(src));
    Drains(u, dest, src);
    CrashFine(u, dest, src);
    Extend(s0, d, Underway(u, src, both, One(u, dest, src, Draining, [])), Fine(Crash(dest)), Underway(u, src, both, map[]));
    ResumeFine(u, dest, src);
    Extend(s0, d + [Fine(Crash(dest))], Underway(u, src, both, map[]), Fine(StartImport(1, u, dest, src)),
           Underway(u, src, both, map[1 := Import(u, dest, src, Starting, [])]));
  }

  /**
   * A destination that dies after freezing the source and, resumed, fails before freezing it again
   * clears its record.
   */
  lemma {:induction false} InterruptedResumeLosesTheSlot(u: Unit, dest: string, src: string)
    requires dest != src
    ensures LeadsToLoss(Alone(u, src), Drain(u, dest, src) + [Fine(Crash(dest)), Fine(StartImport(1, u, dest, src)), Risky(ClearMarker(1)),
                                                              Fine(LastPass(u, dest, src))])
  {
    var s0, d := Alone(u, src), Drain(u, dest, src) + [Fine(Crash(dest))] + [Fine(StartImport(1, u, dest, src))];
    var again := Underway(u, src, Both(u, dest, src, Importing(src)), map[1 := Import(u, dest, src, Starting, [])]);
    ResumesAfterCrash(u, dest, src);
    ClearsVouched(again, 1, u, dest, src, Forgotten(u, dest, src));
    StepThenLost(s0, d, again, Risky(ClearMarker(1)), Forgotten(u, dest, src), u, dest, src);
    assert d + [Risky(ClearMarker(1)), Fine(LastPass(u, dest, src))]
           == Drain(u, dest, src) + [Fine(Crash(dest)), Fine(StartImport(1, u, dest, src)), Risky(ClearMarker(1)), Fine(LastPass(u, dest, src))];
  }

  /** An import that clears its record while its source is frozen takes a risk. */
  lemma {:induction false} ClearsVouched(s: State, id: nat, u: Unit, dest: string, src: string, t: State)
    requires Enabled(s, ClearMarker(id)) && s.imports[id].unit == u && s.imports[id].dest == dest && Vouches(s, dest, u, src)
    requires Next(s, ClearMarker(id)) == t
    ensures StepsTo(s, Risky(ClearMarker(id)), t)
  {
  }

  /** One that froze the source, heard no answer and takes it for not frozen clears its record too. */
  lemma {:induction false} LostFreezeAnswerLosesTheSlot(u: Unit, dest: string, src: string)
    requires dest != src
    ensures LeadsToLoss(Alone(u, src), Pull(u, dest, src) + [Fine(Mark(0)), Fine(Freeze(0, false)), Risky(ClearMarker(0)), Fine(LastPass(u, dest, src))])
  {
    var s0, d, marked := Alone(u, src), Pull(u, dest, src), Marker(u, dest, Importing(src));
    var pulling, told := Underway(u, src, marked, One(u, dest, src, Pulling, [])), Underway(u, src, marked, One(u, dest, src, Pulling, [0]));
    var frozen := Underway(u, src, Both(u, dest, src, Importing(src)), One(u, dest, src, Pulling, [0]));
    Pulls(u, dest, src);
    MarkFine(u, dest, src, marked, Pulling, []);
    assert [] + [0] == [0];
    Extend(s0, d, pulling, Fine(Mark(0)), told);
    FreezeFine(u, dest, src, false);
    Extend(s0, d + [Fine(Mark(0))], told, Fine(Freeze(0, false)), frozen);
    ClearsVouched(frozen, 0, u, dest, src, Forgotten(u, dest, src));
    StepThenLost(s0, d + [Fine(Mark(0))] + [Fine(Freeze(0, false))], frozen, Risky(ClearMarker(0)), Forgotten(u, dest, src), u, dest, src);
    assert d + [Fine(Mark(0))] + [Fine(Freeze(0, false))] + [Risky(ClearMarker(0)), Fine(LastPass(u, dest, src))]
           == d + [Fine(Mark(0)), Fine(Freeze(0, false)), Risky(ClearMarker(0)), Fine(LastPass(u, dest, src))];
  }

  /** Whatever one step clears the marker of a destination that gave up, the next pass takes the only copy. */
  lemma {:induction false} ClearedMarkerLosesTheSlot(u: Unit, dest: string, src: string, act: Action)
    requires dest != src && StepsTo(GivenUp(u, dest, src), Risky(act), Forgotten(u, dest, src))
    ensures LeadsToLoss(Alone(u, src), GiveUp(u, dest, src) + [Risky(act), Fine(LastPass(u, dest, src))])
  {
    GivesUp(u, dest, src);
    StepThenLost(Alone(u, src), GiveUp(u, dest, src), GivenUp(u, dest, src), Risky(act), Forgotten(u, dest, src), u, dest, src);
  }

  lemma {:induction false} StaleMarkerPlan(row: Row, reachable: set<string>)
    requires row.record.Aborted?
    ensures Plan([row], reachable) == [Abort(row.node, row.unit)]
  {
    PlanOfOne(row, reachable);
  }

  lemma {:induction false} SilenceClears(u: Unit, dest: string, src: string, rows: seq<Row>)
    requires dest != src && rows == [Row(dest, u, Aborted(src))]
    ensures StepsTo(GivenUp(u, dest, src), Risky(Recover(rows, {dest}, {dest}, {})), Forgotten(u, dest, src))
  {
    StaleMarkerPlan(rows[0], {dest});
    RiskyAbortPass(GivenUp(u, dest, src), rows, {dest}, {dest}, dest, u, src);
    assert SlotAbort(GivenUp(u, dest, src), dest, u) == Forgotten(u, dest, src);
  }

  /** A pass the source did not answer takes its silence for "not frozen" and clears the marker. */
  lemma {:induction false} SilentSourceLosesTheSlot(u: Unit, dest: string, src: string)
    requires dest != src
    ensures LeadsToLoss(Alone(u, src), GiveUp(u, dest, src) + [Risky(Recover([Row(dest, u, Aborted(src))], {dest}, {dest}, {})),
                                                               Fine(LastPass(u, dest, src))])
  {
    SilenceClears(u, dest, src, [Row(dest, u, Aborted(src))]);
    ClearedMarkerLosesTheSlot(u, dest, src, Recover([Row(dest, u, Aborted(src))], {dest}, {dest}, {}));
  }

  /** The rows of a frozen source and of its destination that gave up. */
  function GivenUpRows(u: Unit, dest: string, src: string): seq<Row> { [Row(src, u, Migrating(dest)), Row(dest, u, Aborted(src))] }

  lemma {:induction false} PlanOfGivenUp(u: Unit, dest: string, src: string, reachable: set<string>)
    ensures Plan(GivenUpRows(u, dest, src), reachable) == [Abort(src, u), Abort(dest, u)]
  {
    var rows, none: seq<Row> := GivenUpRows(u, dest, src), [];
    assert rows[1..] == [rows[1]] && rows[1..][1..] == none;
    assert SomeAborted(rows, dest, u.slot) by { assert rows[1].record.Aborted?; }
    assert SomeMigrating(rows, src, u.slot) by { assert rows[0].record.Migrating?; }
    assert ImportingPart(none, reachable) == [] && ImportingPart(rows[1..], reachable) == [];
    assert MigratingPart(rows, none, reachable) == [] && MigratingPart(rows, rows[1..], reachable) == [];
    assert AbortedPart(rows, none) == [] && AbortedPart(rows, rows[1..]) == [];
  }

  lemma {:induction false} ExecuteSecond(s: State, a: Command, b: Command)
    ensures ExecuteAll(s, [a, b], {0}) == Execute(s, b)
  {
    assert [a, b][..1] == [a] && [a][..0] == [];
    assert ExecuteAll(s, [], {0}) == s && ExecuteAll(s, [a], {0}) == s;
  }

  /** Of an abort to a frozen source and one to its destination that gave up, only the second arrives. */
  lemma {:induction false} HalfAborted(s: State, rows: seq<Row>, answered: set<string>, reachable: set<string>, u: Unit, dest: string, src: string)
    requires Lists(s, rows, answered) && Plan(rows, reachable) == [Abort(src, u), Abort(dest, u)] && GaveUp(s, dest, u, src)
    ensures StepsTo(s, Risky(Recover(rows, answered, reachable, {0})), SlotAbort(s, dest, u))
  {
    var cs := [Abort(src, u), Abort(dest, u)];
    ExecuteSecond(s, cs[0], cs[1]);
    assert Arrived(cs, {0}, dest, u) by { assert Addresses(cs[1], dest, u); }
    assert !Arrived(cs, {0}, src, u);
  }

  lemma {:induction false} LostAbortClears(u: Unit, dest: string, src: string)
    requires dest != src
    ensures StepsTo(GivenUp(u, dest, src), Risky(Recover(GivenUpRows(u, dest, src), {src, dest}, {src, dest}, {0})), Forgotten(u, dest, src))
  {
    var s := GivenUp(u, dest, src);
    PlanOfGivenUp(u, dest, src, {src, dest});
    assert Lists(s, GivenUpRows(u, dest, src), {src, dest});
    HalfAborted(s, GivenUpRows(u, dest, src), {src, dest}, {src, dest}, u, dest, src);
    assert SlotAbort(s, dest, u) == Forgotten(u, dest, src);
  }

  /** A pass whose abort to the source is lost clears the destination's marker all the same. */
  lemma {:induction false} LostAbortLosesTheSlot(u: Unit, dest: string, src: string)
    requires dest != src
    ensures LeadsToLoss(Alone(u, src), GiveUp(u, dest, src) + [Risky(Recover(GivenUpRows(u, dest, src), {src, dest}, {src, dest}, {0})),
                                                               Fine(LastPass(u, dest, src))])
  {
    LostAbortClears(u, dest, src);
    ClearedMarkerLosesTheSlot(u, dest, src, Recover(GivenUpRows(u, dest, src), {src, dest}, {src, dest}, {0}));
  }

  /** So does an abort sent to the destination by hand. */
  lemma {:induction false} AbortByHandLosesTheSlot(u: Unit, dest: string, src: string)
    requires dest != src
    ensures LeadsToLoss(Alone(u, src), GiveUp(u, dest, src) + [Risky(AbortArrives(u, dest)), Fine(LastPass(u, dest, src))])
  {
    assert Next(GivenUp(u, dest, src), AbortArrives(u, dest)) == Forgotten(u, dest, src);
    assert GaveUp(GivenUp(u, dest, src), dest, u, src);
    ClearedMarkerLosesTheSlot(u, dest, src, AbortArrives(u, dest));
  }

  lemma {:induction false} OverwritesMarker(u: Unit, dest: string, src: string, other: string)
    requires dest != src && other != dest && other != src
    ensures StepsTo(GivenUp(u, dest, src), Risky(StartImport(0, u, dest, other)),
                    Underway(u, src, Both(u, dest, src, Importing(other)), One(u, dest, other, Starting, [])))
  {
    assert Next(GivenUp(u, dest, src), StartImport(0, u, dest, other))
           == Underway(u, src, Both(u, dest, src, Importing(other)), One(u, dest, other, Starting, []));
    assert Vouches(GivenUp(u, dest, src), dest, u, src);
  }

  lemma {:induction false} FailsFine(u: Unit, dest: string, src: string, other: string)
    requires dest != src && other != dest && other != src
    ensures StepsTo(Underway(u, src, Both(u, dest, src, Importing(other)), One(u, dest, other, Starting, [])), Fine(ClearMarker(0)),
                    Forgotten(u, dest, src))
  {
    assert Next(Underway(u, src, Both(u, dest, src, Importing(other)), One(u, dest, other, Starting, [])), ClearMarker(0))
           == Forgotten(u, dest, src);
  }

  /** An import from a third node overwrites the marker and, failing, clears it. */
  lemma {:induction false} OverwrittenMarkerLosesTheSlot(u: Unit, dest: string, src: string, other: string)
    requires dest != src && other != dest && other != src
    ensures LeadsToLoss(Alone(u, src), GiveUp(u, dest, src) + [Risky(StartImport(0, u, dest, other)), Fine(ClearMarker(0)), Fine(LastPass(u, dest, src))])
  {
    var s0, d, s := Alone(u, src), GiveUp(u, dest, src), GivenUp(u, dest, src);
    var importing, a := Underway(u, src, Both(u, dest, src, Importing(other)), One(u, dest, other, Starting, [])), Risky(StartImport(0, u, dest, other));
    GivesUp(u, dest, src);
    OverwritesMarker(u, dest, src, other);
    Extend(s0, d, s, a, importing);
    FailsFine(u, dest, src, other);
    StepThenLost(s0, d + [a], importing, Fine(ClearMarker(0)), Forgotten(u, dest, src), u, dest, src);
    assert d + [a] + [Fine(ClearMarker(0)), Fine(LastPass(u, dest, src))] == d + [a, Fine(ClearMarker(0)), Fine(LastPass(u, dest, src))];
  }

  // ---- freezing a node that carries a marker of its own -----------------------------------------------

  /** `dest` gave up an import from `src`; `far` now imports from `dest`. */
  function Chained(u: Unit, dest: string, src: string, far: string, r: Record, phase: Phase, marks: seq<nat>): State {
    Underway(u, src, Both(u, dest, src, r)[Key(far, u) := Importing(dest)], One(u, far, dest, phase, marks))
  }

  lemma {:induction false} ChainStarts(u: Unit, dest: string, src: string, far: string)
    requires dest != src && far != dest && far != src
    ensures StepsTo(GivenUp(u, dest, src), Fine(StartImport(0, u, far, dest)), Chained(u, dest, src, far, Aborted(src), Starting, []))
    ensures StepsTo(Chained(u, dest, src, far, Aborted(src), Starting, []), Fine(Open(0)), Chained(u, dest, src, far, Aborted(src), Pulling, []))
  {
    assert Next(GivenUp(u, dest, src), StartImport(0, u, far, dest)) == Chained(u, dest, src, far, Aborted(src), Starting, []);
    assert Next(Chained(u, dest, src, far, Aborted(src), Starting, []), Open(0)) == Chained(u, dest, src, far, Aborted(src), Pulling, []);
  }

  lemma {:induction false} ChainMarks(u: Unit, dest: string, src: string, far: string)
    requires dest != src && far != dest && far != src
    ensures StepsTo(Chained(u, dest, src, far, Aborted(src), Pulling, []), Fine(Mark(0)), Chained(u, dest, src, far, Aborted(src), Pulling, [0]))
  {
    assert [] + [0] == [0];
    assert Next(Chained(u, dest, src, far, Aborted(src), Pulling, []), Mark(0)) == Chained(u, dest, src, far, Aborted(src), Pulling, [0]);
  }

  lemma {:induction false} ChainFreezeLands(u: Unit, dest: string, src: string, far: string)
    requires dest != src && far != dest && far != src
    ensures var s := Chained(u, dest, src, far, Aborted(src), Pulling, [0]);
            Enabled(s, Freeze(0, false)) && Next(s, Freeze(0, false)) == Chained(u, dest, src, far, Migrating(far), Pulling, [0])
  {
  }

  lemma {:induction false} ChainFreezes(u: Unit, dest: string, src: string, far: string)
    requires dest != src && far != dest && far != src
    ensures StepsTo(Chained(u, dest, src, far, Aborted(src), Pulling, [0]), Risky(Freeze(0, false)), Chained(u, dest, src, far, Migrating(far), Pulling, [0]))
  {
    ChainFreezeLands(u, dest, src, far);
    assert Vouches(Chained(u, dest, src, far, Aborted(src), Pulling, [0]), dest, u, src);
  }

  function ChainRows(u: Unit, dest: string, src: string, far: string): seq<Row> {
    [Row(far, u, Importing(dest)), Row(src, u, Migrating(dest)), Row(dest, u, Migrating(far))]
  }

  lemma {:induction false} PlanOfChain(u: Unit, dest: string, src: string, far: string, reachable: set<string>)
    requires dest != src && far != dest && far != src && dest in reachable
    ensures Plan(ChainRows(u, dest, src, far), reachable) == [Resume(far, dest, u), MoveAway(src, dest, u)]
  {
    var rows, none: seq<Row> := ChainRows(u, dest, src, far), [];
    var r1, r2 := [rows[1], rows[2]], [rows[2]];
    assert rows[1..] == r1 && r1[1..] == r2 && r2[1..] == none;
    assert SomeImporting(rows, far, u.slot) by { assert rows[0].record.Importing?; }
    assert !SomeImporting(rows, dest, u.slot) && !SomeAborted(rows, dest, u.slot);
    assert ImportingPart(none, reachable) == [] && ImportingPart(r2, reachable) == [] && ImportingPart(r1, reachable) == [];
    assert ImportingPart(rows, reachable) == [Resume(far, dest, u)];
    assert MigratingPart(rows, none, reachable) == [] && MigratingPart(rows, r2, reachable) == [];
    assert MigratingPart(rows, r1, reachable) == [MoveAway(src, dest, u)] && MigratingPart(rows, rows, reachable) == [MoveAway(src, dest, u)];
    assert AbortedPart(rows, none) == [] && AbortedPart(rows, r2) == [] && AbortedPart(rows, r1) == [] && AbortedPart(rows, rows) == [];
  }

  /** A pass that resumes one import and tells an unvouched source to disown. */
  lemma {:induction false} ResumeAndDisown(s: State, rows: seq<Row>, answered: set<string>, reachable: set<string>, r: Command, src: string, dest: string, u: Unit)
    requires Lists(s, rows, answered) && r.Resume? && Plan(rows, reachable) == [r, MoveAway(src, dest, u)]
    requires !Marked(s, dest, u, src) && forall prior :: !GaveUp(s, src, u, prior)
    ensures StepsTo(s, Fine(Recover(rows, answered, reachable, {})), SlotMoved(s, src, u, dest))
  {
    var cs := [r, MoveAway(src, dest, u)];
    assert cs[..1] == [r];
    ExecuteOne(s, r);
    assert ExecuteAll(s, cs, {}) == SlotMoved(s, src, u, dest);
    forall node, v | Arrived(cs, {}, node, v) ensures node == src && v == u { }
    forall a, d, v | DisownArrived(cs, {}, a, d, v) ensures a == src && d == dest && v == u { }
  }

  lemma {:induction false} ChainIsPurged(u: Unit, dest: string, src: string, far: string, everyone: set<string>)
    requires dest != src && far != dest && far != src && everyone == {src, dest, far}
    ensures var s := Chained(u, dest, src, far, Migrating(far), Pulling, [0]);
            StepsTo(s, Fine(Recover(ChainRows(u, dest, src, far), everyone, everyone, {})), SlotMoved(s, src, u, dest))
            && SlotMoved(s, src, u, dest).holders == {}
  {
    var s, rows := Chained(u, dest, src, far, Migrating(far), Pulling, [0]), ChainRows(u, dest, src, far);
    PlanOfChain(u, dest, src, far, everyone);
    assert Lists(s, rows, everyone) by { assert rows[0] in rows && rows[1] in rows && rows[2] in rows; }
    ResumeAndDisown(s, rows, everyone, everyone, Resume(far, dest, u), src, dest, u);
  }

  lemma {:induction false} ChainLeads(u: Unit, dest: string, src: string, far: string)
    requires dest != src && far != dest && far != src
    ensures Leads(Alone(u, src), GiveUp(u, dest, src) + [Fine(StartImport(0, u, far, dest))] + [Fine(Open(0))],
                  Chained(u, dest, src, far, Aborted(src), Pulling, []))
  {
    var s0, d := Alone(u, src), GiveUp(u, dest, src);
    GivesUp(u, dest, src);
    ChainStarts(u, dest, src, far);
    Extend(s0, d, GivenUp(u, dest, src), Fine(StartImport(0, u, far, dest)), Chained(u, dest, src, far, Aborted(src), Starting, []));
    Extend(s0, d + [Fine(StartImport(0, u, far, dest))], Chained(u, dest, src, far, Aborted(src), Starting, []), Fine(Open(0)),
           Chained(u, dest, src, far, Aborted(src), Pulling, []));
  }

  /** Freezing a node that gave up an import of its own overwrites its marker; a complete pass then takes the only copy. */
  lemma {:induction false} FrozenOverMarkerLosesTheSlot(u: Unit, dest: string, src: string, far: string)
    requires dest != src && far != dest && far != src
    ensures LeadsToLoss(Alone(u, src), GiveUp(u, dest, src) + [Fine(StartImport(0, u, far, dest)), Fine(Open(0)), Fine(Mark(0)), Risky(Freeze(0, false)),
                                         Fine(Recover(ChainRows(u, dest, src, far), {src, dest, far}, {src, dest, far}, {}))])
  {
    var s0, d := Alone(u, src), GiveUp(u, dest, src) + [Fine(StartImport(0, u, far, dest))] + [Fine(Open(0))];
    var told, frozen := Chained(u, dest, src, far, Aborted(src), Pulling, [0]), Chained(u, dest, src, far, Migrating(far), Pulling, [0]);
    var pass := Fine(Recover(ChainRows(u, dest, src, far), {src, dest, far}, {src, dest, far}, {}));
    ChainLeads(u, dest, src, far);
    ChainMarks(u, dest, src, far);
    ChainFreezes(u, dest, src, far);
    ChainIsPurged(u, dest, src, far, {src, dest, far});
    ThreeMore(s0, d, Chained(u, dest, src, far, Aborted(src), Pulling, []), Fine(Mark(0)), told, Risky(Freeze(0, false)), frozen,
              pass, SlotMoved(frozen, src, u, dest));
    assert d + [Fine(Mark(0)), Risky(Freeze(0, false)), pass]
           == GiveUp(u, dest, src) + [Fine(StartImport(0, u, far, dest)), Fine(Open(0)), Fine(Mark(0)), Risky(Freeze(0, false)), pass];
  }

  lemma {:induction false} ThreeMore(s: State, moves: seq<Move>, s1: State, a: Move, s2: State, b: Move, s3: State, c: Move, s4: State)
    requires Leads(s, moves, s1) && StepsTo(s1, a, s2) && StepsTo(s2, b, s3) && StepsTo(s3, c, s4)
    ensures Leads(s, moves + [a, b, c], s4)
  {
    Extend(s, moves, s1, a, s2);
    Extend(s, moves + [a], s2, b, s3);
    Extend(s, moves + [a] + [b], s3, c, s4);
    assert moves + [a] + [b] + [c] == moves + [a, b, c];
  }

  // ---- passes over a live import -----------------------------------------------------------------------

  lemma {:induction false} LiveAborted(u: Unit, dest: string, src: string, live: map<nat, Import>, rows: seq<Row>)
    requires dest != src && rows == [Row(dest, u, Importing(src))]
    ensures StepsTo(Underway(u, src, Marker(u, dest, Importing(src)), live), Fine(Recover(rows, {dest}, {dest}, {})),
                    Underway(u, src, Marker(u, dest, Aborted(src)), live))
  {
    var s := Underway(u, src, Marker(u, dest, Importing(src)), live);
    UnreachablePlan(rows[0], {dest});
    FineAbortPass(s, rows, {dest}, {dest}, dest, u);
    assert SlotAbort(s, dest, u) == Underway(u, src, Marker(u, dest, Aborted(src)), live);
  }

  lemma {:induction false} UnreachablePlan(row: Row, reachable: set<string>)
    requires row.record.Importing? && row.record.peer !in reachable
    ensures Plan([row], reachable) == [Abort(row.node, row.unit)]
  {
    PlanOfOne(row, reachable);
  }

  lemma {:induction false} LiveCleared(u: Unit, dest: string, src: string, live: map<nat, Import>, rows: seq<Row>)
    requires dest != src && rows == [Row(dest, u, Aborted(src))]
    ensures StepsTo(Underway(u, src, Marker(u, dest, Aborted(src)), live), Fine(Recover(rows, {src, dest}, {src, dest}, {})), Underway(u, src, map[], live))
  {
    var s := Underway(u, src, Marker(u, dest, Aborted(src)), live);
    StaleMarkerPlan(rows[0], {src, dest});
    FineAbortPass(s, rows, {src, dest}, {src, dest}, dest, u);
    assert SlotAbort(s, dest, u) == Underway(u, src, map[], live);
  }

  lemma {:induction false} BareFreeze(u: Unit, dest: string, src: string)
    requires dest != src
    ensures StepsTo(Underway(u, src, map[], One(u, dest, src, Pulling, [0])), Risky(Freeze(0, true)),
                    Underway(u, src, map[Key(src, u) := Migrating(dest)], One(u, dest, src, Draining, [])))
  {
    assert [0][1..] == [];
    assert Next(Underway(u, src, map[], One(u, dest, src, Pulling, [0])), Freeze(0, true))
           == Underway(u, src, map[Key(src, u) := Migrating(dest)], One(u, dest, src, Draining, []));
    assert !Explained(Underway(u, src, map[], One(u, dest, src, Pulling, [0])), dest, u, src);
  }

  lemma {:induction false} LiveImportForgotten(u: Unit, dest: string, src: string)
    requires dest != src
    ensures Leads(Alone(u, src), Pull(u, dest, src) + [Fine(Recover([Row(dest, u, Importing(src))], {dest}, {dest}, {})),
                                   Fine(Recover([Row(dest, u, Aborted(src))], {src, dest}, {src, dest}, {})), Fine(Mark(0))],
                  Underway(u, src, map[], One(u, dest, src, Pulling, [0])))
  {
    var live := One(u, dest, src, Pulling, []);
    Pulls(u, dest, src);
    LiveAborted(u, dest, src, live, [Row(dest, u, Importing(src))]);
    LiveCleared(u, dest, src, live, [Row(dest, u, Aborted(src))]);
    MarkFine(u, dest, src, map[], Pulling, []);
    assert [] + [0] == [0];
    ThreeMore(Alone(u, src), Pull(u, dest, src), Underway(u, src, Marker(u, dest, Importing(src)), live),
              Fine(Recover([Row(dest, u, Importing(src))], {dest}, {dest}, {})), Underway(u, src, Marker(u, dest, Aborted(src)), live),
              Fine(Recover([Row(dest, u, Aborted(src))], {src, dest}, {src, dest}, {})), Underway(u, src, map[], live),
              Fine(Mark(0)), Underway(u, src, map[], One(u, dest, src, Pulling, [0])));
  }

  /**
   * A pass that neither hears nor reaches the source aborts the destination of a live import, the next,
   * finding the source not frozen, clears the marker, and the import, which noticed neither, freezes it.
   */
  lemma {:induction false} AbortedLiveImportLosesTheSlot(u: Unit, dest: string, src: string)
    requires dest != src
    ensures LeadsToLoss(Alone(u, src), Pull(u, dest, src) + [Fine(Recover([Row(dest, u, Importing(src))], {dest}, {dest}, {})),
                                         Fine(Recover([Row(dest, u, Aborted(src))], {src, dest}, {src, dest}, {})), Fine(Mark(0)),
                                         Risky(Freeze(0, true)), Fine(LastPass(u, dest, src))])
  {
    var a := Fine(Recover([Row(dest, u, Importing(src))], {dest}, {dest}, {}));
    var b := Fine(Recover([Row(dest, u, Aborted(src))], {src, dest}, {src, dest}, {}));
    LiveImportForgotten(u, dest, src);
    BareFreeze(u, dest, src);
    StepThenLost(Alone(u, src), Pull(u, dest, src) + [a, b, Fine(Mark(0))], Underway(u, src, map[], One(u, dest, src, Pulling, [0])),
                 Risky(Freeze(0, true)), Underway(u, src, map[Key(src, u) := Migrating(dest)], One(u, dest, src, Draining, [])), u, dest, src);
    assert Pull(u, dest, src) + [a, b, Fine(Mark(0))] + [Risky(Freeze(0, true)), Fine(LastPass(u, dest, src))]
           == Pull(u, dest, src) + [a, b, Fine(Mark(0)), Risky(Freeze(0, true)), Fine(LastPass(u, dest, src))];
  }

  /** A pass that hears the frozen source and not its destination disowns it at once. */
  lemma {:induction false} UnansweredDestinationLosesTheSlot(u: Unit, dest: string, src: string)
    requires dest != src
    ensures LeadsToLoss(Alone(u, src), Drain(u, dest, src) + [Risky(Recover([Row(src, u, Migrating(dest))], {src}, {dest}, {}))])
  {
    var s := Underway(u, src, Both(u, dest, src, Importing(src)), One(u, dest, src, Draining, []));
    Drains(u, dest, src);
    UnheardTakes(s, u, dest, src, [Row(src, u, Migrating(dest))]);
    Extend(Alone(u, src), Drain(u, dest, src), s, Risky(Recover([Row(src, u, Migrating(dest))], {src}, {dest}, {})), SlotMoved(s, src, u, dest));
    assert SlotMoved(s, src, u, dest).holders == {};
  }

  lemma {:induction false} UnheardTakes(s: State, u: Unit, dest: string, src: string, rows: seq<Row>)
    requires dest != src && s.records == Both(u, dest, src, Importing(src)) && rows == [Row(src, u, Migrating(dest))]
    ensures StepsTo(s, Risky(Recover(rows, {src}, {dest}, {})), SlotMoved(s, src, u, dest))
  {
    FrozenPlan(rows[0], {dest});
    OneCommandPass(s, rows, {src}, {dest}, MoveAway(src, dest, u));
    assert Marked(s, dest, u, src);
  }

  lemma {:induction false} FrozenPlan(row: Row, reachable: set<string>)
    requires row.record.Migrating? && row.record.peer != row.node
    ensures Plan([row], reachable) == if row.record.peer in reachable then [MoveAway(row.node, row.record.peer, row.unit)] else [Abort(row.node, row.unit)]
  {
    PlanOfOne(row, reachable);
  }

  // ---- drains that end too early -----------------------------------------------------------------------

  /** The source has taken one write. */
  function Written(s: State, u: Unit, src: string): State { s.(positions := map[Key(src, u) := 1]) }

  lemma {:induction false} WriteFine(u: Unit, src: string, records: map<Key, Record>, imports: map<nat, Import>)
    requires Key(src, u) !in records
    ensures StepsTo(Underway(u, src, records, imports), Fine(ClientWrite(u, src)), Written(Underway(u, src, records, imports), u, src))
  {
    var s := Underway(u, src, records, imports);
    assert (set k | k in s.holders && (k.unit != u || k.node == src)) == s.holders;
    assert Next(s, ClientWrite(u, src)) == Written(s, u, src);
  }

  /** The destination has taken over without the last write. */
  function Early(u: Unit, dest: string, src: string, records: map<Key, Record>): State {
    State(records, {Key(src, u)}, map[u := src], map[Key(src, u) := 1, Key(dest, u) := 1], One(u, dest, src, HandingOff, []), {(Key(dest, u), src)})
  }

  lemma {:induction false} EarlyLands(u: Unit, dest: string, src: string, records: map<Key, Record>, s: State)
    requires dest != src && s == Written(Underway(u, src, records, One(u, dest, src, Draining, [0])), u, src)
    ensures Enabled(s, Finish(0)) && Next(s, Finish(0)) == Early(u, dest, src, records - {Key(dest, u)})
  {
    assert [0][1..] == [];
    assert !Whole(s, 0);
  }

  lemma {:induction false} TakesOverEarly(u: Unit, dest: string, src: string)
    requires dest != src
    ensures StepsTo(Written(Underway(u, src, Both(u, dest, src, Importing(src)), One(u, dest, src, Draining, [0])), u, src), Risky(Finish(0)),
                    Early(u, dest, src, map[Key(src, u) := Migrating(dest)]))
  {
    EarlyLands(u, dest, src, Both(u, dest, src, Importing(src)),
               Written(Underway(u, src, Both(u, dest, src, Importing(src)), One(u, dest, src, Draining, [0])), u, src));
    assert Both(u, dest, src, Importing(src)) - {Key(dest, u)} == map[Key(src, u) := Migrating(dest)];
  }

  lemma {:induction false} HandsOffEarly(u: Unit, dest: string, src: string)
    requires dest != src
    ensures var s := Early(u, dest, src, map[Key(src, u) := Migrating(dest)]);
            StepsTo(s, Fine(HandOff(0, true)), Next(s, HandOff(0, true))) && Next(s, HandOff(0, true)).holders == {}
  {
    var s := Early(u, dest, src, map[Key(src, u) := Migrating(dest)]);
    assert Due(s, src, dest, u);
  }

  lemma {:induction false} FreezeBehind(u: Unit, dest: string, src: string)
    requires dest != src
    ensures StepsTo(Written(Underway(u, src, Marker(u, dest, Importing(src)), One(u, dest, src, Pulling, [0, 0])), u, src), Fine(Freeze(0, true)),
                    Written(Underway(u, src, Both(u, dest, src, Importing(src)), One(u, dest, src, Draining, [0])), u, src))
  {
    var s := Written(Underway(u, src, Marker(u, dest, Importing(src)), One(u, dest, src, Pulling, [0, 0])), u, src);
    assert [0, 0][1..] == [0];
    assert Next(s, Freeze(0, true)) == Written(Underway(u, src, Both(u, dest, src, Importing(src)), One(u, dest, src, Draining, [0])), u, src);
    assert Explained(s, dest, u, src);
  }

  lemma {:induction false} TwoMarksThenWrite(u: Unit, dest: string, src: string)
    requires dest != src
    ensures Leads(Alone(u, src), Pull(u, dest, src) + [Fine(Mark(0)), Fine(Mark(0)), Fine(ClientWrite(u, src))],
                  Written(Underway(u, src, Marker(u, dest, Importing(src)), One(u, dest, src, Pulling, [0, 0])), u, src))
  {
    var marked := Marker(u, dest, Importing(src));
    Pulls(u, dest, src);
    MarkFine(u, dest, src, marked, Pulling, []);
    MarkFine(u, dest, src, marked, Pulling, [0]);
    assert [] + [0] == [0] && [0] + [0] == [0, 0];
    WriteFine(u, src, marked, One(u, dest, src, Pulling, [0, 0]));
    ThreeMore(Alone(u, src), Pull(u, dest, src), Underway(u, src, marked, One(u, dest, src, Pulling, [])),
              Fine(Mark(0)), Underway(u, src, marked, One(u, dest, src, Pulling, [0])),
              Fine(Mark(0)), Underway(u, src, marked, One(u, dest, src, Pulling, [0, 0])),
              Fine(ClientWrite(u, src)), Written(Underway(u, src, marked, One(u, dest, src, Pulling, [0, 0])), u, src));
  }

  /**
   * Two marks are sent, then the source takes a write. The destination freezes it at the first mark and
   * takes over at the second, which says nothing of the write.
   */
  lemma {:induction false} StaleMarkLosesTheSlot(u: Unit, dest: string, src: string)
    requires dest != src
    ensures LeadsToLoss(Alone(u, src), Pull(u, dest, src) + [Fine(Mark(0)), Fine(Mark(0)), Fine(ClientWrite(u, src)), Fine(Freeze(0, true)),
                                                             Risky(Finish(0)), Fine(HandOff(0, true))])
  {
    var d, early := Pull(u, dest, src) + [Fine(Mark(0)), Fine(Mark(0)), Fine(ClientWrite(u, src))], Early(u, dest, src, map[Key(src, u) := Migrating(dest)]);
    TwoMarksThenWrite(u, dest, src);
    FreezeBehind(u, dest, src);
    TakesOverEarly(u, dest, src);
    HandsOffEarly(u, dest, src);
    ThreeMore(Alone(u, src), d, Written(Underway(u, src, Marker(u, dest, Importing(src)), One(u, dest, src, Pulling, [0, 0])), u, src),
              Fine(Freeze(0, true)), Written(Underway(u, src, Both(u, dest, src, Importing(src)), One(u, dest, src, Draining, [0])), u, src),
              Risky(Finish(0)), early, Fine(HandOff(0, true)), Next(early, HandOff(0, true)));
    assert d + [Fine(Freeze(0, true)), Risky(Finish(0)), Fine(HandOff(0, true))]
           == Pull(u, dest, src) + [Fine(Mark(0)), Fine(Mark(0)), Fine(ClientWrite(u, src)), Fine(Freeze(0, true)), Risky(Finish(0)), Fine(HandOff(0, true))];
  }

  lemma {:induction false} DrainUnfrozen(u: Unit, dest: string, src: string, rows: seq<Row>)
    requires dest != src && rows == [Row(src, u, Migrating(dest))]
    ensures StepsTo(Underway(u, src, Both(u, dest, src, Importing(src)), One(u, dest, src, Draining, [0])), Fine(Recover(rows, {src}, {src}, {})),
                    Underway(u, src, Marker(u, dest, Importing(src)), One(u, dest, src, Draining, [0])))
  {
    var s := Underway(u, src, Both(u, dest, src, Importing(src)), One(u, dest, src, Draining, [0]));
    FrozenPlan(rows[0], {src});
    FineAbortPass(s, rows, {src}, {src}, src, u);
    assert SlotAbort(s, src, u) == Underway(u, src, Marker(u, dest, Importing(src)), One(u, dest, src, Draining, [0]));
  }

  lemma {:induction false} UnfrozenThenWritten(u: Unit, dest: string, src: string)
    requires dest != src
    ensures Leads(Alone(u, src), Drain(u, dest, src) + [Fine(Mark(0)), Fine(Recover([Row(src, u, Migrating(dest))], {src}, {src}, {})), Fine(ClientWrite(u, src))],
                  Written(Underway(u, src, Marker(u, dest, Importing(src)), One(u, dest, src, Draining, [0])), u, src))
  {
    var both, marked, live := Both(u, dest, src, Importing(src)), Marker(u, dest, Importing(src)), One(u, dest, src, Draining, [0]);
    Drains(u, dest, src);
    MarkFine(u, dest, src, both, Draining, []);
    assert [] + [0] == [0];
    DrainUnfrozen(u, dest, src, [Row(src, u, Migrating(dest))]);
    WriteFine(u, src, marked, live);
    ThreeMore(Alone(u, src), Drain(u, dest, src), Underway(u, src, both, One(u, dest, src, Draining, [])), Fine(Mark(0)), Underway(u, src, both, live),
              Fine(Recover([Row(src, u, Migrating(dest))], {src}, {src}, {})), Underway(u, src, marked, live),
              Fine(ClientWrite(u, src)), Written(Underway(u, src, marked, live), u, src));
  }

  lemma {:induction false} UnfrozenFinish(u: Unit, dest: string, src: string)
    requires dest != src
    ensures StepsTo(Written(Underway(u, src, Marker(u, dest, Importing(src)), One(u, dest, src, Draining, [0])), u, src), Fine(Finish(0)), Early(u, dest, src, map[]))
  {
    EarlyLands(u, dest, src, Marker(u, dest, Importing(src)),
               Written(Underway(u, src, Marker(u, dest, Importing(src)), One(u, dest, src, Draining, [0])), u, src));
    assert Marker(u, dest, Importing(src)) - {Key(dest, u)} == map[];
  }

  lemma {:induction false} UnfrozenHandOff(u: Unit, dest: string, src: string)
    requires dest != src
    ensures var s := Early(u, dest, src, map[]);
            StepsTo(s, Risky(HandOff(0, true)), Next(s, HandOff(0, true))) && Next(s, HandOff(0, true)).holders == {}
  {
    assert !Due(Early(u, dest, src, map[]), src, dest, u);
  }

  /** A pass that neither hears nor reaches the destination unfreezes the source of a live drain, which takes a write after its mark. */
  lemma {:induction false} UnfrozenDrainLosesTheSlot(u: Unit, dest: string, src: string)
    requires dest != src
    ensures LeadsToLoss(Alone(u, src), Drain(u, dest, src) + [Fine(Mark(0)), Fine(Recover([Row(src, u, Migrating(dest))], {src}, {src}, {})),
                                         Fine(ClientWrite(u, src)), Fine(Finish(0)), Risky(HandOff(0, true))])
  {
    var pass, early := Fine(Recover([Row(src, u, Migrating(dest))], {src}, {src}, {})), Early(u, dest, src, map[]);
    var d := Drain(u, dest, src) + [Fine(Mark(0)), pass, Fine(ClientWrite(u, src))];
    UnfrozenThenWritten(u, dest, src);
    UnfrozenFinish(u, dest, src);
    UnfrozenHandOff(u, dest, src);
    TwoMore(Alone(u, src), d, Written(Underway(u, src, Marker(u, dest, Importing(src)), One(u, dest, src, Draining, [0])), u, src),
            Fine(Finish(0)), early, Risky(HandOff(0, true)), Next(early, HandOff(0, true)));
    assert d + [Fine(Finish(0)), Risky(HandOff(0, true))]
           == Drain(u, dest, src) + [Fine(Mark(0)), pass, Fine(ClientWrite(u, src)), Fine(Finish(0)), Risky(HandOff(0, true))];
  }

  lemma {:induction false} TwoMore(s: State, moves: seq<Move>, s1: State, a: Move, s2: State, b: Move, s3: State)
    requires Leads(s, moves, s1) && StepsTo(s1, a, s2) && StepsTo(s2, b, s3)
    ensures Leads(s, moves + [a, b], s3)
  {
    Extend(s, moves, s1, a, s2);
    Extend(s, moves + [a], s2, b, s3);
    assert moves + [a] + [b] == moves + [a, b];
  }

  // ---- the ordinary move, and a second import beside it ---------------------------------------------------

  /** The unit at its destination, the source redirecting to it. */
  function Flipped(u: Unit, dest: string, src: string, imports: map<nat, Import>): State {
    State(map[Key(src, u) := Moved(dest)], {Key(dest, u)}, map[u := dest], map[Key(dest, u) := 1], imports, {(Key(dest, u), src)})
  }

  /** The destination serves and the source has not heard yet. */
  function Flipping(u: Unit, dest: string, src: string, others: map<nat, Import>): State {
    State(map[Key(src, u) := Migrating(dest)], {Key(src, u), Key(dest, u)}, map[u := dest], map[Key(dest, u) := 1],
          others[0 := Import(u, dest, src, HandingOff, [])], {(Key(dest, u), src)})
  }

  lemma {:induction false} FinishLands(u: Unit, dest: string, src: string, others: map<nat, Import>, s: State)
    requires dest != src && s == Underway(u, src, Both(u, dest, src, Importing(src)), others[0 := Import(u, dest, src, Draining, [0])])
    ensures Enabled(s, Finish(0)) && Next(s, Finish(0)) == Flipping(u, dest, src, others)
  {
    assert [0][1..] == [];
    assert Whole(s, 0);
    assert Both(u, dest, src, Importing(src)) - {Key(dest, u)} == map[Key(src, u) := Migrating(dest)];
    assert others[0 := Import(u, dest, src, Draining, [])][0 := Import(u, dest, src, HandingOff, [])] == others[0 := Import(u, dest, src, HandingOff, [])];
  }

  lemma {:induction false} FinishGuard(u: Unit, dest: string, src: string, others: map<nat, Import>, s: State)
    requires dest != src && s == Underway(u, src, Both(u, dest, src, Importing(src)), others[0 := Import(u, dest, src, Draining, [0])])
    ensures Enabled(s, Finish(0)) && !LosesTrack(s, Finish(0))
  {
  }

  lemma {:induction false} FinishFine(u: Unit, dest: string, src: string, others: map<nat, Import>)
    requires dest != src
    ensures StepsTo(Underway(u, src, Both(u, dest, src, Importing(src)), others[0 := Import(u, dest, src, Draining, [0])]), Fine(Finish(0)),
                    Flipping(u, dest, src, others))
  {
    var s := Underway(u, src, Both(u, dest, src, Importing(src)), others[0 := Import(u, dest, src, Draining, [0])]);
    FinishLands(u, dest, src, others, s);
    FinishGuard(u, dest, src, others, s);
  }

  lemma {:induction false} HandOffFine(u: Unit, dest: string, src: string, others: map<nat, Import>)
    requires dest != src && 0 !in others
    ensures StepsTo(Flipping(u, dest, src, others), Fine(HandOff(0, true)), Flipped(u, dest, src, others))
  {
    var s := Flipping(u, dest, src, others);
    assert others[0 := Import(u, dest, src, HandingOff, [])] - {0} == others;
    assert Next(s, HandOff(0, true)) == Flipped(u, dest, src, others);
    assert Due(s, src, dest, u);
  }

  lemma {:induction false} OrdinaryMoveLeads(u: Unit, dest: string, src: string)
    requires dest != src
    ensures Leads(Alone(u, src), Drain(u, dest, src) + [Fine(Mark(0)), Fine(Finish(0)), Fine(HandOff(0, true))], Flipped(u, dest, src, map[]))
  {
    var none: map<nat, Import> := map[];
    var both := Both(u, dest, src, Importing(src));
    Drains(u, dest, src);
    MarkFine(u, dest, src, both, Draining, []);
    assert [] + [0] == [0];
    assert One(u, dest, src, Draining, [0]) == none[0 := Import(u, dest, src, Draining, [0])];
    FinishFine(u, dest, src, none);
    HandOffFine(u, dest, src, none);
    ThreeMore(Alone(u, src), Drain(u, dest, src), Underway(u, src, both, One(u, dest, src, Draining, [])), Fine(Mark(0)),
              Underway(u, src, both, One(u, dest, src, Draining, [0])), Fine(Finish(0)), Flipping(u, dest, src, none),
              Fine(HandOff(0, true)), Flipped(u, dest, src, none));
  }

  /** The guards leave the ordinary move alone: it is a careful run, and the unit ends up at its destination. */
  lemma {:induction false} OrdinaryMoveIsCareful(u: Unit, dest: string, src: string)
    requires dest != src
    ensures var acts := Acts(Drain(u, dest, src) + [Fine(Mark(0)), Fine(Finish(0)), Fine(HandOff(0, true))]);
            Careful(Alone(u, src), acts) && Run(Alone(u, src), acts) == Flipped(u, dest, src, map[])
  {
    OrdinaryMoveLeads(u, dest, src);
    FineMovesAreCareful(Alone(u, src), Drain(u, dest, src) + [Fine(Mark(0)), Fine(Finish(0)), Fine(HandOff(0, true))], Flipped(u, dest, src, map[]));
  }

  /** A second import into the same node, streaming. */
  function Beside(u: Unit, dest: string, src: string, phase: Phase): map<nat, Import> { map[1 := Import(u, dest, src, phase, [])] }

  /** The first import, this far, and the second beside it. */
  function Two(u: Unit, dest: string, src: string, records: map<Key, Record>, phase: Phase, marks: seq<nat>, second: Phase): State {
    Underway(u, src, records, Beside(u, dest, src, second)[0 := Import(u, dest, src, phase, marks)])
  }

  lemma {:induction false} ResumePass(u: Unit, dest: string, src: string, rows: seq<Row>)
    requires dest != src && rows == [Row(dest, u, Importing(src))]
    ensures var s := Underway(u, src, Marker(u, dest, Importing(src)), One(u, dest, src, Pulling, []));
            StepsTo(s, Fine(Recover(rows, {src, dest}, {src, dest}, {})), s)
  {
    var s := Underway(u, src, Marker(u, dest, Importing(src)), One(u, dest, src, Pulling, []));
    ResumePlan(rows[0], {src, dest});
    OneCommandPass(s, rows, {src, dest}, {src, dest}, Resume(dest, src, u));
  }

  lemma {:induction false} ResumePlan(row: Row, reachable: set<string>)
    requires row.record.Importing? && row.record.peer in reachable
    ensures Plan([row], reachable) == [Resume(row.node, row.record.peer, row.unit)]
  {
    PlanOfOne(row, reachable);
  }

  lemma {:induction false} SecondStarts(u: Unit, dest: string, src: string)
    requires dest != src
    ensures StepsTo(Underway(u, src, Marker(u, dest, Importing(src)), One(u, dest, src, Pulling, [])), Fine(StartImport(1, u, dest, src)),
                    Two(u, dest, src, Marker(u, dest, Importing(src)), Pulling, [], Starting))
  {
    var s := Underway(u, src, Marker(u, dest, Importing(src)), One(u, dest, src, Pulling, []));
    assert Next(s, StartImport(1, u, dest, src)) == Two(u, dest, src, Marker(u, dest, Importing(src)), Pulling, [], Starting);
  }

  lemma {:induction false} SecondOpens(u: Unit, dest: string, src: string)
    requires dest != src
    ensures StepsTo(Two(u, dest, src, Marker(u, dest, Importing(src)), Pulling, [], Starting), Fine(Open(1)),
                    Two(u, dest, src, Marker(u, dest, Importing(src)), Pulling, [], Pulling))
  {
    var s := Two(u, dest, src, Marker(u, dest, Importing(src)), Pulling, [], Starting);
    assert Next(s, Open(1)) == Two(u, dest, src, Marker(u, dest, Importing(src)), Pulling, [], Pulling);
  }

  lemma {:induction false} FirstMarks(u: Unit, dest: string, src: string, records: map<Key, Record>, phase: Phase)
    requires phase.Pulling? || phase.Draining?
    ensures StepsTo(Two(u, dest, src, records, phase, [], Pulling), Fine(Mark(0)), Two(u, dest, src, records, phase, [0], Pulling))
  {
    assert [] + [0] == [0];
    assert Next(Two(u, dest, src, records, phase, [], Pulling), Mark(0)) == Two(u, dest, src, records, phase, [0], Pulling);
  }

  lemma {:induction false} FirstFreezes(u: Unit, dest: string, src: string)
    requires dest != src
    ensures StepsTo(Two(u, dest, src, Marker(u, dest, Importing(src)), Pulling, [0], Pulling), Fine(Freeze(0, true)),
                    Two(u, dest, src, Both(u, dest, src, Importing(src)), Draining, [], Pulling))
  {
    var s := Two(u, dest, src, Marker(u, dest, Importing(src)), Pulling, [0], Pulling);
    assert [0][1..] == [];
    assert Next(s, Freeze(0, true)) == Two(u, dest, src, Both(u, dest, src, Importing(src)), Draining, [], Pulling);
    assert Explained(s, dest, u, src);
  }

  lemma {:induction false} SecondCarriesPurge(u: Unit, dest: string, src: string)
    requires dest != src
    ensures var s := Flipped(u, dest, src, Beside(u, dest, src, Pulling));
            StepsTo(s, Risky(Overwrite(1)), s.(holders := {}))
  {
    var s := Flipped(u, dest, src, Beside(u, dest, src, Pulling));
    assert Next(s, Overwrite(1)) == s.(holders := {});
  }

  lemma {:induction false} SecondImportRuns(u: Unit, dest: string, src: string)
    requires dest != src
    ensures Leads(Alone(u, src), Pull(u, dest, src) + [Fine(Recover([Row(dest, u, Importing(src))], {src, dest}, {src, dest}, {})),
                                                       Fine(StartImport(1, u, dest, src)), Fine(Open(1))],
                  Two(u, dest, src, Marker(u, dest, Importing(src)), Pulling, [], Pulling))
  {
    var s := Underway(u, src, Marker(u, dest, Importing(src)), One(u, dest, src, Pulling, []));
    Pulls(u, dest, src);
    ResumePass(u, dest, src, [Row(dest, u, Importing(src))]);
    SecondStarts(u, dest, src);
    SecondOpens(u, dest, src);
    ThreeMore(Alone(u, src), Pull(u, dest, src), s, Fine(Recover([Row(dest, u, Importing(src))], {src, dest}, {src, dest}, {})), s,
              Fine(StartImport(1, u, dest, src)), Two(u, dest, src, Marker(u, dest, Importing(src)), Pulling, [], Starting),
              Fine(Open(1)), Two(u, dest, src, Marker(u, dest, Importing(src)), Pulling, [], Pulling));
  }

  lemma {:induction false} FirstImportDrains(u: Unit, dest: string, src: string, moves: seq<Move>)
    requires dest != src && Leads(Alone(u, src), moves, Two(u, dest, src, Marker(u, dest, Importing(src)), Pulling, [], Pulling))
    ensures Leads(Alone(u, src), moves + [Fine(Mark(0)), Fine(Freeze(0, true)), Fine(Mark(0))],
                  Two(u, dest, src, Both(u, dest, src, Importing(src)), Draining, [0], Pulling))
  {
    var marked, both := Marker(u, dest, Importing(src)), Both(u, dest, src, Importing(src));
    FirstMarks(u, dest, src, marked, Pulling);
    FirstFreezes(u, dest, src);
    FirstMarks(u, dest, src, both, Draining);
    ThreeMore(Alone(u, src), moves, Two(u, dest, src, marked, Pulling, [], Pulling), Fine(Mark(0)), Two(u, dest, src, marked, Pulling, [0], Pulling),
              Fine(Freeze(0, true)), Two(u, dest, src, both, Draining, [], Pulling), Fine(Mark(0)), Two(u, dest, src, both, Draining, [0], Pulling));
  }

  lemma {:induction false} FirstImportFlips(u: Unit, dest: string, src: string, moves: seq<Move>)
    requires dest != src && Leads(Alone(u, src), moves, Two(u, dest, src, Both(u, dest, src, Importing(src)), Draining, [0], Pulling))
    ensures LeadsToLoss(Alone(u, src), moves + [Fine(Finish(0)), Fine(HandOff(0, true)), Risky(Overwrite(1))])
  {
    var others := Beside(u, dest, src, Pulling);
    var flipped := Flipped(u, dest, src, others);
    FinishFine(u, dest, src, others);
    HandOffFine(u, dest, src, others);
    SecondCarriesPurge(u, dest, src);
    ThreeMore(Alone(u, src), moves, Two(u, dest, src, Both(u, dest, src, Importing(src)), Draining, [0], Pulling), Fine(Finish(0)),
              Flipping(u, dest, src, others), Fine(HandOff(0, true)), flipped, Risky(Overwrite(1)), flipped.(holders := {}));
  }

  /**
   * A pass that resumes a live import starts a second one. The first finishes and the source purges
   * its rows; the second, still streaming, carries those deletes to the new owner.
   */
  lemma {:induction false} SecondImportLosesTheSlot(u: Unit, dest: string, src: string)
    requires dest != src
    ensures LeadsToLoss(Alone(u, src), Pull(u, dest, src) + [Fine(Recover([Row(dest, u, Importing(src))], {src, dest}, {src, dest}, {})),
                                         Fine(StartImport(1, u, dest, src)), Fine(Open(1)), Fine(Mark(0)), Fine(Freeze(0, true)), Fine(Mark(0)),
                                         Fine(Finish(0)), Fine(HandOff(0, true)), Risky(Overwrite(1))])
  {
    var pass := Fine(Recover([Row(dest, u, Importing(src))], {src, dest}, {src, dest}, {}));
    var d := Pull(u, dest, src) + [pass, Fine(StartImport(1, u, dest, src)), Fine(Open(1))];
    SecondImportRuns(u, dest, src);
    FirstImportDrains(u, dest, src, d);
    FirstImportFlips(u, dest, src, d + [Fine(Mark(0)), Fine(Freeze(0, true)), Fine(Mark(0))]);
    assert d + [Fine(Mark(0)), Fine(Freeze(0, true)), Fine(Mark(0))] + [Fine(Finish(0)), Fine(HandOff(0, true)), Risky(Overwrite(1))]
           == Pull(u, dest, src) + [pass, Fine(StartImport(1, u, dest, src)), Fine(Open(1)), Fine(Mark(0)), Fine(Freeze(0, true)), Fine(Mark(0)),
                                    Fine(Finish(0)), Fine(HandOff(0, true)), Risky(Overwrite(1))];
  }
}
