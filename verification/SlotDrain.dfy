/**
 * When the cutover of a slot move has everything. The source sends caught-up marks, on a timer as well
 * as after writes; the destination freezes it at one mark and takes over at the next one it reads.
 */
module SlotDrain {
  import opened Basics
  import opened SlotMoves

  /** No mark of the import is ahead of its source. */
  predicate MarksBehind(s: State, i: Import) {
    forall j :: 0 <= j < |i.marks| ==> i.marks[j] <= Position(s, i.src, i.unit)
  }

  ghost predicate AllMarksBehind(s: State) {
    forall id {:trigger s.imports[id]} :: id in s.imports ==> MarksBehind(s, s.imports[id])
  }

  /** A pass moves no import and no position. */
  lemma {:induction false} PassSparesImports(s: State, act: Action)
    requires act.Recover? && Enabled(s, act)
    ensures Next(s, act).imports == s.imports && Next(s, act).positions == s.positions
  {
    ExecutedPass(s, Plan(act.rows, act.reachable), act.lost);
  }

  lemma {:induction false} PositionsGrow(s: State, act: Action, node: string, u: Unit)
    requires Enabled(s, act)
    ensures Position(s, node, u) <= Position(Next(s, act), node, u)
  {
    if act.Recover? { PassSparesImports(s, act); }
  }

  /** The import is as it was but for its phase and for marks that were read or made. */
  predicate Follows(s: State, i: Import, i': Import) {
    && i'.unit == i.unit && i'.src == i.src && i'.dest == i.dest
    && (i'.marks == i.marks || (i.marks != [] && i'.marks == i.marks[1..]) || i'.marks == i.marks + [Position(s, i.src, i.unit)])
  }

  /** The step is one of the import's own. */
  predicate OwnStep(act: Action, id: nat) {
    !act.Crash? && !act.ClientWrite? && !act.AbortArrives? && !act.DisownArrives? && !act.Recover? && act.id == id
  }

  lemma {:induction false} OthersLeaveImport(s: State, act: Action, id: nat)
    requires Enabled(s, act) && !OwnStep(act, id) && id in Next(s, act).imports
    ensures id in s.imports && Next(s, act).imports[id] == s.imports[id]
  {
    if act.Recover? { PassSparesImports(s, act); }
  }

  lemma {:induction false} ImportsFollow(s: State, act: Action, id: nat)
    requires Enabled(s, act) && id in Next(s, act).imports
    ensures if id in s.imports then Follows(s, s.imports[id], Next(s, act).imports[id]) else Next(s, act).imports[id].marks == []
  {
    if !OwnStep(act, id) { OthersLeaveImport(s, act, id); }
  }

  lemma {:induction false} StepKeepsMarksBehind(s: State, act: Action)
    requires AllMarksBehind(s) && Enabled(s, act)
    ensures AllMarksBehind(Next(s, act))
  {
    var s' := Next(s, act);
    forall id | id in s'.imports ensures MarksBehind(s', s'.imports[id]) {
      ImportsFollow(s, act, id);
      if id in s.imports {
        assert MarksBehind(s, s.imports[id]);
        PositionsGrow(s, act, s.imports[id].src, s.imports[id].unit);
      }
    }
  }

  /** In every run, unsafe steps included, a mark that is not its source's position is behind it. */
  lemma {:induction false} MarksNeverAhead(s: State, acts: seq<Action>)
    requires AllMarksBehind(s) && Possible(s, acts)
    ensures AllMarksBehind(After(s, acts))
    decreases |acts|
  {
    if acts != [] {
      StepKeepsMarksBehind(s, acts[0]);
      MarksNeverAhead(Next(s, acts[0]), acts[1..]);
    }
  }

  /** The import is draining a source that is frozen for its destination. */
  predicate Drains(s: State, id: nat) {
    && id in s.imports && s.imports[id].phase.Draining?
    && Frozen(s, s.imports[id].src, s.imports[id].unit, s.imports[id].dest)
  }

  /** The import drains before and after every step of the run, whatever else goes on. */
  ghost predicate KeepsDraining(s: State, acts: seq<Action>, id: nat)
    decreases |acts|
  {
    Drains(s, id) && (acts == [] || (Enabled(s, acts[0]) && KeepsDraining(Next(s, acts[0]), acts[1..], id)))
  }

  lemma {:induction false} DrainingIsPossible(s: State, acts: seq<Action>, id: nat)
    requires KeepsDraining(s, acts, id)
    ensures Possible(s, acts) && Drains(After(s, acts), id)
    decreases |acts|
  {
    if acts != [] { DrainingIsPossible(Next(s, acts[0]), acts[1..], id); }
  }

  /** A source that stays frozen writes nothing, and what it marks is its position. */
  lemma {:induction false} DrainStep(s: State, act: Action, id: nat)
    requires Drains(s, id) && Enabled(s, act) && Drains(Next(s, act), id)
    ensures var i := s.imports[id]; var s' := Next(s, act); var i' := s'.imports[id];
            && i'.unit == i.unit && i'.src == i.src && i'.dest == i.dest
            && Position(s', i.src, i.unit) == Position(s, i.src, i.unit)
            && (i'.marks == i.marks || i'.marks == i.marks + [Position(s, i.src, i.unit)])
  {
    if !OwnStep(act, id) { OthersLeaveImport(s, act, id); }
    if act.Recover? { PassSparesImports(s, act); }
  }

  /** What the next mark read will say: the oldest unread one, or the position itself if there is none. */
  function NextMark(s: State, id: nat): nat
    requires id in s.imports
  {
    var i := s.imports[id];
    if i.marks == [] then Position(s, i.src, i.unit) else i.marks[0]
  }

  lemma {:induction false} DrainKeeps(s: State, acts: seq<Action>, id: nat)
    requires KeepsDraining(s, acts, id) && Possible(s, acts)
    ensures var i := s.imports[id]; var t := After(s, acts);
            && id in t.imports && t.imports[id].unit == i.unit && t.imports[id].src == i.src && t.imports[id].dest == i.dest
            && Position(t, i.src, i.unit) == Position(s, i.src, i.unit) && NextMark(t, id) == NextMark(s, id)
    decreases |acts|
  {
    if acts != [] {
      DrainStep(s, acts[0], id);
      DrainKeeps(Next(s, acts[0]), acts[1..], id);
    }
  }

  /**
   * The cutover's own argument. From the freeze on, if the source stays frozen, the destination takes
   * over with everything exactly when no second mark was waiting at the freeze, so that the mark read
   * next was made after it, or the one waiting was made after the source's last write.
   */
  lemma {:induction false} CutoverIsWholeIff(s: State, id: nat, acts: seq<Action>)
    requires Enabled(s, Freeze(id, true)) && KeepsDraining(Next(s, Freeze(id, true)), acts, id)
    requires Possible(Next(s, Freeze(id, true)), acts)
    requires var t := After(Next(s, Freeze(id, true)), acts);
             id in t.imports && Enabled(t, Finish(id)) && Key(t.imports[id].src, t.imports[id].unit) in t.holders
    ensures var i := s.imports[id];
            Whole(After(Next(s, Freeze(id, true)), acts), id) <==> |i.marks| == 1 || i.marks[1] == Position(s, i.src, i.unit)
  {
    DrainKeeps(Next(s, Freeze(id, true)), acts, id);
  }
}
