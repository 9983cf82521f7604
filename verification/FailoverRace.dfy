/**
 * Any number of controllers driving one pair at once. Each polls the members one by one, decides,
 * re-reads them one by one and only then promotes; members change between any two of those steps.
 */
module FailoverRace {
  import opened Basics
  import opened FailoverDecision
  import FailoverTick
  import opened FailoverCluster

  /** One answer of a re-read, and the step at which it was taken. */
  datatype Read = Read(time: nat, node: Node)

  datatype Phase =
    | Idle
    | Polling(seen: seq<Node>)
    | Fencing(todo: seq<(string, nat)>)
    | Rereading(top: nat, survivor: string, answers: map<string, Read>)

  /**
   * The members and the controllers. `since` is the step of a member's last accepted promotion
   * (0 before the run) and `grounds` the re-read that promotion was issued on.
   */
  datatype World = World(members: map<string, Node>, since: map<string, nat>,
                         grounds: map<string, map<string, Read>>,
                         orders: map<nat, seq<string>>, phases: map<nat, Phase>, clock: nat)

  datatype Action =
    | Begin(c: nat)
    | PollOne(c: nat, answered: bool)
    | Decide(c: nat, gateOpens: bool)
    | FenceOne(c: nat, delivered: bool)
    | RereadOne(c: nat, answered: bool)
    | PromoteAfterReread(c: nat, delivered: bool)
    | RereadAndPromote(c: nat, delivered: bool)
    | MemberChanges(addr: string, now: Node)

  /** A member as one call answers it. */
  function Observe(n: Node, answered: bool): Node { if answered then n else Silent(n.addr) }

  function Turn(w: World, c: nat, p: Phase): World { w.(phases := w.phases[c := p]) }

  predicate Abandons(top: nat, answers: map<string, Read>) {
    exists a :: a in answers && answers[a].node.ClaimsMaster() && answers[a].node.epoch >= top
  }

  predicate Complete(order: seq<string>, answers: map<string, Read>) {
    forall i :: 0 <= i < |order| ==> order[i] in answers
  }

  function DecidePhase(seen: seq<Node>, gateOpens: bool): Phase {
    match Legit(seen)
    case Some(l) => Fencing(FailoverTick.Fences(Masters(seen), l.addr, TopEpoch(seen) + 1))
    case None =>
      if gateOpens && Survivor(seen).Some? then Rereading(TopEpoch(seen), Survivor(seen).value.addr, map[]) else Idle
  }

  /** FLINTPROMOTE of `survivor` at `top + 1`, on the strength of `answers`. */
  function Land(w: World, survivor: string, top: nat, answers: map<string, Read>): World {
    if survivor in w.members && Admits(w.members[survivor], top + 1) then
      w.(members := w.members[survivor := Promote(w.members[survivor], top + 1)],
         since := w.since[survivor := w.clock],
         grounds := w.grounds[survivor := answers])
    else w
  }

  function Snapshot(w: World): map<string, Read> {
    map a | a in w.members :: Read(w.clock, w.members[a])
  }

  /** A member may change in any way but becoming master or changing epoch while master. */
  predicate Permitted(old_: Node, now: Node) {
    && now.addr == old_.addr && now.reachable
    && (now.role == Master ==> old_.role == Master && now.epoch == old_.epoch)
  }

  /** One step; an action that is not enabled changes nothing but the clock. */
  function Step(w: World, act: Action): World {
    Act(w.(clock := w.clock + 1), act)
  }

  function Act(w: World, act: Action): World {
    match act
    case MemberChanges(addr, now) =>
      if addr in w.members && Permitted(w.members[addr], now) then w.(members := w.members[addr := now]) else w
    case _ =>
      if act.c !in w.phases || act.c !in w.orders then w else ActFor(w, act, act.c, w.orders[act.c], w.phases[act.c])
  }

  function ActFor(w: World, act: Action, c: nat, order: seq<string>, phase: Phase): World
    requires !act.MemberChanges?
  {
    match (act, phase)
    case (Begin(_), Idle) => Turn(w, c, Polling([]))
    case (PollOne(_, answered), Polling(seen)) =>
      if |seen| < |order| && order[|seen|] in w.members
      then Turn(w, c, Polling(seen + [Observe(w.members[order[|seen|]], answered)])) else w
    case (Decide(_, gateOpens), Polling(seen)) =>
      if |seen| == |order| then Turn(w, c, DecidePhase(seen, gateOpens)) else w
    case (FenceOne(_, delivered), Fencing(todo)) =>
      if todo == [] then Turn(w, c, Idle)
      else
        var (zombie, epoch) := todo[0];
        var rest := Turn(w, c, Fencing(todo[1..]));
        if delivered && zombie in w.members
        then rest.(members := w.members[zombie := Demote(w.members[zombie], epoch)]) else rest
    case (RereadOne(_, answered), Rereading(top, survivor, answers)) =>
      if |answers| < |order| && order[|answers|] in w.members then
        var a := order[|answers|];
        Turn(w, c, Rereading(top, survivor, answers[a := Read(w.clock, Observe(w.members[a], answered))]))
      else w
    case (PromoteAfterReread(_, delivered), Rereading(top, survivor, answers)) =>
      if !Complete(order, answers) then w
      else if Abandons(top, answers) || !delivered then Turn(w, c, Idle)
      else Land(Turn(w, c, Idle), survivor, top, answers)
    case (RereadAndPromote(_, delivered), Rereading(top, survivor, answers)) =>
      if Abandons(top, Snapshot(w)) || !delivered then Turn(w, c, Idle)
      else Land(Turn(w, c, Idle), survivor, top, Snapshot(w))
    case _ => w
  }

  function Run(w: World, acts: seq<Action>): World {
    if acts == [] then w else Step(Run(w, acts[..|acts| - 1]), acts[|acts| - 1])
  }

  // ---- the start -----------------------------------------------------------

  /** Every controller lists every member; no two members claim master at one epoch. */
  predicate Start(w: World) {
    && w.clock == 0
    && w.since.Keys == w.members.Keys && w.grounds.Keys == w.members.Keys
    && (forall a :: a in w.members ==> w.members[a].addr == a && w.members[a].reachable && w.since[a] == 0)
    && (forall c :: c in w.phases ==> w.phases[c] == Idle)
    && (forall c, a :: c in w.orders && a in w.members ==> a in w.orders[c])
    && (forall a, b :: a in w.members && b in w.members && a != b ==> !Duel(w, a, b))
  }

  /** Two members claim master at one epoch. */
  predicate Duel(w: World, a: string, b: string) {
    && a in w.members && b in w.members && a != b
    && w.members[a].role == Master && w.members[b].role == Master
    && w.members[a].epoch == w.members[b].epoch
  }

  /**
   * The promotion of `b` was issued without seeing `a` promoted: the re-read got no answer from
   * `a`, or it read `a` before `a` was promoted.
   */
  predicate Unseen(w: World, a: string, b: string) {
    && a in w.since && b in w.since && w.since[a] < w.since[b]
    && b in w.grounds && a in w.grounds[b]
    && (!w.grounds[b][a].node.reachable || w.grounds[b][a].time < w.since[a])
  }

  // ---- the invariant -------------------------------------------------------

  predicate Shape(w: World) {
    && w.since.Keys == w.members.Keys && w.grounds.Keys == w.members.Keys
    && (forall a :: a in w.members ==> w.members[a].addr == a && w.members[a].reachable)
    && (forall c, a :: c in w.orders && a in w.members ==> a in w.orders[c])
  }

  /** An answered re-read taken after `a`'s promotion shows `a` as it still is. */
  predicate Faithful(n: Node, since: nat, r: Read) {
    && r.time != since
    && (n.role == Master && r.node.reachable && since < r.time
        ==> r.node.role == Master && r.node.epoch == n.epoch)
  }

  predicate AllFaithful(w: World, answers: map<string, Read>)
    requires Shape(w)
  {
    forall a :: a in answers ==> a in w.members && answers[a].time <= w.clock && Faithful(w.members[a], w.since[a], answers[a])
  }

  predicate RereadsFaithful(w: World)
    requires Shape(w)
  {
    forall c :: c in w.phases && w.phases[c].Rereading? ==> AllFaithful(w, w.phases[c].answers)
  }

  ghost predicate DuelsExplained(w: World) {
    forall a, b :: Duel(w, a, b) ==> Unseen(w, a, b) || Unseen(w, b, a)
  }

  ghost predicate Inv(w: World) {
    && Shape(w) && RereadsFaithful(w) && DuelsExplained(w)
    && forall a :: a in w.since ==> w.since[a] <= w.clock
  }

  /** The invariant just after the clock moved: every recorded time is in the past. */
  ghost predicate Fresh(w: World) {
    && Inv(w)
    && (forall a :: a in w.since ==> w.since[a] < w.clock)
    && forall c, a :: c in w.phases && w.phases[c].Rereading? && a in w.phases[c].answers
                      ==> w.phases[c].answers[a].time < w.clock
  }

  /** Duels depend only on who is master at which epoch, and on what promotions recorded. */
  lemma {:induction false} DuelsCarryOver(w: World, w': World)
    requires DuelsExplained(w) && w'.since == w.since && w'.grounds == w.grounds
    requires w'.members.Keys == w.members.Keys
    requires forall a :: a in w.members && w'.members[a].role == Master ==>
               w.members[a].role == Master && w'.members[a].epoch == w.members[a].epoch
    ensures DuelsExplained(w')
  {
    forall a, b | Duel(w', a, b) ensures Unseen(w', a, b) || Unseen(w', b, a) {
      assert Duel(w, a, b);
    }
  }

  lemma {:induction false} ClockMoves(w: World)
    requires Inv(w)
    ensures Fresh(w.(clock := w.clock + 1))
  {
    var w' := w.(clock := w.clock + 1);
    DuelsCarryOver(w, w');
    forall c | c in w'.phases && w'.phases[c].Rereading? ensures AllFaithful(w', w'.phases[c].answers) {
      assert AllFaithful(w, w.phases[c].answers);
    }
  }

  lemma {:induction false} ChangeKeepsInv(w: World, addr: string, now: Node)
    requires Fresh(w) && addr in w.members && Permitted(w.members[addr], now)
    ensures Inv(w.(members := w.members[addr := now]))
  {
    var w' := w.(members := w.members[addr := now]);
    DuelsCarryOver(w, w');
    forall c | c in w'.phases && w'.phases[c].Rereading? ensures AllFaithful(w', w'.phases[c].answers) {
      assert AllFaithful(w, w.phases[c].answers);
    }
  }

  /** Moving one controller on, with answers that are faithful, keeps everything. */
  lemma {:induction false} TurnKeepsInv(w: World, c: nat, p: Phase)
    requires Fresh(w) && (p.Rereading? ==> AllFaithful(w, p.answers))
    ensures Inv(Turn(w, c, p))
    ensures !p.Rereading? ==> Fresh(Turn(w, c, p))
  {
    var w' := Turn(w, c, p);
    DuelsCarryOver(w, w');
    forall d | d in w'.phases && w'.phases[d].Rereading? ensures AllFaithful(w', w'.phases[d].answers) {
      if d != c { assert AllFaithful(w, w.phases[d].answers); }
    }
  }

  /** The heart: a promotion that was not abandoned meets only masters its re-read did not see. */
  lemma {:induction false} LandExplainsDuels(w: World, survivor: string, top: nat, answers: map<string, Read>)
    requires Fresh(w) && AllFaithful(w, answers) && answers.Keys == w.members.Keys && !Abandons(top, answers)
    ensures DuelsExplained(Land(w, survivor, top, answers))
  {
    var w' := Land(w, survivor, top, answers);
    forall a, b | Duel(w', a, b) ensures Unseen(w', a, b) || Unseen(w', b, a) {
      if w' == w || (a != survivor && b != survivor) {
        assert Duel(w, a, b);
      } else {
        var o := if a == survivor then b else a;
        assert o in answers && Faithful(w.members[o], w.since[o], answers[o]);
        assert !(answers[o].node.ClaimsMaster() && answers[o].node.epoch >= top);
        assert Unseen(w', o, survivor);
      }
    }
  }

  lemma {:induction false} LandKeepsInv(w: World, survivor: string, top: nat, answers: map<string, Read>)
    requires Fresh(w) && AllFaithful(w, answers) && answers.Keys == w.members.Keys && !Abandons(top, answers)
    ensures Inv(Land(w, survivor, top, answers))
  {
    var w' := Land(w, survivor, top, answers);
    LandExplainsDuels(w, survivor, top, answers);
    forall c | c in w'.phases && w'.phases[c].Rereading? ensures AllFaithful(w', w'.phases[c].answers) {
      assert AllFaithful(w, w.phases[c].answers);
      forall a | a in w'.phases[c].answers
        ensures Faithful(w'.members[a], w'.since[a], w'.phases[c].answers[a])
      {
        assert w.phases[c].answers[a].time < w.clock;
      }
    }
  }

  lemma {:induction false} RereadKeepsInv(w: World, c: nat, order: seq<string>, answered: bool)
    requires Fresh(w) && c in w.phases && w.phases[c].Rereading?
    ensures Inv(ActFor(w, RereadOne(c, answered), c, order, w.phases[c]))
  {
    var Rereading(top, survivor, answers) := w.phases[c];
    if |answers| < |order| && order[|answers|] in w.members {
      var a := order[|answers|];
      var read := Read(w.clock, Observe(w.members[a], answered));
      assert AllFaithful(w, answers) && Faithful(w.members[a], w.since[a], read);
      TurnKeepsInv(w, c, Rereading(top, survivor, answers[a := read]));
    }
  }

  lemma {:induction false} PromoteKeepsInv(w: World, c: nat, order: seq<string>, delivered: bool)
    requires Fresh(w) && c in w.phases && w.phases[c].Rereading?
    requires forall a :: a in w.members ==> a in order
    ensures Inv(ActFor(w, PromoteAfterReread(c, delivered), c, order, w.phases[c]))
  {
    var Rereading(top, survivor, answers) := w.phases[c];
    if Complete(order, answers) {
      TurnKeepsInv(w, c, Idle);
      if !Abandons(top, answers) && delivered {
        var w1 := Turn(w, c, Idle);
        assert AllFaithful(w, answers);
        forall a | a in w.members ensures a in answers {
          var i :| 0 <= i < |order| && order[i] == a;
        }
        assert answers.Keys == w.members.Keys;
        LandKeepsInv(w1, survivor, top, answers);
      }
    }
  }

  lemma {:induction false} SnapshotFaithful(w: World, answers: map<string, Read>)
    requires Fresh(w) && answers == Snapshot(w)
    ensures AllFaithful(w, answers) && answers.Keys == w.members.Keys
  {
  }

  lemma {:induction false} PromoteNowKeepsInv(w: World, c: nat, order: seq<string>, delivered: bool)
    requires Fresh(w) && c in w.phases && w.phases[c].Rereading?
    ensures Inv(ActFor(w, RereadAndPromote(c, delivered), c, order, w.phases[c]))
  {
    var Rereading(top, survivor, _) := w.phases[c];
    var answers, idle := Snapshot(w), Turn(w, c, Idle);
    TurnKeepsInv(w, c, Idle);
    if !Abandons(top, answers) && delivered {
      SnapshotFaithful(idle, answers);
      LandKeepsInv(idle, survivor, top, answers);
    }
  }

  lemma {:induction false} FenceKeepsInv(w: World, c: nat, order: seq<string>, delivered: bool)
    requires Fresh(w) && c in w.phases && w.phases[c].Fencing?
    ensures Inv(ActFor(w, FenceOne(c, delivered), c, order, w.phases[c]))
  {
    var todo := w.phases[c].todo;
    if todo == [] {
      TurnKeepsInv(w, c, Idle);
    } else {
      var (zombie, epoch) := todo[0];
      TurnKeepsInv(w, c, Fencing(todo[1..]));
      if delivered && zombie in w.members {
        ChangeKeepsInv(Turn(w, c, Fencing(todo[1..])), zombie, Demote(w.members[zombie], epoch));
      }
    }
  }

  lemma {:induction false} PollKeepsInv(w: World, act: Action, c: nat, order: seq<string>)
    requires Fresh(w) && c in w.phases && (act.Begin? || act.PollOne? || act.Decide?)
    ensures Inv(ActFor(w, act, c, order, w.phases[c]))
  {
    var w' := ActFor(w, act, c, order, w.phases[c]);
    if w' != w {
      assert w' == Turn(w, c, w'.phases[c]);
      TurnKeepsInv(w, c, w'.phases[c]);
    }
  }

  /** Every step of every controller and of every member keeps the invariant. */
  lemma {:induction false} StepKeepsInv(w: World, act: Action)
    requires Inv(w)
    ensures Inv(Step(w, act))
  {
    ClockMoves(w);
    var v := w.(clock := w.clock + 1);
    if act.MemberChanges? {
      if act.addr in v.members && Permitted(v.members[act.addr], act.now) {
        ChangeKeepsInv(v, act.addr, act.now);
      }
    } else if act.c in v.phases && act.c in v.orders {
      ActForKeepsInv(v, act, act.c, v.orders[act.c]);
    }
  }

  lemma {:induction false} ActForKeepsInv(w: World, act: Action, c: nat, order: seq<string>)
    requires Fresh(w) && !act.MemberChanges? && c in w.phases && act.c == c
    requires forall a :: a in w.members ==> a in order
    ensures Inv(ActFor(w, act, c, order, w.phases[c]))
  {
    match act
    case RereadOne(_, answered) => if w.phases[c].Rereading? { RereadKeepsInv(w, c, order, answered); }
    case PromoteAfterReread(_, delivered) => if w.phases[c].Rereading? { PromoteKeepsInv(w, c, order, delivered); }
    case RereadAndPromote(_, delivered) => if w.phases[c].Rereading? { PromoteNowKeepsInv(w, c, order, delivered); }
    case FenceOne(_, delivered) => if w.phases[c].Fencing? { FenceKeepsInv(w, c, order, delivered); }
    case _ => PollKeepsInv(w, act, c, order);
  }

  lemma {:induction false} RunKeepsInv(w: World, acts: seq<Action>)
    requires Start(w)
    ensures Inv(Run(w, acts))
    decreases |acts|
  {
    if acts != [] {
      RunKeepsInv(w, acts[..|acts| - 1]);
      StepKeepsInv(Run(w, acts[..|acts| - 1]), acts[|acts| - 1]);
    }
  }

  /**
   * In every interleaving, two members claim master at one epoch only if the later of the two
   * promotions was issued on a re-read that did not see the earlier one: it was not answered, or
   * it was taken before the earlier promotion landed.
   */
  lemma {:induction false} DuelNeedsAnUnseenPromotion(w: World, acts: seq<Action>, a: string, b: string)
    requires Start(w) && Duel(Run(w, acts), a, b)
    ensures Unseen(Run(w, acts), a, b) || Unseen(Run(w, acts), b, a)
  {
    RunKeepsInv(w, acts);
  }

  // ---- re-read and promote as one step ---------------------------------------

  /** The run never separates a re-read from the promotion it licenses, and every re-read is answered. */
  predicate Atomic(acts: seq<Action>) {
    forall i :: 0 <= i < |acts| ==> !acts[i].RereadOne? && !acts[i].PromoteAfterReread?
  }

  /** Every member answered, all at `time`. */
  predicate Covers(addrs: set<string>, answers: map<string, Read>, time: nat) {
    forall a :: a in addrs ==> a in answers && answers[a].node.reachable && answers[a].time == time
  }

  /** Every promotion so far was issued on a complete reading taken at its own instant. */
  predicate GroundsCurrent(w: World) {
    forall b :: b in w.grounds && b in w.since && w.since[b] > 0 ==> Covers(w.members.Keys, w.grounds[b], w.since[b])
  }

  /** Only a landing promotion writes `since` and `grounds`. */
  lemma {:induction false} OthersRecordNothing(w: World, act: Action)
    requires !act.RereadOne? && !act.PromoteAfterReread? && !act.RereadAndPromote?
    ensures Act(w, act).since == w.since && Act(w, act).grounds == w.grounds
    ensures Act(w, act).members.Keys == w.members.Keys
  {
  }

  lemma {:induction false} LandGrounds(w: World, survivor: string, top: nat)
    requires Shape(w) && GroundsCurrent(w)
    ensures GroundsCurrent(Land(w, survivor, top, Snapshot(w)))
  {
    assert Covers(w.members.Keys, Snapshot(w), w.clock);
    assert Land(w, survivor, top, Snapshot(w)).members.Keys == w.members.Keys;
  }

  lemma {:induction false} AtomicStepGrounds(w: World, act: Action)
    requires Shape(w) && GroundsCurrent(w) && !act.RereadOne? && !act.PromoteAfterReread?
    ensures GroundsCurrent(Act(w, act))
  {
    if !act.RereadAndPromote? {
      OthersRecordNothing(w, act);
    } else if act.c in w.phases && act.c in w.orders && w.phases[act.c].Rereading? {
      var idle := Turn(w, act.c, Idle);
      assert Snapshot(idle) == Snapshot(w);
      assert GroundsCurrent(idle);
      LandGrounds(idle, w.phases[act.c].survivor, w.phases[act.c].top);
    }
  }

  lemma {:induction false} AtomicGrounds(w: World, acts: seq<Action>)
    requires Start(w) && Atomic(acts)
    ensures GroundsCurrent(Run(w, acts))
    decreases |acts|
  {
    if acts != [] {
      var front, act := acts[..|acts| - 1], acts[|acts| - 1];
      AtomicGrounds(w, front);
      RunKeepsInv(w, front);
      var v := Run(w, front);
      AtomicStepGrounds(v.(clock := v.clock + 1), act);
    }
  }

  /** With the re-read and the promotion as one answered step, no two members ever share an epoch as masters. */
  lemma {:induction false} AtomicRunsHaveNoDuel(w: World, acts: seq<Action>, a: string, b: string)
    requires Start(w) && Atomic(acts)
    ensures !Duel(Run(w, acts), a, b)
  {
    var v := Run(w, acts);
    RunKeepsInv(w, acts);
    AtomicGrounds(w, acts);
    SeenWhenCurrent(v, a, b);
    SeenWhenCurrent(v, b, a);
  }

  lemma {:induction false} SeenWhenCurrent(w: World, a: string, b: string)
    requires Shape(w) && GroundsCurrent(w)
    ensures !Unseen(w, a, b)
  {
    if a in w.members && b in w.members && w.since[a] < w.since[b] {
      assert Covers(w.members.Keys, w.grounds[b], w.since[b]);
    }
  }

  /** The reason: such a promotion lands strictly above every master there is. */
  lemma {:induction false} AtomicPromotionLandsAbove(w: World, c: nat, order: seq<string>, a: string)
    requires Inv(w) && c in w.phases && w.phases[c].Rereading?
    ensures var w' := ActFor(w, RereadAndPromote(c, true), c, order, w.phases[c]);
            var s := w.phases[c].survivor;
            w'.members != w.members ==>
              && s in w'.members && w'.members[s].role == Master
              && (a in w.members && a != s && w.members[a].role == Master ==> w.members[a].epoch < w'.members[s].epoch)
  {
    if a in w.members {
      assert Snapshot(w)[a].node == w.members[a];
    }
  }

  // ---- both gaps are real ----------------------------------------------------

  /** Every poll and re-read in the run was answered. */
  predicate AllAnswered(acts: seq<Action>) {
    forall i :: 0 <= i < |acts| ==> Answered(acts[i])
  }

  predicate Answered(act: Action) { (act.PollOne? || act.RereadOne?) ==> act.answered }

  /** The worlds a run passes through. */
  ghost predicate Trace(ws: seq<World>, acts: seq<Action>) {
    |ws| == |acts| + 1 && forall i {:trigger acts[i]} :: 0 <= i < |acts| ==> ws[i + 1] == Step(ws[i], acts[i])
  }

  /** Some run leads from `w` to `v`; with `answered`, one in which every call was answered. */
  ghost predicate Reaches(w: World, v: World, answered: bool) {
    exists ws, acts :: Trace(ws, acts) && ws[0] == w && ws[|acts|] == v && (answered ==> AllAnswered(acts))
  }

  lemma {:induction false} ReachesItself(w: World, answered: bool)
    ensures Reaches(w, w, answered)
  {
    assert Trace([w], []);
  }

  lemma {:induction false} Then(w: World, u: World, act: Action, answered: bool)
    requires Reaches(w, u, answered) && (answered ==> Answered(act))
    ensures Reaches(w, Step(u, act), answered)
  {
    var ws, acts :| Trace(ws, acts) && ws[0] == w && ws[|acts|] == u && (answered ==> AllAnswered(acts));
    var more := acts + [act];
    assert forall i :: 0 <= i < |acts| ==> more[i] == acts[i];
    assert Trace(ws + [Step(u, act)], more);
  }

  lemma {:induction false} TraceIsRun(ws: seq<World>, acts: seq<Action>)
    requires Trace(ws, acts)
    ensures Run(ws[0], acts) == ws[|acts|]
    decreases |acts|
  {
    if acts != [] {
      var n := |acts| - 1;
      assert forall i :: 0 <= i < n ==> acts[..n][i] == acts[i];
      TraceIsRun(ws[..n + 1], acts[..n]);
      assert ws[n + 1] == Step(ws[n], acts[n]);
    }
  }

  lemma {:induction false} ReachedByARun(w: World, v: World, answered: bool) returns (acts: seq<Action>)
    requires Reaches(w, v, answered)
    ensures Run(w, acts) == v && (answered ==> AllAnswered(acts))
  {
    var ws, as_ :| Trace(ws, as_) && ws[0] == w && ws[|as_|] == v && (answered ==> AllAnswered(as_));
    TraceIsRun(ws, as_);
    acts := as_;
  }

  lemma {:induction false} TurnTwice(w: World, c: nat, p: Phase, q: Phase)
    ensures Turn(Turn(w, c, p), c, q) == Turn(w, c, q)
  {
    assert w.phases[c := p][c := q] == w.phases[c := q];
  }

  /** Both polls show no master, and "b" at epoch 1 is passed over only for "a" at epoch 1. */
  lemma {:induction false} DecidesOn(a: Node, b: Node)
    requires !a.ClaimsMaster() && !b.ClaimsMaster() && b.Promotable() && b.epoch == 1 && b.addr == "b"
    requires a.addr == "a" && (if a.Promotable() then a.epoch == 1 else a.epoch == 0)
    ensures DecidePhase([a, b], true) == Rereading(1, if a.Promotable() then "a" else "b", map[])
  {
    assert [a, b][1..] == [b];
    assert [b][1..] == [];
    assert Masters([]) == [] && Masters([b]) == [] && Masters([a, b]) == [];
    assert TopEpoch([]) == 0 && TopEpoch([b]) == 1 && TopEpoch([a, b]) == 1;
    assert Candidates([]) == [] && Candidates([b]) == [b];
    assert [b][..0] == [] && Best([]) == None && Best([b]) == Some(b);
    if a.Promotable() {
      assert Candidates([a, b]) == [a, b] && [a, b][..1] == [a] && [a][..0] == [];
      assert Best([a]) == Some(a);
    } else {
      assert Candidates([a, b]) == [b];
    }
  }

  /** An idle controller polls both members and gets as far as the re-read. */
  lemma {:induction false} PollsAndDecides(w0: World, w: World, c: nat, a: Node, answered: bool, all: bool)
    requires Reaches(w0, w, all) && (all ==> answered)
    requires "a" in w.members && "b" in w.members && c in w.phases && c in w.orders
    requires w.phases[c] == Idle && w.orders[c] == ["a", "b"]
    requires a == Observe(w.members["a"], answered)
    requires var b := w.members["b"]; !b.ClaimsMaster() && b.Promotable() && b.epoch == 1 && b.addr == "b"
    requires !a.ClaimsMaster() && a.addr == "a" && (if a.Promotable() then a.epoch == 1 else a.epoch == 0)
    ensures Reaches(w0, Turn(w, c, Rereading(1, if a.Promotable() then "a" else "b", map[])).(clock := w.clock + 4), all)
  {
    var b := w.members["b"];
    assert [] + [a] == [a] && [a] + [b] == [a, b];
    BeginStep(w, c);
    Then(w0, w, Begin(c), all);
    var w1 := Turn(w, c, Polling([])).(clock := w.clock + 1);
    PollStep(w, w1, c, [], a, answered);
    Then(w0, w1, PollOne(c, answered), all);
    var w2 := Turn(w, c, Polling([a])).(clock := w.clock + 2);
    PollStep(w, w2, c, [a], b, true);
    Then(w0, w2, PollOne(c, true), all);
    var w3 := Turn(w, c, Polling([a, b])).(clock := w.clock + 3);
    DecideStep(w, w3, c, a, b);
    Then(w0, w3, Decide(c, true), all);
  }

  lemma {:induction false} BeginStep(w: World, c: nat)
    requires c in w.phases && c in w.orders && w.phases[c] == Idle
    ensures Step(w, Begin(c)) == Turn(w, c, Polling([])).(clock := w.clock + 1)
  {
  }

  lemma {:induction false} PollStep(w: World, v: World, c: nat, seen: seq<Node>, n: Node, answered: bool)
    requires c in w.phases && c in w.orders && |seen| < |w.orders[c]| && w.orders[c][|seen|] in w.members
    requires v == Turn(w, c, Polling(seen)).(clock := v.clock) && n == Observe(w.members[w.orders[c][|seen|]], answered)
    ensures Step(v, PollOne(c, answered)) == Turn(w, c, Polling(seen + [n])).(clock := v.clock + 1)
  {
    TurnTwice(w, c, Polling(seen), Polling(seen + [n]));
  }

  lemma {:induction false} DecideStep(w: World, v: World, c: nat, a: Node, b: Node)
    requires c in w.phases && c in w.orders && |w.orders[c]| == 2
    requires v == Turn(w, c, Polling([a, b])).(clock := v.clock)
    requires !a.ClaimsMaster() && !b.ClaimsMaster() && b.Promotable() && b.epoch == 1 && b.addr == "b"
    requires a.addr == "a" && (if a.Promotable() then a.epoch == 1 else a.epoch == 0)
    ensures Step(v, Decide(c, true))
            == Turn(w, c, Rereading(1, if a.Promotable() then "a" else "b", map[])).(clock := v.clock + 1)
  {
    DecidesOn(a, b);
    TurnTwice(w, c, Polling([a, b]), DecidePhase([a, b], true));
  }

  lemma {:induction false} RereadStep(w0: World, w: World, v: World, c: nat, survivor: string, answers: map<string, Read>,
                                      addr: string, answered: bool, all: bool)
    requires Reaches(w0, v, all) && (all ==> answered) && c in w.phases && c in w.orders
    requires v == Turn(w, c, Rereading(1, survivor, answers)).(clock := v.clock)
    requires |answers| < |w.orders[c]| && w.orders[c][|answers|] == addr && addr in w.members
    ensures var read := Read(v.clock + 1, Observe(w.members[addr], answered));
            Reaches(w0, Turn(w, c, Rereading(1, survivor, answers[addr := read])).(clock := v.clock + 1), all)
  {
    var read := Read(v.clock + 1, Observe(w.members[addr], answered));
    TurnTwice(w, c, Rereading(1, survivor, answers), Rereading(1, survivor, answers[addr := read]));
    Then(w0, v, RereadOne(c, answered), all);
  }

  /** A controller re-reads both members, one after the other. */
  lemma {:induction false} RereadsBoth(w0: World, w: World, c: nat, survivor: string, answered: bool, all: bool, ra: Read, rb: Read)
    requires Reaches(w0, w, all) && (all ==> answered)
    requires "a" in w.members && "b" in w.members && c in w.phases && c in w.orders
    requires w.phases[c] == Rereading(1, survivor, map[]) && w.orders[c] == ["a", "b"]
    requires ra == Read(w.clock + 1, Observe(w.members["a"], answered)) && rb == Read(w.clock + 2, w.members["b"])
    ensures Reaches(w0, Turn(w, c, Rereading(1, survivor, map["a" := ra, "b" := rb])).(clock := w.clock + 2), all)
  {
    assert Turn(w, c, w.phases[c]) == w;
    RereadStep(w0, w, w, c, survivor, map[], "a", answered, all);
    var one := map["a" := ra];
    assert map[]["a" := ra] == one && |one| == 1;
    var w1 := Turn(w, c, Rereading(1, survivor, one)).(clock := w.clock + 1);
    RereadStep(w0, w, w1, c, survivor, one, "b", true, all);
    assert one["b" := rb] == map["a" := ra, "b" := rb];
  }

  /** A complete re-read that saw no master lets the promotion at epoch 2 land. */
  lemma {:induction false} Lands(w0: World, w: World, c: nat, survivor: string, ra: Read, rb: Read, all: bool) returns (v: World)
    requires Reaches(w0, w, all) && c in w.phases && c in w.orders && w.orders[c] == ["a", "b"]
    requires w.phases[c] == Rereading(1, survivor, map["a" := ra, "b" := rb])
    requires !ra.node.ClaimsMaster() && !rb.node.ClaimsMaster()
    requires survivor in w.members && w.members[survivor].epoch < 2
    ensures Reaches(w0, v, all)
    ensures v.members == w.members[survivor := w.members[survivor].(role := Master, epoch := 2)]
    ensures v.phases == w.phases[c := Idle] && v.orders == w.orders
  {
    v := Step(w, PromoteAfterReread(c, true));
    Then(w0, w, PromoteAfterReread(c, true), all);
    assert Complete(w.orders[c], w.phases[c].answers);
  }

  /** Two members, two controllers that list them in order. */
  function PairOf(a: Node, b: Node): World {
    World(map["a" := a, "b" := b], map["a" := 0, "b" := 0], map["a" := map[], "b" := map[]],
          map[0 := ["a", "b"], 1 := ["a", "b"]], map[0 := Idle, 1 := Idle], 0)
  }

  lemma {:induction false} PairStarts(a: Node, b: Node)
    requires a.addr == "a" && b.addr == "b" && a.reachable && b.reachable && b.role != Master
    ensures Start(PairOf(a, b))
  {
  }

  /**
   * A silent master: "a" is master at epoch 2 and answers nobody, "b" was last at epoch 1. The
   * controller promotes "b" at epoch 2, and both claim it.
   */
  lemma {:induction false} SilentMasterCanBeMatched(w: World) returns (acts: seq<Action>)
    requires w == PairOf(Peer("a", 2, 0, None).(role := Master), Peer("b", 1, 0, None))
    ensures Start(w) && Duel(Run(w, acts), "a", "b")
  {
    PairStarts(w.members["a"], w.members["b"]);
    var v := SilentMasterReaches(w);
    acts := ReachedByARun(w, v, false);
  }

  lemma {:induction false} SilentMasterReaches(w: World) returns (v: World)
    requires w == PairOf(Peer("a", 2, 0, None).(role := Master), Peer("b", 1, 0, None))
    ensures Reaches(w, v, false) && Duel(v, "a", "b")
  {
    ReachesItself(w, false);
    PollsAndDecides(w, w, 0, Silent("a"), false, false);
    var w1 := Turn(w, 0, Rereading(1, "b", map[])).(clock := 4);
    var ra, rb := Read(5, Silent("a")), Read(6, w.members["b"]);
    RereadsBoth(w, w1, 0, "b", false, false, ra, rb);
    var w2 := Turn(w1, 0, Rereading(1, "b", map["a" := ra, "b" := rb])).(clock := 6);
    v := Lands(w, w2, 0, "b", ra, rb, false);
  }

  /**
   * Two controllers: one polled while "a" was still syncing and chose "b", the other after it
   * finished and chose "a". Every call is answered, but both re-read before either promotes, and
   * both promotions land.
   */
  lemma {:induction false} TwoControllersCanDuel(w: World) returns (acts: seq<Action>)
    requires w == PairOf(Peer("a", 0, 0, None).(role := Loading, loading := true), Peer("b", 1, 0, None))
    ensures Start(w) && AllAnswered(acts) && Duel(Run(w, acts), "a", "b")
  {
    PairStarts(w.members["a"], w.members["b"]);
    var w3 := BothDecide(w);
    var v := BothRereadThenPromote(w, w3);
    acts := ReachedByARun(w, v, true);
  }

  lemma {:induction false} BothDecide(w: World) returns (w3: World)
    requires w == PairOf(Peer("a", 0, 0, None).(role := Loading, loading := true), Peer("b", 1, 0, None))
    ensures Reaches(w, w3, true)
    ensures w3.members.Keys == {"a", "b"} && w3.members["a"] == Peer("a", 1, 0, None) && w3.members["b"] == Peer("b", 1, 0, None)
    ensures w3.orders.Keys == {0, 1} && w3.orders[0] == w3.orders[1] == ["a", "b"]
    ensures w3.phases.Keys == {0, 1} && w3.phases[0] == Rereading(1, "a", map[]) && w3.phases[1] == Rereading(1, "b", map[])
  {
    var synced := Peer("a", 1, 0, None);
    ReachesItself(w, true);
    PollsAndDecides(w, w, 1, w.members["a"], true, true);
    var w1 := Turn(w, 1, Rereading(1, "b", map[])).(clock := 4);
    Then(w, w1, MemberChanges("a", synced), true);
    var w2 := w1.(members := w1.members["a" := synced], clock := 5);
    assert Step(w1, MemberChanges("a", synced)) == w2;
    PollsAndDecides(w, w2, 0, synced, true, true);
    w3 := Turn(w2, 0, Rereading(1, "a", map[])).(clock := 9);
  }

  lemma {:induction false} BothRereadThenPromote(w: World, w3: World) returns (v: World)
    requires Reaches(w, w3, true)
    requires w3.members.Keys == {"a", "b"} && w3.members["a"] == Peer("a", 1, 0, None) && w3.members["b"] == Peer("b", 1, 0, None)
    requires w3.orders.Keys == {0, 1} && w3.orders[0] == w3.orders[1] == ["a", "b"]
    requires w3.phases.Keys == {0, 1} && w3.phases[0] == Rereading(1, "a", map[]) && w3.phases[1] == Rereading(1, "b", map[])
    ensures Reaches(w, v, true) && Duel(v, "a", "b")
  {
    var a, b, t := w3.members["a"], w3.members["b"], w3.clock;
    RereadsBoth(w, w3, 0, "a", true, true, Read(t + 1, a), Read(t + 2, b));
    var w4 := Turn(w3, 0, Rereading(1, "a", map["a" := Read(t + 1, a), "b" := Read(t + 2, b)])).(clock := t + 2);
    RereadsBoth(w, w4, 1, "b", true, true, Read(t + 3, a), Read(t + 4, b));
    var w5 := Turn(w4, 1, Rereading(1, "b", map["a" := Read(t + 3, a), "b" := Read(t + 4, b)])).(clock := t + 4);
    var w6 := Lands(w, w5, 0, "a", Read(t + 1, a), Read(t + 2, b), true);
    v := Lands(w, w6, 1, "b", Read(t + 3, a), Read(t + 4, b), true);
  }
}
