/**
 * One controller's observe-decide pass over a decision-only pair, and what every run of passes
 * guarantees about the promotions it issues.
 */
module FailoverTick {
  import opened Basics
  import opened FailoverDecision

  datatype Config = Config(confirm: nat, slowPromote: nat, maxStale: nat)

  /** How the survivor answered FLINTPROMOTE. */
  datatype Reply = Accepted | Fenced | Failed

  /**
   * Everything a pass reads from outside: the clock, the poll, whether a planned handover holds
   * the pair, the re-read, whether the fencing record committed, and the survivor's answer.
   */
  datatype Poll = Poll(now: nat, states: seq<Node>, held: bool, recheck: seq<Node>,
                       recordCommitted: bool, reply: Reply)

  /** What a pair remembers between passes. */
  datatype Memory = Memory(convergedEver: bool, lastConverged: nat, streak: nat,
                           slowSince: Option<nat>, lastInsync: seq<(string, nat)>)

  datatype Outcome =
    | Healthy(legit: string, fenced: seq<(string, nat)>)
    | Waiting
    | Held
    | Refused
    | NoCandidate
    | Abandoned
    | Unrecorded
    | Issued(survivor: string, epoch: nat, reply: Reply)

  const FRESH := Memory(false, 0, 0, None, [])

  /**
   * What a pass makes of one poll, before it consults its memory. `contenders` are the addresses
   * of the promotable members at the top promotable epoch, which is `contenderEpoch`.
   */
  datatype Reading = Reading(now: nat, legit: Option<Node>, masters: seq<Node>,
                             holders: seq<(string, nat)>, slow: bool, held: bool, insync: bool,
                             contenders: seq<string>, contenderEpoch: nat, survivor: Option<Node>,
                             top: nat, overtaken: bool, recordCommitted: bool, reply: Reply)
  {
    /** A legitimate master was seen converged. */
    predicate Converged() { legit.Some? && legit.value.Converged() }
  }

  predicate Slow(states: seq<Node>) { exists n :: n in states && !n.reachable && n.socketAlive }

  /** The other claimers, each to be fenced above every epoch seen. */
  function Fences(masters: seq<Node>, legit: string, epoch: nat): seq<(string, nat)> {
    if masters == [] then [] else
    (if masters[0].addr != legit then [(masters[0].addr, epoch)] else []) + Fences(masters[1..], legit, epoch)
  }

  /** Who is remembered when a converged master is seen: it and its reachable replicas. */
  function Holders(states: seq<Node>, legit: Node): seq<(string, nat)> {
    [(legit.addr, legit.epoch)] + ReplicaHolders(states, legit)
  }

  function ReplicaHolders(states: seq<Node>, legit: Node): seq<(string, nat)> {
    if states == [] then [] else
    var n := states[0];
    (if n.reachable && n.addr != legit.addr && n.role == Replica then [(n.addr, legit.epoch)] else [])
    + ReplicaHolders(states[1..], legit)
  }

  /** The addresses of the promotable members at epoch `top`. */
  function Contenders(states: seq<Node>, top: nat): seq<string> {
    if states == [] then [] else
    (if states[0].Promotable() && states[0].epoch == top then [states[0].addr] else [])
    + Contenders(states[1..], top)
  }

  function See(p: Poll): Reading {
    var legit, top := Legit(p.states), TopEpoch(p.states);
    var contenderEpoch := TopEpoch(Candidates(p.states));
    Reading(p.now, legit, Masters(p.states), if legit.Some? then Holders(p.states, legit.value) else [],
            Slow(p.states), p.held, InsyncHolder(p.states).Some?,
            Contenders(p.states, contenderEpoch), contenderEpoch, Survivor(p.states), top,
            MasterHoldsTopEpoch(p.recheck, top).Some?, p.recordCommitted, p.reply)
  }

  /** Some remembered member is still a contender, at an epoch not below the remembered one. */
  predicate Recalled(contenders: seq<string>, epoch: nat, remembered: seq<(string, nat)>) {
    exists i :: 0 <= i < |remembered| && remembered[i].0 in contenders && remembered[i].1 <= epoch
  }

  predicate ShouldPromote(slow: bool, streak: nat, confirm: nat, slowElapsed: Option<int>, slowPromote: nat) {
    if slow then slowElapsed.Some? && slowElapsed.value >= slowPromote else streak >= confirm
  }

  predicate RecentlyConverged(cfg: Config, m: Memory, now: nat) {
    m.convergedEver && now - m.lastConverged <= cfg.maxStale
  }

  predicate GateOpen(cfg: Config, m: Memory, r: Reading) {
    RecentlyConverged(cfg, m, r.now) || r.insync || Recalled(r.contenders, r.contenderEpoch, m.lastInsync)
  }

  /** The memory with this master-less pass counted. */
  function Counted(m: Memory, slow: bool, now: nat): Memory {
    m.(streak := m.streak + 1,
       slowSince := if !slow then None else if m.slowSince.Some? then m.slowSince else Some(now))
  }

  function Elapsed(slowSince: Option<nat>, now: nat): Option<int> {
    if slowSince.Some? then Some(now - slowSince.value) else None
  }

  /** One pass, as a function of the memory and the reading. */
  function Decide(cfg: Config, m: Memory, r: Reading): (Memory, Outcome) {
    match r.legit
    case Some(l) =>
      var calm := m.(streak := 0, slowSince := None);
      ((if r.Converged() then calm.(convergedEver := true, lastConverged := r.now, lastInsync := r.holders) else calm),
       Healthy(l.addr, Fences(r.masters, l.addr, r.top + 1)))
    case None =>
      var c := Counted(m, r.slow, r.now);
      if !ShouldPromote(r.slow, c.streak, cfg.confirm, Elapsed(c.slowSince, r.now), cfg.slowPromote) then (c, Waiting)
      else if r.held then (c, Held)
      else if !GateOpen(cfg, c, r) then (c.(streak := 0), Refused)
      else if r.survivor.None? then (c.(streak := 0), NoCandidate)
      else if r.overtaken then (c.(streak := 0), Abandoned)
      else if !r.recordCommitted then (c.(streak := 0), Unrecorded)
      else
        var s, next := r.survivor.value, r.top + 1;
        (match r.reply
         case Accepted => c.(convergedEver := false, lastInsync := [(s.addr, next)], streak := 0)
         case Fenced => c.(streak := 0)
         case Failed => c,
         Issued(s.addr, next, r.reply))
  }

  /** The pair's state between passes, updated in place. */
  class Pair {
    var convergedEver: bool
    var lastConverged: nat
    var noMasterStreak: nat
    var slowSince: Option<nat>
    var lastInsync: seq<(string, nat)>

    function View(): Memory
      reads this
    {
      Memory(convergedEver, lastConverged, noMasterStreak, slowSince, lastInsync)
    }

    constructor (now: nat)
      ensures View() == FRESH.(lastConverged := now)
    {
      convergedEver, lastConverged, noMasterStreak, slowSince, lastInsync := false, now, 0, None, [];
    }

    /** One observe-decide pass. */
    method Tick(cfg: Config, p: Poll) returns (o: Outcome)
      modifies this
      ensures (View(), o) == Decide(cfg, old(View()), See(p))
    {
      var r := See(p);
      if r.legit.Some? {
        o := Supervise(cfg, r);
      } else {
        o := Failover(cfg, r);
      }
    }

    /** A legitimate master was seen: fence the other claimers, remember who holds the lineage. */
    method Supervise(cfg: Config, r: Reading) returns (o: Outcome)
      requires r.legit.Some?
      modifies this
      ensures (View(), o) == Decide(cfg, old(View()), r)
    {
      var legit := r.legit.value;
      noMasterStreak := 0;
      slowSince := None;
      var fenced: seq<(string, nat)> := [];
      for i := 0 to |r.masters|
        invariant View() == old(View()).(streak := 0, slowSince := None)
        invariant fenced + Fences(r.masters[i..], legit.addr, r.top + 1) == Fences(r.masters, legit.addr, r.top + 1)
      {
        if r.masters[i].addr != legit.addr {
          fenced := fenced + [(r.masters[i].addr, r.top + 1)];
        }
      }
      assert r.masters[|r.masters|..] == [];
      if legit.Converged() {
        lastConverged := r.now;
        convergedEver := true;
        lastInsync := r.holders;
      }
      o := Healthy(legit.addr, fenced);
      assert fenced == Fences(r.masters, legit.addr, r.top + 1);
    }

    /** No master was seen: wait, gate, re-read, record, promote. */
    method Failover(cfg: Config, r: Reading) returns (o: Outcome)
      requires r.legit.None?
      modifies this
      ensures (View(), o) == Decide(cfg, old(View()), r)
    {
      noMasterStreak := noMasterStreak + 1;
      if !r.slow {
        slowSince := None;
      } else if slowSince.None? {
        slowSince := Some(r.now);
      }
      if !ShouldPromote(r.slow, noMasterStreak, cfg.confirm, Elapsed(slowSince, r.now), cfg.slowPromote) {
        return Waiting;
      }
      if r.held {
        return Held;
      }
      if !convergedEver || r.now - lastConverged > cfg.maxStale {
        if !r.insync && !Recalled(r.contenders, r.contenderEpoch, lastInsync) {
          noMasterStreak := 0;
          return Refused;
        }
      }
      if r.survivor.None? {
        noMasterStreak := 0;
        return NoCandidate;
      }
      if r.overtaken {
        noMasterStreak := 0;
        return Abandoned;
      }
      if !r.recordCommitted {
        noMasterStreak := 0;
        return Unrecorded;
      }
      var survivor, next := r.survivor.value, r.top + 1;
      match r.reply {
        case Accepted =>
          convergedEver := false;
          lastInsync := [(survivor.addr, next)];
          noMasterStreak := 0;
        case Fenced =>
          noMasterStreak := 0;
        case Failed =>
      }
      return Issued(survivor.addr, next, r.reply);
    }
  }

  // ---- runs of passes ------------------------------------------------------

  function After(cfg: Config, rs: seq<Reading>): Memory {
    if rs == [] then FRESH else Decide(cfg, After(cfg, rs[..|rs| - 1]), rs[|rs| - 1]).0
  }

  function OutcomeAt(cfg: Config, rs: seq<Reading>, k: nat): Outcome
    requires k < |rs|
  {
    Decide(cfg, After(cfg, rs[..k]), rs[k]).1
  }

  predicate AcceptedAt(cfg: Config, rs: seq<Reading>, k: nat)
    requires k < |rs|
  {
    var o := OutcomeAt(cfg, rs, k);
    o.Issued? && o.reply == Accepted
  }

  /** Every pass in `[from, to)` saw no master. */
  predicate MasterlessStretch(rs: seq<Reading>, from: int, to: nat)
    requires to <= |rs|
  {
    0 <= from <= to && forall i :: from <= i < to ==> rs[i].legit.None?
  }

  /** Every pass in `[from, to)` saw no master and a listening, silent member. */
  predicate SlowStretch(rs: seq<Reading>, from: nat, to: nat)
    requires to <= |rs|
  {
    from < to && forall i :: from <= i < to ==> rs[i].legit.None? && rs[i].slow
  }

  /** Pass `j` saw the pair converged and no promotion was accepted after it. */
  predicate LastConvergence(cfg: Config, rs: seq<Reading>, j: nat) {
    && j < |rs| && rs[j].Converged()
    && forall i :: j < i < |rs| ==> !AcceptedAt(cfg, rs, i)
  }

  /** `e` was seen holding the lineage at pass `j`, or was promoted then. */
  predicate Witnessed(cfg: Config, rs: seq<Reading>, j: nat, e: (string, nat)) {
    && j < |rs|
    && ((rs[j].Converged() && e in rs[j].holders) || OutcomeAt(cfg, rs, j) == Issued(e.0, e.1, Accepted))
  }

  /** The memory explained by the passes behind it, clause by clause. */
  ghost predicate SlowExplained(rs: seq<Reading>, m: Memory) {
    m.slowSince.Some? ==> exists s: nat :: SlowStretch(rs, s, |rs|) && rs[s].now == m.slowSince.value
  }

  ghost predicate ConvergenceExplained(cfg: Config, rs: seq<Reading>, m: Memory) {
    m.convergedEver ==> exists j: nat :: LastConvergence(cfg, rs, j) && rs[j].now == m.lastConverged
  }

  ghost predicate HoldersExplained(cfg: Config, rs: seq<Reading>, m: Memory) {
    forall e :: e in m.lastInsync ==> exists j: nat :: Witnessed(cfg, rs, j, e)
  }

  ghost predicate Explained(cfg: Config, rs: seq<Reading>) {
    var m := After(cfg, rs);
    && MasterlessStretch(rs, |rs| - m.streak, |rs|)
    && SlowExplained(rs, m) && ConvergenceExplained(cfg, rs, m) && HoldersExplained(cfg, rs, m)
  }

  /** Appending a pass changes nothing already recorded. */
  lemma {:induction false} RecordedStays(cfg: Config, rs: seq<Reading>, r: Reading)
    ensures After(cfg, rs + [r]) == Decide(cfg, After(cfg, rs), r).0
    ensures OutcomeAt(cfg, rs + [r], |rs|) == Decide(cfg, After(cfg, rs), r).1
    ensures forall k :: 0 <= k < |rs| ==> OutcomeAt(cfg, rs + [r], k) == OutcomeAt(cfg, rs, k)
  {
    var ext := rs + [r];
    assert ext[..|rs|] == rs;
    forall k | 0 <= k < |rs| ensures OutcomeAt(cfg, ext, k) == OutcomeAt(cfg, rs, k) {
      assert ext[..k] == rs[..k];
    }
  }

  lemma {:induction false} MemoryIsExplained(cfg: Config, rs: seq<Reading>)
    ensures Explained(cfg, rs)
    decreases |rs|
  {
    if rs != [] {
      var front, r := rs[..|rs| - 1], rs[|rs| - 1];
      assert rs == front + [r];
      MemoryIsExplained(cfg, front);
      ExplainSlow(cfg, front, r);
      ExplainConvergence(cfg, front, r);
      ExplainHolders(cfg, front, r);
    }
  }

  lemma {:induction false} ExplainSlow(cfg: Config, front: seq<Reading>, r: Reading)
    requires SlowExplained(front, After(cfg, front))
    ensures SlowExplained(front + [r], After(cfg, front + [r]))
  {
    var rs := front + [r];
    RecordedStays(cfg, front, r);
    var m := After(cfg, front);
    if After(cfg, rs).slowSince.Some? {
      if m.slowSince.Some? {
        var s: nat :| SlowStretch(front, s, |front|) && front[s].now == m.slowSince.value;
        assert SlowStretch(rs, s, |rs|) && rs[s] == front[s];
      } else {
        assert SlowStretch(rs, |front|, |rs|);
      }
    }
  }

  lemma {:induction false} ExplainConvergence(cfg: Config, front: seq<Reading>, r: Reading)
    requires ConvergenceExplained(cfg, front, After(cfg, front))
    ensures ConvergenceExplained(cfg, front + [r], After(cfg, front + [r]))
  {
    var rs := front + [r];
    RecordedStays(cfg, front, r);
    if After(cfg, rs).convergedEver {
      if r.Converged() {
        assert LastConvergence(cfg, rs, |front|);
      } else {
        var j: nat :| LastConvergence(cfg, front, j) && front[j].now == After(cfg, front).lastConverged;
        assert rs[j] == front[j];
        forall i | j < i < |rs| ensures !AcceptedAt(cfg, rs, i) {
          assert i < |front| ==> !AcceptedAt(cfg, front, i);
        }
        assert LastConvergence(cfg, rs, j);
      }
    }
  }

  lemma {:induction false} ExplainHolders(cfg: Config, front: seq<Reading>, r: Reading)
    requires HoldersExplained(cfg, front, After(cfg, front))
    ensures HoldersExplained(cfg, front + [r], After(cfg, front + [r]))
  {
    var rs := front + [r];
    RecordedStays(cfg, front, r);
    forall e | e in After(cfg, rs).lastInsync ensures exists j: nat :: Witnessed(cfg, rs, j, e) {
      if e in After(cfg, front).lastInsync {
        var j: nat :| Witnessed(cfg, front, j, e);
        assert rs[j] == front[j];
        assert Witnessed(cfg, rs, j, e);
      } else {
        assert Witnessed(cfg, rs, |front|, e);
      }
    }
  }

  /** What stood behind the decision to let pass `k` promote. */
  ghost predicate Certified(cfg: Config, rs: seq<Reading>, k: nat)
    requires k < |rs|
  {
    || (exists j: nat :: LastConvergence(cfg, rs[..k], j) && rs[k].now - rs[j].now <= cfg.maxStale)
    || rs[k].insync
    || (exists a, epoch: nat, j: nat :: && a in rs[k].contenders && epoch <= rs[k].contenderEpoch
                                        && Witnessed(cfg, rs[..k], j, (a, epoch)))
  }

  /**
   * Every promotion issued, in every run of passes: the stretch of master-less passes behind it
   * (at least `confirm` of them, or a slow stretch of `slowPromote`) and the certificate that
   * opened the gate.
   */
  lemma {:induction false} PromotionIsEarned(cfg: Config, rs: seq<Reading>, k: nat)
    requires k < |rs| && OutcomeAt(cfg, rs, k).Issued?
    ensures !rs[k].slow ==> cfg.confirm == 0 || MasterlessStretch(rs, k + 1 - cfg.confirm, k + 1)
    ensures rs[k].slow ==>
              exists s: nat :: SlowStretch(rs, s, k + 1) && rs[k].now - rs[s].now >= cfg.slowPromote
    ensures rs[k].legit.None? && Certified(cfg, rs, k)
    ensures !rs[k].overtaken && rs[k].survivor.Some?
    ensures OutcomeAt(cfg, rs, k) == Issued(rs[k].survivor.value.addr, rs[k].top + 1, rs[k].reply)
  {
    var before, r := rs[..k], rs[k];
    var m := After(cfg, before);
    MemoryIsExplained(cfg, before);
    if r.slow {
      if m.slowSince.Some? {
        var s: nat :| SlowStretch(before, s, k) && before[s].now == m.slowSince.value;
        assert SlowStretch(rs, s, k + 1);
      } else {
        assert SlowStretch(rs, k, k + 1);
      }
    } else {
      assert MasterlessStretch(rs, k - m.streak, k + 1);
    }
    CertificateFound(cfg, rs, k);
  }

  lemma {:induction false} CertificateFound(cfg: Config, rs: seq<Reading>, k: nat)
    requires k < |rs| && GateOpen(cfg, After(cfg, rs[..k]), rs[k])
    ensures Certified(cfg, rs, k)
  {
    var before, r := rs[..k], rs[k];
    var m := After(cfg, before);
    MemoryIsExplained(cfg, before);
    if RecentlyConverged(cfg, m, r.now) {
      var j: nat :| LastConvergence(cfg, before, j) && before[j].now == m.lastConverged;
      assert rs[j] == before[j];
    } else if !r.insync {
      var i :| 0 <= i < |m.lastInsync| && m.lastInsync[i].0 in r.contenders && m.lastInsync[i].1 <= r.contenderEpoch;
      var (a, epoch) := m.lastInsync[i];
      assert (a, epoch) in m.lastInsync;
      var j: nat :| Witnessed(cfg, before, j, (a, epoch));
    }
  }

  /** The first promotion accepted follows an observed convergence or a holder provable right now. */
  lemma {:induction false} FirstPromotionFollowsConvergence(cfg: Config, rs: seq<Reading>, k: nat)
    requires k < |rs| && AcceptedAt(cfg, rs, k)
    requires forall i :: 0 <= i < k ==> !AcceptedAt(cfg, rs, i)
    ensures (exists j :: 0 <= j < k && rs[j].Converged()) || rs[k].insync
  {
    PromotionIsEarned(cfg, rs, k);
    var before := rs[..k];
    if exists j: nat :: LastConvergence(cfg, before, j) && rs[k].now - rs[j].now <= cfg.maxStale {
      var j: nat :| LastConvergence(cfg, before, j);
      assert rs[j].Converged();
    } else if !rs[k].insync {
      var a, epoch: nat, j: nat :| a in rs[k].contenders && Witnessed(cfg, before, j, (a, epoch));
      var e := (a, epoch);
      assert Witnessed(cfg, before, j, e);
      assert before[..j] == rs[..j] && !AcceptedAt(cfg, rs, j);
      assert rs[j].Converged();
    }
  }

  function OutcomesFrom(cfg: Config, m: Memory, rs: seq<Reading>): (os: seq<Outcome>)
    ensures |os| == |rs|
    decreases |rs|
  {
    if rs == [] then [] else
    var (next, o) := Decide(cfg, m, rs[0]);
    [o] + OutcomesFrom(cfg, next, rs[1..])
  }

  /** Nothing in the way of a promotion once the streak is long enough. */
  predicate Clear(r: Reading) {
    r.legit.None? && !r.slow && !r.held && r.survivor.Some? && !r.overtaken && r.recordCommitted
  }

  /**
   * The other direction: a converged pair whose master process dies is promoted on exactly the
   * `confirm`-th master-less pass, and on none before it.
   */
  lemma {:induction false} DeadMasterIsReplacedOnTime(cfg: Config, m: Memory, rs: seq<Reading>)
    requires rs != [] && m.streak + |rs| == cfg.confirm
    requires forall i :: 0 <= i < |rs| ==> Clear(rs[i])
    requires RecentlyConverged(cfg, m, rs[|rs| - 1].now)
    ensures var os := OutcomesFrom(cfg, m, rs);
            && rs[|rs| - 1].survivor.Some?
            && os[|rs| - 1] == Issued(rs[|rs| - 1].survivor.value.addr, rs[|rs| - 1].top + 1, rs[|rs| - 1].reply)
            && forall i :: 0 <= i < |rs| - 1 ==> os[i] == Waiting
    decreases |rs|
  {
    if |rs| > 1 {
      var next := Decide(cfg, m, rs[0]).0;
      var rest := rs[1..];
      DeadMasterIsReplacedOnTime(cfg, next, rest);
      assert OutcomesFrom(cfg, m, rs) == [Waiting] + OutcomesFrom(cfg, next, rest);
    }
  }

  // ---- what the readings say about the polls -------------------------------

  lemma {:induction false} ContendersMean(states: seq<Node>, top: nat)
    ensures forall a :: a in Contenders(states, top)
                        <==> exists n :: n in states && n.Promotable() && n.epoch == top && n.addr == a
  {
    if states != [] {
      ContendersMean(states[1..], top);
      assert states == [states[0]] + states[1..];
    }
  }

  lemma {:induction false} FirstAtMeans(states: seq<Node>, addr: string, epoch: nat, top: nat)
    ensures FirstAt(states, addr, epoch, top).Some?
            <==> epoch <= top && exists n :: n in states && n.Promotable() && n.epoch == top && n.addr == addr
  {
    if states != [] {
      FirstAtMeans(states[1..], addr, epoch, top);
      assert states == [states[0]] + states[1..];
    }
  }

  /** The recall test is the source's search for a remembered holder. */
  lemma {:induction false} RecalledIsRemembered(states: seq<Node>, remembered: seq<(string, nat)>, top: nat)
    ensures Recalled(Contenders(states, top), top, remembered) <==> FirstRemembered(states, remembered, top).Some?
  {
    if remembered != [] {
      ContendersMean(states, top);
      FirstAtMeans(states, remembered[0].0, remembered[0].1, top);
      RecalledIsRemembered(states, remembered[1..], top);
      var c := Contenders(states, top);
      if Recalled(c, top, remembered[1..]) {
        var i :| 0 <= i < |remembered[1..]| && remembered[1..][i].0 in c && remembered[1..][i].1 <= top;
        assert remembered[i + 1] == remembered[1..][i];
      }
      if Recalled(c, top, remembered) && !(remembered[0].0 in c && remembered[0].1 <= top) {
        var i :| 0 <= i < |remembered| && remembered[i].0 in c && remembered[i].1 <= top;
        assert remembered[1..][i - 1] == remembered[i];
      }
    }
  }
}
