/** What one failover controller reads from a member, and the pure rules it decides by. */
module FailoverDecision {
  import opened Basics

  datatype Role = Master | Replica | Loading | Unknown

  /** One member as one poll saw it. An unreachable member reads as `Unknown` at epoch 0. */
  datatype Node = Node(addr: string, reachable: bool, socketAlive: bool, role: Role, loading: bool,
                       epoch: nat, liveReplicas: nat, seqLag: Option<nat>,
                       lagMs: Option<nat>, lagSoftMs: Option<nat>)
  {
    predicate Converged() {
      && liveReplicas >= 1
      && (seqLag == Some(0)
          || (lagMs.Some? && lagMs.value < (if lagSoftMs.Some? then lagSoftMs.value else FALLBACK_LAG_SOFT_MS)))
    }

    predicate Promotable() {
      reachable && !loading
    }

    predicate ClaimsMaster() {
      reachable && role == Master
    }

    predicate CaughtUp() {
      liveReplicas >= 1 && seqLag == Some(0)
    }
  }

  const FALLBACK_LAG_SOFT_MS: nat := 500

  predicate DistinctAddrs(ns: seq<Node>) {
    forall i, j :: 0 <= i < j < |ns| ==> ns[i].addr != ns[j].addr
  }

  /** The survivor order: higher epoch first, then lower address. */
  predicate Outranks(a: Node, b: Node) {
    a.epoch > b.epoch || (a.epoch == b.epoch && Less(a.addr, b.addr))
  }

  /** The maximum by (epoch, reversed address); the last of several equal maxima. */
  function Best(ns: seq<Node>): Option<Node> {
    if ns == [] then None else
    var last := ns[|ns| - 1];
    match Best(ns[..|ns| - 1])
    case None => Some(last)
    case Some(b) => if Outranks(b, last) then Some(b) else Some(last)
  }

  /** The reachable members claiming to be master, in list order. */
  function Masters(ns: seq<Node>): seq<Node> {
    if ns == [] then [] else
    (if ns[0].ClaimsMaster() then [ns[0]] else []) + Masters(ns[1..])
  }

  /** The promotable members, in list order. */
  function Candidates(ns: seq<Node>): seq<Node> {
    if ns == [] then [] else
    (if ns[0].Promotable() then [ns[0]] else []) + Candidates(ns[1..])
  }

  /** The legitimate master among several claimers. */
  function Legit(ns: seq<Node>): Option<Node> { Best(Masters(ns)) }

  function Survivor(ns: seq<Node>): Option<Node> { Best(Candidates(ns)) }

  function TopEpoch(ns: seq<Node>): nat {
    if ns == [] then 0 else
    var rest := TopEpoch(ns[1..]);
    if rest > ns[0].epoch then rest else ns[0].epoch
  }

  /** The first reachable claimer at or above `top`. */
  function MasterHoldsTopEpoch(ns: seq<Node>, top: nat): Option<Node> {
    if ns == [] then None
    else if ns[0].ClaimsMaster() && ns[0].epoch >= top then Some(ns[0])
    else MasterHoldsTopEpoch(ns[1..], top)
  }

  /** A promotable member at the top promotable epoch whose replica is exactly caught up. */
  function InsyncHolder(ns: seq<Node>): Option<Node> {
    FirstCaughtUp(ns, TopEpoch(Candidates(ns)))
  }

  function FirstCaughtUp(ns: seq<Node>, top: nat): Option<Node> {
    if ns == [] then None
    else if ns[0].Promotable() && ns[0].epoch == top && ns[0].CaughtUp() then Some(ns[0])
    else FirstCaughtUp(ns[1..], top)
  }

  /** The first remembered member that is promotable at the top promotable epoch. */
  function RememberedHolder(ns: seq<Node>, remembered: seq<(string, nat)>): Option<Node> {
    FirstRemembered(ns, remembered, TopEpoch(Candidates(ns)))
  }

  function FirstRemembered(ns: seq<Node>, remembered: seq<(string, nat)>, top: nat): Option<Node> {
    if remembered == [] then None else
    var hit := FirstAt(ns, remembered[0].0, remembered[0].1, top);
    if hit.Some? then hit else FirstRemembered(ns, remembered[1..], top)
  }

  function FirstAt(ns: seq<Node>, addr: string, epoch: nat, top: nat): Option<Node> {
    if ns == [] then None
    else if ns[0].Promotable() && ns[0].epoch == top && ns[0].epoch >= epoch && ns[0].addr == addr then Some(ns[0])
    else FirstAt(ns[1..], addr, epoch, top)
  }

  // ---- what the folds compute ----------------------------------------------

  lemma {:induction false} MastersAre(ns: seq<Node>)
    ensures forall n :: n in Masters(ns) <==> n in ns && n.ClaimsMaster()
  {
    if ns != [] {
      MastersAre(ns[1..]);
      assert ns == [ns[0]] + ns[1..];
    }
  }

  lemma {:induction false} CandidatesAre(ns: seq<Node>)
    ensures forall n :: n in Candidates(ns) <==> n in ns && n.Promotable()
  {
    if ns != [] {
      CandidatesAre(ns[1..]);
      assert ns == [ns[0]] + ns[1..];
    }
  }

  lemma {:induction false} TopEpochBounds(ns: seq<Node>)
    ensures forall n :: n in ns ==> n.epoch <= TopEpoch(ns)
  {
    if ns != [] {
      TopEpochBounds(ns[1..]);
      assert ns == [ns[0]] + ns[1..];
    }
  }

  lemma {:induction false} TopEpochReached(ns: seq<Node>) returns (n: Node)
    requires ns != []
    ensures n in ns && n.epoch == TopEpoch(ns)
  {
    n := ns[0];
    if TopEpoch(ns[1..]) > ns[0].epoch {
      n := TopEpochReached(ns[1..]);
    }
  }

  lemma {:induction false} OvertakenIff(ns: seq<Node>, top: nat)
    ensures MasterHoldsTopEpoch(ns, top).None? <==> forall n :: n in ns && n.ClaimsMaster() ==> n.epoch < top
  {
    if ns != [] {
      OvertakenIff(ns[1..], top);
      assert ns == [ns[0]] + ns[1..];
      assert ns[0] in ns;
    }
  }

  lemma {:induction false} BestIsMember(ns: seq<Node>)
    requires ns != []
    ensures Best(ns).Some? && Best(ns).value in ns
    decreases |ns|
  {
    if |ns| > 1 {
      BestIsMember(ns[..|ns| - 1]);
    }
  }

  lemma {:induction false} CaughtUpHolder(ns: seq<Node>, top: nat)
    requires FirstCaughtUp(ns, top).Some?
    ensures var h := FirstCaughtUp(ns, top).value;
            h in ns && h.Promotable() && h.epoch == top && h.CaughtUp()
  {
    if !(ns[0].Promotable() && ns[0].epoch == top && ns[0].CaughtUp()) {
      CaughtUpHolder(ns[1..], top);
    }
  }

  // ---- the order behind every choice -------------------------------------

  lemma {:induction false} OutranksTransitive(a: Node, b: Node, c: Node)
    requires Outranks(a, b) && Outranks(b, c)
    ensures Outranks(a, c)
  {
    if a.epoch == b.epoch == c.epoch {
      LessTransitive(a.addr, b.addr, c.addr);
    }
  }

  lemma {:induction false} OutranksTotal(a: Node, b: Node)
    ensures Outranks(a, b) || Outranks(b, a) || a.addr == b.addr
    ensures !(Outranks(a, b) && Outranks(b, a))
  {
    LessTotal(a.addr, b.addr);
    if Less(a.addr, b.addr) { LessAsymmetric(a.addr, b.addr); }
  }

  lemma {:induction false} BestBeats(ns: seq<Node>, j: nat)
    requires DistinctAddrs(ns) && j < |ns|
    ensures Best(ns).Some? && (Best(ns).value == ns[j] || Outranks(Best(ns).value, ns[j]))
    decreases |ns|
  {
    var n := |ns| - 1;
    var front, last := ns[..n], ns[n];
    if front != [] {
      BestIsMember(front);
      var b := Best(front).value;
      var i :| 0 <= i < n && front[i] == b;
      assert ns[i].addr != ns[n].addr;
      OutranksTotal(b, last);
      if j < n {
        BestBeats(front, j);
        if Outranks(last, b) && b != ns[j] { OutranksTransitive(last, b, ns[j]); }
      }
    }
  }

  /** With distinct addresses the choice outranks every other member. */
  lemma {:induction false} BestOutranksRest(ns: seq<Node>)
    requires DistinctAddrs(ns) && ns != []
    ensures Best(ns).Some? && Best(ns).value in ns
    ensures forall n :: n in ns ==> n == Best(ns).value || Outranks(Best(ns).value, n)
  {
    BestIsMember(ns);
    forall n | n in ns ensures n == Best(ns).value || Outranks(Best(ns).value, n) {
      var j :| 0 <= j < |ns| && ns[j] == n;
      BestBeats(ns, j);
    }
  }

  /** A member that outranks all others is the choice. */
  lemma {:induction false} BestIsTheTop(ns: seq<Node>, b: Node)
    requires DistinctAddrs(ns) && b in ns
    requires forall n :: n in ns ==> n == b || Outranks(b, n)
    ensures Best(ns) == Some(b)
  {
    BestOutranksRest(ns);
    var c := Best(ns).value;
    if c != b { OutranksTotal(b, c); }
  }

  ghost predicate SameNodes(a: seq<Node>, b: seq<Node>) {
    forall n :: n in a <==> n in b
  }

  /** Keeping a subsequence keeps addresses distinct. */
  lemma {:induction false} SubsequencesDistinct(ns: seq<Node>)
    requires DistinctAddrs(ns)
    ensures DistinctAddrs(Masters(ns)) && DistinctAddrs(Candidates(ns))
  {
    if ns != [] {
      SubsequencesDistinct(ns[1..]);
      MastersAre(ns[1..]);
      CandidatesAre(ns[1..]);
      forall n | n in ns[1..] ensures n.addr != ns[0].addr {}
      forall k | 0 <= k < |Masters(ns[1..])| ensures Masters(ns[1..])[k].addr != ns[0].addr {
        assert Masters(ns[1..])[k] in ns[1..];
      }
      forall k | 0 <= k < |Candidates(ns[1..])| ensures Candidates(ns[1..])[k].addr != ns[0].addr {
        assert Candidates(ns[1..])[k] in ns[1..];
      }
    }
  }

  lemma {:induction false} BestIgnoresOrder(a: seq<Node>, b: seq<Node>)
    requires DistinctAddrs(a) && DistinctAddrs(b) && SameNodes(a, b)
    ensures Best(a) == Best(b)
  {
    if b != [] { assert b[0] in b; }
    if a != [] {
      BestOutranksRest(a);
      BestIsTheTop(b, Best(a).value);
    }
  }

  lemma {:induction false} TopEpochIgnoresOrder(a: seq<Node>, b: seq<Node>)
    requires SameNodes(a, b)
    ensures TopEpoch(a) == TopEpoch(b)
  {
    if b != [] { assert b[0] in b; }
    if a != [] {
      var x := TopEpochReached(a);
      var y := TopEpochReached(b);
      TopEpochBounds(a);
      TopEpochBounds(b);
      assert x in b && y in a;
    }
  }

  /**
   * Every controller that reads the same members picks the same legitimate master, the same
   * survivor and the same top epoch, in whatever order its own list names them.
   */
  lemma {:induction false} ChoicesIgnoreListOrder(a: seq<Node>, b: seq<Node>)
    requires DistinctAddrs(a) && DistinctAddrs(b) && SameNodes(a, b)
    ensures Legit(a) == Legit(b) && Survivor(a) == Survivor(b) && TopEpoch(a) == TopEpoch(b)
  {
    SubsequencesDistinct(a);
    SubsequencesDistinct(b);
    MastersAre(a);
    MastersAre(b);
    BestIgnoresOrder(Masters(a), Masters(b));
    CandidatesAre(a);
    CandidatesAre(b);
    BestIgnoresOrder(Candidates(a), Candidates(b));
    TopEpochIgnoresOrder(a, b);
  }

  /** The legitimate master outranks every other claimer; there is none exactly when nobody claims. */
  lemma {:induction false} LegitMeans(ns: seq<Node>)
    requires DistinctAddrs(ns)
    ensures Legit(ns).None? <==> forall n :: n in ns ==> !n.ClaimsMaster()
    ensures Legit(ns).Some? ==>
              && Legit(ns).value in ns && Legit(ns).value.ClaimsMaster()
              && forall n :: n in ns && n.ClaimsMaster() ==> n == Legit(ns).value || Outranks(Legit(ns).value, n)
  {
    SubsequencesDistinct(ns);
    MastersAre(ns);
    if Masters(ns) != [] {
      BestOutranksRest(Masters(ns));
      assert Legit(ns).value in Masters(ns);
    }
  }

  /** A certified holder: promotable, at the top promotable epoch. */
  predicate HolderAtTop(ns: seq<Node>, h: Node) {
    h in ns && h.Promotable() && h.epoch == TopEpoch(Candidates(ns))
  }

  /** The survivor holds the top promotable epoch and the lowest address at it. */
  lemma {:induction false} SurvivorIsFreshest(ns: seq<Node>)
    requires DistinctAddrs(ns) && Survivor(ns).Some?
    ensures HolderAtTop(ns, Survivor(ns).value)
    ensures forall n :: HolderAtTop(ns, n) && n != Survivor(ns).value ==> Less(Survivor(ns).value.addr, n.addr)
  {
    SubsequencesDistinct(ns);
    CandidatesAre(ns);
    var cs := Candidates(ns);
    BestOutranksRest(cs);
    TopEpochBounds(cs);
    var t := TopEpochReached(cs);
    assert t == Survivor(ns).value || Outranks(Survivor(ns).value, t);
    forall n | HolderAtTop(ns, n) && n != Survivor(ns).value ensures Less(Survivor(ns).value.addr, n.addr) {
      assert n in cs;
    }
  }

  /**
   * The member promoted is the member the gate certified exactly when no promotable member
   * ties with it at the top epoch under a lower address.
   */
  lemma {:induction false} SurvivorIsHolderIff(ns: seq<Node>, h: Node)
    requires DistinctAddrs(ns) && HolderAtTop(ns, h)
    ensures Survivor(ns) == Some(h)
            <==> forall n :: n in ns && n.Promotable() && n.epoch == h.epoch ==> !Less(n.addr, h.addr)
  {
    CandidatesAre(ns);
    assert h in Candidates(ns);
    BestIsMember(Candidates(ns));
    SurvivorIsFreshest(ns);
    var s := Survivor(ns).value;
    if s == h {
      forall n | n in ns && n.Promotable() && n.epoch == h.epoch ensures !Less(n.addr, h.addr) {
        assert HolderAtTop(ns, n);
        if n == h { LessIrreflexive(h.addr); } else { LessAsymmetric(h.addr, n.addr); }
      }
    } else {
      assert Less(s.addr, h.addr);
    }
  }

  function Peer(addr: string, epoch: nat, live: nat, lag: Option<nat>): Node {
    Node(addr, true, true, Replica, false, epoch, live, lag, None, None)
  }

  /** The tie: the gate certifies "b" and the controller promotes "a". */
  lemma {:induction false} CertifiedHolderCanBePassedOver()
    ensures var ns := [Peer("a", 3, 0, None), Peer("b", 3, 1, Some(0))];
            DistinctAddrs(ns) && InsyncHolder(ns) == Some(ns[1]) && Survivor(ns) == Some(ns[0])
  {
    var ns := [Peer("a", 3, 0, None), Peer("b", 3, 1, Some(0))];
    assert Candidates(ns[1..]) == [ns[1]];
    assert Candidates(ns) == ns;
    assert TopEpoch(ns[1..]) == 3;
    assert ns[..1] == [ns[0]];
    assert Best(ns[..1]) == Some(ns[0]);
    assert FirstCaughtUp(ns[1..], 3) == Some(ns[1]);
  }
}
