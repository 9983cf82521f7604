/** What one controller's pass does to the members themselves. */
module FailoverCluster {
  import opened Basics
  import opened FailoverDecision
  import opened FailoverTick

  /** FLINTPROMOTE and FLINTDEMOTE are refused exactly when the epoch is not above the stored one. */
  predicate Admits(n: Node, epoch: nat) { epoch > n.epoch }

  function Promote(n: Node, epoch: nat): Node {
    if Admits(n, epoch) then n.(role := Master, epoch := epoch) else n
  }

  function Demote(n: Node, epoch: nat): Node {
    if Admits(n, epoch) then n.(role := Replica, epoch := epoch) else n
  }

  /** Deliver one fence to the member it names. */
  function Deliver(ms: seq<Node>, fence: (string, nat)): seq<Node> {
    seq(|ms|, i requires 0 <= i < |ms| => if ms[i].addr == fence.0 then Demote(ms[i], fence.1) else ms[i])
  }

  function DeliverAll(ms: seq<Node>, fences: seq<(string, nat)>): (r: seq<Node>)
    ensures |r| == |ms|
    decreases |fences|
  {
    if fences == [] then ms else DeliverAll(Deliver(ms, fences[0]), fences[1..])
  }

  predicate AllReachable(ms: seq<Node>) { forall n :: n in ms ==> n.reachable }

  predicate Named(fences: seq<(string, nat)>, addr: string) {
    exists f :: f in fences && f.0 == addr
  }

  lemma {:induction false} DeliverAllPointwise(ms: seq<Node>, fences: seq<(string, nat)>, epoch: nat, i: nat)
    requires i < |ms| && (ms[i].epoch < epoch || (ms[i].epoch == epoch && ms[i].role == Replica))
    requires forall f :: f in fences ==> f.1 == epoch
    ensures DeliverAll(ms, fences)[i]
            == if Named(fences, ms[i].addr) && ms[i].epoch < epoch
               then ms[i].(role := Replica, epoch := epoch) else ms[i]
    decreases |fences|
  {
    if fences != [] {
      assert fences == [fences[0]] + fences[1..];
      assert fences[0] in fences;
      DeliverAllPointwise(Deliver(ms, fences[0]), fences[1..], epoch, i);
    }
  }

  lemma {:induction false} FencesAreTheOthers(masters: seq<Node>, legit: string, epoch: nat)
    ensures forall f :: f in Fences(masters, legit, epoch) ==> f.1 == epoch && f.0 != legit
    ensures forall m :: m in masters && m.addr != legit ==> (m.addr, epoch) in Fences(masters, legit, epoch)
    ensures forall f :: f in Fences(masters, legit, epoch) ==> exists m :: m in masters && m.addr == f.0
    decreases |masters|
  {
    if masters != [] {
      FencesAreTheOthers(masters[1..], legit, epoch);
      assert masters == [masters[0]] + masters[1..];
      assert masters[0] in masters;
    }
  }

  /** The fences one pass over `ms` sends. */
  function FencesFor(ms: seq<Node>): seq<(string, nat)>
    requires Legit(ms).Some?
  {
    Fences(Masters(ms), Legit(ms).value.addr, TopEpoch(ms) + 1)
  }

  /** The members after one undisturbed pass that saw all of them. */
  function AfterPass(ms: seq<Node>): (r: seq<Node>)
    requires Legit(ms).Some?
  {
    DeliverAll(ms, FencesFor(ms))
  }

  /** Member by member: the legitimate master stays, every other claimer is a replica above all. */
  lemma {:induction false} AfterPassPointwise(ms: seq<Node>, i: nat)
    requires DistinctAddrs(ms) && AllReachable(ms) && Legit(ms).Some? && i < |ms|
    ensures AfterPass(ms)[i]
            == if ms[i].role == Master && ms[i] != Legit(ms).value
               then ms[i].(role := Replica, epoch := TopEpoch(ms) + 1) else ms[i]
  {
    var legit, epoch := Legit(ms).value, TopEpoch(ms) + 1;
    var fences := FencesFor(ms);
    FencesAreTheOthers(Masters(ms), legit.addr, epoch);
    LegitMeans(ms);
    MastersAre(ms);
    TopEpochBounds(ms);
    assert ms[i] in ms;
    DeliverAllPointwise(ms, fences, epoch, i);
    if Named(fences, ms[i].addr) {
      var f :| f in fences && f.0 == ms[i].addr;
      var m :| m in Masters(ms) && m.addr == f.0;
      var j :| 0 <= j < |ms| && ms[j] == m;
      assert i == j;
    } else if ms[i].role == Master {
      assert (ms[i].addr, epoch) !in fences;
      var j :| 0 <= j < |ms| && ms[j] == legit;
      assert i == j;
    }
  }

  /**
   * One undisturbed pass over members that all answer leaves exactly one master, the claimer with
   * the highest epoch and then the lowest address, and the next pass fences nobody.
   */
  lemma {:induction false} OnePassLeavesOneMaster(ms: seq<Node>)
    requires DistinctAddrs(ms) && AllReachable(ms) && Legit(ms).Some?
    ensures var after := AfterPass(ms);
            && Masters(after) == [Legit(ms).value]
            && Legit(after) == Legit(ms)
            && FencesFor(after) == []
  {
    var after, legit := AfterPass(ms), Legit(ms).value;
    LegitMeans(ms);
    var k :| 0 <= k < |ms| && ms[k] == legit;
    forall i | 0 <= i < |ms| ensures after[i].ClaimsMaster() <==> i == k {
      AfterPassPointwise(ms, i);
      assert ms[i] in ms;
    }
    AfterPassPointwise(ms, k);
    OnlyClaimer(after, k);
    assert [legit][..0] == [];
    assert Best([legit]) == Some(legit);
    assert Fences([legit][1..], legit.addr, TopEpoch(after) + 1) == [];
  }

  lemma {:induction false} OnlyClaimer(ms: seq<Node>, k: nat)
    requires k < |ms| && forall i :: 0 <= i < |ms| ==> (ms[i].ClaimsMaster() <==> i == k)
    ensures Masters(ms) == [ms[k]]
    decreases |ms|
  {
    if k == 0 {
      NoClaimer(ms[1..]);
    } else {
      OnlyClaimer(ms[1..], k - 1);
    }
  }

  lemma {:induction false} NoClaimer(ms: seq<Node>)
    requires forall i :: 0 <= i < |ms| ==> !ms[i].ClaimsMaster()
    ensures Masters(ms) == []
  {
    MastersAre(ms);
    assert Masters(ms) == [] || Masters(ms)[0] in Masters(ms);
  }

  /**
   * Controllers that act on one shared observation of a master-less pair propose the same member
   * at the same epoch, and once one proposal lands the others are refused.
   */
  lemma {:induction false} SharedObservationPromotesOnce(a: seq<Node>, b: seq<Node>)
    requires DistinctAddrs(a) && DistinctAddrs(b) && SameNodes(a, b)
    requires Survivor(a).Some?
    ensures Survivor(b) == Survivor(a) && TopEpoch(b) == TopEpoch(a)
    ensures var s, next := Survivor(a).value, TopEpoch(a) + 1;
            && Admits(s, next) && Promote(s, next).role == Master
            && !Admits(Promote(s, next), TopEpoch(b) + 1)
  {
    ChoicesIgnoreListOrder(a, b);
    CandidatesAre(a);
    BestIsMember(Candidates(a));
    TopEpochBounds(a);
  }

  /** A member that has stopped answering, as a poll reads it. */
  function Silent(addr: string): Node {
    Node(addr, false, false, Unknown, false, 0, 0, None, None, None)
  }

  function Silence(ms: seq<Node>, addr: string): seq<Node> {
    seq(|ms|, i requires 0 <= i < |ms| => if ms[i].addr == addr then Silent(addr) else ms[i])
  }

  /**
   * A fence lands above every epoch in the pair, the legitimate master's included. So once a
   * promotable claimer has been fenced and the legitimate master then falls silent, the survivor
   * rule chooses a fenced claimer ahead of every replica of the master it lost.
   */
  lemma {:induction false} FencedClaimerOutranksReplicas(ms: seq<Node>, z: nat)
    requires DistinctAddrs(ms) && AllReachable(ms) && Legit(ms).Some?
    requires z < |ms| && ms[z].role == Master && ms[z] != Legit(ms).value && !ms[z].loading
    ensures var s := Survivor(Silence(AfterPass(ms), Legit(ms).value.addr));
            && s.Some? && s.value.epoch == TopEpoch(ms) + 1
            && exists i :: 0 <= i < |ms| && ms[i].addr == s.value.addr && ms[i].role == Master && ms[i] != Legit(ms).value
  {
    var later := Silence(AfterPass(ms), Legit(ms).value.addr);
    SilencedPointwise(ms, z);
    CandidatesAre(later);
    assert later[z] in Candidates(later);
    BestIsMember(Candidates(later));
    forall i | 0 <= i < |ms| ensures later[i].addr == ms[i].addr { SilencedPointwise(ms, i); }
    SurvivorIsFreshest(later);
    TopEpochBounds(Candidates(later));
    var s := Survivor(later).value;
    var i :| 0 <= i < |later| && later[i] == s;
    SilencedPointwise(ms, i);
    TopEpochBounds(ms);
    assert ms[i] in ms;
  }

  /** After a pass and the legitimate master's silence, the survivor rule chooses a claimer that was fenced. */
  ghost predicate ChoosesFenced(ms: seq<Node>)
    requires Legit(ms).Some?
  {
    var s := Survivor(Silence(AfterPass(ms), Legit(ms).value.addr));
    s.Some? && exists i :: 0 <= i < |ms| && ms[i].addr == s.value.addr && ms[i].role == Master && ms[i] != Legit(ms).value
  }

  /** That happens exactly when some other claimer was not loading; how fresh the master's replicas are plays no part. */
  lemma {:induction false} FencedClaimerIsChosenIff(ms: seq<Node>)
    requires DistinctAddrs(ms) && AllReachable(ms) && Legit(ms).Some?
    ensures ChoosesFenced(ms) <==>
            exists z :: 0 <= z < |ms| && ms[z].role == Master && ms[z] != Legit(ms).value && !ms[z].loading
  {
    if z :| 0 <= z < |ms| && ms[z].role == Master && ms[z] != Legit(ms).value && !ms[z].loading {
      FencedClaimerOutranksReplicas(ms, z);
    }
    if ChoosesFenced(ms) {
      var later := Silence(AfterPass(ms), Legit(ms).value.addr);
      var s := Survivor(later).value;
      forall i | 0 <= i < |ms| ensures later[i].addr == ms[i].addr { SilencedPointwise(ms, i); }
      SurvivorIsFreshest(later);
      CandidatesAre(later);
      var j :| 0 <= j < |later| && later[j] == s;
      var i :| 0 <= i < |ms| && ms[i].addr == s.addr && ms[i].role == Master && ms[i] != Legit(ms).value;
      SilencedPointwise(ms, j);
      SilencedPointwise(ms, i);
      assert i == j;
    }
  }

  lemma {:induction false} SilencedPointwise(ms: seq<Node>, i: nat)
    requires DistinctAddrs(ms) && AllReachable(ms) && Legit(ms).Some? && i < |ms|
    ensures Silence(AfterPass(ms), Legit(ms).value.addr)[i]
            == if ms[i] == Legit(ms).value then Silent(ms[i].addr)
               else if ms[i].role == Master then ms[i].(role := Replica, epoch := TopEpoch(ms) + 1)
               else ms[i]
  {
    AfterPassPointwise(ms, i);
    LegitMeans(ms);
    var k :| 0 <= k < |ms| && ms[k] == Legit(ms).value;
    assert ms[i].addr == ms[k].addr ==> i == k;
  }
}
