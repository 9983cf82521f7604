/**
 * The rebalance planner: which pairs shed how much load to which. Loads are exact reals, so the
 * mean and the amounts are the ones the planner means to compute.
 */
module Planner {
  import opened Basics

  datatype Load = Load(name: string, fill: real)

  /** One simulated move, by position in the working list. */
  datatype Shift = Shift(from: nat, to: nat, amount: real)

  /** One planned move, as handed to the caller. */
  datatype Move = Move(from: string, to: string, approx: nat)

  // ---- choosing ------------------------------------------------------------------

  /** `a` is the better donor: fuller, or as full with the lower label. */
  predicate Fuller(a: Load, b: Load) { a.fill > b.fill || (a.fill == b.fill && Less(a.name, b.name)) }

  /** `a` is the better recipient: emptier, or as empty with the lower label. */
  predicate Emptier(a: Load, b: Load) { a.fill < b.fill || (a.fill == b.fill && Less(a.name, b.name)) }

  /** The last of the best donors above the threshold. */
  function Donor(w: seq<Load>, threshold: real): (r: Option<nat>)
    ensures r.Some? ==> r.value < |w| && w[r.value].fill > threshold
  {
    if w == [] then None else
    var n := |w| - 1;
    var best := Donor(w[..n], threshold);
    if w[n].fill > threshold && (best.None? || !Fuller(w[best.value], w[n])) then Some(n) else best
  }

  /** The first of the best recipients below the mean. */
  function Recipient(w: seq<Load>, mean: real): (r: Option<nat>)
    ensures r.Some? ==> r.value < |w| && w[r.value].fill < mean
  {
    if w == [] then None else
    var n := |w| - 1;
    var best := Recipient(w[..n], mean);
    if w[n].fill < mean && (best.None? || Emptier(w[n], w[best.value])) then Some(n) else best
  }

  function Min(a: real, b: real): real { if a <= b then a else b }

  function NextShift(w: seq<Load>, mean: real, threshold: real): (r: Option<Shift>)
    requires mean <= threshold
    ensures r.Some? ==> && r.value.from < |w| && r.value.to < |w| && r.value.amount >= 1.0
                        && w[r.value.from].fill > threshold && w[r.value.to].fill < mean
  {
    var d, r := Donor(w, threshold), Recipient(w, mean);
    if d.None? || r.None? then None else
    var amount := Min(w[d.value].fill - mean, mean - w[r.value].fill);
    if amount < 1.0 then None else Some(Shift(d.value, r.value, amount))
  }

  function Plus(l: Load, amount: real): Load { Load(l.name, l.fill + amount) }

  function Shifted(w: seq<Load>, s: Shift): (w': seq<Load>)
    requires s.from < |w| && s.to < |w| && s.from != s.to
    ensures |w'| == |w|
  {
    w[s.from := Plus(w[s.from], -s.amount)][s.to := Plus(w[s.to], s.amount)]
  }

  /** How many pairs are off the mean. */
  function Off(w: seq<Load>, mean: real): nat {
    if w == [] then 0 else Off(w[..|w| - 1], mean) + (if w[|w| - 1].fill == mean then 0 else 1)
  }

  lemma {:induction false} OffUpdate(w: seq<Load>, mean: real, i: nat, x: Load)
    requires i < |w|
    ensures Off(w[i := x], mean) + (if w[i].fill == mean then 0 else 1) == Off(w, mean) + (if x.fill == mean then 0 else 1)
    decreases |w|
  {
    var n := |w| - 1;
    if i < n {
      OffUpdate(w[..n], mean, i, x);
      assert w[i := x][..n] == w[..n][i := x];
    } else {
      assert w[i := x][..n] == w[..n];
    }
  }

  /** A shift takes its donor or its recipient onto the mean and takes no pair off it. */
  lemma {:induction false} ShiftSettlesOne(w: seq<Load>, mean: real, threshold: real)
    requires mean <= threshold && NextShift(w, mean, threshold).Some?
    ensures var s := NextShift(w, mean, threshold).value;
            s.from != s.to && Off(Shifted(w, s), mean) < Off(w, mean) && Off(w, mean) >= 2
  {
    var s := NextShift(w, mean, threshold).value;
    var d, r := Plus(w[s.from], -s.amount), Plus(w[s.to], s.amount);
    OffUpdate(w, mean, s.from, d);
    OffUpdate(w[s.from := d], mean, s.to, r);
    OffUpdate(w, mean, s.from, Load("", mean));
    OffUpdate(w[s.from := Load("", mean)], mean, s.to, Load("", mean));
  }

  /** The simulated moves, each seeing the loads the earlier ones left. */
  function Shifts(w: seq<Load>, mean: real, threshold: real): seq<Shift>
    requires mean <= threshold
    decreases Off(w, mean)
  {
    var s := NextShift(w, mean, threshold);
    if s.None? then [] else
    ShiftSettlesOne(w, mean, threshold);
    [s.value] + Shifts(Shifted(w, s.value), mean, threshold)
  }

  // ---- the planner as it runs -----------------------------------------------------------------

  datatype Pair = Pair(name: string, fill: nat)

  function Loads(pairs: seq<Pair>): seq<Load> {
    seq(|pairs|, i requires 0 <= i < |pairs| => Load(pairs[i].name, pairs[i].fill as real))
  }

  function Total(w: seq<Load>): real { if w == [] then 0.0 else Total(w[..|w| - 1]) + w[|w| - 1].fill }

  function Mean(w: seq<Load>): real
    requires w != []
  {
    Total(w) / |w| as real
  }

  function Threshold(mean: real, deadband: real): real { mean * (1.0 + if deadband > 0.0 then deadband else 0.0) }

  /** Rounded half up, as `round` does for a positive amount. */
  function Rounded(amount: real): nat
    requires amount >= 0.0
  {
    (amount + 0.5).Floor
  }

  function Labelled(w: seq<Load>, s: Shift): Move
    requires s.from < |w| && s.to < |w| && s.amount >= 0.0
  {
    Move(w[s.from].name, w[s.to].name, Rounded(s.amount))
  }

  /** The caller's view of the simulated moves. */
  function Moves(w: seq<Load>, mean: real, threshold: real): seq<Move>
    requires mean <= threshold
    decreases Off(w, mean)
  {
    var s := NextShift(w, mean, threshold);
    if s.None? then [] else
    ShiftSettlesOne(w, mean, threshold);
    [Labelled(w, s.value)] + Moves(Shifted(w, s.value), mean, threshold)
  }

  /** No plan for fewer than two pairs or for no load. */
  function Plan(w: seq<Load>, deadband: real): seq<Move> {
    if |w| < 2 || Mean(w) <= 0.0 then [] else
    ThresholdAboveMean(Mean(w), deadband);
    Moves(w, Mean(w), Threshold(Mean(w), deadband))
  }

  lemma {:induction false} ThresholdAboveMean(mean: real, deadband: real)
    requires mean >= 0.0
    ensures mean <= Threshold(mean, deadband)
  {
    if deadband > 0.0 { assert mean * deadband >= 0.0; }
  }

  method FindDonor(w: seq<Load>, threshold: real) returns (r: Option<nat>)
    ensures r == Donor(w, threshold)
  {
    r := None;
    for i := 0 to |w|
      invariant r == Donor(w[..i], threshold)
    {
      assert w[..i + 1][..i] == w[..i];
      if w[i].fill > threshold && (r.None? || !Fuller(w[r.value], w[i])) { r := Some(i); }
    }
    assert w[..|w|] == w;
  }

  method FindRecipient(w: seq<Load>, mean: real) returns (r: Option<nat>)
    ensures r == Recipient(w, mean)
  {
    r := None;
    for i := 0 to |w|
      invariant r == Recipient(w[..i], mean)
    {
      assert w[..i + 1][..i] == w[..i];
      if w[i].fill < mean && (r.None? || Emptier(w[i], w[r.value])) { r := Some(i); }
    }
    assert w[..|w|] == w;
  }

  method Simulate(w: seq<Load>, mean: real, threshold: real) returns (moves: seq<Move>)
    requires mean <= threshold
    ensures moves == Moves(w, mean, threshold)
  {
    var work := w;
    moves := [];
    while true
      invariant moves + Moves(work, mean, threshold) == Moves(w, mean, threshold)
      decreases Off(work, mean)
    {
      var d := FindDonor(work, threshold);
      if d.None? { break; }
      var r := FindRecipient(work, mean);
      if r.None? { break; }
      var amount := Min(work[d.value].fill - mean, mean - work[r.value].fill);
      if amount < 1.0 { break; }
      var s := Shift(d.value, r.value, amount);
      assert NextShift(work, mean, threshold) == Some(s);
      MovesStep(work, mean, threshold);
      var move, rest := Labelled(work, s), Shifted(work, s);
      assert moves + ([move] + Moves(rest, mean, threshold)) == (moves + [move]) + Moves(rest, mean, threshold);
      moves := moves + [move];
      work := rest;
    }
  }

  method PlanMoves(pairs: seq<Pair>, deadband: real) returns (moves: seq<Move>)
    ensures moves == Plan(Loads(pairs), deadband)
  {
    if |pairs| < 2 { return []; }
    var work := Loads(pairs);
    var mean := Mean(work);
    if mean <= 0.0 { return []; }
    ThresholdAboveMean(mean, deadband);
    moves := Simulate(work, mean, Threshold(mean, deadband));
  }

  // ---- what a plan does to the loads ------------------------------------------------------------

  /** The loads after the first `n` simulated moves. */
  function Loaded(w: seq<Load>, mean: real, threshold: real, n: nat): seq<Load>
    requires mean <= threshold && n <= |Shifts(w, mean, threshold)|
    decreases n
  {
    if n == 0 then w else
    ShiftSettlesOne(w, mean, threshold);
    Loaded(Shifted(w, NextShift(w, mean, threshold).value), mean, threshold, n - 1)
  }

  lemma {:induction false} TotalUpdate(w: seq<Load>, i: nat, x: Load)
    requires i < |w|
    ensures Total(w[i := x]) == Total(w) - w[i].fill + x.fill
    decreases |w|
  {
    var n := |w| - 1;
    if i < n {
      TotalUpdate(w[..n], i, x);
      assert w[i := x][..n] == w[..n][i := x];
    } else {
      assert w[i := x][..n] == w[..n];
    }
  }

  lemma {:induction false} TotalTwice(w: seq<Load>, i: nat, x: Load, j: nat, y: Load)
    requires i < |w| && j < |w| && i != j && x.fill + y.fill == w[i].fill + w[j].fill
    ensures Total(w[i := x][j := y]) == Total(w)
  {
    var mid := w[i := x];
    TotalUpdate(w, i, x);
    TotalUpdate(mid, j, y);
  }

  lemma {:induction false} ShiftKeepsTotal(w: seq<Load>, s: Shift)
    requires s.from < |w| && s.to < |w| && s.from != s.to
    ensures Total(Shifted(w, s)) == Total(w)
  {
    TotalTwice(w, s.from, Plus(w[s.from], -s.amount), s.to, Plus(w[s.to], s.amount));
  }

  /** `now` lies between where the pair started and the mean. */
  predicate Toward(start: real, now: real, mean: real) {
    start <= now <= mean || mean <= now <= start
  }

  predicate AllToward(w: seq<Load>, now: seq<Load>, mean: real) {
    |now| == |w| && forall i :: 0 <= i < |w| ==> now[i].name == w[i].name && Toward(w[i].fill, now[i].fill, mean)
  }

  lemma {:induction false} ShiftToward(w: seq<Load>, mean: real, threshold: real)
    requires mean <= threshold && NextShift(w, mean, threshold).Some?
    ensures var s := NextShift(w, mean, threshold).value; s.from != s.to && AllToward(w, Shifted(w, s), mean)
  {
  }

  lemma {:induction false} TowardTransitive(a: seq<Load>, b: seq<Load>, c: seq<Load>, mean: real)
    requires AllToward(a, b, mean) && AllToward(b, c, mean)
    ensures AllToward(a, c, mean)
  {
  }

  /**
   * After any number of the planned moves the total load is what it was, every pair sits between
   * its first load and the mean, and it never came from the far side.
   */
  lemma {:induction false} MovesConvergeOnTheMean(w: seq<Load>, mean: real, threshold: real, n: nat)
    requires mean <= threshold && n <= |Shifts(w, mean, threshold)|
    ensures Total(Loaded(w, mean, threshold, n)) == Total(w)
    ensures AllToward(w, Loaded(w, mean, threshold, n), mean)
    decreases n
  {
    if n > 0 {
      var s := NextShift(w, mean, threshold).value;
      ShiftToward(w, mean, threshold);
      ShiftSettlesOne(w, mean, threshold);
      ShiftKeepsTotal(w, s);
      var w' := Shifted(w, s);
      MovesConvergeOnTheMean(w', mean, threshold, n - 1);
      TowardTransitive(w, w', Loaded(w', mean, threshold, n - 1), mean);
    }
  }

  /** Every move is at least one unit, from a pair above the threshold to a pair below the mean, and fits both. */
  lemma {:induction false} EveryMoveFits(w: seq<Load>, mean: real, threshold: real, k: nat)
    requires mean <= threshold && k < |Shifts(w, mean, threshold)|
    ensures var s, now := Shifts(w, mean, threshold)[k], Loaded(w, mean, threshold, k);
            && |now| == |w| && s.from < |w| && s.to < |w| && s.amount >= 1.0
            && now[s.from].fill > threshold && now[s.from].fill - s.amount >= mean
            && now[s.to].fill + s.amount <= mean
            && (now[s.from].fill - s.amount == mean || now[s.to].fill + s.amount == mean)
    decreases k
  {
    if k > 0 {
      ShiftSettlesOne(w, mean, threshold);
      EveryMoveFits(Shifted(w, NextShift(w, mean, threshold).value), mean, threshold, k - 1);
    }
  }

  /** No pair is ever both donor and recipient. */
  lemma {:induction false} DonorsNeverReceive(w: seq<Load>, mean: real, threshold: real, j: nat, k: nat)
    requires mean <= threshold && j < |Shifts(w, mean, threshold)| && k < |Shifts(w, mean, threshold)|
    ensures Shifts(w, mean, threshold)[j].from != Shifts(w, mean, threshold)[k].to
  {
    EveryMoveFits(w, mean, threshold, j);
    EveryMoveFits(w, mean, threshold, k);
    MovesConvergeOnTheMean(w, mean, threshold, j);
    MovesConvergeOnTheMean(w, mean, threshold, k);
    var i := Shifts(w, mean, threshold)[j].from;
    assert Toward(w[i].fill, Loaded(w, mean, threshold, j)[i].fill, mean);
    assert Toward(w[i].fill, Loaded(w, mean, threshold, k)[i].fill, mean);
  }

  lemma {:induction false} OffAtMost(w: seq<Load>, mean: real)
    ensures Off(w, mean) <= |w|
  {
    if w != [] { OffAtMost(w[..|w| - 1], mean); }
  }

  lemma {:induction false} FewerMovesThanOff(w: seq<Load>, mean: real, threshold: real)
    requires mean <= threshold && Shifts(w, mean, threshold) != []
    ensures |Shifts(w, mean, threshold)| + 1 <= Off(w, mean)
    decreases Off(w, mean)
  {
    ShiftSettlesOne(w, mean, threshold);
    var w' := Shifted(w, NextShift(w, mean, threshold).value);
    if Shifts(w', mean, threshold) != [] { FewerMovesThanOff(w', mean, threshold); }
  }

  /** At most one move fewer than there are pairs. */
  lemma {:induction false} AtMostPairsMinusOneMoves(w: seq<Load>, mean: real, threshold: real)
    requires mean <= threshold && w != []
    ensures |Shifts(w, mean, threshold)| <= |w| - 1
  {
    OffAtMost(w, mean);
    if Shifts(w, mean, threshold) != [] { FewerMovesThanOff(w, mean, threshold); }
  }

  lemma {:induction false} FinishedWhenLoaded(w: seq<Load>, mean: real, threshold: real)
    requires mean <= threshold
    ensures NextShift(Loaded(w, mean, threshold, |Shifts(w, mean, threshold)|), mean, threshold).None?
    decreases Off(w, mean)
  {
    if NextShift(w, mean, threshold).Some? {
      ShiftSettlesOne(w, mean, threshold);
      FinishedWhenLoaded(Shifted(w, NextShift(w, mean, threshold).value), mean, threshold);
    }
  }

  /** Planning again on the loads a plan leaves yields no move. */
  lemma {:induction false} ReplanningIsEmpty(w: seq<Load>, deadband: real)
    requires |w| >= 2 && Mean(w) > 0.0
    ensures var mean := Mean(w);
            var threshold := Threshold(mean, deadband);
            && mean <= threshold
            && Plan(Loaded(w, mean, threshold, |Shifts(w, mean, threshold)|), deadband) == []
  {
    var mean := Mean(w);
    ThresholdAboveMean(mean, deadband);
    var threshold := Threshold(mean, deadband);
    MovesConvergeOnTheMean(w, mean, threshold, |Shifts(w, mean, threshold)|);
    FinishedWhenLoaded(w, mean, threshold);
  }

  // ---- the plan ignores the order of the pairs ------------------------------------------------------

  lemma {:induction false} FullerTotal(a: Load, b: Load)
    ensures a == b || Fuller(a, b) || Fuller(b, a)
    ensures !(Fuller(a, b) && Fuller(b, a))
    ensures a == b || Emptier(a, b) || Emptier(b, a)
    ensures !(Emptier(a, b) && Emptier(b, a))
  {
    LessTotal(a.name, b.name);
    if Less(a.name, b.name) { LessAsymmetric(a.name, b.name); }
  }

  lemma {:induction false} BestTransitive(a: Load, b: Load, c: Load)
    ensures !Fuller(a, b) && !Fuller(b, c) ==> !Fuller(a, c)
    ensures !Emptier(a, b) && !Emptier(b, c) ==> !Emptier(a, c)
  {
    FullerTotal(a, b);
    FullerTotal(b, c);
    if Less(c.name, b.name) && Less(b.name, a.name) { LessTransitive(c.name, b.name, a.name); }
    FullerTotal(a, c);
  }

  lemma {:induction false} DonorIsBest(w: seq<Load>, threshold: real, j: nat)
    requires j < |w| && w[j].fill > threshold
    ensures var d := Donor(w, threshold); d.Some? && !Fuller(w[j], w[d.value])
    decreases |w|
  {
    var n := |w| - 1;
    var best := Donor(w[..n], threshold);
    if j < n {
      DonorIsBest(w[..n], threshold, j);
      BestTransitive(w[j], w[best.value], w[n]);
    } else {
      FullerTotal(w[n], w[n]);
      if best.Some? { FullerTotal(w[best.value], w[n]); }
    }
  }

  lemma {:induction false} RecipientIsBest(w: seq<Load>, mean: real, j: nat)
    requires j < |w| && w[j].fill < mean
    ensures var r := Recipient(w, mean); r.Some? && !Emptier(w[j], w[r.value])
    decreases |w|
  {
    var n := |w| - 1;
    var best := Recipient(w[..n], mean);
    if j < n {
      RecipientIsBest(w[..n], mean, j);
      FullerTotal(w[n], w[best.value]);
      BestTransitive(w[j], w[best.value], w[n]);
    } else {
      FullerTotal(w[n], w[n]);
    }
  }

  lemma {:induction false} SameElements(w: seq<Load>, v: seq<Load>, i: nat) returns (j: nat)
    requires multiset(w) == multiset(v) && i < |w|
    ensures j < |v| && v[j] == w[i]
  {
    assert w[i] in multiset(w);
    assert w[i] in v;
    j :| 0 <= j < |v| && v[j] == w[i];
  }

  lemma {:induction false} SameDonor(w: seq<Load>, v: seq<Load>, threshold: real)
    requires multiset(w) == multiset(v) && Donor(w, threshold).Some?
    ensures Donor(v, threshold).Some? && v[Donor(v, threshold).value] == w[Donor(w, threshold).value]
  {
    var d := Donor(w, threshold).value;
    var j := SameElements(w, v, d);
    DonorIsBest(v, threshold, j);
    var e := Donor(v, threshold).value;
    var i := SameElements(v, w, e);
    DonorIsBest(w, threshold, i);
    FullerTotal(w[d], v[e]);
  }

  lemma {:induction false} SameRecipient(w: seq<Load>, v: seq<Load>, mean: real)
    requires multiset(w) == multiset(v) && Recipient(w, mean).Some?
    ensures Recipient(v, mean).Some? && v[Recipient(v, mean).value] == w[Recipient(w, mean).value]
  {
    var d := Recipient(w, mean).value;
    var j := SameElements(w, v, d);
    RecipientIsBest(v, mean, j);
    var e := Recipient(v, mean).value;
    var i := SameElements(v, w, e);
    RecipientIsBest(w, mean, i);
    FullerTotal(w[d], v[e]);
  }

  /** Two listings of the same pairs choose the same donor, recipient and amount. */
  predicate SameChoice(w: seq<Load>, v: seq<Load>, a: Option<Shift>, b: Option<Shift>) {
    || (a.None? && b.None?)
    || (&& a.Some? && b.Some? && a.value.from < |w| && a.value.to < |w| && b.value.from < |v| && b.value.to < |v|
        && w[a.value.from] == v[b.value.from] && w[a.value.to] == v[b.value.to] && a.value.amount == b.value.amount)
  }

  lemma {:induction false} SameNextShift(w: seq<Load>, v: seq<Load>, mean: real, threshold: real)
    requires multiset(w) == multiset(v) && mean <= threshold
    ensures SameChoice(w, v, NextShift(w, mean, threshold), NextShift(v, mean, threshold))
  {
    if Donor(w, threshold).Some? { SameDonor(w, v, threshold); }
    if Donor(v, threshold).Some? { SameDonor(v, w, threshold); }
    if Recipient(w, mean).Some? { SameRecipient(w, v, mean); }
    if Recipient(v, mean).Some? { SameRecipient(v, w, mean); }
  }

  lemma {:induction false} SameAfterUpdates(w: seq<Load>, v: seq<Load>, i: nat, j: nat, k: nat, l: nat, x: Load, y: Load)
    requires i < |w| && j < |w| && i != j && k < |v| && l < |v| && k != l
    requires multiset(w) == multiset(v) && w[i] == v[k] && w[j] == v[l]
    ensures multiset(w[i := x][j := y]) == multiset(v[k := x][l := y])
  {
    UpdateTwo(w, i, x, j, y);
    UpdateTwo(v, k, x, l, y);
  }

  lemma {:induction false} SameAfterShift(w: seq<Load>, v: seq<Load>, a: Shift, b: Shift)
    requires a.from < |w| && a.to < |w| && a.from != a.to && b.from < |v| && b.to < |v| && b.from != b.to
    requires multiset(w) == multiset(v) && w[a.from] == v[b.from] && w[a.to] == v[b.to] && a.amount == b.amount
    ensures multiset(Shifted(w, a)) == multiset(Shifted(v, b))
  {
    var x, y := Plus(w[a.from], -a.amount), Plus(w[a.to], a.amount);
    var w', v' := w[a.from := x][a.to := y], v[b.from := x][b.to := y];
    assert Shifted(w, a) == w' && Shifted(v, b) == v';
    assert multiset(w') == multiset(v') by { SameAfterUpdates(w, v, a.from, a.to, b.from, b.to, x, y); }
  }

  lemma {:induction false} ShiftsStep(w: seq<Load>, mean: real, threshold: real)
    requires mean <= threshold && NextShift(w, mean, threshold).Some?
    ensures var s := NextShift(w, mean, threshold).value;
            s.from != s.to && Shifts(w, mean, threshold) == [s] + Shifts(Shifted(w, s), mean, threshold)
            && forall i :: 0 <= i < |w| ==> Shifted(w, s)[i].name == w[i].name
  {
    ShiftSettlesOne(w, mean, threshold);
  }

  lemma {:induction false} MovesStep(w: seq<Load>, mean: real, threshold: real)
    requires mean <= threshold && NextShift(w, mean, threshold).Some?
    ensures var s := NextShift(w, mean, threshold).value;
            s.from != s.to && Off(Shifted(w, s), mean) < Off(w, mean)
            && Moves(w, mean, threshold) == [Labelled(w, s)] + Moves(Shifted(w, s), mean, threshold)
  {
    ShiftSettlesOne(w, mean, threshold);
  }

  lemma {:induction false} MovesIgnoreOrder(w: seq<Load>, v: seq<Load>, mean: real, threshold: real)
    requires multiset(w) == multiset(v) && mean <= threshold
    ensures Moves(w, mean, threshold) == Moves(v, mean, threshold)
    decreases Off(w, mean)
  {
    SameNextShift(w, v, mean, threshold);
    var a, b := NextShift(w, mean, threshold), NextShift(v, mean, threshold);
    if a.Some? {
      MovesStep(w, mean, threshold);
      MovesStep(v, mean, threshold);
      SameAfterShift(w, v, a.value, b.value);
      MovesIgnoreOrder(Shifted(w, a.value), Shifted(v, b.value), mean, threshold);
    }
  }

  lemma {:induction false} TotalConcat(a: seq<Load>, b: seq<Load>)
    ensures Total(a + b) == Total(a) + Total(b)
    decreases |b|
  {
    if b == [] {
      assert a + b == a;
    } else {
      var n := |b| - 1;
      assert (a + b)[..|a| + n] == a + b[..n];
      TotalConcat(a, b[..n]);
    }
  }

  lemma {:induction false} TotalWithout(w: seq<Load>, i: nat)
    requires i < |w|
    ensures Total(w) == Total(w[..i] + w[i + 1..]) + w[i].fill
  {
    var a, x, b := w[..i], [w[i]], w[i + 1..];
    assert w == (a + x) + b;
    TotalConcat(a + x, b);
    TotalConcat(a, x);
    TotalConcat(a, b);
    assert x[..0] == [] && Total(x) == w[i].fill;
  }

  lemma {:induction false} TotalIgnoresOrder(w: seq<Load>, v: seq<Load>)
    requires multiset(w) == multiset(v)
    ensures Total(w) == Total(v) && |w| == |v|
    decreases |w|
  {
    assert |multiset(w)| == |w| && |multiset(v)| == |v|;
    if w != [] {
      var i := LastAmong(w, v);
      TotalIgnoresOrder(w[..|w| - 1], v[..i] + v[i + 1..]);
      TotalWithout(v, i);
    }
  }

  /** Every listing of the same pairs yields the identical list of moves, ties and equal names included. */
  lemma {:induction false} PlanIgnoresOrder(w: seq<Load>, v: seq<Load>, deadband: real)
    requires multiset(w) == multiset(v)
    ensures Plan(w, deadband) == Plan(v, deadband)
  {
    TotalIgnoresOrder(w, v);
    if |w| >= 2 && Mean(w) > 0.0 {
      ThresholdAboveMean(Mean(w), deadband);
      MovesIgnoreOrder(w, v, Mean(w), Threshold(Mean(w), deadband));
    }
  }

  lemma {:induction false} LoadsIgnoreOrder(p: seq<Pair>, q: seq<Pair>)
    requires multiset(p) == multiset(q)
    ensures multiset(Loads(p)) == multiset(Loads(q))
    decreases |p|
  {
    assert |multiset(p)| == |p| && |multiset(q)| == |q|;
    if p != [] {
      var n := |p| - 1;
      var i := LastAmong(p, q);
      LoadsIgnoreOrder(p[..n], q[..i] + q[i + 1..]);
      assert Loads(p) == Loads(p[..n]) + [Loads(p)[n]];
      assert Loads(q) == Loads(q[..i]) + [Loads(q)[i]] + Loads(q[i + 1..]);
      assert Loads(q[..i] + q[i + 1..]) == Loads(q[..i]) + Loads(q[i + 1..]);
    }
  }

  /** Controllers that observe the same pairs in any order compute the identical plan. */
  lemma {:induction false} ObservationOrderIsIrrelevant(p: seq<Pair>, q: seq<Pair>, deadband: real)
    requires multiset(p) == multiset(q)
    ensures Plan(Loads(p), deadband) == Plan(Loads(q), deadband)
  {
    LoadsIgnoreOrder(p, q);
    PlanIgnoresOrder(Loads(p), Loads(q), deadband);
  }

  // ---- the same facts about the list handed out ------------------------------------------------------

  lemma {:induction false} AsManyMoves(w: seq<Load>, mean: real, threshold: real)
    requires mean <= threshold
    ensures |Moves(w, mean, threshold)| == |Shifts(w, mean, threshold)|
    decreases Off(w, mean)
  {
    var s := NextShift(w, mean, threshold);
    if s.Some? {
      ShiftSettlesOne(w, mean, threshold);
      AsManyMoves(Shifted(w, s.value), mean, threshold);
    }
  }

  /** The list names, move by move, the pairs and the rounded amounts of the simulation. */
  lemma {:induction false} MovesAreShifts(w: seq<Load>, mean: real, threshold: real, k: nat)
    requires mean <= threshold && k < |Moves(w, mean, threshold)| && k < |Shifts(w, mean, threshold)|
    ensures var s := Shifts(w, mean, threshold)[k];
            && s.from < |w| && s.to < |w| && s.amount >= 1.0
            && Moves(w, mean, threshold)[k] == Move(w[s.from].name, w[s.to].name, Rounded(s.amount))
    decreases k
  {
    ShiftsStep(w, mean, threshold);
    MovesStep(w, mean, threshold);
    var s := NextShift(w, mean, threshold).value;
    if k > 0 {
      var w' := Shifted(w, s);
      MovesAreShifts(w', mean, threshold, k - 1);
      assert Moves(w, mean, threshold)[k] == Moves(w', mean, threshold)[k - 1];
      assert Shifts(w, mean, threshold)[k] == Shifts(w', mean, threshold)[k - 1];
    }
  }

  /** With distinct names, no name is both a source and a target, and there are fewer moves than pairs. */
  lemma {:induction false} PlanIsOneWay(w: seq<Load>, deadband: real)
    requires forall i, j :: 0 <= i < j < |w| ==> w[i].name != w[j].name
    ensures var moves := Plan(w, deadband);
            && (w != [] ==> |moves| < |w|)
            && (forall j, k :: 0 <= j < |moves| && 0 <= k < |moves| ==> moves[j].from != moves[k].to)
            && (forall k :: 0 <= k < |moves| ==> moves[k].approx >= 1)
  {
    if |w| >= 2 && Mean(w) > 0.0 {
      var mean := Mean(w);
      ThresholdAboveMean(mean, deadband);
      var threshold := Threshold(mean, deadband);
      AsManyMoves(w, mean, threshold);
      AtMostPairsMinusOneMoves(w, mean, threshold);
      var moves := Moves(w, mean, threshold);
      forall j, k | 0 <= j < |moves| && 0 <= k < |moves| ensures moves[j].from != moves[k].to {
        DonorsNeverReceive(w, mean, threshold, j, k);
        MovesAreShifts(w, mean, threshold, j);
        MovesAreShifts(w, mean, threshold, k);
      }
      forall k | 0 <= k < |moves| ensures moves[k].approx >= 1 { MovesAreShifts(w, mean, threshold, k); }
    }
  }

  /** When planning stops, nobody is past the threshold, or every excess or every deficit is under one unit. */
  lemma {:induction false} PlanStopsBalanced(w: seq<Load>, mean: real, threshold: real)
    requires mean <= threshold
    ensures var end := Loaded(w, mean, threshold, |Shifts(w, mean, threshold)|);
            || (forall i :: 0 <= i < |end| ==> end[i].fill <= threshold)
            || (forall i :: 0 <= i < |end| ==> end[i].fill < mean + 1.0)
            || (forall i :: 0 <= i < |end| ==> end[i].fill > mean - 1.0)
  {
    var end := Loaded(w, mean, threshold, |Shifts(w, mean, threshold)|);
    FinishedWhenLoaded(w, mean, threshold);
    forall i | 0 <= i < |end| && end[i].fill > threshold
      ensures Donor(end, threshold).Some? && end[i].fill <= end[Donor(end, threshold).value].fill
    {
      DonorIsBest(end, threshold, i);
    }
    forall i | 0 <= i < |end| && end[i].fill < mean
      ensures Recipient(end, mean).Some? && end[i].fill >= end[Recipient(end, mean).value].fill
    {
      RecipientIsBest(end, mean, i);
    }
  }
}
