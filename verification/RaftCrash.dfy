/**
 * The store across crashes. A call changes the record in memory, writes it whole to a temporary
 * file, syncs it and renames it over the store; the process may die or the disk fail at any
 * instant between, and the next start reads the file.
 */
module RaftCrash {
  import opened Basics
  import opened RaftStore

  /** How the record is put into bytes. */
  datatype Codec<!R, !M> = Codec(encode: Persisted<R, M> -> Bytes, decode: Bytes -> Option<Persisted<R, M>>)

  ghost predicate Faithful<R(!new), M(!new)>(c: Codec<R, M>) {
    forall p :: c.decode(c.encode(p)) == Some(p)
  }

  datatype Stage = Resting | Writing(done: nat) | Synced | Renamed

  /**
   * `calls` are the calls that made up the record in memory, `durable` how many of them the file
   * holds, and `acked` how many the store had taken when it last answered a call with success.
   */
  datatype World<R, M> = World(mem: Option<Persisted<R, M>>, file: Option<Bytes>, tmp: Option<Bytes>, stage: Stage,
                               calls: seq<Call<M>>, durable: nat, acked: nat)

  datatype Action<M> =
    | Open
    | Begin(call: Call<M>)
    | Reject(call: Call<M>)
    | Write(more: nat)
    | Sync
    | Rename
    | Return
    | Fail
    | Crash(residue: Option<Bytes>)

  predicate Enabled<R(==), M(==)>(m: Machine<R, M>, codec: Codec<R, M>, committed: seq<Entry<M>>, w: World<R, M>, act: Action<M>) {
    match act
    case Open => w.mem.None? && (w.file.Some? ==> codec.decode(w.file.value).Some?)
    case Begin(call) => w.mem.Some? && w.stage.Resting? && !Refused(m, call) && Permitted(m, committed, w.mem.value, call)
    case Reject(call) => w.mem.Some? && w.stage.Resting? && Refused(m, call)
    case Write(more) => w.mem.Some? && w.stage.Writing? && w.stage.done + more <= |codec.encode(w.mem.value)|
    case Sync => w.mem.Some? && w.stage.Writing? && w.stage.done == |codec.encode(w.mem.value)|
    case Rename => w.mem.Some? && w.stage.Synced? && w.tmp.Some?
    case Return => w.mem.Some? && w.stage.Renamed?
    case Fail => w.mem.Some? && (w.stage.Writing? || w.stage.Synced?)
    case Crash(_) => w.durable <= |w.calls|
  }

  function Next<R, M>(m: Machine<R, M>, codec: Codec<R, M>, committed: seq<Entry<M>>, w: World<R, M>, act: Action<M>): World<R, M>
    requires Enabled(m, codec, committed, w, act)
  {
    match act
    case Open => w.(mem := if w.file.Some? then codec.decode(w.file.value) else Some(Blankslate(m)))
    case Begin(call) =>
      w.(mem := Some(Effect(m, w.mem.value, call)), calls := w.calls + [call], stage := Writing(0), tmp := Some([]))
    case Reject(_) => w
    case Write(more) =>
      var done := w.stage.done + more;
      w.(stage := Writing(done), tmp := Some(codec.encode(w.mem.value)[..done]))
    case Sync => w.(stage := Synced)
    case Rename => w.(stage := Renamed, file := w.tmp, tmp := None, durable := |w.calls|)
    case Return => w.(stage := Resting, acked := |w.calls|)
    case Fail => w.(stage := Resting)
    case Crash(residue) =>
      w.(mem := None, stage := Resting, tmp := residue, calls := w.calls[..w.durable])
  }

  /** The file holds the record after its first `durable` calls, and nothing acknowledged is beyond it. */
  ghost predicate Inv<R(!new), M(!new)>(m: Machine<R, M>, codec: Codec<R, M>, committed: seq<Entry<M>>, w: World<R, M>) {
    && w.acked <= w.durable <= |w.calls|
    && Proper(m, committed, w.calls)
    && (w.mem.Some? ==> w.mem.value == After(m, w.calls))
    && (w.mem.None? ==> w.durable == |w.calls| && w.stage.Resting?)
    && (if w.file.None? then w.durable == 0 else codec.decode(w.file.value) == Some(After(m, w.calls[..w.durable])))
    && match w.stage
       case Writing(done) => w.mem.Some? && done <= |codec.encode(w.mem.value)| && w.tmp == Some(codec.encode(w.mem.value)[..done])
       case Synced => w.mem.Some? && w.tmp == Some(codec.encode(w.mem.value))
       case Renamed => w.durable == |w.calls|
       case Resting => true
  }

  lemma {:induction false} ProperPrefix<R, M>(m: Machine<R, M>, committed: seq<Entry<M>>, calls: seq<Call<M>>, n: nat)
    requires Proper(m, committed, calls) && n <= |calls|
    ensures Proper(m, committed, calls[..n])
    decreases |calls|
  {
    if n == |calls| {
      assert calls[..n] == calls;
    } else {
      ProperPrefix(m, committed, calls[..|calls| - 1], n);
      assert calls[..|calls| - 1][..n] == calls[..n];
    }
  }

  lemma {:induction false} ProperSnoc<R, M>(m: Machine<R, M>, committed: seq<Entry<M>>, calls: seq<Call<M>>, c: Call<M>)
    requires Proper(m, committed, calls) && Permitted(m, committed, After(m, calls), c)
    ensures Proper(m, committed, calls + [c])
    ensures After(m, calls + [c]) == Effect(m, After(m, calls), c)
  {
    assert (calls + [c])[..|calls|] == calls;
  }

  lemma {:induction false} BeginKeepsInv<R(!new), M(!new)>(m: Machine<R, M>, codec: Codec<R, M>, committed: seq<Entry<M>>,
                                        w: World<R, M>, call: Call<M>)
    requires Inv(m, codec, committed, w) && Enabled(m, codec, committed, w, Begin(call))
    ensures Inv(m, codec, committed, Next(m, codec, committed, w, Begin(call)))
  {
    ProperSnoc(m, committed, w.calls, call);
    assert (w.calls + [call])[..w.durable] == w.calls[..w.durable];
  }

  lemma {:induction false} FlushKeepsInv<R(!new), M(!new)>(m: Machine<R, M>, codec: Codec<R, M>, committed: seq<Entry<M>>,
                                        w: World<R, M>, act: Action<M>)
    requires Faithful(codec) && Inv(m, codec, committed, w) && Enabled(m, codec, committed, w, act)
    requires !act.Open? && !act.Begin? && !act.Crash?
    ensures Inv(m, codec, committed, Next(m, codec, committed, w, act))
  {
    if act.Sync? { assert codec.encode(w.mem.value)[..w.stage.done] == codec.encode(w.mem.value); }
    if act.Rename? { assert w.calls[..|w.calls|] == w.calls; }
  }

  lemma {:induction false} RestartKeepsInv<R(!new), M(!new)>(m: Machine<R, M>, codec: Codec<R, M>, committed: seq<Entry<M>>,
                                          w: World<R, M>, act: Action<M>)
    requires Inv(m, codec, committed, w) && Enabled(m, codec, committed, w, act) && (act.Open? || act.Crash?)
    ensures Inv(m, codec, committed, Next(m, codec, committed, w, act))
  {
    ProperPrefix(m, committed, w.calls, w.durable);
    assert w.calls[..|w.calls|] == w.calls;
    assert w.calls[..w.durable][..w.durable] == w.calls[..w.durable];
  }

  lemma {:induction false} StepKeepsInv<R(!new), M(!new)>(m: Machine<R, M>, codec: Codec<R, M>, committed: seq<Entry<M>>,
                                       w: World<R, M>, act: Action<M>)
    requires Faithful(codec) && Inv(m, codec, committed, w) && Enabled(m, codec, committed, w, act)
    ensures Inv(m, codec, committed, Next(m, codec, committed, w, act))
  {
    match act
    case Begin(call) => BeginKeepsInv(m, codec, committed, w, call);
    case Open => RestartKeepsInv(m, codec, committed, w, act);
    case Crash(_) => RestartKeepsInv(m, codec, committed, w, act);
    case _ => FlushKeepsInv(m, codec, committed, w, act);
  }

  /** No step but a crash forgets a call, and a crash forgets none that was acknowledged. */
  lemma {:induction false} StepKeepsAcknowledged<R(!new), M(!new)>(m: Machine<R, M>, codec: Codec<R, M>, committed: seq<Entry<M>>,
                                                w: World<R, M>, act: Action<M>)
    requires Inv(m, codec, committed, w) && Enabled(m, codec, committed, w, act)
    ensures var w' := Next(m, codec, committed, w, act);
            && w.acked <= w'.acked && w.acked <= |w'.calls| && w'.calls[..w.acked] == w.calls[..w.acked]
            && (!act.Crash? ==> w.calls <= w'.calls)
  {
  }

  function Fresh<R, M>(): World<R, M> { World(None, None, None, Resting, [], 0, 0) }

  ghost predicate Possible<R(!new), M(!new)>(m: Machine<R, M>, codec: Codec<R, M>, committed: seq<Entry<M>>,
                                             w: World<R, M>, acts: seq<Action<M>>)
    decreases |acts|
  {
    acts == [] || (Enabled(m, codec, committed, w, acts[0])
                   && Possible(m, codec, committed, Next(m, codec, committed, w, acts[0]), acts[1..]))
  }

  ghost function Run<R(!new), M(!new)>(m: Machine<R, M>, codec: Codec<R, M>, committed: seq<Entry<M>>,
                                       w: World<R, M>, acts: seq<Action<M>>): World<R, M>
    requires Possible(m, codec, committed, w, acts)
    decreases |acts|
  {
    if acts == [] then w else Run(m, codec, committed, Next(m, codec, committed, w, acts[0]), acts[1..])
  }

  lemma {:induction false} RunKeepsInv<R(!new), M(!new)>(m: Machine<R, M>, codec: Codec<R, M>, committed: seq<Entry<M>>,
                                                         w: World<R, M>, acts: seq<Action<M>>)
    requires Faithful(codec) && Inv(m, codec, committed, w) && Possible(m, codec, committed, w, acts)
    ensures Inv(m, codec, committed, Run(m, codec, committed, w, acts))
    decreases |acts|
  {
    if acts != [] {
      StepKeepsInv(m, codec, committed, w, acts[0]);
      RunKeepsInv(m, codec, committed, Next(m, codec, committed, w, acts[0]), acts[1..]);
    }
  }

  /**
   * Wherever a run is cut, with whatever it left in the temporary file, the next start opens; the
   * record is the one after a whole number of calls, no fewer than were acknowledged; and it is the
   * fold of the committed entries up to its own position.
   */
  lemma {:induction false} ReopensAfterWholeCalls<R(!new), M(!new)>(m: Machine<R, M>, codec: Codec<R, M>, committed: seq<Entry<M>>,
                                                 acts: seq<Action<M>>, residue: Option<Bytes>)
    requires Lossless(m) && Faithful(codec) && Indexed(committed)
    requires Possible(m, codec, committed, Fresh(), acts)
    ensures var w := Run(m, codec, committed, Fresh(), acts);
            && Enabled(m, codec, committed, w, Crash(residue))
            && var down := Next(m, codec, committed, w, Crash(residue));
               && Enabled(m, codec, committed, down, Open)
               && var up := Next(m, codec, committed, down, Open);
                  && w.acked <= w.durable <= |w.calls|
                  && up.mem == Some(After(m, w.calls[..w.durable]))
                  && Sound(m, committed, up.mem.value)
  {
    var none: seq<Call<M>> := [];
    assert After(m, none) == Blankslate(m);
    RunKeepsInv(m, codec, committed, Fresh(), acts);
    var w := Run(m, codec, committed, Fresh(), acts);
    StepKeepsInv(m, codec, committed, w, Crash(residue));
    var down := Next(m, codec, committed, w, Crash(residue));
    assert down.calls[..down.durable] == down.calls;
    EveryRunFolds(m, committed, down.calls);
  }

  lemma {:induction false} RunKeepsAcknowledged<R(!new), M(!new)>(m: Machine<R, M>, codec: Codec<R, M>, committed: seq<Entry<M>>,
                                                                  w: World<R, M>, acts: seq<Action<M>>)
    requires Faithful(codec) && Inv(m, codec, committed, w) && Possible(m, codec, committed, w, acts)
    ensures var w' := Run(m, codec, committed, w, acts);
            w.acked <= w'.acked && w.acked <= |w.calls| && w.acked <= |w'.calls| && w'.calls[..w.acked] == w.calls[..w.acked]
    decreases |acts|
  {
    if acts != [] {
      var mid := Next(m, codec, committed, w, acts[0]);
      StepKeepsInv(m, codec, committed, w, acts[0]);
      StepKeepsAcknowledged(m, codec, committed, w, acts[0]);
      RunKeepsAcknowledged(m, codec, committed, mid, acts[1..]);
      var w' := Run(m, codec, committed, mid, acts[1..]);
      assert w'.calls[..w.acked] == w'.calls[..mid.acked][..w.acked] == mid.calls[..w.acked];
    }
  }

  /** A call acknowledged in any run is among the store's calls however the run goes on, through any crashes and failures. */
  lemma {:induction false} AcknowledgedCallsStay<R(!new), M(!new)>(m: Machine<R, M>, codec: Codec<R, M>, committed: seq<Entry<M>>,
                                                                   acts: seq<Action<M>>, more: seq<Action<M>>)
    requires Faithful(codec) && Possible(m, codec, committed, Fresh(), acts)
    requires Possible(m, codec, committed, Run(m, codec, committed, Fresh(), acts), more)
    ensures var w := Run(m, codec, committed, Fresh(), acts); var w' := Run(m, codec, committed, w, more);
            w.acked <= w'.acked && w.acked <= |w.calls| && w.acked <= |w'.calls| && w'.calls[..w.acked] == w.calls[..w.acked]
  {
    FreshIsSound(m, codec, committed);
    RunKeepsInv(m, codec, committed, Fresh(), acts);
    RunKeepsAcknowledged(m, codec, committed, Run(m, codec, committed, Fresh(), acts), more);
  }

  lemma {:induction false} FreshIsSound<R(!new), M(!new)>(m: Machine<R, M>, codec: Codec<R, M>, committed: seq<Entry<M>>)
    ensures Inv(m, codec, committed, Fresh())
  {
  }

  /** The failed writes since the file was last replaced or the process last died, `n` of them before these actions. */
  function Failures<M>(acts: seq<Action<M>>, n: nat): nat {
    if acts == [] then n else
    Failures(acts[1..], match acts[0] case Fail => n + 1 case Rename => 0 case Crash(_) => 0 case _ => n)
  }

  function InProgress<R, M>(w: World<R, M>): nat { if w.stage.Writing? || w.stage.Synced? then 1 else 0 }

  lemma {:induction false} StepLoses<R(!new), M(!new)>(m: Machine<R, M>, codec: Codec<R, M>, committed: seq<Entry<M>>,
                                                       w: World<R, M>, act: Action<M>, n: nat)
    requires Inv(m, codec, committed, w) && Enabled(m, codec, committed, w, act)
    requires |w.calls| - w.durable == n + InProgress(w)
    ensures var w' := Next(m, codec, committed, w, act);
            |w'.calls| - w'.durable == Failures([act], n) + InProgress(w')
  {
    assert [act][1..] == [];
  }

  lemma {:induction false} FailuresFold<M>(acts: seq<Action<M>>, n: nat)
    requires acts != []
    ensures Failures(acts, n) == Failures(acts[1..], Failures([acts[0]], n))
  {
    assert [acts[0]][1..] == [];
  }

  lemma {:induction false} RunLoses<R(!new), M(!new)>(m: Machine<R, M>, codec: Codec<R, M>, committed: seq<Entry<M>>,
                                                      w: World<R, M>, acts: seq<Action<M>>, n: nat)
    requires Faithful(codec) && Inv(m, codec, committed, w) && Possible(m, codec, committed, w, acts)
    requires |w.calls| - w.durable == n + InProgress(w)
    ensures var w' := Run(m, codec, committed, w, acts); |w'.calls| - w'.durable == Failures(acts, n) + InProgress(w')
    decreases |acts|
  {
    if acts != [] {
      StepKeepsInv(m, codec, committed, w, acts[0]);
      StepLoses(m, codec, committed, w, acts[0], n);
      FailuresFold(acts, n);
      RunLoses(m, codec, committed, Next(m, codec, committed, w, acts[0]), acts[1..], Failures([acts[0]], n));
    }
  }

  /**
   * In every run, what a crash would lose is exactly the calls whose write failed since the file was
   * last replaced and the call in progress: one call at most while no write fails.
   */
  lemma {:induction false} CrashLosesAtMostOneCall<R(!new), M(!new)>(m: Machine<R, M>, codec: Codec<R, M>, committed: seq<Entry<M>>,
                                                                     acts: seq<Action<M>>)
    requires Faithful(codec) && Possible(m, codec, committed, Fresh(), acts)
    ensures var w := Run(m, codec, committed, Fresh(), acts);
            && |w.calls| - w.durable == Failures(acts, 0) + InProgress(w)
            && (Fail !in acts ==> |w.calls| - w.durable == InProgress(w) <= 1)
  {
    FreshIsSound(m, codec, committed);
    RunLoses(m, codec, committed, Fresh(), acts, 0);
    if Fail !in acts { NoFailures(acts, 0); }
  }

  lemma {:induction false} NoFailures<M>(acts: seq<Action<M>>, n: nat)
    requires Fail !in acts && n == 0
    ensures Failures(acts, n) == 0
    decreases |acts|
  {
    if acts != [] {
      assert acts[0] in acts;
      NoFailures(acts[1..], n);
    }
  }

  /** Every call begun starts where the log of the calls before it allows. */
  ghost predicate Orderly<R(!new), M(!new)>(m: Machine<R, M>, codec: Codec<R, M>, committed: seq<Entry<M>>,
                                            w: World<R, M>, acts: seq<Action<M>>)
    requires Possible(m, codec, committed, w, acts)
    decreases |acts|
  {
    acts == [] || (&& (acts[0].Begin? ==> RunOf(w.calls + [acts[0].call]).Some?)
                   && Orderly(m, codec, committed, Next(m, codec, committed, w, acts[0]), acts[1..]))
  }

  lemma {:induction false} RunStaysOrderly<R(!new), M(!new)>(m: Machine<R, M>, codec: Codec<R, M>, committed: seq<Entry<M>>,
                                                             w: World<R, M>, acts: seq<Action<M>>)
    requires Faithful(codec) && Inv(m, codec, committed, w) && Possible(m, codec, committed, w, acts)
    requires RunOf(w.calls).Some? && Orderly(m, codec, committed, w, acts)
    ensures RunOf(Run(m, codec, committed, w, acts).calls).Some?
    decreases |acts|
  {
    if acts != [] {
      StepKeepsInv(m, codec, committed, w, acts[0]);
      if acts[0].Crash? { RunOfPrefix(w.calls, w.durable); }
      RunStaysOrderly(m, codec, committed, Next(m, codec, committed, w, acts[0]), acts[1..]);
    }
  }

  /**
   * Through any crashes and failed writes, the log in memory is one contiguous run, the one its calls
   * made, and so is the log the next start finds after a crash at this instant.
   */
  lemma {:induction false} LogStaysOneRun<R(!new), M(!new)>(m: Machine<R, M>, codec: Codec<R, M>, committed: seq<Entry<M>>,
                                                            acts: seq<Action<M>>, residue: Option<Bytes>)
    requires Lossless(m) && Faithful(codec) && Indexed(committed)
    requires Possible(m, codec, committed, Fresh(), acts) && Orderly(m, codec, committed, Fresh(), acts)
    ensures var w := Run(m, codec, committed, Fresh(), acts);
            && RunOf(w.calls).Some? && (w.mem.Some? ==> Represents(RunOf(w.calls).value, w.mem.value))
            && Enabled(m, codec, committed, w, Crash(residue))
            && var down := Next(m, codec, committed, w, Crash(residue));
               && RunOf(down.calls).Some? && Enabled(m, codec, committed, down, Open)
               && var up := Next(m, codec, committed, down, Open);
                  up.mem.Some? && Represents(RunOf(down.calls).value, up.mem.value)
  {
    var w := Run(m, codec, committed, Fresh(), acts);
    FreshIsSound(m, codec, committed);
    RunKeepsInv(m, codec, committed, Fresh(), acts);
    RunStaysOrderly(m, codec, committed, Fresh(), acts);
    LogIsOneRun(m, w.calls);
    RunOfPrefix(w.calls, w.durable);
    LogIsOneRun(m, w.calls[..w.durable]);
    ReopensAfterWholeCalls(m, codec, committed, acts, residue);
  }
}
