# Flint: verified models of its coordination, recovery and data-integrity logic

This project models the parts of Flint whose correctness is hardest to see from the code: the
failover controller and its races, slot moves and their recovery, the chaos runner's loss oracle,
the control plane's Raft store, the rebalance planner, the MurmurHash3 transcription, the script
cache, and the backup tool's HTTP body reader, calendar, manifest, verification and restore.
Everything is proved with Dafny 4.11 for all inputs, all runs or all reachable states;
`dafny verify dfyconfig.toml` checks the whole project.

Code that updates things in place is modelled by classes and loops proved against specification
functions; code that only computes is modelled by functions and lemmas. Clocks, sockets, replies,
random choices and calls into other processes are parameters or nondeterministic choices.

## Modules

| module | models |
|---|---|
| `FailoverDecision`, `FailoverTick`, `FailoverCluster`, `FailoverRace` | what a controller reads and decides, every run of its passes, what a pass does to the members, any number of controllers at once |
| `SlotMoves`, `SlotDrain`, `SlotLosses`, `SlotRuns` | slot moves as a step system with the controller's recovery passes; when a cutover has everything; which steps leave a run to a loss; such runs, action by action |
| `ChaosOracle` | the ledger, the pass after a master kill, the check after a replica kill |
| `RaftStore`, `RaftCrash` | the store's calls, the fold of committed entries, the log, crashes at every instant |
| `Planner`, `UnitSelection` | which pairs shed load to which, and which units make up an amount |
| `Murmur3` | the hash on masked integers, every step with its inverse |
| `ScriptCache` | the bounded per-namespace script cache |
| `CivilDate`, `BodyReader` | the signer's calendar and the response body reader |
| `ManifestText`, `BackupVerify`, `NamespaceRestore` | the manifest's text form, verification and checked copy, restoring one namespace |
| `Basics` | options, the order on strings, small multiset facts |

## What was found

Where a property one would expect does not hold of the code, the code is kept as it is, a lemma
gives the input or the run that breaks it, and another says exactly when it holds; for duels, what
it takes to break it.

- The promotion gate certifies one member and the survivor rule picks another. They coincide
  exactly when no promotable member at the top epoch has a lower address
  (`SurvivorIsHolderIff`, `CertifiedHolderCanBePassedOver`).
- A fence is issued above every epoch in the pair, the legitimate master's included, so a fenced
  claimer outranks every replica of the master it lost to (`FencedClaimerOutranksReplicas`). If the
  master then falls silent a fenced claimer is chosen exactly when one was not loading
  (`FencedClaimerIsChosenIff`).
- Two members can claim master at one epoch only through a re-read that was not answered or was
  taken before the earlier promotion landed; both happen
  (`DuelNeedsAnUnseenPromotion`, `SilentMasterCanBeMatched`, `TwoControllersCanDuel`).
- "A source is told to disown only after its destination finished, and no run loses a unit's last
  full copy" is not true of every run of the slot-move code, with any number of imports of a unit
  and recovery passes over live ones. `SlotMoves.LosesTrack` lists a guard for each kind of step,
  stated on the state before it; a step keeps the invariant exactly when its guard does not hold
  (`SafeExactly`), runs that avoid the guards are safe, and a step leaves such a run to the loss of an
  owner's copy exactly when it takes that copy or the marker that vouches for its freeze
  (`LossExactly`). `SlotRuns` gives runs, action by action, that end with no copy and in which the
  guard of a single step held: a rollback that does not know its source is frozen, because an earlier
  attempt froze it or the answer was lost; a pass that misses the frozen source, its answer or the
  abort sent to it; a marker cleared by hand or overwritten by another import or freeze; passes that
  abort a live import, start a second one beside it, unfreeze the source of a live drain or act
  without hearing the destination; and a drain that ends at a stale mark. The comment above
  `recover_migrations` describes the intended inference; the code is what is modelled.
- The destination takes over at the first caught-up mark it reads after the freeze, which may have
  been sent before it. While the source stays frozen it has everything exactly when no second mark
  was waiting at the freeze, or the waiting one was made after the source's last write
  (`CutoverIsWholeIff`, `StaleMarkLosesTheSlot`).
- The chaos oracle can raise a false alarm exactly after a death is stamped at the microsecond of a
  send whose write the survivor lacks, or a pass begins while the dead master's answer for such a
  write is unread: from any sound state those two steps leave a run to an alarm, and every other
  step leaves a sound state (`TieExactly`, `LateAnswerExactly`, `StepKeepsInv`).
- An empty script text stops byte eviction early, in both loops. Within a namespace that happens
  exactly when one stands before the last script that has to go (`TrimFitsIff`). Over the total it
  happens, however ties between namespaces are broken, exactly when one of the largest namespaces'
  oldest scripts that must go is empty (`TotalFitsIff`); `OneByteOver` is such a cache.
- A manifest survives printing and parsing exactly when its strings have no space or newline, the
  last string of each line does not end in white space, and the id and the checksums are not
  empty. Empty releases, sources, keys, masters and epochs survive.
- A chunk size followed by white space before its extension, which section 7.1.1 of RFC 9112 allows,
  is refused; every other well-formed chunked message is decoded (`WellFormedDecodes`).
- A key's length byte holds a namespace name of at most 255 bytes. A longer name's prefix selects
  its own rows and those of shorter names, or longer ones, that agree with it after the cut length
  (`PrefixSelectsExactly`); `LongNameCollides` gives the shorter name. Among names the byte can hold a
  prefix selects its own rows alone exactly if its name is one of them (`SelectsOnlyItselfIff`).

## Model

| member | source | states |
|---|---|---|
| `FailoverDecision.ChoicesIgnoreListOrder` | crates/flint-controller/src/main.rs:890-905 | the legitimate master, the survivor and the top epoch are the same for every listing of the members |
| `FailoverDecision.LegitMeans` | crates/flint-controller/src/main.rs:896-903 | the legitimate master is a reachable claimer that outranks every other claimer by epoch, then by lower address |
| `FailoverDecision.OvertakenIff` | crates/flint-controller/src/main.rs:453-457 | the re-read finds nobody exactly when every reachable claimer is below the top epoch |
| `FailoverDecision.TopEpochBounds` | crates/flint-controller/src/main.rs:459-461 | no member's epoch exceeds the top epoch |
| `FailoverDecision.TopEpochReached` | crates/flint-controller/src/main.rs:459-461 | some member is at the top epoch |
| `FailoverDecision.CaughtUpHolder` | crates/flint-controller/src/main.rs:463-472 | the holder found is a promotable member at the top promotable epoch with an exactly caught-up replica |
| `FailoverDecision.SurvivorIsFreshest` | crates/flint-controller/src/main.rs:1258-1266 | the survivor is promotable, at the top promotable epoch, and has the lowest address among those |
| `FailoverDecision.SurvivorIsHolderIff` | crates/flint-controller/src/main.rs:1189-1266 | the survivor is the certified holder exactly when no promotable member at the top epoch has a lower address |
| `FailoverDecision.CertifiedHolderCanBePassedOver` | crates/flint-controller/src/main.rs:1189-1266 | a pair in which the gate certifies one member and another is promoted |
| `FailoverTick.Pair.constructor` | crates/flint-controller/src/main.rs:750-775 | a new pair remembers no convergence, no streak and no holder |
| `FailoverTick.Pair.Tick` | crates/flint-controller/src/main.rs:842-1479 | one pass over a decision-only pair computes the specified memory and outcome |
| `FailoverTick.Pair.Supervise` | crates/flint-controller/src/main.rs:905-1028 | with a master in sight: streaks end, every other claimer is fenced above all epochs, convergence is remembered |
| `FailoverTick.Pair.Failover` | crates/flint-controller/src/main.rs:1079-1479 | without one: count, wait, gate, choose, re-read, record, promote, with every early return |
| `FailoverTick.MemoryIsExplained` | crates/flint-controller/src/main.rs:905-1122 | after every run of passes each remembered field is accounted for by passes that happened |
| `FailoverTick.PromotionIsEarned` | crates/flint-controller/src/main.rs:1079-1266 | every promotion issued follows at least `confirm` consecutive master-less passes, or an unbroken slow stretch of `slow_promote`, and a certificate that opened the gate |
| `FailoverTick.CertificateFound` | crates/flint-controller/src/main.rs:1189-1256 | an open gate means a recent observed convergence, a holder provable now, or a remembered holder still at the top |
| `FailoverTick.FirstPromotionFollowsConvergence` | crates/flint-controller/src/main.rs:1189-1256 | the first accepted promotion follows an observed converged master or a caught-up holder at that pass |
| `FailoverTick.DeadMasterIsReplacedOnTime` | crates/flint-controller/src/main.rs:391-403 | a recently converged pair whose master is dead promotes on exactly the `confirm`-th master-less pass and on none before |
| `FailoverTick.RecalledIsRemembered` | crates/flint-controller/src/main.rs:501-526 | the recall test used in runs is the source's search through the remembered holders |
| `FailoverCluster.AfterPassPointwise` | crates/flint-controller/src/main.rs:980-985 | after a pass that saw everyone, the legitimate master is unchanged and every other claimer is a replica above all epochs |
| `FailoverCluster.OnePassLeavesOneMaster` | crates/flint-controller/src/main.rs:890-985 | one undisturbed pass leaves exactly one master, the highest epoch then lowest address, and the next fences nobody |
| `FailoverCluster.SharedObservationPromotesOnce` | crates/flint-controller/src/main.rs:1258-1325 | controllers acting on one observation propose the same member and epoch, and only one promotion is admitted |
| `FailoverCluster.FencedClaimerOutranksReplicas` | crates/flint-controller/src/main.rs:980-985 | once a fenced claimer and the loss of the master meet, the survivor is a fenced claimer |
| `FailoverCluster.FencedClaimerIsChosenIff` | crates/flint-controller/src/main.rs:980-985 | with the master silent, the survivor is a fenced claimer exactly when some fenced claimer was not loading |
| `FailoverRace.StepKeepsInv` | crates/flint-controller/src/main.rs:842-1386 | every step of every controller and member keeps: duels are explained by unseen promotions, re-reads are faithful |
| `FailoverRace.LandExplainsDuels` | crates/flint-controller/src/main.rs:1304-1386 | a promotion that was not abandoned meets only masters its re-read did not see |
| `FailoverRace.DuelNeedsAnUnseenPromotion` | crates/flint-controller/src/main.rs:1276-1386 | in every interleaving of any number of controllers, two masters at one epoch imply an unanswered or older re-read |
| `FailoverRace.AtomicRunsHaveNoDuel` | crates/flint-controller/src/main.rs:1276-1386 | with re-read and promotion as one answered step, no reachable state has two masters at one epoch |
| `FailoverRace.AtomicPromotionLandsAbove` | crates/flint-controller/src/main.rs:1304-1386 | such a promotion lands strictly above every current master |
| `FailoverRace.SilentMasterCanBeMatched` | crates/flint-controller/src/main.rs:1276-1386 | a run in which an unanswering master is matched at its own epoch |
| `FailoverRace.TwoControllersCanDuel` | crates/flint-controller/src/main.rs:1294-1298 | a run, every call answered, in which two controllers' promotions collide: the transient the comment admits |
| `SlotMoves.RecoverMigrations` | crates/flint-controller/src/main.rs:1990-2173 | the pass issues exactly the planned commands, in order |
| `SlotMoves.ResumeImports` | crates/flint-controller/src/main.rs:2029-2068 | unfinished imports are resumed, or aborted when their source is unreachable |
| `SlotMoves.SettleFrozen` | crates/flint-controller/src/main.rs:2070-2146 | frozen sources are left alone, unfrozen or told to disown, by node and slot without the namespace |
| `SlotMoves.ClearAborted` | crates/flint-controller/src/main.rs:2148-2172 | abort markers whose source is not listed as frozen are cleared |
| `SlotMoves.PlanDisownsJustified` | crates/flint-controller/src/main.rs:2070-2146 | a disown is planned only for a listed frozen source whose destination lists no import and no abort of that slot |
| `SlotMoves.DisownedSourceIsNotOwner` | crates/flint-controller/src/main.rs:2070-2130 | over a reading that every destination of a frozen source answered, a planned disown goes to a source whose destination has finished while another node, which holds everything, owns the unit |
| `SlotMoves.PassKeepsUnfinishedMark` | crates/flint-controller/src/main.rs:2029-2172 | a pass leaves an unfinished import marked, as unfinished or as given up, live or not, whoever answered |
| `SlotMoves.StartExactly` | crates/flint-server/src/migrate.rs:287-294 | starting or resuming an import is unsafe exactly when it overwrites the marker of another frozen source |
| `SlotMoves.FreezeExactly` | crates/flint-server/src/migrate.rs:456-484 | a freeze is unsafe exactly when the destination neither carries a marker for the source nor has taken over, or when it overwrites the source's own marker |
| `SlotMoves.FinishExactly` | crates/flint-server/src/migrate.rs:447-487 | taking over is unsafe exactly when it clears another import's marker, or when the oldest unread caught-up mark is not the position of the frozen owner |
| `SlotMoves.HandOffExactly` | crates/flint-server/src/migrate.rs:541-556 | the hand-off is unsafe exactly when the source is neither settled nor frozen for a destination without a marker |
| `SlotMoves.ClearMarkerExactly` | crates/flint-server/src/migrate.rs:317-346 | clearing the own record is unsafe exactly when a source is still frozen on its account |
| `SlotMoves.RollbackMarkExactly` | crates/flint-server/src/migrate.rs:324-340 | recording the abort is unsafe exactly when it overwrites the marker of another frozen source |
| `SlotMoves.AbortExactly` | crates/flint-server/src/migrate.rs:1050-1072 | an abort that arrives is unsafe exactly when it clears the marker of a frozen source |
| `SlotMoves.DisownExactly` | crates/flint-server/src/migrate.rs:808-846 | a disown that arrives is safe exactly when the source is settled or frozen for a destination without a marker |
| `SlotMoves.OverwriteExactly` | crates/flint-server/src/migrate.rs:207-224 | rows or deletes streamed from an incomplete copy are unsafe exactly when they reach the owner |
| `SlotMoves.WriteExactly` | crates/flint-server/src/migrate.rs:1084-1110 | a client's write is unsafe exactly when the node that takes it lacks an earlier one |
| `SlotMoves.PassForgetsExactly` | crates/flint-controller/src/main.rs:2086-2172 | a pass forgets a frozen source exactly when an abort arrives at its marked destination and not at the source |
| `SlotMoves.PassExactly` | crates/flint-controller/src/main.rs:1990-2173 | a whole pass, over live imports or not, any commands lost and any nodes silent, is unsafe exactly when it forgets a frozen source or disowns one whose unheard destination is marked |
| `SlotMoves.SafeExactly` | crates/flint-server/src/migrate.rs:276-365 | every step keeps the invariant and purges no copy too early exactly when its guard, visible before the step, does not hold |
| `SlotMoves.RunKeepsInv` | crates/flint-controller/src/main.rs:1990-2173 | the invariant holds throughout every run that avoids those guards |
| `SlotMoves.NoRunPurgesTheOnlyCopy` | crates/flint-controller/src/main.rs:1990-2173 | in every such run, with any number of imports of a unit at once, every unit always has a full copy, at its owner |
| `SlotMoves.DisownFollowsFinishedImport` | crates/flint-controller/src/main.rs:2116-2130 | in every such run whatever is told to disown has done so before or is frozen for a destination that finished, while another full holder owns the unit |
| `SlotDrain.MarksNeverAhead` | crates/flint-server/src/migrate.rs:225-242 | in every run, unsafe steps included, no caught-up mark is ahead of its source |
| `SlotDrain.CutoverIsWholeIff` | crates/flint-server/src/migrate.rs:262-273 | if the source stays frozen the destination takes over with everything exactly when no second mark was waiting at the freeze or the waiting one was made after the last write |
| `SlotLosses.PassPurgesExactly` | crates/flint-controller/src/main.rs:2070-2130 | exactly which copies a fully delivered pass purges |
| `SlotLosses.UnmarkedFreezeCostsTheCopy` | crates/flint-controller/src/main.rs:2116-2130 | in any state a source frozen for a destination that lists nothing pending loses its copy to a complete, fully delivered pass |
| `SlotLosses.UnheardDestinationCostsTheCopy` | crates/flint-controller/src/main.rs:1997-2000 | in any state a frozen source loses its copy to a pass that its destination did not answer |
| `SlotLosses.StepHarms` | crates/flint-controller/src/main.rs:1990-2173 | a step leaves every owner its copy, and a marker while frozen, exactly when it does not take one of them |
| `SlotLosses.GuardsSuffice` | crates/flint-controller/src/main.rs:1990-2173 | whatever endangers an owner is kept out by a guard |
| `SlotLosses.LossExactly` | crates/flint-controller/src/main.rs:1990-2173 | a step leaves a run, itself avoiding every guard, to the loss of an owner's copy exactly when it takes that copy or the marker that vouches for the owner's freeze |
| `SlotLosses.LossExactlyInRuns` | crates/flint-controller/src/main.rs:1990-2173 | the same for every step after every run that avoids the guards |
| `SlotRuns.InterruptedResumeLosesTheSlot` | crates/flint-server/src/migrate.rs:317-322 | the run start, open, mark, freeze, crash, resume, clear the record, pass ends with no copy; only clearing the record had its guard hold |
| `SlotRuns.LostFreezeAnswerLosesTheSlot` | crates/flint-server/src/migrate.rs:467-483 | the run start, open, mark, freeze with the answer lost, clear the record, pass ends with no copy; only clearing the record had its guard hold |
| `SlotRuns.SilentSourceLosesTheSlot` | crates/flint-controller/src/main.rs:2148-2172 | after a rollback that did not reach the source: a pass the source did not answer, then a complete one, and no copy is left; only the first pass had its guard hold |
| `SlotRuns.LostAbortLosesTheSlot` | crates/flint-controller/src/main.rs:2086-2114 | the same with a pass whose abort to the source is lost |
| `SlotRuns.AbortByHandLosesTheSlot` | crates/flint-server/src/migrate.rs:1066-1071 | the same with an abort sent to the destination by hand |
| `SlotRuns.OverwrittenMarkerLosesTheSlot` | crates/flint-server/src/migrate.rs:287-294 | after such a rollback: an import from a third node starts and fails, then a pass, and no copy is left; only the start had its guard hold |
| `SlotRuns.FrozenOverMarkerLosesTheSlot` | crates/flint-server/src/migrate.rs:880-904 | after such a rollback: a third node imports from the marked one and freezes it, then a pass everyone answers, and no copy is left; only the freeze had its guard hold |
| `SlotRuns.AbortedLiveImportLosesTheSlot` | crates/flint-controller/src/main.rs:2029-2172 | while an import pulls: a pass aborts its destination, the next clears the marker, the import freezes the source, a third pass, and no copy is left; only the freeze had its guard hold |
| `SlotRuns.SecondImportLosesTheSlot` | crates/flint-controller/src/main.rs:2029-2049 | while an import pulls: a pass resumes it, the first import runs to its end, the second stream carries the purge to the new owner; only that had its guard hold |
| `SlotRuns.StaleMarkLosesTheSlot` | crates/flint-server/src/migrate.rs:225-242 | two marks, a write, the freeze at the first mark, taking over at the second, the hand-off, and no copy is left; only taking over had its guard hold |
| `SlotRuns.UnfrozenDrainLosesTheSlot` | crates/flint-controller/src/main.rs:2131-2145 | a mark after the freeze, a pass that unfreezes the source, a write, taking over, the hand-off, and no copy is left; only the hand-off had its guard hold |
| `SlotRuns.UnansweredDestinationLosesTheSlot` | crates/flint-controller/src/main.rs:1997-2000 | while an import drains: a pass that its destination did not answer, whose guard holds, and no copy is left |
| `SlotRuns.OrdinaryMoveIsCareful` | crates/flint-server/src/migrate.rs:252-262 | the ordinary move avoids every guard and ends with the unit at its destination |
| `ChaosOracle.KeyLedger.constructor` | crates/flint-chaos/src/oracle.rs:86-112 | a new ledger has nothing written or acknowledged |
| `ChaosOracle.KeyLedger.RecordAttempt` | crates/flint-chaos/src/writer.rs:529-534 | an attempt is listed and becomes the last written |
| `ChaosOracle.KeyLedger.RecordAck` | crates/flint-chaos/src/oracle.rs:115-118 | an ack is listed and becomes the floor |
| `ChaosOracle.KeyLedger.Retire` | crates/flint-chaos/src/main.rs:1016-1022 | both prunes: the kept acks and the newest of them as the floor |
| `ChaosOracle.KeptExactly` | crates/flint-chaos/src/main.rs:1003-1022 | an ack is kept exactly when the survivor covers it or it was not sent before the death stamp, ties included |
| `ChaosOracle.PrunedEntryHeld` | crates/flint-chaos/src/main.rs:865-874 | after either prune every ack of the key is held by the survivor |
| `ChaosOracle.StepKeepsInv` | crates/flint-chaos/src/writer.rs:506-560 | every step of writer, cluster and harness keeps: an ack is held, or excused while its kill is being accounted for |
| `ChaosOracle.RunKeepsInv` | crates/flint-chaos/src/main.rs:740-1022 | so does every run, across any number of kills |
| `ChaosOracle.NoFalseAlarm` | crates/flint-chaos/src/main.rs:1113-1180 | in every run with no tie and no late answer for a lost write the replica-kill check never alarms and every floor is at or below what the master holds |
| `ChaosOracle.TieExactly` | crates/flint-chaos/src/main.rs:1003-1022 | from any sound state, stamping a death leaves a run to a false alarm exactly when a write the survivor lacks was sent at the stamp |
| `ChaosOracle.LateAnswerExactly` | crates/flint-chaos/src/main.rs:740-755 | from any sound state, beginning the pass leaves one exactly when the answer for such a write is unread |
| `ChaosOracle.TieRaisesFalseAlarm` | crates/flint-chaos/src/main.rs:1016-1022 | a run with one tie that alarms |
| `ChaosOracle.LateAnswerRaisesFalseAlarm` | crates/flint-chaos/src/main.rs:740-755 | a run with one late answer that alarms |
| `RaftStore.Store.Open` | crates/flint-controlplane/src/raft.rs:100-125 | no file opens as a new node, a file as the record in it |
| `RaftStore.Store.Flush` | crates/flint-controlplane/src/raft.rs:138-141 | a flush that succeeds makes the file the record, one that fails leaves the file |
| `RaftStore.Store.SaveVote` | crates/flint-controlplane/src/raft.rs:197-201 | the vote changes and nothing else |
| `RaftStore.Store.AppendToLog` | crates/flint-controlplane/src/raft.rs:207-216 | every entry is in the log at its index, later ones over earlier ones |
| `RaftStore.Store.DeleteConflictLogsSince` | crates/flint-controlplane/src/raft.rs:218-222 | the log keeps exactly the indices below |
| `RaftStore.Store.PurgeLogsUpto` | crates/flint-controlplane/src/raft.rs:224-229 | the log keeps exactly the indices above, and the purge is recorded |
| `RaftStore.Store.ApplyToStateMachine` | crates/flint-controlplane/src/raft.rs:238-259 | entries are applied in order, and each reply has the registry's version right after its own entry |
| `RaftStore.Store.TakeSnapshot` | crates/flint-controlplane/src/raft.rs:155-172 | the snapshot kept and returned is the applied registry at its position |
| `RaftStore.Store.InstallSnapshot` | crates/flint-controlplane/src/raft.rs:269-286 | bytes that are no registry are refused with nothing changed; others replace registry, position, membership and snapshot |
| `RaftStore.Store.TryGetLogEntries` | crates/flint-controlplane/src/raft.rs:145-151 | the entries of a range in index order |
| `RaftStore.Store.GetLogState` | crates/flint-controlplane/src/raft.rs:179-191 | the last id is that of the greatest index, or of the purge when the log is empty |
| `RaftStore.ApplyFolds` | crates/flint-controlplane/src/raft.rs:238-259 | applying the next committed entries keeps registry, membership and position equal to the fold of the committed prefix |
| `RaftStore.CallKeepsSound` | crates/flint-controlplane/src/raft.rs:155-286 | every call a correct core makes keeps state and snapshot equal to their folds |
| `RaftStore.EveryRunFolds` | crates/flint-controlplane/src/raft.rs:155-286 | so after every sequence of such calls |
| `RaftStore.SnapshotPlusRestIsEverything` | crates/flint-controlplane/src/raft.rs:269-286 | installing a peer's snapshot and applying the rest equals applying everything on a new node, whatever was there before |
| `RaftStore.CallOnRun` | crates/flint-controlplane/src/raft.rs:207-229 | the index map is one contiguous run of entries through every append, truncation and purge, and untouched by other calls |
| `RaftStore.LogIsOneRun` | crates/flint-controlplane/src/raft.rs:207-229 | over every sequence of calls the log is one contiguous run from the purge point on, the one the calls made |
| `RaftStore.ReadOnRun` | crates/flint-controlplane/src/raft.rs:145-151 | a range read is the slice of the run |
| `RaftStore.ReadOutsideRun` | crates/flint-controlplane/src/raft.rs:145-151 | the part of a range outside the run adds nothing |
| `RaftStore.LastOnRun` | crates/flint-controlplane/src/raft.rs:179-191 | the greatest index belongs to the run's last entry |
| `RaftCrash.StepKeepsInv` | crates/flint-controlplane/src/raft.rs:59-67 | through mutation, partial write, sync, rename, failure, crash and restart the file holds the record after a whole number of calls |
| `RaftCrash.AcknowledgedCallsStay` | crates/flint-controlplane/src/raft.rs:138-141 | a call acknowledged in any run is among the store's calls however the run goes on |
| `RaftCrash.ReopensAfterWholeCalls` | crates/flint-controlplane/src/raft.rs:59-125 | cut anywhere, with anything left in the temporary file, the store reopens to the record after a whole number of calls, no fewer than acknowledged, and that record is the fold at its position |
| `RaftCrash.CrashLosesAtMostOneCall` | crates/flint-controlplane/src/raft.rs:59-67 | in every run what a crash would lose is exactly the calls whose write failed since the file was last replaced and the call in progress; one at most while no write fails |
| `RaftCrash.LogStaysOneRun` | crates/flint-controlplane/src/raft.rs:59-125 | through any crashes and failed writes the log in memory, and the one found at the next start, is one contiguous run |
| `Planner.FindDonor` | crates/flint-balance/src/lib.rs:73-86 | the donor of the specification |
| `Planner.FindRecipient` | crates/flint-balance/src/lib.rs:88-101 | the recipient of the specification |
| `Planner.Simulate` | crates/flint-balance/src/lib.rs:72-116 | the loop over the working copy yields the specified moves |
| `Planner.PlanMoves` | crates/flint-balance/src/lib.rs:52-118 | so does the whole planner, with its two empty cases |
| `Planner.DonorIsBest` | crates/flint-balance/src/lib.rs:73-86 | no pair above the threshold is fuller than the donor, or as full with a lower name |
| `Planner.RecipientIsBest` | crates/flint-balance/src/lib.rs:88-101 | no pair below the mean is emptier than the recipient, or as empty with a lower name |
| `Planner.ShiftSettlesOne` | crates/flint-balance/src/lib.rs:103-110 | every move takes its donor or its recipient exactly onto the mean, so the loop ends |
| `Planner.MovesConvergeOnTheMean` | crates/flint-balance/src/lib.rs:72-116 | after any number of moves the total is unchanged and every pair is between its first load and the mean |
| `Planner.EveryMoveFits` | crates/flint-balance/src/lib.rs:103-110 | every move is at least one unit, never takes a donor below or a recipient above the mean, and meets one of the two |
| `Planner.DonorsNeverReceive` | crates/flint-balance/src/lib.rs:72-116 | no pair is ever both donor and recipient |
| `Planner.AtMostPairsMinusOneMoves` | crates/flint-balance/src/lib.rs:70-72 | at most one move fewer than pairs |
| `Planner.ReplanningIsEmpty` | crates/flint-balance/src/lib.rs:16-24 | planning again on the final loads yields no move |
| `Planner.PlanStopsBalanced` | crates/flint-balance/src/lib.rs:86-108 | planning stops only with nobody past the threshold, or all excesses or all deficits under one unit |
| `Planner.PlanIgnoresOrder` | crates/flint-balance/src/lib.rs:72-116 | every listing of the same pairs yields the identical moves through all iterations, equal names included |
| `Planner.ObservationOrderIsIrrelevant` | crates/flint-balance/src/lib.rs:16-19 | the same for the pairs as observed |
| `Planner.MovesAreShifts` | crates/flint-balance/src/lib.rs:111-115 | the list handed out names the simulated pairs and rounded amounts |
| `Planner.PlanIsOneWay` | crates/flint-balance/src/lib.rs:52-118 | with distinct names no name is both source and target, and there are fewer moves than pairs |
| `UnitSelection.SelectUnits` | crates/flint-balance/src/lib.rs:136-150 | the loop picks the specified units |
| `UnitSelection.ReachesWithoutOvershoot` | crates/flint-balance/src/lib.rs:131-149 | the amount is reached unless cap or units run out, is not reached without the last unit, and something moves whenever it can |
| `UnitSelection.NoSmallerSelectionReaches` | crates/flint-balance/src/lib.rs:120-130 | no selection of fewer units reaches the amount |
| `UnitSelection.SelectionIgnoresOrder` | crates/flint-balance/src/lib.rs:123-127 | every listing of the same statistics selects the same units in the same order |
| `UnitSelection.SortOrders` | crates/flint-balance/src/lib.rs:139 | units are taken by larger count, then lower namespace, then lower slot |
| `UnitSelection.SortPermutes` | crates/flint-balance/src/lib.rs:137-139 | sorting loses and adds nothing |
| `Murmur3.RotlInverts` | tools/murmur3_crosscheck.py:30-31 | a rotation is undone by the complementary one |
| `Murmur3.Fmix64` | tools/murmur3_crosscheck.py:34-40 | the in-place mixer computes the specified one |
| `Murmur3.FmixInverts` | tools/murmur3_crosscheck.py:34-40 | the final mixer is a bijection, by its inverse |
| `Murmur3.MixInverts` | tools/murmur3_crosscheck.py:53-63 | mixing a key is a bijection |
| `Murmur3.BlockInverts` | tools/murmur3_crosscheck.py:53-67 | with known keys a block step is a bijection on states |
| `Murmur3.BlockSeparatesKeys` | tools/murmur3_crosscheck.py:53-67 | on a known state a block step is injective in the keys |
| `Murmur3.MixBlock` | tools/murmur3_crosscheck.py:48-67 | one iteration, statement by statement, is the block step |
| `Murmur3.MixBlocks` | tools/murmur3_crosscheck.py:48-67 | the loop absorbs every whole block |
| `Murmur3.SwitchIsZeroPadding` | tools/murmur3_crosscheck.py:74-109 | the tail switch gathers the zero-padded little-endian word |
| `Murmur3.MixTail` | tools/murmur3_crosscheck.py:69-113 | the conditional tail mixing equals mixing two zero-padded words |
| `Murmur3.Finalise` | tools/murmur3_crosscheck.py:115-122 | finalisation with the length folded in unmasked |
| `Murmur3.FinishInverts` | tools/murmur3_crosscheck.py:115-122 | finalisation is a bijection on states |
| `Murmur3.Murmur3x64x128` | tools/murmur3_crosscheck.py:43-123 | the whole computation is the specified hash |
| `Murmur3.OnePieceNeverCollides` | tools/murmur3_crosscheck.py:43-123 | inputs of one length that differ inside a single 16-byte piece, anywhere, full or partial, never collide |
| `Murmur3.SeedsNeverCollide` | tools/murmur3_crosscheck.py:43-46 | one input under two different 64-bit seeds never collides with itself |
| `ScriptCache.EvictOldest` | crates/flint-commands/src/scripts.rs:31-39 | hashes no longer stored are skipped, the oldest stored text goes and its length is returned |
| `ScriptCache.TrimToFit` | crates/flint-commands/src/scripts.rs:72-79 | the first eviction loop ends with the specified namespace and the freed bytes accounted for |
| `ScriptCache.TrimValid` | crates/flint-commands/src/scripts.rs:72-79 | it keeps the newest scripts unchanged, the listing exact and the counter true |
| `ScriptCache.TrimBounds` | crates/flint-commands/src/scripts.rs:72-79 | the count bound always holds afterwards, the byte bound if no text is empty |
| `ScriptCache.TrimFitsIff` | crates/flint-commands/src/scripts.rs:74-78 | both bounds hold afterwards exactly when no empty text stands before the last script that has to go |
| `ScriptCache.ExcessIsLeast` | crates/flint-commands/src/scripts.rs:72-79 | fewer evictions than that number leave a bound broken |
| `ScriptCache.ExcessSuffices` | crates/flint-commands/src/scripts.rs:72-79 | that many evictions bring the namespace into its bounds |
| `ScriptCache.EmptyTextShieldsExcess` | crates/flint-commands/src/scripts.rs:75-77 | an empty oldest text shields any oversized one |
| `ScriptCache.Largest` | crates/flint-commands/src/scripts.rs:82-89 | the last listed of the namespaces with the most bytes |
| `ScriptCache.TrimTotal` | crates/flint-commands/src/scripts.rs:80-95 | the second loop, for every order the map lists its entries in, evicts as specified and keeps the total true |
| `ScriptCache.LastMostBiggest` | crates/flint-commands/src/scripts.rs:82-89 | no listed namespace has more bytes than the one picked |
| `ScriptCache.EvictedValid` | crates/flint-commands/src/scripts.rs:80-95 | only oldest scripts go, and with non-empty texts the total fits afterwards |
| `ScriptCache.TotalFitsIff` | crates/flint-commands/src/scripts.rs:80-95 | for every way of picking a largest namespace, the total fits afterwards exactly when no script that must go is empty |
| `ScriptCache.EmptyTextShieldsTotal` | crates/flint-commands/src/scripts.rs:90-93 | a strictly largest namespace with an empty oldest text keeps the total where it is |
| `ScriptCache.OneByteOver` | crates/flint-commands/src/scripts.rs:90-93 | a cache of seventeen namespaces, each within its own bound, that stays one byte over the total |
| `ScriptCache.Cache.constructor` | crates/flint-commands/src/scripts.rs:53-58 | a new cache is empty and in bounds |
| `ScriptCache.Cache.Remember` | crates/flint-commands/src/scripts.rs:61-96 | a known hash changes nothing; a new one joins last, only oldest scripts go, other namespaces pay only over the total, with non-empty texts all three bounds hold, and the total fits exactly when no script that must go is empty |
| `ScriptCache.Cache.Lookup` | crates/flint-commands/src/scripts.rs:99-102 | the text stored for that namespace and hash, or nothing |
| `ScriptCache.Cache.Flush` | crates/flint-commands/src/scripts.rs:105-112 | one namespace is forgotten, the others untouched, the total corrected |
| `ScriptCache.NoneGoneBeforeAnOlder` | crates/flint-commands/src/scripts.rs:8-10 | survivors being the newest insertions, no script is gone while an older one of its namespace stays |
| `CivilDate.YearHoldsDay` | crates/flint-backup/src/s3.rs:420-422 | the division formula finds the year of the era that holds the day, for each of its 146097 days |
| `CivilDate.MonthHoldsDay` | crates/flint-backup/src/s3.rs:423-424 | and the month of that year |
| `CivilDate.CivilIsValid` | crates/flint-backup/src/s3.rs:414-427 | every integer day count yields a date of the Gregorian calendar |
| `CivilDate.DayNumberInverts` | crates/flint-backup/src/s3.rs:414-427 | the calendar's own count of that date is the day count |
| `CivilDate.DayNumberSeparates` | crates/flint-backup/src/s3.rs:414-427 | no two dates have one count |
| `CivilDate.CivilInverts` | crates/flint-backup/src/s3.rs:414-427 | every date of the calendar is the date of its count |
| `CivilDate.NextDayIsNextDate` | crates/flint-backup/src/s3.rs:414-427 | the day after is the date after, over month ends, year ends and leap days |
| `CivilDate.EpochIsDayZero` | crates/flint-backup/src/s3.rs:414-427 | day 0 is 1 January 1970 |
| `CivilDate.StampRecomposes` | crates/flint-backup/src/s3.rs:414-433 | hour, minute and second are in range and with the date recompose the second |
| `CivilDate.StampsAreDistinct` | crates/flint-backup/src/s3.rs:414-433 | two instants never share a stamp |
| `BodyReader.Reader.constructor` | crates/flint-backup/src/s3.rs:500-511 | a reader starts with what the header read brought along, then the connection |
| `BodyReader.Reader.RawRead` | crates/flint-backup/src/s3.rs:534-542 | some of what is pending, nothing only at the end |
| `BodyReader.Reader.RawReadExact` | crates/flint-backup/src/s3.rs:544-554 | all the bytes asked for, or a cut when fewer are left |
| `BodyReader.Reader.RawReadLine` | crates/flint-backup/src/s3.rs:556-567 | the bytes before the first CRLF, or a cut |
| `BodyReader.Reader.ReadChunk` | crates/flint-backup/src/s3.rs:601-614 | part of a chunk, the two bytes after its last one consumed with it |
| `BodyReader.Reader.ReadPlain` | crates/flint-backup/src/s3.rs:616-630 | part of a body bounded by its length or by the connection |
| `BodyReader.Reader.Read` | crates/flint-backup/src/s3.rs:581-631 | one call's piece and the state left make up the body still to come; it reports a clean end exactly when nothing is, and never one when the message is cut or malformed |
| `BodyReader.Reader.ReadToEnd` | crates/flint-backup/src/s3.rs:581-631 | for every split of the transport and all buffer sizes, the body of a complete message, an error otherwise |
| `BodyReader.Receive` | crates/flint-backup/src/s3.rs:500-511 | the same for every split between header read and connection; a declared length not met is an error |
| `BodyReader.WellFormedDecodes` | crates/flint-backup/src/s3.rs:586-615 | every well-formed chunked message, with extensions and any trailer, decodes to its data if no size is followed by white space, and is refused if one is |
| `BodyReader.CutMessageIsAnError` | crates/flint-backup/src/s3.rs:586-615 | cut anywhere before the end of its zero-size line, it is an error |
| `BodyReader.HexReadsBack` | crates/flint-backup/src/s3.rs:592-593 | every 64-bit size written in hexadecimal is read as that size |
| `ManifestText.RenderText` | crates/flint-backup/src/lib.rs:181-199 | the text appended line by line is the specified one |
| `ManifestText.ParseText` | crates/flint-backup/src/lib.rs:201-283 | the loop over lines computes the specified result, its refusals included |
| `ManifestText.NumberReadsBack` | crates/flint-backup/src/lib.rs:230-241 | every number below the limit is read back from its decimal form |
| `ManifestText.ParsedIsPlain` | crates/flint-backup/src/lib.rs:201-283 | whatever text is parsed, the strings that result have no space and no newline and the id is not empty |
| `ManifestText.PlainReadsBack` | crates/flint-backup/src/lib.rs:181-283 | what the print of any manifest with plain strings is read back as |
| `ManifestText.RoundTripIff` | crates/flint-backup/src/lib.rs:181-283 | parsing undoes printing exactly for the printable manifests, with any number of pairs and objects |
| `ManifestText.OtherFormatsAreRefused` | crates/flint-backup/src/lib.rs:213-228 | a text that begins with a format line of any other version is refused for it |
| `ManifestText.AcceptedTextsSayFormat` | crates/flint-backup/src/lib.rs:213-228 | an accepted text has a format line, and every one it has says this version |
| `BackupVerify.VerifySet` | crates/flint-backup/src/lib.rs:302-337 | the two loops compute the specified verdict |
| `BackupVerify.LoadVerifiedIff` | crates/flint-backup/src/lib.rs:383-388 | loading succeeds exactly when the manifest is there, parses, everything listed is there with its hash and nothing else is |
| `BackupVerify.RefusalsAreReal` | crates/flint-backup/src/lib.rs:302-337 | every refusal names a key at fault in the stated way |
| `BackupVerify.CopyVerified` | crates/flint-backup/src/lib.rs:348-378 | everything read is written, and accepted exactly when its length and hash are the recorded ones |
| `BackupVerify.RestorePair` | crates/flint-backup/src/main.rs:282-307 | succeeds exactly when every read for the pair has the recorded length and hash; then its files are as the last records say and other pairs' files are kept |
| `BackupVerify.RestorePairs` | crates/flint-backup/src/main.rs:282-307 | succeeds exactly when every second read has the recorded length and hash; then every listed object of every pair is there as its last record says, and no other file |
| `BackupVerify.EveryRecordHashes` | crates/flint-backup/src/main.rs:282-307 | after a verified load the hash holds for every record of an object |
| `NamespaceRestore.PrefixSelectsNamespace` | crates/flint-backup/src/main.rs:616-618 | below 256 bytes the prefix selects exactly the namespace's keys of the family |
| `NamespaceRestore.OwnRowsSelected` | crates/flint-storage/src/encoding.rs:159-168 | a name's prefix selects the rows written under it, however long the name |
| `NamespaceRestore.PrefixSelectsExactly` | crates/flint-storage/src/encoding.rs:159-168 | of the rows the engine writes it selects exactly those of the family whose name has the same cut length and which agree with it from there on |
| `NamespaceRestore.LongNameCollides` | crates/flint-storage/src/encoding.rs:159-168 | a name of 256 bytes or more has the prefix of a row of a shorter name |
| `NamespaceRestore.SelectsOnlyItselfIff` | crates/flint-storage/src/encoding.rs:159-168 | among names of at most 255 bytes a prefix selects its own rows alone exactly if its name is one of them |
| `NamespaceRestore.RenamingInverts` | crates/flint-backup/src/main.rs:620-629 | renaming keeps family, slot and rest, lands in the destination namespace and can be undone |
| `NamespaceRestore.RenamingIsInjective` | crates/flint-backup/src/main.rs:620-629 | no two rows get one key |
| `NamespaceRestore.OwnerInRange` | crates/flint-slot/src/lib.rs:222-235 | every slot of the keyspace has an owner among the pairs if the exceptions do |
| `NamespaceRestore.Sender.constructor` | crates/flint-backup/src/main.rs:585-587 | nothing batched and nothing sent |
| `NamespaceRestore.Sender.Flush` | crates/flint-backup/src/main.rs:588-610 | a pair's batch is sent whole and counted, other pairs are untouched, an empty one sends nothing |
| `NamespaceRestore.Sender.Push` | crates/flint-backup/src/main.rs:630-635 | a row joins its owner's batch, which goes out when it reaches its rows or its bytes and not before |
| `NamespaceRestore.SendFamily` | crates/flint-backup/src/main.rs:616-637 | one scan routes exactly the rows of its prefix |
| `NamespaceRestore.RestoreNamespace` | crates/flint-backup/src/main.rs:579-642 | each pair has taken, in order, exactly the renamed rows it owns, in batches sent when they were full and no later, and its counter is their number |
| `NamespaceRestore.PackedBounds` | crates/flint-backup/src/main.rs:630-635 | such a batch has 1 to 200 rows and without its last row is under a megabyte; all but the last reached one of the bounds |
| `NamespaceRestore.SentIsTheNamespace` | crates/flint-backup/src/main.rs:579-642 | as a multiset these are exactly the namespace's rows with that owner, renamed |

## Left out

- Sockets, TLS, command encoding, journaling, paging and log lines: replies and readings are parameters.
- Managed pairs (bootstrap, respawn, snapshot schedule) and handover scheduling in the controller's pass: a held pair is one input.
- The fencing record in `FailoverRace`: a promotion in the race is assumed recorded, which admits more runs than the code does; a single controller's pass has the record as an input.
- Epoch fencing of slot records by a demotion during a move: a move's nodes stay masters. The rows themselves: which nodes hold a unit's every acknowledged write is tracked, and how much each has written, an import counting once when it is taken over.
- Requests a writer gave up on that a server applies later: the chaos model's abandoned write is applied before it is abandoned or never.
- The loss-depth, volume and recovery-time measures of the chaos runner.
- Losing a completed rename of the Raft store to a power failure, since the directory is not synced: a crash here is the process dying or a disk call failing.
- JSON, SHA-256 and UTF-8: any lossless codec, any hash function, any reading of bytes as text.
- IEEE rounding in the planner and 64-bit overflow of sums: loads are exact reals and naturals.
- The digits of the signer's stamp, header parsing of responses, and transport errors other than an early end.
- Manifest error messages and line numbers, and the unchecked `cp-state` copy of a restore.
- File systems: a store is a map from keys to bytes, a restored file is named by its pair and name, and names are taken as canonical.
- Failed batches of a namespace restore, which end the command: what finishing means is modelled.
- The command tables, exporter, heat and error counters, bench and harness plumbing: easy or finite members.
