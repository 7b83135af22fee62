# wsrep-lib: a verified model of the transaction and streaming protocols

wsrep-lib is the transaction-side protocol engine of synchronous replication. This project models
its hard core in Dafny and proves what the protocols promise over every run.

* **One transaction under brute-force (BF) aborts.** `TransactionSnapshot.dfy` holds the state of a
  local, non-XA transaction and its invariant; `FragmentSteps.dfy`, `CommitSteps.dfy`,
  `RollbackSteps.dfy` and `AbortSteps.dfy` hold every stretch of code that runs without the client
  mutex being handed over, with the proof that it keeps the invariant; `TransactionRuns.dfy` puts
  them together to runs, that is to any interleaving of the thread that owns the client state (the
  client or the background rollbacker) with a BF aborter; `HookExits.dfy` lists what every step leads
  to, case by case; `TransactionTheorems.dfy` states what all runs guarantee and
  `TransactionWitnesses.dfy` shows that each exception is real. `Transaction.dfy` is the object that
  the threads share: every call takes it one step along its run, and so the theorems hold of any
  interleaving of calls. States and vocabulary are in `TransactionStates.dfy` and
  `TransactionEvents.dfy`.
* **Many transactions of one server.** `RollbackQueue.dfy` (the queue of rollback events and the
  ledger of those who use it) and `FlushOrder.dfy` (any number of runs on one queue).
* **The receiving side.** `Applying.dfy`: dispatch of write sets by flags, streaming appliers, GTID
  continuity, and the agreement of any number of originators with a receiver, end to end.
* **The rest of the server.** `StreamingRegistry.dfy` (client and applier registries, prepared XA
  transactions), `Membership.dfy` (views and orphans), `StateWaiters.dfy` (server states and their
  waiters).
* **The client.** `ClientOwnership.dfy` (client thread against background rollbacker),
  `ClientRuns.dfy` (the same with the transaction machine in the place of its outline),
  `TotalOrderIsolation.dfy` (TOI, RSU and NBO brackets), `StreamingContext.dfy` (fragment accounting).
* **Text forms.** `Codec.dfy`: UUIDs, ids and GTIDs.

`dafny verify dfyconfig.toml` checks everything.

## Assumptions

Answers of the provider and of the DBMS are parameters, so every theorem is about every possible
answer. What is assumed of them:

* Hooks are called in the order of dbsim/db_client.cpp:66-92 and dbsim/db_client.cpp:154-195, and in
  the states the hooks assert. bf_rollback() calls before_rollback() and after_rollback(), unless the
  transaction is aborted already.
* certify() that succeeds has ordered the write set, and a warning has not. A fragment that was
  refused may still have passed certification behind the error statuses the source names.
* commit_order_enter() refuses a BF aborted transaction with error_bf_abort, and returns nothing but
  that or success; bf_abort() fails on a transaction in commit order and on one that is replaying;
  commit_order_leave(), and both calls in release_commit_order(), succeed.
* replay() succeeds or reports failed certification.
* A client ends its command between hooks, with no transaction or with one that is executing or
  aborted. That it is then idle only where bf_abort() may hand it over is proved in `ClientRuns.dfy`.
* high_priority_service::adopt_transaction() gives the applier of a prepared XA transaction its
  prepared state when the client detaches, and client_service::replay_unordered() prepares it again.
* enter_toi() that fails returns a defined GTID exactly when TOI was entered; leave_toi() leaves it.
* One BF abort succeeds at most, which is proved; unsuccessful ones may come at any time.
* Transaction ids are unique on a server, and so are client ids; the seqnos the provider assigns to
  the fragments of a transaction increase.
* prepare_fragment_for_replication() sets the log position to the bytes generated so far.
* The setters pa_unsafe() and implicit_deps() and reset_error() are called between hooks. The flags
  of a write set that awaits replay are with the provider, so a later pa_unsafe() does not change it.
* A wait for a server state is counted under a number of its own.

Where the source and its comments or assertions disagree, the model follows the code and proves
exactly when it fails (named in brackets):

* Several error exits of certify_fragment() and certify_commit() set must_abort or executing after
  relocking without looking whether a BF abort came first; the state table forbids that
  (`AssertionFailsOnlyInHazard`, `UnguardedFlush`, `UnguardedCommit`).
* A failed flush in certify_commit() sets no error, which before_prepare() asserts
  (`AssertionFailsOnlyInHazard`, `SilentFlush`).
* after_statement() asserts that an error of streaming_step() goes with an aborted transaction; in an
  executing one with fewer bytes generated than the log position it does not
  (`AssertionFailsOnlyInHazard`, `InconsistentStatement`).
* after_commit() asserts that release() succeeds (`AssertionFailsOnlyInHazard`, `UnreleasedCommit`).
* The exit assertion of before_prepare() does not allow for a statement that is not allowed for
  streaming (`AssertionFailsOnlyInHazard`, `StatementNotAllowedFails`).
* An aborter waiting in streaming_rollback() does not look again whether the transaction still
  streams; if after_rollback() has cleaned the context it finds the client unregistered
  (`AssertionFailsOnlyInHazard`, `StaleAborterFails`).
* A rollback from preparing aborts a certified transaction, and announces a rollback of what was
  certified (`WireProtocol`, `RollbackOfPreparedBreaksWire`).
* A refused total_order_bf_abort() clears bf_aborted_in_total_order_ even if an earlier one set it; a
  streaming rollback that has relied on it is then neither announced nor are its fragments removed
  (`RollbackIsLost`, `RefusedAbortLosesRollback`).
* A middle fragment whose only flag is implicit_deps reaches the final assertion of apply_write_set()
  (`WireProtocol`, `ImplicitDepsBreakWire`, `Server.ApplyWriteSet`).
* An apply failure in a replayed commit leaves the write set without commit or dummy
  (`GtidContinuity`).
* uuid_scan() skips any number of dashes before bytes 4 to 11, not one before 4, 6, 8 and 10
  (`ScanAcceptsExactly`, `RfcByDashes`, `MisplacedDashesAreAccepted`).
* equal_membership() compares sizes and one inclusion, which decides set equality against every other
  view exactly if the ids of its own are distinct (`SetEqualityNeedsDistinctIds`,
  `RepeatedIdsBreakEquality`).

## Model

| member | source | states |
|---|---|---|
| TransactionStates.TerminalIsLast | src/transaction.cpp:1358-1373 | By the transition table alone, committed and aborted are never left: neither is in the past of any legal history. |
| TransactionStates.TransitionTable | src/transaction.cpp:1358-1373 | The transitions are those of the 13x13 table, row by row. |
| TransactionStates.OneOutcome | src/transaction.cpp:1358-1373 | No legal history contains both committed and aborted. |
| TransactionTheorems.AssertionFailsOnlyInHazard | src/transaction.cpp:283-2148 | In every run, whatever the interleaving with BF aborts and whatever the answers, an assertion of the hooks fails if and only if the last step is one of the listed hazards: an unguarded exit of certify_fragment() or certify_commit() after a BF abort, a failed commit flush with no error set, a streaming commit whose statement is not allowed, an inconsistent streaming step at the end of a statement, a failed release after commit, or an aborter that outlived the streaming context. |
| TransactionTheorems.MatrixSafety | src/transaction.cpp:1338-1395 | Every state change of every run without a hazard is allowed by the 13x13 table, and no run is both committed and aborted. |
| TransactionTheorems.CertifiedFate | src/transaction.cpp:440-538 | A transaction BF aborted after its commit write set passed certification goes through must_replay and replaying whichever hook notices the abort, and ends aborted only if replay reported failed certification. |
| TransactionTheorems.ReportedFate | src/transaction.cpp:1892-1904 | A transaction whose commit certification answered with a BF abort has, when it ends, gone through must_replay and replaying, and is aborted only if replay reported failed certification. |
| TransactionTheorems.StreamingRollbackOnce | src/transaction.cpp:1989-2061 | A rolled back streaming transaction has entered and left the client registry exactly once; unless BF aborted in total order or refused only in replay, it was converted once and its rollback was replicated or queued, once in all. |
| TransactionTheorems.RollbackIsLost | src/transaction.cpp:755-793 | A streaming transaction that ends aborted has neither announced its rollback nor had its fragments removed if and only if a total order abort was refused after streaming_rollback() had relied on the mark of an earlier one and before after_rollback() looked at it. |
| TransactionTheorems.NeverTwice | src/transaction.cpp:1989-2061 | At no point of any run has a client been registered, unregistered, converted, or its rollback or commit announced twice. |
| TransactionTheorems.RegistryMirrorsStreaming | src/server_state.cpp:1143-1243 | With no hook in flight a client is in streaming_clients_ if and only if its transaction is streaming and not marked rolled back; no transaction awaits replay with a rolled back context. |
| TransactionTheorems.CommitOrderConserved | src/transaction.cpp:582-619 | Over every finished run, counting those made by replay, commit order is left as often as entered, at most once, and exactly once if the transaction was ordered. |
| TransactionTheorems.FlushPrecedesCertification | src/transaction.cpp:1515-1526 | No fragment or commit write set is certified without a successful flush of the rollback event queue of its own before it. |
| TransactionTheorems.WireProtocol | src/transaction.cpp:1496-1966 | What a run replicates follows the wire grammar, and leaves it exactly when a fragment after the first was sent with implicit_deps, whenever that was set, or the rollback of a prepared transaction was announced; a committed run is complete on the wire. |
| TransactionTheorems.FailedCommitReports | src/transaction.cpp:361-402 | A hook on the way to commit that returns to the client without success has set an error or left the transaction in must_replay, in every run without a hazard. |
| TransactionTheorems.StatementReturnsExecuting | src/transaction.cpp:913-940 | In every run after_statement() comes back to the client only with an executing transaction, as its exit assertions say, and any other it ends committed or aborted. |
| TransactionTheorems.StatementRollsBack | src/transaction.cpp:869-881 | At the end of a statement a transaction that must abort or failed certification is in bf_rollback(). |
| TransactionTheorems.NobodyIsStuck | src/transaction.cpp:1989-2061 | In every run a hook or an abort that has begun can go on, but for a thread that waits in streaming_rollback() for the other one, which can. |
| TransactionTheorems.RunsKeepPromises | src/transaction.cpp:283-2148 | The matrix, the registry, the single rollback, the commit order, the flush and the wire promises hold together at the end of every run without a hazard. |
| TransactionTheorems.SealedRefusesAbort | src/transaction.cpp:1007-1133 | After before_commit() returned 0 in committing every bf_abort() or total_order_bf_abort() returns false and changes nothing; only during replay can it clear the total order mark. |
| TransactionTheorems.BfImmutability | src/transaction.cpp:573-666 | Every continuation of a run that has reached that point stays in committing, ordered_commit, committed. |
| TransactionRuns.NextKeeps | src/transaction.cpp:283-2148 | Every step of every hook and of the aborter that is not a hazard keeps the invariant; an announced rollback stays announced, and no step but a flush makes a transaction flushed. |
| TransactionRuns.HazardFails | src/transaction.cpp:361-2148 | Every hazard does fail an assertion: the hazards are exact, not only sufficient. |
| TransactionRuns.KeptOrFailed | src/transaction.cpp:283-2148 | A step fails an assertion if and only if it is a hazard, and otherwise keeps the invariant. |
| TransactionRuns.InvariantAfter | src/transaction.cpp:128-156 | The transaction at the end of any legal run satisfies the invariant, unless an assertion has failed, which is so exactly if the last step was a hazard. |
| TransactionWitnesses.UnguardedFlush | src/transaction.cpp:1515-1526 | From every reachable state before the flush of a fragment, a BF abort and a failed flush lead to a failed assertion. |
| TransactionWitnesses.SilentFlush | src/transaction.cpp:1778-1802 | From every reachable state before the flush of a commit with no error set, a failed flush fails the assertion on current_error() in before_prepare(), with or without a BF abort. |
| TransactionWitnesses.SilentFlushIsReachable | src/transaction.cpp:361-372 | A started transaction that is committed gets there. |
| TransactionWitnesses.UnguardedCommit | src/transaction.cpp:1881-1963 | From every reachable state after certification of a commit with an unguarded status, a BF abort leads to a failed assertion. |
| TransactionWitnesses.InconsistentStatement | src/transaction.cpp:930-940 | At the end of any statement of a reachable executing transaction that has prepared a fragment, fewer bytes generated than the log position fail the assertion in after_statement(). |
| TransactionWitnesses.InconsistentStatementIsReachable | src/transaction.cpp:1447-1458 | A started transaction gets there. |
| TransactionWitnesses.UnreleasedCommit | src/transaction.cpp:655-666 | From every reachable ordered commit a failed release() fails the assertion in after_commit(). |
| TransactionWitnesses.UnreleasedCommitIsReachable | src/transaction.cpp:655-666 | A started transaction gets there. |
| TransactionWitnesses.SealedIsReachable | src/transaction.cpp:520-580 | A started transaction can be committed up to the point of BF immutability: the case of BfImmutability occurs. |
| TransactionWitnesses.CertifiedAbortIsReplayed | src/transaction.cpp:1854-1879 | A started transaction can be BF aborted after its commit was certified, and ends by replay: the case of CertifiedFate occurs. |
| TransactionWitnesses.ReportedAbortIsReplayed | src/transaction.cpp:1892-1904 | A started transaction can get a BF abort as the answer of certification, and ends by replay: the case of ReportedFate occurs. |
| TransactionWitnesses.StreamingRollbackOccurs | src/transaction.cpp:1989-2061 | From every reachable streaming state there is a run that ends aborted: the case of StreamingRollbackOnce occurs. |
| TransactionWitnesses.StatementNotAllowedFails | src/transaction.cpp:307-313 | From every reachable streaming state, a commit whose statement is not allowed for streaming leads to a failed exit assertion. |
| TransactionWitnesses.StaleAborterFails | src/transaction.cpp:2007-2011 | From every reachable streaming state, a voluntary rollback can clean the context under a waiting aborter, which then fails. |
| TransactionWitnesses.ImplicitDepsBreakWire | src/transaction.cpp:1575-1578 | A second fragment sent with implicit_deps, set only after the first, is outside the wire protocol. |
| TransactionWitnesses.RollbackOfPreparedBreaksWire | src/transaction.cpp:690-703 | Rolling back a prepared streaming transaction announces a rollback after a commit write set that passed certification. |
| TransactionWitnesses.RefusedAbortLosesRollback | src/transaction.cpp:1117-1133 | From every reachable streaming state without a BF abort, a total order abort and a second, refused one lead to an aborted transaction whose rollback was not announced and whose fragments were not removed. |
| TransactionWitnesses.StreamsFragment | src/transaction.cpp:1496-1755 | A fragment can be streamed from every reachable executing state. |
| TransactionWitnesses.PreparesStreaming | src/transaction.cpp:283-403 | Every reachable streaming state can be prepared for two-phase commit. |
| TransactionWitnesses.StreamingIsReachable | src/transaction.cpp:1496-1755 | A started transaction can stream, without a BF abort, up to the next statement, where the runs above set out. |
| HookExits.HazardList | src/transaction.cpp:361-2148 | The hazards one by one: which step, in which state and after which answer fails an assertion. |
| HookExits.FragmentExits | src/transaction.cpp:1496-1755 | For every answer, where each stretch of certify_fragment() leaves the client, the state, the error, the flags and the count of fragments. |
| HookExits.PrepareExits | src/transaction.cpp:283-403 | For every answer, where each stretch of before_prepare() and after_prepare() leaves the client, the state and the error. |
| HookExits.LockAfterCertifyExits | src/transaction.cpp:1847-1966 | For each of the twelve certification statuses, the state, the error and the place in which the relock of certify_commit() leaves the transaction. |
| HookExits.FlushForCommitExits | src/transaction.cpp:1778-1820 | After a failed flush must_abort; after a successful one the whole flag word of the commit write set. |
| HookExits.CommitExits | src/transaction.cpp:455-666 | For every answer, where each stretch of before_commit(), ordered_commit() and after_commit() leaves the client, the state and the error. |
| HookExits.RollbackExits | src/transaction.cpp:668-793 | For every answer and every state, where each stretch of before_rollback(), streaming_rollback() and after_rollback() leaves the owner, the state and the error. |
| HookExits.StatementExits | src/transaction.cpp:837-940 | For every answer and every state, where each stretch of after_statement() and replay() leaves the client, the state and the error, and what cleanup() resets. |
| HookExits.NestedComesBack | src/transaction.cpp:869-928 | A rollback called from after_statement() comes back to it, aborted or bound for replay, and never to the client. |
| HookExits.AbortExits | src/transaction.cpp:998-1133 | In which four states bf_abort() succeeds, where it leaves the transaction, the client and the aborter, and what a refused one changes. |
| FragmentSteps.RowKeeps | src/transaction.cpp:1441-1503 | Entering certify_fragment() keeps the invariant, and its entry assertion on the rolled back mark holds. |
| FragmentSteps.BeginFragmentKeeps | src/transaction.cpp:1505-1513 | abort_or_interrupt() and the entry into certifying keep the invariant. |
| FragmentSteps.FlushForFragmentKeeps | src/transaction.cpp:1515-1526 | The flush keeps the invariant unless it fails after a BF abort. |
| FragmentSteps.PrepareFragmentKeeps | src/transaction.cpp:1528-1578 | Preparing the data and entering the client registry keep the invariant unless preparing fails after a BF abort. |
| FragmentSteps.CertifyFragmentKeeps | src/transaction.cpp:1580-1717 | The storage service scope keeps the invariant for every answer of storage and provider. |
| FragmentSteps.LockAfterFragmentKeeps | src/transaction.cpp:1718-1755 | The relock keeps the invariant, and nobody else can be in streaming_rollback() there. |
| FragmentSteps.StopAfterFragmentKeeps | src/transaction.cpp:1722-1735 | Leaving the registry after a first fragment that was not certified keeps the invariant. |
| FragmentSteps.SetPaUnsafeKeeps | include/wsrep/transaction.hpp:145-152 | Changing the pa_unsafe flag between hooks keeps the invariant. |
| FragmentSteps.SetImplicitDepsKeeps | include/wsrep/transaction.hpp:153-154 | Changing implicit_deps between hooks keeps the invariant. |
| FragmentSteps.ResetErrorKeeps | include/wsrep/client_state.hpp:926-929 | Clearing the error of the client between hooks keeps the invariant. |
| CommitSteps.BeforePrepareKeeps | src/transaction.cpp:283-314 | before_prepare() keeps the invariant. |
| CommitSteps.RemoveFragmentsKeeps | src/transaction.cpp:307-345 | Fragment removal keeps the invariant unless the statement is not allowed while executing. |
| CommitSteps.BeginCommitKeeps | src/transaction.cpp:1757-1775 | The entry into certify_commit() keeps the invariant. |
| CommitSteps.FlushForCommitKeeps | src/transaction.cpp:1778-1820 | The flush and the flag updates keep the invariant unless the flush fails after a BF abort or with no error set. |
| CommitSteps.CertifyCommitKeeps | src/transaction.cpp:1822-1845 | Data preparation and certification keep the invariant for every answer. |
| CommitSteps.LockAfterCertifyKeeps | src/transaction.cpp:1847-1966 | The relock in certify_commit() keeps the invariant for every status, except an unguarded one after a BF abort. |
| CommitSteps.AfterPrepareKeeps | src/transaction.cpp:405-453 | after_prepare() keeps the invariant, and its assertion certified and ordered holds. |
| CommitSteps.BeforeCommitKeeps | src/transaction.cpp:455-515 | before_commit() up to commit order keeps the invariant, and certified and ordered holds in committing. |
| CommitSteps.EnterCommitOrderKeeps | src/transaction.cpp:517-519 | commit_order_enter() keeps the invariant, granted or refused. |
| CommitSteps.LockAfterEnterKeeps | src/transaction.cpp:520-580 | Behind commit order the transaction is BF immutable; refused it must replay. |
| CommitSteps.OrderCommitKeeps | src/transaction.cpp:582-619 | ordered_commit() keeps the invariant and its assertions hold. |
| CommitSteps.AfterCommitKeeps | src/transaction.cpp:621-666 | after_commit() keeps the invariant unless the release of a plain transaction fails. |
| CommitSteps.StopAfterCommitKeeps | src/transaction.cpp:642-666 | Leaving the registry and cleaning the context on commit keep the invariant. |
| RollbackSteps.BeforeRollbackKeeps | src/transaction.cpp:668-753 | before_rollback() keeps the invariant from every state it accepts. |
| RollbackSteps.IdleIsRolledBack | src/transaction.cpp:724-729 | When the background rollbacker starts, the aborter has finished the streaming rollback. |
| RollbackSteps.AfterRollbackKeeps | src/transaction.cpp:755-793 | after_rollback() keeps the invariant. |
| RollbackSteps.RemoveAfterRollbackKeeps | src/transaction.cpp:767-793 | Removing the fragments, cleaning the context and aborting keep the invariant, with or without a waiting aborter. |
| RollbackSteps.OwnerWakesKeeps | src/transaction.cpp:2007-2011 | The owner that waited finds the rollback done and goes on to aborting. |
| RollbackSteps.OwnerUnregistersKeeps | src/transaction.cpp:2023-2042 | Leaving the registry finds the client registered and keeps the invariant. |
| RollbackSteps.OwnerReplicatesKeeps | src/transaction.cpp:2043-2060 | Replicating the rollback, or failing to, keeps the invariant. |
| RollbackSteps.OwnerQueuesKeeps | src/transaction.cpp:2043-2049 | Queueing the rollback event keeps the books and the wire protocol in step. |
| RollbackSteps.OwnerMarksKeeps | src/transaction.cpp:2055-2060 | Marking the context and going on in the calling hook keep the invariant. |
| RollbackSteps.AfterStatementKeeps | src/transaction.cpp:837-940 | after_statement() keeps the invariant from every state it accepts, unless its streaming step is inconsistent. |
| RollbackSteps.ReturnFromRollbackKeeps | src/transaction.cpp:880-928 | Going on after bf_rollback() keeps the invariant. |
| RollbackSteps.ReplayKeeps | src/transaction.cpp:2063-2075 | Replay, here or elsewhere, committed or refused, keeps the invariant. |
| RollbackSteps.StopAfterReplayKeeps | src/transaction.cpp:2076-2079 | The client is in the registry exactly if it was streaming before replay. |
| RollbackSteps.LockAfterReplayKeeps | src/transaction.cpp:2080-2117 | Settling the state after replay keeps the invariant. |
| RollbackSteps.RemoveAfterReplayKeeps | src/transaction.cpp:2096-2105 | Removing fragments after a refused replay keeps the invariant. |
| RollbackSteps.ReleaseOrderKeeps | src/transaction.cpp:795-809 | release_commit_order() balances entries and departures. |
| RollbackSteps.ReleaseHandleKeeps | src/transaction.cpp:919-940 | Releasing the handle and cleanup() keep the invariant. |
| AbortSteps.BfAbortKeeps | src/transaction.cpp:998-1133 | bf_abort() and total_order_bf_abort(), successful or not, keep the invariant from every state, however often they are called. |
| AbortSteps.AborterWakesKeeps | src/transaction.cpp:2007-2011 | An aborter that wakes finds the context rolled back unless it is stale. |
| AbortSteps.AborterUnregistersKeeps | src/transaction.cpp:2023-2042 | An aborter that is not stale finds the client registered. |
| AbortSteps.AborterUnregistersFails | src/server_state.cpp:1175-1183 | A stale aborter finds the client gone from the registry. |
| AbortSteps.AborterReplicatesKeeps | src/transaction.cpp:2043-2060 | Replicating the rollback from the aborter keeps the invariant. |
| AbortSteps.AborterQueuesKeeps | src/transaction.cpp:2043-2049 | Queueing the rollback event from the aborter keeps the invariant. |
| AbortSteps.AborterMarksKeeps | src/transaction.cpp:1080-1111 | Marking the context and handing an idle client to the background rollbacker keep the invariant. |
| Transaction.LocalTransaction.constructor | src/transaction.cpp:128-156 | A started local transaction stands at the start of its run. |
| Transaction.LocalTransaction.LockAfterEnter | src/transaction.cpp:520-580 | The end of before_commit() extends the run of the object; it returns 0 exactly if commit order was entered, and then the transaction is BF immutable in committing, otherwise in must_replay. |
| Transaction.LocalTransaction.BfAbort | src/transaction.cpp:998-1133 | Extends the run of the object and returns true exactly when the transaction is active, not immutable, in executing, preparing, certifying or committing and the provider agrees; it is then BF aborted in must_abort, or handed over in aborting; a refused bf_abort() changes nothing, and one behind commit order is refused. |
| Transaction.LocalTransaction.Perform | src/transaction.cpp:283-2148 | Any stretch of any hook, by any thread and with any answers, extends the run of the object by that step, so that the object is where a legal run leads, and an assertion has failed exactly if the run ends in a hazard. |
| Transaction.Interleave | src/transaction.cpp:283-2148 | Whatever calls are made on the object, in any interleaving, until an assertion fails every promise about runs holds of it; it fails exactly in a hazard. |
| Applying.GtidContinuity | src/server_state.cpp:86-453 | With only applying allowed to fail, every ordered write set on a handled flag word gets its one commit, append or dummy call, except exactly when applying fails in a replay. |
| Applying.Dispatch | src/server_state.cpp:275-453 | Which flag words are middle fragments and which have a branch at all. |
| Applying.Server.ApplyFragment | src/server_state.cpp:86-151 | When the applier is dropped, what its fragment list becomes, when the write set gets its mark and exactly when an error is returned, for every combination of answers. |
| Applying.Server.CommitFragment | src/server_state.cpp:153-211 | The applier is dropped exactly when no error is returned; mark, error and assertion for every combination of answers. |
| Applying.Server.RollbackFragment | src/server_state.cpp:213-273 | The applier is dropped exactly when its rollback succeeds; mark and error for every combination of answers. |
| Applying.Server.ApplyRollback | src/server_state.cpp:281-325 | A rollback write set closes its applier unless the rollback fails, or counts as a stray; mark and error for every combination of answers. |
| Applying.Server.ApplyWhole | src/server_state.cpp:326-350 | Mark and error of a whole transaction in one write set, for every combination of answers. |
| Applying.Server.ApplyMiddle | src/server_state.cpp:368-401 | A middle fragment goes to its applier, or counts as a stray; when the applier is dropped, mark and error for every combination of answers. |
| Applying.Server.ApplyCommit | src/server_state.cpp:402-443 | A last fragment closes its applier exactly if committing it returns no error, or counts as a stray; in replay it touches no applier; mark, error and assertion for every combination of answers. |
| Applying.Server.ApplyWriteSet | src/server_state.cpp:275-453 | At most one mark, exactly when Marked holds; an error exactly when ApplyError holds; no other applier is touched; an assertion fails exactly on an unhandled flag word, a start for a known transaction, or a commit that cannot be applied on an empty fragment list; with services succeeding the applier goes absent, present, absent. |
| Applying.BeginningNotBroken | src/transaction.cpp:1496-1966 | Any beginning of a log in the wire protocol is in the wire protocol. |
| Applying.OriginatorsInProtocol | src/transaction.cpp:1496-1966 | What plain runs of any number of transactions have sent, delivered in any interleaving, is in the protocol. |
| Applying.DeliverAll | src/server_state.cpp:275-453 | For every interleaving in the protocol an applier exists exactly for the transactions open on the wire, with as many fragments as were delivered and prepared exactly if one of them said so; no assertion fails, only unneeded rollbacks miss their applier, and every write set is accounted for. |
| Applying.EndToEnd | src/server_state.cpp:275-453 | The same for what any runs of any number of local transactions have sent, as long as none has left the wire protocol in the two ways WireProtocol names: originators and receivers agree. |
| Applying.ImplicitDepsFragmentIsNotHandled | src/server_state.cpp:368-447 | A middle fragment whose only flag is implicit_deps has no branch. |
| StreamingRegistry.Registry.StartStreamingClient | src/server_state.cpp:1143-1157 | Adds exactly the client; an assertion fails exactly if it is there already. |
| StreamingRegistry.Registry.StopStreamingClient | src/server_state.cpp:1221-1243 | Removes exactly the client; an assertion fails exactly if it is not there. |
| StreamingRegistry.Registry.ConvertToApplier | src/server_state.cpp:1159-1218 | The client always leaves; one applier comes in under the same server and transaction id with the same fragments, unless disconnected or not adopted; an assertion fails exactly if the key was taken. |
| StreamingRegistry.PreparedXa.XaDetach | src/transaction.cpp:1239-1258 | Detaching hands the transaction to an applier and ends aborted through allowed states. |
| StreamingRegistry.PreparedXa.BfAbort | src/transaction.cpp:1084-1097 | A BF abort of a prepared transaction leads to must_abort, and of an idle one to must_replay, and sets the total order mark. |
| StreamingRegistry.PreparedXa.BfRollback | src/transaction.cpp:668-793 | The rollback before replay leaves the state and removes the fragments from storage exactly after a total order abort. |
| StreamingRegistry.PreparedXa.AfterCommandMustAbort | src/transaction.cpp:942-968 | Rollback and replay from an after-command hook hand the transaction to an applier; its fragments stay in storage unless it was BF aborted in total order. |
| StreamingRegistry.PreparedXa.XaReplay | src/transaction.cpp:1260-1296 | Unordered replay hands the transaction to an applier and ends aborted through allowed states. |
| StreamingRegistry.PreparedXaIsNeverLost | src/transaction.cpp:1239-1296 | Whichever way the client loses a prepared XA transaction, its client entry goes and exactly one prepared applier comes under the same ids with the same fragment list, still in storage; nothing else changes, unless the ids are taken, which fails an assertion. |
| RollbackQueue.Queue.QueueEvent | src/server_state.cpp:1609-1625 | The event, which the source asserts not to be queued, goes to the end; nothing is lost or doubled. |
| RollbackQueue.Queue.SendPending | src/server_state.cpp:1627-1650 | The queue is drained in order up to the first failure; nothing is lost or doubled; success exactly if every answer is. |
| RollbackQueue.Ledger.Record | src/server_state.cpp:1609-1625 | A step that queues its rollback finds the id not queued yet, as the source asserts; a step that certifies finds everything queued before its flush replicated. |
| RollbackQueue.Ledger.Flush | src/server_state.cpp:1627-1650 | A successful flush has replicated everything ever queued. |
| FlushOrder.QueuesOnce | src/transaction.cpp:2043-2049 | In every reachable state, a transaction that queues its rollback has not announced it before. |
| FlushOrder.CertifiesAfterFlush | src/transaction.cpp:1515-1526 | In every reachable state, a transaction that calls certify() has a flush of its own that succeeded. |
| FlushOrder.StepBook | src/transaction.cpp:283-2148 | No step but a flush makes a transaction flushed, none takes back an announced rollback, each certification needs a flush and each queued event a first announcement. |
| FlushOrder.FailedFlush | src/transaction.cpp:1778-1802 | A failed flush does not make a transaction flushed. |
| FlushOrder.Take | src/transaction.cpp:1989-2061 | A step of one of many transactions extends its run and appends its id to the queue exactly if it queues; the id was not queued; nothing else changes. |
| FlushOrder.Flush | src/transaction.cpp:1778-1802 | A flush of one of many transactions drains the queue, and its run goes on with the outcome. |
| FlushOrder.RunAll | src/server_state.cpp:1609-1650 | For any number of transactions of a server, each on a run of its own, in any interleaving and with any answers: events are conserved in order and none is queued twice, and every certification comes after all events queued before its flush were replicated, in order. |
| Membership.MemberIndex | src/view.cpp:23-34 | The first position of the id, or -1 exactly if it is not a member. |
| Membership.EqualMembership | src/view.cpp:36-52 | Equal size and every member of one view in the other. |
| Membership.EqualMembershipIsSetEquality | src/view.cpp:36-52 | With distinct ids on its own side the loop decides equality of size and member sets. |
| Membership.SetEqualityNeedsDistinctIds | src/view.cpp:36-52 | The ids of a view are distinct if and only if the loop decides equality of the member sets against every other view of its size. |
| Membership.EqualMembershipIsSymmetric | src/view.cpp:36-52 | With distinct ids on both sides the loop is symmetric. |
| Membership.RepeatedIdsBreakEquality | src/view.cpp:36-52 | A pair of views with a repeated id shows that the loop is then neither set equality nor symmetric. |
| Membership.CloseOrphans | src/server_state.cpp:1518-1578 | The applier map becomes exactly its restriction to the survivors: no prepared one goes, any other stays only if its server is in the view and the membership has changed; exactly the rest has its fragments removed, unless adopting fails. |
| Membership.CloseStreamingClients | src/server_state.cpp:1466-1516 | When the server is not in the view or the membership is unchanged, exactly the prepared clients remain. |
| ClientOwnership.Session.BeforeCommand | src/client_state.cpp:108-182 | A client that resumes after a rollbacker, from idle or with ownership acquired before, finds its transaction aborted; what it does in every state of the transaction. |
| ClientOwnership.Session.AcquireOwnership | src/client_state.cpp:436-446 | The client gets ownership and goes to exec only without an active rollbacker; after one it finds its transaction aborted. |
| ClientOwnership.Session.ClientRollsBack | src/client_state.cpp:150-175 | Where each hook leaves client and transaction after its bf_rollback(). |
| ClientOwnership.Session.AfterCommandBeforeResult | src/client_state.cpp:184-206 | A BF aborted transaction is rolled back before the result state. |
| ClientOwnership.Session.AfterCommandAfterResult | src/client_state.cpp:208-229 | A BF aborted transaction is rolled back before idle; the transaction is never aborting there. |
| ClientOwnership.Session.Close | src/client_state.cpp:57-81 | A client that quits after a rollbacker finds its transaction aborted. |
| ClientOwnership.Session.BfAbort | src/transaction.cpp:1074-1111 | A BF abort of an executing or committing transaction makes the rollbacker active exactly when the client is idle and the server synchronous. |
| ClientOwnership.Session.AborterReturns | src/transaction.cpp:1080-1111 | The same when the aborter comes out of streaming_rollback(). |
| ClientOwnership.Session.RollbackerStarts | src/client_state.cpp:964-975 | The rollbacker finds the client idle when it takes ownership. |
| ClientOwnership.Session.SyncRollbackComplete | src/client_state.cpp:425-434 | The assertion idle and aborted holds. |
| ClientOwnership.TransitionTable | src/client_state.cpp:1032-1040 | The transitions between client states are those of the table, row by row. |
| ClientOwnership.Exclusion | src/client_state.cpp:57-446 | In every interleaving of commands, separate acquisition of ownership, BF aborts in executing and on the way to commit, and the rollbacker: an active rollbacker has the client idle and outside every hook, and a client that went on after one had found its transaction aborted. |
| ClientRuns.IdleIsBetweenHooks | src/transaction.cpp:1074-1111 | Whenever an aborter may look whether the client is idle, and it is, the transaction is between hooks in executing or must_abort: what the runs of a transaction take for granted of the answer holds on every connection. |
| ClientRuns.ClientKeepsItsPlace | src/client_state.cpp:57-229 | In every interleaving of commands, BF aborts, streaming rollbacks of aborters and the background rollbacker the transaction follows one of its runs; an active rollbacker has the client idle and the transaction in its own rollback or aborted; an idle client without one is between hooks. |
| ClientRuns.ResumesRolledBack | src/client_state.cpp:108-128 | A client that goes on or quits after a rollbacker finds its transaction aborted, and the rollbacker gone. |
| ClientRuns.IdleClientIsHandedOver | src/transaction.cpp:1084-1111 | A BF abort of an idle client with an executing transaction that does not stream makes the rollbacker of a synchronous server active. |
| TotalOrderIsolation.Client.PollEnterToi | src/client_state.cpp:558-611 | The first answer that is neither a certification nor a connection failure, or at which the client has timed out or was interrupted, is the last and is reported; every earlier one is retried; every entry is counted, and every one but a successful last one is left. |
| TotalOrderIsolation.ModeTable | src/client_state.cpp:1064-1072 | The transitions between modes are those of the table, row by row. |
| TotalOrderIsolation.Client.EnterToiLocal | src/client_state.cpp:621-664 | Success enters TOI mode; failure leaves mode and meta data as they were. |
| TotalOrderIsolation.Client.EnterToiMode | src/client_state.cpp:666-674 | An applier enters TOI mode without a provider call. |
| TotalOrderIsolation.Client.LeaveToiLocal | src/client_state.cpp:688-698 | Restores the local mode and balances the entry. |
| TotalOrderIsolation.Client.LeaveToiMode | src/client_state.cpp:700-706 | Restores the high priority mode. |
| TotalOrderIsolation.Client.BeginRsu | src/client_state.cpp:712-737 | Success enters RSU mode; failure changes nothing. |
| TotalOrderIsolation.Client.EndRsu | src/client_state.cpp:739-756 | Restores the local mode. |
| TotalOrderIsolation.Client.BeginNboPhaseOne | src/client_state.cpp:762-805 | Success enters NBO mode inside TOI; failure leaves the local mode. |
| TotalOrderIsolation.Client.EndNboPhaseOne | src/client_state.cpp:807-832 | Leaves TOI, keeps the mode and moves the meta data. |
| TotalOrderIsolation.Client.EnterNboMode | src/client_state.cpp:834-843 | Takes over an NBO between its phases. |
| TotalOrderIsolation.Client.BeginNboPhaseTwo | src/client_state.cpp:845-905 | Success is inside TOI again; failure ends the NBO in local mode. |
| TotalOrderIsolation.Client.EndNboPhaseTwo | src/client_state.cpp:907-934 | Restores the local mode and balances the entry. |
| TotalOrderIsolation.Balance | src/client_state.cpp:558-934 | Over every sequence of brackets with any retries, provider entries minus departures is 0 or 1, and 1 exactly while the client itself is in TOI; base modes have clean meta data. |
| TotalOrderIsolation.NonBlockingOperation | src/client_state.cpp:762-934 | A complete NBO, whichever phase fails, ends in local mode, balanced. |
| StateWaiters.Rendezvous.BeginWait | src/server_state.cpp:1393-1399 | Returns at once in the wanted state, otherwise registers. |
| StateWaiters.Rendezvous.Wake | src/server_state.cpp:1399-1412 | Observed, interrupted or still waiting, as the state says. |
| StateWaiters.Rendezvous.SetState | src/server_state.cpp:1346-1391 | Changes the state by the table, ignores events while disconnecting, records who waits for the new state, and misses a waiter exactly when one was still waiting for the state left. |
| StateWaiters.Rendezvous.SetterReturns | src/server_state.cpp:1386-1391 | Returns only when nobody waits for the present state. |
| StateWaiters.TransitionTable | src/server_state.cpp:1351-1363 | The transitions between server states are those of the table, row by row. |
| StateWaiters.NoMissedState | src/server_state.cpp:1346-1413 | With one setter at a time, in any run: no state is left while a thread still waits for it, and every wait that was on for a state when it was entered ends observed before the state is left. |
| StateWaiters.Walk | src/server_state.cpp:931-957 | Whatever runs between the steps, the walk visits exactly joiner, initializing and, if initialised before, initialized, and every thread that was waiting for one of them observes it. |
| StateWaiters.TwoSettersMissState | src/server_state.cpp:1346-1413 | Two setters at a time can leave a state that a thread waits for. |
| Codec.UuidScan | src/uuid.cpp:27-60 | A successful scan is the hex decoding of the consumed text with dashes removed; a failed one returns the nil UUID and an error. |
| Codec.HexDigits | src/uuid.cpp:48-51 | The sixteen digits in either case, and no other character, and what each stands for. |
| Codec.DashPositions | src/uuid.cpp:34-41 | The unsigned expression that decides where a dash is skipped holds exactly before bytes 4 to 11. |
| Codec.ScanAcceptsExactly | src/uuid.cpp:27-60 | A scan accepts n characters as a UUID if and only if they are sixteen pairs of hex digits of its bytes, with any number of dashes before bytes 4 to 11 and none elsewhere. |
| Codec.RfcByDashes | src/uuid.cpp:34-49 | An accepted text is in the form of section 3 of RFC 4122 if and only if it has one dash each before bytes 4, 6, 8 and 10 and no other. |
| Codec.MisplacedDashesAreAccepted | src/uuid.cpp:34-49 | For each byte from 4 to 11 there is a text of 36 characters with all four dashes before that byte, which is accepted as a UUID and as an id and is not in the RFC form. |
| Codec.UuidPrint | src/uuid.cpp:62-74 | 36 characters without a colon, in the form of section 3 of RFC 4122. |
| Codec.UuidRoundTrip | src/uuid.cpp:27-74 | Scanning the printed form of any UUID gives it back and consumes all 36 characters (section 3 of RFC 4122). |
| Codec.ParseId | src/id.cpp:29-51 | Sixteen bytes, or an error only for text longer than 16 bytes. |
| Codec.PrintId | src/id.cpp:67-103 | At most 36 characters without a colon. |
| Codec.IdRoundTrip | src/id.cpp:29-103 | Parsing the printed form of any 16-byte id gives it back. |
| Codec.NamesPrintAsThemselves | src/id.cpp:61-91 | An id of letters and digits followed by zeros prints as those. |
| Codec.OthersPrintAsUuids | src/id.cpp:83-103 | Any other id prints as a UUID in the RFC form. |
| Codec.ShortTextIsAName | src/id.cpp:41-44 | Text of up to 16 bytes is taken as it is and filled up with zeros. |
| Codec.CharacterClasses | src/id.cpp:67-80 | Letters, digits and white space of the C locale. |
| Codec.PrintSeqno | src/seqno.cpp:23-26 | Digits without a leading zero, after a minus sign exactly if negative. |
| Codec.SeqnoRoundTrip | src/seqno.cpp:23-26 | Reading the printed form of any 64-bit seqno gives it back and consumes the whole text. |
| Codec.PrintGtidTo | src/gtid.cpp:79-90 | The text goes to the front of the buffer and nothing else changes, or an error if it does not fit. |
| Codec.GtidRoundTrip | src/gtid.cpp:28-57 | Parsing the printed form of any GTID with a 64-bit seqno gives it back and consumes the whole text. |
| Codec.NoColonNoGtid | src/gtid.cpp:28-57 | Text without a colon is refused. |
| Codec.GtidFits | include/wsrep/gtid.hpp:29-33 | 57 bytes always suffice. |
| Codec.GtidBoundIsTight | include/wsrep/gtid.hpp:29-33 | Some GTID needs all 57 bytes. |
| StreamingContext.Context.Step | src/transaction.cpp:1441-1494 | When a step replicates, when it reports an inconsistency, and the unit counter afterwards. |
| StreamingContext.Context.Certified | src/transaction.cpp:1642-1662 | Counts the fragment, and stores its seqno in increasing order. |
| StreamingContext.Context.Applied | src/streaming_context.cpp:68-73 | Counts and stores an applied fragment. |
| StreamingContext.Context.Cleanup | src/streaming_context.cpp:81-88 | Resets everything but unit and size. |
| StreamingContext.CountedSteps | src/transaction.cpp:1441-1494 | n row or statement steps with new data make n / k fragments and leave n % k on the counter; without new data in every step at most as many; stored fragments stay strictly increasing. |
| StreamingContext.ByteSteps | src/transaction.cpp:1441-1494 | In byte units fewer than k bytes wait after every step, and every fragment holds at least k. |

## Left out

- XA transactions that are still executing, commit or rollback by xid, and replay with commit; the model has prepared XA transactions only in StreamingRegistry.
- High priority (applier) transactions as state machines: Applying sees an applier as a fragment list and a prepared mark, and takes its callbacks as answers.
- Transaction.LocalTransaction.Perform: updates one record by the step function of the stretch of code, where the source assigns to its fields one after the other under the lock; what other threads can see is the same.
- TransactionSnapshot counts fragments but does not hold their seqnos; StreamingContext does.
- Keys, read views, which error code is set and the last written GTID: bookkeeping without bearing on the protocols. That an error is set at all is modelled.
- emergency_shutdown() and the provider statuses that lead to it after replay: the run ends there.
- Applying.Server.ApplyFragment: an applier left behind by a failed clean-up keeps its fragment list in the model; the server is about to leave the cluster then.
- TOI and NBO write sets on the applying side, which have no streaming applier.
- Membership.CloseStreamingClients: takes the BF abort of each client and the wait for it as one step, without concurrent insertions.
- StreamingContext.CountedSteps: takes the log position after a fragment to be the bytes generated; the source leaves it to the DBMS.
- StreamingContext.ByteSteps: the same; with any other position the bound of k waiting bytes does not hold.
- FlushOrder: the order of steps of different transactions is any; that the provider delivers in the order of replication is not modelled.
- ClientOwnership.Session.StartCommit: one step stands for certifying, preparing and committing up to commit order; what happens in them is in TransactionRuns and, on a connection, in ClientRuns.
- StateWaiters: safety only; that waiters are scheduled at all is not modelled.
- Wall-clock timeouts in poll_enter_toi(): any answer may be the last.
- Codec: text is read from a string in the C locale, one GTID at a time.
- SST, donor and desync handling, provider loading, options, encryption, allowlist, logging and the simulator in dbsim: thin wrappers or easy members.
