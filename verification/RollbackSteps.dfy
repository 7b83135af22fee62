/** The steps of before_rollback(), after_rollback(), streaming_rollback() in the owner,
    after_statement() and replay(), and the proof that each keeps the invariant. */
module RollbackSteps {
  import opened TransactionStates
  import opened TransactionEvents
  import opened TransactionSnapshot

  // ---------------------------------------------------------------- before_rollback()

  /** The states in which the DBMS may call before_rollback() between hooks. */
  predicate MayRollBack(st: TxState) {
    st.Executing? || st.Preparing? || st.MustAbort? || st.CertFailed? || st.MustReplay?
  }

  /** A certified transaction is replayed, unless an error in the prepare phase rolls it back. */
  predicate BoundForReplay(s: Snapshot) { s.st.MustReplay? || (s.st.MustAbort? && s.certified) }

  /** Whether before_rollback() gets into streaming_rollback(): to wait there, or to do the work. */
  predicate HasToWait(s: Snapshot) {
    s.Streaming() && s.rollingBack && !s.st.Aborting? && !s.st.Preparing? && !BoundForReplay(s)
  }

  predicate HasToWork(s: Snapshot) {
    && s.Streaming() && !s.st.Aborting? && !BoundForReplay(s)
    && (s.st.Preparing? || (!s.rollingBack && !s.rolledBack))
  }

  /** before_rollback(), called by the DBMS or by the background rollbacker, until the lock is let go. */
  function BeforeRollback(s: Snapshot): Snapshot {
    var next :=
      if BoundForReplay(s) then MustReplay
      else if HasToWork(s) then if s.st.Preparing? then MustAbort else s.st
      else if HasToWait(s) then s.st
      else Aborting;
    s.(st := next,
       past := if s.st.Preparing? && next.Aborting? then After(After(s.past, s.st), MustAbort) else s.PastTo(next),
       fromPreparing := s.fromPreparing || s.st.Preparing?, rollingBack := s.rollingBack || HasToWork(s),
       c := if HasToWork(s) then Sr(InHook(Nested(s.c)), s.Way())
            else if HasToWait(s) then Sr(InHook(Nested(s.c)), Waiting)
            else RbAfter(Nested(s.c)),
       assertionFailed :=
         || s.assertionFailed || !(MayRollBack(s.st) || s.st.Aborting?)
         || (s.st.Aborting? && s.Streaming() && !s.rolledBack))
  }

  lemma BeforeRollbackKeeps(s: Snapshot)
    requires s.Inv() && (s.c.RbCall? || (s.c.Ready? && MayRollBack(s.st)))
    ensures Kept(s, BeforeRollback(s))
  {
    BeforeRollbackKeepsControl(s);
    BeforeRollbackKeepsBooks(s);
    BeforeRollbackKeepsStreams(s);
  }

  lemma BeforeRollbackKeepsControl(s: Snapshot)
    requires s.Control() && (s.c.RbCall? || (s.c.Ready? && MayRollBack(s.st)))
    ensures BeforeRollback(s).Control()
  {
  }

  lemma BeforeRollbackKeepsBooks(s: Snapshot)
    requires s.Control() && s.Books() && (s.c.RbCall? || (s.c.Ready? && MayRollBack(s.st)))
    ensures BeforeRollback(s).Books() && Lasts(s, BeforeRollback(s))
  {
    if s.st.Preparing? { PreparedKeepsBooks(s); } else { UnpreparedKeepsBooks(s); }
  }

  lemma PreparedKeepsBooks(s: Snapshot)
    requires s.Control() && s.Books() && (s.c.RbCall? || (s.c.Ready? && MayRollBack(s.st)))
    requires s.st.Preparing?
    ensures BeforeRollback(s).Books() && Lasts(s, BeforeRollback(s))
  {
    if s.st.Preparing? { Through(s.past, s.st, MustAbort, Aborting); }
  }

  lemma UnpreparedKeepsBooks(s: Snapshot)
    requires s.Control() && s.Books() && (s.c.RbCall? || (s.c.Ready? && MayRollBack(s.st)))
    requires !s.st.Preparing?
    ensures BeforeRollback(s).Books() && Lasts(s, BeforeRollback(s))
  {
    if s.st.Preparing? { Through(s.past, s.st, MustAbort, Aborting); }
  }

  lemma BeforeRollbackKeepsStreams(s: Snapshot)
    requires s.Control() && s.Certificates() && s.Streams() && (s.c.RbCall? || (s.c.Ready? && MayRollBack(s.st)))
    ensures BeforeRollback(s).Streams()
  {
    if s.st.MustAbort? { MustAbortKeepsStreams(s); } else { OtherKeepsStreams(s); }
  }

  lemma MustAbortKeepsStreams(s: Snapshot)
    requires s.Control() && s.Certificates() && s.Streams() && (s.c.RbCall? || (s.c.Ready? && MayRollBack(s.st)))
    requires s.st.MustAbort?
    ensures BeforeRollback(s).Streams()
  {
  }

  lemma OtherKeepsStreams(s: Snapshot)
    requires s.Control() && s.Certificates() && s.Streams() && (s.c.RbCall? || (s.c.Ready? && MayRollBack(s.st)))
    requires !s.st.MustAbort?
    ensures BeforeRollback(s).Streams()
  {
  }

  /** The aborter has already done the streaming rollback for the idle client. */
  lemma IdleIsRolledBack(s: Snapshot)
    requires s.Control() && s.c == RbCall(false)
    ensures !s.rollingBack && (s.Streaming() ==> s.rolledBack) && !s.a.Sr?
  {
    assert s.OneRollback() && s.OwnerPlace();
  }

  // ---------------------------------------------------------------- after_rollback()

  /** Only a transaction BF aborted in total order has its fragments removed, in the step that follows.
      Cleaning the context pulls it from under an aborter that still waits in streaming_rollback(). */
  function AfterRollback(s: Snapshot): Snapshot {
    var removes := s.Streaming() && s.totalOrder;
    var done := s.st.Aborting? && !removes;
    var next := if done then Aborted else s.st;
    s.(st := next, past := s.PastTo(next), fragments := if done then 0 else s.fragments,
       rolledBack := s.rolledBack && !done, stale := if done then s.a.Sr? else s.stale,
       c := if removes then RbFragments(Nested(s.c)) else if Nested(s.c) then RbReturn else Ready,
       assertionFailed := s.assertionFailed || !(s.st.Aborting? || s.st.MustReplay?))
  }

  lemma AfterRollbackKeeps(s: Snapshot)
    requires s.Inv() && s.c.RbAfter?
    ensures Kept(s, AfterRollback(s))
  {
    AfterRollbackKeepsControl(s);
    AfterRollbackKeepsBooks(s);
    AfterRollbackKeepsStreams(s);
  }

  lemma AfterRollbackKeepsControl(s: Snapshot)
    requires s.Control() && s.c.RbAfter?
    ensures AfterRollback(s).Control()
  {
  }

  lemma AfterRollbackKeepsBooks(s: Snapshot)
    requires s.Control() && s.Books() && s.c.RbAfter?
    ensures AfterRollback(s).Books() && Lasts(s, AfterRollback(s))
  {
  }

  lemma AfterRollbackKeepsStreams(s: Snapshot)
    requires s.Control() && s.Certificates() && s.Streams() && s.c.RbAfter?
    ensures AfterRollback(s).Streams()
  {
  }

  /** remove_fragments_in_storage_service_scope(), then the rest of after_rollback(). */
  function RemoveAfterRollback(s: Snapshot): Snapshot {
    var done := s.st.Aborting?;
    var next := if done then Aborted else s.st;
    s.(removed := true, st := next, past := s.PastTo(next), fragments := if done then 0 else s.fragments,
       rolledBack := s.rolledBack && !done, stale := if done then s.a.Sr? else s.stale,
       c := if Nested(s.c) then RbReturn else Ready,
       assertionFailed := s.assertionFailed || !s.MayBecome(next))
  }

  lemma RemoveAfterRollbackKeeps(s: Snapshot)
    requires s.Inv() && s.c.RbFragments?
    ensures Kept(s, RemoveAfterRollback(s))
  {
    RemoveAfterRollbackKeepsControl(s);
    RemoveAfterRollbackKeepsBooks(s);
    RemoveAfterRollbackKeepsStreams(s);
  }

  lemma RemoveAfterRollbackKeepsControl(s: Snapshot)
    requires s.Control() && s.c.RbFragments?
    ensures RemoveAfterRollback(s).Control()
  {
  }

  lemma RemoveAfterRollbackKeepsBooks(s: Snapshot)
    requires s.Control() && s.Books() && s.c.RbFragments?
    ensures RemoveAfterRollback(s).Books() && Lasts(s, RemoveAfterRollback(s))
  {
  }

  lemma RemoveAfterRollbackKeepsStreams(s: Snapshot)
    requires s.Control() && s.Certificates() && s.Streams() && s.c.RbFragments?
    ensures RemoveAfterRollback(s).Streams()
  {
  }

  // ---------------------------------------------------------------- streaming_rollback() in the owner

  /** The owner wakes up on the condition variable: the aborter has done the work. */
  function OwnerWakes(s: Snapshot): Snapshot {
    s.(st := Aborting, past := s.PastTo(Aborting), c := RbAfter(Nested(s.c)),
       assertionFailed := s.assertionFailed || !s.rolledBack || !Allowed(s.st, Aborting))
  }

  lemma OwnerWakesKeeps(s: Snapshot)
    requires s.Inv() && Waits(s.c) && !s.rollingBack
    ensures Kept(s, OwnerWakes(s))
  {
  }

  function SiteOf(pc: Pc): Site { if pc.Sr? then pc.site else InBfAbort }

  /** The server asserts that the client is in its registry. */
  function OwnerUnregisters(s: Snapshot): Snapshot {
    var stops := Stops(s.c);
    s.(registered := false, nExits := Again(s.nExits),
       nConversions := if stops then s.nConversions else Again(s.nConversions),
       c := Sr(SiteOf(s.c), if stops then Marking else Sending),
       assertionFailed := s.assertionFailed || !s.registered)
  }

  lemma OwnerUnregistersKeeps(s: Snapshot)
    requires s.Inv() && (Stops(s.c) || Converts(s.c))
    ensures Kept(s, OwnerUnregisters(s))
  {
    OwnerUnregistersKeepsControl(s);
    OwnerUnregistersKeepsBooks(s);
    OwnerUnregistersKeepsStreams(s);
  }

  lemma OwnerUnregistersKeepsControl(s: Snapshot)
    requires s.Control() && (Stops(s.c) || Converts(s.c))
    ensures OwnerUnregisters(s).Control()
  {
  }

  lemma OwnerUnregistersKeepsBooks(s: Snapshot)
    requires s.Control() && s.Books() && (Stops(s.c) || Converts(s.c))
    ensures OwnerUnregisters(s).Books() && Lasts(s, OwnerUnregisters(s))
  {
  }

  lemma OwnerUnregistersKeepsStreams(s: Snapshot)
    requires s.Inv() && (Stops(s.c) || Converts(s.c))
    ensures OwnerUnregisters(s).Streams()
  {
  }

  /** Where the caller of streaming_rollback() goes on: before_rollback() to aborting, certify_fragment()
      back to the client with must_abort. */
  function RolledBackState(site: Site): TxState { if site.InHook? then Aborting else MustAbort }

  function RolledBackPlace(site: Site): Pc { if site.InHook? then RbAfter(site.nested) else Ready }

  /** provider::rollback(), under the lock, and if it succeeds the rest of streaming_rollback(). */
  function OwnerReplicates(s: Snapshot, ok: bool): Snapshot {
    var next := if ok then RolledBackState(SiteOf(s.c)) else s.st;
    s.(sent := if ok then Then(s.sent, RollbackSent) else s.sent,
       wire := if ok then WireNext(s.wire, RollbackSent) else s.wire,
       nRollbacks := if ok then Again(s.nRollbacks) else s.nRollbacks,
       rolledBack := s.rolledBack || ok, rollingBack := s.rollingBack && !ok,
       error := s.error || (ok && !SiteOf(s.c).InHook?),
       st := next, past := s.PastTo(next),
       c := if ok then RolledBackPlace(SiteOf(s.c)) else Sr(SiteOf(s.c), Queueing),
       assertionFailed := s.assertionFailed || !s.MayBecome(next))
  }

  lemma OwnerReplicatesKeeps(s: Snapshot, ok: bool)
    requires s.Inv() && Sends(s.c)
    ensures Kept(s, OwnerReplicates(s, ok))
  {
    OwnerReplicatesKeepsControl(s, ok);
    OwnerReplicatesKeepsBooks(s, ok);
    OwnerReplicatesKeepsStreams(s, ok);
  }

  lemma OwnerReplicatesKeepsControl(s: Snapshot, ok: bool)
    requires s.Control() && Sends(s.c)
    ensures OwnerReplicates(s, ok).Control()
  {
  }

  lemma OwnerReplicatesKeepsBooks(s: Snapshot, ok: bool)
    requires s.Control() && s.Books() && Sends(s.c)
    ensures OwnerReplicates(s, ok).Books() && Lasts(s, OwnerReplicates(s, ok))
  {
  }

  lemma OwnerReplicatesKeepsStreams(s: Snapshot, ok: bool)
    requires s.Control() && s.Certificates() && s.Streams() && Sends(s.c)
    ensures OwnerReplicates(s, ok).Streams()
  {
  }

  /** queue_rollback_event(), without the lock. */
  function OwnerQueues(s: Snapshot): Snapshot {
    s.(sent := Then(s.sent, RollbackSent), wire := WireNext(s.wire, RollbackSent), nRollbacks := Again(s.nRollbacks),
       c := Sr(SiteOf(s.c), Marking))
  }

  lemma OwnerQueuesKeeps(s: Snapshot)
    requires s.Inv() && Queues(s.c)
    ensures Kept(s, OwnerQueues(s))
  {
  }

  /** The context is marked rolled back, and the caller of streaming_rollback() goes on. */
  function OwnerMarks(s: Snapshot): Snapshot {
    var next := RolledBackState(SiteOf(s.c));
    s.(rolledBack := true, rollingBack := false, error := s.error || !SiteOf(s.c).InHook?,
       st := next, past := s.PastTo(next), c := RolledBackPlace(SiteOf(s.c)),
       assertionFailed := s.assertionFailed || !s.MayBecome(next))
  }

  lemma OwnerMarksKeeps(s: Snapshot)
    requires s.Inv() && Marks(s.c)
    ensures Kept(s, OwnerMarks(s))
  {
    OwnerMarksKeepsControl(s);
    OwnerMarksKeepsBooks(s);
    OwnerMarksKeepsStreams(s);
  }

  lemma OwnerMarksKeepsControl(s: Snapshot)
    requires s.Control() && Marks(s.c)
    ensures OwnerMarks(s).Control()
  {
  }

  lemma OwnerMarksKeepsBooks(s: Snapshot)
    requires s.Control() && s.Books() && Marks(s.c)
    ensures OwnerMarks(s).Books() && Lasts(s, OwnerMarks(s))
  {
  }

  lemma OwnerMarksKeepsStreams(s: Snapshot)
    requires s.Control() && s.Certificates() && s.Streams() && Marks(s.c)
    ensures OwnerMarks(s).Streams()
  {
  }

  // ---------------------------------------------------------------- after_statement(), replay()

  /** The states after_statement() asserts on entry. */
  predicate MayEndStatement(st: TxState) {
    st.Executing? || st.Committed? || st.Aborted? || st.MustAbort? || st.CertFailed? || st.MustReplay?
  }

  /** The log position is set when certify_fragment() has got the data of a fragment, without which a
      transaction that was certifying does not get back to executing. */
  predicate HasLogPosition(s: Snapshot) { Visited(s.past, Certifying) }

  /** Release of what the provider holds for an aborted transaction. */
  function Release(s: Snapshot): Pc { if s.ordered then OrderRelease else HandleRelease }

  /** after_statement() of a transaction that is not committed.  `inconsistent`: in statement units
      streaming_step() finds fewer bytes generated than replicated and returns an error.  The transaction
      goes on executing, and the exit assertion that an error means an aborted transaction fails. */
  function EndStatement(s: Snapshot, inconsistent: bool): Snapshot {
    var next := if s.st.MustReplay? then Replaying else s.st;
    s.(st := next, past := s.PastTo(next),
       error := s.error || s.st.MustAbort? || s.st.CertFailed? || (s.st.Aborted? && s.bfAborted),
       c := if s.st.Executing? then Ready
            else if s.st.Aborted? then Release(s)
            else if s.st.MustReplay? then ReplayCall
            else RbCall(true),
       assertionFailed := s.assertionFailed || !MayEndStatement(s.st) || (s.st.Executing? && inconsistent))
  }

  function AfterStatement(s: Snapshot, inconsistent: bool): Snapshot {
    if s.st.Committed? then s.CleanedUp(Committed) else EndStatement(s, inconsistent)
  }

  lemma AfterStatementKeeps(s: Snapshot, inconsistent: bool)
    requires s.Inv() && s.c.Ready? && MayEndStatement(s.st) && !(inconsistent && s.st.Executing?)
    ensures Kept(s, AfterStatement(s, inconsistent))
  {
    if s.st.Committed? { EndCommittedKeeps(s); } else { EndStatementKeeps(s, inconsistent); }
  }

  lemma EndCommittedKeeps(s: Snapshot)
    requires s.Inv() && s.c.Ready? && s.st.Committed?
    ensures Kept(s, s.CleanedUp(Committed))
  {
  }

  lemma EndStatementKeeps(s: Snapshot, inconsistent: bool)
    requires s.Inv() && s.c.Ready? && MayEndStatement(s.st) && !s.st.Committed? && !(inconsistent && s.st.Executing?)
    ensures Kept(s, EndStatement(s, inconsistent))
  {
    EndStatementKeepsControl(s, inconsistent);
    EndStatementKeepsBooks(s, inconsistent);
    EndStatementKeepsStreams(s, inconsistent);
  }

  lemma EndStatementKeepsControl(s: Snapshot, inconsistent: bool)
    requires s.Control()
    requires s.c.Ready? && MayEndStatement(s.st) && !s.st.Committed? && !(inconsistent && s.st.Executing?)
    ensures EndStatement(s, inconsistent).Control()
  {
  }

  lemma EndStatementKeepsBooks(s: Snapshot, inconsistent: bool)
    requires s.Control() && s.Books()
    requires s.c.Ready? && MayEndStatement(s.st) && !s.st.Committed? && !(inconsistent && s.st.Executing?)
    ensures EndStatement(s, inconsistent).Books() && Lasts(s, EndStatement(s, inconsistent))
  {
  }

  lemma EndStatementKeepsStreams(s: Snapshot, inconsistent: bool)
    requires s.Control() && s.Certificates() && s.Streams()
    requires s.c.Ready? && MayEndStatement(s.st) && !s.st.Committed? && !(inconsistent && s.st.Executing?)
    ensures EndStatement(s, inconsistent).Streams()
  {
    if s.st.Aborted? { EndAbortedKeepsStreams(s, inconsistent); } else { EndOtherKeepsStreams(s, inconsistent); }
  }

  lemma EndAbortedKeepsStreams(s: Snapshot, inconsistent: bool)
    requires s.Control() && s.Certificates() && s.Streams()
    requires s.c.Ready? && MayEndStatement(s.st) && !s.st.Committed? && !(inconsistent && s.st.Executing?)
    requires s.st.Aborted?
    ensures EndStatement(s, inconsistent).Streams()
  {
  }

  lemma EndOtherKeepsStreams(s: Snapshot, inconsistent: bool)
    requires s.Control() && s.Certificates() && s.Streams()
    requires s.c.Ready? && MayEndStatement(s.st) && !s.st.Committed? && !(inconsistent && s.st.Executing?)
    requires !s.st.Aborted?
    ensures EndStatement(s, inconsistent).Streams()
  {
  }

  /** bf_rollback() has returned to after_statement(). */
  function ReturnFromRollback(s: Snapshot): Snapshot {
    var next := if s.st.MustReplay? then Replaying else s.st;
    s.(st := next, past := s.PastTo(next), c := if s.st.MustReplay? then ReplayCall else Release(s),
       assertionFailed := s.assertionFailed || !(s.st.MustReplay? || s.st.Aborted?))
  }

  lemma ReturnFromRollbackKeeps(s: Snapshot)
    requires s.Inv() && s.c.RbReturn?
    ensures Kept(s, ReturnFromRollback(s))
  {
    ReturnFromRollbackKeepsControl(s);
    ReturnFromRollbackKeepsBooks(s);
    ReturnFromRollbackKeepsStreams(s);
  }

  lemma ReturnFromRollbackKeepsControl(s: Snapshot)
    requires s.Control() && s.c.RbReturn?
    ensures ReturnFromRollback(s).Control()
  {
  }

  lemma ReturnFromRollbackKeepsBooks(s: Snapshot)
    requires s.Control() && s.Books() && s.c.RbReturn?
    ensures ReturnFromRollback(s).Books() && Lasts(s, ReturnFromRollback(s))
  {
  }

  lemma ReturnFromRollbackKeepsStreams(s: Snapshot)
    requires s.Control() && s.Certificates() && s.Streams() && s.c.RbReturn?
    ensures ReturnFromRollback(s).Streams()
  {
  }

  /** client_service::replay(), without the lock.  A replay that commits enters and leaves
      commit order once; a replay in this client state also runs its commit hooks in high
      priority mode. */
  function Replay(s: Snapshot, result: ReplayResult): Snapshot {
    var refused, here := result.ReplayCertFailed?, result.ReplayedHere?;
    var passes := !refused && !s.CommitWasSent();
    s.(wasRefused := s.wasRefused || refused,
       sent := if passes then Then(s.sent, CommitSent(s.flags)) else s.sent,
       wire := if passes then WireNext(s.wire, CommitSent(s.flags)) else s.wire,
       nCommits := if passes then Again(s.nCommits) else s.nCommits,
       nEntries := if refused then s.nEntries else Again(s.nEntries),
       nDepartures := if refused then s.nDepartures else Again(s.nDepartures),
       certified := s.certified || here, ordered := s.ordered || here, wasOrdered := s.wasOrdered || here,
       immutable := s.immutable || here, fragments := if here then 0 else s.fragments,
       rolledBack := s.rolledBack && !here, st := if here then Committed else s.st,
       past := if here then After(After(After(After(s.past, s.st), Preparing), Committing), OrderedCommit) else s.past,
       c := ReplayStop(!refused, s.Streaming()), assertionFailed := s.assertionFailed || !s.st.Replaying?)
  }

  lemma ReplayKeeps(s: Snapshot, result: ReplayResult)
    requires s.Inv() && s.c.ReplayCall?
    ensures Kept(s, Replay(s, result))
  {
    ReplayKeepsControl(s, result);
    ReplayKeepsBooks(s, result);
    ReplayKeepsStreams(s, result);
  }

  lemma ReplayKeepsControl(s: Snapshot, result: ReplayResult)
    requires s.Control() && s.c.ReplayCall?
    ensures Replay(s, result).Control()
  {
  }

  lemma ReplayKeepsBooks(s: Snapshot, result: ReplayResult)
    requires s.Control() && s.Books() && s.c.ReplayCall?
    ensures Replay(s, result).Books() && Lasts(s, Replay(s, result))
  {
    if s.st.Replaying? {
      Through(s.past, s.st, Preparing, Committing);
      Through(After(After(s.past, s.st), Preparing), Committing, OrderedCommit, Committed);
    }
  }

  lemma ReplayKeepsStreams(s: Snapshot, result: ReplayResult)
    requires s.Control() && s.Certificates() && s.Streams() && s.c.ReplayCall?
    ensures Replay(s, result).Streams()
  {
  }

  /** stop_streaming_client() after replay, without the lock. */
  function StopAfterReplay(s: Snapshot): Snapshot {
    var was := s.c.ReplayStop? && s.c.wasStreaming;
    s.(registered := s.registered && !was, nExits := if was then Again(s.nExits) else s.nExits,
       c := ReplayLock(s.c.ReplayStop? && s.c.ok), assertionFailed := s.assertionFailed || (was && !s.registered))
  }

  lemma StopAfterReplayKeeps(s: Snapshot)
    requires s.Inv() && s.c.ReplayStop?
    ensures Kept(s, StopAfterReplay(s))
  {
    StopAfterReplayKeepsControl(s);
    StopAfterReplayKeepsBooks(s);
    StopAfterReplayKeepsStreams(s);
  }

  lemma StopAfterReplayKeepsControl(s: Snapshot)
    requires s.Control() && s.c.ReplayStop?
    ensures StopAfterReplay(s).Control()
  {
  }

  lemma StopAfterReplayKeepsBooks(s: Snapshot)
    requires s.Control() && s.Books() && s.c.ReplayStop?
    ensures StopAfterReplay(s).Books() && Lasts(s, StopAfterReplay(s))
  {
  }

  lemma StopAfterReplayKeepsStreams(s: Snapshot)
    requires s.Control() && s.Certificates() && s.Streams() && s.c.ReplayStop?
    ensures StopAfterReplay(s).Streams()
  {
  }

  /** The relock after a replay that committed: one in another client state leaves the last step to this
      one.  After one that failed certification the fragments are removed, in the step that follows. */
  function LockAfterReplay(s: Snapshot): Snapshot {
    if s.c == ReplayLock(true) then s.CleanedUp(Committed) else SettleRefused(s)
  }

  function SettleRefused(s: Snapshot): Snapshot {
    var next := if s.Streaming() then s.st else Aborted;
    s.(st := next, past := s.PastTo(next), error := true, c := if s.Streaming() then ReplayFragments else Release(s),
       assertionFailed := s.assertionFailed || !s.MayBecome(next))
  }

  lemma LockAfterReplayKeeps(s: Snapshot)
    requires s.Inv() && s.c.ReplayLock?
    ensures Kept(s, LockAfterReplay(s))
  {
    if s.c.ok { EndReplayKeeps(s); } else { SettleRefusedKeeps(s); }
  }

  lemma EndReplayKeeps(s: Snapshot)
    requires s.Inv() && s.c == ReplayLock(true)
    ensures Kept(s, s.CleanedUp(Committed))
  {
    EndReplayKeepsControl(s);
    EndReplayKeepsBooks(s);
    EndReplayKeepsStreams(s);
  }

  lemma EndReplayKeepsControl(s: Snapshot)
    requires s.Control() && s.c == ReplayLock(true)
    ensures s.CleanedUp(Committed).Control()
  {
  }

  lemma EndReplayKeepsBooks(s: Snapshot)
    requires s.Control() && s.Books() && s.c == ReplayLock(true)
    ensures s.CleanedUp(Committed).Books() && Lasts(s, s.CleanedUp(Committed))
  {
  }

  lemma EndReplayKeepsStreams(s: Snapshot)
    requires s.Control() && s.Certificates() && s.Streams() && s.c == ReplayLock(true)
    ensures s.CleanedUp(Committed).Streams()
  {
  }

  lemma SettleRefusedKeeps(s: Snapshot)
    requires s.Inv() && s.c == ReplayLock(false)
    ensures Kept(s, SettleRefused(s))
  {
    SettleRefusedKeepsControl(s);
    SettleRefusedKeepsBooks(s);
    SettleRefusedKeepsStreams(s);
  }

  lemma SettleRefusedKeepsControl(s: Snapshot)
    requires s.Control() && s.c == ReplayLock(false)
    ensures SettleRefused(s).Control()
  {
  }

  lemma SettleRefusedKeepsBooks(s: Snapshot)
    requires s.Control() && s.Books() && s.c == ReplayLock(false)
    ensures SettleRefused(s).Books() && Lasts(s, SettleRefused(s))
  {
  }

  lemma SettleRefusedKeepsStreams(s: Snapshot)
    requires s.Control() && s.Certificates() && s.Streams() && s.c == ReplayLock(false)
    ensures SettleRefused(s).Streams()
  {
  }

  /** remove_fragments() after a replay that failed certification. */
  function RemoveAfterReplay(s: Snapshot): Snapshot {
    s.(fragments := 0, rolledBack := false, removed := true, st := Aborted, past := s.PastTo(Aborted),
       c := Release(s), assertionFailed := s.assertionFailed || !Allowed(s.st, Aborted))
  }

  lemma RemoveAfterReplayKeeps(s: Snapshot)
    requires s.Inv() && s.c.ReplayFragments?
    ensures Kept(s, RemoveAfterReplay(s))
  {
    RemoveAfterReplayKeepsControl(s);
    RemoveAfterReplayKeepsBooks(s);
    RemoveAfterReplayKeepsStreams(s);
  }

  lemma RemoveAfterReplayKeepsControl(s: Snapshot)
    requires s.Control() && s.c.ReplayFragments?
    ensures RemoveAfterReplay(s).Control()
  {
  }

  lemma RemoveAfterReplayKeepsBooks(s: Snapshot)
    requires s.Control() && s.Books() && s.c.ReplayFragments?
    ensures RemoveAfterReplay(s).Books() && Lasts(s, RemoveAfterReplay(s))
  {
  }

  lemma RemoveAfterReplayKeepsStreams(s: Snapshot)
    requires s.Inv() && s.c.ReplayFragments?
    ensures RemoveAfterReplay(s).Streams()
  {
  }

  /** release_commit_order(), without the lock. */
  function ReleaseOrder(s: Snapshot): Snapshot {
    s.(nEntries := Again(s.nEntries), nDepartures := Again(s.nDepartures), c := HandleRelease)
  }

  lemma ReleaseOrderKeeps(s: Snapshot)
    requires s.Inv() && s.c.OrderRelease?
    ensures Kept(s, ReleaseOrder(s))
  {
    ReleaseOrderKeepsControl(s);
    ReleaseOrderKeepsBooks(s);
    ReleaseOrderKeepsStreams(s);
  }

  lemma ReleaseOrderKeepsControl(s: Snapshot)
    requires s.Control() && s.c.OrderRelease?
    ensures ReleaseOrder(s).Control()
  {
  }

  lemma ReleaseOrderKeepsBooks(s: Snapshot)
    requires s.Control() && s.Books() && s.c.OrderRelease?
    ensures ReleaseOrder(s).Books() && Lasts(s, ReleaseOrder(s))
  {
  }

  lemma ReleaseOrderKeepsStreams(s: Snapshot)
    requires s.Control() && s.Certificates() && s.Streams() && s.c.OrderRelease?
    ensures ReleaseOrder(s).Streams()
  {
  }

  /** provider::release(), then cleanup(). */
  function ReleaseHandle(s: Snapshot): Snapshot { s.CleanedUp(Aborted) }

  lemma ReleaseHandleKeeps(s: Snapshot)
    requires s.Inv() && s.c.HandleRelease?
    ensures Kept(s, ReleaseHandle(s))
  {
  }
}
