/** The steps of a brute-force aborter: bf_abort(), total_order_bf_abort() and
    streaming_rollback() when called from them, and the proof that each keeps the invariant. */
module AbortSteps {
  import opened TransactionStates
  import opened TransactionEvents
  import opened TransactionSnapshot

  /** The states from which bf_abort() asks the provider. */
  predicate Abortable(st: TxState) { st.Executing? || st.Preparing? || st.Certifying? || st.Committing? }

  /** What bf_abort() returns. */
  predicate AbortSucceeds(s: Snapshot, providerOk: bool) {
    s.active && !s.immutable && Abortable(s.st) && providerOk
  }

  /** A client idle between commands, whose rollback is handed to the background rollbacker. */
  predicate MayBeIdle(s: Snapshot) { s.c.Ready? && (s.st.Executing? || s.st.MustAbort?) }

  /** bf_abort(), or with `inTotalOrder` total_order_bf_abort(), until the lock is let go.
      `idle`: the client is idle and the server rolls back synchronously.  The rollback of an idle client
      goes to the background rollbacker, which then owns the client.  A refused total_order_bf_abort()
      resets the flag it has set on entry, which may be the mark of an earlier one. */
  function BfAbort(s: Snapshot, inTotalOrder: bool, providerOk: bool, idle: bool): Snapshot {
    if AbortSucceeds(s, providerOk) then Hit(s, inTotalOrder, idle) else if inTotalOrder then Unmarked(s) else s
  }

  function Hit(s: Snapshot, inTotalOrder: bool, idle: bool): Snapshot {
    var streams := s.st.Executing? && s.Streaming();
    var hands := idle && !streams;
    var phase := if s.rollingBack then Waiting else if inTotalOrder then Stopping else Converting;
    s.(st := if hands then Aborting else MustAbort,
       past := if hands then After(After(s.past, s.st), MustAbort) else After(s.past, s.st),
       bfAborted := true, wasBf := true, totalOrder := inTotalOrder,
       wasBfInTotalOrder := s.wasBfInTotalOrder || inTotalOrder, wasBfAfterCommit := s.CommitWasSent(),
       rollingBack := s.rollingBack || streams,
       a := if streams then Sr(InBfAbort, phase) else Done, c := if hands then RbCall(false) else s.c,
       assertionFailed := s.assertionFailed || !Allowed(s.st, MustAbort))
  }

  function Unmarked(s: Snapshot): Snapshot { s.(totalOrder := false, lostMark := s.lostMark || s.ReliesOnMark()) }

  lemma BfAbortKeeps(s: Snapshot, inTotalOrder: bool, providerOk: bool, idle: bool)
    requires s.Inv() && (providerOk ==> !s.inOrder) && (idle ==> MayBeIdle(s))
    ensures KeptByAbort(s, BfAbort(s, inTotalOrder, providerOk, idle))
  {
    if AbortSucceeds(s, providerOk) { HitKeeps(s, inTotalOrder, idle); } else if inTotalOrder { UnmarkedKeeps(s); }
  }

  lemma HitKeeps(s: Snapshot, inTotalOrder: bool, idle: bool)
    requires s.Inv() && AbortSucceeds(s, true) && !s.inOrder && (idle ==> MayBeIdle(s))
    ensures Kept(s, Hit(s, inTotalOrder, idle))
  {
    HitKeepsControl(s, inTotalOrder, idle);
    HitKeepsBooks(s, inTotalOrder, idle);
    HitKeepsStreams(s, inTotalOrder, idle);
  }

  lemma HitKeepsControl(s: Snapshot, inTotalOrder: bool, idle: bool)
    requires s.Control() && AbortSucceeds(s, true) && !s.inOrder && (idle ==> MayBeIdle(s))
    ensures Hit(s, inTotalOrder, idle).Control()
  {
  }

  lemma HitKeepsBooks(s: Snapshot, inTotalOrder: bool, idle: bool)
    requires s.Control() && s.Books() && AbortSucceeds(s, true) && !s.inOrder && (idle ==> MayBeIdle(s))
    ensures Hit(s, inTotalOrder, idle).Books() && Lasts(s, Hit(s, inTotalOrder, idle))
  {
    if idle { Through(s.past, s.st, MustAbort, Aborting); }
  }

  lemma HitKeepsStreams(s: Snapshot, inTotalOrder: bool, idle: bool)
    requires s.Control() && s.Certificates() && s.Streams()
    requires AbortSucceeds(s, true) && !s.inOrder && (idle ==> MayBeIdle(s))
    ensures Hit(s, inTotalOrder, idle).Streams()
  {
  }

  lemma UnmarkedKeeps(s: Snapshot)
    requires s.Inv()
    ensures KeptByAbort(s, Unmarked(s))
  {
    UnmarkedKeepsControl(s);
    UnmarkedKeepsBooks(s);
    UnmarkedKeepsStreams(s);
  }

  lemma UnmarkedKeepsControl(s: Snapshot)
    requires s.Control()
    ensures Unmarked(s).Control()
  {
  }

  lemma UnmarkedKeepsBooks(s: Snapshot)
    requires s.Control() && s.Books()
    ensures Unmarked(s).Books() && StaysUnflushed(s, Unmarked(s))
  {
  }

  lemma UnmarkedKeepsStreams(s: Snapshot)
    requires s.Control() && s.Streams()
    ensures Unmarked(s).Streams()
  {
  }

  // ---------------------------------------------------------------- streaming_rollback() in the aborter

  /** The aborter wakes up on the condition variable.  It does not look again whether the
      transaction is still streaming. */
  function AborterWakes(s: Snapshot): Snapshot {
    s.(rollingBack := s.rollingBack || !s.rolledBack, a := if s.rolledBack then Done else Sr(InBfAbort, s.Way()))
  }

  lemma AborterWakesKeeps(s: Snapshot)
    requires s.Inv() && Waits(s.a) && !s.rollingBack
    ensures Kept(s, AborterWakes(s)) && s.rolledBack == !s.stale
  {
  }

  /** The server asserts that the client is in its registry. */
  function AborterUnregisters(s: Snapshot): Snapshot {
    var stops := Stops(s.a);
    s.(registered := false, nExits := Again(s.nExits),
       nConversions := if stops then s.nConversions else Again(s.nConversions),
       a := Sr(InBfAbort, if stops then Marking else Sending), assertionFailed := s.assertionFailed || !s.registered)
  }

  lemma AborterUnregistersKeeps(s: Snapshot)
    requires s.Inv() && (Stops(s.a) || Converts(s.a)) && !s.stale
    ensures Kept(s, AborterUnregisters(s))
  {
  }

  lemma AborterUnregistersFails(s: Snapshot)
    requires s.Inv() && s.stale && s.a.Sr?
    ensures AborterUnregisters(s).assertionFailed
  {
  }

  /** provider::rollback(), under the lock, and if it succeeds the rest of streaming_rollback() and of
      bf_abort(). */
  function AborterReplicates(s: Snapshot, ok: bool, idle: bool): Snapshot {
    var hands := ok && idle;
    s.(sent := if ok then Then(s.sent, RollbackSent) else s.sent,
       wire := if ok then WireNext(s.wire, RollbackSent) else s.wire,
       nRollbacks := if ok then Again(s.nRollbacks) else s.nRollbacks,
       rolledBack := s.rolledBack || ok, rollingBack := s.rollingBack && !ok,
       a := if ok then Done else Sr(InBfAbort, Queueing),
       st := if hands then Aborting else s.st, past := if hands then s.PastTo(Aborting) else s.past,
       c := if hands then RbCall(false) else s.c,
       assertionFailed := s.assertionFailed || (hands && !Allowed(s.st, Aborting)))
  }

  lemma AborterReplicatesKeeps(s: Snapshot, ok: bool, idle: bool)
    requires s.Inv() && Sends(s.a) && (idle ==> MayBeIdle(s))
    ensures Kept(s, AborterReplicates(s, ok, idle))
  {
    AborterReplicatesKeepsControl(s, ok, idle);
    AborterReplicatesKeepsBooks(s, ok, idle);
    AborterReplicatesKeepsStreams(s, ok, idle);
  }

  lemma AborterReplicatesKeepsControl(s: Snapshot, ok: bool, idle: bool)
    requires s.Control() && Sends(s.a) && (idle ==> MayBeIdle(s))
    ensures AborterReplicates(s, ok, idle).Control()
  {
  }

  lemma AborterReplicatesKeepsBooks(s: Snapshot, ok: bool, idle: bool)
    requires s.Control() && s.Books() && Sends(s.a) && (idle ==> MayBeIdle(s))
    ensures AborterReplicates(s, ok, idle).Books() && Lasts(s, AborterReplicates(s, ok, idle))
  {
  }

  lemma AborterReplicatesKeepsStreams(s: Snapshot, ok: bool, idle: bool)
    requires s.Control() && s.Certificates() && s.Streams() && Sends(s.a) && (idle ==> MayBeIdle(s))
    ensures AborterReplicates(s, ok, idle).Streams()
  {
  }

  /** queue_rollback_event(), without the lock. */
  function AborterQueues(s: Snapshot): Snapshot {
    s.(sent := Then(s.sent, RollbackSent), wire := WireNext(s.wire, RollbackSent), nRollbacks := Again(s.nRollbacks),
       a := Sr(InBfAbort, Marking))
  }

  lemma AborterQueuesKeeps(s: Snapshot)
    requires s.Inv() && Queues(s.a)
    ensures Kept(s, AborterQueues(s))
  {
  }

  /** The context is marked rolled back, and bf_abort() looks whether the client is idle. */
  function AborterMarks(s: Snapshot, idle: bool): Snapshot {
    s.(rolledBack := true, rollingBack := false, a := Done,
       st := if idle then Aborting else s.st, past := if idle then s.PastTo(Aborting) else s.past,
       c := if idle then RbCall(false) else s.c,
       assertionFailed := s.assertionFailed || (idle && !Allowed(s.st, Aborting)))
  }

  lemma AborterMarksKeeps(s: Snapshot, idle: bool)
    requires s.Inv() && Marks(s.a) && (idle ==> MayBeIdle(s))
    ensures Kept(s, AborterMarks(s, idle))
  {
  }
}
