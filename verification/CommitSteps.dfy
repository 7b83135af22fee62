/** The steps of before_prepare(), certify_commit(), after_prepare(), before_commit(),
    ordered_commit() and after_commit(), and the proof that each keeps the invariant. */
module CommitSteps {
  import opened TransactionStates
  import opened TransactionEvents
  import opened TransactionSnapshot

  // ---------------------------------------------------------------- before_prepare()

  function BeforePrepare(s: Snapshot, twoPhase: bool): Snapshot {
    s.(error := s.error || s.st.MustAbort?,
       c := if s.st.MustAbort? then Ready
            else if s.Streaming() then CommitFragments(twoPhase) else CommitReplayers(twoPhase),
       assertionFailed := s.assertionFailed || !(s.st.Executing? || s.st.MustAbort?))
  }

  lemma BeforePrepareKeeps(s: Snapshot, twoPhase: bool)
    requires s.Inv() && s.c.Ready? && (s.st.Executing? || s.st.MustAbort?)
    ensures Kept(s, BeforePrepare(s, twoPhase))
  {
    BeforePrepareKeepsControl(s, twoPhase);
    BeforePrepareKeepsBooks(s, twoPhase);
    BeforePrepareKeepsStreams(s, twoPhase);
  }

  lemma BeforePrepareKeepsControl(s: Snapshot, twoPhase: bool)
    requires s.Control() && s.c.Ready? && (s.st.Executing? || s.st.MustAbort?)
    ensures BeforePrepare(s, twoPhase).Control()
  {
  }

  lemma BeforePrepareKeepsBooks(s: Snapshot, twoPhase: bool)
    requires s.Control() && s.Books() && s.c.Ready? && (s.st.Executing? || s.st.MustAbort?)
    ensures BeforePrepare(s, twoPhase).Books() && Lasts(s, BeforePrepare(s, twoPhase))
  {
  }

  lemma BeforePrepareKeepsStreams(s: Snapshot, twoPhase: bool)
    requires s.Control() && s.Certificates() && s.Streams() && s.c.Ready? && (s.st.Executing? || s.st.MustAbort?)
    ensures BeforePrepare(s, twoPhase).Streams()
  {
  }

  /** statement_allowed_for_streaming() and remove_fragments().  A statement that is not allowed
      leaves the state alone, which the exit assertion of before_prepare() does not accept. */
  function RemoveFragments(s: Snapshot, removal: Removal): Snapshot {
    var goesOn := s.st.Executing? && removal.Removed?;
    var next := if s.st.MustAbort? || removal.RemovalFails? then MustAbort else s.st;
    s.(st := next, past := s.PastTo(next), error := s.error || !goesOn,
       c := if goesOn then CommitReplayers(TwoPhase(s.c)) else Ready,
       assertionFailed :=
         s.assertionFailed || !s.MayBecome(next) || (removal.StatementNotAllowed? && !s.st.MustAbort?))
  }

  lemma RemoveFragmentsKeeps(s: Snapshot, removal: Removal)
    requires s.Inv() && s.c.CommitFragments? && (s.st.MustAbort? || !removal.StatementNotAllowed?)
    ensures Kept(s, RemoveFragments(s, removal))
  {
    RemoveFragmentsKeepsControl(s, removal);
    RemoveFragmentsKeepsBooks(s, removal);
    RemoveFragmentsKeepsStreams(s, removal);
  }

  lemma RemoveFragmentsKeepsControl(s: Snapshot, removal: Removal)
    requires s.Control() && s.c.CommitFragments? && (s.st.MustAbort? || !removal.StatementNotAllowed?)
    ensures RemoveFragments(s, removal).Control()
  {
  }

  lemma RemoveFragmentsKeepsBooks(s: Snapshot, removal: Removal)
    requires s.Control() && s.Books() && s.c.CommitFragments? && (s.st.MustAbort? || !removal.StatementNotAllowed?)
    ensures RemoveFragments(s, removal).Books() && Lasts(s, RemoveFragments(s, removal))
  {
  }

  lemma RemoveFragmentsKeepsStreams(s: Snapshot, removal: Removal)
    requires s.Control() && s.Certificates() && s.Streams()
    requires s.c.CommitFragments? && (s.st.MustAbort? || !removal.StatementNotAllowed?)
    ensures RemoveFragments(s, removal).Streams()
  {
  }

  // ---------------------------------------------------------------- certify_commit()

  /** After wait_for_replayers(): abort_or_interrupt(), then the entry into certifying. */
  function BeginCommit(s: Snapshot, interrupted: bool): Snapshot {
    var next := if s.st.MustAbort? || interrupted then MustAbort else Certifying;
    s.(st := next, past := s.PastTo(next), error := s.error || next.MustAbort?,
       c := if next.MustAbort? then Ready else CommitFlush(TwoPhase(s.c)),
       assertionFailed := s.assertionFailed || !s.MayBecome(next))
  }

  lemma BeginCommitKeeps(s: Snapshot, interrupted: bool)
    requires s.Inv() && s.c.CommitReplayers?
    ensures Kept(s, BeginCommit(s, interrupted))
  {
    BeginCommitKeepsControl(s, interrupted);
    BeginCommitKeepsBooks(s, interrupted);
    BeginCommitKeepsStreams(s, interrupted);
  }

  lemma BeginCommitKeepsControl(s: Snapshot, interrupted: bool)
    requires s.Control() && s.c.CommitReplayers?
    ensures BeginCommit(s, interrupted).Control()
  {
  }

  lemma BeginCommitKeepsBooks(s: Snapshot, interrupted: bool)
    requires s.Control() && s.Books() && s.c.CommitReplayers?
    ensures BeginCommit(s, interrupted).Books() && Lasts(s, BeginCommit(s, interrupted))
  {
  }

  lemma BeginCommitKeepsStreams(s: Snapshot, interrupted: bool)
    requires s.Control() && s.Certificates() && s.Streams() && s.c.CommitReplayers?
    ensures BeginCommit(s, interrupted).Streams()
  {
  }

  /** send_pending_rollback_events() and the flags of the commit write set, without the lock.  A failure
      sets must_abort without a look at the state and without an error, which before_prepare() asserts. */
  function FlushForCommit(s: Snapshot, ok: bool): Snapshot {
    var next := if ok then s.st else MustAbort;
    s.(st := next, past := s.PastTo(next), flushed := s.flushed || ok,
       flags := s.flags.(
         paUnsafe := s.flags.paUnsafe || (ok && s.Streaming()),
         implicitDeps := s.flags.implicitDeps || (ok && s.implicitDeps),
         commit := s.flags.commit || ok, prepare := s.flags.prepare && !ok),
       c := if ok then CommitCertify(TwoPhase(s.c)) else Ready,
       assertionFailed := s.assertionFailed || (!ok && (!Allowed(s.st, MustAbort) || !s.error)))
  }

  lemma FlushForCommitKeeps(s: Snapshot, ok: bool)
    requires s.Inv() && s.c.CommitFlush? && (ok || (!s.st.MustAbort? && s.error))
    ensures KeptByFlush(s, FlushForCommit(s, ok))
  {
    FlushForCommitKeepsControl(s, ok);
    FlushForCommitKeepsBooks(s, ok);
    FlushForCommitKeepsStreams(s, ok);
  }

  lemma FlushForCommitKeepsControl(s: Snapshot, ok: bool)
    requires s.Control() && s.c.CommitFlush? && (ok || (!s.st.MustAbort? && s.error))
    ensures FlushForCommit(s, ok).Control()
  {
  }

  lemma FlushForCommitKeepsBooks(s: Snapshot, ok: bool)
    requires s.Control() && s.Books() && s.c.CommitFlush? && (ok || (!s.st.MustAbort? && s.error))
    ensures FlushForCommit(s, ok).Books() && LastsInFlush(s, FlushForCommit(s, ok))
  {
  }

  lemma FlushForCommitKeepsStreams(s: Snapshot, ok: bool)
    requires s.Control() && s.Certificates() && s.Streams() && s.c.CommitFlush? && (ok || (!s.st.MustAbort? && s.error))
    ensures FlushForCommit(s, ok).Streams()
  {
  }

  /** prepare_data_for_replication() and provider::certify(), without the lock. */
  function CertifyCommit(s: Snapshot, res: CommitResult): Snapshot {
    var called := res.Answer?;
    var passed := called && res.status.Success?;
    var next := if called then s.st else MustAbort;
    s.(st := next, past := s.PastTo(next), error := s.error || !called,
       flushed := s.flushed && !called, unflushed := s.unflushed || (called && !s.flushed),
       ordered := if called then res.ordered else s.ordered,
       wasOrdered := if called then res.ordered else s.wasOrdered,
       nCommits := if passed then Again(s.nCommits) else s.nCommits,
       sent := if passed then Then(s.sent, CommitSent(s.flags)) else s.sent,
       wire := if passed then WireNext(s.wire, CommitSent(s.flags)) else s.wire,
       wasBfReported := s.wasBfReported || (called && res.status.BfAbort?),
       c := if called then CommitRelock(TwoPhase(s.c), res.status) else Ready,
       assertionFailed := s.assertionFailed || !s.MayBecome(next))
  }

  lemma CertifyCommitKeeps(s: Snapshot, res: CommitResult)
    requires s.Inv() && s.c.CommitCertify? && CommitResultPossible(res)
    ensures Kept(s, CertifyCommit(s, res))
  {
    CertifyCommitKeepsControl(s, res);
    CertifyCommitKeepsBooks(s, res);
    CertifyCommitKeepsStreams(s, res);
  }

  lemma CertifyCommitKeepsControl(s: Snapshot, res: CommitResult)
    requires s.Control() && s.c.CommitCertify? && CommitResultPossible(res)
    ensures CertifyCommit(s, res).Control()
  {
  }

  lemma CertifyCommitKeepsBooks(s: Snapshot, res: CommitResult)
    requires s.Control() && s.Books() && s.c.CommitCertify? && CommitResultPossible(res)
    ensures CertifyCommit(s, res).Books() && Lasts(s, CertifyCommit(s, res))
  {
  }

  lemma CertifyCommitKeepsStreams(s: Snapshot, res: CommitResult)
    requires s.Control() && s.Certificates() && s.Streams() && s.c.CommitCertify? && CommitResultPossible(res)
    ensures CertifyCommit(s, res).Streams()
  {
  }

  /** The state in which the relock of certify_commit() leaves a transaction, with one-phase commit behind
      after_prepare(). */
  function Certified(st: TxState, status: CertStatus, twoPhase: bool): TxState {
    match status
    case Success => if st.MustAbort? then MustReplay else if twoPhase then Preparing else Committing
    case BfAbort => MustReplay
    case CertificationFailed => CertFailed
    case _ => MustAbort
  }

  /** Past states then: one-phase commit has gone through preparing, a BF abort through must_abort. */
  function CertifiedPast(past: History, st: TxState, status: CertStatus, twoPhase: bool): History {
    var next := Certified(st, status, twoPhase);
    if next == st then past
    else if next.Committing? then After(After(past, st), Preparing)
    else if next.MustReplay? && !st.MustAbort? then After(After(past, st), MustAbort)
    else After(past, st)
  }

  /** The relock in certify_commit(); with one-phase commit also after_prepare() and the way to
      commit_order_enter().  Some error statuses set must_abort without a look at the state. */
  function LockAfterCertify(s: Snapshot): Snapshot {
    var status := StatusOf(s.c);
    var next := Certified(s.st, status, TwoPhase(s.c));
    s.(st := next, past := CertifiedPast(s.past, s.st, status, TwoPhase(s.c)),
       certified := s.certified || status.Success?,
       error := s.error || !(status.Success? || status.BfAbort?),
       c := if next.Committing? then OrderEnter else Ready,
       assertionFailed :=
         || s.assertionFailed || !(s.st.Certifying? || s.st.MustAbort?) || (status.Success? && !s.ordered)
         || (Unguarded(status) && s.st.MustAbort?))
  }

  lemma LockAfterCertifyKeeps(s: Snapshot)
    requires s.Inv() && s.c.CommitRelock? && !(Unguarded(StatusOf(s.c)) && s.st.MustAbort?)
    ensures Kept(s, LockAfterCertify(s))
  {
    LockAfterCertifyKeepsControl(s);
    LockAfterCertifyKeepsBooks(s);
    LockAfterCertifyKeepsStreams(s);
  }

  lemma LockAfterCertifyKeepsControl(s: Snapshot)
    requires s.Control() && s.c.CommitRelock? && !(Unguarded(StatusOf(s.c)) && s.st.MustAbort?)
    ensures LockAfterCertify(s).Control()
  {
  }

  lemma LockAfterCertifyKeepsBooks(s: Snapshot)
    requires s.Control() && s.Books()
    requires s.c.CommitRelock? && !(Unguarded(StatusOf(s.c)) && s.st.MustAbort?)
    ensures LockAfterCertify(s).Books() && Lasts(s, LockAfterCertify(s))
  {
    if s.st.Certifying? {
      Through(s.past, s.st, Preparing, Committing);
      Through(s.past, s.st, MustAbort, MustReplay);
    }
  }

  lemma LockAfterCertifyKeepsStreams(s: Snapshot)
    requires s.Control() && s.Certificates() && s.Streams()
    requires s.c.CommitRelock? && !(Unguarded(StatusOf(s.c)) && s.st.MustAbort?)
    ensures LockAfterCertify(s).Streams()
  {
  }

  // ---------------------------------------------------------------- after_prepare(), before_commit()

  function AfterPrepare(s: Snapshot): Snapshot {
    var next := if s.st.MustAbort? then MustReplay else Committing;
    s.(st := next, past := s.PastTo(next),
       assertionFailed := s.assertionFailed || !(s.certified && s.ordered) || !Allowed(s.st, next))
  }

  lemma AfterPrepareKeeps(s: Snapshot)
    requires s.Inv() && s.c.Ready? && s.certified && (s.st.Preparing? || s.st.MustAbort?)
    ensures Kept(s, AfterPrepare(s))
  {
  }

  function BeforeCommit(s: Snapshot): Snapshot {
    var next := if s.st.MustAbort? && s.certified then MustReplay else s.st;
    s.(st := next, past := s.PastTo(next), error := s.error || next.MustAbort?,
       c := if s.st.Committing? then OrderEnter
            else if !s.st.Executing? then Ready
            else if s.Streaming() then CommitFragments(false) else CommitReplayers(false),
       assertionFailed :=
         || s.assertionFailed || !(s.st.Executing? || s.st.Committing? || s.st.MustAbort?)
         || (s.st.Committing? && !(s.certified && s.ordered)))
  }

  lemma BeforeCommitKeeps(s: Snapshot)
    requires s.Inv() && s.c.Ready? && !s.immutable && (s.st.Executing? || s.st.Committing? || s.st.MustAbort?)
    ensures Kept(s, BeforeCommit(s))
  {
    BeforeCommitKeepsControl(s);
    BeforeCommitKeepsBooks(s);
    BeforeCommitKeepsStreams(s);
  }

  lemma BeforeCommitKeepsControl(s: Snapshot)
    requires s.Control() && s.c.Ready? && !s.immutable && (s.st.Executing? || s.st.Committing? || s.st.MustAbort?)
    ensures BeforeCommit(s).Control()
  {
  }

  lemma BeforeCommitKeepsBooks(s: Snapshot)
    requires s.Control() && s.Books()
    requires s.c.Ready? && !s.immutable && (s.st.Executing? || s.st.Committing? || s.st.MustAbort?)
    ensures BeforeCommit(s).Books() && Lasts(s, BeforeCommit(s))
  {
  }

  lemma BeforeCommitKeepsStreams(s: Snapshot)
    requires s.Control() && s.Certificates() && s.Streams()
    requires s.c.Ready? && !s.immutable && (s.st.Executing? || s.st.Committing? || s.st.MustAbort?)
    ensures BeforeCommit(s).Streams()
  {
  }

  /** provider::commit_order_enter(), which refuses a BF aborted transaction. */
  function EnterCommitOrder(s: Snapshot, ok: bool): Snapshot {
    s.(inOrder := s.inOrder || ok, nEntries := if ok then Again(s.nEntries) else s.nEntries, c := OrderRelock(ok))
  }

  lemma EnterCommitOrderKeeps(s: Snapshot, ok: bool)
    requires s.Inv() && s.c.OrderEnter? && (ok ==> !s.bfAborted)
    ensures Kept(s, EnterCommitOrder(s, ok))
  {
  }

  /** The end of before_commit(): BF immutable behind commit order, must_replay if refused. */
  function LockAfterEnter(s: Snapshot): Snapshot {
    var entered := s.c == OrderRelock(true);
    var next := if entered then s.st else MustReplay;
    s.(st := next,
       past := if entered || s.st.MustAbort? then s.PastTo(next) else After(After(s.past, s.st), MustAbort),
       immutable := s.immutable || (entered && s.st.Committing?), c := Ready,
       assertionFailed := s.assertionFailed || !(s.st.Committing? || s.st.MustAbort?))
  }

  lemma LockAfterEnterKeeps(s: Snapshot)
    requires s.Inv() && s.c.OrderRelock?
    ensures Kept(s, LockAfterEnter(s))
  {
    LockAfterEnterKeepsControl(s);
    LockAfterEnterKeepsBooks(s);
    LockAfterEnterKeepsStreams(s);
  }

  lemma LockAfterEnterKeepsControl(s: Snapshot)
    requires s.Control() && s.c.OrderRelock?
    ensures LockAfterEnter(s).Control()
  {
  }

  lemma LockAfterEnterKeepsBooks(s: Snapshot)
    requires s.Control() && s.Books() && s.c.OrderRelock?
    ensures LockAfterEnter(s).Books() && Lasts(s, LockAfterEnter(s))
  {
    if s.st.Committing? { Through(s.past, s.st, MustAbort, MustReplay); }
  }

  lemma LockAfterEnterKeepsStreams(s: Snapshot)
    requires s.Control() && s.Certificates() && s.Streams() && s.c.OrderRelock?
    ensures LockAfterEnter(s).Streams()
  {
  }

  // ---------------------------------------------------------------- ordered_commit(), after_commit()

  function OrderCommit(s: Snapshot): Snapshot {
    s.(st := OrderedCommit, past := s.PastTo(OrderedCommit), nDepartures := Again(s.nDepartures),
       assertionFailed := s.assertionFailed || !s.ordered || !s.st.Committing?)
  }

  lemma OrderCommitKeeps(s: Snapshot)
    requires s.Inv() && s.c.Ready? && s.st.Committing? && s.immutable
    ensures Kept(s, OrderCommit(s))
  {
  }

  /** after_commit() asserts that provider::release() succeeds, for a streaming transaction in the step
      that follows. */
  function AfterCommit(s: Snapshot, released: bool): Snapshot {
    var next := if s.Streaming() then s.st else Committed;
    s.(st := next, past := s.PastTo(next), c := if s.Streaming() then CommitStop else Ready,
       assertionFailed :=
         s.assertionFailed || !s.st.OrderedCommit? || !s.immutable || (!s.Streaming() && !released))
  }

  lemma AfterCommitKeeps(s: Snapshot, released: bool)
    requires s.Inv() && s.c.Ready? && s.st.OrderedCommit? && (released || s.Streaming())
    ensures Kept(s, AfterCommit(s, released))
  {
  }

  /** stop_streaming_client(), without the lock, then the rest of after_commit(). */
  function StopAfterCommit(s: Snapshot, released: bool): Snapshot {
    s.(registered := false, nExits := Again(s.nExits), fragments := 0, rolledBack := false,
       st := Committed, past := s.PastTo(Committed), c := Ready,
       assertionFailed := s.assertionFailed || !s.registered || !released || !s.st.OrderedCommit?)
  }

  lemma StopAfterCommitKeeps(s: Snapshot)
    requires s.Inv() && s.c.CommitStop?
    ensures Kept(s, StopAfterCommit(s, true))
  {
  }
}
