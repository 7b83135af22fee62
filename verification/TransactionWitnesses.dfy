/** Runs that show that each exception in the theorems is real, and that the cases they speak of occur. */
module TransactionWitnesses {
  import opened TransactionStates
  import opened TransactionEvents
  import opened TransactionSnapshot
  import opened TransactionRuns
  import opened TransactionTheorems
  import C = CommitSteps
  import R = RollbackSteps
  import A = AbortSteps

  ghost predicate Reachable(s: Snapshot) { exists run :: Legal(run) && StateAfter(run) == s }

  ghost predicate Live(s: Snapshot) { Reachable(s) && !s.assertionFailed }

  lemma Begin()
    ensures Live(Started())
  {
    assert Legal(Start) && StateAfter(Start) == Started();
  }

  lemma LiveInv(s: Snapshot)
    requires Live(s)
    ensures s.Inv()
  {
    var run :| Legal(run) && StateAfter(run) == s;
    InvariantAfter(run);
  }

  lemma TakeFragment(s: Snapshot, f: FragmentAction) returns (t: Snapshot)
    requires Live(s) && FragmentEnabled(s, f) && !FragmentHazard(s, f)
    ensures t == FragmentNext(s, f) && Live(t)
  {
    t := Reach(s, Fragment(f));
  }

  lemma TakePrepare(s: Snapshot, p: PrepareAction) returns (t: Snapshot)
    requires Live(s) && PrepareEnabled(s, p) && !PrepareHazard(s, p)
    ensures t == PrepareNext(s, p) && Live(t)
  {
    t := Reach(s, Prepare(p));
  }

  lemma TakeCommit(s: Snapshot, m: CommitAction) returns (t: Snapshot)
    requires Live(s) && CommitEnabled(s, m) && !CommitHazard(s, m)
    ensures t == CommitNext(s, m) && Live(t)
  {
    t := Reach(s, Commit(m));
  }

  lemma TakeRollback(s: Snapshot, r: RollbackAction) returns (t: Snapshot)
    requires Live(s) && RollbackEnabled(s, r)
    ensures t == RollbackNext(s, r) && Live(t)
  {
    t := Reach(s, Rollback(r));
  }

  lemma TakeStatement(s: Snapshot, e: StatementAction) returns (t: Snapshot)
    requires Live(s) && StatementEnabled(s, e) && !StatementHazard(s, e)
    ensures t == StatementNext(s, e) && Live(t)
  {
    t := Reach(s, Statement(e));
  }

  lemma TakeAbort(s: Snapshot, b: AbortAction) returns (t: Snapshot)
    requires Live(s) && AbortEnabled(s, b) && !AbortHazard(s, b)
    ensures t == AbortNext(s, b) && Live(t)
  {
    t := Reach(s, Abort(b));
  }

  lemma Fail(s: Snapshot, act: Action) returns (t: Snapshot)
    requires Live(s) && Enabled(s, act) && Hazard(s, act)
    ensures Reachable(t) && t.assertionFailed
  {
    t := Reach(s, act);
  }

  lemma Reach(s: Snapshot, act: Action) returns (t: Snapshot)
    requires Live(s) && Enabled(s, act)
    ensures t == Next(s, act) && Reachable(t) && (t.assertionFailed <==> Hazard(s, act))
  {
    var run :| Legal(run) && StateAfter(run) == s;
    InvariantAfter(run);
    KeptOrFailed(s, act);
    t := Next(s, act);
    var next := Step(run, act);
    assert Legal(next) && StateAfter(next) == t;
  }

  // ---------------------------------------------------------------- getting to interesting states

  lemma FlushesFragment(s: Snapshot) returns (t: Snapshot)
    requires Live(s) && s.c.Ready? && s.st.Executing?
    ensures Live(t) && t.c.FragData? && t.st.Certifying? && t.a == s.a && t.nSent == s.nSent
    ensures t.implicitDeps == s.implicitDeps
  {
    t := TakeFragment(s, Row);
    t := TakeFragment(t, BeginFragment(false));
    t := TakeFragment(t, FlushForFragment(true));
  }

  lemma PassesFragment(s: Snapshot) returns (t: Snapshot)
    requires Live(s) && s.c.FragData? && s.st.Certifying?
    ensures Live(t) && t.c == FragRelock(false) && t.st.Certifying? && t.fragments > 0 && t.a == s.a
    ensures t.nSent == Again(s.nSent) && t.implicitDeps == s.implicitDeps
    ensures s.implicitDeps && !s.nSent.Never? ==> t.lateDeps
  {
    t := TakeFragment(s, PrepareFragment(DataReady));
    t := TakeFragment(t, CertifyFragment(Certified(Success, true, true)));
  }

  /** A fragment can be certified and stored in every executing transaction. */
  lemma StreamsFragment(s: Snapshot) returns (t: Snapshot)
    requires Live(s) && s.c.Ready? && s.st.Executing?
    ensures Live(t) && t.c.Ready? && t.st.Executing? && t.Streaming() && t.a == s.a
    ensures t.nSent == Again(s.nSent) && t.implicitDeps == s.implicitDeps && R.HasLogPosition(t)
    ensures s.implicitDeps && !s.nSent.Never? ==> t.lateDeps
  {
    t := FlushesFragment(s);
    t := PassesFragment(t);
    t := TakeFragment(t, LockAfterFragment);
  }

  /** A streaming transaction between statements, where the runs below set out. */
  lemma StreamingIsReachable() returns (t: Snapshot)
    ensures Live(t) && t.c.Ready? && t.a.Off? && t.st.Executing? && t.Streaming() && R.HasLogPosition(t)
  {
    Begin();
    t := StreamsFragment(Started());
  }

  /** A transaction without fragments is on its way to commit, ... */
  lemma StartsPlainCommit(twoPhase: bool) returns (t: Snapshot)
    ensures Live(t) && t.c == CommitFlush(twoPhase) && t.st.Certifying? && !t.error && !t.Streaming()
  {
    Begin();
    t := TakePrepare(Started(), BeforePrepare(twoPhase));
    t := TakePrepare(t, BeginCommit(false));
  }

  /** ... and one with fragments. */
  lemma StartsStreamingCommit(s: Snapshot) returns (t: Snapshot)
    requires Live(s) && s.c.Ready? && s.st.Executing? && s.Streaming()
    ensures Live(t) && t.c == CommitFlush(true) && t.st.Certifying? && t.Streaming()
  {
    t := TakePrepare(s, BeforePrepare(true));
    t := RemovesFragments(t);
  }

  lemma RemovesFragments(s: Snapshot) returns (t: Snapshot)
    requires Live(s) && s.c == CommitFragments(true) && s.st.Executing? && s.Streaming()
    ensures Live(t) && t.c == CommitFlush(true) && t.st.Certifying? && t.Streaming()
  {
    RemoveFacts(s);
    t := TakePrepare(s, RemoveFragments(Removed));
    t := BeginsCommit(t);
  }

  lemma RemoveFacts(s: Snapshot)
    requires s.c == CommitFragments(true) && s.st.Executing?
    ensures var t := C.RemoveFragments(s, Removed);
      t.c == CommitReplayers(true) && t.st.Executing? && t.fragments == s.fragments
  {
  }

  lemma BeginsCommit(s: Snapshot) returns (t: Snapshot)
    requires Live(s) && s.c == CommitReplayers(true) && s.st.Executing?
    ensures Live(t) && t.c == CommitFlush(true) && t.st.Certifying? && t.fragments == s.fragments
  {
    BeginFacts(s);
    t := TakePrepare(s, BeginCommit(false));
  }

  lemma BeginFacts(s: Snapshot)
    requires s.c == CommitReplayers(true) && s.st.Executing?
    ensures var t := C.BeginCommit(s, false); t.c == CommitFlush(true) && t.st.Certifying? && t.fragments == s.fragments
  {
  }

  lemma Certifies(s: Snapshot, status: CertStatus) returns (t: Snapshot)
    requires Live(s) && s.c.CommitFlush? && s.st.Certifying? && !status.Warning?
    ensures Live(t) && t.c == CommitRelock(TwoPhase(s.c), status) && t.st.Certifying? && t.fragments == s.fragments
    ensures (status.Success? ==> t.CommitWasSent()) && (status.BfAbort? ==> t.wasBfReported)
  {
    t := FlushesCommit(s);
    CertifiedFacts(t, status);
    t := TakePrepare(t, CertifyCommit(Answer(status, true)));
  }

  lemma CertifiedFacts(s: Snapshot, status: CertStatus)
    requires s.c.CommitCertify?
    ensures var t := C.CertifyCommit(s, Answer(status, true));
      && t.c == CommitRelock(TwoPhase(s.c), status) && t.st == s.st && t.fragments == s.fragments
      && (status.Success? ==> t.CommitWasSent()) && (status.BfAbort? ==> t.wasBfReported)
  {
  }

  lemma FlushesCommit(s: Snapshot) returns (t: Snapshot)
    requires Live(s) && s.c.CommitFlush? && s.st.Certifying?
    ensures Live(t) && t.c == CommitCertify(TwoPhase(s.c)) && t.st.Certifying? && t.fragments == s.fragments
  {
    t := TakePrepare(s, FlushForCommit(true));
  }

  /** The relock of a commit that was BF aborted. */
  lemma GoesToReplay(s: Snapshot) returns (t: Snapshot)
    requires Live(s) && s.c.CommitRelock? && (s.c.status.BfAbort? || (s.c.status.Success? && s.st.MustAbort?))
    ensures Live(t) && t.c.Ready? && t.st.MustReplay?
    ensures t.wasBfAfterCommit == s.wasBfAfterCommit && t.wasBfReported == s.wasBfReported
  {
    ReplayFacts(s);
    t := TakePrepare(s, LockAfterCertify);
  }

  lemma ReplayFacts(s: Snapshot)
    requires s.c.CommitRelock? && (s.c.status.BfAbort? || (s.c.status.Success? && s.st.MustAbort?))
    ensures var t := C.LockAfterCertify(s);
      && t.c.Ready? && t.st.MustReplay?
      && t.wasBfAfterCommit == s.wasBfAfterCommit && t.wasBfReported == s.wasBfReported
  {
  }

  /** Every streaming transaction can be prepared for two-phase commit. */
  lemma PreparesStreaming(s: Snapshot) returns (t: Snapshot)
    requires Live(s) && s.c.Ready? && s.st.Executing? && s.Streaming()
    ensures Live(t) && t.c.Ready? && t.st.Preparing? && t.Streaming()
  {
    t := StartsStreamingCommit(s);
    t := Certifies(t, Success);
    PreparedFacts(t);
    t := TakePrepare(t, LockAfterCertify);
  }

  lemma PreparedFacts(s: Snapshot)
    requires s.c == CommitRelock(true, Success) && s.st.Certifying?
    ensures var t := C.LockAfterCertify(s); t.c.Ready? && t.st.Preparing? && t.fragments == s.fragments
  {
  }

  /** A BF abort that finds the transaction certifying. */
  lemma AbortsCertifying(s: Snapshot) returns (t: Snapshot)
    requires Live(s) && s.st.Certifying? && InCertify(s.c)
    ensures Live(t) && t.c == s.c && t.st.MustAbort? && t.wasBfAfterCommit == s.CommitWasSent()
  {
    LiveInv(s);
    assert s.Order() && s.Certification() && s.OwnerPlace();
    t := TakeAbort(s, AbortAction.BfAbort(false, true, false));
    assert t == A.Hit(s, false, false);
  }

  lemma EndsAborted(s: Snapshot) returns (t: Snapshot)
    requires Live(s) && s.c.Ready? && s.st.Aborted? && s.wasStreaming
    ensures Live(t) && t.c.Ended? && t.st.Aborted? && t.wasStreaming && t.lostMark == s.lostMark
  {
    t := TakeStatement(s, AfterStatement(false));
    assert t == R.EndStatement(s, false);
    if t.c.OrderRelease? { t := ReleasesOrder(t); }
    t := TakeStatement(t, ReleaseHandle);
  }

  lemma ReleasesOrder(s: Snapshot) returns (t: Snapshot)
    requires Live(s) && s.c.OrderRelease?
    ensures Live(t) && t.c.HandleRelease? && t.st == s.st
    ensures t.wasStreaming == s.wasStreaming && t.lostMark == s.lostMark
  {
    t := TakeStatement(s, ReleaseOrder);
  }

  lemma EndsReplayed(s: Snapshot) returns (t: Snapshot)
    requires Live(s) && s.c.Ready? && s.st.MustReplay?
    ensures Live(t) && t.c.Ended? && t.wasBfAfterCommit == s.wasBfAfterCommit && t.wasBfReported == s.wasBfReported
  {
    t := TakeStatement(s, AfterStatement(false));
    assert t == R.EndStatement(s, false);
    t := TakeStatement(t, Replay(ReplayedElsewhere));
    t := EndsReplay(t);
  }

  lemma EndsReplay(s: Snapshot) returns (t: Snapshot)
    requires Live(s) && s.c.ReplayStop? && s.c.ok
    ensures Live(t) && t.c.Ended? && t.wasBfAfterCommit == s.wasBfAfterCommit && t.wasBfReported == s.wasBfReported
  {
    t := TakeStatement(s, StopAfterReplay);
    var settled := t;
    t := TakeStatement(t, LockAfterReplay);
    assert t == settled.CleanedUp(Committed);
  }

  // ---------------------------------------------------------------- failing assertions

  /** From every reachable state before the flush of a fragment, a BF abort and a failed flush lead to a
      failed assertion. */
  lemma UnguardedFlush(s: Snapshot) returns (t: Snapshot)
    requires Live(s) && s.c.FragFlush? && s.st.Certifying?
    ensures Reachable(t) && t.assertionFailed
  {
    t := AbortsCertifying(s);
    t := Fail(t, Fragment(FlushForFragment(false)));
  }

  /** From every reachable state before the flush of a commit, with or without a BF abort but with no error
      set, a failed flush leads to a failed assertion; ... */
  lemma SilentFlush(s: Snapshot) returns (t: Snapshot)
    requires Live(s) && s.c.CommitFlush? && !s.error
    ensures Reachable(t) && t.assertionFailed
  {
    t := Fail(s, Prepare(FlushForCommit(false)));
  }

  /** ... and such a state is reachable. */
  lemma SilentFlushIsReachable() returns (t: Snapshot)
    ensures Reachable(t) && t.assertionFailed
  {
    t := StartsPlainCommit(false);
    t := SilentFlush(t);
  }

  /** From every reachable state after the certification of a commit with an unguarded status, a BF
      abort leads to a failed assertion. */
  lemma UnguardedCommit(s: Snapshot) returns (t: Snapshot)
    requires Live(s) && s.c.CommitRelock? && s.st.Certifying? && Unguarded(StatusOf(s.c))
    ensures Reachable(t) && t.assertionFailed
  {
    t := AbortsCertifying(s);
    t := Fail(t, Prepare(LockAfterCertify));
  }

  /** At the end of every statement of an executing transaction that has prepared a fragment, a streaming
      step that finds fewer bytes generated than replicated fails; ... */
  lemma InconsistentStatement(s: Snapshot) returns (t: Snapshot)
    requires Live(s) && s.c.Ready? && s.st.Executing? && R.HasLogPosition(s)
    ensures Reachable(t) && t.assertionFailed
  {
    t := Fail(s, Statement(AfterStatement(true)));
  }

  /** ... and such a statement is reachable. */
  lemma InconsistentStatementIsReachable() returns (t: Snapshot)
    ensures Reachable(t) && t.assertionFailed
  {
    t := StreamingIsReachable();
    t := InconsistentStatement(t);
  }

  /** A failed release after commit fails, ... */
  lemma UnreleasedCommit(s: Snapshot) returns (t: Snapshot)
    requires Live(s) && s.c.Ready? && s.st.OrderedCommit? && !s.Streaming()
    ensures Reachable(t) && t.assertionFailed
  {
    t := Fail(s, Commit(AfterCommit(false)));
  }

  /** ... and such a commit is reachable. */
  lemma UnreleasedCommitIsReachable() returns (t: Snapshot)
    ensures Reachable(t) && t.assertionFailed
  {
    t := SealedIsReachable();
    t := TakeCommit(t, OrderCommit);
    t := UnreleasedCommit(t);
  }

  /** From every reachable streaming state, a commit whose statement is not allowed for streaming
      leads to a failed assertion. */
  lemma StatementNotAllowedFails(s: Snapshot) returns (t: Snapshot)
    requires Live(s) && s.c.Ready? && s.st.Executing? && s.Streaming()
    ensures Reachable(t) && t.assertionFailed
  {
    t := TakePrepare(s, BeforePrepare(false));
    t := Fail(t, Prepare(RemoveFragments(StatementNotAllowed)));
  }

  /** From every reachable streaming state without a BF abort, a voluntary rollback that overlaps
      with a BF abort can finish before the waiting aborter wakes up, which then fails. */
  lemma StaleAborterFails(s: Snapshot) returns (t: Snapshot)
    requires Live(s) && s.c.Ready? && s.a.Off? && s.st.Executing? && s.Streaming()
    ensures Reachable(t) && t.assertionFailed
  {
    t := StartsRollback(s);
    t := AborterWaits(t);
    t := Converts(t);
    t := CleansUnderWaiter(t);
    t := AborterGoesOn(t);
    t := Fail(t, Abort(AborterUnregisters));
  }

  lemma StartsRollback(s: Snapshot) returns (t: Snapshot)
    requires Live(s) && s.c.Ready? && s.a.Off? && s.st.Executing? && s.Streaming()
    ensures Live(t) && t.c == Sr(InHook(false), Converting) && t.a.Off?
    ensures t.st.Executing? && t.Streaming() && t.rollingBack && t.active && !t.immutable && !t.inOrder
  {
    LiveInv(s);
    assert s.OneRollback() && s.Certification() && s.OwnerPlace() && s.Order();
    t := TakeRollback(s, BeforeRollback);
  }

  lemma AborterWaits(s: Snapshot) returns (t: Snapshot)
    requires Live(s) && s.st.Executing? && s.Streaming() && s.rollingBack && s.active && !s.immutable && !s.inOrder
    ensures Live(t) && t.c == s.c && t.st.MustAbort? && t.a == Sr(InBfAbort, Waiting)
  {
    t := TakeAbort(s, AbortAction.BfAbort(false, true, false));
    assert t == A.Hit(s, false, false);
  }

  /** The client becomes an applier and its rollback is announced. */
  lemma Converts(s: Snapshot) returns (t: Snapshot)
    requires Live(s) && s.c == Sr(InHook(false), Converting)
    ensures Live(t) && t.c == RbAfter(false) && t.st.Aborting? && t.a == s.a && t.fromPreparing == s.fromPreparing
    ensures !t.nRollbacks.Never? && t.fragments == s.fragments
  {
    t := TakeRollback(s, OwnerUnregisters);
    t := Replicates(t);
  }

  lemma Replicates(s: Snapshot) returns (t: Snapshot)
    requires Live(s) && s.c == Sr(InHook(false), Sending)
    ensures Live(t) && t.c == RbAfter(false) && t.st.Aborting? && t.a == s.a && t.fromPreparing == s.fromPreparing
    ensures !t.nRollbacks.Never? && t.fragments == s.fragments
  {
    ReplicatedFacts(s);
    t := TakeRollback(s, OwnerReplicates(true));
  }

  lemma ReplicatedFacts(s: Snapshot)
    requires s.c == Sr(InHook(false), Sending)
    ensures var t := R.OwnerReplicates(s, true);
      && t.c == RbAfter(false) && t.st.Aborting? && t.a == s.a && t.fromPreparing == s.fromPreparing
      && !t.nRollbacks.Never? && t.fragments == s.fragments
  {
  }

  lemma CleansUnderWaiter(s: Snapshot) returns (t: Snapshot)
    requires Live(s) && s.c == RbAfter(false) && s.st.Aborting? && s.a == Sr(InBfAbort, Waiting)
    ensures Live(t) && t.c.Ready? && t.a == s.a && t.stale
  {
    t := TakeRollback(s, AfterRollback);
    if t.c.RbFragments? { t := RemovesUnderWaiter(t); }
  }

  lemma RemovesUnderWaiter(s: Snapshot) returns (t: Snapshot)
    requires Live(s) && s.c == RbFragments(false) && s.st.Aborting? && s.a == Sr(InBfAbort, Waiting)
    ensures Live(t) && t.c.Ready? && t.a == s.a && t.stale
  {
    t := TakeRollback(s, RemoveAfterRollback);
  }

  lemma AborterGoesOn(s: Snapshot) returns (t: Snapshot)
    requires Live(s) && s.c.Ready? && s.a == Sr(InBfAbort, Waiting) && s.stale
    ensures Live(t) && (Stops(t.a) || TransactionEvents.Converts(t.a)) && t.stale
  {
    LiveInv(s);
    assert s.OneRollback();
    t := TakeAbort(s, AborterWakes);
  }

  // ---------------------------------------------------------------- the wire and the total order mark

  /** With implicit dependencies the second fragment is outside the protocol, whenever they were set. */
  lemma ImplicitDepsBreakWire() returns (s: Snapshot)
    ensures Live(s) && s.st.Executing? && s.lateDeps && WireOf(s.sent).Broken?
  {
    Begin();
    s := StreamsFragment(Started());
    s := TakeFragment(s, SetImplicitDeps(true));
    s := StreamsFragment(s);
    LiveInv(s);
    assert s.WireBook() && s.Recorded();
  }

  /** From every reachable prepared streaming state, a rollback by the DBMS announces the rollback of
      a transaction whose commit write set has passed certification. */
  lemma RollbackOfPreparedBreaksWire(s: Snapshot) returns (t: Snapshot)
    requires Live(s) && s.c.Ready? && s.st.Preparing? && s.Streaming()
    ensures Live(t) && t.st.Aborting? && !t.nCommits.Never? && !t.nRollbacks.Never? && WireOf(t.sent).Broken?
  {
    LiveInv(s);
    assert s.Certification();
    t := TakeRollback(s, BeforeRollback);
    t := Converts(t);
    LiveInv(t);
    assert t.WireBook() && t.Recorded() && t.Certificates();
  }

  /** From every reachable streaming state without a BF abort, a second, refused total order abort can
      take back the mark of the first, so that the rollback is neither announced nor are the fragments
      removed. */
  lemma RefusedAbortLosesRollback(s: Snapshot) returns (t: Snapshot)
    requires Live(s) && s.c.Ready? && s.a.Off? && s.st.Executing? && s.Streaming()
    ensures Live(t) && t.c.Ended? && t.st.Aborted? && t.wasStreaming && t.lostMark
    ensures t.nRollbacks.Never? && !t.removed
  {
    t := LosesMark(s);
    t := StopsUnmarked(t);
    t := LeavesFragments(t);
    t := EndsAborted(t);
    LiveInv(t);
    assert t.RemovalBook();
  }

  lemma LosesMark(s: Snapshot) returns (t: Snapshot)
    requires Live(s) && s.c.Ready? && s.a.Off? && s.st.Executing? && s.Streaming()
    ensures Live(t) && t.c.Ready? && t.st.MustAbort? && t.a == Sr(InBfAbort, Stopping)
    ensures t.wasStreaming && t.Streaming() && !t.totalOrder && t.lostMark && !t.stale && !t.certified
  {
    LiveInv(s);
    assert s.OneRollback() && s.OwnerPlace() && s.Certification() && s.Order() && s.StreamBook();
    t := TakeAbort(s, AbortAction.BfAbort(true, true, false));
    assert t == A.Hit(s, true, false);
    t := TakesMarkBackNow(t);
  }

  lemma TakesMarkBackNow(s: Snapshot) returns (t: Snapshot)
    requires Live(s) && s.c.Ready? && s.st.MustAbort? && s.a == Sr(InBfAbort, Stopping)
    requires s.wasStreaming && s.Streaming() && !s.stale && !s.certified
    ensures Live(t) && t.c.Ready? && t.st.MustAbort? && t.a == Sr(InBfAbort, Stopping)
    ensures t.wasStreaming && t.Streaming() && !t.totalOrder && t.lostMark && !t.stale && !t.certified
  {
    t := TakeAbort(s, AbortAction.BfAbort(true, false, false));
    assert t == A.Unmarked(s);
  }

  lemma StopsUnmarked(s: Snapshot) returns (t: Snapshot)
    requires Live(s) && s.c.Ready? && s.st.MustAbort? && s.a == Sr(InBfAbort, Stopping)
    requires s.wasStreaming && s.Streaming() && !s.totalOrder && s.lostMark && !s.stale && !s.certified
    ensures Live(t) && t.c.Ready? && t.st.MustAbort? && t.rolledBack && !t.rollingBack && !t.certified
    ensures t.wasStreaming && t.Streaming() && !t.totalOrder && t.lostMark
  {
    t := TakeAbort(s, AborterUnregisters);
    t := TakeAbort(t, AborterMarks(false));
  }

  lemma LeavesFragments(s: Snapshot) returns (t: Snapshot)
    requires Live(s) && s.c.Ready? && s.st.MustAbort? && s.rolledBack && !s.rollingBack && !s.certified
    requires s.wasStreaming && s.Streaming() && !s.totalOrder && s.lostMark
    ensures Live(t) && t.c.Ready? && t.st.Aborted? && t.wasStreaming && t.lostMark
  {
    t := TakeRollback(s, BeforeRollback);
    t := TakeRollback(t, AfterRollback);
  }

  // ---------------------------------------------------------------- the cases the theorems speak of

  /** A commit that has entered commit order: the case of BfImmutability. */
  lemma SealedIsReachable() returns (t: Snapshot)
    ensures Live(t) && t.c.Ready? && t.st.Committing? && !t.Streaming() && Sealed(t)
  {
    t := StartsPlainCommit(false);
    t := Certifies(t, Success);
    t := TakePrepare(t, LockAfterCertify);
    t := EntersOrder(t);
  }

  lemma EntersOrder(s: Snapshot) returns (t: Snapshot)
    requires Live(s) && s.c.OrderEnter? && s.st.Committing?
    ensures Live(t) && t.c.Ready? && t.st.Committing? && t.fragments == s.fragments && Sealed(t)
  {
    LiveInv(s);
    assert !s.bfAborted by { assert s.Certification(); }
    t := TakeCommit(s, EnterCommitOrder(true));
    t := TakeCommit(t, LockAfterEnter);
  }

  /** A run in which the commit is certified, then BF aborted, then replayed: the case of CertifiedFate. */
  lemma CertifiedAbortIsReplayed() returns (t: Snapshot)
    ensures Live(t) && t.c.Ended? && t.wasBfAfterCommit
  {
    t := StartsPlainCommit(true);
    t := Certifies(t, Success);
    t := AbortsCertifying(t);
    t := GoesToReplay(t);
    t := EndsReplayed(t);
  }

  /** A run in which certification answers with a BF abort: the case of ReportedFate. */
  lemma ReportedAbortIsReplayed() returns (t: Snapshot)
    ensures Live(t) && t.c.Ended? && t.wasBfReported
  {
    t := StartsPlainCommit(true);
    t := Certifies(t, CertStatus.BfAbort);
    t := GoesToReplay(t);
    t := EndsReplayed(t);
  }

  /** A run that rolls a streaming transaction back: the case of StreamingRollbackOnce. */
  lemma StreamingRollbackOccurs(s: Snapshot) returns (t: Snapshot)
    requires Live(s) && s.c.Ready? && s.a.Off? && s.st.Executing? && s.Streaming()
    ensures Live(t) && t.c.Ended? && t.st.Aborted? && t.wasStreaming
  {
    t := StartsRollback(s);
    t := Converts(t);
    t := RollsBackAlone(t);
    t := EndsAborted(t);
  }

  lemma RollsBackAlone(s: Snapshot) returns (t: Snapshot)
    requires Live(s) && s.c == RbAfter(false) && s.st.Aborting? && s.a.Off? && s.Streaming()
    ensures Live(t) && t.c.Ready? && t.st.Aborted? && t.wasStreaming
  {
    LiveInv(s);
    assert s.StreamBook() && s.Certification();
    t := TakeRollback(s, AfterRollback);
  }
}
