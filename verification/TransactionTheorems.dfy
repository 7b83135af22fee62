/** What every run of a local transaction guarantees, whatever the interleaving with BF aborts
    and whatever the provider and the DBMS answer. */
module TransactionTheorems {
  import opened TransactionStates
  import opened TransactionEvents
  import opened TransactionSnapshot
  import opened TransactionRuns
  import opened HookExits
  import R = RollbackSteps
  import A = AbortSteps

  /** An assertion of the source fails in a run exactly when its last step is one of the
      hazards: an unguarded exit after a BF abort, a failed flush before commit that leaves no
      error, a streaming statement that is not allowed, an inconsistent streaming step at the end
      of a statement, a failed release after commit, or an aborter that outlived the streaming
      context. */
  lemma AssertionFailsOnlyInHazard(run: Run)
    requires Legal(run)
    ensures StateAfter(run).assertionFailed <==> EndsInHazard(run)
  {
    InvariantAfter(run);
  }

  /** Every call of state() is allowed by the matrix, and no run has two outcomes. */
  lemma MatrixSafety(run: Run)
    requires Legal(run) && !EndsInHazard(run)
    ensures var s := StateAfter(run);
      && LegalHistory(s.past, s.st)
      && !((Visited(s.past, Committed) || s.st.Committed?) && (Visited(s.past, Aborted) || s.st.Aborted?))
  {
    InvariantAfter(run);
    var s := StateAfter(run);
    assert s.Recorded();
    OneOutcome(s.past, s.st);
  }

  /** A transaction BF aborted after its commit write set passed certification is replayed, and
      ends aborted only if replay reports failed certification. */
  lemma CertifiedFate(run: Run)
    requires Legal(run) && !EndsInHazard(run)
    requires StateAfter(run).c.Ended? && StateAfter(run).wasBfAfterCommit
    ensures var s := StateAfter(run);
      && Visited(s.past, MustReplay) && Visited(s.past, Replaying)
      && (s.st.Committed? || (s.st.Aborted? && s.wasRefused))
  {
    InvariantAfter(run);
    var s := StateAfter(run);
    assert s.Fate() && s.Certification() && s.OwnerPlace();
  }

  /** The same when certification of the commit write set answered with a BF abort: the write set may be
      ordered, and only replay finds out. */
  lemma ReportedFate(run: Run)
    requires Legal(run) && !EndsInHazard(run)
    requires StateAfter(run).c.Ended? && StateAfter(run).wasBfReported
    ensures var s := StateAfter(run);
      && Visited(s.past, MustReplay) && Visited(s.past, Replaying)
      && (s.st.Committed? || (s.st.Aborted? && s.wasRefused))
  {
    InvariantAfter(run);
    assert StateAfter(run).Fate() && StateAfter(run).OwnerPlace();
  }

  /** ... which is so as soon as the answer is there. */
  lemma ReportIsRemembered(run: Run)
    requires Legal(run) && run.Step? && run.act.Prepare? && run.act.p.CertifyCommit?
    requires run.act.p.res.Answer? && run.act.p.res.status.BfAbort?
    ensures StateAfter(run).wasBfReported
  {
  }

  /** A transaction that streamed and was rolled back has left the client registry once.  Unless
      it was BF aborted in total order, or failed certification only when it was replayed, it
      became an applier once and its rollback was replicated or queued, once in all. */
  lemma StreamingRollbackOnce(run: Run)
    requires Legal(run) && !EndsInHazard(run)
    requires StateAfter(run).c.Ended? && StateAfter(run).st.Aborted? && StateAfter(run).wasStreaming
    ensures var s := StateAfter(run);
      && s.nJoins.Once? && s.nExits.Once? && s.nRollbacks == s.nConversions && !s.nRollbacks.More?
      && (!s.wasBfInTotalOrder && !s.wasRefused ==> s.nConversions.Once? && s.nRollbacks.Once?)
      && (s.wasRefused ==> s.nConversions.Never? && s.nRollbacks.Never?)
  {
    InvariantAfter(run);
    var s := StateAfter(run);
    assert s.StreamBook() && s.Registry() && s.OneRollback() && s.OwnerPlace();
  }

  /** A total order abort that is refused while after_rollback() relies on the mark of an earlier one. */
  predicate TakesMarkBack(s: Snapshot, act: Action) {
    IsBfAbort(act) && act.b.inTotalOrder && !A.AbortSucceeds(s, act.b.providerOk) && s.ReliesOnMark()
  }

  ghost predicate MarkTakenBack(run: Run)
    requires Legal(run)
  {
    run.Step? && (MarkTakenBack(run.before) || TakesMarkBack(StateAfter(run.before), run.act))
  }

  /** A streaming transaction that ends aborted has neither announced its rollback nor had its
      fragments removed if and only if a total order abort was refused after streaming_rollback() had
      relied on the mark of an earlier one and before after_rollback() looked at it. */
  lemma RollbackIsLost(run: Run)
    requires Legal(run) && !EndsInHazard(run)
    requires StateAfter(run).c.Ended? && StateAfter(run).st.Aborted? && StateAfter(run).wasStreaming
    ensures var s := StateAfter(run); s.nRollbacks.Never? && !s.removed <==> MarkTakenBack(run)
  {
    InvariantAfter(run);
    LostMarkIsTakenBack(run);
    assert StateAfter(run).RemovalBook();
  }

  lemma {:induction false} LostMarkIsTakenBack(run: Run)
    requires Legal(run) && !EndsInHazard(run)
    ensures StateAfter(run).lostMark <==> MarkTakenBack(run)
  {
    if run.Step? {
      InvariantAfter(run.before);
      LostMarkIsTakenBack(run.before);
      MarkStep(StateAfter(run.before), run.act);
    }
  }

  lemma MarkStep(s: Snapshot, act: Action)
    requires s.Inv() && Enabled(s, act) && !Hazard(s, act)
    ensures Next(s, act).lostMark == (s.lostMark || TakesMarkBack(s, act))
  {
    NextKeeps(s, act);
    if IsBfAbort(act) { MarkAfterAbort(s, act.b.inTotalOrder, act.b.providerOk, act.b.idle); }
  }

  lemma MarkAfterAbort(s: Snapshot, inTotalOrder: bool, providerOk: bool, idle: bool)
    ensures A.BfAbort(s, inTotalOrder, providerOk, idle).lostMark ==
      (s.lostMark || (inTotalOrder && !A.AbortSucceeds(s, providerOk) && s.ReliesOnMark()))
  {
  }

  /** At no time is the client registered twice, stopped twice or its rollback announced twice. */
  lemma NeverTwice(run: Run)
    requires Legal(run) && !EndsInHazard(run)
    ensures var s := StateAfter(run);
      !s.nJoins.More? && !s.nExits.More? && !s.nConversions.More? && !s.nRollbacks.More? && !s.nCommits.More?
  {
    InvariantAfter(run);
    var s := StateAfter(run);
    assert s.StreamBook() && s.Certificates();
  }

  /** With no hook in flight a client is in the registry exactly when its transaction is
      streaming and not marked rolled back, and none with a rolled back context awaits replay. */
  lemma RegistryMirrorsStreaming(run: Run)
    requires Legal(run) && !EndsInHazard(run)
    ensures var s := StateAfter(run);
      && ((s.c.Ready? || s.c.Ended?) && !Busy(s.a) ==> s.registered == (s.Streaming() && !s.rolledBack))
      && (s.st.MustReplay? ==> !s.rolledBack)
  {
    InvariantAfter(run);
    var s := StateAfter(run);
    assert s.Registry() && s.OneRollback();
  }

  /** Commit order is left as often as it is entered, and exactly once if the transaction was ordered. */
  lemma CommitOrderConserved(run: Run)
    requires Legal(run) && !EndsInHazard(run) && StateAfter(run).c.Ended?
    ensures var s := StateAfter(run);
      s.nEntries == s.nDepartures && !s.nEntries.More? && (s.wasOrdered ==> s.nEntries.Once?)
  {
    InvariantAfter(run);
    var s := StateAfter(run);
    assert s.OrderBook() && s.OwnerPlace() && s.Order();
  }

  /** Every certification of a fragment or of the commit write set comes after a flush of the
      rollback event queue that succeeded for it. */
  lemma FlushPrecedesCertification(run: Run)
    requires Legal(run) && !EndsInHazard(run)
    ensures !StateAfter(run).unflushed
  {
    InvariantAfter(run);
    assert StateAfter(run).Certificates();
  }

  /** What is replicated stays within the wire protocol, except with a fragment after the first
      that carries implicit dependencies, or after the rollback of a prepared streaming
      transaction. */
  lemma WireProtocol(run: Run)
    requires Legal(run) && !EndsInHazard(run)
    ensures var s := StateAfter(run);
      && (WireOf(s.sent).Broken? <==> s.lateDeps || (s.fromPreparing && !s.nRollbacks.Never?))
      && (s.st.Committed? && !s.lateDeps ==> WireOf(s.sent).Shut?)
  {
    InvariantAfter(run);
    var s := StateAfter(run);
    assert s.Recorded() && s.WireBook() && s.Certificates() && s.Certification();
  }

  /** A hook on the way to commit that comes back to the client without success has set an error,
      or left the transaction to be replayed. */
  lemma FailedCommitReports(run: Run)
    requires Legal(run) && !EndsInHazard(run) && run.Step? && run.act.Prepare?
    requires var s := StateAfter(run); s.c.Ready? && (s.st.MustAbort? || s.st.CertFailed? || s.st.MustReplay?)
    ensures StateAfter(run).error || StateAfter(run).st.MustReplay?
  {
    InvariantAfter(run.before);
    PrepareReports(StateAfter(run.before), run.act.p);
  }

  /** after_statement() comes back to the client only with an executing transaction, as its exit assertion
      says; every other transaction it cleans up, after rollback and replay if need be. */
  lemma StatementReturnsExecuting(run: Run)
    requires Legal(run) && !EndsInHazard(run) && run.Step? && run.act.Statement?
    ensures var s := StateAfter(run);
      (s.c.Ready? ==> s.st.Executing?) && (s.c.Ended? ==> s.st.Committed? || s.st.Aborted?)
  {
    InvariantAfter(run.before);
    StatementReturns(StateAfter(run.before), run.act.e);
  }

  /** A transaction that failed certification or was BF aborted is in bf_rollback() once the statement
      ends, and stays in after_statement() until it is cleaned up. */
  lemma StatementRollsBack(run: Run, inconsistent: bool)
    requires Legal(run) && !EndsInHazard(run)
    requires var s := StateAfter(run); s.c.Ready? && (s.st.MustAbort? || s.st.CertFailed?)
    ensures var next := Step(run, Statement(AfterStatement(inconsistent)));
      Legal(next) && StateAfter(next).c == RbCall(true)
  {
    InvariantAfter(run);
    AfterStatementExits(StateAfter(run), inconsistent);
  }

  // ---------------------------------------------------------------- nobody gets stuck

  /** A step that takes the owner on from where it is inside a hook. */
  function OwnerStep(c: Pc): Action {
    match c
    case FragReplayers => Fragment(BeginFragment(false))
    case FragFlush => Fragment(FlushForFragment(true))
    case FragData => Fragment(PrepareFragment(DataReady))
    case FragCertify => Fragment(CertifyFragment(Certified(Success, true, true)))
    case FragRelock(_) => Fragment(LockAfterFragment)
    case FragStop => Fragment(StopAfterFragment)
    case CommitFragments(_) => Prepare(RemoveFragments(Removed))
    case CommitReplayers(_) => Prepare(BeginCommit(false))
    case CommitFlush(_) => Prepare(FlushForCommit(true))
    case CommitCertify(_) => Prepare(CertifyCommit(Answer(Success, true)))
    case CommitRelock(_, _) => Prepare(LockAfterCertify)
    case OrderEnter => Commit(EnterCommitOrder(false))
    case OrderRelock(_) => Commit(LockAfterEnter)
    case CommitStop => Commit(StopAfterCommit(true))
    case RbCall(_) => Rollback(BeforeRollback)
    case Sr(_, Waiting) => Rollback(OwnerWakes)
    case Sr(_, Stopping) => Rollback(OwnerUnregisters)
    case Sr(_, Converting) => Rollback(OwnerUnregisters)
    case Sr(_, Sending) => Rollback(OwnerReplicates(true))
    case Sr(_, Queueing) => Rollback(OwnerQueues)
    case Sr(_, Marking) => Rollback(OwnerMarks)
    case RbAfter(_) => Rollback(AfterRollback)
    case RbFragments(_) => Rollback(RemoveAfterRollback)
    case RbReturn => Statement(ReturnFromRollback)
    case ReplayCall => Statement(Replay(ReplayedElsewhere))
    case ReplayStop(_, _) => Statement(StopAfterReplay)
    case ReplayLock(_) => Statement(LockAfterReplay)
    case ReplayFragments => Statement(RemoveAfterReplay)
    case OrderRelease => Statement(ReleaseOrder)
    case HandleRelease => Statement(ReleaseHandle)
    case _ => Fragment(ResetError)
  }

  /** ... and the aborter inside streaming_rollback(). */
  function AborterStep(a: Pc): AbortAction {
    match a
    case Sr(_, Waiting) => AborterWakes
    case Sr(_, Sending) => AborterReplicates(true, false)
    case Sr(_, Queueing) => AborterQueues
    case Sr(_, Marking) => AborterMarks(false)
    case _ => AborterUnregisters
  }

  /** In every run a hook and an abort that have begun can go on, but for a thread that waits in
      streaming_rollback() for the other one, which can. */
  lemma NobodyIsStuck(run: Run)
    requires Legal(run) && !EndsInHazard(run)
    ensures var s := StateAfter(run);
      && (!s.c.Ready? && !s.c.Ended? ==>
          || Enabled(s, OwnerStep(s.c))
          || (Waits(s.c) && !Waits(s.a) && AbortEnabled(s, AborterStep(s.a))))
      && (s.a.Sr? ==>
          || AbortEnabled(s, AborterStep(s.a))
          || (Waits(s.a) && !Waits(s.c) && Enabled(s, OwnerStep(s.c))))
  {
    InvariantAfter(run);
    OwnerGoesOn(StateAfter(run));
    AborterGoesOn(StateAfter(run));
  }

  lemma OwnerGoesOn(s: Snapshot)
    requires s.Control()
    ensures !s.c.Ready? && !s.c.Ended? ==>
      || Enabled(s, OwnerStep(s.c))
      || (Waits(s.c) && !Waits(s.a) && AbortEnabled(s, AborterStep(s.a)))
  {
    if s.c.Sr? { RollbackGoesOn(s); } else if !s.c.Ready? && !s.c.Ended? { HookGoesOn(s); }
  }

  lemma RollbackGoesOn(s: Snapshot)
    requires s.Control() && s.c.Sr?
    ensures Enabled(s, OwnerStep(s.c)) || (Waits(s.c) && !Waits(s.a) && AbortEnabled(s, AborterStep(s.a)))
  {
    assert s.OwnerPlace() && s.OneRollback();
  }

  lemma HookGoesOn(s: Snapshot)
    requires s.OwnerPlace() && !s.c.Sr? && !s.c.Ready? && !s.c.Ended?
    ensures Enabled(s, OwnerStep(s.c))
  {
  }

  lemma AborterGoesOn(s: Snapshot)
    requires s.Control()
    ensures s.a.Sr? ==>
      || AbortEnabled(s, AborterStep(s.a))
      || (Waits(s.a) && !Waits(s.c) && Enabled(s, OwnerStep(s.c)))
  {
    assert s.OwnerPlace() && s.OneRollback();
  }

  // ---------------------------------------------------------------- all of it

  /** What the theorems above say of the end of a run. */
  ghost predicate Promised(s: Snapshot) {
    && LegalHistory(s.past, s.st)
    && !((Visited(s.past, Committed) || s.st.Committed?) && (Visited(s.past, Aborted) || s.st.Aborted?))
    && !s.unflushed && !s.nExits.More? && !s.nConversions.More? && !s.nRollbacks.More? && !s.nCommits.More?
    && (WireOf(s.sent).Broken? <==> s.OutOfProtocol())
    && ((s.c.Ready? || s.c.Ended?) && !Busy(s.a) ==> s.registered == (s.Streaming() && !s.rolledBack))
    && (s.c.Ended? ==>
        && s.nEntries == s.nDepartures && (s.wasOrdered ==> s.nEntries.Once?)
        && (s.wasBfAfterCommit ==> Visited(s.past, Replaying) && (s.st.Committed? || s.wasRefused))
        && (s.st.Aborted? && s.wasStreaming && !s.wasBfInTotalOrder && !s.wasRefused ==> s.nRollbacks.Once?)
        && (s.st.Aborted? && s.wasStreaming ==> (s.nRollbacks.Never? && !s.removed <==> s.lostMark)))
  }

  lemma RunsKeepPromises(run: Run)
    requires Legal(run) && !EndsInHazard(run)
    ensures Promised(StateAfter(run))
  {
    MatrixSafety(run);
    FlushPrecedesCertification(run);
    NeverTwice(run);
    WireProtocol(run);
    RegistryMirrorsStreaming(run);
    var s := StateAfter(run);
    if s.c.Ended? {
      CommitOrderConserved(run);
      if s.wasBfAfterCommit { CertifiedFate(run); }
      if s.st.Aborted? && s.wasStreaming { StreamingRollbackOnce(run); RollbackIsLost(run); LostMarkIsTakenBack(run); }
    }
  }

  // ---------------------------------------------------------------- BF immutability

  /** before_commit() has returned 0 in committing, and what can follow. */
  predicate Sealed(s: Snapshot) {
    (s.c.Ended? && s.st.Committed?)
    || (!s.c.Ended? && s.immutable && (s.st.Committing? || s.st.OrderedCommit? || s.st.Committed?))
  }

  predicate Extends(later: Run, run: Run) { later == run || (later.Step? && Extends(later.before, run)) }

  lemma {:induction false} PrefixIsLegal(later: Run, run: Run)
    requires Legal(later) && Extends(later, run)
    ensures Legal(run)
  {
    if later != run { PrefixIsLegal(later.before, run); }
  }

  /** BF aborts of a sealed transaction fail and change nothing; only while it is being replayed
      can a refused total order abort still clear the mark of the one that led to the replay. */
  lemma SealedRefusesAbort(s: Snapshot, inTotalOrder: bool, providerOk: bool, idle: bool)
    requires s.Inv() && Sealed(s)
    ensures !A.AbortSucceeds(s, providerOk)
    ensures A.BfAbort(s, inTotalOrder, providerOk, idle) == if inTotalOrder then s.(totalOrder := false) else s
    ensures !Replayed(s.c) ==> A.BfAbort(s, inTotalOrder, providerOk, idle) == s
  {
    SealedIsUnmarked(s);
    assert A.BfAbort(s, inTotalOrder, providerOk, idle) == if inTotalOrder then A.Unmarked(s) else s;
  }

  lemma SealedIsUnmarked(s: Snapshot)
    requires s.Control() && Sealed(s)
    ensures (!s.active || s.immutable) && (!Replayed(s.c) ==> !s.totalOrder) && !s.a.Sr? && !s.ReliesOnMark()
    ensures s.c.Ended? || s.c.Ready? || s.c == OrderRelock(true) || s.c.CommitStop? || Replayed(s.c)
  {
    assert s.Order() && s.Certification() && s.OwnerPlace() && s.OneRollback();
  }

  /** Once sealed, a run can only go committing, ordered_commit, committed. */
  lemma {:induction false} BfImmutability(run: Run, later: Run)
    requires Legal(later) && Extends(later, run) && !EndsInHazard(later)
    requires Legal(run) && Sealed(StateAfter(run))
    ensures Sealed(StateAfter(later))
  {
    if later != run {
      var before := later.before;
      PrefixIsLegal(later, before);
      InvariantAfter(before);
      BfImmutability(run, before);
      SealedStep(StateAfter(before), later.act);
    }
  }

  lemma SealedStep(s: Snapshot, act: Action)
    requires s.Inv() && Sealed(s) && Enabled(s, act) && !Hazard(s, act)
    ensures Sealed(Next(s, act))
  {
    SealedIsUnmarked(s);
    match act
    case Fragment(f) => SealedSets(s, f);
    case Prepare(p) =>
    case Commit(m) => SealedCommits(s, m);
    case Rollback(r) =>
    case Statement(e) => SealedEnds(s, e);
    case Abort(b) => SealedAborts(s, b);
  }

  /** The DBMS may still change what it likes, to no effect. */
  lemma SealedSets(s: Snapshot, f: FragmentAction)
    requires Sealed(s) && FragmentEnabled(s, f) && !InCertify(s.c) && !s.c.FragReplayers?
    ensures Sealed(FragmentNext(s, f))
  {
    match f
    case SetPaUnsafe(_) =>
    case SetImplicitDeps(_) =>
    case ResetError =>
    case _ => assert false;
  }

  lemma SealedCommits(s: Snapshot, m: CommitAction)
    requires s.Control() && Sealed(s) && CommitEnabled(s, m) && !CommitHazard(s, m)
    ensures Sealed(CommitNext(s, m))
  {
    SealedIsUnmarked(s);
    CommitExits(s, m);
    assert s.Order() && s.OwnerPlace();
    match m
    case LockAfterEnter =>
    case OrderCommit =>
    case AfterCommit(_) =>
    case StopAfterCommit(_) =>
    case _ => assert false;
  }

  lemma SealedEnds(s: Snapshot, e: StatementAction)
    requires s.Control() && Sealed(s) && StatementEnabled(s, e) && !StatementHazard(s, e)
    ensures Sealed(StatementNext(s, e))
  {
    SealedIsUnmarked(s);
    StatementExits(s, e);
    assert s.Order() && s.OwnerPlace();
    if e.StopAfterReplay? { assert R.StopAfterReplay(s).immutable == s.immutable; }
  }

  lemma SealedAborts(s: Snapshot, b: AbortAction)
    requires s.Inv() && Sealed(s) && AbortEnabled(s, b)
    ensures b.BfAbort? && Sealed(AbortNext(s, b))
  {
    SealedIsUnmarked(s);
    if b.BfAbort? { SealedRefusesAbort(s, b.inTotalOrder, b.providerOk, b.idle); }
  }
}
