/** What every step does to the place of the owner, the state of the transaction and the error of the
    client, case by case, for all answers of the provider and of the DBMS.  Hooks return to the client
    where the place is Ready. */
module HookExits {
  import opened TransactionStates
  import opened TransactionEvents
  import opened TransactionSnapshot
  import opened TransactionRuns
  import F = FragmentSteps
  import C = CommitSteps
  import R = RollbackSteps
  import A = AbortSteps

  predicate Leaves(t: Snapshot, c: Pc, st: TxState, error: bool) { t.c == c && t.st == st && t.error == error }

  /** The hazards, one by one: the steps that fail an assertion. */
  lemma HazardList(s: Snapshot, act: Action)
    ensures Hazard(s, act) <==>
      || (s.st == MustAbort && (act == Fragment(FlushForFragment(false)) || act == Fragment(PrepareFragment(NoData))
          || act == Fragment(PrepareFragment(PrepareFails)) || act == Fragment(PrepareFragment(AppendFails))))
      || (act == Prepare(FlushForCommit(false)) && (s.st == MustAbort || !s.error))
      || (act == Prepare(LockAfterCertify) && s.st == MustAbort && var status := StatusOf(s.c);
          status != Success && status != CertStatus.BfAbort && status != CertificationFailed
          && status != ConnectionFailed && status != ProviderFailed)
      || (act == Prepare(RemoveFragments(StatementNotAllowed)) && s.st == Executing)
      || (act == Commit(AfterCommit(false)) && s.fragments == 0) || act == Commit(StopAfterCommit(false))
      || (act == Statement(AfterStatement(true)) && s.st == Executing)
      || (act == Abort(AborterUnregisters) && s.stale)
  {
  }

  // ---------------------------------------------------------------- certify_fragment()

  predicate FragmentExit(s: Snapshot, f: FragmentAction, t: Snapshot) {
    match f
    case SetPaUnsafe(unsafe) => Leaves(t, Ready, s.st, s.error) && (s.st != MustReplay ==> t.flags.paUnsafe == unsafe)
    case SetImplicitDeps(implicit) => Leaves(t, Ready, s.st, s.error) && t.implicitDeps == implicit
    case ResetError => Leaves(t, Ready, s.st, false)
    case Row => Leaves(t, FragReplayers, s.st, s.error)
    case BeginFragment(interrupted) =>
      if s.st == MustAbort || interrupted then Leaves(t, Ready, MustAbort, true)
      else Leaves(t, FragFlush, Certifying, s.error)
    case FlushForFragment(ok) =>
      if ok then Leaves(t, FragData, s.st, s.error) else Leaves(t, Ready, MustAbort, s.error)
    case PrepareFragment(data) =>
      if data == DataReady then
        && Leaves(t, FragCertify, s.st, s.error) && t.registered == (s.registered || s.fragments == 0)
        && t.flags == s.flags.(implicitDeps := s.flags.implicitDeps || s.implicitDeps)
      else if data == NoData then Leaves(t, Ready, Executing, s.error)
      else Leaves(t, Ready, MustAbort, true)
    case CertifyFragment(res) =>
      && Leaves(t, FragRelock(res != FragmentResult.Certified(Success, true, true)), s.st, s.error)
      && t.fragments == s.fragments + if CountsAsCertified(res) then 1 else 0
    case LockAfterFragment =>
      var phase := if s.totalOrder then Stopping else Converting;
      if s.c == FragRelock(true) && s.fragments == 0 then Leaves(t, FragStop, s.st, s.error)
      else if s.c == FragRelock(true) then Leaves(t, Sr(FragmentFailed, phase), s.st, s.error)
      else if s.st == MustAbort then Leaves(t, Sr(FragmentAborted, phase), MustAbort, s.error)
      else Leaves(t, Ready, Executing, s.error) && !t.flags.start && !t.flags.paUnsafe
    case StopAfterFragment => Leaves(t, Ready, MustAbort, true)
  }

  predicate CountsAsCertified(res: FragmentResult) {
    res.Certified? && (res.status == Success || res.status == CertStatus.BfAbort || res.status == CertificationFailed)
  }

  lemma FragmentExits(s: Snapshot, f: FragmentAction)
    requires s.Control() && FragmentEnabled(s, f) && !FragmentHazard(s, f)
    ensures FragmentExit(s, f, FragmentNext(s, f))
  {
    match f
    case SetPaUnsafe(_) => SettingExits(s, f);
    case SetImplicitDeps(_) => SettingExits(s, f);
    case ResetError => SettingExits(s, f);
    case Row =>
    case BeginFragment(interrupted) => BeginFragmentExits(s, interrupted);
    case FlushForFragment(ok) => FlushForFragmentExits(s, ok);
    case PrepareFragment(data) => PrepareFragmentExits(s, data);
    case CertifyFragment(res) => CertifyFragmentExits(s, res);
    case LockAfterFragment => LockAfterFragmentExits(s);
    case StopAfterFragment =>
  }

  lemma SettingExits(s: Snapshot, f: FragmentAction)
    requires s.c.Ready? && (f.SetPaUnsafe? || f.SetImplicitDeps? || f.ResetError?)
    ensures FragmentExit(s, f, FragmentNext(s, f))
  {
  }

  lemma BeginFragmentExits(s: Snapshot, interrupted: bool)
    ensures FragmentExit(s, BeginFragment(interrupted), F.BeginFragment(s, interrupted))
  {
  }

  lemma FlushForFragmentExits(s: Snapshot, ok: bool)
    ensures FragmentExit(s, FlushForFragment(ok), F.FlushForFragment(s, ok))
  {
  }

  lemma PrepareFragmentExits(s: Snapshot, data: Data)
    ensures FragmentExit(s, PrepareFragment(data), F.PrepareFragment(s, data))
  {
  }

  lemma CertifyFragmentExits(s: Snapshot, res: FragmentResult)
    requires FragmentResultPossible(res)
    ensures FragmentExit(s, CertifyFragment(res), F.CertifyFragment(s, res))
  {
  }

  lemma LockAfterFragmentExits(s: Snapshot)
    requires s.c.FragRelock? && (s.c == FragRelock(false) ==> s.fragments > 0)
    ensures FragmentExit(s, LockAfterFragment, F.LockAfterFragment(s))
  {
  }

  // ---------------------------------------------------------------- before_prepare() to after_prepare()

  /** The relock of certify_commit(): what each status leads to. */
  predicate CertifiedExit(st: TxState, status: CertStatus, twoPhase: bool, error: bool, t: Snapshot) {
    match status
    case Success =>
      if st == MustAbort then Leaves(t, Ready, MustReplay, error)
      else if twoPhase then Leaves(t, Ready, Preparing, error)
      else Leaves(t, OrderEnter, Committing, error)
    case BfAbort => Leaves(t, Ready, MustReplay, error)
    case CertificationFailed => Leaves(t, Ready, CertFailed, true)
    case Warning => Leaves(t, Ready, MustAbort, true)
    case Missing => Leaves(t, Ready, MustAbort, true)
    case SizeExceeded => Leaves(t, Ready, MustAbort, true)
    case ConnectionFailed => Leaves(t, Ready, MustAbort, true)
    case ProviderFailed => Leaves(t, Ready, MustAbort, true)
    case Fatal => Leaves(t, Ready, MustAbort, true)
    case NotImplemented => Leaves(t, Ready, MustAbort, true)
    case NotAllowed => Leaves(t, Ready, MustAbort, true)
    case Unknown => Leaves(t, Ready, MustAbort, true)
  }

  predicate PrepareExit(s: Snapshot, p: PrepareAction, t: Snapshot) {
    match p
    case BeforePrepare(twoPhase) =>
      if s.st == MustAbort then Leaves(t, Ready, MustAbort, true)
      else if s.fragments > 0 then Leaves(t, CommitFragments(twoPhase), Executing, s.error)
      else Leaves(t, CommitReplayers(twoPhase), Executing, s.error)
    case RemoveFragments(removal) =>
      if s.st == MustAbort || removal == RemovalFails then Leaves(t, Ready, MustAbort, true)
      else Leaves(t, CommitReplayers(TwoPhase(s.c)), Executing, s.error)
    case BeginCommit(interrupted) =>
      if s.st == MustAbort || interrupted then Leaves(t, Ready, MustAbort, true)
      else Leaves(t, CommitFlush(TwoPhase(s.c)), Certifying, s.error)
    case FlushForCommit(ok) =>
      if !ok then Leaves(t, Ready, MustAbort, true)
      else Leaves(t, CommitCertify(TwoPhase(s.c)), s.st, s.error) && CommitFlags(s, t.flags)
    case CertifyCommit(res) =>
      if res == DataFails then Leaves(t, Ready, MustAbort, true)
      else res.Answer? && Leaves(t, CommitRelock(TwoPhase(s.c), res.status), s.st, s.error) && t.ordered == res.ordered
    case LockAfterCertify => CertifiedExit(s.st, StatusOf(s.c), TwoPhase(s.c), s.error, t)
    case AfterPrepare => Leaves(t, Ready, if s.st == MustAbort then MustReplay else Committing, s.error)
  }

  /** The flag word of a commit write set: start without fragments before it, pa_unsafe after them or on
      request, implicit_deps on request, and nothing else but commit. */
  predicate CommitFlags(s: Snapshot, flags: Flags) {
    flags == Flags(
      s.flags.start, true, s.flags.rollback, s.flags.isolation, s.flags.paUnsafe || s.fragments > 0,
      s.flags.commutative, s.flags.native, false, s.flags.snapshot, s.flags.implicitDeps || s.implicitDeps)
  }

  lemma PrepareExits(s: Snapshot, p: PrepareAction)
    requires s.Control() && PrepareEnabled(s, p) && !PrepareHazard(s, p)
    ensures PrepareExit(s, p, PrepareNext(s, p))
  {
    match p
    case BeforePrepare(twoPhase) => BeforePrepareExits(s, twoPhase);
    case RemoveFragments(removal) => RemoveFragmentsExits(s, removal);
    case BeginCommit(interrupted) => BeginCommitExits(s, interrupted);
    case FlushForCommit(ok) => FlushForCommitExits(s, ok);
    case CertifyCommit(res) => CertifyCommitExits(s, res);
    case LockAfterCertify => LockAfterCertifyExits(s);
    case AfterPrepare =>
  }

  lemma BeforePrepareExits(s: Snapshot, twoPhase: bool)
    requires s.st.Executing? || s.st.MustAbort?
    ensures PrepareExit(s, BeforePrepare(twoPhase), C.BeforePrepare(s, twoPhase))
  {
  }

  lemma RemoveFragmentsExits(s: Snapshot, removal: Removal)
    requires s.st.MustAbort? || (s.st.Executing? && !removal.StatementNotAllowed?)
    ensures PrepareExit(s, RemoveFragments(removal), C.RemoveFragments(s, removal))
  {
  }

  lemma BeginCommitExits(s: Snapshot, interrupted: bool)
    ensures PrepareExit(s, BeginCommit(interrupted), C.BeginCommit(s, interrupted))
  {
  }

  lemma FlushForCommitExits(s: Snapshot, ok: bool)
    requires ok || s.error
    ensures PrepareExit(s, FlushForCommit(ok), C.FlushForCommit(s, ok))
  {
  }

  lemma CertifyCommitExits(s: Snapshot, res: CommitResult)
    ensures PrepareExit(s, CertifyCommit(res), C.CertifyCommit(s, res))
  {
  }

  lemma LockAfterCertifyExits(s: Snapshot)
    requires (s.st.Certifying? || s.st.MustAbort?) && !(Unguarded(StatusOf(s.c)) && s.st.MustAbort?)
    ensures CertifiedExit(s.st, StatusOf(s.c), TwoPhase(s.c), s.error, C.LockAfterCertify(s))
  {
  }

  /** before_prepare() asserts that it has set an error if it fails, unless the transaction must replay. */
  lemma PrepareReports(s: Snapshot, p: PrepareAction)
    requires s.Control() && PrepareEnabled(s, p) && !PrepareHazard(s, p)
    ensures var t := PrepareNext(s, p); t.c.Ready? && (t.st.MustAbort? || t.st.CertFailed?) ==> t.error
  {
    PrepareExits(s, p);
    assert s.OwnerPlace();
  }

  // ---------------------------------------------------------------- before_commit() to after_commit()

  predicate CommitExit(s: Snapshot, m: CommitAction, t: Snapshot) {
    match m
    case BeforeCommit =>
      if s.st == Committing then Leaves(t, OrderEnter, Committing, s.error)
      else if s.st == MustAbort && s.certified then Leaves(t, Ready, MustReplay, s.error)
      else if s.st == MustAbort then Leaves(t, Ready, MustAbort, true)
      else Leaves(t, if s.fragments > 0 then CommitFragments(false) else CommitReplayers(false), Executing, s.error)
    case EnterCommitOrder(ok) => Leaves(t, OrderRelock(ok), s.st, s.error)
    case LockAfterEnter =>
      if s.c == OrderRelock(true) then Leaves(t, Ready, Committing, s.error) && t.immutable
      else Leaves(t, Ready, MustReplay, s.error)
    case OrderCommit => Leaves(t, Ready, OrderedCommit, s.error)
    case AfterCommit(_) =>
      if s.fragments > 0 then Leaves(t, CommitStop, OrderedCommit, s.error) else Leaves(t, Ready, Committed, s.error)
    case StopAfterCommit(_) => Leaves(t, Ready, Committed, s.error) && t.fragments == 0
  }

  lemma CommitExits(s: Snapshot, m: CommitAction)
    requires s.Control() && CommitEnabled(s, m) && !CommitHazard(s, m)
    ensures CommitExit(s, m, CommitNext(s, m))
  {
    assert s.OwnerPlace();
    match m
    case BeforeCommit =>
    case EnterCommitOrder(_) =>
    case LockAfterEnter =>
    case OrderCommit =>
    case AfterCommit(_) =>
    case StopAfterCommit(_) =>
  }

  // ---------------------------------------------------------------- rollback

  predicate RollbackExit(s: Snapshot, r: RollbackAction, t: Snapshot) {
    var nested := Nested(s.c);
    var phase := if s.totalOrder then Stopping else Converting;
    match r
    case BeforeRollback =>
      if s.st == MustReplay || (s.st == MustAbort && s.certified) then Leaves(t, RbAfter(nested), MustReplay, s.error)
      else if s.st == Aborting || s.fragments == 0 then Leaves(t, RbAfter(nested), Aborting, s.error)
      else if s.st == Preparing then Leaves(t, Sr(InHook(nested), phase), MustAbort, s.error)
      else if s.rollingBack then Leaves(t, Sr(InHook(nested), Waiting), s.st, s.error)
      else if s.rolledBack then Leaves(t, RbAfter(nested), Aborting, s.error)
      else Leaves(t, Sr(InHook(nested), phase), s.st, s.error)
    case AfterRollback =>
      if s.fragments > 0 && s.totalOrder then Leaves(t, RbFragments(nested), s.st, s.error)
      else
        Leaves(t, if nested then RbReturn else Ready, if s.st == Aborting then Aborted else MustReplay, s.error)
    case RemoveAfterRollback =>
      && Leaves(t, if nested then RbReturn else Ready, if s.st == Aborting then Aborted else MustReplay, s.error)
      && t.removed
    case OwnerWakes => Leaves(t, RbAfter(nested), Aborting, s.error)
    case OwnerUnregisters =>
      s.c.Sr? && Leaves(t, Sr(s.c.site, if Stops(s.c) then Marking else Sending), s.st, s.error)
    case OwnerReplicates(ok) =>
      s.c.Sr? && if ok then MarkedExit(s, s.c.site, t) else Leaves(t, Sr(s.c.site, Queueing), s.st, s.error)
    case OwnerQueues => s.c.Sr? && Leaves(t, Sr(s.c.site, Marking), s.st, s.error)
    case OwnerMarks => s.c.Sr? && MarkedExit(s, s.c.site, t)
  }

  /** The end of streaming_rollback() in the owner. */
  predicate MarkedExit(s: Snapshot, site: Site, t: Snapshot) {
    && t.rolledBack && !t.rollingBack
    && match site
       case InHook(nested) => Leaves(t, RbAfter(nested), Aborting, s.error)
       case _ => Leaves(t, Ready, MustAbort, true)
  }

  lemma RollbackExits(s: Snapshot, r: RollbackAction)
    requires s.Control() && RollbackEnabled(s, r)
    ensures RollbackExit(s, r, RollbackNext(s, r))
  {
    assert s.OwnerPlace() && s.OneRollback();
    match r
    case BeforeRollback => BeforeRollbackExits(s);
    case AfterRollback => AfterRollbackExits(s);
    case RemoveAfterRollback =>
    case OwnerWakes =>
    case OwnerUnregisters =>
    case OwnerReplicates(ok) => OwnerReplicatesExits(s, ok);
    case OwnerQueues =>
    case OwnerMarks => OwnerMarksExits(s);
  }

  lemma AfterRollbackExits(s: Snapshot)
    requires s.st.Aborting? || s.st.MustReplay?
    ensures RollbackExit(s, AfterRollback, R.AfterRollback(s))
  {
  }

  lemma OwnerReplicatesExits(s: Snapshot, ok: bool)
    requires s.c.Sr?
    ensures RollbackExit(s, OwnerReplicates(ok), R.OwnerReplicates(s, ok))
  {
  }

  lemma OwnerMarksExits(s: Snapshot)
    requires s.c.Sr?
    ensures RollbackExit(s, OwnerMarks, R.OwnerMarks(s))
  {
  }

  lemma BeforeRollbackExits(s: Snapshot)
    requires R.MayRollBack(s.st) || s.st.Aborting?
    ensures RollbackExit(s, BeforeRollback, R.BeforeRollback(s))
  {
  }

  // ---------------------------------------------------------------- after_statement() and replay

  predicate StatementExit(s: Snapshot, e: StatementAction, t: Snapshot) {
    var release := if s.ordered then OrderRelease else HandleRelease;
    match e
    case AfterStatement(_) =>
      if s.st == Executing then Leaves(t, Ready, Executing, s.error)
      else if s.st == Committed then Leaves(t, Ended, Committed, s.error) && CleanedUp(t)
      else if s.st == Aborted then Leaves(t, release, Aborted, s.error || s.bfAborted)
      else if s.st == MustReplay then Leaves(t, ReplayCall, Replaying, s.error)
      else Leaves(t, RbCall(true), s.st, true)
    case ReturnFromRollback =>
      if s.st == MustReplay then Leaves(t, ReplayCall, Replaying, s.error) else Leaves(t, release, Aborted, s.error)
    case Replay(result) =>
      Leaves(t, ReplayStop(result != ReplayCertFailed, s.fragments > 0),
             if result == ReplayedHere then Committed else Replaying, s.error)
    case StopAfterReplay => s.c.ReplayStop? && Leaves(t, ReplayLock(s.c.ok), s.st, s.error)
    case LockAfterReplay =>
      if s.c == ReplayLock(true) then Leaves(t, Ended, Committed, s.error) && CleanedUp(t)
      else if s.fragments > 0 then Leaves(t, ReplayFragments, Replaying, true)
      else Leaves(t, release, Aborted, true)
    case RemoveAfterReplay => Leaves(t, release, Aborted, s.error) && t.removed
    case ReleaseOrder => Leaves(t, HandleRelease, Aborted, s.error)
    case ReleaseHandle => Leaves(t, Ended, Aborted, s.error) && CleanedUp(t)
  }

  /** Nothing of the transaction is left for the next one. */
  predicate CleanedUp(t: Snapshot) {
    && !t.active && !t.bfAborted && !t.totalOrder && !t.certified && !t.ordered && !t.immutable
    && t.flags == NO_FLAGS && !t.implicitDeps && t.fragments == 0 && !t.rolledBack
  }

  lemma StatementExits(s: Snapshot, e: StatementAction)
    requires s.Control() && StatementEnabled(s, e) && !StatementHazard(s, e)
    ensures StatementExit(s, e, StatementNext(s, e))
  {
    assert s.OwnerPlace();
    match e
    case AfterStatement(inconsistent) => AfterStatementExits(s, inconsistent);
    case ReturnFromRollback =>
    case Replay(_) =>
    case StopAfterReplay =>
    case LockAfterReplay => LockAfterReplayExits(s);
    case RemoveAfterReplay =>
    case ReleaseOrder =>
    case ReleaseHandle =>
  }

  /** after_statement() comes back to the client only with an executing transaction, as its exit assertion
      says; every other transaction it cleans up. */
  lemma StatementReturns(s: Snapshot, e: StatementAction)
    requires s.Control() && StatementEnabled(s, e) && !StatementHazard(s, e)
    ensures var t := StatementNext(s, e);
      (t.c.Ready? ==> t.st.Executing?) && (t.c.Ended? ==> t.st.Committed? || t.st.Aborted?)
  {
    StatementExits(s, e);
    ExitReturns(s, e, StatementNext(s, e));
  }

  lemma ExitReturns(s: Snapshot, e: StatementAction, t: Snapshot)
    requires StatementExit(s, e, t)
    ensures (t.c.Ready? ==> t.st.Executing?) && (t.c.Ended? ==> t.st.Committed? || t.st.Aborted?)
  {
  }

  lemma AfterStatementExits(s: Snapshot, inconsistent: bool)
    requires s.c.Ready? && R.MayEndStatement(s.st) && !(s.st.Executing? && inconsistent)
    ensures StatementExit(s, AfterStatement(inconsistent), R.AfterStatement(s, inconsistent))
  {
    if s.st.Committed? {
      assert R.AfterStatement(s, inconsistent) == s.CleanedUp(Committed);
    } else {
      assert R.AfterStatement(s, inconsistent) == R.EndStatement(s, inconsistent);
    }
  }

  lemma LockAfterReplayExits(s: Snapshot)
    requires s.c.ReplayLock? && (s.c == ReplayLock(true) || s.st.Replaying?)
    ensures StatementExit(s, LockAfterReplay, R.LockAfterReplay(s))
  {
    if s.c == ReplayLock(true) {
      assert R.LockAfterReplay(s) == s.CleanedUp(Committed);
    } else {
      assert R.LockAfterReplay(s) == R.SettleRefused(s);
    }
  }

  /** A nested rollback comes back to after_statement(), never to the client. */
  lemma NestedComesBack(s: Snapshot, r: RollbackAction)
    requires s.Control() && RollbackEnabled(s, r) && Nested(s.c)
    ensures var t := RollbackNext(s, r);
      Nested(t.c) || (t.c.RbReturn? && (t.st == Aborted || t.st == MustReplay))
  {
    RollbackExits(s, r);
    assert s.OwnerPlace() && s.OneRollback();
  }

  // ---------------------------------------------------------------- the BF aborter

  predicate AbortExit(s: Snapshot, b: AbortAction, t: Snapshot) {
    var phase := if s.totalOrder then Stopping else Converting;
    match b
    case BfAbort(inTotalOrder, providerOk, idle) =>
      var abortable := s.st == Executing || s.st == Preparing || s.st == Certifying || s.st == Committing;
      if s.active && !s.immutable && abortable && providerOk then HitExit(s, inTotalOrder, idle, t)
      else RefusedExit(s, inTotalOrder, t)
    case AborterWakes =>
      Leaves(t, s.c, s.st, s.error) && t.a == if s.rolledBack then Done else Sr(InBfAbort, phase)
    case AborterUnregisters =>
      Leaves(t, s.c, s.st, s.error) && t.a == Sr(InBfAbort, if Stops(s.a) then Marking else Sending)
    case AborterReplicates(ok, idle) =>
      if ok then HandedExit(s, idle, t) else Leaves(t, s.c, s.st, s.error) && t.a == Sr(InBfAbort, Queueing)
    case AborterQueues => Leaves(t, s.c, s.st, s.error) && t.a == Sr(InBfAbort, Marking)
    case AborterMarks(idle) => HandedExit(s, idle, t)
  }

  predicate HitExit(s: Snapshot, inTotalOrder: bool, idle: bool, t: Snapshot) {
    && t.bfAborted && t.totalOrder == inTotalOrder
    && if s.st == Executing && s.fragments > 0 then
         && Leaves(t, s.c, MustAbort, s.error)
         && t.a == Sr(InBfAbort, if s.rollingBack then Waiting else if inTotalOrder then Stopping else Converting)
       else
         && Leaves(t, if idle then RbCall(false) else s.c, if idle then Aborting else MustAbort, s.error)
         && t.a == Done
  }

  predicate RefusedExit(s: Snapshot, inTotalOrder: bool, t: Snapshot) {
    && Leaves(t, s.c, s.st, s.error) && t.a == s.a && t.bfAborted == s.bfAborted
    && t.totalOrder == (s.totalOrder && !inTotalOrder)
  }

  /** The end of bf_abort(), which hands over an idle client. */
  predicate HandedExit(s: Snapshot, idle: bool, t: Snapshot) {
    && t.a == Done && t.rolledBack && !t.rollingBack
    && if idle then Leaves(t, RbCall(false), Aborting, s.error) else Leaves(t, s.c, s.st, s.error)
  }

  lemma AbortExits(s: Snapshot, b: AbortAction)
    ensures AbortExit(s, b, AbortNext(s, b))
  {
    match b
    case BfAbort(inTotalOrder, providerOk, idle) =>
      BfAbortExits(s, inTotalOrder, providerOk, idle);
      BfAbortTable(s, inTotalOrder, providerOk, idle, A.BfAbort(s, inTotalOrder, providerOk, idle));
    case AborterWakes => AborterWakesExits(s);
    case AborterUnregisters => AborterUnregistersExits(s);
    case AborterReplicates(ok, idle) => AborterReplicatesExits(s, ok, idle);
    case AborterQueues =>
    case AborterMarks(idle) => AborterMarksExits(s, idle);
  }

  lemma AborterWakesExits(s: Snapshot)
    ensures AbortExit(s, AborterWakes, A.AborterWakes(s))
  {
  }

  lemma AborterUnregistersExits(s: Snapshot)
    ensures AbortExit(s, AborterUnregisters, A.AborterUnregisters(s))
  {
  }

  lemma AborterReplicatesExits(s: Snapshot, ok: bool, idle: bool)
    ensures AbortExit(s, AborterReplicates(ok, idle), A.AborterReplicates(s, ok, idle))
  {
  }

  lemma AborterMarksExits(s: Snapshot, idle: bool)
    ensures AbortExit(s, AborterMarks(idle), A.AborterMarks(s, idle))
  {
  }

  /** The four states in which the provider is asked. */
  lemma BfAbortTable(s: Snapshot, inTotalOrder: bool, providerOk: bool, idle: bool, t: Snapshot)
    requires A.AbortSucceeds(s, providerOk) ==> HitExit(s, inTotalOrder, idle, t)
    requires !A.AbortSucceeds(s, providerOk) ==> RefusedExit(s, inTotalOrder, t)
    ensures AbortExit(s, AbortAction.BfAbort(inTotalOrder, providerOk, idle), t)
  {
  }

  lemma BfAbortExits(s: Snapshot, inTotalOrder: bool, providerOk: bool, idle: bool)
    ensures var t := A.BfAbort(s, inTotalOrder, providerOk, idle);
      if A.AbortSucceeds(s, providerOk) then HitExit(s, inTotalOrder, idle, t) else RefusedExit(s, inTotalOrder, t)
  {
    if A.AbortSucceeds(s, providerOk) { HitExits(s, inTotalOrder, idle); } else { RefusedExits(s, inTotalOrder); }
  }

  lemma HitExits(s: Snapshot, inTotalOrder: bool, idle: bool)
    ensures HitExit(s, inTotalOrder, idle, A.Hit(s, inTotalOrder, idle))
  {
  }

  lemma RefusedExits(s: Snapshot, inTotalOrder: bool)
    ensures RefusedExit(s, inTotalOrder, if inTotalOrder then A.Unmarked(s) else s)
  {
    if inTotalOrder { UnmarkedExits(s); }
  }

  lemma UnmarkedExits(s: Snapshot)
    ensures RefusedExit(s, true, A.Unmarked(s))
  {
  }
}
