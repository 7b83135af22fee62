/** Every run of one local transaction: any sequence of enabled steps of the owner and of the
    BF aborter, with any answers of the provider and of the DBMS. */
module TransactionRuns {
  import opened TransactionStates
  import opened TransactionEvents
  import opened TransactionSnapshot
  import F = FragmentSteps
  import C = CommitSteps
  import R = RollbackSteps
  import A = AbortSteps

  // ---------------------------------------------------------------- actions

  datatype FragmentAction =
    | SetPaUnsafe(unsafe: bool) | SetImplicitDeps(implicit: bool) | ResetError
    | Row | BeginFragment(interrupted: bool) | FlushForFragment(ok: bool) | PrepareFragment(data: Data)
    | CertifyFragment(res: FragmentResult) | LockAfterFragment | StopAfterFragment

  datatype PrepareAction =
    | BeforePrepare(twoPhase: bool) | RemoveFragments(removal: Removal) | BeginCommit(interrupted: bool)
    | FlushForCommit(ok: bool) | CertifyCommit(res: CommitResult) | LockAfterCertify | AfterPrepare

  datatype CommitAction =
    | BeforeCommit | EnterCommitOrder(ok: bool) | LockAfterEnter | OrderCommit
    | AfterCommit(released: bool) | StopAfterCommit(released: bool)

  datatype RollbackAction =
    | BeforeRollback | AfterRollback | RemoveAfterRollback
    | OwnerWakes | OwnerUnregisters | OwnerReplicates(ok: bool) | OwnerQueues | OwnerMarks

  datatype StatementAction =
    | AfterStatement(inconsistent: bool) | ReturnFromRollback
    | Replay(result: ReplayResult) | StopAfterReplay | LockAfterReplay | RemoveAfterReplay
    | ReleaseOrder | ReleaseHandle

  datatype AbortAction =
    | BfAbort(inTotalOrder: bool, providerOk: bool, idle: bool)
    | AborterWakes | AborterUnregisters | AborterReplicates(ok: bool, idle: bool) | AborterQueues
    | AborterMarks(idle: bool)

  datatype Action =
    | Fragment(f: FragmentAction) | Prepare(p: PrepareAction) | Commit(m: CommitAction)
    | Rollback(r: RollbackAction) | Statement(e: StatementAction) | Abort(b: AbortAction)

  // ---------------------------------------------------------------- certify_fragment()

  predicate FragmentEnabled(s: Snapshot, f: FragmentAction) {
    match f
    case SetPaUnsafe(_) => s.c.Ready?
    case SetImplicitDeps(_) => s.c.Ready?
    case ResetError => s.c.Ready?
    case Row => s.c.Ready? && (s.st.Executing? || s.st.MustAbort?)
    case BeginFragment(_) => s.c.FragReplayers?
    case FlushForFragment(_) => s.c.FragFlush?
    case PrepareFragment(_) => s.c.FragData?
    case CertifyFragment(res) => s.c.FragCertify? && FragmentResultPossible(res)
    case LockAfterFragment => s.c.FragRelock?
    case StopAfterFragment => s.c.FragStop?
  }

  /** The exits of certify_fragment() that set the state without a look at it, taken after a BF abort. */
  predicate FragmentHazard(s: Snapshot, f: FragmentAction) {
    s.st.MustAbort? && ((f.FlushForFragment? && !f.ok) || (f.PrepareFragment? && !f.data.DataReady?))
  }

  function FragmentNext(s: Snapshot, f: FragmentAction): Snapshot {
    match f
    case SetPaUnsafe(unsafe) => F.SetPaUnsafe(s, unsafe)
    case SetImplicitDeps(implicit) => F.SetImplicitDeps(s, implicit)
    case ResetError => F.ResetError(s)
    case Row => F.Row(s)
    case BeginFragment(interrupted) => F.BeginFragment(s, interrupted)
    case FlushForFragment(ok) => F.FlushForFragment(s, ok)
    case PrepareFragment(data) => F.PrepareFragment(s, data)
    case CertifyFragment(res) => F.CertifyFragment(s, res)
    case LockAfterFragment => F.LockAfterFragment(s)
    case StopAfterFragment => F.StopAfterFragment(s)
  }

  lemma FragmentNextKeeps(s: Snapshot, f: FragmentAction)
    requires s.Inv() && FragmentEnabled(s, f) && !FragmentHazard(s, f)
    ensures KeptByFlush(s, FragmentNext(s, f)) && (!f.FlushForFragment? ==> Lasts(s, FragmentNext(s, f)))
  {
    match f
    case SetPaUnsafe(_) => SettingKeeps(s, f);
    case SetImplicitDeps(_) => SettingKeeps(s, f);
    case ResetError => SettingKeeps(s, f);
    case Row => F.RowKeeps(s);
    case BeginFragment(interrupted) => F.BeginFragmentKeeps(s, interrupted);
    case FlushForFragment(ok) => F.FlushForFragmentKeeps(s, ok);
    case PrepareFragment(data) => F.PrepareFragmentKeeps(s, data);
    case CertifyFragment(res) => F.CertifyFragmentKeeps(s, res);
    case LockAfterFragment => F.LockAfterFragmentKeeps(s);
    case StopAfterFragment => F.StopAfterFragmentKeeps(s);
  }

  lemma SettingKeeps(s: Snapshot, f: FragmentAction)
    requires s.Inv() && FragmentEnabled(s, f) && (f.SetPaUnsafe? || f.SetImplicitDeps? || f.ResetError?)
    ensures Kept(s, FragmentNext(s, f))
  {
    match f
    case SetPaUnsafe(unsafe) => F.SetPaUnsafeKeeps(s, unsafe);
    case SetImplicitDeps(implicit) => F.SetImplicitDepsKeeps(s, implicit);
    case ResetError => F.ResetErrorKeeps(s);
  }

  // ---------------------------------------------------------------- before_prepare() to after_prepare()

  predicate PrepareEnabled(s: Snapshot, p: PrepareAction) {
    match p
    case BeforePrepare(_) => s.c.Ready? && (s.st.Executing? || s.st.MustAbort?)
    case RemoveFragments(_) => s.c.CommitFragments?
    case BeginCommit(_) => s.c.CommitReplayers?
    case FlushForCommit(_) => s.c.CommitFlush?
    case CertifyCommit(res) => s.c.CommitCertify? && CommitResultPossible(res)
    case LockAfterCertify => s.c.CommitRelock?
    case AfterPrepare => s.c.Ready? && s.certified && (s.st.Preparing? || s.st.MustAbort?)
  }

  /** The unguarded exits of certify_commit(), a failed flush that leaves no error behind, and a
      streaming transaction whose last statement is not allowed. */
  predicate PrepareHazard(s: Snapshot, p: PrepareAction) {
    || (p.FlushForCommit? && !p.ok && (s.st.MustAbort? || !s.error))
    || (p.LockAfterCertify? && Unguarded(StatusOf(s.c)) && s.st.MustAbort?)
    || (p.RemoveFragments? && p.removal.StatementNotAllowed? && s.st.Executing?)
  }

  function PrepareNext(s: Snapshot, p: PrepareAction): Snapshot {
    match p
    case BeforePrepare(twoPhase) => C.BeforePrepare(s, twoPhase)
    case RemoveFragments(removal) => C.RemoveFragments(s, removal)
    case BeginCommit(interrupted) => C.BeginCommit(s, interrupted)
    case FlushForCommit(ok) => C.FlushForCommit(s, ok)
    case CertifyCommit(res) => C.CertifyCommit(s, res)
    case LockAfterCertify => C.LockAfterCertify(s)
    case AfterPrepare => C.AfterPrepare(s)
  }

  lemma PrepareNextKeeps(s: Snapshot, p: PrepareAction)
    requires s.Inv() && PrepareEnabled(s, p) && !PrepareHazard(s, p)
    ensures KeptByFlush(s, PrepareNext(s, p)) && (!p.FlushForCommit? ==> Lasts(s, PrepareNext(s, p)))
  {
    match p
    case BeforePrepare(twoPhase) => C.BeforePrepareKeeps(s, twoPhase);
    case RemoveFragments(removal) => C.RemoveFragmentsKeeps(s, removal);
    case BeginCommit(interrupted) => C.BeginCommitKeeps(s, interrupted);
    case FlushForCommit(ok) => C.FlushForCommitKeeps(s, ok);
    case CertifyCommit(res) => C.CertifyCommitKeeps(s, res);
    case LockAfterCertify => C.LockAfterCertifyKeeps(s);
    case AfterPrepare => C.AfterPrepareKeeps(s);
  }

  // ---------------------------------------------------------------- before_commit() to after_commit()

  predicate CommitEnabled(s: Snapshot, m: CommitAction) {
    match m
    case BeforeCommit => s.c.Ready? && !s.immutable && (s.st.Executing? || s.st.Committing? || s.st.MustAbort?)
    case EnterCommitOrder(ok) => s.c.OrderEnter? && (ok ==> !s.bfAborted)
    case LockAfterEnter => s.c.OrderRelock?
    case OrderCommit => s.c.Ready? && s.st.Committing? && s.immutable
    case AfterCommit(_) => s.c.Ready? && s.st.OrderedCommit?
    case StopAfterCommit(_) => s.c.CommitStop?
  }

  /** after_commit() asserts that provider::release() succeeds. */
  predicate CommitHazard(s: Snapshot, m: CommitAction) {
    (m.AfterCommit? && !m.released && !s.Streaming()) || (m.StopAfterCommit? && !m.released)
  }

  function CommitNext(s: Snapshot, m: CommitAction): Snapshot {
    match m
    case BeforeCommit => C.BeforeCommit(s)
    case EnterCommitOrder(ok) => C.EnterCommitOrder(s, ok)
    case LockAfterEnter => C.LockAfterEnter(s)
    case OrderCommit => C.OrderCommit(s)
    case AfterCommit(released) => C.AfterCommit(s, released)
    case StopAfterCommit(released) => C.StopAfterCommit(s, released)
  }

  lemma CommitNextKeeps(s: Snapshot, m: CommitAction)
    requires s.Inv() && CommitEnabled(s, m) && !CommitHazard(s, m)
    ensures Kept(s, CommitNext(s, m))
  {
    match m
    case BeforeCommit => C.BeforeCommitKeeps(s);
    case EnterCommitOrder(ok) => C.EnterCommitOrderKeeps(s, ok);
    case LockAfterEnter => C.LockAfterEnterKeeps(s);
    case OrderCommit => C.OrderCommitKeeps(s);
    case AfterCommit(released) => C.AfterCommitKeeps(s, released);
    case StopAfterCommit(_) => C.StopAfterCommitKeeps(s);
  }

  // ---------------------------------------------------------------- rollback

  predicate RollbackEnabled(s: Snapshot, r: RollbackAction) {
    match r
    case BeforeRollback => s.c.RbCall? || (s.c.Ready? && R.MayRollBack(s.st))
    case AfterRollback => s.c.RbAfter?
    case RemoveAfterRollback => s.c.RbFragments?
    case OwnerWakes => Waits(s.c) && !s.rollingBack
    case OwnerUnregisters => Stops(s.c) || Converts(s.c)
    case OwnerReplicates(_) => Sends(s.c)
    case OwnerQueues => Queues(s.c)
    case OwnerMarks => Marks(s.c)
  }

  function RollbackNext(s: Snapshot, r: RollbackAction): Snapshot {
    match r
    case BeforeRollback => R.BeforeRollback(s)
    case AfterRollback => R.AfterRollback(s)
    case RemoveAfterRollback => R.RemoveAfterRollback(s)
    case OwnerWakes => R.OwnerWakes(s)
    case OwnerUnregisters => R.OwnerUnregisters(s)
    case OwnerReplicates(ok) => R.OwnerReplicates(s, ok)
    case OwnerQueues => R.OwnerQueues(s)
    case OwnerMarks => R.OwnerMarks(s)
  }

  lemma RollbackNextKeeps(s: Snapshot, r: RollbackAction)
    requires s.Inv() && RollbackEnabled(s, r)
    ensures Kept(s, RollbackNext(s, r))
  {
    match r
    case BeforeRollback => R.BeforeRollbackKeeps(s);
    case AfterRollback => R.AfterRollbackKeeps(s);
    case RemoveAfterRollback => R.RemoveAfterRollbackKeeps(s);
    case OwnerWakes => R.OwnerWakesKeeps(s);
    case OwnerUnregisters => R.OwnerUnregistersKeeps(s);
    case OwnerReplicates(ok) => R.OwnerReplicatesKeeps(s, ok);
    case OwnerQueues => R.OwnerQueuesKeeps(s);
    case OwnerMarks => R.OwnerMarksKeeps(s);
  }

  // ---------------------------------------------------------------- after_statement() and replay

  predicate StatementEnabled(s: Snapshot, e: StatementAction) {
    match e
    case AfterStatement(inconsistent) =>
      s.c.Ready? && R.MayEndStatement(s.st) && (inconsistent && s.st.Executing? ==> R.HasLogPosition(s))
    case ReturnFromRollback => s.c.RbReturn?
    case Replay(_) => s.c.ReplayCall?
    case StopAfterReplay => s.c.ReplayStop?
    case LockAfterReplay => s.c.ReplayLock?
    case RemoveAfterReplay => s.c.ReplayFragments?
    case ReleaseOrder => s.c.OrderRelease?
    case ReleaseHandle => s.c.HandleRelease?
  }

  /** after_statement() asserts that an error of streaming_step() goes with an aborted transaction. */
  predicate StatementHazard(s: Snapshot, e: StatementAction) { e.AfterStatement? && e.inconsistent && s.st.Executing? }

  function StatementNext(s: Snapshot, e: StatementAction): Snapshot {
    match e
    case AfterStatement(inconsistent) => R.AfterStatement(s, inconsistent)
    case ReturnFromRollback => R.ReturnFromRollback(s)
    case Replay(result) => R.Replay(s, result)
    case StopAfterReplay => R.StopAfterReplay(s)
    case LockAfterReplay => R.LockAfterReplay(s)
    case RemoveAfterReplay => R.RemoveAfterReplay(s)
    case ReleaseOrder => R.ReleaseOrder(s)
    case ReleaseHandle => R.ReleaseHandle(s)
  }

  lemma StatementNextKeeps(s: Snapshot, e: StatementAction)
    requires s.Inv() && StatementEnabled(s, e) && !StatementHazard(s, e)
    ensures Kept(s, StatementNext(s, e))
  {
    match e
    case AfterStatement(inconsistent) => R.AfterStatementKeeps(s, inconsistent);
    case ReturnFromRollback => R.ReturnFromRollbackKeeps(s);
    case Replay(result) => R.ReplayKeeps(s, result);
    case StopAfterReplay => R.StopAfterReplayKeeps(s);
    case LockAfterReplay => R.LockAfterReplayKeeps(s);
    case RemoveAfterReplay => R.RemoveAfterReplayKeeps(s);
    case ReleaseOrder => R.ReleaseOrderKeeps(s);
    case ReleaseHandle => R.ReleaseHandleKeeps(s);
  }

  // ---------------------------------------------------------------- the BF aborter

  /** The provider never aborts a transaction it has let into commit order. */
  predicate AbortEnabled(s: Snapshot, b: AbortAction) {
    match b
    case BfAbort(_, providerOk, idle) => (providerOk ==> !s.inOrder) && (idle ==> A.MayBeIdle(s))
    case AborterWakes => Waits(s.a) && !s.rollingBack
    case AborterUnregisters => Stops(s.a) || Converts(s.a)
    case AborterReplicates(_, idle) => Sends(s.a) && (idle ==> A.MayBeIdle(s))
    case AborterQueues => Queues(s.a)
    case AborterMarks(idle) => Marks(s.a) && (idle ==> A.MayBeIdle(s))
  }

  /** The aborter goes on in streaming_rollback() after the context was cleaned. */
  predicate AbortHazard(s: Snapshot, b: AbortAction) { b.AborterUnregisters? && s.stale }

  function AbortNext(s: Snapshot, b: AbortAction): Snapshot {
    match b
    case BfAbort(inTotalOrder, providerOk, idle) => A.BfAbort(s, inTotalOrder, providerOk, idle)
    case AborterWakes => A.AborterWakes(s)
    case AborterUnregisters => A.AborterUnregisters(s)
    case AborterReplicates(ok, idle) => A.AborterReplicates(s, ok, idle)
    case AborterQueues => A.AborterQueues(s)
    case AborterMarks(idle) => A.AborterMarks(s, idle)
  }

  lemma AbortNextKeeps(s: Snapshot, b: AbortAction)
    requires s.Inv() && AbortEnabled(s, b) && !AbortHazard(s, b)
    ensures KeptByAbort(s, AbortNext(s, b)) && (!b.BfAbort? ==> Lasts(s, AbortNext(s, b)))
  {
    match b
    case BfAbort(inTotalOrder, providerOk, idle) => A.BfAbortKeeps(s, inTotalOrder, providerOk, idle);
    case AborterWakes => A.AborterWakesKeeps(s);
    case AborterUnregisters => A.AborterUnregistersKeeps(s);
    case AborterReplicates(ok, idle) => A.AborterReplicatesKeeps(s, ok, idle);
    case AborterQueues => A.AborterQueuesKeeps(s);
    case AborterMarks(idle) => A.AborterMarksKeeps(s, idle);
  }

  // ---------------------------------------------------------------- all actions

  predicate Enabled(s: Snapshot, act: Action) {
    match act
    case Fragment(f) => FragmentEnabled(s, f)
    case Prepare(p) => PrepareEnabled(s, p)
    case Commit(m) => CommitEnabled(s, m)
    case Rollback(r) => RollbackEnabled(s, r)
    case Statement(e) => StatementEnabled(s, e)
    case Abort(b) => AbortEnabled(s, b)
  }

  predicate Hazard(s: Snapshot, act: Action) {
    match act
    case Fragment(f) => FragmentHazard(s, f)
    case Prepare(p) => PrepareHazard(s, p)
    case Commit(m) => CommitHazard(s, m)
    case Rollback(_) => false
    case Statement(e) => StatementHazard(s, e)
    case Abort(b) => AbortHazard(s, b)
  }

  function Next(s: Snapshot, act: Action): Snapshot {
    match act
    case Fragment(f) => FragmentNext(s, f)
    case Prepare(p) => PrepareNext(s, p)
    case Commit(m) => CommitNext(s, m)
    case Rollback(r) => RollbackNext(s, r)
    case Statement(e) => StatementNext(s, e)
    case Abort(b) => AbortNext(s, b)
  }

  predicate IsFlush(act: Action) {
    (act.Fragment? && act.f.FlushForFragment?) || (act.Prepare? && act.p.FlushForCommit?)
  }

  predicate IsBfAbort(act: Action) { act.Abort? && act.b.BfAbort? }

  /** Away from the hazards a step keeps the invariant and what lasts, ... */
  lemma NextKeeps(s: Snapshot, act: Action)
    requires s.Inv() && Enabled(s, act) && !Hazard(s, act)
    ensures Next(s, act).Inv() && StaysAnnounced(s, Next(s, act))
    ensures !IsFlush(act) ==> StaysUnflushed(s, Next(s, act))
    ensures !IsBfAbort(act) ==> Next(s, act).lostMark == s.lostMark
  {
    match act
    case Fragment(f) => FragmentNextKeeps(s, f);
    case Prepare(p) => PrepareNextKeeps(s, p);
    case Commit(m) => CommitNextKeeps(s, m);
    case Rollback(r) => RollbackNextKeeps(s, r);
    case Statement(e) => StatementNextKeeps(s, e);
    case Abort(b) => AbortNextKeeps(s, b);
  }

  /** ... and every hazard does fail an assertion of the source. */
  lemma HazardFails(s: Snapshot, act: Action)
    requires s.Inv() && Enabled(s, act) && Hazard(s, act)
    ensures Next(s, act).assertionFailed
  {
    match act
    case Fragment(f) => FragmentHazardFails(s, f);
    case Prepare(p) => PrepareHazardFails(s, p);
    case Commit(m) => CommitHazardFails(s, m);
    case Statement(e) => StatementHazardFails(s, e);
    case Abort(b) => A.AborterUnregistersFails(s);
  }

  lemma FragmentHazardFails(s: Snapshot, f: FragmentAction)
    requires FragmentHazard(s, f)
    ensures FragmentNext(s, f).assertionFailed
  {
    match f
    case FlushForFragment(_) =>
    case PrepareFragment(_) =>
  }

  lemma PrepareHazardFails(s: Snapshot, p: PrepareAction)
    requires PrepareHazard(s, p)
    ensures PrepareNext(s, p).assertionFailed
  {
    match p
    case FlushForCommit(_) =>
    case LockAfterCertify =>
    case RemoveFragments(_) =>
  }

  lemma CommitHazardFails(s: Snapshot, m: CommitAction)
    requires CommitHazard(s, m)
    ensures CommitNext(s, m).assertionFailed
  {
    match m
    case AfterCommit(_) =>
    case StopAfterCommit(_) =>
  }

  lemma StatementHazardFails(s: Snapshot, e: StatementAction)
    requires StatementHazard(s, e)
    ensures StatementNext(s, e).assertionFailed
  {
    assert R.AfterStatement(s, e.inconsistent) == R.EndStatement(s, e.inconsistent);
  }

  lemma KeptOrFailed(s: Snapshot, act: Action)
    requires s.Inv() && Enabled(s, act)
    ensures Next(s, act).assertionFailed <==> Hazard(s, act)
    ensures !Hazard(s, act) ==> Next(s, act).Inv()
  {
    if Hazard(s, act) { HazardFails(s, act); } else { NextKeeps(s, act); }
  }

  // ---------------------------------------------------------------- runs

  /** The steps taken since the start, the latest outermost. */
  datatype Run = Start | Step(before: Run, act: Action)

  /** The transaction at the end of a run. */
  function StateAfter(run: Run): Snapshot {
    match run
    case Start => Started()
    case Step(before, act) => Next(StateAfter(before), act)
  }

  /** Each step is enabled where it is taken, and a failed assertion ends the run. */
  predicate Legal(run: Run) {
    run.Step? ==>
      Legal(run.before) && !StateAfter(run.before).assertionFailed && Enabled(StateAfter(run.before), run.act)
  }

  /** The last step of the run is one of the hazards. */
  predicate EndsInHazard(run: Run) { run.Step? && Hazard(StateAfter(run.before), run.act) }

  /** An assertion of the source fails in a run exactly when its last step is a hazard; in every other
      run the invariant holds. */
  lemma {:induction false} InvariantAfter(run: Run)
    requires Legal(run)
    ensures StateAfter(run).assertionFailed <==> EndsInHazard(run)
    ensures !EndsInHazard(run) ==> StateAfter(run).Inv()
  {
    if run.Step? {
      InvariantAfter(run.before);
      KeptOrFailed(StateAfter(run.before), run.act);
    } else {
      StartedKeeps();
    }
  }

  lemma StartedKeeps()
    ensures Started().Inv()
  {
  }
}
