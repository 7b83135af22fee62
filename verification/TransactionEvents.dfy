/** The vocabulary of the transaction model: flag words, provider answers, the event log
    of one transaction, and the program points at which a thread has let go of the lock. */
module TransactionEvents {
  import opened TransactionStates

  // ---------------------------------------------------------------- flags

  /** The bits of provider::flag. */
  datatype Flags = Flags(
    start: bool, commit: bool, rollback: bool, isolation: bool, paUnsafe: bool,
    commutative: bool, native: bool, prepare: bool, snapshot: bool, implicitDeps: bool)

  const NO_FLAGS := Flags(false, false, false, false, false, false, false, false, false, false)

  // ---------------------------------------------------------------- the wire

  /** What the rest of the cluster gets to know of the transaction. */
  datatype WireEvent =
    | FragmentSent(flags: Flags)    // a fragment passed certification
    | FragmentRefused               // a fragment failed certification, yet counts as certified
    | CommitSent(flags: Flags)      // the commit write set passed certification
    | RollbackSent                  // the rollback was replicated, or queued for replication

  /** Events in order, the latest outermost. */
  datatype WireLog = Silence | Then(before: WireLog, last: WireEvent)

  /** How far the write sets of one transaction have got, as every receiver sees them. */
  datatype Wire =
    | Fresh       // nothing replicated
    | Refused     // nothing replicated, but a fragment failed certification
    | Open        // start fragment replicated, commit or rollback to come
    | Shut        // complete
    | Broken      // outside the protocol

  /** The protocol on the wire: `start|commit`, or `start (0|pa_unsafe)* (commit|pa_unsafe, or rollback)?`,
      or a lone rollback after a refused fragment. */
  function WireNext(w: Wire, e: WireEvent): Wire {
    match e
    case FragmentSent(f) =>
      if (w.Fresh? || w.Refused?) && f.start && !f.commit && !f.rollback then Open
      else if w.Open? && f.(paUnsafe := false) == NO_FLAGS then Open
      else Broken
    case FragmentRefused => if w.Fresh? then Refused else w
    case CommitSent(f) =>
      if !f.commit || f.rollback || f.prepare then Broken
      else if (w.Fresh? && f.start) || (w.Open? && !f.start && f.paUnsafe) then Shut
      else Broken
    case RollbackSent => if w.Open? || w.Refused? then Shut else Broken
  }

  function WireOf(log: WireLog): Wire {
    match log
    case Silence => Fresh
    case Then(before, last) => WireNext(WireOf(before), last)
  }

  /** How often something has happened. */
  datatype Times = Never | Once | More

  function Again(n: Times): Times { if n.Never? then Once else More }

  // ---------------------------------------------------------------- answers of provider and DBMS

  datatype CertStatus =
    | Success | Warning | Missing | CertificationFailed | BfAbort | SizeExceeded
    | ConnectionFailed | ProviderFailed | Fatal | NotImplemented | NotAllowed | Unknown

  /** Between the flush and the storage service scope of certify_fragment(). */
  datatype Data = PrepareFails | NoData | AppendFails | DataReady

  /** The storage service scope.  `passed`: the write set passed certification,
      which the provider may hide behind an error status. */
  datatype FragmentResult = StorageFails | Certified(status: CertStatus, passed: bool, storedAndReleased: bool)

  /** Statuses after which certify_fragment() counts the fragment as certified. */
  predicate Counts(status: CertStatus) { status.Success? || status.BfAbort? || status.CertificationFailed? }

  predicate FragmentResultPossible(res: FragmentResult) {
    res.Certified? ==> (res.status.Success? ==> res.passed) && (res.passed ==> Counts(res.status))
  }

  /** client_service::statement_allowed_for_streaming() and remove_fragments(). */
  datatype Removal = StatementNotAllowed | RemovalFails | Removed

  datatype CommitResult = DataFails | Answer(status: CertStatus, ordered: bool)

  predicate CommitResultPossible(res: CommitResult) {
    res.Answer? ==> (res.status.Success? ==> res.ordered) && (res.status.Warning? ==> !res.ordered)
  }

  /** Statuses on which certify_commit() sets must_abort without looking at the state. */
  predicate Unguarded(status: CertStatus) {
    || status.Warning? || status.Missing? || status.SizeExceeded? || status.Fatal?
    || status.NotImplemented? || status.NotAllowed? || status.Unknown?
  }

  /** client_service::replay().  `ReplayedHere`: the replayer drove this client state
      through the commit hooks in high priority mode. */
  datatype ReplayResult = ReplayedHere | ReplayedElsewhere | ReplayCertFailed

  // ---------------------------------------------------------------- threads

  /** The thread that owns the client state, client or background rollbacker, and the aborter. */
  datatype Thread = Owner | Aborter

  /** Who called streaming_rollback(). */
  datatype Site =
    | InHook(nested: bool)    // before_rollback(); nested: called from after_statement()
    | FragmentFailed | FragmentAborted   // certify_fragment()
    | InBfAbort

  datatype Phase =
    | Waiting        // on the condition variable
    | Stopping | Converting   // lock dropped, about to leave the client registry
    | Sending        // about to relock and call provider::rollback()
    | Queueing       // lock dropped, about to queue the rollback event
    | Marking        // about to relock and mark the context rolled back

  /** Where a thread stands while it does not hold the lock. */
  datatype Pc =
    | Off | Done     // aborter before and after a successful bf_abort()
    | Ready          // owner between hooks
    | Ended          // owner after cleanup()
    // certify_fragment()
    | FragReplayers | FragFlush | FragData | FragCertify | FragRelock(failed: bool) | FragStop
    // before_prepare(), certify_commit(), before_commit(), after_commit()
    | CommitFragments(twoPhase: bool) | CommitReplayers(twoPhase: bool) | CommitFlush(twoPhase: bool)
    | CommitCertify(twoPhase: bool) | CommitRelock(twoPhase: bool, status: CertStatus)
    | OrderEnter | OrderRelock(entered: bool) | CommitStop
    // rollback hooks; nested: called from after_statement() through bf_rollback()
    | RbCall(nested: bool) | Sr(site: Site, phase: Phase) | RbAfter(nested: bool) | RbFragments(nested: bool) | RbReturn
    // after_statement() and replay()
    | ReplayCall | ReplayStop(ok: bool, wasStreaming: bool) | ReplayLock(ok: bool) | ReplayFragments
    | OrderRelease | HandleRelease

  /** The parameters of the places that have them. */
  function TwoPhase(pc: Pc): bool {
    match pc
    case CommitFragments(twoPhase) => twoPhase
    case CommitReplayers(twoPhase) => twoPhase
    case CommitFlush(twoPhase) => twoPhase
    case CommitCertify(twoPhase) => twoPhase
    case CommitRelock(twoPhase, _) => twoPhase
    case _ => false
  }

  function StatusOf(pc: Pc): CertStatus { if pc.CommitRelock? then pc.status else Unknown }

  function Nested(pc: Pc): bool {
    match pc
    case RbCall(nested) => nested
    case RbAfter(nested) => nested
    case RbFragments(nested) => nested
    case Sr(InHook(nested), _) => nested
    case _ => false
  }

  /** Where a thread is inside streaming_rollback(). */
  predicate Waits(pc: Pc) { pc.Sr? && pc.phase.Waiting? }

  predicate Stops(pc: Pc) { pc.Sr? && pc.phase.Stopping? }

  predicate Converts(pc: Pc) { pc.Sr? && pc.phase.Converting? }

  predicate Sends(pc: Pc) { pc.Sr? && pc.phase.Sending? }

  predicate Queues(pc: Pc) { pc.Sr? && pc.phase.Queueing? }

  predicate Marks(pc: Pc) { pc.Sr? && pc.phase.Marking? }

  predicate Busy(pc: Pc) { pc.Sr? && !pc.phase.Waiting? }

  /** Has left the client registry in streaming_rollback() and not yet marked the context. */
  predicate Unregistered(pc: Pc) { pc.Sr? && (pc.phase.Sending? || pc.phase.Queueing? || pc.phase.Marking?) }

  /** Has become an applier and not yet announced the rollback. */
  predicate Announcing(pc: Pc) { pc.Sr? && (pc.phase.Sending? || pc.phase.Queueing?) }

  /** After replay and before the next look at the transaction state. */
  predicate Replayed(pc: Pc) { pc.ReplayStop? || pc.ReplayLock? }

  /** Between the entry into certifying and the next look at the transaction state. */
  predicate InCertify(pc: Pc) {
    || pc.FragFlush? || pc.FragData? || pc.FragCertify? || pc.FragRelock? || pc.FragStop?
    || pc.CommitFlush? || pc.CommitCertify? || pc.CommitRelock?
  }
}
