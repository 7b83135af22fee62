/** The steps of certify_fragment(), and the proof that each keeps the invariant.

    Two threads at a time share the client mutex: the owner of the client state, which is
    the client thread or the background rollbacker, and a BF aborter.  A step is one stretch
    of a hook that runs without the lock being handed over.  Answers of the provider and of
    the DBMS are parameters.

    An assertion of the source that does not hold sets `assertionFailed`, which ends the run.
    Every call of transaction::state() asserts the matrix. */
module FragmentSteps {
  import opened TransactionStates
  import opened TransactionEvents
  import opened TransactionSnapshot

  // ---------------------------------------------------------------- what the DBMS may set between hooks

  /** pa_unsafe(bool): the DBMS rules on parallel applying.  The flags of a write set that awaits
      replay are with the provider already. */
  function SetPaUnsafe(s: Snapshot, unsafe: bool): Snapshot {
    s.(flags := s.flags.(paUnsafe := if s.st.MustReplay? then s.flags.paUnsafe else unsafe))
  }

  lemma SetPaUnsafeKeeps(s: Snapshot, unsafe: bool)
    requires s.Inv() && s.c.Ready?
    ensures Kept(s, SetPaUnsafe(s, unsafe))
  {
    SetPaUnsafeKeepsControl(s, unsafe);
    SetPaUnsafeKeepsBooks(s, unsafe);
    SetPaUnsafeKeepsStreams(s, unsafe);
  }

  lemma SetPaUnsafeKeepsControl(s: Snapshot, unsafe: bool)
    requires s.Control() && s.c.Ready?
    ensures SetPaUnsafe(s, unsafe).Control()
  {
  }

  lemma SetPaUnsafeKeepsBooks(s: Snapshot, unsafe: bool)
    requires s.Control() && s.Books() && s.c.Ready?
    ensures SetPaUnsafe(s, unsafe).Books() && Lasts(s, SetPaUnsafe(s, unsafe))
  {
  }

  lemma SetPaUnsafeKeepsStreams(s: Snapshot, unsafe: bool)
    requires s.Control() && s.Certificates() && s.Streams() && s.c.Ready?
    ensures SetPaUnsafe(s, unsafe).Streams()
  {
  }

  /** implicit_deps(bool). */
  function SetImplicitDeps(s: Snapshot, implicit: bool): Snapshot { s.(implicitDeps := implicit) }

  lemma SetImplicitDepsKeeps(s: Snapshot, implicit: bool)
    requires s.Inv() && s.c.Ready?
    ensures Kept(s, SetImplicitDeps(s, implicit))
  {
    SetImplicitDepsKeepsControl(s, implicit);
    SetImplicitDepsKeepsBooks(s, implicit);
    SetImplicitDepsKeepsStreams(s, implicit);
  }

  lemma SetImplicitDepsKeepsControl(s: Snapshot, implicit: bool)
    requires s.Control() && s.c.Ready?
    ensures SetImplicitDeps(s, implicit).Control()
  {
  }

  lemma SetImplicitDepsKeepsBooks(s: Snapshot, implicit: bool)
    requires s.Control() && s.Books() && s.c.Ready?
    ensures SetImplicitDeps(s, implicit).Books() && Lasts(s, SetImplicitDeps(s, implicit))
  {
  }

  lemma SetImplicitDepsKeepsStreams(s: Snapshot, implicit: bool)
    requires s.Control() && s.Certificates() && s.Streams() && s.c.Ready?
    ensures SetImplicitDeps(s, implicit).Streams()
  {
  }

  /** client_state::reset_error(). */
  function ResetError(s: Snapshot): Snapshot { s.(error := false) }

  lemma ResetErrorKeeps(s: Snapshot)
    requires s.Inv() && s.c.Ready?
    ensures Kept(s, ResetError(s))
  {
    ResetErrorKeepsControl(s);
    ResetErrorKeepsBooks(s);
    ResetErrorKeepsStreams(s);
  }

  lemma ResetErrorKeepsControl(s: Snapshot)
    requires s.Control() && s.c.Ready?
    ensures ResetError(s).Control()
  {
  }

  lemma ResetErrorKeepsBooks(s: Snapshot)
    requires s.Control() && s.Books() && s.c.Ready?
    ensures ResetError(s).Books() && Lasts(s, ResetError(s))
  {
  }

  lemma ResetErrorKeepsStreams(s: Snapshot)
    requires s.Control() && s.Certificates() && s.Streams() && s.c.Ready?
    ensures ResetError(s).Streams()
  {
  }

  // ---------------------------------------------------------------- certify_fragment()

  /** streaming_step() has decided to replicate a fragment: from after_row(), or from
      after_statement() in statement units.  A step from after_row() that decides otherwise
      changes nothing here. */
  function Row(s: Snapshot): Snapshot {
    s.(c := FragReplayers, assertionFailed := s.assertionFailed || (s.rolledBack && !s.st.MustAbort?))
  }

  lemma RowKeeps(s: Snapshot)
    requires s.Inv() && s.c.Ready? && (s.st.Executing? || s.st.MustAbort?)
    ensures Kept(s, Row(s))
  {
    RowKeepsControl(s);
    RowKeepsBooks(s);
    RowKeepsStreams(s);
  }

  lemma RowKeepsControl(s: Snapshot)
    requires s.Control() && s.c.Ready? && (s.st.Executing? || s.st.MustAbort?)
    ensures Row(s).Control()
  {
  }

  lemma RowKeepsBooks(s: Snapshot)
    requires s.Control() && s.Books() && s.c.Ready? && (s.st.Executing? || s.st.MustAbort?)
    ensures Row(s).Books() && Lasts(s, Row(s))
  {
  }

  lemma RowKeepsStreams(s: Snapshot)
    requires s.Control() && s.Certificates() && s.Streams() && s.c.Ready? && (s.st.Executing? || s.st.MustAbort?)
    ensures Row(s).Streams()
  {
  }

  /** After wait_for_replayers(): abort_or_interrupt(), then the entry into certifying. */
  function BeginFragment(s: Snapshot, interrupted: bool): Snapshot {
    var next := if s.st.MustAbort? || interrupted then MustAbort else Certifying;
    s.(st := next, past := s.PastTo(next), error := s.error || next.MustAbort?,
       c := if next.MustAbort? then Ready else FragFlush, assertionFailed := s.assertionFailed || !s.MayBecome(next))
  }

  lemma BeginFragmentKeeps(s: Snapshot, interrupted: bool)
    requires s.Inv() && s.c.FragReplayers?
    ensures Kept(s, BeginFragment(s, interrupted))
  {
    BeginFragmentKeepsControl(s, interrupted);
    BeginFragmentKeepsBooks(s, interrupted);
    BeginFragmentKeepsStreams(s, interrupted);
  }

  lemma BeginFragmentKeepsControl(s: Snapshot, interrupted: bool)
    requires s.Control() && s.c.FragReplayers?
    ensures BeginFragment(s, interrupted).Control()
  {
  }

  lemma BeginFragmentKeepsBooks(s: Snapshot, interrupted: bool)
    requires s.Control() && s.Books() && s.c.FragReplayers?
    ensures BeginFragment(s, interrupted).Books() && Lasts(s, BeginFragment(s, interrupted))
  {
  }

  lemma BeginFragmentKeepsStreams(s: Snapshot, interrupted: bool)
    requires s.Control() && s.Certificates() && s.Streams() && s.c.FragReplayers?
    ensures BeginFragment(s, interrupted).Streams()
  {
  }

  /** send_pending_rollback_events(), without the lock.  A failure sets must_abort without a look at
      the state. */
  function FlushForFragment(s: Snapshot, ok: bool): Snapshot {
    var next := if ok then s.st else MustAbort;
    s.(st := next, past := s.PastTo(next), flushed := s.flushed || ok, c := if ok then FragData else Ready,
       assertionFailed := s.assertionFailed || (!ok && !Allowed(s.st, MustAbort)))
  }

  lemma FlushForFragmentKeeps(s: Snapshot, ok: bool)
    requires s.Inv() && s.c.FragFlush? && (ok || !s.st.MustAbort?)
    ensures KeptByFlush(s, FlushForFragment(s, ok))
  {
    FlushForFragmentKeepsControl(s, ok);
    FlushForFragmentKeepsBooks(s, ok);
    FlushForFragmentKeepsStreams(s, ok);
  }

  lemma FlushForFragmentKeepsControl(s: Snapshot, ok: bool)
    requires s.Control() && s.c.FragFlush? && (ok || !s.st.MustAbort?)
    ensures FlushForFragment(s, ok).Control()
  {
  }

  lemma FlushForFragmentKeepsBooks(s: Snapshot, ok: bool)
    requires s.Control() && s.Books() && s.c.FragFlush? && (ok || !s.st.MustAbort?)
    ensures FlushForFragment(s, ok).Books() && LastsInFlush(s, FlushForFragment(s, ok))
  {
  }

  lemma FlushForFragmentKeepsStreams(s: Snapshot, ok: bool)
    requires s.Control() && s.Certificates() && s.Streams() && s.c.FragFlush? && (ok || !s.st.MustAbort?)
    ensures FlushForFragment(s, ok).Streams()
  {
  }

  /** prepare_fragment_for_replication(), append_data() and the entry of a first fragment into the client
      registry.  Without data, or on failure, the state is set without a look at it. */
  function PrepareFragment(s: Snapshot, data: Data): Snapshot {
    var ready := data.DataReady?;
    var joins := ready && !s.Streaming();
    var next := if ready then s.st else if data.NoData? then Executing else MustAbort;
    s.(st := next, past := s.PastTo(next), error := s.error || data.PrepareFails? || data.AppendFails?,
       registered := s.registered || joins, nJoins := if joins then Again(s.nJoins) else s.nJoins,
       flags := s.flags.(implicitDeps := s.flags.implicitDeps || (ready && s.implicitDeps)),
       c := if ready then FragCertify else Ready,
       assertionFailed := s.assertionFailed || (joins && s.registered) || (!ready && !Allowed(s.st, next)))
  }

  lemma PrepareFragmentKeeps(s: Snapshot, data: Data)
    requires s.Inv() && s.c.FragData? && (data.DataReady? || !s.st.MustAbort?)
    ensures Kept(s, PrepareFragment(s, data))
  {
    PrepareFragmentKeepsControl(s, data);
    PrepareFragmentKeepsBooks(s, data);
    PrepareFragmentKeepsStreams(s, data);
  }

  lemma PrepareFragmentKeepsControl(s: Snapshot, data: Data)
    requires s.Control() && s.c.FragData? && (data.DataReady? || !s.st.MustAbort?)
    ensures PrepareFragment(s, data).Control()
  {
  }

  lemma PrepareFragmentKeepsBooks(s: Snapshot, data: Data)
    requires s.Control() && s.Books() && s.c.FragData? && (data.DataReady? || !s.st.MustAbort?)
    ensures PrepareFragment(s, data).Books() && Lasts(s, PrepareFragment(s, data))
  {
  }

  lemma PrepareFragmentKeepsStreams(s: Snapshot, data: Data)
    requires s.Control() && s.Certificates() && s.Streams() && s.c.FragData? && (data.DataReady? || !s.st.MustAbort?)
    ensures PrepareFragment(s, data).Streams()
  {
  }

  /** The storage service scope, without the lock.  Statuses that hide a write set which passed
      certification count as certified. */
  function CertifyFragment(s: Snapshot, res: FragmentResult): Snapshot {
    var called := res.Certified?;
    var counts := called && Counts(res.status);
    var passed := called && res.passed;
    var event := if passed then FragmentSent(s.flags) else FragmentRefused;
    s.(flushed := s.flushed && !called, unflushed := s.unflushed || (called && !s.flushed),
       sent := if counts then Then(s.sent, event) else s.sent,
       wire := if counts then WireNext(s.wire, event) else s.wire,
       fragments := if counts then s.fragments + 1 else s.fragments, wasStreaming := s.wasStreaming || counts,
       nSent := if passed then Again(s.nSent) else s.nSent,
       lateDeps := s.lateDeps || (passed && !s.nSent.Never? && s.flags.implicitDeps),
       c := FragRelock(!(called && res.status.Success? && res.storedAndReleased)))
  }

  lemma CertifyFragmentKeeps(s: Snapshot, res: FragmentResult)
    requires s.Inv() && s.c.FragCertify? && FragmentResultPossible(res)
    ensures Kept(s, CertifyFragment(s, res))
  {
    CertifyFragmentKeepsControl(s, res);
    CertifyFragmentKeepsBooks(s, res);
    CertifyFragmentKeepsStreams(s, res);
  }

  lemma CertifyFragmentKeepsControl(s: Snapshot, res: FragmentResult)
    requires s.Control() && s.c.FragCertify? && FragmentResultPossible(res)
    ensures CertifyFragment(s, res).Control()
  {
  }

  lemma CertifyFragmentKeepsBooks(s: Snapshot, res: FragmentResult)
    requires s.Control() && s.Books() && s.c.FragCertify? && FragmentResultPossible(res)
    ensures CertifyFragment(s, res).Books() && Lasts(s, CertifyFragment(s, res))
  {
  }

  lemma CertifyFragmentKeepsStreams(s: Snapshot, res: FragmentResult)
    requires s.Control() && s.Certificates() && s.Streams() && s.c.FragCertify? && FragmentResultPossible(res)
    ensures CertifyFragment(s, res).Streams()
  {
  }

  /** The relock after the scope.  A first fragment that was not certified leaves the registry; otherwise a
      failure or a BF abort is followed by streaming_rollback(). */
  function LockAfterFragment(s: Snapshot): Snapshot {
    var failed := s.c == FragRelock(true);
    var rolls := s.Streaming() && (failed || s.st.MustAbort?);
    var done := !failed && !s.st.MustAbort?;
    var next := if done then Executing else s.st;
    s.(st := next, past := s.PastTo(next), rollingBack := s.rollingBack || rolls,
       flags := s.flags.(start := s.flags.start && !done, paUnsafe := s.flags.paUnsafe && !done),
       c := if done then Ready else if !rolls then FragStop
            else Sr(if failed then FragmentFailed else FragmentAborted, s.Way()),
       assertionFailed := s.assertionFailed || !s.MayBecome(next) || (rolls && s.rollingBack))
  }

  lemma LockAfterFragmentKeeps(s: Snapshot)
    requires s.Inv() && s.c.FragRelock?
    ensures Kept(s, LockAfterFragment(s))
  {
    LockAfterFragmentKeepsControl(s);
    LockAfterFragmentKeepsBooks(s);
    LockAfterFragmentKeepsStreams(s);
  }

  lemma LockAfterFragmentKeepsControl(s: Snapshot)
    requires s.Control() && s.c.FragRelock?
    ensures LockAfterFragment(s).Control()
  {
  }

  lemma LockAfterFragmentKeepsBooks(s: Snapshot)
    requires s.Control() && s.Books() && s.c.FragRelock?
    ensures LockAfterFragment(s).Books() && Lasts(s, LockAfterFragment(s))
  {
  }

  lemma LockAfterFragmentKeepsStreams(s: Snapshot)
    requires s.Control() && s.Certificates() && s.Streams() && s.c.FragRelock?
    ensures LockAfterFragment(s).Streams()
  {
  }

  /** stop_streaming_client(), without the lock, then must_abort. */
  function StopAfterFragment(s: Snapshot): Snapshot {
    s.(registered := false, nExits := Again(s.nExits), st := MustAbort, past := s.PastTo(MustAbort), error := true,
       c := Ready, assertionFailed := s.assertionFailed || !s.registered || !s.MayBecome(MustAbort))
  }

  lemma StopAfterFragmentKeeps(s: Snapshot)
    requires s.Inv() && s.c.FragStop?
    ensures Kept(s, StopAfterFragment(s))
  {
    StopAfterFragmentKeepsControl(s);
    StopAfterFragmentKeepsBooks(s);
    StopAfterFragmentKeepsStreams(s);
  }

  lemma StopAfterFragmentKeepsControl(s: Snapshot)
    requires s.Control() && s.c.FragStop?
    ensures StopAfterFragment(s).Control()
  {
  }

  lemma StopAfterFragmentKeepsBooks(s: Snapshot)
    requires s.Control() && s.Books() && s.c.FragStop?
    ensures StopAfterFragment(s).Books() && Lasts(s, StopAfterFragment(s))
  {
  }

  lemma StopAfterFragmentKeepsStreams(s: Snapshot)
    requires s.Control() && s.Certificates() && s.Streams() && s.c.FragStop?
    ensures StopAfterFragment(s).Streams()
  {
  }
}
