/** One local, non-XA transaction as a value, and the invariant that every step keeps. */
module TransactionSnapshot {
  import opened TransactionStates
  import opened TransactionEvents

  datatype Snapshot = Snapshot(
    // transaction
    st: TxState,
    past: History,
    active: bool,
    bfAborted: bool,
    totalOrder: bool,        // bf_aborted_in_total_order_
    certified: bool,
    ordered: bool,           // ws_meta_ has a seqno
    immutable: bool,         // is_bf_immutable_
    flags: Flags,
    implicitDeps: bool,      // implicit_deps_
    error: bool,             // client_state: current_error() is not e_success
    fragments: nat,          // streaming_context: fragments_certified_
    rolledBack: bool,        // streaming_context: rollback_replicated_for_ is set
    rollingBack: bool,       // streaming_rollback_in_progress_
    // server registry and provider
    registered: bool,        // in streaming_clients_
    inOrder: bool,           // let into commit order by commit_order_enter()
    // threads
    c: Pc,                   // owner
    a: Pc,                   // aborter
    // observation: calls made and things that happened, never reset
    nJoins: Times,           // start_streaming_client()
    nExits: Times,           // stop_streaming_client() or conversion
    nConversions: Times,     // convert_streaming_client_to_applier()
    nRollbacks: Times,       // rollbacks replicated or queued
    nSent: Times,            // fragments that passed certification
    nCommits: Times,         // commit write sets that passed certification
    nEntries: Times,         // successful commit_order_enter()
    nDepartures: Times,      // commit_order_leave()
    wasStreaming: bool,      // some fragment has counted as certified
    wasOrdered: bool,
    wasBf: bool,             // BF aborted
    wasBfInTotalOrder: bool,
    wasBfAfterCommit: bool,  // BF aborted after the commit write set had passed certification
    wasBfReported: bool,     // certification of the commit write set answered with a BF abort
    wasRefused: bool,        // replay reported failed certification
    flushed: bool,           // a flush of the rollback queue succeeded since the last certify()
    unflushed: bool,         // some certify() had no flush of its own
    lateDeps: bool,          // a fragment after the first was sent with implicit_deps
    sent: WireLog,
    wire: Wire,              // how far `sent` has got
    fromPreparing: bool,     // the DBMS rolled back a transaction it had prepared
    removed: bool,           // fragments removed from storage by after_rollback() or after replay
    lostMark: bool,          // a refused total order abort took back the mark while it was relied on
    stale: bool,             // the streaming context was cleaned under a waiting aborter
    assertionFailed: bool)
  {
    // -------------------------------------------------------------- updates

    /** The history once the state is `next`, by one call of transaction::state() or by none. */
    function PastTo(next: TxState): History { if next == st then past else After(past, st) }

    /** Whether the matrix lets the state become `next`, or stay. */
    predicate MayBecome(next: TxState) { next == st || Allowed(st, next) }

    /** How streaming_rollback() takes the client out of the registry. */
    function Way(): Phase { if totalOrder then Stopping else Converting }

    /** transaction::cleanup() of a transaction in state `last`. */
    function CleanedUp(last: TxState): Snapshot {
      this.(
        st := last, past := PastTo(last), fragments := 0, rolledBack := false, active := false, bfAborted := false,
        totalOrder := false, ordered := false, flags := NO_FLAGS, implicitDeps := false, certified := false,
        immutable := false, inOrder := false, c := Ended,
        assertionFailed := assertionFailed || !MayBecome(last) || !(last.Committed? || last.Aborted?))
    }

    predicate Streaming() { fragments > 0 }

    /** streaming_rollback() has gone the way of a total order abort: the client leaves the registry
        without becoming an applier, and it is up to after_rollback() to remove the fragments. */
    predicate ReliesOnMark() { Relies(st, c, a, rolledBack, nConversions) }

    static predicate Relies(st: TxState, c: Pc, a: Pc, rolledBack: bool, nConversions: Times) {
      && !st.Aborted? && !c.RbFragments?
      && (Stops(c) || Stops(a)
          || ((Unregistered(c) || Unregistered(a) || rolledBack) && nConversions.Never?))
    }

    predicate CommitWasSent() { !nCommits.Never? }

    // -------------------------------------------------------------- invariant: control

    /** Where the owner can be, and in which transaction states. */
    ghost predicate OwnerPlace() {
      && !c.Off? && !c.Done? && active == !c.Ended?
      && (c.Ready? ==> !st.Prepared? && !st.Certifying? && !st.Aborting? && !st.Replaying?)
      && (c.FragReplayers? || c.CommitFragments? || c.CommitReplayers? ==> st.Executing? || st.MustAbort?)
      && (c.CommitFragments? || c.CommitStop? || c.Sr? || c.RbFragments? || c.ReplayFragments? ==> fragments > 0)
      && (InCertify(c) ==> st.Certifying? || st.MustAbort?)
      && (c.OrderEnter? ==> certified && !inOrder && (st.Committing? || (st.MustAbort? && bfAborted)))
      && (c.OrderRelock? ==> certified && inOrder == c.entered && (st.Committing? || (st.MustAbort? && !c.entered)))
      && (c.CommitStop? ==> st.OrderedCommit?)
      && (c == RbCall(true) ==> st.MustAbort? || st.CertFailed?)
      && (c == RbCall(false) ==> st.Aborting?)
      && (c.RbAfter? || c.RbFragments? ==> st.Aborting? || st.MustReplay?)
      && (c.RbReturn? ==> st.Aborted? || st.MustReplay?)
      && (c.ReplayCall? || c.ReplayFragments? ==> st.Replaying?)
      && (Replayed(c) ==> st.Replaying? || (c.ok && st.Committed? && fragments == 0))
      && (c.ReplayStop? && fragments > 0 ==> c.wasStreaming)
      && (c.OrderRelease? || c.HandleRelease? ==> st.Aborted?)
      && (c.OrderRelease? ==> ordered)
      && (Busy(c) ==> !rolledBack)
      && (c.Sr? ==> !c.site.InBfAbort?)
      && (c.Sr? && c.site.InHook? ==>
          (st.Executing? || st.MustAbort? || st.CertFailed?) && (certified ==> fromPreparing))
      && (Waits(c) ==> c.site.InHook? && (Busy(a) || rolledBack) && st.MustAbort?)
      && (c.Sr? && c.site.FragmentFailed? ==> (st.Certifying? || st.MustAbort?) && !certified)
      && (c.Sr? && c.site.FragmentAborted? ==> st.MustAbort? && !certified)
    }

    /** streaming_rollback() runs in one thread at a time. */
    ghost predicate OneRollback() {
      && (a.Off? || a.Done? || (a.Sr? && a.site.InBfAbort?))
      && rollingBack == (Busy(c) || Busy(a))
      && !(Busy(c) && Busy(a))
      && (rolledBack ==>
          fragments > 0 && (st.MustAbort? || st.Aborting?) && (certified ==> fromPreparing && st.Aborting?))
      && (rolledBack || a.Sr? ==> !InCertify(c))
      && (a.Sr? && !stale ==>
          && active && fragments > 0
          && (Busy(a) ==> st.MustAbort? && !rolledBack && !certified)
          && (!Busy(a) ==>
              || (Busy(c) && c.site.InHook? && st.MustAbort? && !certified)
              || (rolledBack && st.Aborting? && (c.RbAfter? || c.RbFragments?))))
      && (stale ==> a.Sr? && !Unregistered(a) && st.Aborted? && !Busy(c))
      && (st.Aborting? && fragments > 0 ==> rolledBack)
      && (st.Aborted? || st.Committed? ==> fragments == 0)
    }

    /** Points before the commit write set has been sent for certification. */
    static predicate BeforeCommitSet(c: Pc, st: TxState) {
      || st.Executing?
      || c.FragFlush? || c.FragData? || c.FragCertify? || c.FragRelock? || c.FragStop?
      || c.CommitFragments? || c.CommitFlush? || c.CommitCertify?
    }

    ghost predicate Certification() {
      && (certified ==> ordered && active)
      && (ordered || totalOrder ==> active)
      && (st.Preparing? || st.Committing? || st.OrderedCommit? ==> certified)
      && (st.CertFailed? || st.Certifying? || st.Executing? ==> !certified)
      && (BeforeCommitSet(c, st) ==> !certified && !ordered)
      && (c.CommitRelock? ==> !certified && (c.status.Success? ==> ordered) && (c.status.Warning? ==> !ordered))
      && (bfAborted ==>
          && active && !a.Off?
          && (st.MustAbort? || st.CertFailed? || st.Aborting? || st.Aborted? || st.MustReplay?
              || st.Replaying? || st.Committed?))
      && (totalOrder ==> bfAborted)
      && (fromPreparing ==>
          && (st.MustAbort? || st.Aborting? || st.Aborted?)
          && (st.MustAbort? ==> c.Sr? && c.site.InHook?))
      && (st.MustReplay? || st.Replaying? ==> !a.Sr?)
      && (!active ==> st.Committed? || st.Aborted?)
      && (active && !a.Off? ==> bfAborted)
    }

    ghost predicate Order() {
      && (immutable ==> active && (st.Committing? || st.OrderedCommit? || st.Committed?))
      && (immutable && !Replayed(c) ==> inOrder)
      && (st.OrderedCommit? ==> immutable)
      && (inOrder ==> !bfAborted && (st.Committing? || st.OrderedCommit? || st.Committed?))
      && (inOrder && st.Committing? ==> immutable || c == OrderRelock(true))
      && (active && st.Committed? ==> (inOrder && immutable) || Replayed(c))
      && (Replayed(c) ==> !inOrder)
    }

    /** Places where the registry does not follow the streaming context. */
    static predicate RegistryDiffers(c: Pc, a: Pc) {
      || Unregistered(c) || Unregistered(a) || c.FragCertify? || c.FragRelock? || c.FragStop?
      || c.ReplayStop? || c.ReplayLock? || c.ReplayFragments?
    }

    ghost predicate Registry() {
      && (Unregistered(c) || Unregistered(a) || c.ReplayLock? || c.ReplayFragments? ==> !registered)
      && (c.FragCertify? || c.FragRelock? || c.FragStop? ==> registered)
      && (c.ReplayStop? ==> registered == c.wasStreaming)
      && (!RegistryDiffers(c, a) ==> registered == (fragments > 0 && !rolledBack))
      && (c == FragRelock(false) ==> fragments > 0)
      && (c.FragStop? ==> fragments == 0)
    }

    // -------------------------------------------------------------- invariant: books

    ghost predicate Recorded() {
      WireOf(sent) == wire && LegalHistory(past, st)
    }

    ghost predicate Certificates() {
      && (active ==> wasOrdered == ordered && wasBf == bfAborted && (totalOrder ==> wasBfInTotalOrder))
      && (a.Off? ==> !wasBf)
      && !nCommits.More?
      && (c.CommitRelock? ==> nCommits.Never? == !c.status.Success?)
      && (Replayed(c) && c.ok ==> !nCommits.Never?)
      && (active && !c.CommitRelock? && !(Replayed(c) && c.ok) ==> nCommits.Never? == !certified)
      && (st.Committed? || fromPreparing ==> !nCommits.Never?)
      && !unflushed
      && (c.FragData? || c.FragCertify? || c.CommitCertify? ==> flushed)
    }

    /** A transaction BF aborted after its commit was certified can only be replayed. */
    ghost predicate Fate() {
      && (wasBfAfterCommit ==>
          && wasBf && !nCommits.Never? && !fromPreparing
          && (st.MustAbort? || st.MustReplay? || st.Replaying? || st.Committed? || st.Aborted?)
          && (st.Aborted? ==> wasRefused)
          && (st.Committed? || st.Aborted? ==> Visited(past, Replaying)))
      && (wasBfReported && c.CommitRelock? ==> c.status.BfAbort?)
      && (wasBfReported && !c.CommitRelock? ==>
          && (st.MustReplay? || st.Replaying? || st.Committed? || (st.Aborted? && wasRefused))
          && (st.Committed? || st.Aborted? ==> Visited(past, Replaying)))
      && (st.Replaying? || Visited(past, Replaying) ==> Visited(past, MustReplay))
      && (Visited(past, Replaying) ==> st.Committed? || st.Aborted?)
      && (wasRefused ==> (st.Aborted? && Visited(past, Replaying)) || (st.Replaying? && !c.ReplayCall?))
      && (Replayed(c) ==> wasRefused == !c.ok && (st.Committed? ==> Visited(past, Replaying)))
      && (c.ReplayFragments? ==> wasRefused)
    }

    /** Commit order entries and departures. */
    ghost predicate OrderBook() {
      && (inOrder ==> nEntries.Once? && nDepartures == if st.Committing? then Never else Once)
      && (!inOrder ==> nEntries == nDepartures && !nEntries.More?)
      && (active && !inOrder && !c.HandleRelease? && !Replayed(c) ==> nEntries.Never?)
      && (Replayed(c) ==> nEntries == (if c.ok then Once else Never))
      && (active && c.HandleRelease? ==> nEntries == if ordered then Once else Never)
      && (!active && wasOrdered ==> nEntries.Once?)
    }

    /** Registry membership, conversion to an applier, and rollback events. */
    ghost predicate StreamBook() {
      && !nJoins.More?
      && (registered ==> nJoins.Once? && nExits.Never?)
      && (!registered ==> nJoins == nExits)
      && (fragments == 0 && (st.Executing? || c.FragFlush? || c.FragData?) ==> nJoins.Never?)
      && (nExits.Never? ==> nConversions.Never?) && !nConversions.More?
      && (Announcing(c) || Announcing(a) ==> nConversions.Once? && nRollbacks.Never?)
      && (!Announcing(c) && !Announcing(a) ==> nConversions == nRollbacks)
      && (Unregistered(c) || Unregistered(a) || rolledBack ==>
          nExits.Once? && (nConversions.Once? || wasBfInTotalOrder))
      && (c.Sr? && c.phase.Stopping? ==> wasBfInTotalOrder)
      && (a.Sr? && a.phase.Stopping? ==> wasBfInTotalOrder)
      && (active && !st.Aborted? && !st.Committed? ==> (fragments > 0) == wasStreaming)
      && (st.Aborted? && wasStreaming ==> nExits.Once? && (nConversions.Once? || wasBfInTotalOrder || wasRefused))
      && (wasRefused ==> nConversions.Never?)
      && (c.ReplayStop? ==> c.wasStreaming == wasStreaming)
      && ((c.ReplayLock? || c.ReplayFragments?) && wasStreaming ==> nExits.Once?)
      && (nConversions.Once? ==> rolledBack || Unregistered(c) || Unregistered(a) || st.Aborted?)
    }

    /** What becomes of the fragments of a transaction that is rolled back. */
    ghost predicate RemovalBook() {
      && (Relies(st, c, a, rolledBack, nConversions) ==> bfAborted && totalOrder == !lostMark)
      && (lostMark ==> Relies(st, c, a, rolledBack, nConversions) || st.Aborted?)
      && (removed ==> st.MustReplay? || st.Replaying? || st.Committed? || st.Aborted?)
      && (st.Aborted? && wasStreaming ==> (nRollbacks.Never? && !removed <==> lostMark))
    }

    static predicate PlainFlags(f: Flags) {
      !f.rollback && !f.isolation && !f.commutative && !f.native && !f.prepare && !f.snapshot
    }

    /** Points from which a write set can still be sent. */
    static predicate CanSend(active: bool, c: Pc, st: TxState, nCommits: Times) {
      && active && nCommits.Never? && !Busy(c)
      && (st.Executing? || st.MustReplay? || st.Replaying?
          || c.FragFlush? || c.FragData? || c.FragCertify? || c.CommitFlush? || c.CommitCertify? || c.CommitRelock?)
    }

    /** Points from which the next write set sent is the commit. */
    static predicate CommitIsDue(c: Pc, st: TxState, nCommits: Times) {
      c.CommitCertify? || c.CommitRelock? || ((st.MustReplay? || st.Replaying?) && nCommits.Never?)
    }

    /** The two ways out of the wire protocol. */
    ghost predicate OutOfProtocol() {
      lateDeps || (fromPreparing && !nRollbacks.Never?)
    }

    ghost predicate WireBook() {
      && PlainFlags(flags)
      && (st.Executing? || c.FragFlush? || c.FragData? || c.FragCertify? || c.CommitFlush? ==> !flags.commit)
      && (CommitIsDue(c, st, nCommits) ==> flags.commit && (fragments > 0 ==> flags.paUnsafe))
      && (CanSend(active, c, st, nCommits) ==> flags.start == (fragments == 0) && nSent.Never? == (fragments == 0))
      && (c.FragRelock? && !c.failed ==> !flags.commit && !nSent.Never?)
      && (wire.Broken? <==> OutOfProtocol())
      && (!wire.Broken? && (!nCommits.Never? || !nRollbacks.Never?) ==> wire.Shut?)
      && (!wire.Broken? && nCommits.Never? && nRollbacks.Never? ==>
          wire == if !nSent.Never? then Open else if wasStreaming then Refused else Fresh)
    }

    ghost predicate Control() {
      !assertionFailed && OwnerPlace() && OneRollback() && Certification() && Order() && Registry()
    }

    ghost predicate Books() {
      Certificates() && Fate() && OrderBook() && Recorded()
    }

    ghost predicate Streams() {
      StreamBook() && RemovalBook() && WireBook()
    }

    /** Holds whenever the lock is free and no assertion has failed. */
    ghost predicate Inv() {
      Control() && Books() && Streams()
    }
  }

  /** A rollback that has been announced stays announced, ... */
  predicate StaysAnnounced(s: Snapshot, r: Snapshot) { !s.nRollbacks.Never? ==> !r.nRollbacks.Never? }

  /** ... no step but a flush makes up for one, ... */
  predicate StaysUnflushed(s: Snapshot, r: Snapshot) { StaysAnnounced(s, r) && (r.flushed ==> s.flushed) }

  /** ... and no step but a refused abort loses the mark. */
  predicate Lasts(s: Snapshot, r: Snapshot) { StaysUnflushed(s, r) && r.lostMark == s.lostMark }

  /** What every step from `s` to `r` keeps. */
  ghost predicate Kept(s: Snapshot, r: Snapshot) { r.Inv() && Lasts(s, r) }

  predicate LastsInFlush(s: Snapshot, r: Snapshot) { StaysAnnounced(s, r) && r.lostMark == s.lostMark }

  ghost predicate KeptByFlush(s: Snapshot, r: Snapshot) { r.Inv() && LastsInFlush(s, r) }

  ghost predicate KeptByAbort(s: Snapshot, r: Snapshot) { r.Inv() && StaysUnflushed(s, r) }

  /** A transaction just started by a local client. */
  function Started(): Snapshot {
    Snapshot(
      Executing, NoPast, true, false, false, false, false, false, NO_FLAGS.(start := true), false, false,
      0, false, false,
      false, false, Ready, Off,
      Never, Never, Never, Never, Never, Never, Never, Never,
      false, false, false, false, false, false, false, false, false, false,
      Silence, Fresh, false, false, false, false, false)
  }
}
