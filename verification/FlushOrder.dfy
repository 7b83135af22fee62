/** Any number of transactions of one server and its queue of rollback events: flushes, queued
    rollbacks and certifications in any interleaving. */
module FlushOrder {
  import opened TransactionStates
  import opened TransactionEvents
  import opened TransactionSnapshot
  import opened TransactionRuns
  import F = FragmentSteps
  import C = CommitSteps
  import R = RollbackSteps
  import A = AbortSteps
  import opened RollbackQueue

  /** The steps that call provider::certify(). */
  predicate Certifies(act: Action) {
    || (act.Fragment? && act.f.CertifyFragment? && act.f.res.Certified?)
    || (act.Prepare? && act.p.CertifyCommit? && act.p.res.Answer?)
  }

  /** The steps that call queue_rollback_event(). */
  predicate QueuesRollback(act: Action) {
    (act.Rollback? && act.r.OwnerQueues?) || (act.Abort? && act.b.AborterQueues?)
  }

  // ---------------------------------------------------------------- what runs contribute

  function BookOf(s: Snapshot): Book { Book(s.flushed, !s.nRollbacks.Never?, s.assertionFailed) }

  datatype Trace = Trace(run: Run, s: Snapshot, book: Book)

  /** A transaction, the run that has led to it, and what the ledger knows of it. */
  type Tracked = t: Trace | Legal(t.run) && StateAfter(t.run) == t.s && BookOf(t.s) == t.book
    witness Trace(Start, Started(), Book(false, false, false))

  predicate CanTake(t: Tracked, act: Action) { !t.s.assertionFailed && Enabled(t.s, act) }

  /** A step of a transaction: what it does to its book, and what it may rely on. */
  method TakeStep(t: Tracked, act: Action) returns (r: Tracked)
    requires CanTake(t, act)
    ensures r.run == Step(t.run, act) && !t.book.failed
    ensures r.book.failed || (t.book.announced ==> r.book.announced)
    ensures r.book.failed || (r.book.flushed ==> t.book.flushed || IsFlush(act))
    ensures Certifies(act) ==> t.book.flushed
    ensures QueuesRollback(act) ==> !t.book.announced && r.book.announced
  {
    r := Advance(t, act);
    StepBook(t.s, act);
  }

  method Advance(t: Tracked, act: Action) returns (r: Tracked)
    requires CanTake(t, act)
    ensures t.s.Inv() && t.book == BookOf(t.s)
    ensures r.run == Step(t.run, act) && r.s == Next(t.s, act) && r.book == BookOf(r.s)
  {
    InvariantAfter(t.run);
    var s := Next(t.s, act);
    r := Trace(Step(t.run, act), s, BookOf(s));
  }

  lemma StepBook(s: Snapshot, act: Action)
    requires s.Inv() && Enabled(s, act)
    ensures var before, after := BookOf(s), BookOf(Next(s, act));
      && (after.failed || (before.announced ==> after.announced))
      && (after.failed || (after.flushed ==> before.flushed || IsFlush(act)))
      && (Certifies(act) ==> before.flushed)
      && (QueuesRollback(act) ==> !before.announced && after.announced)
  {
    KeptOrFailed(s, act);
    if !Hazard(s, act) { NextKeeps(s, act); }
    if Certifies(act) { CertifiesAfterFlush(s, act); }
    if QueuesRollback(act) { QueuesOnce(s, act); }
  }

  /** A transaction that queues its rollback has not announced it before, ... */
  lemma QueuesOnce(s: Snapshot, act: Action)
    requires s.Inv() && Enabled(s, act) && QueuesRollback(act)
    ensures s.nRollbacks.Never? && !Next(s, act).nRollbacks.Never?
  {
    assert s.StreamBook();
    if act.Rollback? {
      assert Next(s, act) == R.OwnerQueues(s);
    } else {
      assert Next(s, act) == A.AborterQueues(s);
    }
  }

  /** ... and one that certifies has flushed the queue for it. */
  lemma CertifiesAfterFlush(s: Snapshot, act: Action)
    requires s.Inv() && Enabled(s, act) && Certifies(act)
    ensures s.flushed
  {
    assert s.Certificates();
  }

  predicate CanFlush(t: Tracked) { !t.s.assertionFailed && (t.s.c.FragFlush? || t.s.c.CommitFlush?) }

  /** The step of a transaction that takes the outcome of a flush. */
  function FlushStep(pc: Pc, ok: bool): (act: Action)
    ensures act == Fragment(FlushForFragment(ok)) || act == Prepare(FlushForCommit(ok))
  {
    if pc.FragFlush? then Fragment(FlushForFragment(ok)) else Prepare(FlushForCommit(ok))
  }

  lemma FlushIsEnabled(s: Snapshot, ok: bool)
    requires s.c.FragFlush? || s.c.CommitFlush?
    ensures Enabled(s, FlushStep(s.c, ok))
  {
  }

  /** A failed flush makes up for nothing. */
  method TakeFlush(t: Tracked, act: Action, ok: bool) returns (r: Tracked)
    requires CanTake(t, act) && (act == Fragment(FlushForFragment(ok)) || act == Prepare(FlushForCommit(ok)))
    ensures r.run == Step(t.run, act) && !t.book.failed
    ensures r.book.failed || ((t.book.announced ==> r.book.announced) && (r.book.flushed ==> t.book.flushed || ok))
  {
    r := Advance(t, act);
    FlushBook(t.s, act, ok);
  }

  lemma FlushBook(s: Snapshot, act: Action, ok: bool)
    requires s.Inv() && Enabled(s, act)
    requires act == Fragment(FlushForFragment(ok)) || act == Prepare(FlushForCommit(ok))
    ensures var before, after := BookOf(s), BookOf(Next(s, act));
      after.failed || ((before.announced ==> after.announced) && (after.flushed ==> before.flushed || ok))
  {
    StepBook(s, act);
    if !ok { FailedFlush(s, act); }
  }

  lemma FailedFlush(s: Snapshot, act: Action)
    requires act == Fragment(FlushForFragment(false)) || act == Prepare(FlushForCommit(false))
    ensures Next(s, act).flushed == s.flushed
  {
    if act.Fragment? {
      assert Next(s, act) == F.FlushForFragment(s, false);
    } else {
      assert Next(s, act) == C.FlushForCommit(s, false);
    }
  }

  // ---------------------------------------------------------------- the server

  function BookIn(t: Tracked): Book { t.book }

  /** The transactions of a server, and its queue. */
  type Server = Ledger<Tracked>

  /** A transaction starts, under an id of its own. */
  method Begin(server: Server, id: nat)
    requires server.Valid() && server.book == BookIn && id !in server.items
    modifies server
    ensures server.Valid()
    ensures server.items == old(server.items)[id := Trace(Start, Started(), Book(false, false, false))]
  {
    server.Begin(id, Trace(Start, Started(), Book(false, false, false)));
  }

  /** Any step but a flush.  The id that is queued is not in the queue, as the source asserts, and
      whatever had been queued before the flush of a transaction that certifies is replicated. */
  method Take(server: Server, id: nat, act: Action)
    requires server.Valid() && server.book == BookIn
    requires id in server.items && CanTake(server.items[id], act) && !IsFlush(act)
    modifies server, server.queue
    ensures server.Valid() && id in server.items && server.items == old(server.items)[id := server.items[id]]
    ensures server.items[id].run == Step(old(server.items)[id].run, act)
    ensures server.queue.queued == old(server.queue.queued) + (if QueuesRollback(act) then [id] else [])
    ensures |server.certifications| == |old(server.certifications)| + (if Certifies(act) then 1 else 0)
  {
    var after := TakeStep(server.items[id], act);
    server.Record(id, after, Certifies(act), QueuesRollback(act));
  }

  /** The flush before a certification: the step of the transaction takes the outcome of
      send_pending_rollback_events(). */
  method Flush(server: Server, id: nat, answers: seq<bool>) returns (ok: bool)
    requires server.Valid() && server.book == BookIn
    requires id in server.items && CanFlush(server.items[id]) && |server.queue.queue| <= |answers|
    modifies server, server.queue
    ensures server.Valid() && id in server.items && server.items == old(server.items)[id := server.items[id]]
    ensures server.items[id].run == Step(old(server.items)[id].run, FlushStep(old(server.items)[id].s.c, ok))
    ensures ok <==> forall i :: 0 <= i < |old(server.queue.queue)| ==> answers[i]
  {
    assert !server.items[id].book.failed;
    ok := server.Flush(id, answers);
    FlushIsEnabled(server.items[id].s, ok);
    var after := TakeFlush(server.items[id], FlushStep(server.items[id].s.c, ok), ok);
    server.Settle(id, after, ok);
  }

  // ---------------------------------------------------------------- all interleavings

  datatype Event = Begins | Takes(act: Action) | Flushes(answers: seq<bool>)

  datatype Call = Call(id: nat, event: Event)

  predicate Possible(server: Server, call: Call)
    reads server, server.queue
  {
    match call.event
    case Begins => call.id !in server.items
    case Takes(act) => call.id in server.items && CanTake(server.items[call.id], act) && !IsFlush(act)
    case Flushes(answers) =>
      call.id in server.items && CanFlush(server.items[call.id]) && |server.queue.queue| <= |answers|
  }

  /** Any number of transactions in any interleaving: no event is lost, doubled or reordered, and
      every certification comes after the replication, in order, of all events queued before its
      flush. */
  method RunAll(script: seq<Call>) returns (server: Server)
    ensures var q := server.queue; q.queued == q.replicated + q.queue && Distinct(q.queued)
    ensures forall i | 0 <= i < |server.certifications| ::
      var c, q := server.certifications[i], server.queue;
      && c.queuedAtFlush <= c.replicated <= |q.replicated|
      && q.queued[..c.queuedAtFlush] == q.replicated[..c.replicated][..c.queuedAtFlush]
  {
    server := new Ledger(BookIn);
    for n := 0 to |script|
      invariant fresh(server) && fresh(server.queue) && server.Valid() && server.book == BookIn
    {
      if Possible(server, script[n]) {
        match script[n].event
        case Begins => Begin(server, script[n].id);
        case Takes(act) => Take(server, script[n].id, act);
        case Flushes(answers) => var _ := Flush(server, script[n].id, answers);
      }
    }
  }
}
