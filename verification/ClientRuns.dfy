/** The transaction machine in the hands of its client: commands, the background rollbacker and BF
    aborters on one connection.  Whether the client is idle is no longer any answer, but follows
    from its state. */
module ClientRuns {
  import opened TransactionStates
  import opened TransactionEvents
  import opened TransactionSnapshot
  import opened TransactionRuns
  import opened HookExits
  import A = AbortSteps
  import O = ClientOwnership

  /** `sync`: the server has idle clients rolled back synchronously.  `handedOver`: a rollbacker has taken
      over since the client was last at work. */
  datatype Connection = Connection(
    sync: bool, state: O.ClientState, run: Run, rollbackerActive: bool, handedOver: bool)

  datatype Event =
    | Takes(act: Action)              // a step of a hook by the client thread
    | Starts                          // start_transaction()
    | BeforeCommand | Close           // wait for the rollbacker
    | BeforeResult | AfterResult      // end of a command
    | Aborts(inTotalOrder: bool, providerOk: bool)
    | Wakes | Unregisters | Replicates(ok: bool) | QueuesEvent | MarksContext   // the aborter in streaming_rollback()
    | RollbackerTakes | RollbackerDone

  // ---------------------------------------------------------------- places

  predicate AtWork(state: O.ClientState) { state.Exec? || state.Result? || state.Quitting? }

  /** Between hooks, with nothing to commit or to replay. */
  predicate Resting(s: Snapshot) {
    s.c.Ended? || (s.c.Ready? && (s.st.Executing? || s.st.MustAbort? || s.st.Aborted?))
  }

  /** Where the background rollbacker works, ... */
  predicate InRollback(s: Snapshot) {
    s.st.Aborting? && (s.c == RbCall(false) || s.c == RbAfter(false) || s.c == RbFragments(false))
  }

  /** ... and what it leaves. */
  predicate RolledBack(s: Snapshot) { s.c.Ready? && s.st.Aborted? }

  predicate Placed(k: Connection, s: Snapshot) {
    && (k.rollbackerActive ==> k.handedOver && (InRollback(s) || RolledBack(s)))
    && (k.handedOver ==> k.state.Idle? && (k.rollbackerActive || RolledBack(s)))
    && (k.state.Idle? && !k.rollbackerActive ==> Resting(s))
  }

  /** What bf_abort() asks before it hands the client over. */
  predicate IsIdle(k: Connection) { k.state.Idle? && k.sync }

  // ---------------------------------------------------------------- steps

  /** The step of the aborter, which looks at the client where the source does. */
  function AborterAction(k: Connection, s: Snapshot, e: Event): AbortAction
    requires e.Aborts? || e.Wakes? || e.Unregisters? || e.Replicates? || e.QueuesEvent? || e.MarksContext?
  {
    match e
    case Aborts(inTotalOrder, ok) => AbortAction.BfAbort(inTotalOrder, ok, IsIdle(k) && A.AbortSucceeds(s, ok))
    case Wakes => AborterWakes
    case Unregisters => AborterUnregisters
    case Replicates(ok) => AborterReplicates(ok, IsIdle(k))
    case QueuesEvent => AborterQueues
    case MarksContext => AborterMarks(IsIdle(k))
  }

  predicate IsAborter(e: Event) {
    e.Aborts? || e.Wakes? || e.Unregisters? || e.Replicates? || e.QueuesEvent? || e.MarksContext?
  }

  /** Where the aborter has to be, whatever the client does. */
  predicate AborterAt(s: Snapshot, e: Event) {
    match e
    case Aborts(_, ok) => ok ==> !s.inOrder
    case Wakes => Waits(s.a) && !s.rollingBack
    case Unregisters => Stops(s.a) || Converts(s.a)
    case Replicates(_) => Sends(s.a)
    case QueuesEvent => Queues(s.a)
    case MarksContext => Marks(s.a)
    case _ => false
  }

  function RollbackerAction(c: Pc): RollbackAction {
    if c.RbCall? then BeforeRollback else if c.RbAfter? then AfterRollback else RemoveAfterRollback
  }

  predicate Possible(k: Connection, s: Snapshot, e: Event) {
    match e
    case Takes(act) => AtWork(k.state) && !act.Abort? && Enabled(s, act)
    case Starts => k.state.Exec? && s.c.Ended?
    case BeforeCommand => k.state.Idle? && !k.rollbackerActive
    case Close => k.state.Idle? && !k.rollbackerActive
    case BeforeResult => k.state.Exec? && Resting(s) && !s.st.MustAbort?
    case AfterResult => k.state.Result? && Resting(s) && !s.st.MustAbort?
    case RollbackerTakes => k.rollbackerActive && InRollback(s)
    case RollbackerDone => k.rollbackerActive && RolledBack(s)
    case _ => AborterAt(s, e)
  }

  /** The aborter finds the client as it says: bf_abort() hands a client over only between its hooks, which
      is what the runs of a transaction take for granted. */
  lemma IdleIsBetweenHooks(k: Connection, s: Snapshot, e: Event)
    requires s.Inv() && Placed(k, s) && IsAborter(e) && AborterAt(s, e)
    ensures AbortEnabled(s, AborterAction(k, s, e))
  {
    if IsIdle(k) && e.Aborts? && A.AbortSucceeds(s, e.providerOk) { AbortedIsResting(k, s, e.providerOk); }
    if IsIdle(k) && (e.Replicates? || e.MarksContext?) { VictimIsResting(k, s); }
  }

  lemma AbortedIsResting(k: Connection, s: Snapshot, providerOk: bool)
    requires s.Control() && Placed(k, s) && k.state.Idle? && A.AbortSucceeds(s, providerOk)
    ensures A.MayBeIdle(s)
  {
    assert s.OwnerPlace();
  }

  lemma VictimIsResting(k: Connection, s: Snapshot)
    requires s.Control() && Placed(k, s) && k.state.Idle? && (Sends(s.a) || Marks(s.a))
    ensures A.MayBeIdle(s)
  {
    assert s.OwnerPlace() && s.OneRollback();
  }

  // ---------------------------------------------------------------- where the steps lead

  predicate Stays(s: Snapshot, t: Snapshot) {
    t.c == s.c && (t.st == s.st || (A.Abortable(s.st) && t.st.MustAbort?))
  }

  predicate GoesToRollbacker(s: Snapshot, t: Snapshot) { A.MayBeIdle(s) && t.c == RbCall(false) && t.st.Aborting? }

  predicate FindsIdle(b: AbortAction) {
    (b.BfAbort? || b.AborterReplicates? || b.AborterMarks?) && b.idle
  }

  lemma AborterPlaces(s: Snapshot, b: AbortAction)
    requires AbortEnabled(s, b)
    ensures Stays(s, AbortNext(s, b)) || (FindsIdle(b) && GoesToRollbacker(s, AbortNext(s, b)))
  {
    AbortExits(s, b);
    ExitStays(s, b, AbortNext(s, b));
  }

  lemma ExitStays(s: Snapshot, b: AbortAction, t: Snapshot)
    requires AbortEnabled(s, b) && AbortExit(s, b, t)
    ensures Stays(s, t) || (FindsIdle(b) && GoesToRollbacker(s, t))
  {
  }

  lemma RollbackerPlaces(s: Snapshot)
    requires s.Control() && InRollback(s)
    ensures RollbackEnabled(s, RollbackerAction(s.c))
    ensures var t := RollbackNext(s, RollbackerAction(s.c)); InRollback(t) || RolledBack(t)
  {
    RollbackExits(s, RollbackerAction(s.c));
    var t := RollbackNext(s, RollbackerAction(s.c));
    match s.c
    case RbCall(_) => Begins(s, t);
    case RbAfter(_) => Ends(s, t);
    case RbFragments(_) => Removes(s, t);
  }

  lemma Begins(s: Snapshot, t: Snapshot)
    requires s.st.Aborting? && s.c == RbCall(false) && RollbackExit(s, BeforeRollback, t)
    ensures InRollback(t)
  {
  }

  lemma Ends(s: Snapshot, t: Snapshot)
    requires s.st.Aborting? && s.c == RbAfter(false) && RollbackExit(s, AfterRollback, t)
    ensures InRollback(t) || RolledBack(t)
  {
  }

  lemma Removes(s: Snapshot, t: Snapshot)
    requires s.st.Aborting? && s.c == RbFragments(false) && RollbackExit(s, RemoveAfterRollback, t)
    ensures RolledBack(t)
  {
  }

  // ---------------------------------------------------------------- all interleavings

  predicate MovesTransaction(e: Event) { e.Takes? || e.RollbackerTakes? || IsAborter(e) }

  /** The step of the transaction that an event takes. */
  function ActionOf(k: Connection, s: Snapshot, e: Event): Action
    requires MovesTransaction(e)
  {
    match e
    case Takes(act) => act
    case RollbackerTakes => Rollback(RollbackerAction(s.c))
    case _ => Abort(AborterAction(k, s, e))
  }

  lemma EventIsEnabled(k: Connection, s: Snapshot, e: Event)
    requires s.Inv() && Placed(k, s) && Possible(k, s, e) && MovesTransaction(e)
    ensures Enabled(s, ActionOf(k, s, e))
  {
    if IsAborter(e) {
      IdleIsBetweenHooks(k, s, e);
      assert ActionOf(k, s, e) == Abort(AborterAction(k, s, e));
    } else if e.RollbackerTakes? {
      RollbackerPlaces(s);
      assert ActionOf(k, s, e) == Rollback(RollbackerAction(s.c));
    }
  }

  /** The client is handed over. */
  predicate HandsOver(s: Snapshot, t: Snapshot) { !InRollback(s) && InRollback(t) }

  /** The connection after an event that has led the transaction from `s` to `t`. */
  function Moved(k: Connection, e: Event, s: Snapshot, t: Snapshot): Connection {
    if IsAborter(e) && HandsOver(s, t) then k.(rollbackerActive := true, handedOver := true) else k
  }

  /** The connection after an event that leaves the transaction alone, or starts a new one. */
  function Changed(k: Connection, e: Event): Connection
    requires !MovesTransaction(e)
  {
    match e
    case Starts => k.(run := Start)
    case BeforeCommand => k.(state := O.Exec, handedOver := false)
    case Close => k.(state := O.Quitting, handedOver := false)
    case BeforeResult => k.(state := O.Result)
    case AfterResult => k.(state := O.Idle)
    case RollbackerDone => k.(rollbackerActive := false)
  }

  lemma MovedIsPlaced(k: Connection, s: Snapshot, e: Event)
    requires s.Inv() && Placed(k, s) && Possible(k, s, e) && MovesTransaction(e)
    requires Enabled(s, ActionOf(k, s, e)) && !Hazard(s, ActionOf(k, s, e))
    ensures var t := Next(s, ActionOf(k, s, e)); Placed(Moved(k, e, s, t), t)
  {
    if IsAborter(e) {
      AborterMoves(k, s, e);
    } else if e.RollbackerTakes? {
      RollbackerMoves(k, s);
    } else {
      WorkedOnIsPlaced(k, s, Next(s, e.act));
    }
  }

  lemma AborterMoves(k: Connection, s: Snapshot, e: Event)
    requires Placed(k, s) && IsAborter(e) && AbortEnabled(s, AborterAction(k, s, e))
    ensures var t := AbortNext(s, AborterAction(k, s, e)); Placed(Moved(k, e, s, t), t)
  {
    var b := AborterAction(k, s, e);
    AborterPlaces(s, b);
    AbortedIsPlaced(k, e, s, AbortNext(s, b));
  }

  lemma RollbackerMoves(k: Connection, s: Snapshot)
    requires s.Inv() && Placed(k, s) && k.rollbackerActive && InRollback(s)
    ensures RollbackEnabled(s, RollbackerAction(s.c)) && Placed(k, RollbackNext(s, RollbackerAction(s.c)))
  {
    RollbackerPlaces(s);
    RolledBackIsPlaced(k, s, RollbackNext(s, RollbackerAction(s.c)));
  }

  lemma AbortedIsPlaced(k: Connection, e: Event, s: Snapshot, t: Snapshot)
    requires Placed(k, s) && IsAborter(e) && (Stays(s, t) || (IsIdle(k) && GoesToRollbacker(s, t)))
    ensures Placed(Moved(k, e, s, t), t)
  {
  }

  lemma RolledBackIsPlaced(k: Connection, s: Snapshot, t: Snapshot)
    requires Placed(k, s) && k.rollbackerActive && (InRollback(t) || RolledBack(t))
    ensures Placed(k, t)
  {
  }

  lemma WorkedOnIsPlaced(k: Connection, s: Snapshot, t: Snapshot)
    requires Placed(k, s) && AtWork(k.state)
    ensures Placed(k, t)
  {
  }

  lemma ChangedIsPlaced(k: Connection, s: Snapshot, e: Event)
    requires Placed(k, s) && Possible(k, s, e) && !MovesTransaction(e)
    ensures Placed(Changed(k, e), if e.Starts? then Started() else s)
    ensures e.BeforeCommand? || e.Close? ==> (k.handedOver ==> RolledBack(s))
  {
  }

  /** What has happened on a connection since it began to execute, the latest outermost. */
  datatype Story = Opened(sync: bool) | On(before: Story, event: Event)

  function ConnectionAfter(h: Story): Connection {
    match h
    case Opened(sync) => Connection(sync, O.Exec, Start, false, false)
    case On(before, e) => Led(ConnectionAfter(before), StateAfter(ConnectionAfter(before).run), e)
  }

  function Led(k: Connection, s: Snapshot, e: Event): Connection {
    if MovesTransaction(e) then
      Moved(k, e, s, Next(s, ActionOf(k, s, e))).(run := Step(k.run, ActionOf(k, s, e)))
    else Changed(k, e)
  }

  predicate Told(h: Story) {
    h.On? ==>
      && Told(h.before)
      && var k := ConnectionAfter(h.before);
         !StateAfter(k.run).assertionFailed && Possible(k, StateAfter(k.run), h.event)
  }

  /** In every interleaving of client, aborters and rollbacker the transaction follows one of its runs, an
      active rollbacker has the client idle and out of every hook, and the client is idle only between
      hooks. */
  lemma {:induction false} ClientKeepsItsPlace(h: Story)
    requires Told(h)
    ensures var k := ConnectionAfter(h);
      Legal(k.run) && (StateAfter(k.run).assertionFailed || Placed(k, StateAfter(k.run)))
  {
    if h.On? {
      ClientKeepsItsPlace(h.before);
      LedIsPlaced(ConnectionAfter(h.before), h.event);
    }
  }

  lemma LedIsPlaced(k: Connection, e: Event)
    requires Legal(k.run) && !StateAfter(k.run).assertionFailed
    requires Placed(k, StateAfter(k.run)) && Possible(k, StateAfter(k.run), e)
    ensures var r := Led(k, StateAfter(k.run), e);
      Legal(r.run) && (StateAfter(r.run).assertionFailed || Placed(r, StateAfter(r.run)))
  {
    if MovesTransaction(e) {
      InvariantAfter(k.run);
      MovesAlong(k, StateAfter(k.run), e);
      MovedFollowsRun(k, StateAfter(k.run), e);
    } else {
      ChangedIsPlaced(k, StateAfter(k.run), e);
      assert StateAfter(Start) == Started();
    }
  }

  lemma MovedFollowsRun(k: Connection, s: Snapshot, e: Event)
    requires Legal(k.run) && s == StateAfter(k.run) && !s.assertionFailed
    requires MovesTransaction(e) && Enabled(s, ActionOf(k, s, e))
    ensures var r := Led(k, s, e); var t := Next(s, ActionOf(k, s, e));
      && Legal(r.run) && StateAfter(r.run) == t
      && (Placed(Moved(k, e, s, t), t) ==> Placed(r, t))
  {
    var act := ActionOf(k, s, e);
    assert Legal(Step(k.run, act)) && StateAfter(Step(k.run, act)) == Next(s, act);
    assert Led(k, s, e).run == Step(k.run, act);
  }

  lemma MovesAlong(k: Connection, s: Snapshot, e: Event)
    requires s.Inv() && Placed(k, s) && Possible(k, s, e) && MovesTransaction(e)
    ensures Enabled(s, ActionOf(k, s, e))
    ensures var t := Next(s, ActionOf(k, s, e)); t.assertionFailed || Placed(Moved(k, e, s, t), t)
  {
    EventIsEnabled(k, s, e);
    KeptOrFailed(s, ActionOf(k, s, e));
    if !Hazard(s, ActionOf(k, s, e)) { MovedIsPlaced(k, s, e); }
  }

  /** A client that goes on after a rollbacker finds its transaction rolled back. */
  lemma ResumesRolledBack(k: Connection, s: Snapshot, e: Event)
    requires Placed(k, s) && Possible(k, s, e) && (e.BeforeCommand? || e.Close?) && k.handedOver
    ensures var r := Changed(k, e); AtWork(r.state) && !r.rollbackerActive && r.run == k.run && RolledBack(s)
  {
    ChangedIsPlaced(k, s, e);
  }

  /** An idle client that is BF aborted on a synchronous server is handed over. */
  lemma IdleClientIsHandedOver(k: Connection, s: Snapshot, inTotalOrder: bool)
    requires s.Control() && Placed(k, s) && k.state.Idle? && k.sync && s.c.Ready? && s.st.Executing? && !s.Streaming()
    ensures var e := Aborts(inTotalOrder, true);
      && Possible(k, s, e) && AbortEnabled(s, AborterAction(k, s, e))
      && Moved(k, e, s, AbortNext(s, AborterAction(k, s, e))).rollbackerActive
  {
    AbortIsPossible(s);
    var b := AborterAction(k, s, Aborts(inTotalOrder, true));
    assert b == AbortAction.BfAbort(inTotalOrder, true, true);
    AbortExits(s, b);
    ExitHandsOver(s, b, AbortNext(s, b));
  }

  lemma ExitHandsOver(s: Snapshot, b: AbortAction, t: Snapshot)
    requires b.BfAbort? && b.idle && A.AbortSucceeds(s, b.providerOk) && !(s.st.Executing? && s.Streaming())
    requires AbortExit(s, b, t)
    ensures t.c == RbCall(false) && t.st.Aborting?
  {
  }

  lemma AbortIsPossible(s: Snapshot)
    requires s.Control() && s.c.Ready? && s.st.Executing?
    ensures !s.inOrder && A.AbortSucceeds(s, true)
  {
    assert s.OwnerPlace() && s.Order();
  }
}
