/** Who may work on a client state: the client thread, or the background rollbacker to which a
    BF aborter hands the transaction of an idle client. */
module ClientOwnership {

  datatype ClientState = None | Idle | Exec | Result | Quitting

  /** The table of client_state::state(). */
  predicate Allowed(from: ClientState, to: ClientState) {
    match from
    case None => to.Idle?
    case Idle => to.Exec? || to.Quitting?
    case Exec => to.Result?
    case Result => to.Idle?
    case Quitting => to.None?
  }

  function Index(s: ClientState): (i: nat)
    ensures i < 5
  {
    match s case None => 0 case Idle => 1 case Exec => 2 case Result => 3 case Quitting => 4
  }

  /** The rows of the source. */
  lemma TransitionTable(from: ClientState, to: ClientState)
    ensures Allowed(from, to) <==>
      [[0, 1, 0, 0, 0],
       [0, 0, 1, 0, 1],
       [0, 0, 0, 1, 0],
       [0, 1, 0, 0, 0],
       [1, 0, 0, 0, 0]][Index(from)][Index(to)] == 1
  {
  }

  /** The transaction of the client, as far as ownership depends on it.  Committing stands for
      certifying, preparing and committing before commit order, where a BF abort can still hit. */
  datatype Trx = Inactive | Executing | Committing | MustAbort | Aborting | Aborted

  datatype Owner = ClientThread | RollbackerThread

  /** Where the client thread has let go of the lock inside bf_rollback(). */
  datatype Place = NotRollingBack | InBeforeCommand | InStatement | InBeforeResult | InAfterResult | InClose

  datatype Rollbacker = Absent | Scheduled | Working | RolledBack

  class Session {
    var state: ClientState
    var owner: Owner
    var trx: Trx
    var rollbackerActive: bool
    var keepError: bool
    var inCommand: bool           // before_command() has begun
    var place: Place
    var rollbacker: Rollbacker
    var aborterInRollback: bool   // a BF aborter is inside streaming_rollback()
    var handedOver: bool          // a rollbacker has taken over since the client was last at work

    /** Holds whenever the lock is free. */
    ghost predicate Valid()
      reads this
    {
      && rollbackerActive == !rollbacker.Absent?
      && (rollbackerActive ==> state.Idle? && handedOver)
      && (handedOver ==> state.Idle? && (rollbackerActive || trx.Aborted?))
      && (match rollbacker
          case Absent => !trx.Aborting?
          case Scheduled => trx.Aborting?
          case Working => trx.Aborting? && owner.RollbackerThread?
          case RolledBack => trx.Aborted?)
      && (!state.Idle? ==> owner.ClientThread?)
      && (aborterInRollback ==> trx.MustAbort?)
      && (!place.NotRollingBack? ==> !trx.Inactive? && !trx.Aborting? && !trx.Committing?)
      && (trx.Committing? ==> state.Exec? && inCommand)
      && (inCommand ==> state.Exec?)
      && (match place
          case NotRollingBack => state.Quitting? || state.None? ==> trx.Inactive?
          case InBeforeCommand => state.Exec? && trx.MustAbort?
          case InStatement => state.Exec? && trx.MustAbort?
          case InBeforeResult => state.Exec? && trx.MustAbort?
          case InAfterResult => state.Result? && trx.MustAbort?
          case InClose => state.Quitting?)
    }

    /** open(). */
    constructor ()
      ensures Valid() && state.Idle? && trx.Inactive? && !rollbackerActive && place.NotRollingBack?
    {
      state, owner, trx, rollbackerActive, keepError, inCommand := Idle, ClientThread, Inactive, false, false, false;
      place, rollbacker, aborterInRollback, handedOver := NotRollingBack, Absent, false, false;
    }

    /** client_state::state(). */
    method SetState(next: ClientState)
      requires Allowed(state, next) && owner.ClientThread?
      modifies `state
      ensures state == next
    {
      state := next;
    }

    // -------------------------------------------------------------- the client thread

    method StartTransaction()
      requires Valid() && inCommand && place.NotRollingBack? && trx.Inactive?
      modifies this
      ensures Valid() && trx.Executing? && state == old(state)
    {
      trx := Executing;
    }

    /** The transaction goes into certification. */
    method StartCommit()
      requires Valid() && inCommand && place.NotRollingBack? && trx.Executing?
      modifies this
      ensures Valid() && trx.Committing? && state == old(state)
    {
      trx := Committing;
    }

    /** The transaction ends in a command: committed, or rolled back and cleaned up. */
    method EndTransaction()
      requires Valid() && inCommand && place.NotRollingBack? && (trx.Executing? || trx.Committing? || trx.Aborted?)
      modifies this
      ensures Valid() && trx.Inactive? && state == old(state)
    {
      trx := Inactive;
    }

    /** wait_rollback_complete_and_acquire_ownership(), also the first part of before_command(): waits
        for the rollbacker.  A client that resumes after one finds its transaction aborted. */
    method AcquireOwnership()
      requires Valid() && state.Idle? && place.NotRollingBack? && !rollbackerActive
      modifies this
      ensures Valid() && state.Exec? && owner.ClientThread? && !handedOver && !inCommand
      ensures trx == old(trx) && place == old(place) && keepError == old(keepError)
      ensures old(handedOver) ==> trx.Aborted?
    {
      owner := ClientThread;
      SetState(Exec);
      handedOver := false;
    }

    /** before_command(), by a client that is idle or has acquired ownership before.  The source
        asserts that the transaction is not in the middle of anything. */
    method BeforeCommand(keep: bool) returns (error: bool)
      requires Valid() && place.NotRollingBack? && ((state.Idle? && !rollbackerActive) || (state.Exec? && !inCommand))
      modifies this
      ensures Valid() && state.Exec? && inCommand && owner.ClientThread? && !handedOver
      ensures old(handedOver) ==> old(trx).Aborted?
      ensures old(trx) != Aborting && old(trx) != Committing
      ensures old(trx).Inactive? || old(trx).Executing? ==> !error && trx == old(trx) && place.NotRollingBack?
      ensures old(trx).Aborted? ==> error == !keep && place.NotRollingBack? && trx == if keep then Aborted else Inactive
      ensures old(trx).MustAbort? ==> place.InBeforeCommand? && trx.MustAbort?
    {
      if state.Idle? { AcquireOwnership(); }
      inCommand := true;
      keepError := keep;
      error := false;
      if trx.MustAbort? {
        place := InBeforeCommand;
      } else if trx.Aborted? && !keep {
        trx := Inactive;
        error := true;
      }
    }

    /** bf_rollback() by the client thread, which waits for an aborter inside streaming_rollback(),
        and the rest of the hook that called it. */
    method ClientRollsBack()
      requires Valid() && !place.NotRollingBack? && !aborterInRollback
      modifies this
      ensures Valid() && place.NotRollingBack?
      ensures old(place).InBeforeCommand? ==> state.Exec? && trx == if keepError then Aborted else Inactive
      ensures old(place).InStatement? ==> state.Exec? && trx.Inactive?
      ensures old(place).InBeforeResult? ==> state.Result? && trx == if keepError then Aborted else Inactive
      ensures old(place).InAfterResult? ==> state.Idle? && trx.Aborted?
      ensures old(place).InClose? ==> state.Quitting? && trx.Inactive?
    {
      var was := place;
      trx := Aborted;
      place := NotRollingBack;
      match was
      case InBeforeCommand => if !keepError { trx := Inactive; }
      case InStatement => trx := Inactive;
      case InBeforeResult =>
        if !keepError { trx := Inactive; }
        inCommand := false;
        SetState(Result);
      case InAfterResult =>
        keepError := false;
        SetState(Idle);
      case InClose => trx := Inactive;
    }

    /** after_statement() of a BF aborted transaction. */
    method AfterStatement()
      requires Valid() && inCommand && place.NotRollingBack? && trx.MustAbort?
      modifies this
      ensures Valid() && place.InStatement? && trx == old(trx) && state == old(state)
    {
      place := InStatement;
    }

    method AfterCommandBeforeResult()
      requires Valid() && inCommand && place.NotRollingBack? && !trx.Committing?
      modifies this
      ensures Valid()
      ensures if old(trx).MustAbort? then place.InBeforeResult? else state.Result? && trx == old(trx)
    {
      if trx.MustAbort? {
        place := InBeforeResult;
      } else {
        inCommand := false;
        SetState(Result);
      }
    }

    method AfterCommandAfterResult()
      requires Valid() && state.Result? && place.NotRollingBack?
      modifies this
      ensures Valid() && old(trx) != Aborting
      ensures if old(trx).MustAbort? then place.InAfterResult? else state.Idle? && trx == old(trx)
    {
      if trx.MustAbort? {
        place := InAfterResult;
      } else {
        keepError := false;
        SetState(Idle);
      }
    }

    /** close(): waits for the rollbacker as well. */
    method Close()
      requires Valid() && state.Idle? && place.NotRollingBack? && !rollbackerActive
      modifies this
      ensures Valid() && state.Quitting? && owner.ClientThread? && !handedOver
      ensures old(handedOver) ==> old(trx).Aborted?
      ensures place == if trx.Inactive? then NotRollingBack else InClose
    {
      owner := ClientThread;
      SetState(Quitting);
      handedOver := false;
      if !trx.Inactive? { place := InClose; }
    }

    method Cleanup()
      requires Valid() && state.Quitting? && place.NotRollingBack?
      modifies this
      ensures Valid() && state.None?
    {
      SetState(None);
    }

    // -------------------------------------------------------------- aborter and rollbacker

    /** bf_abort() of a transaction that executes or commits; `streaming`: it goes through streaming_rollback(),
        which lets go of the lock; `sync`: the server rolls idle clients back synchronously. */
    method BfAbort(streaming: bool, sync: bool)
      requires Valid() && (trx.Executing? || trx.Committing?)
      modifies this
      ensures Valid() && state == old(state) && place == old(place)
      ensures aborterInRollback == (streaming && old(trx).Executing?)
      ensures rollbackerActive == (!aborterInRollback && sync && state.Idle?)
      ensures trx == if rollbackerActive then Aborting else MustAbort
    {
      var executing := trx.Executing?;
      trx := MustAbort;
      if streaming && executing {
        aborterInRollback := true;
      } else {
        HandOver(sync);
      }
    }

    /** The aborter comes out of streaming_rollback() and looks at the client again. */
    method AborterReturns(sync: bool)
      requires Valid() && aborterInRollback
      modifies this
      ensures Valid() && !aborterInRollback && state == old(state) && place == old(place)
      ensures rollbackerActive == (sync && state.Idle?)
    {
      aborterInRollback := false;
      HandOver(sync);
    }

    method HandOver(sync: bool)
      requires trx.MustAbort? && !rollbackerActive && rollbacker.Absent?
      modifies `trx, `rollbackerActive, `rollbacker, `handedOver
      ensures if sync && state.Idle?
        then trx.Aborting? && rollbackerActive && rollbacker.Scheduled? && handedOver
        else trx.MustAbort? && !rollbackerActive && rollbacker.Absent? && handedOver == old(handedOver)
    {
      if state.Idle? && sync {
        trx := Aborting;
        rollbackerActive, rollbacker, handedOver := true, Scheduled, true;
      }
    }

    /** The rollbacker acquires ownership; the source asserts that the client is idle. */
    method RollbackerStarts()
      requires Valid() && rollbacker.Scheduled?
      modifies this
      ensures Valid() && state.Idle? && owner.RollbackerThread? && rollbacker.Working?
    {
      owner := RollbackerThread;
      rollbacker := Working;
    }

    method RollbackerRollsBack()
      requires Valid() && rollbacker.Working?
      modifies this
      ensures Valid() && trx.Aborted? && rollbacker.RolledBack? && rollbackerActive
    {
      trx := Aborted;
      rollbacker := RolledBack;
    }

    /** sync_rollback_complete(); the source asserts idle and aborted. */
    method SyncRollbackComplete()
      requires Valid() && rollbacker.RolledBack?
      modifies this
      ensures Valid() && state.Idle? && trx.Aborted? && !rollbackerActive && handedOver
    {
      rollbackerActive, rollbacker := false, Absent;
    }
  }

  // ---------------------------------------------------------------- all interleavings

  datatype Step =
    | StartTransaction | StartCommit | EndTransaction | AcquireOwnership | BeforeCommand(keep: bool)
    | ClientRollsBack | AfterStatement
    | AfterCommandBeforeResult | AfterCommandAfterResult | Close | Cleanup
    | BfAbort(streaming: bool, sync: bool) | AborterReturns(sync: bool)
    | RollbackerStarts | RollbackerRollsBack | SyncRollbackComplete

  predicate Enabled(s: Session, step: Step)
    reads s
  {
    var free := s.place.NotRollingBack?;
    match step
    case StartTransaction => s.inCommand && free && s.trx.Inactive?
    case StartCommit => s.inCommand && free && s.trx.Executing?
    case EndTransaction => s.inCommand && free && (s.trx.Executing? || s.trx.Committing? || s.trx.Aborted?)
    case AcquireOwnership => s.state.Idle? && free && !s.rollbackerActive
    case BeforeCommand(_) => free && ((s.state.Idle? && !s.rollbackerActive) || (s.state.Exec? && !s.inCommand))
    case ClientRollsBack => !free && !s.aborterInRollback
    case AfterStatement => s.inCommand && free && s.trx.MustAbort?
    case AfterCommandBeforeResult => s.inCommand && free && !s.trx.Committing?
    case AfterCommandAfterResult => s.state.Result? && free
    case Close => s.state.Idle? && free && !s.rollbackerActive
    case Cleanup => s.state.Quitting? && free
    case BfAbort(_, _) => s.trx.Executing? || s.trx.Committing?
    case AborterReturns(_) => s.aborterInRollback
    case RollbackerStarts => s.rollbacker.Scheduled?
    case RollbackerRollsBack => s.rollbacker.Working?
    case SyncRollbackComplete => s.rollbacker.RolledBack?
  }

  method Do(s: Session, step: Step)
    requires s.Valid() && Enabled(s, step)
    modifies s
    ensures s.Valid()
    ensures old(s.handedOver) && !s.state.Idle? ==> old(s.trx).Aborted?
  {
    match step
    case StartTransaction => s.StartTransaction();
    case StartCommit => s.StartCommit();
    case EndTransaction => s.EndTransaction();
    case AcquireOwnership => s.AcquireOwnership();
    case BeforeCommand(keep) => var _ := s.BeforeCommand(keep);
    case ClientRollsBack => s.ClientRollsBack();
    case AfterStatement => s.AfterStatement();
    case AfterCommandBeforeResult => s.AfterCommandBeforeResult();
    case AfterCommandAfterResult => s.AfterCommandAfterResult();
    case Close => s.Close();
    case Cleanup => s.Cleanup();
    case BfAbort(streaming, sync) => s.BfAbort(streaming, sync);
    case AborterReturns(sync) => s.AborterReturns(sync);
    case RollbackerStarts => s.RollbackerStarts();
    case RollbackerRollsBack => s.RollbackerRollsBack();
    case SyncRollbackComplete => s.SyncRollbackComplete();
  }

  /** In every interleaving of client, aborter and rollbacker an active rollbacker has the client
      idle and out of every hook, no assertion about ownership fails, and a client that has gone
      on after a rollbacker had found its transaction aborted. */
  method Exclusion(script: seq<Step>) returns (s: Session, resumedUnaborted: bool)
    ensures s.rollbackerActive ==> s.state.Idle? && s.place.NotRollingBack? && (s.trx.Aborting? || s.trx.Aborted?)
    ensures s.state.Exec? || s.state.Result? || s.state.Quitting? ==> s.owner.ClientThread? && !s.trx.Aborting?
    ensures !resumedUnaborted
  {
    s := new Session();
    resumedUnaborted := false;
    for n := 0 to |script|
      invariant fresh(s) && s.Valid() && !resumedUnaborted
    {
      if Enabled(s, script[n]) {
        var handedOver, trx := s.handedOver, s.trx;
        Do(s, script[n]);
        if handedOver && !s.state.Idle? && !trx.Aborted? { resumedUnaborted := true; }
      }
    }
  }
}
