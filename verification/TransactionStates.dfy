/** The thirteen transaction states, the transition matrix of
    transaction::state(), and what the matrix alone implies for histories. */
module TransactionStates {

  datatype TxState =
    | Executing | Preparing | Prepared | Certifying | Committing
    | OrderedCommit | Committed | CertFailed | MustAbort | Aborting
    | Aborted | MustReplay | Replaying

  /** The `allowed` table, one case per row. */
  predicate Allowed(from: TxState, to: TxState) {
    match from
    case Executing => to.Preparing? || to.Certifying? || to.MustAbort? || to.Aborting?
    case Preparing => to.Prepared? || to.Committing? || to.MustAbort?
    case Prepared => to.Certifying? || to.Committing? || to.MustAbort? || to.Aborting?
    case Certifying =>
      to.Executing? || to.Preparing? || to.Prepared? || to.Committing? || to.CertFailed? || to.MustAbort?
    case Committing => to.OrderedCommit? || to.Committed? || to.MustAbort?
    case OrderedCommit => to.Committed?
    case Committed => false
    case CertFailed => to.Aborting?
    case MustAbort => to.CertFailed? || to.Aborting? || to.MustReplay?
    case Aborting => to.Aborted?
    case Aborted => false
    case MustReplay => to.Replaying?
    case Replaying => to.Preparing? || to.Committing? || to.Committed? || to.Aborted?
  }

  function Index(st: TxState): (i: nat)
    ensures i < 13
  {
    match st
    case Executing => 0 case Preparing => 1 case Prepared => 2 case Certifying => 3 case Committing => 4
    case OrderedCommit => 5 case Committed => 6 case CertFailed => 7 case MustAbort => 8 case Aborting => 9
    case Aborted => 10 case MustReplay => 11 case Replaying => 12
  }

  /** The rows of the source. */
  lemma TransitionTable(from: TxState, to: TxState)
    ensures Allowed(from, to) <==>
      [[0, 1, 0, 1, 0, 0, 0, 0, 1, 1, 0, 0, 0],
       [0, 0, 1, 0, 1, 0, 0, 0, 1, 0, 0, 0, 0],
       [0, 0, 0, 1, 1, 0, 0, 0, 1, 1, 0, 0, 0],
       [1, 1, 1, 0, 1, 0, 0, 1, 1, 0, 0, 0, 0],
       [0, 0, 0, 0, 0, 1, 1, 0, 1, 0, 0, 0, 0],
       [0, 0, 0, 0, 0, 0, 1, 0, 0, 0, 0, 0, 0],
       [0, 0, 0, 0, 0, 0, 0, 0, 0, 0, 0, 0, 0],
       [0, 0, 0, 0, 0, 0, 0, 0, 0, 1, 0, 0, 0],
       [0, 0, 0, 0, 0, 0, 0, 1, 0, 1, 0, 1, 0],
       [0, 0, 0, 0, 0, 0, 0, 0, 0, 0, 1, 0, 0],
       [0, 0, 0, 0, 0, 0, 0, 0, 0, 0, 0, 0, 0],
       [0, 0, 0, 0, 0, 0, 0, 0, 0, 0, 0, 0, 1],
       [0, 1, 0, 0, 1, 0, 1, 0, 0, 0, 1, 0, 0]][Index(from)][Index(to)] == 1
  {
  }

  /** Past states, most recent last. */
  datatype History = NoPast | After(past: History, state: TxState)

  /** Every step of `past`, and the step from its last state to `now`, is allowed. */
  predicate LegalHistory(past: History, now: TxState) {
    match past
    case NoPast => true
    case After(earlier, before) => Allowed(before, now) && LegalHistory(earlier, before)
  }

  predicate Visited(past: History, s: TxState) {
    match past
    case NoPast => false
    case After(earlier, before) => before == s || Visited(earlier, s)
  }

  /** Two state changes in one step. */
  lemma Through(past: History, st: TxState, via: TxState, next: TxState)
    requires LegalHistory(past, st) && Allowed(st, via) && Allowed(via, next)
    ensures var now := After(After(past, st), via);
      && LegalHistory(now, next)
      && (Visited(now, Replaying) <==> Visited(past, Replaying) || st.Replaying? || via.Replaying?)
      && (Visited(now, MustReplay) <==> Visited(past, MustReplay) || st.MustReplay? || via.MustReplay?)
  {
    assert LegalHistory(After(past, st), via);
  }

  /** Committed and aborted are never left, so no legal history has either in its past. */
  lemma {:induction false} TerminalIsLast(past: History, now: TxState)
    requires LegalHistory(past, now)
    ensures !Visited(past, Committed) && !Visited(past, Aborted)
  {
    match past
    case NoPast =>
    case After(earlier, before) => TerminalIsLast(earlier, before);
  }

  /** No legal history contains both outcomes. */
  lemma OneOutcome(past: History, now: TxState)
    requires LegalHistory(past, now)
    ensures !((Visited(past, Committed) || now == Committed) && (Visited(past, Aborted) || now == Aborted))
  {
    TerminalIsLast(past, now);
  }
}
