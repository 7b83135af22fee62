/** wsrep::transaction as an object shared by the thread that owns the client state and by BF
    aborters.  Every call takes the object one step along its run, and so the theorems about runs
    hold of any interleaving of calls. */
module Transaction {
  import opened TransactionStates
  import opened TransactionEvents
  import opened TransactionSnapshot
  import opened TransactionRuns
  import opened TransactionTheorems
  import opened HookExits
  import A = AbortSteps

  class LocalTransaction {
    var s: Snapshot
    ghost var run: Run     // the steps taken since the start

    /** The object is where its run has led. */
    ghost predicate Valid()
      reads this
    {
      Legal(run) && s == StateAfter(run)
    }

    /** start_transaction() by a local client. */
    constructor ()
      ensures Valid() && s == Started() && run == Start
    {
      s, run := Started(), Start;
    }

    /** Any stretch of any hook, by any thread, with any answers. */
    method Perform(act: Action)
      requires Valid() && !s.assertionFailed && Enabled(s, act)
      modifies this
      ensures Valid() && run == Step(old(run), act) && s == Next(old(s), act)
      ensures s.assertionFailed == EndsInHazard(run)
    {
      s := Next(s, act);
      run := Step(run, act);
      InvariantAfter(run);
    }

    /** bf_abort(), or with `inTotalOrder` total_order_bf_abort(): succeeds exactly in the four states where
        the provider is asked, and then leaves the transaction in must_abort, or an idle one in aborting.
        One that returns false leaves the transaction as it was, but for the mark. */
    method BfAbort(inTotalOrder: bool, providerOk: bool, idle: bool) returns (ret: bool)
      requires Valid() && !s.assertionFailed && Enabled(s, Abort(AbortAction.BfAbort(inTotalOrder, providerOk, idle)))
      modifies this
      ensures Valid() && run == Step(old(run), Abort(AbortAction.BfAbort(inTotalOrder, providerOk, idle)))
      ensures !s.assertionFailed
      ensures ret <==>
        && old(s.active) && !old(s.immutable) && providerOk
        && (old(s.st) == Executing || old(s.st) == Preparing || old(s.st) == Certifying || old(s.st) == Committing)
      ensures ret ==>
        && s.bfAborted && s.totalOrder == inTotalOrder
        && s.st == if idle && !(old(s.st) == Executing && old(s.fragments) > 0) then Aborting else MustAbort
      ensures !ret ==> s.st == old(s.st) && s.bfAborted == old(s.bfAborted) && (!inTotalOrder ==> s == old(s))
      ensures old(Sealed(s)) ==> !ret && Sealed(s)
    {
      ret := A.AbortSucceeds(s, providerOk);
      InvariantAfter(run);
      AbortOutcome(s, inTotalOrder, providerOk, idle);
      Perform(Abort(AbortAction.BfAbort(inTotalOrder, providerOk, idle)));
    }

    /** The end of before_commit(): 0 only behind commit order, and BF immutable from then on. */
    method LockAfterEnter() returns (ret: bool)
      requires Valid() && !s.assertionFailed && s.c.OrderRelock?
      modifies this
      ensures Valid() && run == Step(old(run), Commit(CommitAction.LockAfterEnter)) && !s.assertionFailed
      ensures ret == !old(s.c).entered && (!ret ==> Sealed(s)) && (ret ==> s.st.MustReplay?)
    {
      ret := !s.c.entered;
      InvariantAfter(run);
      EnterOutcome(s);
      Perform(Commit(CommitAction.LockAfterEnter));
    }
  }

  lemma AbortOutcome(s: Snapshot, inTotalOrder: bool, providerOk: bool, idle: bool)
    requires s.Inv() && Enabled(s, Abort(AbortAction.BfAbort(inTotalOrder, providerOk, idle)))
    ensures var t := Next(s, Abort(AbortAction.BfAbort(inTotalOrder, providerOk, idle)));
      && !t.assertionFailed
      && (if A.AbortSucceeds(s, providerOk) then HitExit(s, inTotalOrder, idle, t) else RefusedExit(s, inTotalOrder, t))
      && (!A.AbortSucceeds(s, providerOk) && !inTotalOrder ==> t == s)
      && (Sealed(s) ==> !A.AbortSucceeds(s, providerOk) && Sealed(t))
  {
    KeptOrFailed(s, Abort(AbortAction.BfAbort(inTotalOrder, providerOk, idle)));
    BfAbortExits(s, inTotalOrder, providerOk, idle);
    if Sealed(s) { SealedAborts(s, AbortAction.BfAbort(inTotalOrder, providerOk, idle)); SealedIsUnmarked(s); }
  }

  lemma EnterOutcome(s: Snapshot)
    requires s.Inv() && s.c.OrderRelock?
    ensures var t := Next(s, Commit(CommitAction.LockAfterEnter));
      !t.assertionFailed && if s.c.entered then t.st == Committing && Sealed(t) else t.st == MustReplay
  {
    KeptOrFailed(s, Commit(CommitAction.LockAfterEnter));
    CommitExits(s, CommitAction.LockAfterEnter);
  }

  /** Any interleaving of calls, by the owner and by aborters, with any answers: the object is where
      a legal run leads, fails an assertion only in a hazard, and keeps what all runs promise. */
  method Interleave(script: seq<Action>) returns (t: LocalTransaction)
    ensures t.Valid() && t.s.assertionFailed == EndsInHazard(t.run)
    ensures !t.s.assertionFailed ==> Promised(t.s)
  {
    t := new LocalTransaction();
    InvariantAfter(t.run);
    for n := 0 to |script|
      invariant fresh(t) && t.Valid() && t.s.assertionFailed == EndsInHazard(t.run)
    {
      if !t.s.assertionFailed && Enabled(t.s, script[n]) { t.Perform(script[n]); }
    }
    if !t.s.assertionFailed { RunsKeepPromises(t.run); }
  }
}
