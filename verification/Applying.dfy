/** The receiving side of streaming replication: dispatch of write sets by their flags, the map
    of streaming appliers, and the agreement of receivers with originators.

    Callbacks into the DBMS are the answers of `Answers`; every one is asked at most once for a
    write set. */
module Applying {
  import opened TransactionEvents
  import opened TransactionSnapshot
  import opened TransactionRuns
  import opened TransactionTheorems

  /** A streaming transaction is known by its server and its transaction id. */
  datatype Key = Key(server: nat, trx: nat)

  /** What the server knows of a streaming applier: the size of its fragment list, and whether
      its transaction is prepared. */
  datatype Applier = Applier(fragments: nat, prepared: bool)

  /** A write set that is not a commit adds a fragment; one with the prepare flag prepares. */
  function Grown(sa: Applier, commits: bool, prepares: bool): Applier {
    Applier(if commits then sa.fragments else sa.fragments + 1, sa.prepared || prepares)
  }

  datatype WriteSet = WriteSet(key: Key, flags: Flags, ordered: bool)

  /** Which callbacks fail, and whether a failed apply left an error description to vote on. */
  datatype Answers = Answers(
    applyFails: bool, votes: bool, startFails: bool, rollbackFails: bool, removeFails: bool,
    commitFails: bool, appendFails: bool, dummyFails: bool, adoptFails: bool)

  const ALL_WELL := Answers(false, false, false, false, false, false, false, false, false)

  /** Only applying may fail. */
  predicate OnlyApplyFails(ans: Answers) {
    ans == ALL_WELL.(applyFails := ans.applyFails, votes := ans.votes)
  }

  predicate Middle(f: Flags) { f.(paUnsafe := false) == NO_FLAGS || f.prepare }

  /** The branch of apply_write_set() for each flag word: rollback before start before the middle fragments
      before commit, and none for the rest. */
  lemma Dispatch(f: Flags)
    ensures Middle(f) <==>
      || f.prepare
      || !(f.start || f.commit || f.rollback || f.isolation || f.commutative || f.native || f.snapshot
           || f.implicitDeps)
    ensures Handled(f) <==>
      f.rollback || f.start || f.prepare || f.commit
      || !(f.isolation || f.commutative || f.native || f.snapshot || f.implicitDeps)
  {
  }

  /** The flag words for which apply_write_set() has a branch. */
  predicate Handled(f: Flags) { f.rollback || f.start || Middle(f) || f.commit }

  /** resolve_return_error(). */
  function Resolve(votes: bool, error: bool, applyError: bool): bool { if votes then error else error || applyError }

  // ---------------------------------------------------------------- the mark of a write set

  /** Whether the write set gets its commit(), append_fragment_and_commit() or
      log_dummy_write_set(), so that its GTID is accounted for. */
  predicate Marked(appliers: map<Key, Applier>, ws: WriteSet, replaying: bool, ans: Answers) {
    var known := ws.key in appliers;
    if ws.flags.rollback then
      ws.flags.start || (known ==> RollbackReached(appliers[ws.key], ws.ordered, ans))
    else if ws.flags.start then
      ws.flags.commit ==> !ans.startFails && (ans.applyFails ==> !ans.rollbackFails)
    else if Middle(ws.flags) then
      known && appliers[ws.key].fragments > 0 && ans.applyFails ==> Cleaned(ans)
    else if ws.flags.commit && replaying then !ans.startFails && !ans.applyFails
    else ws.flags.commit && (known ==> CommitReached(appliers[ws.key], ans))
  }

  /** With only applying allowed to fail, every ordered write set on a handled flag word gets
      its mark, unless applying fails in a replay. */
  lemma GtidContinuity(appliers: map<Key, Applier>, ws: WriteSet, replaying: bool, ans: Answers)
    requires OnlyApplyFails(ans) && ws.ordered && Handled(ws.flags)
    ensures !Marked(appliers, ws, replaying, ans) <==>
      && replaying && ans.applyFails && ws.flags.commit
      && !ws.flags.rollback && !ws.flags.start && !ws.flags.prepare
  {
  }

  /** Whether the fragments of an applier that failed to apply could be taken back. */
  predicate Cleaned(ans: Answers) { !ans.rollbackFails && !ans.startFails && !ans.removeFails }

  /** Whether commit_fragment() gets as far as commit(). */
  predicate CommitReached(sa: Applier, ans: Answers) {
    if ans.applyFails then Cleaned(ans) else sa.prepared || !ans.removeFails
  }

  /** Whether rollback_fragment() gets as far as commit() or the dummy write set. */
  predicate RollbackReached(sa: Applier, ordered: bool, ans: Answers) {
    !ans.rollbackFails && if sa.fragments > 0 then !ans.adoptFails && !ans.removeFails else ordered
  }

  /** What apply_fragment() returns: an applier that is kept after a failed apply is an error, and so
      is one that is dropped without a vote. */
  predicate FragmentError(sa: Applier, ans: Answers) {
    if ans.applyFails then !(FragmentDrops(sa, ans) && ans.votes) else ans.appendFails
  }

  /** Whether apply_fragment() drops the applier. */
  predicate FragmentDrops(sa: Applier, ans: Answers) {
    ans.applyFails && if sa.fragments > 0 then Cleaned(ans) && !ans.commitFails else !ans.dummyFails
  }

  /** What commit_fragment() returns; it drops the applier exactly if this is false. */
  predicate CommitError(sa: Applier, ans: Answers) {
    !CommitReached(sa, ans) || ans.commitFails || (ans.applyFails && !ans.votes)
  }

  /** What rollback_fragment() returns. */
  predicate RollbackError(sa: Applier, ordered: bool, ans: Answers) {
    || ans.rollbackFails
    || (if sa.fragments > 0 then !ans.adoptFails && (ans.removeFails || ans.commitFails) else ordered && ans.dummyFails)
  }

  /** What apply_write_set() returns, on a handled flag word. */
  predicate ApplyError(appliers: map<Key, Applier>, ws: WriteSet, replaying: bool, ans: Answers) {
    var known := ws.key in appliers;
    if ws.flags.rollback then
      if !ws.flags.start && known then RollbackError(appliers[ws.key], ws.ordered, ans) else ans.dummyFails
    else if ws.flags.start && ws.flags.commit then WholeError(ans)
    else if ws.flags.start then FragmentError(Applier(0, false), ans)
    else if Middle(ws.flags) then if known then FragmentError(appliers[ws.key], ans) else ans.dummyFails
    else if replaying then ans.startFails || ans.applyFails || ans.commitFails
    else if known then CommitError(appliers[ws.key], ans)
    else ans.dummyFails
  }

  predicate WholeError(ans: Answers) {
    || ans.startFails
    || (if ans.applyFails then !ans.votes || ans.rollbackFails || ans.dummyFails else ans.commitFails)
  }

  /** The flag words that need an applier. */
  predicate Searches(f: Flags, replaying: bool) {
    !f.start && (f.rollback || Middle(f) || (f.commit && !replaying))
  }

  predicate Opens(f: Flags) { f.start && !f.rollback && !f.commit }

  predicate Closes(f: Flags, replaying: bool) { f.commit && !f.start && !f.rollback && !Middle(f) && !replaying }

  /** The applier map after a write set with every callback succeeding: absent, present, absent. */
  function Delivered(appliers: map<Key, Applier>, ws: WriteSet, replaying: bool): map<Key, Applier> {
    if Opens(ws.flags) then appliers[ws.key := Grown(Applier(0, false), false, ws.flags.prepare)]
    else if ws.flags.start then appliers
    else if !ws.flags.rollback && Middle(ws.flags) then
      if ws.key in appliers then
        appliers[ws.key := Grown(appliers[ws.key], ws.flags.commit, ws.flags.prepare)]
      else appliers
    else if !ws.flags.rollback && replaying then appliers
    else appliers - {ws.key}
  }

  // ---------------------------------------------------------------- server_state

  class Server {
    var appliers: map<Key, Applier>   // streaming_appliers_
    var marks: nat                    // commit, append_fragment_and_commit and log_dummy_write_set calls
    var strays: nat                   // write sets that looked for an applier in vain
    var assertionFailed: bool

    constructor ()
      ensures appliers == map[] && marks == 0 && strays == 0 && !assertionFailed
    {
      appliers, marks, strays, assertionFailed := map[], 0, 0, false;
    }

    /** stop_streaming_applier() and release of the service. */
    method Discard(key: Key)
      requires key in appliers
      modifies `appliers
      ensures appliers == old(appliers) - {key}
    {
      appliers := appliers - {key};
    }

    /** apply_fragment().  The applier is dropped exactly when applying fails and the clean-up
        of its fragments, or the dummy write set if it has none, succeeds. */
    method ApplyFragment(ws: WriteSet, ans: Answers) returns (error: bool)
      requires ws.key in appliers
      modifies `appliers, `marks
      ensures appliers - {ws.key} == old(appliers) - {ws.key}
      ensures ws.key !in appliers <==> FragmentDrops(old(appliers[ws.key]), ans)
      ensures !ans.applyFails ==>
        appliers == old(appliers)[ws.key := Grown(old(appliers[ws.key]), ws.flags.commit, ws.flags.prepare)]
      ensures marks == old(marks) +
        if ans.applyFails && old(appliers[ws.key]).fragments > 0 && !Cleaned(ans) then 0 else 1
      ensures error <==> FragmentError(old(appliers[ws.key]), ans)
    {
      error := false;
      var sa := appliers[ws.key];
      if !ans.applyFails {
        var n := if ws.flags.commit then sa.fragments else sa.fragments + 1;
        appliers := appliers[ws.key := Applier(n, sa.prepared || ws.flags.prepare)];
      } else {
        error := ans.rollbackFails;
        if sa.fragments > 0 {
          error := error || ans.startFails;
          error := error || ans.removeFails;
          if !error {
            marks := marks + 1;
            error := ans.commitFails;
          }
        } else {
          marks := marks + 1;
          error := ans.dummyFails;
        }
      }
      if !error {
        if !ans.applyFails {
          marks := marks + 1;
          error := ans.appendFails;
        } else {
          Discard(ws.key);
          error := Resolve(ans.votes, error, ans.applyFails);
        }
      }
    }

    /** commit_fragment().  The applier is dropped exactly when no error is returned. */
    method CommitFragment(ws: WriteSet, ans: Answers) returns (error: bool)
      requires ws.key in appliers
      modifies `appliers, `marks, `assertionFailed
      ensures appliers == if error then old(appliers) else old(appliers) - {ws.key}
      ensures marks == old(marks) + if CommitReached(old(appliers[ws.key]), ans) then 1 else 0
      ensures error <==> CommitError(old(appliers[ws.key]), ans)
      ensures assertionFailed <==> old(assertionFailed) || (ans.applyFails && old(appliers[ws.key]).fragments == 0)
    {
      error := false;
      var prepared := appliers[ws.key].prepared;
      if ans.applyFails {
        if appliers[ws.key].fragments == 0 { assertionFailed := true; }
        error := ans.rollbackFails;
        error := error || ans.startFails;
        prepared := false;   // the applier has started over
      }
      if !prepared { error := error || ans.removeFails; }
      if !error {
        marks := marks + 1;
        error := ans.commitFails;
      }
      error := Resolve(ans.applyFails && ans.votes, error, ans.applyFails);
      if !error { Discard(ws.key); }
    }

    /** rollback_fragment().  The applier is dropped even if its fragments cannot be removed. */
    method RollbackFragment(ws: WriteSet, ans: Answers) returns (error: bool)
      requires ws.key in appliers
      modifies `appliers, `marks
      ensures appliers == if ans.rollbackFails then old(appliers) else old(appliers) - {ws.key}
      ensures marks == old(marks) + if RollbackReached(old(appliers[ws.key]), ws.ordered, ans) then 1 else 0
      ensures error <==> RollbackError(old(appliers[ws.key]), ws.ordered, ans)
    {
      var streamed := appliers[ws.key].fragments > 0;
      var adoptError := streamed && ans.adoptFails;
      error := ans.rollbackFails;
      if !error {
        Discard(ws.key);
        if !adoptError {
          if streamed {
            error := ans.removeFails;
            if !error {
              marks := marks + 1;
              error := ans.commitFails;
            }
          } else if ws.ordered {
            marks := marks + 1;
            error := ans.dummyFails;
          }
        }
      }
    }

    /** log_dummy_write_set(). */
    method LogDummy(ans: Answers) returns (error: bool)
      modifies `marks
      ensures marks == old(marks) + 1 && error == ans.dummyFails
    {
      marks := marks + 1;
      error := ans.dummyFails;
    }

    /** A write set with the rollback flag. */
    method ApplyRollback(ws: WriteSet, ans: Answers) returns (error: bool)
      requires ws.flags.rollback
      modifies `appliers, `marks, `strays
      ensures marks == old(marks) + if Marked(old(appliers), ws, false, ans) then 1 else 0
      ensures appliers == if ws.flags.start || ans.rollbackFails then old(appliers) else old(appliers) - {ws.key}
      ensures strays == old(strays) + if !ws.flags.start && ws.key !in old(appliers) then 1 else 0
      ensures error <==> ApplyError(old(appliers), ws, false, ans)
    {
      if ws.flags.start {
        error := LogDummy(ans);
      } else if ws.key !in appliers {
        assert appliers - {ws.key} == appliers;
        strays := strays + 1;
        error := LogDummy(ans);
      } else {
        error := RollbackFragment(ws, ans);
      }
    }

    /** A whole transaction in one write set. */
    method ApplyWhole(ans: Answers) returns (error: bool)
      modifies `marks
      ensures marks == old(marks) + if !ans.startFails && (ans.applyFails ==> !ans.rollbackFails) then 1 else 0
      ensures error <==> WholeError(ans)
    {
      error := ans.startFails;
      if !error {
        if !ans.applyFails {
          marks := marks + 1;
          error := ans.commitFails;
        } else {
          error := ans.rollbackFails;
          if !error { error := LogDummy(ans); }
          error := Resolve(ans.votes, error, ans.applyFails);
        }
      }
    }

    /** A fragment between the first and the last. */
    method ApplyMiddle(ws: WriteSet, ans: Answers) returns (error: bool)
      modifies `appliers, `marks, `strays
      ensures marks == old(marks) +
        if ans.applyFails && ws.key in old(appliers) && old(appliers[ws.key]).fragments > 0 && !Cleaned(ans) then 0
        else 1
      ensures appliers - {ws.key} == old(appliers) - {ws.key}
      ensures strays == old(strays) + if ws.key !in old(appliers) then 1 else 0
      ensures ws.key !in old(appliers) ==> appliers == old(appliers)
      ensures ws.key in old(appliers) ==> (ws.key !in appliers <==> FragmentDrops(old(appliers[ws.key]), ans))
      ensures ws.key in old(appliers) && !ans.applyFails ==>
        appliers == old(appliers)[ws.key := Grown(old(appliers[ws.key]), ws.flags.commit, ws.flags.prepare)]
      ensures error <==> if ws.key in old(appliers) then FragmentError(old(appliers[ws.key]), ans) else ans.dummyFails
    {
      if ws.key !in appliers {
        strays := strays + 1;
        error := LogDummy(ans);
      } else {
        error := ApplyFragment(ws, ans);
      }
    }

    /** The last fragment of a streaming transaction. */
    method ApplyCommit(ws: WriteSet, replaying: bool, ans: Answers) returns (error: bool)
      modifies this
      ensures marks == old(marks) +
        if replaying then (if !ans.startFails && !ans.applyFails then 1 else 0)
        else if ws.key in old(appliers) && !CommitReached(old(appliers[ws.key]), ans) then 0 else 1
      ensures appliers ==
        if replaying || ws.key !in old(appliers) || CommitError(old(appliers[ws.key]), ans) then old(appliers)
        else old(appliers) - {ws.key}
      ensures strays == old(strays) + if !replaying && ws.key !in old(appliers) then 1 else 0
      ensures assertionFailed <==>
        || old(assertionFailed)
        || (!replaying && ws.key in old(appliers) && ans.applyFails && old(appliers[ws.key]).fragments == 0)
      ensures error <==>
        if replaying then ans.startFails || ans.applyFails || ans.commitFails
        else if ws.key in old(appliers) then CommitError(old(appliers[ws.key]), ans)
        else ans.dummyFails
    {
      if replaying {
        error := ans.startFails || ans.applyFails;
        if !error {
          marks := marks + 1;
          error := ans.commitFails;
        }
      } else if ws.key !in appliers {
        assert appliers - {ws.key} == appliers;
        strays := strays + 1;
        error := LogDummy(ans);
      } else {
        error := CommitFragment(ws, ans);
      }
    }

    /** apply_write_set(): at most one mark, exactly when Marked says so; no other applier is
        touched; a flag word without a branch fails an assertion. */
    method ApplyWriteSet(ws: WriteSet, replaying: bool, ans: Answers) returns (error: bool)
      requires !assertionFailed
      modifies this
      ensures marks == old(marks) + if Marked(old(appliers), ws, replaying, ans) then 1 else 0
      ensures appliers - {ws.key} == old(appliers) - {ws.key}
      ensures strays == old(strays) + if Searches(ws.flags, replaying) && ws.key !in old(appliers) then 1 else 0
      ensures assertionFailed <==>
        || !Handled(ws.flags)
        || (Opens(ws.flags) && ws.key in old(appliers))
        || (Closes(ws.flags, replaying) && ws.key in old(appliers)
            && ans.applyFails && old(appliers[ws.key]).fragments == 0)
      ensures Handled(ws.flags) ==> (error <==> ApplyError(old(appliers), ws, replaying, ans))
      ensures !assertionFailed && ans == ALL_WELL ==> appliers == Delivered(old(appliers), ws, replaying)
    {
      error := false;
      if ws.flags.rollback {
        error := ApplyRollback(ws, ans);
      } else if ws.flags.start && ws.flags.commit {
        error := ApplyWhole(ans);
      } else if ws.flags.start {
        if ws.key in appliers { assertionFailed := true; }
        appliers := appliers[ws.key := Applier(0, false)];
        error := ApplyFragment(ws, ans);
      } else if Middle(ws.flags) {
        error := ApplyMiddle(ws, ans);
      } else if ws.flags.commit {
        error := ApplyCommit(ws, replaying, ans);
        assert ws.key !in old(appliers) ==> old(appliers) - {ws.key} == old(appliers);
      } else {
        assertionFailed := true;
      }
    }
  }

  // ---------------------------------------------------------------- originators and receivers

  /** An event of the transaction `key`, as the cluster delivers it. */
  datatype Delivery = Delivery(key: Key, event: WireEvent)

  /** What has been delivered of one transaction. */
  function LogOf(ds: seq<Delivery>, k: Key): WireLog {
    if |ds| == 0 then Silence
    else
      var before := LogOf(ds[..|ds| - 1], k);
      if ds[|ds| - 1].key == k then Then(before, ds[|ds| - 1].event) else before
  }

  predicate IsWriteSet(e: WireEvent) { !e.FragmentRefused? }

  /** The flag word of an event's write set. */
  function FlagsOf(e: WireEvent): Flags
    requires IsWriteSet(e)
  {
    if e.RollbackSent? then NO_FLAGS.(rollback := true) else e.flags
  }

  /** Every transaction keeps to the wire protocol. */
  ghost predicate InProtocol(ds: seq<Delivery>) {
    forall k :: !WireOf(LogOf(ds, k)).Broken?
  }

  /** `part` is what came first in `log`. */
  predicate Begins(part: WireLog, log: WireLog) { part == log || (log.Then? && Begins(part, log.before)) }

  lemma {:induction false} BeginningNotBroken(part: WireLog, log: WireLog)
    requires Begins(part, log) && !WireOf(log).Broken?
    ensures !WireOf(part).Broken?
  {
    if part != log { BeginningNotBroken(part, log.before); }
  }

  /** A run of an originator that stays in the protocol: no fragment after the first with implicit
      dependencies, no announced rollback of a prepared transaction. */
  ghost predicate PlainRun(run: Run) {
    Legal(run) && !EndsInHazard(run) && !StateAfter(run).OutOfProtocol()
  }

  /** What is delivered is what plain runs have sent, as far as it has got, in any interleaving. */
  ghost predicate Delivers(ds: seq<Delivery>, runs: map<Key, Run>) {
    forall k ::
      if k in runs then PlainRun(runs[k]) && Begins(LogOf(ds, k), StateAfter(runs[k]).sent)
      else LogOf(ds, k).Silence?
  }

  lemma OriginatorsInProtocol(ds: seq<Delivery>, runs: map<Key, Run>)
    requires Delivers(ds, runs)
    ensures InProtocol(ds)
  {
    forall k
      ensures !WireOf(LogOf(ds, k)).Broken?
    {
      if k in runs {
        WireProtocol(runs[k]);
        BeginningNotBroken(LogOf(ds, k), StateAfter(runs[k]).sent);
      } else {
        assert LogOf(ds, k).Silence?;
      }
    }
  }

  lemma PrefixInProtocol(ds: seq<Delivery>, d: Delivery)
    requires InProtocol(ds + [d])
    ensures InProtocol(ds)
  {
    forall k
      ensures !WireOf(LogOf(ds, k)).Broken?
    {
      assert (ds + [d])[..|ds|] == ds;
      assert !WireOf(LogOf(ds + [d], k)).Broken?;
    }
  }

  /** Rollbacks after a failed first certification: they find no applier, by design. */
  function UnneededRollbacks(ds: seq<Delivery>): nat {
    if |ds| == 0 then 0
    else
      var last, before := ds[|ds| - 1], ds[..|ds| - 1];
      UnneededRollbacks(before) + if last.event.RollbackSent? && WireOf(LogOf(before, last.key)).Refused? then 1 else 0
  }

  /** How many fragments of a transaction were sent, ... */
  function FragmentsIn(log: WireLog): nat {
    match log
    case Silence => 0
    case Then(before, e) => FragmentsIn(before) + if e.FragmentSent? then 1 else 0
  }

  /** ... and whether one of them had the prepare flag. */
  predicate PreparesIn(log: WireLog) {
    log.Then? && (PreparesIn(log.before) || (log.last.FragmentSent? && log.last.flags.prepare))
  }

  lemma {:induction false} NothingBeforeStart(log: WireLog)
    requires WireOf(log).Fresh? || WireOf(log).Refused?
    ensures FragmentsIn(log) == 0 && !PreparesIn(log)
  {
    if log.Then? { NothingBeforeStart(log.before); }
  }

  function WriteSets(ds: seq<Delivery>): nat {
    if |ds| == 0 then 0
    else WriteSets(ds[..|ds| - 1]) + if IsWriteSet(ds[|ds| - 1].event) then 1 else 0
  }

  /** Originators and receiver agree, end to end: whatever the runs of any number of local
      transactions have sent, delivered in any interleaving, leaves an applier exactly for the
      transactions that are open on the wire, and meets neither a missing applier nor a flag word
      without a branch, but for rollbacks after a failed first certification. */
  method EndToEnd(ds: seq<Delivery>, ghost runs: map<Key, Run>) returns (server: Server)
    requires Delivers(ds, runs)
    ensures forall k :: k in server.appliers <==> WireOf(LogOf(ds, k)).Open?
    ensures forall k | k in server.appliers ::
      server.appliers[k] == Applier(FragmentsIn(LogOf(ds, k)), PreparesIn(LogOf(ds, k)))
    ensures !server.assertionFailed && server.strays == UnneededRollbacks(ds) && server.marks == WriteSets(ds)
  {
    OriginatorsInProtocol(ds, runs);
    server := DeliverAll(ds);
  }

  /** Any interleaving of transactions in the protocol, services succeeding: an applier exists
      exactly for the transactions that are open on the wire, no assertion fails, no write set
      but an unneeded rollback misses its applier, and every write set is accounted for. */
  method DeliverAll(ds: seq<Delivery>) returns (server: Server)
    requires InProtocol(ds)
    ensures forall k :: k in server.appliers <==> WireOf(LogOf(ds, k)).Open?
    ensures forall k | k in server.appliers ::
      server.appliers[k] == Applier(FragmentsIn(LogOf(ds, k)), PreparesIn(LogOf(ds, k)))
    ensures !server.assertionFailed && server.strays == UnneededRollbacks(ds) && server.marks == WriteSets(ds)
  {
    server := new Server();
    var n := 0;
    while n < |ds|
      invariant 0 <= n <= |ds| && fresh(server)
      invariant Mirrors(server.appliers, ds[..n])
      invariant !server.assertionFailed
      invariant server.strays == UnneededRollbacks(ds[..n]) && server.marks == WriteSets(ds[..n])
    {
      var d := ds[n];
      PrefixesInProtocol(ds, n + 1);
      assert ds[..n + 1] == ds[..n] + [d];
      MirrorsNext(server.appliers, ds[..n], d);
      if IsWriteSet(d.event) {
        var _ := server.ApplyWriteSet(WriteSet(d.key, FlagsOf(d.event), true), false, ALL_WELL);
      }
      n := n + 1;
    }
    assert ds[..|ds|] == ds;
  }

  /** An applier for exactly the transactions that are open, with what was delivered of them. */
  ghost predicate Mirrors(appliers: map<Key, Applier>, ds: seq<Delivery>) {
    && (forall k :: k in appliers <==> WireOf(LogOf(ds, k)).Open?)
    && (forall k | k in appliers :: appliers[k] == Applier(FragmentsIn(LogOf(ds, k)), PreparesIn(LogOf(ds, k))))
  }

  lemma MirrorsNext(appliers: map<Key, Applier>, ds: seq<Delivery>, d: Delivery)
    requires Mirrors(appliers, ds) && InProtocol(ds + [d])
    ensures !IsWriteSet(d.event) ==> Mirrors(appliers, ds + [d])
    ensures IsWriteSet(d.event) ==>
      var ws := WriteSet(d.key, FlagsOf(d.event), true);
      && Mirrors(Delivered(appliers, ws, false), ds + [d])
      && Handled(ws.flags) && !(Opens(ws.flags) && d.key in appliers)
      && (Searches(ws.flags, false) && d.key !in appliers <==>
          d.event.RollbackSent? && WireOf(LogOf(ds, d.key)).Refused?)
  {
    var all := ds + [d];
    assert all[..|ds|] == ds && all[|ds|] == d;
    assert forall k :: k != d.key ==> LogOf(all, k) == LogOf(ds, k);
    assert LogOf(all, d.key) == Then(LogOf(ds, d.key), d.event);
    assert !WireOf(LogOf(all, d.key)).Broken?;
    if d.key !in appliers && d.event.FragmentSent? { NothingBeforeStart(LogOf(ds, d.key)); }
  }

  lemma {:induction false} PrefixesInProtocol(ds: seq<Delivery>, n: nat)
    requires InProtocol(ds) && n <= |ds|
    ensures InProtocol(ds[..n])
    decreases |ds|
  {
    if n < |ds| {
      assert ds == ds[..|ds| - 1] + [ds[|ds| - 1]];
      PrefixInProtocol(ds[..|ds| - 1], ds[|ds| - 1]);
      PrefixesInProtocol(ds[..|ds| - 1], n);
      assert ds[..|ds| - 1][..n] == ds[..n];
    } else {
      assert ds[..n] == ds;
    }
  }

  /** A middle fragment with implicit dependencies has no branch at the receiver. */
  lemma ImplicitDepsFragmentIsNotHandled()
    ensures !Handled(NO_FLAGS.(implicitDeps := true))
  {
  }
}
