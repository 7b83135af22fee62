/** The bookkeeping of a streaming transaction: when a step makes a fragment, and which fragments
    are stored. */
module StreamingContext {

  datatype Unit = Bytes | Row | Statement

  datatype Mark = NotRolledBack | RolledBackFor(trx: nat)

  /** What streaming_step() decides. */
  datatype Decision = Inconsistent | NotYet | Replicate

  class Context {
    var certified: nat          // fragments_certified_
    var stored: seq<nat>        // fragments_
    var mark: Mark              // rollback_replicated_for_
    var fragmentUnit: Unit
    var fragmentSize: nat
    var counter: nat            // unit_counter_
    var logPosition: nat

    /** Stored fragments come in order, and each of them was certified. */
    ghost predicate Valid()
      reads this
    {
      Increasing(stored) && |stored| <= certified
    }

    constructor (u: Unit, size: nat)
      ensures Valid() && certified == 0 && stored == [] && mark.NotRolledBack? && counter == 0 && logPosition == 0
      ensures fragmentUnit == u && fragmentSize == size
    {
      certified, stored, mark, counter, logPosition := 0, [], NotRolledBack, 0, 0;
      fragmentUnit, fragmentSize := u, size;
    }

    /** streaming_step(), up to the call of certify_fragment(). */
    method Step(bytesGenerated: nat, force: bool) returns (d: Decision)
      modifies `counter
      ensures d.Inconsistent? <==> bytesGenerated < logPosition
      ensures d.Inconsistent? ==> counter == old(counter)
      ensures !d.Inconsistent? ==>
        var count := if fragmentUnit.Bytes? then bytesGenerated - logPosition else old(counter) + 1;
        && (d.Replicate? <==> force || (bytesGenerated > logPosition && count >= fragmentSize))
        && counter == if d.Replicate? then 0 else count
    {
      if bytesGenerated < logPosition { return Inconsistent; }
      var pending := bytesGenerated - logPosition;
      if fragmentUnit.Bytes? {
        counter := pending;
      } else {
        counter := counter + 1;
      }
      if pending == 0 && !force { return NotYet; }
      if counter >= fragmentSize || force {
        counter := 0;
        return Replicate;
      }
      return NotYet;
    }

    /** A fragment has been certified; with `store` its meta data has been stored as well. */
    method Certified(position: nat, seqno: nat, store: bool)
      requires Valid() && (store ==> stored == [] || stored[|stored| - 1] < seqno)
      modifies this
      ensures Valid() && certified == old(certified) + 1 && logPosition == position
      ensures stored == if store then old(stored) + [seqno] else old(stored)
      ensures counter == old(counter) && mark == old(mark)
      ensures fragmentUnit == old(fragmentUnit) && fragmentSize == old(fragmentSize)
    {
      logPosition := position;
      certified := certified + 1;
      if store { stored := stored + [seqno]; }
    }

    /** applied(): the same on the receiving side. */
    method Applied(seqno: nat)
      requires Valid() && (stored == [] || stored[|stored| - 1] < seqno)
      modifies `certified, `stored
      ensures Valid() && certified == old(certified) + 1 && stored == old(stored) + [seqno]
    {
      certified := certified + 1;
      stored := stored + [seqno];
    }

    /** rolled_back(); the source asserts that it is called once. */
    method RolledBack(trx: nat)
      requires mark.NotRolledBack?
      modifies `mark
      ensures mark == RolledBackFor(trx)
    {
      mark := RolledBackFor(trx);
    }

    method Cleanup()
      modifies this
      ensures Valid() && certified == 0 && stored == [] && mark.NotRolledBack? && counter == 0 && logPosition == 0
      ensures fragmentUnit == old(fragmentUnit) && fragmentSize == old(fragmentSize)
    {
      certified, stored, mark, counter, logPosition := 0, [], NotRolledBack, 0, 0;
    }
  }

  predicate Increasing(s: seq<nat>) { forall i, j :: 0 <= i < j < |s| ==> s[i] < s[j] }

  /** Bytes generated so far, after each step: never less, and more wherever `fresh`. */
  predicate Grows(bytes: seq<nat>) { forall i :: 0 < i < |bytes| ==> bytes[i - 1] <= bytes[i] }

  predicate FreshData(bytes: seq<nat>) {
    (bytes != [] ==> bytes[0] > 0) && forall i :: 0 < i < |bytes| ==> bytes[i - 1] < bytes[i]
  }

  /** Row or statement units, certifications succeeding: with new data in every step, n steps make
      n / k fragments and leave n % k on the counter; without it there are at most that many. */
  method CountedSteps(k: nat, u: Unit, bytes: seq<nat>, seqnos: seq<nat>) returns (ctx: Context)
    requires k > 0 && !u.Bytes? && Grows(bytes) && |seqnos| == |bytes| && Increasing(seqnos)
    ensures FreshData(bytes) ==> ctx.certified == |bytes| / k && ctx.counter == |bytes| % k
    ensures ctx.certified * k + ctx.counter <= |bytes|
    ensures Increasing(ctx.stored) && |ctx.stored| == ctx.certified
  {
    ctx := new Context(u, k);
    var n := 0;
    while n < |bytes|
      invariant 0 <= n <= |bytes| && fresh(ctx) && ctx.Valid()
      invariant ctx.fragmentUnit == u && ctx.fragmentSize == k && |ctx.stored| == ctx.certified
      invariant n == 0 ==> ctx.logPosition == 0
      invariant n > 0 ==> ctx.logPosition <= bytes[n - 1]
      invariant ctx.stored != [] ==> n > 0 && ctx.stored[|ctx.stored| - 1] <= seqnos[n - 1]
      invariant ctx.certified * k + ctx.counter <= n
      invariant FreshData(bytes) ==> ctx.certified * k + ctx.counter == n && ctx.counter < k
    {
      var d := ctx.Step(bytes[n], false);
      if d.Replicate? {
        ctx.Certified(bytes[n], seqnos[n], true);
        assert ctx.certified * k == (ctx.certified - 1) * k + k;
      }
      n := n + 1;
    }
    if FreshData(bytes) { Quotient(|bytes|, k, ctx.certified, ctx.counter); }
  }

  lemma Quotient(n: nat, k: nat, q: nat, r: nat)
    requires k > 0 && n == q * k + r && r < k
    ensures q == n / k && r == n % k
  {
    var d := n / k - q;
    assert n == n / k * k + n % k;
    assert d * k == r - n % k;
    Scale(d, k);
  }

  lemma Scale(d: int, k: nat)
    requires k > 0
    ensures (d > 0 ==> d * k >= k) && (d < 0 ==> d * k <= -(k as int))
  {
  }

  /** Byte units: after every step fewer than k bytes wait for replication. */
  method ByteSteps(k: nat, bytes: seq<nat>, seqnos: seq<nat>) returns (ctx: Context)
    requires k > 0 && Grows(bytes) && |seqnos| == |bytes| && Increasing(seqnos)
    ensures bytes != [] ==> ctx.logPosition <= bytes[|bytes| - 1] < ctx.logPosition + k
    ensures Increasing(ctx.stored) && |ctx.stored| == ctx.certified && ctx.certified * k <= ctx.logPosition
  {
    ctx := new Context(Bytes, k);
    var n := 0;
    while n < |bytes|
      invariant 0 <= n <= |bytes| && fresh(ctx) && ctx.Valid()
      invariant ctx.fragmentUnit.Bytes? && ctx.fragmentSize == k && |ctx.stored| == ctx.certified
      invariant n == 0 ==> ctx.logPosition == 0
      invariant n > 0 ==> ctx.logPosition <= bytes[n - 1] < ctx.logPosition + k
      invariant ctx.stored != [] ==> n > 0 && ctx.stored[|ctx.stored| - 1] <= seqnos[n - 1]
      invariant ctx.certified * k <= ctx.logPosition
    {
      ghost var before := ctx.logPosition;
      var d := ctx.Step(bytes[n], false);
      if d.Replicate? {
        ctx.Certified(bytes[n], seqnos[n], true);
        assert ctx.certified * k == (ctx.certified - 1) * k + k;
      }
      n := n + 1;
    }
  }
}
