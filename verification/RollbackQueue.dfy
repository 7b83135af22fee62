/** The queue of rollback events that could not be replicated at once, and the ledger of the
    transactions that use it. */
module RollbackQueue {

  /** server_state::rollback_event_queue_ and what is observed of it. */
  class Queue {
    var queue: seq<nat>                 // rollback_event_queue_
    var replicated: seq<nat>            // events the provider has taken, in order
    ghost var queued: seq<nat>          // every event ever queued, in order

    /** Nothing is lost, doubled or reordered. */
    ghost predicate Valid()
      reads this
    {
      queued == replicated + queue
    }

    constructor ()
      ensures Valid() && queue == [] && replicated == [] && queued == []
    {
      queue, replicated, queued := [], [], [];
    }

    /** queue_rollback_event(); the source asserts that the id is not queued yet. */
    method QueueEvent(id: nat)
      requires Valid() && id !in queue
      modifies this
      ensures Valid() && queued == old(queued) + [id] && queue == old(queue) + [id] && replicated == old(replicated)
    {
      queue := queue + [id];
      queued := queued + [id];
    }

    /** send_pending_rollback_events(): `answers` are those of provider::rollback(), true for
        success.  The queue is drained in order up to the first failure. */
    method SendPending(answers: seq<bool>) returns (ok: bool)
      requires Valid() && |queue| <= |answers|
      modifies this
      ensures Valid() && queued == old(queued)
      ensures replicated + queue == old(replicated) + old(queue) && |queue| <= |old(queue)|
      ensures ok <==> forall i :: 0 <= i < |old(queue)| ==> answers[i]
      ensures ok ==> queue == []
      ensures !ok ==> queue != [] && !answers[|old(queue)| - |queue|]
      ensures forall i :: 0 <= i < |old(queue)| - |queue| ==> answers[i]
    {
      var n := 0;
      while queue != []
        invariant n <= |old(queue)| && queue == old(queue)[n..]
        invariant replicated == old(replicated) + old(queue)[..n]
        invariant forall i :: 0 <= i < n ==> answers[i]
        invariant queued == old(queued)
        decreases |queue|
      {
        if !answers[n] {
          assert old(queue)[..n] + old(queue)[n..] == old(queue);
          return false;
        }
        replicated := replicated + [queue[0]];
        queue := queue[1..];
        n := n + 1;
      }
      assert old(queue)[..n] == old(queue);
      return true;
    }
  }

  /** What the ledger knows of a transaction: whether the flush for its next certification has
      succeeded, whether its rollback has been announced, and whether it has failed an assertion. */
  datatype Book = Book(flushed: bool, announced: bool, failed: bool)

  /** A certification: how many events had been queued when the flush before it began, and how many
      had been replicated when it took place. */
  datatype Certification = Certification(queuedAtFlush: nat, replicated: nat)

  predicate Distinct(s: seq<nat>) { forall i, j :: 0 <= i < j < |s| ==> s[i] != s[j] }

  /** The transactions of a server, of whatever type, with the part of each that the ledger sees. */
  class Ledger<T> {
    const queue: Queue
    const book: T -> Book
    var items: map<nat, T>                  // transactions by id
    var flushes: map<nat, nat>              // events queued when a transaction last flushed
    var certifications: seq<Certification>

    /** Only announced rollbacks have been queued, each once; whatever had been queued before a flush
        that still stands is replicated, and so it was before every certification. */
    ghost predicate Valid()
      reads this, queue
    {
      && queue.Valid() && Distinct(queue.queued)
      && (forall k | k in queue.queued :: k in items && (book(items[k]).announced || book(items[k]).failed))
      && (forall k | k in items && book(items[k]).flushed && !book(items[k]).failed ::
            k in flushes && flushes[k] <= |queue.replicated|)
      && (forall i | 0 <= i < |certifications| ::
            certifications[i].queuedAtFlush <= certifications[i].replicated <= |queue.replicated|)
    }

    constructor (book: T -> Book)
      ensures Valid() && fresh(queue) && this.book == book && items == map[] && certifications == []
    {
      queue := new Queue();
      this.book := book;
      items, flushes, certifications := map[], map[], [];
    }

    method Begin(id: nat, item: T)
      requires Valid() && id !in items && book(item) == Book(false, false, false)
      modifies this
      ensures Valid() && items == old(items)[id := item] && certifications == old(certifications)
    {
      items := items[id := item];
    }

    /** A step of a transaction that may certify or queue its rollback. */
    method Record(id: nat, after: T, certifies: bool, queues: bool)
      requires Valid() && id in items && !book(items[id]).failed
      requires book(after).failed || (book(items[id]).announced ==> book(after).announced)
      requires book(after).failed || (book(after).flushed ==> book(items[id]).flushed)
      requires certifies ==> book(items[id]).flushed
      requires queues ==> !book(items[id]).announced && (book(after).announced || book(after).failed)
      modifies this, queue
      ensures Valid() && items == old(items)[id := after]
      ensures queue.queued == old(queue.queued) + (if queues then [id] else [])
      ensures |certifications| == |old(certifications)| + (if certifies then 1 else 0)
    {
      if certifies {
        certifications := certifications + [Certification(flushes[id], |queue.replicated|)];
      }
      if queues {
        assert id !in queue.queued;
        queue.QueueEvent(id);
      }
      items := items[id := after];
    }

    /** send_pending_rollback_events() for a transaction that is about to certify. */
    method Flush(id: nat, answers: seq<bool>) returns (ok: bool)
      requires Valid() && id in items && !book(items[id]).failed && |queue.queue| <= |answers|
      modifies this, queue
      ensures Valid() && items == old(items) && certifications == old(certifications)
      ensures queue.queued == old(queue.queued) && (ok <==> forall i :: 0 <= i < |old(queue.queue)| ==> answers[i])
      ensures ok ==> id in flushes && flushes[id] == |queue.queued| == |queue.replicated|
    {
      ok := queue.SendPending(answers);
      if ok { flushes := flushes[id := |queue.replicated|]; }
    }

    /** The step that takes the outcome of a flush. */
    method Settle(id: nat, after: T, ok: bool)
      requires Valid() && id in items && !book(items[id]).failed
      requires book(after).failed || (book(items[id]).announced ==> book(after).announced)
      requires book(after).failed || (book(after).flushed ==> book(items[id]).flushed || ok)
      requires ok ==> id in flushes && flushes[id] <= |queue.replicated|
      modifies this
      ensures Valid() && items == old(items)[id := after] && certifications == old(certifications)
    {
      items := items[id := after];
    }
  }
}
