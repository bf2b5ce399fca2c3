/**
 * One ingestion queue and its status: the FIFO of waiting ids, the single
 * `processing` slot, and the append-only `done` and `failed` histories.
 * The channel queue and the video queue are two instances of this class.
 */
module Jobs {
  import opened Basics

  /** An entry of the `failed` list: `{"id": id, "error": str(e)}`. */
  datatype Failure = Failure(id: string, error: string)

  /** What a status endpoint returns: copies of the four fields, taken under the lock. */
  datatype Status = Status(
    waiting: seq<string>,
    processing: Option<string>,
    done: seq<string>,
    failed: seq<Failure>)

  /** The ids of the failed records, in order. */
  function FailedIds(failed: seq<Failure>): (ids: seq<string>)
    ensures |ids| == |failed|
    ensures forall k :: 0 <= k < |failed| ==> ids[k] == failed[k].id
  {
    seq(|failed|, k requires 0 <= k < |failed| => failed[k].id)
  }

  /** Every id a snapshot shows, in any of its four places, with multiplicity. */
  function Accounted(s: Status): multiset<string> {
    multiset(s.waiting) + multiset(SeqOf(s.processing)) + multiset(s.done) + multiset(FailedIds(s.failed))
  }

  /** How many of the four places of `s` hold `id`. */
  function Places(s: Status, id: string): nat {
    (if id in s.waiting then 1 else 0)
    + (if s.processing == Some(id) then 1 else 0)
    + (if id in s.done then 1 else 0)
    + (if id in FailedIds(s.failed) then 1 else 0)
  }

  /**
   * An id enqueued once is shown in exactly one place: waiting, processing,
   * done or failed, never in two and never in none.
   */
  lemma ExactlyOnePlace(s: Status, id: string)
    requires Accounted(s)[id] == 1
    ensures Places(s, id) == 1
  {
  }

  class JobQueue {
    var waiting: seq<string>
    var processing: Option<string>
    var done: seq<string>
    var failed: seq<Failure>
    /** Every id ever enqueued, in enqueue order. */
    ghost var enqueued: seq<string>
    /** The ids the worker has taken and finished, in the order it took them. */
    ghost var finished: seq<string>

    /**
     * The worker takes ids in enqueue order (FIFO), and each finished id is
     * recorded once, in `done` or in `failed`.
     */
    ghost predicate Valid()
      reads this
    {
      && enqueued == finished + SeqOf(processing) + waiting
      && multiset(finished) == multiset(done) + multiset(FailedIds(failed))
    }

    /** `asyncio.Queue()` with `None` and two empty lists. */
    constructor ()
      ensures Valid()
      ensures waiting == [] && processing == None && done == [] && failed == []
      ensures enqueued == []
    {
      waiting, processing, done, failed := [], None, [], [];
      enqueued, finished := [], [];
    }

    /** `queue.put(id)`: appended at the tail, duplicates kept. */
    method Enqueue(id: string)
      requires Valid()
      modifies this
      ensures Valid()
      ensures waiting == old(waiting) + [id]
      ensures processing == old(processing) && done == old(done) && failed == old(failed)
      ensures enqueued == old(enqueued) + [id] && finished == old(finished)
    {
      waiting := waiting + [id];
      enqueued := enqueued + [id];
    }

    /** The worker's first locked block: pop the head and mark it processing. */
    method Begin() returns (id: string)
      requires Valid()
      requires waiting != [] && processing == None
      modifies this
      ensures Valid()
      ensures id == old(waiting[0]) && waiting == old(waiting[1..])
      ensures processing == Some(id)
      ensures done == old(done) && failed == old(failed)
      ensures enqueued == old(enqueued) && finished == old(finished)
    {
      id := waiting[0];
      waiting := waiting[1..];
      processing := Some(id);
    }

    /**
     * The worker's closing locked blocks: record the id in `done` when the job
     * returned, or with `str(e)` in `failed` when it raised, then clear the slot.
     */
    method Finish(error: Option<string>)
      requires Valid()
      requires processing.Some?
      modifies this
      ensures Valid()
      ensures processing == None && waiting == old(waiting)
      ensures enqueued == old(enqueued) && finished == old(finished) + [old(processing.value)]
      ensures error.None? ==> done == old(done) + [old(processing.value)] && failed == old(failed)
      ensures error.Some? ==> failed == old(failed) + [Failure(old(processing.value), error.value)] && done == old(done)
    {
      var id := processing.value;
      if error.None? {
        done := done + [id];
      } else {
        var e := error.value;
        assert FailedIds(failed + [Failure(id, e)]) == FailedIds(failed) + [id];
        failed := failed + [Failure(id, e)];
      }
      finished := finished + [id];
      processing := None;
    }

    /**
     * The status endpoint: a copy of all four fields. Every id ever enqueued is
     * accounted for, duplicates as separate entries.
     */
    function Snapshot(): (s: Status)
      reads this
      requires Valid()
      ensures s.waiting == waiting && s.processing == processing && s.done == done && s.failed == failed
      ensures Accounted(s) == multiset(enqueued)
    {
      Status(waiting, processing, done, failed)
    }
  }
}
