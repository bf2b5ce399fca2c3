/**
 * The two background workers (`process_channel_queue`,
 * `process_video_queue`). One iteration takes the head of its queue, marks it
 * processing, runs the job, records the id as done or failed with `str(e)`,
 * and clears the slot; each iteration is one atomic step here.
 */
module Workers {
  import opened Basics
  import opened Database
  import opened Jobs
  import opened ChannelIngest
  import opened VideoIngest

  /** The record a finished job leaves in `done` (no error) or `failed`. */
  function DoneEntry(id: string, error: Option<string>): seq<string> {
    if error.None? then [id] else []
  }

  function FailedEntry(id: string, error: Option<string>): seq<Failure> {
    if error.Some? then [Failure(id, error.value)] else []
  }

  /** One iteration of the channel worker; on an empty queue it waits and changes nothing. */
  method ProcessChannelQueueStep(queue: JobQueue, store: Store, extract: string -> Extraction<ChannelInfo>) returns (ran: bool)
    requires queue.Valid() && queue.processing == None
    modifies queue, store
    ensures queue.Valid() && queue.processing == None
    ensures ran == (old(queue.waiting) != [])
    ensures !ran ==> unchanged(queue) && unchanged(store)
    ensures ran ==>
      var id := old(queue.waiting[0]);
      var job := ChannelJob(id, extract);
      && queue.waiting == old(queue.waiting[1..])
      && queue.done == old(queue.done) + DoneEntry(id, job.error)
      && queue.failed == old(queue.failed) + FailedEntry(id, job.error)
      && queue.enqueued == old(queue.enqueued)
      && queue.finished == old(queue.finished) + [id]
      && store.videos == old(store.videos) + job.rows
      && store.channels == old(store.channels)
  {
    if queue.waiting == [] {
      return false;
    }
    var id := queue.Begin();
    var error := AddChannelToDb(store, id, extract);
    queue.Finish(error);
    return true;
  }

  /**
   * One iteration of the video worker. Its job may append the video's
   * uploader to the tail of the channel queue; nothing else of that queue changes.
   */
  method ProcessVideoQueueStep(queue: JobQueue, channelQueue: JobQueue, store: Store, extract: string -> Extraction<VideoInfo>)
      returns (ran: bool)
    requires queue != channelQueue
    requires queue.Valid() && queue.processing == None && channelQueue.Valid()
    modifies queue, channelQueue, store
    ensures queue.Valid() && queue.processing == None && channelQueue.Valid()
    ensures ran == (old(queue.waiting) != [])
    ensures !ran ==> unchanged(queue) && unchanged(channelQueue) && unchanged(store)
    ensures ran ==>
      var id := old(queue.waiting[0]);
      var job := VideoJobAsWritten(id, extract, old(store.channels), old(store.videos));
      && queue.waiting == old(queue.waiting[1..])
      && queue.done == old(queue.done) + DoneEntry(id, job.error)
      && queue.failed == old(queue.failed) + FailedEntry(id, job.error)
      && queue.enqueued == old(queue.enqueued)
      && queue.finished == old(queue.finished) + [id]
      && store.videos == old(store.videos) + SeqOf(job.insert)
      && store.channels == old(store.channels)
      && channelQueue.waiting == old(channelQueue.waiting) + SeqOf(job.dependency)
      && channelQueue.enqueued == old(channelQueue.enqueued) + SeqOf(job.dependency)
      && channelQueue.processing == old(channelQueue.processing)
      && channelQueue.done == old(channelQueue.done) && channelQueue.failed == old(channelQueue.failed)
  {
    if queue.waiting == [] {
      return false;
    }
    var id := queue.Begin();
    var error := GetVideoDetails(store, channelQueue, id, extract);
    queue.Finish(error);
    return true;
  }

  /**
   * The channel worker's loop, run for as many iterations as there are
   * extractor answers or until the queue is empty: it takes ids strictly in
   * enqueue order, and the histories only grow.
   */
  method RunChannelWorker(queue: JobQueue, store: Store, extracts: seq<string -> Extraction<ChannelInfo>>)
    requires queue.Valid() && queue.processing == None
    modifies queue, store
    ensures queue.Valid() && queue.processing == None
    ensures var n := if |extracts| < |old(queue.waiting)| then |extracts| else |old(queue.waiting)|;
      && queue.finished == old(queue.finished) + old(queue.waiting)[..n]
      && queue.waiting == old(queue.waiting)[n..]
    ensures queue.enqueued == old(queue.enqueued)
    ensures old(queue.done) <= queue.done && old(queue.failed) <= queue.failed
    ensures old(store.videos) <= store.videos && store.channels == old(store.channels)
  {
    ghost var w0, f0, d0, x0, v0 := queue.waiting, queue.finished, queue.done, queue.failed, store.videos;
    var i := 0;
    while i < |extracts| && queue.waiting != []
      invariant 0 <= i <= |extracts| && i <= |w0|
      invariant queue.Valid() && queue.processing == None
      invariant queue.finished == f0 + w0[..i]
      invariant queue.waiting == w0[i..]
      invariant queue.enqueued == old(queue.enqueued)
      invariant d0 <= queue.done && x0 <= queue.failed
      invariant v0 <= store.videos && store.channels == old(store.channels)
    {
      var ran := ProcessChannelQueueStep(queue, store, extracts[i]);
      assert w0[..i + 1] == w0[..i] + [w0[i]];
      i := i + 1;
    }
  }

  /**
   * The video worker's loop, run like RunChannelWorker; the channel queue
   * only ever gains ids at its tail.
   */
  method RunVideoWorker(queue: JobQueue, channelQueue: JobQueue, store: Store, extracts: seq<string -> Extraction<VideoInfo>>)
    requires queue != channelQueue
    requires queue.Valid() && queue.processing == None && channelQueue.Valid()
    modifies queue, channelQueue, store
    ensures queue.Valid() && queue.processing == None && channelQueue.Valid()
    ensures var n := if |extracts| < |old(queue.waiting)| then |extracts| else |old(queue.waiting)|;
      && queue.finished == old(queue.finished) + old(queue.waiting)[..n]
      && queue.waiting == old(queue.waiting)[n..]
    ensures queue.enqueued == old(queue.enqueued)
    ensures old(queue.done) <= queue.done && old(queue.failed) <= queue.failed
    ensures old(channelQueue.waiting) <= channelQueue.waiting && old(channelQueue.enqueued) <= channelQueue.enqueued
    ensures channelQueue.processing == old(channelQueue.processing)
    ensures channelQueue.done == old(channelQueue.done) && channelQueue.failed == old(channelQueue.failed)
    ensures old(store.videos) <= store.videos && store.channels == old(store.channels)
  {
    ghost var w0 := queue.waiting;
    var i := 0;
    while i < |extracts| && queue.waiting != []
      invariant 0 <= i <= |extracts| && i <= |w0|
      invariant queue.Valid() && queue.processing == None && channelQueue.Valid()
      invariant queue.finished == old(queue.finished) + w0[..i]
      invariant queue.waiting == w0[i..]
      invariant queue.enqueued == old(queue.enqueued)
      invariant old(queue.done) <= queue.done && old(queue.failed) <= queue.failed
      invariant old(channelQueue.waiting) <= channelQueue.waiting && old(channelQueue.enqueued) <= channelQueue.enqueued
      invariant channelQueue.processing == old(channelQueue.processing)
      invariant channelQueue.done == old(channelQueue.done) && channelQueue.failed == old(channelQueue.failed)
      invariant old(store.videos) <= store.videos && store.channels == old(store.channels)
    {
      var ran := ProcessVideoQueueStep(queue, channelQueue, store, extracts[i]);
      assert w0[..i + 1] == w0[..i] + [w0[i]];
      i := i + 1;
    }
  }

  /** Enqueue "@example" on an idle queue; the extractor returns a channel without listing; it ends in `done`. */
  method ChannelScenario(store: Store)
    modifies store
  {
    var queue := new JobQueue();
    queue.Enqueue("@example");
    assert queue.Snapshot().waiting == ["@example"];
    var extract := (url: string) => Returned(Some(ChannelInfo(Some("Example"), Some("@example"), None)));
    var ran := ProcessChannelQueueStep(queue, store, extract);
    assert ran;
    var status := queue.Snapshot();
    assert status.done == ["@example"] && status.processing == None && status.waiting == [] && status.failed == [];
  }

  /** A video whose extraction raises ends in `failed` with the job's message, and the store is unchanged. */
  method VideoFailureScenario(store: Store)
    modifies store
  {
    var videos := new JobQueue();
    var channels := new JobQueue();
    videos.Enqueue("xyz");
    ghost var before := store.videos;
    var extract := (url: string) => Raised("HTTP Error 404");
    var ran := ProcessVideoQueueStep(videos, channels, store, extract);
    var status := videos.Snapshot();
    assert status.failed == [Failure("xyz", ExtractFailedMessage)] && status.done == [];
    assert store.videos == before && channels.waiting == [];
  }

  /** A new video of an unknown channel: one row inserted, its uploader put once on the channel queue. */
  method VideoDependencyScenario()
  {
    var store := new Store([], []);
    var videos := new JobQueue();
    var channels := new JobQueue();
    videos.Enqueue("v1");
    var info := VideoInfo(Some("v1"), "@c", Some("https://www.youtube.com/watch?v=v1"), Some("t"), Some("d"), Some(60), None);
    var ran := ProcessVideoQueueStep(videos, channels, store, (url: string) => Returned(Some(info)));
    assert channels.waiting == ["@c"];
    assert store.videos == [InfoRow(info)];
    assert videos.Snapshot().done == ["v1"];
  }
}
