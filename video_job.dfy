/**
 * The video ingestion job (`get_video_details` with `add_video_to_db`):
 * extract one video, enqueue its channel when the channel lookup fails, skip
 * videos already stored, otherwise insert one row.
 */
module VideoIngest {
  import opened Basics
  import opened Database
  import opened Jobs

  /** The fields of a full video record the job reads. */
  datatype VideoInfo = VideoInfo(
    id: Option<string>,
    uploaderId: string,
    webpageUrl: Option<string>,
    title: Option<string>,
    description: Option<string>,
    duration: Option<int>,
    viewCount: Option<int>)

  /** The job's effects: the uploader id put on the channel queue, the row inserted, and `str(e)` if it raised. */
  datatype VideoEffect = VideoEffect(dependency: Option<string>, insert: Option<VideoRow>, error: Option<string>)

  const VideoBaseUrl: string := "https://www.youtube.com/watch?v="
  const ExtractFailedMessage: string := "Failed to extract YouTube info"
  /** `str(e)` of the AttributeError `info.get` raises when the extractor returned None. */
  const VideoNoInfoMessage: string := "'NoneType' object has no attribute 'get'"
  /** Stands for the text of the schema error building a `Video` with a missing field. */
  const VideoSchemaMessage: string := "validation error for Video"

  function VideoUrl(id: string): string {
    VideoBaseUrl + id
  }

  /** The `Video` built from the record: id, uploader_id, webpage_url, title, description, duration, view_count. */
  function InfoRow(info: VideoInfo): (r: VideoRow)
    ensures r.channelId == Some(info.uploaderId)
    ensures VideoSchemaOk(r) <==> info.id.Some? && info.webpageUrl.Some? && info.title.Some?
                                  && info.description.Some? && info.duration.Some?
  {
    VideoRow(info.id, Some(info.uploaderId), info.webpageUrl, info.title, info.description, info.duration, info.viewCount)
  }

  /**
   * The job body given what the extractor returned and whether the store test
   * found the video already. The channel lookup happens before the video
   * test, so the dependency is enqueued even when the video is then skipped.
   */
  function VideoJobWith(extraction: Extraction<VideoInfo>, channels: seq<ChannelRow>, stored: bool): VideoEffect {
    match extraction
    case Raised(_) => VideoEffect(None, None, Some(ExtractFailedMessage))
    case Returned(None) => VideoEffect(None, None, Some(VideoNoInfoMessage))
    case Returned(Some(info)) =>
      var dependency := if GetChannelById(channels, info.uploaderId).None? then Some(info.uploaderId) else None;
      if stored then VideoEffect(dependency, None, None)
      else if !VideoSchemaOk(InfoRow(info)) then VideoEffect(dependency, None, Some(VideoSchemaMessage))
      else VideoEffect(dependency, Some(InfoRow(info)), None)
  }

  /**
   * The job as written, which the video worker runs: the store test is
   * `get_video_by_id`, so the video counts as stored only when the first row
   * with its id fits the `Video` schema. The extractor is asked once, for the
   * video's page; the channel lookup comes first, so the uploader is enqueued
   * even when the video is then skipped.
   */
  function VideoJobAsWritten(id: string, extract: string -> Extraction<VideoInfo>, channels: seq<ChannelRow>, videos: seq<VideoRow>): (e: VideoEffect)
    ensures var x := extract(VideoUrl(id));
      && (x.Raised? ==> e == VideoEffect(None, None, Some(ExtractFailedMessage)))
      && (x == Returned(None) ==> e == VideoEffect(None, None, Some(VideoNoInfoMessage)))
      && (e.dependency.Some? <==> x.Returned? && x.info.Some? && GetChannelById(channels, x.info.value.uploaderId).None?)
      && (e.dependency.Some? ==> e.dependency.value == x.info.value.uploaderId)
    ensures var x := extract(VideoUrl(id));
      x.Returned? && x.info.Some? ==>
        var info := x.info.value;
        && (GetVideoById(videos, id).Some? ==> e.insert.None? && e.error.None?)
        && (GetVideoById(videos, id).None? && VideoSchemaOk(InfoRow(info)) ==> e.insert == Some(InfoRow(info)) && e.error.None?)
        && (GetVideoById(videos, id).None? && !VideoSchemaOk(InfoRow(info)) ==> e.insert.None? && e.error == Some(VideoSchemaMessage))
  {
    VideoJobWith(extract(VideoUrl(id)), channels, GetVideoById(videos, id).Some?)
  }

  /**
   * The job with the store test it is meant to have: any row with the queued
   * id counts as stored, whether or not the schema accepts it.
   */
  function VideoJob(id: string, extract: string -> Extraction<VideoInfo>, channels: seq<ChannelRow>, videos: seq<VideoRow>): (e: VideoEffect)
    ensures var x := extract(VideoUrl(id));
      && (x.Raised? ==> e == VideoEffect(None, None, Some(ExtractFailedMessage)))
      && (x == Returned(None) ==> e == VideoEffect(None, None, Some(VideoNoInfoMessage)))
      && (e.dependency.Some? <==> x.Returned? && x.info.Some? && GetChannelById(channels, x.info.value.uploaderId).None?)
      && (e.dependency.Some? ==> e.dependency.value == x.info.value.uploaderId)
    ensures var x := extract(VideoUrl(id));
      x.Returned? && x.info.Some? ==>
        var info := x.info.value;
        && (VideoKnown(videos, id) ==> e.insert.None? && e.error.None?)
        && (!VideoKnown(videos, id) && VideoSchemaOk(InfoRow(info)) ==> e.insert == Some(InfoRow(info)) && e.error.None?)
        && (!VideoKnown(videos, id) && !VideoSchemaOk(InfoRow(info)) ==> e.insert.None? && e.error == Some(VideoSchemaMessage))
  {
    VideoJobWith(extract(VideoUrl(id)), channels, VideoKnown(videos, id))
  }

  /** The two store tests agree, and so do the two jobs, when every stored row with the id fits the schema. */
  lemma VideoJobsAgree(id: string, extract: string -> Extraction<VideoInfo>, channels: seq<ChannelRow>, videos: seq<VideoRow>)
    requires forall k :: 0 <= k < |videos| && videos[k].id == Some(id) ==> VideoSchemaOk(videos[k])
    ensures GetVideoById(videos, id).Some? == VideoKnown(videos, id)
    ensures VideoJobAsWritten(id, extract, channels, videos) == VideoJob(id, extract, channels, videos)
  {
  }

  /** No two rows carry the same id. */
  predicate UniqueIds(videos: seq<VideoRow>) {
    forall i, j :: 0 <= i < j < |videos| && videos[i].id.Some? ==> videos[i].id != videos[j].id
  }

  /** Re-ingesting never duplicates a row: a store with unique ids keeps them when the record's id is the queued one. */
  lemma VideoJobKeepsIdsUnique(id: string, extract: string -> Extraction<VideoInfo>, channels: seq<ChannelRow>, videos: seq<VideoRow>)
    requires UniqueIds(videos)
    requires extract(VideoUrl(id)).Returned? && extract(VideoUrl(id)).info.Some?
    requires extract(VideoUrl(id)).info.value.id == Some(id)
    ensures UniqueIds(videos + SeqOf(VideoJob(id, extract, channels, videos).insert))
  {
  }

  /** As written, the job keeps ids unique too, as long as every stored row with the queued id fits the schema. */
  lemma AsWrittenKeepsIdsUniqueWhenRowsFit(id: string, extract: string -> Extraction<VideoInfo>, channels: seq<ChannelRow>, videos: seq<VideoRow>)
    requires UniqueIds(videos)
    requires forall k :: 0 <= k < |videos| && videos[k].id == Some(id) ==> VideoSchemaOk(videos[k])
    requires extract(VideoUrl(id)).Returned? && extract(VideoUrl(id)).info.Some?
    requires extract(VideoUrl(id)).info.value.id == Some(id)
    ensures UniqueIds(videos + SeqOf(VideoJobAsWritten(id, extract, channels, videos).insert))
  {
    VideoJobsAgree(id, extract, channels, videos);
    VideoJobKeepsIdsUnique(id, extract, channels, videos);
  }

  /** A video the channel job stored without a description, the channel that lists it, and its full record. */
  const ListedRow: VideoRow := VideoRow(Some("v1"), Some("@c"), Some("https://www.youtube.com/watch?v=v1"), Some("t"), None, Some(60), None)
  const FullRecord: VideoInfo := VideoInfo(Some("v1"), "@c", Some("https://www.youtube.com/watch?v=v1"), Some("t"), Some("d"), Some(60), Some(5))

  /** As written, a stored row the schema rejects is taken for a missing one, and the video is inserted a second time. */
  lemma DedupMissesRejectedRow()
    ensures var extract := (url: string) => Returned(Some(FullRecord));
      && VideoKnown([ListedRow], "v1")
      && UniqueIds([ListedRow])
      && VideoJobAsWritten("v1", extract, [], [ListedRow]).insert == Some(InfoRow(FullRecord))
      && !UniqueIds([ListedRow] + [InfoRow(FullRecord)])
  {
    var after := [ListedRow] + [InfoRow(FullRecord)];
    assert after[0].id == after[1].id;
    assert GetVideoById([ListedRow], "v1").None? by {
      assert !VideoSchemaOk(ListedRow);
    }
  }

  /**
   * `get_video_details`: runs the job, as written, against the store and the
   * channel queue; the store gains exactly the job's row and the channel queue
   * exactly its dependency, at the tail.
   */
  method GetVideoDetails(store: Store, channelQueue: JobQueue, id: string, extract: string -> Extraction<VideoInfo>)
      returns (error: Option<string>)
    requires channelQueue.Valid()
    modifies store, channelQueue
    ensures channelQueue.Valid()
    ensures var e := VideoJobAsWritten(id, extract, old(store.channels), old(store.videos));
      && error == e.error
      && store.videos == old(store.videos) + SeqOf(e.insert)
      && store.channels == old(store.channels)
      && channelQueue.waiting == old(channelQueue.waiting) + SeqOf(e.dependency)
      && channelQueue.enqueued == old(channelQueue.enqueued) + SeqOf(e.dependency)
      && channelQueue.processing == old(channelQueue.processing)
      && channelQueue.done == old(channelQueue.done) && channelQueue.failed == old(channelQueue.failed)
  {
    var outcome := extract(VideoUrl(id));
    if outcome.Raised? {
      return Some(ExtractFailedMessage);
    }
    if outcome.info.None? {
      return Some(VideoNoInfoMessage);
    }
    var info := outcome.info.value;
    if GetChannelById(store.channels, info.uploaderId).None? {
      channelQueue.Enqueue(info.uploaderId);
    }
    if GetVideoById(store.videos, id).Some? {
      return None;
    }
    var row := InfoRow(info);
    if !VideoSchemaOk(row) {
      return Some(VideoSchemaMessage);
    }
    store.InsertVideo(row);
    return None;
  }
}
