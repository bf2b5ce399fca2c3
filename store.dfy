/**
 * The relational store as the ingestion core sees it: two tables held in
 * insertion order, the keyed lookups behind `get_channel_by_id` and
 * `get_video_by_id`, and the plain INSERT the jobs issue.
 */
module Database {
  import opened Basics

  /** A row of `videos`: (id, channel_id, url, title, description, duration, view_count); every column may be NULL. */
  datatype VideoRow = VideoRow(
    id: Option<string>,
    channelId: Option<string>,
    url: Option<string>,
    title: Option<string>,
    description: Option<string>,
    duration: Option<int>,
    viewCount: Option<int>)

  /** A row of `channels`: (id, title, channel_url, channel_id, uploader_id, uploader_url, follower count). */
  datatype ChannelRow = ChannelRow(
    id: Option<string>,
    title: Option<string>,
    channelUrl: Option<string>,
    channelId: Option<string>,
    uploaderId: Option<string>,
    uploaderUrl: Option<string>,
    followerCount: Option<int>)

  /** The `Video` response schema accepts a row only when every column but view_count is non-NULL. */
  predicate VideoSchemaOk(r: VideoRow) {
    r.id.Some? && r.channelId.Some? && r.url.Some? && r.title.Some?
    && r.description.Some? && r.duration.Some?
  }

  /** The `Channel` response schema needs id, title, uploader_url and the follower count. */
  predicate ChannelSchemaOk(r: ChannelRow) {
    r.id.Some? && r.title.Some? && r.uploaderUrl.Some? && r.followerCount.Some?
  }

  /** `fetchone()` over a table scan: the first row, in insertion order, that satisfies the WHERE clause. */
  function FirstWhere<T>(rows: seq<T>, where: T -> bool): (r: Option<T>)
    ensures r.None? <==> forall k :: 0 <= k < |rows| ==> !where(rows[k])
    ensures r.Some? ==> exists k :: 0 <= k < |rows| && rows[k] == r.value && where(rows[k])
                                    && forall j :: 0 <= j < k ==> !where(rows[j])
  {
    if rows == [] then None
    else if where(rows[0]) then Some(rows[0])
    else
      var r := FirstWhere(rows[1..], where);
      assert forall k :: 1 <= k < |rows| ==> rows[k] == rows[1..][k - 1];
      r
  }

  /** Whichever row satisfies the condition first is the one `fetchone` returns. */
  lemma {:induction false} FirstWhereIsFirst<T>(rows: seq<T>, where: T -> bool)
    ensures forall k :: 0 <= k < |rows| && where(rows[k]) && (forall j :: 0 <= j < k ==> !where(rows[j]))
                        ==> FirstWhere(rows, where) == Some(rows[k])
  {
    if rows != [] {
      FirstWhereIsFirst(rows[1..], where);
      forall k | 0 < k < |rows| && where(rows[k]) && (forall j :: 0 <= j < k ==> !where(rows[j]))
        ensures FirstWhere(rows, where) == Some(rows[k])
      {
        assert !where(rows[0]);
        assert rows[1..][k - 1] == rows[k];
        assert forall j :: 0 <= j < k - 1 ==> rows[1..][j] == rows[j + 1];
      }
    }
  }

  /** The WHERE clause of the video lookup: `id = ?`. */
  function IdIs(id: string): VideoRow -> bool {
    (v: VideoRow) => v.id == Some(id)
  }

  /** The WHERE clause of the channel lookup: `uploader_id = ?`. */
  function UploaderIs(uploaderId: string): ChannelRow -> bool {
    (c: ChannelRow) => c.uploaderId == Some(uploaderId)
  }

  /** Some row of `videos` has id `id`. */
  predicate VideoKnown(videos: seq<VideoRow>, id: string) {
    exists k :: 0 <= k < |videos| && videos[k].id == Some(id)
  }

  /** Some row of `channels` has uploader_id `uploaderId`. */
  predicate ChannelKnown(channels: seq<ChannelRow>, uploaderId: string) {
    exists k :: 0 <= k < |channels| && channels[k].uploaderId == Some(uploaderId)
  }

  /** Row `k` is the first row of `videos` with id `id`: the row `fetchone` returns for it. */
  predicate FirstVideoAt(videos: seq<VideoRow>, id: string, k: int) {
    0 <= k < |videos| && videos[k].id == Some(id) && forall j :: 0 <= j < k ==> videos[j].id != Some(id)
  }

  /** Row `k` is the first row of `channels` with uploader_id `uploaderId`. */
  predicate FirstChannelAt(channels: seq<ChannelRow>, uploaderId: string, k: int) {
    0 <= k < |channels| && channels[k].uploaderId == Some(uploaderId)
    && forall j :: 0 <= j < k ==> channels[j].uploaderId != Some(uploaderId)
  }

  /**
   * `get_video_by_id`: the first row with that id, provided the response
   * schema accepts it. A missing row and a rejected row both come back as an
   * HTTP error, here `None`; a later row with the same id is never consulted.
   */
  function GetVideoById(videos: seq<VideoRow>, id: string): (r: Option<VideoRow>)
    ensures r.Some? <==> exists k :: FirstVideoAt(videos, id, k) && VideoSchemaOk(videos[k])
    ensures r.Some? ==> exists k :: FirstVideoAt(videos, id, k) && videos[k] == r.value
    ensures r.Some? ==> VideoSchemaOk(r.value)
    ensures forall k :: FirstVideoAt(videos, id, k) && !VideoSchemaOk(videos[k]) ==> r.None?
    ensures !VideoKnown(videos, id) ==> r.None?
    ensures VideoKnown(videos, id) && (forall k :: 0 <= k < |videos| && videos[k].id == Some(id) ==> VideoSchemaOk(videos[k]))
            ==> r.Some?
  {
    FirstWhereIsFirst(videos, IdIs(id));
    match FirstWhere(videos, IdIs(id))
    case None => None
    case Some(row) => if VideoSchemaOk(row) then Some(row) else None
  }

  /** `get_channel_by_id`: the first row whose uploader_id matches, provided the response schema accepts it. */
  function GetChannelById(channels: seq<ChannelRow>, uploaderId: string): (r: Option<ChannelRow>)
    ensures r.Some? <==> exists k :: FirstChannelAt(channels, uploaderId, k) && ChannelSchemaOk(channels[k])
    ensures r.Some? ==> exists k :: FirstChannelAt(channels, uploaderId, k) && channels[k] == r.value
    ensures r.Some? ==> ChannelSchemaOk(r.value)
    ensures forall k :: FirstChannelAt(channels, uploaderId, k) && !ChannelSchemaOk(channels[k]) ==> r.None?
    ensures !ChannelKnown(channels, uploaderId) ==> r.None?
    ensures ChannelKnown(channels, uploaderId)
            && (forall k :: 0 <= k < |channels| && channels[k].uploaderId == Some(uploaderId) ==> ChannelSchemaOk(channels[k]))
            ==> r.Some?
  {
    FirstWhereIsFirst(channels, UploaderIs(uploaderId));
    match FirstWhere(channels, UploaderIs(uploaderId))
    case None => None
    case Some(row) => if ChannelSchemaOk(row) then Some(row) else None
  }

  /** The two tables. Channel rows are never written by the ingestion core. */
  class Store {
    var channels: seq<ChannelRow>
    var videos: seq<VideoRow>

    constructor (channels: seq<ChannelRow>, videos: seq<VideoRow>)
      ensures this.channels == channels && this.videos == videos
    {
      this.channels := channels;
      this.videos := videos;
    }

    /** A plain `INSERT INTO videos`: no key check, the row goes after the existing ones. */
    method InsertVideo(row: VideoRow)
      modifies this
      ensures videos == old(videos) + [row]
      ensures channels == old(channels)
    {
      videos := videos + [row];
    }
  }
}
