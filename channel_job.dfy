/**
 * The channel ingestion job (`add_channel_to_db`): normalise the handle, list
 * the channel page through the extractor in flattened mode, and insert a video
 * row for every top-level video entry and for every entry of the uploads
 * section, the one titled "<channel title> - Videos".
 */
module ChannelIngest {
  import opened Basics
  import opened Database

  /** A key of a listing record read with `record["key"]`: absent, present but null, or present. */
  datatype Field<+T> = Absent | Null | Present(value: T) {
    /** What `record.get("key")` gives. */
    function Get(): Option<T> {
      if Present? then Some(value) else None
    }
  }

  /** A flattened listing entry: the fields a video row is built from. */
  datatype Stub = Stub(
    id: Option<string>,
    url: Option<string>,
    title: Field<string>,
    description: Option<string>,
    duration: Option<int>,
    viewCount: Option<int>)

  /**
   * A top-level entry of the channel listing. With its own `entries` it is a
   * section of the channel page (videos, shorts, playlists); without, a video.
   */
  datatype Entry = Entry(stub: Stub, entries: Option<seq<Stub>>)

  /** The channel record: `title`, `uploader_id` and the optional `entries` listing. */
  datatype ChannelInfo = ChannelInfo(
    title: Option<string>,
    uploaderId: Option<string>,
    entries: Option<seq<Entry>>)

  /** A job's effect on the store and its outcome: the rows it inserted, in order, and `str(e)` if it raised. */
  datatype Batch = Batch(rows: seq<VideoRow>, error: Option<string>)

  const ChannelBaseUrl: string := "https://www.youtube.com/"
  /** `str(e)` of the IndexError `id[0]` raises on an empty string. */
  const IndexErrorMessage: string := "string index out of range"
  const ChannelNoInfoMessage: string := "Failed to extract info or got None"
  /** `str(e)` of the KeyError `entry['title']` raises on a section without a title. */
  const TitleKeyErrorMessage: string := "'title'"

  /** The handle with the platform's "@" sigil; an empty id fails on `id[0]`. */
  function NormaliseHandle(id: string): (r: Result<string>)
    ensures r.Err? <==> id == []
    ensures r.Err? ==> r.message == IndexErrorMessage
    ensures r.Ok? ==> |r.value| > 0 && r.value[0] == '@'
    ensures r.Ok? && id[0] == '@' ==> r.value == id
    ensures r.Ok? && id[0] != '@' ==> |r.value| == |id| + 1 && r.value[1..] == id
  {
    if |id| == 0 then Err(IndexErrorMessage)
    else if id[0] != '@' then Ok("@" + id)
    else Ok(id)
  }

  /** Normalising a normalised handle changes nothing. */
  lemma NormaliseIdempotent(id: string)
    requires id != []
    ensures NormaliseHandle(NormaliseHandle(id).value) == NormaliseHandle(id)
  {
  }

  /** The id with and without the sigil name the same channel page. */
  lemma SigilOptional(name: string)
    requires name != [] && name[0] != '@'
    ensures NormaliseHandle(name) == NormaliseHandle("@" + name)
  {
  }

  function ChannelUrl(handle: string): string {
    ChannelBaseUrl + handle
  }

  /** The title the uploads section carries: `(info.get("title") or "") + " - Videos"`. */
  function UploadsTitle(info: ChannelInfo): string {
    info.title.GetOr("") + " - Videos"
  }

  /** The row inserted for a listed video: its own fields, and the channel's uploader id as channel_id. */
  function StubRow(s: Stub, uploaderId: Option<string>): VideoRow {
    VideoRow(s.id, uploaderId, s.url, s.title.Get(), s.description, s.duration, s.viewCount)
  }

  /** The rows inserted for the entries of the uploads section, in order. */
  function SectionRows(stubs: seq<Stub>, uploaderId: Option<string>): (rows: seq<VideoRow>)
    ensures |rows| == |stubs|
    ensures forall k :: 0 <= k < |stubs| ==> rows[k] == StubRow(stubs[k], uploaderId)
  {
    seq(|stubs|, k requires 0 <= k < |stubs| => StubRow(stubs[k], uploaderId))
  }

  /** `entry['title']` raises: a section whose record has no title key. */
  predicate TitleMissing(e: Entry) {
    e.entries.Some? && e.stub.title.Absent?
  }

  /** The rows one top-level entry contributes when its title can be read. */
  function EntryRows(e: Entry, uploads: string, uploaderId: Option<string>): seq<VideoRow> {
    if e.entries.None? then [StubRow(e.stub, uploaderId)]
    else if e.stub.title == Present(uploads) then SectionRows(e.entries.value, uploaderId)
    else []
  }

  /**
   * The loop over the listing: each entry's rows in turn, stopping with a
   * KeyError at the first section without a title, the rows before it kept.
   */
  function ListingRows(entries: seq<Entry>, uploads: string, uploaderId: Option<string>): (b: Batch)
    ensures b.error.None? || b.error == Some(TitleKeyErrorMessage)
    decreases |entries|
  {
    if entries == [] then Batch([], None)
    else
      var prev := ListingRows(entries[..|entries| - 1], uploads, uploaderId);
      var e := entries[|entries| - 1];
      if prev.error.Some? then prev
      else if TitleMissing(e) then Batch(prev.rows, Some(TitleKeyErrorMessage))
      else Batch(prev.rows + EntryRows(e, uploads, uploaderId), None)
  }

  /** `r` is inserted on account of entry `e`: `e` is a video, or the uploads section listing `r`'s stub. */
  predicate InsertedFrom(e: Entry, uploads: string, uploaderId: Option<string>, r: VideoRow) {
    || (e.entries.None? && r == StubRow(e.stub, uploaderId))
    || (e.entries.Some? && e.stub.title == Present(uploads)
        && exists j :: 0 <= j < |e.entries.value| && r == StubRow(e.entries.value[j], uploaderId))
  }

  /** The listing fails exactly when some section has no title, and then with a KeyError. */
  lemma {:induction false} ListingError(entries: seq<Entry>, uploads: string, uploaderId: Option<string>)
    ensures var b := ListingRows(entries, uploads, uploaderId);
      && (b.error.Some? <==> exists k :: 0 <= k < |entries| && TitleMissing(entries[k]))
      && (b.error.Some? ==> b.error.value == TitleKeyErrorMessage)
  {
    if entries != [] {
      var n := |entries| - 1;
      var init := entries[..n];
      ListingError(init, uploads, uploaderId);
      assert forall k :: 0 <= k < n ==> init[k] == entries[k];
    }
  }

  /** Once a prefix of the listing has failed, the rest of it adds nothing. */
  lemma {:induction false} ListingStopsAtError(entries: seq<Entry>, k: nat, uploads: string, uploaderId: Option<string>)
    requires k <= |entries|
    requires ListingRows(entries[..k], uploads, uploaderId).error.Some?
    ensures ListingRows(entries, uploads, uploaderId) == ListingRows(entries[..k], uploads, uploaderId)
  {
    if k < |entries| {
      var init := entries[..|entries| - 1];
      assert init[..k] == entries[..k];
      ListingStopsAtError(init, k, uploads, uploaderId);
    } else {
      assert entries[..k] == entries;
    }
  }

  /** Listings compose in iteration order: after a prefix that did not fail, the rest's rows follow the prefix's. */
  lemma {:induction false} ListingAppend(a: seq<Entry>, b: seq<Entry>, uploads: string, uploaderId: Option<string>)
    requires ListingRows(a, uploads, uploaderId).error.None?
    ensures var la, lb := ListingRows(a, uploads, uploaderId), ListingRows(b, uploads, uploaderId);
      ListingRows(a + b, uploads, uploaderId) == Batch(la.rows + lb.rows, lb.error)
  {
    if b == [] {
      assert a + b == a;
    } else {
      var init := b[..|b| - 1];
      assert (a + b)[..|a + b| - 1] == a + init;
      assert (a + b)[|a + b| - 1] == b[|b| - 1];
      ListingAppend(a, init, uploads, uploaderId);
    }
  }

  /** A section other than the uploads one, whose title can be read, contributes nothing wherever it stands. */
  lemma OtherSectionIgnored(a: seq<Entry>, e: Entry, b: seq<Entry>, uploads: string, uploaderId: Option<string>)
    requires e.entries.Some? && !e.stub.title.Absent? && e.stub.title != Present(uploads)
    ensures ListingRows(a + [e] + b, uploads, uploaderId) == ListingRows(a + b, uploads, uploaderId)
  {
    var ae := a + [e];
    if ListingRows(a, uploads, uploaderId).error.Some? {
      FailedPrefixDecides(a, [e] + b, uploads, uploaderId);
      FailedPrefixDecides(a, b, uploads, uploaderId);
      assert a + [e] + b == a + ([e] + b);
    } else {
      assert ae[..|ae| - 1] == a && ae[|ae| - 1] == e;
      assert ListingRows(ae, uploads, uploaderId) == ListingRows(a, uploads, uploaderId);
      ListingAppend(ae, b, uploads, uploaderId);
      ListingAppend(a, b, uploads, uploaderId);
    }
  }

  /** Once a listing's prefix fails, the whole listing's outcome is the prefix's. */
  lemma FailedPrefixDecides(a: seq<Entry>, b: seq<Entry>, uploads: string, uploaderId: Option<string>)
    requires ListingRows(a, uploads, uploaderId).error.Some?
    ensures ListingRows(a + b, uploads, uploaderId) == ListingRows(a, uploads, uploaderId)
  {
    assert (a + b)[..|a|] == a;
    ListingStopsAtError(a + b, |a|, uploads, uploaderId);
  }

  /**
   * A listing that does not fail inserts exactly the top-level videos and the
   * entries of the uploads section: every such row, and no other.
   */
  lemma {:induction false} ListingMembers(entries: seq<Entry>, uploads: string, uploaderId: Option<string>, r: VideoRow)
    requires ListingRows(entries, uploads, uploaderId).error.None?
    ensures r in ListingRows(entries, uploads, uploaderId).rows
            <==> exists k :: 0 <= k < |entries| && InsertedFrom(entries[k], uploads, uploaderId, r)
  {
    if entries != [] {
      var n := |entries| - 1;
      var init, e := entries[..n], entries[n];
      assert ListingRows(init, uploads, uploaderId).error.None?;
      ListingMembers(init, uploads, uploaderId, r);
      assert forall k :: 0 <= k < n ==> init[k] == entries[k];
      var rows := EntryRows(e, uploads, uploaderId);
      assert r in rows <==> InsertedFrom(e, uploads, uploaderId, r) by {
        if e.entries.Some? && e.stub.title == Present(uploads) {
          var stubs := e.entries.value;
          if r in rows {
            var j :| 0 <= j < |rows| && rows[j] == r;
            assert r == StubRow(stubs[j], uploaderId);
          }
        }
      }
      if exists k :: 0 <= k < |entries| && InsertedFrom(entries[k], uploads, uploaderId, r) {
        var k :| 0 <= k < |entries| && InsertedFrom(entries[k], uploads, uploaderId, r);
        if k < n {
          assert InsertedFrom(init[k], uploads, uploaderId, r);
        }
      }
    }
  }

  /** Every inserted row names the channel's uploader id as its channel_id. */
  lemma {:induction false} ListingOwner(entries: seq<Entry>, uploads: string, uploaderId: Option<string>)
    ensures forall r :: r in ListingRows(entries, uploads, uploaderId).rows ==> r.channelId == uploaderId
  {
    if entries != [] {
      ListingOwner(entries[..|entries| - 1], uploads, uploaderId);
    }
  }

  /**
   * The whole job, as its effect: an empty id fails on `id[0]`; an extractor
   * exception is re-raised without a message; a missing record (None, or an
   * empty one, which `if not info` rejects alike) fails with
   * ChannelNoInfoMessage; none of these writes a row. Otherwise the listing rule
   * applies, and a record without `entries` inserts nothing.
   */
  function ChannelJob(id: string, extract: string -> Extraction<ChannelInfo>): (b: Batch)
    ensures id == [] ==> b == Batch([], Some(IndexErrorMessage))
    ensures id != [] && extract(ChannelUrl(NormaliseHandle(id).value)).Raised? ==> b == Batch([], Some(""))
    ensures id != [] && extract(ChannelUrl(NormaliseHandle(id).value)) == Returned(None) ==> b == Batch([], Some(ChannelNoInfoMessage))
    ensures b.error.Some? ==> b.error.value in {IndexErrorMessage, "", ChannelNoInfoMessage, TitleKeyErrorMessage}
    ensures forall r :: r in b.rows ==> id != [] && r.channelId == extract(ChannelUrl(NormaliseHandle(id).value)).info.value.uploaderId
    ensures id != [] && extract(ChannelUrl(NormaliseHandle(id).value)).Returned? && extract(ChannelUrl(NormaliseHandle(id).value)).info.Some? ==>
      var info := extract(ChannelUrl(NormaliseHandle(id).value)).info.value;
      b == if info.entries.None? then Batch([], None) else ListingRows(info.entries.value, UploadsTitle(info), info.uploaderId)
  {
    match NormaliseHandle(id)
    case Err(m) => Batch([], Some(m))
    case Ok(handle) =>
      match extract(ChannelUrl(handle))
      case Raised(_) => Batch([], Some(""))
      case Returned(None) => Batch([], Some(ChannelNoInfoMessage))
      case Returned(Some(info)) =>
        if info.entries.None? then Batch([], None)
        else
          ListingError(info.entries.value, UploadsTitle(info), info.uploaderId);
          ListingOwner(info.entries.value, UploadsTitle(info), info.uploaderId);
          ListingRows(info.entries.value, UploadsTitle(info), info.uploaderId)
  }

  /**
   * `add_channel_to_db`: runs the job against the store, inserting row by row;
   * the store ends with exactly the rows ChannelJob describes appended, and
   * the returned error is the job's `str(e)`.
   */
  method AddChannelToDb(store: Store, id: string, extract: string -> Extraction<ChannelInfo>) returns (error: Option<string>)
    modifies store
    ensures store.channels == old(store.channels)
    ensures store.videos == old(store.videos) + ChannelJob(id, extract).rows
    ensures error == ChannelJob(id, extract).error
  {
    var normalised := NormaliseHandle(id);
    if normalised.Err? {
      return Some(normalised.message);
    }
    var outcome := extract(ChannelUrl(normalised.value));
    if outcome.Raised? {
      return Some("");
    }
    if outcome.info.None? {
      return Some(ChannelNoInfoMessage);
    }
    var info := outcome.info.value;
    if info.entries.None? {
      return None;
    }
    error := InsertListing(store, info.entries.value, UploadsTitle(info), info.uploaderId);
  }

  /** The loop over the top-level entries of the listing, inserting as it goes. */
  method InsertListing(store: Store, entries: seq<Entry>, uploads: string, uploaderId: Option<string>) returns (error: Option<string>)
    modifies store
    ensures store.channels == old(store.channels)
    ensures store.videos == old(store.videos) + ListingRows(entries, uploads, uploaderId).rows
    ensures error == ListingRows(entries, uploads, uploaderId).error
  {
    var i := 0;
    while i < |entries|
      invariant 0 <= i <= |entries|
      invariant ListingRows(entries[..i], uploads, uploaderId).error.None?
      invariant store.videos == old(store.videos) + ListingRows(entries[..i], uploads, uploaderId).rows
      invariant store.channels == old(store.channels)
    {
      var entry := entries[i];
      ListingStep(entries, i, uploads, uploaderId);
      if entry.entries.Some? {
        if entry.stub.title.Absent? {
          ListingStopsAtError(entries, i + 1, uploads, uploaderId);
          return Some(TitleKeyErrorMessage);
        }
        if entry.stub.title == Present(uploads) {
          InsertSection(store, entry.entries.value, uploaderId);
        }
      } else {
        store.InsertVideo(StubRow(entry.stub, uploaderId));
      }
      i := i + 1;
    }
    assert entries[..i] == entries;
    return None;
  }

  /** Extending a listing that has not failed by one entry: a KeyError, or that entry's rows appended. */
  lemma ListingStep(entries: seq<Entry>, i: nat, uploads: string, uploaderId: Option<string>)
    requires i < |entries|
    requires ListingRows(entries[..i], uploads, uploaderId).error.None?
    ensures var prev := ListingRows(entries[..i], uploads, uploaderId);
      ListingRows(entries[..i + 1], uploads, uploaderId)
      == if TitleMissing(entries[i]) then Batch(prev.rows, Some(TitleKeyErrorMessage))
         else Batch(prev.rows + EntryRows(entries[i], uploads, uploaderId), None)
  {
    assert entries[..i + 1][..i] == entries[..i];
  }

  /** The inner loop over the uploads section: one row per entry, in order. */
  method InsertSection(store: Store, stubs: seq<Stub>, uploaderId: Option<string>)
    modifies store
    ensures store.channels == old(store.channels)
    ensures store.videos == old(store.videos) + SectionRows(stubs, uploaderId)
  {
    var j := 0;
    while j < |stubs|
      invariant 0 <= j <= |stubs|
      invariant store.videos == old(store.videos) + SectionRows(stubs[..j], uploaderId)
      invariant store.channels == old(store.channels)
    {
      assert SectionRows(stubs[..j + 1], uploaderId) == SectionRows(stubs[..j], uploaderId) + [StubRow(stubs[j], uploaderId)];
      store.InsertVideo(StubRow(stubs[j], uploaderId));
      j := j + 1;
    }
    assert stubs[..j] == stubs;
  }
}
