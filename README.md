# yault ingestion core in Dafny

This project models the ingestion core of yault, a small service that collects
channel and video metadata from YouTube into a SQLite store and serves it over HTTP.

- **Queues.** Two single-consumer work queues, one for channels and one for videos.
  Each has a FIFO of waiting ids, one `processing` slot, and append-only `done` and
  `failed` histories.
- **Workers.** Each queue has a background worker. One iteration pops the head, marks it
  processing, runs the job, records the outcome and clears the slot.
- **Channel job** (`add_channel_to_db`):
  - normalises the handle to start with `@`;
  - lists the channel page through the metadata extractor;
  - inserts a video row for every top-level video entry and for every entry of the
    section titled `"<channel title> - Videos"`.
- **Video job** (`get_video_details`):
  - extracts one video;
  - puts its uploader on the channel queue when the channel lookup fails;
  - skips the video when `get_video_by_id` finds it, and otherwise inserts one row.
- **Paging and thumbnails.** Page-to-offset arithmetic for the per-channel video listing,
  and thumbnail URL derivation (`Thumbnail`).

Files and modules:

| file | module | contents |
|---|---|---|
| basics.dfy | `Basics` | `Option`, `Result` (a value or `str(e)`), the extractor's `Extraction` answer |
| thumbnail.dfy | `Thumbnails` | the quality table, `GetUrl`, `AsDict`, injectivity |
| store.dfy | `Database` | table rows, `fetchone` lookups with the response schemas, the `Store` class |
| job_queue.dfy | `Jobs` | the `JobQueue` class (one per entity kind), status snapshots, conservation |
| channel_job.dfy | `ChannelIngest` | handle normalisation, the section rule, `AddChannelToDb` |
| video_job.dfy | `VideoIngest` | the video job's effect, dedup, `GetVideoDetails` |
| workers.dfy | `Workers` | worker iterations and runs, three worked scenarios |
| paging.dfy | `Paging` | page offset, `LIMIT`/`OFFSET` windows |

How the parts are modelled:

- **Extractor.** yt-dlp is a parameter `string -> Extraction<T>`. Given the URL the
  job builds, it returns either `Raised(message)` or `Returned(record)`.
  For the channel job `Returned(None)` also stands for an empty record, which
  `if not info` treats like None. The video job has no such test: an empty video
  record is not modelled.
- **Store.** The SQLite tables are two sequences in a `Store` object, in insertion order.
- **Queue state.** The module-level globals (`channel_queue`, `processing_channel`,
  `done_channels`, `failed_channels` and their video twins) are the fields of two
  `JobQueue` objects.
- **Ghost history.** Two ghost fields record every id ever enqueued and every id
  finished. `JobQueue.Valid()` ties them to the real fields:
  - ids are taken in enqueue order;
  - each finished id is in `done` or in `failed`, once.
- **Errors.** A failed job's message is Python's `str(e)` for the exception raised:
  - `""` for the bare `raise Exception` after an extractor failure;
  - `"string index out of range"` for `id[0]` on an empty id;
  - `"'title'"` for `entry['title']` on a section without a title;
  - `"'NoneType' object has no attribute 'get'"` when the video extractor returns None.

In several places the live code does less than such a service usually promises. The model follows
the code:

- The channel job never inserts a channel row; that insert is commented out. Channel
  rows are store contents the model receives.
- Both jobs use a plain `INSERT`, not insert-or-ignore.
- The thumbnail dictionary built for a new video is not stored.
- A lookup (`get_channel_by_id`, `get_video_by_id`) fails when the first matching row
  does not fit its response schema, not only when no row matches. Every failure is
  raised as an `HTTPException`.

## Model

| member | source | states |
|---|---|---|
| `Thumbnails.Thumbnail.GetUrl` | thumbnail.py:14-18 | a tier in the five-key table gives base URL + video id + "/" + its file name; any other tier is an error "Unknown quality: " + tier; no video id is refused, the empty one included |
| `Thumbnails.Thumbnail.GetDefaultUrl` | thumbnail.py:14 | `get_url()` equals `get_url("default")` and never fails; it ends in "default.jpg" |
| `Thumbnails.Thumbnail.AsDict` | thumbnail.py:20-21 | exactly the five tiers as keys, each mapped to the URL `get_url` gives for it |
| `Thumbnails.FileNamesDistinct` | thumbnail.py:3-9 | the five file names are pairwise distinct |
| `Thumbnails.QualityInjective` | thumbnail.py:3-18 | for one video, distinct tiers give distinct URLs |
| `Thumbnails.VideoIdInjective` | thumbnail.py:18 | for one tier, equal URLs imply equal video ids |
| `Thumbnails.DefaultUrlShape` | thumbnail.py:2-18 | the default URL starts with the base URL, then the video id, and ends in "/default.jpg" |
| `Database.FirstWhere` | api.py:254 | `fetchone`: no row when none satisfies the condition; otherwise a satisfying row with none satisfying before it |
| `Database.GetVideoById` | api.py:339-359 | found if and only if the first row with the id fits the `Video` schema, and then that row is returned; a rejected first row means not found, whatever rows with the id follow; no row with the id means not found |
| `Database.GetChannelById` | api.py:246-265 | the same for channels: the first row with the uploader_id, found if and only if it fits the `Channel` schema |
| `Database.Store.InsertVideo` | api.py:215-223 | a plain INSERT appends the row after all others and leaves the channel table alone |
| `Jobs.ExactlyOnePlace` | api.py:325-337 | in a snapshot, an id enqueued once is in exactly one of waiting, processing, done, failed |
| `Jobs.JobQueue.constructor` | api.py:11-19 | a fresh queue: nothing waiting, no id processing, empty histories |
| `Jobs.JobQueue.Enqueue` | api.py:318-323 | `add_channel` (and `add_video_to_queue`, api.py:361-365): the id goes to the tail; duplicates stay; nothing else changes |
| `Jobs.JobQueue.Begin` | api.py:125-127 | the worker removes exactly the head and marks it processing; histories unchanged |
| `Jobs.JobQueue.Finish` | api.py:128-139 | on success the id is appended to done, on failure `{id, str(e)}` to failed; nothing is removed from either; processing ends None |
| `Jobs.JobQueue.Snapshot` | api.py:325-337 | `channels_status` (and `videos_status`, api.py:367-379): a copy of the four fields that accounts for every enqueued id exactly as many times as it was enqueued |
| `ChannelIngest.NormaliseHandle` | api.py:47-50 | an empty id fails with IndexError; otherwise the handle starts with "@", is the id when it already did, and "@" + id otherwise |
| `ChannelIngest.NormaliseIdempotent` | api.py:47-48 | normalising twice equals normalising once |
| `ChannelIngest.SigilOptional` | api.py:47-48 | "name" and "@name" normalise to the same handle |
| `ChannelIngest.SectionRows` | api.py:90-102 | one row per entry of the uploads section, in order, built from that entry and the channel's uploader id |
| `ChannelIngest.ListingRows` | api.py:85-117 | the loop over the listing: the only error it can raise is KeyError 'title' (its other promises are the lemmas below) |
| `ChannelIngest.ListingError` | api.py:85-89 | the listing fails exactly when some section has no title key, and then with KeyError 'title' |
| `ChannelIngest.ListingStopsAtError` | api.py:85-117 | after the first failing entry nothing more is inserted; the rows before it stay |
| `ChannelIngest.ListingAppend` | api.py:85-117 | rows are inserted in iteration order: a listing's rows are its prefix's rows followed by the rest's |
| `ChannelIngest.OtherSectionIgnored` | api.py:87-89 | a section whose title is not "<title> - Videos" contributes nothing wherever it stands |
| `ChannelIngest.ListingMembers` | api.py:85-117 | a listing that does not fail inserts a row if and only if it comes from a top-level entry without nested entries or from an entry of the uploads section |
| `ChannelIngest.ListingOwner` | api.py:95 | every inserted row carries the channel's uploader_id as channel_id |
| `ChannelIngest.ChannelJob` | api.py:45-117 | empty id, extractor exception (message "") and a missing record ("Failed to extract info or got None") fail without rows; a record that arrives without `entries` succeeds with no rows, and one with `entries` has exactly the listing's rows and error (`ListingRows`); the error is always one of four messages; every row carries the uploader id |
| `ChannelIngest.AddChannelToDb` | api.py:45-117 | the store gains exactly ChannelJob's rows, in order; channel rows untouched; the error returned is ChannelJob's |
| `ChannelIngest.InsertListing` | api.py:85-117 | the loop over top-level entries appends exactly the listing's rows and stops at a KeyError |
| `ChannelIngest.InsertSection` | api.py:90-103 | the loop over the uploads section appends exactly its rows |
| `VideoIngest.InfoRow` | api.py:201-210 | the row built from a record carries its uploader_id as channel_id, and fits the `Video` schema if and only if the record has id, webpage_url, title, description and duration |
| `VideoIngest.VideoJobAsWritten` | api.py:160-213 | the job as written: extractor failure and a None record fail with their messages and change nothing; the uploader is enqueued if and only if the record arrived and the channel lookup failed; when `get_video_by_id` finds the video it is skipped as a success; otherwise a record the schema accepts is inserted as its row, and one it rejects fails with the schema error and inserts nothing |
| `VideoIngest.VideoJob` | api.py:160-213 | the same job with the intended store test: skipped if and only if some stored row has the id; otherwise inserted when the schema accepts the record, a schema error when it does not |
| `VideoIngest.VideoJobsAgree` | api.py:191-199 | when every stored row with the id fits the schema, `get_video_by_id` finds the video exactly when some row has its id, and the job as written equals the intended job |
| `VideoIngest.VideoJobKeepsIdsUnique` | api.py:191-223 | with the intended store test, re-ingesting never duplicates an id: a store with unique ids keeps them |
| `VideoIngest.AsWrittenKeepsIdsUniqueWhenRowsFit` | api.py:191-223 | as written, ids stay unique as long as every stored row with the queued id fits the schema |
| `VideoIngest.DedupMissesRejectedRow` | api.py:191-199 | as written, a stored row that the `Video` schema rejects is taken for a missing one, and the video is inserted again |
| `VideoIngest.GetVideoDetails` | api.py:160-223 | runs the job as written: the store gains exactly VideoJobAsWritten's row; the channel queue gains exactly its dependency at the tail and keeps its invariant |
| `Workers.ProcessChannelQueueStep` | api.py:122-139 | on an empty queue nothing changes; otherwise the head leaves the queue, the job runs, the id lands in done or, with its message, in failed; processing ends None; the store gains the job's rows |
| `Workers.ProcessVideoQueueStep` | api.py:141-158 | the same for videos, running the job as written (`VideoJobAsWritten`); the channel queue gains only the job's dependency at its tail |
| `Workers.RunChannelWorker` | api.py:122-139 | the worker loop takes ids strictly in enqueue order, as many as it runs; done and failed only grow; the queue's invariant holds throughout |
| `Workers.RunVideoWorker` | api.py:141-158 | the same for the video worker; the channel queue only grows at its tail |
| `Paging.PageOffset` | api.py:270-273 | page <= 1 gives offset 0, page p > 1 gives p - 1 (not multiplied by the limit); never negative |
| `Paging.Window` | api.py:275-277 | `LIMIT`/`OFFSET`: consecutive rows starting at the offset, as many as the limit allows (all of them for a negative limit) |
| `Paging.PagesOverlapAsWritten` | api.py:270-277 | as written, page p + 1 is page p shifted by one row |
| `Paging.IntendedOffset` | api.py:270-273 | the intended offset: 0 for page <= 1, (page - 1) * limit for page > 1 |
| `Paging.IntendedPagesTile` | api.py:270-277 | with the intended offset, pages 1..n concatenate to exactly the first n * limit rows |

## Findings

| source | as written | input that shows it | evidently intended | confidence | as-written member | corrected member |
|---|---|---|---|---|---|---|
| api.py:270-277 | the OFFSET is page - 1, not (page - 1) * limit | limit 10, page 2 on a channel with 20 videos: rows 1-10, which overlap page 1's rows 0-9 in nine rows | consecutive pages that tile the rows | high; not executed | `Paging.PagesOverlapAsWritten` | `Paging.IntendedPagesTile` |
| api.py:191-199, api.py:339-359 | the dedup test is `get_video_by_id`, which also fails when the stored row does not fit the `Video` schema | a row stored by the channel job with NULL description, then video job "v1" for the same id: a second row "v1" is inserted | a video already stored is skipped | medium (depends on what the flattened listing leaves NULL); not executed | `VideoIngest.DedupMissesRejectedRow` (on `VideoIngest.VideoJobAsWritten`) | `VideoIngest.VideoJobKeepsIdsUnique` (on `VideoIngest.VideoJob`) |

`VideoIngest.GetVideoDetails` and the video worker run the job as written
(`VideoJobAsWritten`), so the model of the worker inserts the second row just as the
program does. The corrected job `VideoIngest.VideoJob` treats any stored row with the
queued id as stored; `VideoIngest.VideoJobsAgree` shows the two coincide whenever every
stored row with the id fits the schema.

## Left out

- The yt-dlp calls: the extractor is a parameter, and its options (flat mode, cookie file) are not modelled.
- SQL text, the schema's constraints and database errors:
  - a failing INSERT and an `sqlite3.Error` in a lookup are not modelled;
  - without a key constraint, a duplicate insert simply succeeds.
- Row order: `fetchone` is taken to return the first matching row in insertion order.
- asyncio:
  - the lock, the queue's suspension on an empty queue and `task_done` are not modelled;
  - so are `to_thread` and worker start-up and cancellation in `lifespan` (api.py:225-241).
  - Each worker iteration is one atomic step. A snapshot taken during a job, with `processing` set, is reachable only through `JobQueue.Begin`/`Finish`.
- FastAPI routing, HTTP status codes, `print` diagnostics, and `get_all_channels` / `get_channels_search`. Of `get_video_by_id` and `get_channel_by_id` only "found or not" is modelled; the response body is not.
- `get_videos_by_channel` itself: the filter by channel and the rows' order. Only the offset and the `LIMIT`/`OFFSET` window are modelled.
- The text of a pydantic validation error: `VideoSchemaMessage` stands for it.
- A video record without `uploader_id`, the empty record `{}` included: `VideoInfo.uploaderId` is always a string. The code would look up and enqueue `None` there, and building the `Video` would then fail on the missing id.
- An `entries` key present with value null, which Python would fail to iterate: `None` in the model means the key is absent. Numbers are integers; floats from the extractor are not modelled.
- `Workers.RunChannelWorker` states that the store only grows over a run, not which rows it gains; `Workers.ProcessChannelQueueStep` states the rows of each iteration.
- `Workers.RunVideoWorker` states only growth of the store and the channel queue over a run; `Workers.ProcessVideoQueueStep` states each iteration exactly.
- pop.py (a one-off population script) and testing.py (an extractor dump) are I/O scripts and are not part of this model.
