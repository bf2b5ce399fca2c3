/**
 * Pagination of a channel's videos (`get_videos_by_channel`): the page number
 * becomes the query's OFFSET, the limit its LIMIT.
 */
module Paging {

  function Min(a: int, b: int): int {
    if a < b then a else b
  }

  /** The OFFSET as written: pages up to 1 start at row 0, page p > 1 at row p - 1; it is never negative. */
  function PageOffset(page: int): (offset: nat)
    ensures page <= 1 ==> offset == 0
    ensures page > 1 ==> offset == page - 1
  {
    if page <= 1 then 0 else page - 1
  }

  /** `LIMIT limit OFFSET offset` over rows in scan order; a negative limit means no limit. */
  function Window<T>(rows: seq<T>, limit: int, offset: nat): (w: seq<T>)
    ensures forall k :: 0 <= k < |w| ==> offset + k < |rows| && w[k] == rows[offset + k]
    ensures limit >= 0 ==> |w| == if offset >= |rows| then 0 else Min(limit, |rows| - offset)
    ensures limit < 0 ==> |w| == if offset >= |rows| then 0 else |rows| - offset
  {
    if offset >= |rows| then []
    else if limit < 0 || offset + limit >= |rows| then rows[offset..]
    else rows[offset..offset + limit]
  }

  /**
   * As written, consecutive pages overlap: page p + 1 is page p shifted by a
   * single row, so with 10 rows per page they share 9.
   */
  lemma PagesOverlapAsWritten<T>(rows: seq<T>, limit: int, page: int)
    requires page >= 1 && limit >= 2 && |rows| >= page + limit
    ensures var cur, next := Window(rows, limit, PageOffset(page)), Window(rows, limit, PageOffset(page + 1));
      |cur| == limit && |next| == limit && next[..limit - 1] == cur[1..]
  {
  }

  /** The offset pagination is meant to have: page p >= 1 starts after p - 1 full pages. */
  function IntendedOffset(page: int, limit: nat): (offset: nat)
    ensures page <= 1 ==> offset == 0
    ensures page > 1 ==> offset == (page - 1) * limit
  {
    if page <= 1 then 0 else (page - 1) * limit
  }

  /** Pages 1 to n, one after the other. */
  function Pages<T>(rows: seq<T>, limit: nat, n: nat): seq<T> {
    if n == 0 then [] else Pages(rows, limit, n - 1) + Window(rows, limit, IntendedOffset(n, limit))
  }

  /** The window at `start` continues the rows before `start`. */
  lemma WindowExtends<T>(rows: seq<T>, limit: nat, start: nat)
    ensures rows[..Min(start + limit, |rows|)] == rows[..Min(start, |rows|)] + Window(rows, limit, start)
  {
  }

  /** With the intended offset, pages 1 to n tile the first n * limit rows: no row twice, none skipped. */
  lemma {:induction false} IntendedPagesTile<T>(rows: seq<T>, limit: nat, n: nat)
    ensures Pages(rows, limit, n) == rows[..Min(n * limit, |rows|)]
  {
    if n > 0 {
      IntendedPagesTile(rows, limit, n - 1);
      var start := (n - 1) * limit;
      assert n * limit == start + limit;
      assert IntendedOffset(n, limit) == start;
      WindowExtends(rows, limit, start);
    }
  }
}
