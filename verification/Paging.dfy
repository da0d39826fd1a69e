/** Keyset pagination, newest first, and the client's message cache that pages back in time. */
module Paging {
  import opened Text
  import opened Tokens

  datatype Key = Key(ts: int, id: int)

  datatype Row = Row(key: Key, content: string)

  /** `(ts, id) < (cursor.ts, cursor.id)`, written out. */
  predicate KeysetBefore(k: Key, cursor: Key) { k.ts < cursor.ts || (k.ts == cursor.ts && k.id < cursor.id) }

  /** The rows in query order: newest first, ties broken by id. */
  predicate Ordered(rows: seq<Row>) {
    forall i, j | 0 <= i < j < |rows| :: KeysetBefore(rows[j].key, rows[i].key)
  }

  /** The `where` clause on the ordered rows. */
  function Select(rows: seq<Row>, cursor: Option<Key>): seq<Row> {
    if rows == [] then []
    else (if cursor.None? || KeysetBefore(rows[0].key, cursor.value) then [rows[0]] else []) + Select(rows[1..], cursor)
  }

  function Take<T>(s: seq<T>, n: nat): seq<T> { if |s| <= n then s else s[..n] }

  /** The page query: one row more than the page, to see whether there are more. */
  function ListPage(rows: seq<Row>, cursor: Option<Key>, limit: nat): seq<Row> { Take(Select(rows, cursor), limit + 1) }

  function Paginate(fetched: seq<Row>, limit: nat): (seq<Row>, Option<Key>) {
    var items := Take(fetched, limit);
    (items, if |fetched| > limit && items != [] then Some(items[|items| - 1].key) else None)
  }

  function Page(rows: seq<Row>, cursor: Option<Key>, limit: nat): (seq<Row>, Option<Key>) {
    Paginate(ListPage(rows, cursor, limit), limit)
  }

  function Reverse<T>(s: seq<T>): seq<T> {
    seq(|s|, i requires 0 <= i < |s| => s[|s| - 1 - i])
  }

  function Min(a: nat, b: nat): nat { if a < b then a else b }

  lemma {:induction false} SelectAll(rows: seq<Row>)
    ensures Select(rows, None) == rows
  {
    if rows != [] { SelectAll(rows[1..]); }
  }

  lemma {:induction false} SelectNone(rows: seq<Row>, cursor: Key)
    requires forall i | 0 <= i < |rows| :: !KeysetBefore(rows[i].key, cursor)
    ensures Select(rows, Some(cursor)) == []
  {
    if rows != [] { SelectNone(rows[1..], cursor); }
  }

  lemma {:induction false} SelectEvery(rows: seq<Row>, cursor: Key)
    requires forall i | 0 <= i < |rows| :: KeysetBefore(rows[i].key, cursor)
    ensures Select(rows, Some(cursor)) == rows
  {
    if rows != [] { SelectEvery(rows[1..], cursor); }
  }

  lemma {:induction false} SelectAppend(a: seq<Row>, b: seq<Row>, cursor: Option<Key>)
    ensures Select(a + b, cursor) == Select(a, cursor) + Select(b, cursor)
  {
    if a == [] {
      assert a + b == b;
    } else {
      assert (a + b)[1..] == a[1..] + b;
      SelectAppend(a[1..], b, cursor);
      Regroup(Select([a[0]], cursor), Select(a[1..], cursor), Select(b, cursor));
    }
  }

  lemma {:induction false} NoneBefore(rows: seq<Row>, k: nat)
    requires Ordered(rows) && k < |rows|
    ensures Select(rows[..k + 1], Some(rows[k].key)) == []
  {
    var before := rows[..k + 1];
    forall i | 0 <= i < |before| ensures !KeysetBefore(before[i].key, rows[k].key) {
      assert i < k ==> KeysetBefore(rows[k].key, rows[i].key);
    }
    SelectNone(before, rows[k].key);
  }

  lemma {:induction false} AllAfter(rows: seq<Row>, k: nat)
    requires Ordered(rows) && k < |rows|
    ensures Select(rows[k + 1..], Some(rows[k].key)) == rows[k + 1..]
  {
    var after := rows[k + 1..];
    forall i | 0 <= i < |after| ensures KeysetBefore(after[i].key, rows[k].key) {
      assert KeysetBefore(rows[k + 1 + i].key, rows[k].key);
    }
    SelectEvery(after, rows[k].key);
  }

  lemma {:induction false} SelectSkips(rows: seq<Row>, k: nat, cursor: Option<Key>)
    requires k <= |rows| && Select(rows[..k], cursor) == []
    ensures Select(rows, cursor) == Select(rows[k..], cursor)
  {
    assert rows == rows[..k] + rows[k..];
    SelectAppend(rows[..k], rows[k..], cursor);
    assert [] + Select(rows[k..], cursor) == Select(rows[k..], cursor);
  }

  /** The cursor of row `k` selects exactly the rows after it. */
  lemma {:induction false} CursorSelectsRest(rows: seq<Row>, k: nat)
    requires Ordered(rows) && k < |rows|
    ensures Select(rows, Some(rows[k].key)) == rows[k + 1..]
  {
    NoneBefore(rows, k);
    AllAfter(rows, k);
    SelectSkips(rows, k + 1, Some(rows[k].key));
  }

  lemma {:induction false} TakeSlice<T>(s: seq<T>, start: nat, n: nat)
    requires start <= |s|
    ensures Take(s[start..], n) == s[start..Min(|s|, start + n)]
  {
  }

  lemma {:induction false} TakeTake<T>(s: seq<T>, n: nat)
    ensures Take(Take(s, n + 1), n) == Take(s, n)
  {
  }

  /** The page that starts after the first `start` rows. */
  lemma {:induction false} PageAfter(rows: seq<Row>, start: nat, cursor: Option<Key>, limit: nat)
    requires Ordered(rows) && limit >= 1 && start <= |rows|
    requires cursor == if start == 0 then None else Some(rows[start - 1].key)
    ensures var stop := Min(|rows|, start + limit);
            && Page(rows, cursor, limit).0 == rows[start..stop]
            && Page(rows, cursor, limit).1 == if stop < |rows| then Some(rows[stop - 1].key) else None
  {
    if start == 0 { SelectAll(rows); } else { CursorSelectsRest(rows, start - 1); }
    TakeSlice(rows, start, limit);
    TakeSlice(rows, start, limit + 1);
    TakeTake(rows[start..], limit);
  }

  // --- the client's cache ----------------------------------------------------

  datatype Cache = Cache(items: seq<Row>, earlierCursor: Option<Key>)

  function FirstLoad(rows: seq<Row>, limit: nat): Cache {
    var page := Page(rows, None, limit);
    Cache(Reverse(page.0), page.1)
  }

  function LoadEarlier(rows: seq<Row>, cache: Cache, limit: nat): Cache {
    if cache.earlierCursor.None? then cache
    else
      var page := Page(rows, cache.earlierCursor, limit);
      Cache(Reverse(page.0) + cache.items, page.1)
  }

  function AfterLoads(rows: seq<Row>, limit: nat, j: nat): Cache {
    if j == 0 then FirstLoad(rows, limit) else LoadEarlier(rows, AfterLoads(rows, limit, j - 1), limit)
  }

  /** The cache, and what a load under way has read of it before asking the server. */
  datatype View = View(cache: Cache, loading: Option<Cache>)

  function StartLoad(v: View): View {
    if v.cache.earlierCursor.None? || v.loading.Some? then v else v.(loading := Some(v.cache))
  }

  /** What sending a message does to the cache: the items change, the cursor does not. */
  function Patch(v: View, items: seq<Row>): View { v.(cache := v.cache.(items := items)) }

  /** The page is put before the items read at the start, not before those there now. */
  function FinishLoad(rows: seq<Row>, v: View, limit: nat, fetched: bool): View {
    match v.loading
    case None => v
    case Some(read) => View(if fetched then LoadEarlier(rows, read, limit) else v.cache, None)
  }

  /** `useMessages`: the cached items and cursor, replaced by every load. */
  class MessagesView {
    var items: seq<Row>
    var earlierCursor: Option<Key>
    var loadingEarlier: bool
    var read: Cache

    function Current(): View
      reads this
    {
      View(Cache(items, earlierCursor), if loadingEarlier then Some(read) else None)
    }

    constructor (rows: seq<Row>, limit: nat)
      ensures Current() == View(FirstLoad(rows, limit), None)
    {
      var page := Page(rows, None, limit);
      items, earlierCursor, loadingEarlier := Reverse(page.0), page.1, false;
      read := Cache([], None);
    }

    /** `loadEarlier` up to its request; `started` says whether it makes one. */
    method Start() returns (started: bool)
      modifies this
      ensures Current() == StartLoad(old(Current()))
      ensures started <==> old(earlierCursor).Some? && !old(loadingEarlier)
    {
      if earlierCursor.None? || loadingEarlier {
        return false;
      }
      read, loadingEarlier := Cache(items, earlierCursor), true;
      return true;
    }

    /** `loadEarlier` from the answer on. A failed fetch changes nothing; the loading flag is cleared either way. */
    method Finish(rows: seq<Row>, limit: nat, fetched: bool)
      requires loadingEarlier && read.earlierCursor.Some?
      modifies this
      ensures Current() == FinishLoad(rows, old(Current()), limit, fetched) && !loadingEarlier
    {
      if fetched {
        var page := Page(rows, read.earlierCursor, limit);
        items, earlierCursor := Reverse(page.0) + read.items, page.1;
      }
      loadingEarlier := false;
    }

    /** A load during which nothing else happens. */
    method LoadMore(rows: seq<Row>, limit: nat, fetched: bool)
      modifies this
      ensures loadingEarlier == old(loadingEarlier)
      ensures Cache(items, earlierCursor) ==
        if old(loadingEarlier) || !fetched then old(Cache(items, earlierCursor))
        else LoadEarlier(rows, old(Cache(items, earlierCursor)), limit)
    {
      var started := Start();
      if started {
        Finish(rows, limit, fetched);
      }
    }
  }

  /** What the cache is patched to, one patch after another, while a load is under way. */
  function PatchAll(v: View, patches: seq<seq<Row>>): View {
    if patches == [] then v else Patch(PatchAll(v, patches[..|patches| - 1]), patches[|patches| - 1])
  }

  lemma {:induction false} PatchesKeepLoad(v: View, patches: seq<seq<Row>>)
    ensures PatchAll(v, patches).loading == v.loading
    ensures PatchAll(v, patches).cache.items == if patches == [] then v.cache.items else patches[|patches| - 1]
  {
    if patches != [] { PatchesKeepLoad(v, patches[..|patches| - 1]); }
  }

  /**
   * A load keeps what is in the cache when it ends, putting the earlier page before it, if and only if
   * the patches meanwhile have left the items as they were when it started.
   */
  lemma {:induction false} LoadKeepsItemsIff(rows: seq<Row>, v: View, patches: seq<seq<Row>>, limit: nat)
    requires v.cache.earlierCursor.Some? && v.loading.None?
    ensures var now := PatchAll(StartLoad(v), patches);
            FinishLoad(rows, now, limit, true).cache.items
                == Reverse(Page(rows, v.cache.earlierCursor, limit).0) + now.cache.items
            <==> (patches == [] || patches[|patches| - 1] == v.cache.items)
  {
    PatchesKeepLoad(StartLoad(v), patches);
    var page, now := Reverse(Page(rows, v.cache.earlierCursor, limit).0), PatchAll(StartLoad(v), patches);
    if page + v.cache.items == page + now.cache.items {
      assert v.cache.items == (page + v.cache.items)[|page|..] == (page + now.cache.items)[|page|..] == now.cache.items;
    }
  }

  /** An answer appended while an earlier page is loading is gone from the cache when the page arrives. */
  lemma {:induction false} AnswerIsLost(rows: seq<Row>, v: View, answer: Row, limit: nat)
    requires v.cache.earlierCursor.Some? && v.loading.None?
    requires answer !in v.cache.items && answer !in Page(rows, v.cache.earlierCursor, limit).0
    ensures var now := Patch(StartLoad(v), v.cache.items + [answer]);
            answer in now.cache.items && answer !in FinishLoad(rows, now, limit, true).cache.items
  {
    var page, now := Page(rows, v.cache.earlierCursor, limit).0, Patch(StartLoad(v), v.cache.items + [answer]);
    assert now.cache.items[|v.cache.items|] == answer;
    forall i | 0 <= i < |page| ensures Reverse(page)[i] != answer { assert Reverse(page)[i] in page; }
  }

  lemma {:induction false} ReverseAppend<T>(a: seq<T>, b: seq<T>)
    ensures Reverse(a + b) == Reverse(b) + Reverse(a)
  {
    var n := |a| + |b|;
    forall i | 0 <= i < n ensures Reverse(a + b)[i] == (Reverse(b) + Reverse(a))[i] {
      assert Reverse(a + b)[i] == (a + b)[n - 1 - i];
    }
  }

  /** The cache holds the newest `n` rows in ascending order, and a cursor unless that is all. */
  predicate ShowsNewest(rows: seq<Row>, cache: Cache, n: nat) {
    && n <= |rows| && cache.items == Reverse(rows[..n])
    && cache.earlierCursor == if n < |rows| then (if n == 0 then None else Some(rows[n - 1].key)) else None
  }

  lemma {:induction false} LoadShowsMore(rows: seq<Row>, cache: Cache, n: nat, limit: nat)
    requires Ordered(rows) && limit >= 1 && ShowsNewest(rows, cache, n) && (n == 0 ==> rows == [])
    ensures ShowsNewest(rows, LoadEarlier(rows, cache, limit), Min(|rows|, n + limit))
  {
    if n < |rows| {
      var stop := Min(|rows|, n + limit);
      PageAfter(rows, n, cache.earlierCursor, limit);
      assert rows[..stop] == rows[..n] + rows[n..stop];
      ReverseAppend(rows[..n], rows[n..stop]);
    }
  }

  /** `limit * (j + 1)`, page by page. */
  function RowsLoaded(limit: nat, j: nat): nat {
    if j == 0 then limit else RowsLoaded(limit, j - 1) + limit
  }

  lemma {:induction false} LoadedIsProduct(limit: nat, j: nat)
    ensures RowsLoaded(limit, j) == limit * (j + 1) && RowsLoaded(limit, j) >= limit
  {
    if j > 0 {
      LoadedIsProduct(limit, j - 1);
      assert limit * (j + 1) == limit * j + limit;
    }
  }

  lemma {:induction false} FirstLoadShows(rows: seq<Row>, limit: nat)
    requires Ordered(rows) && limit >= 1
    ensures ShowsNewest(rows, FirstLoad(rows, limit), Min(|rows|, limit))
  {
    PageAfter(rows, 0, None, limit);
    assert rows[0..Min(|rows|, limit)] == rows[..Min(|rows|, limit)];
  }

  lemma {:induction false} CacheAfterLoads(rows: seq<Row>, limit: nat, j: nat)
    requires Ordered(rows) && limit >= 1
    ensures ShowsNewest(rows, AfterLoads(rows, limit, j), Min(|rows|, RowsLoaded(limit, j)))
  {
    if j == 0 {
      FirstLoadShows(rows, limit);
    } else {
      CacheAfterLoads(rows, limit, j - 1);
      LoadedIsProduct(limit, j - 1);
      LoadShowsMore(rows, AfterLoads(rows, limit, j - 1), Min(|rows|, RowsLoaded(limit, j - 1)), limit);
    }
  }

  /**
   * After `j` loads of earlier messages the cache is the newest `limit * (j + 1)` rows in ascending
   * order, without gap or repeat; the cursor is gone exactly when all rows are there.
   */
  lemma {:induction false} CacheIsNewestRows(rows: seq<Row>, limit: nat, j: nat)
    requires Ordered(rows) && limit >= 1
    ensures ShowsNewest(rows, AfterLoads(rows, limit, j), Min(|rows|, limit * (j + 1)))
  {
    CacheAfterLoads(rows, limit, j);
    LoadedIsProduct(limit, j);
  }

  lemma {:induction false} MulMonotone(a: nat, b: nat, c: nat)
    requires a <= b
    ensures c * a <= c * b
  {
  }

  lemma {:induction false} CeilDivIsLeast(n: nat, d: nat, m: nat)
    requires d >= 1
    ensures n <= d * m <==> m >= CeilDiv(n, d)
  {
    var q := CeilDiv(n, d);
    assert n + d - 1 == d * q + (n + d - 1) % d;
    if m >= q {
      MulMonotone(q, m, d);
    } else {
      MulMonotone(m, q - 1, d);
      assert d * (q - 1) == d * q - d;
    }
  }

  lemma {:induction false} PagesFill(n: nat, limit: nat, j: nat)
    requires limit >= 1
    ensures n <= limit * (j + 1) <==> j + 1 >= if n == 0 then 1 else CeilDiv(n, limit)
    ensures limit * (j + 1) >= 1
  {
    CeilDivIsLeast(n, limit, j + 1);
    MulMonotone(1, j + 1, limit);
  }

  /** Following the cursors ends, after as many pages as the rows fill, and at least one. */
  lemma {:induction false} PagesNeeded(rows: seq<Row>, limit: nat, j: nat)
    requires Ordered(rows) && limit >= 1
    ensures AfterLoads(rows, limit, j).earlierCursor.None? <==>
              j + 1 >= if |rows| == 0 then 1 else CeilDiv(|rows|, limit)
    ensures AfterLoads(rows, limit, j).earlierCursor.None? ==> AfterLoads(rows, limit, j).items == Reverse(rows)
  {
    CacheIsNewestRows(rows, limit, j);
    PagesFill(|rows|, limit, j);
    assert rows[..|rows|] == rows;
  }

  /** Rows added later, newer than all others, do not disturb the pages after a cursor. */
  lemma {:induction false} NewRowsDoNotDisturb(newer: seq<Row>, rows: seq<Row>, k: nat, limit: nat)
    requires Ordered(newer + rows) && Ordered(rows) && k < |rows|
    ensures Page(newer + rows, Some(rows[k].key), limit) == Page(rows, Some(rows[k].key), limit)
  {
    SelectAppend(newer, rows, Some(rows[k].key));
    forall i | 0 <= i < |newer| ensures !KeysetBefore(newer[i].key, rows[k].key) {
      assert (newer + rows)[i] == newer[i] && (newer + rows)[|newer| + k] == rows[k];
    }
    SelectNone(newer, rows[k].key);
    assert [] + Select(rows, Some(rows[k].key)) == Select(rows, Some(rows[k].key));
  }

  /** The recent history for the prompt: the newest rows, turned round into ascending order. */
  function ListRecent(rows: seq<Row>, limit: nat): seq<Row> { Reverse(Take(rows, limit)) }

  /** The prompt's history and the client's first page are the same rows in the same order. */
  lemma {:induction false} RecentIsFirstLoad(rows: seq<Row>, limit: nat)
    requires Ordered(rows) && limit >= 1
    ensures ListRecent(rows, limit) == FirstLoad(rows, limit).items
  {
    FirstLoadShows(rows, limit);
    assert Take(rows, limit) == rows[..Min(|rows|, limit)];
  }

  // --- the cursor's text -----------------------------------------------------

  function FirstBar(s: string, from: nat): (i: nat)
    requires from <= |s|
    ensures from <= i <= |s| && (i < |s| ==> s[i] == '|') && forall j | from <= j < i :: s[j] != '|'
    decreases |s| - from
  {
    if from == |s| || s[from] == '|' then from else FirstBar(s, from + 1)
  }

  function EncodeCursor(ts: string, id: string): string { ts + "|" + id }

  function DecodeCursor(raw: string): Option<(string, string)> {
    var i := FirstBar(raw, 0);
    if i == |raw| then None else Some((raw[..i], raw[i + 1..]))
  }

  /** A timestamp has no bar, so the cursor's text gives back both parts; text without a bar is refused. */
  lemma {:induction false} CursorRoundTrip(ts: string, id: string)
    requires '|' !in ts
    ensures DecodeCursor(EncodeCursor(ts, id)) == Some((ts, id)) && DecodeCursor(ts) == None
  {
    var raw := EncodeCursor(ts, id);
    forall j | 0 <= j < |ts| ensures raw[j] != '|' && ts[j] != '|' { assert raw[j] == ts[j] && ts[j] in ts; }
    assert raw[|ts|] == '|';
    assert FirstBar(raw, 0) == |ts|;
    assert raw[..|ts|] == ts && raw[|ts| + 1..] == id;
  }
}
