/** internal/osclient/osclient.go: what a point-in-time snapshot answers to one page request. */
module Search {
  import opened Base
  import opened Types
  import opened Payload

  /** One hit; `sort` is the pair of sort values that serves as cursor. */
  datatype Hit = Hit(messageSeq: int, messageId: int, subSeq: int, from: string, channelId: string,
                     timestamp: int, payload: Option<Object>, payloadRaw: Option<Object>,
                     sort: seq<int>)

  datatype Doc = Doc(hit: Hit, virtual: bool)

  datatype Query = Query(channelId: string, range: TimeRange)

  /** The bool query: channel and time range, both ends included, and no virtual document. */
  predicate Matches(q: Query, d: Doc) {
    && d.hit.channelId == q.channelId
    && q.range.startTs <= d.hit.timestamp <= q.range.endTs
    && !d.virtual
  }

  function Select(index: seq<Doc>, q: Query): seq<Hit> {
    if index == [] then []
    else (if Matches(q, index[0]) then [index[0].hit] else []) + Select(index[1..], q)
  }

  /** Strictly smaller in (messageId, subSeq), compared position by position. */
  predicate Below(a: seq<int>, b: seq<int>) {
    && |a| == 2 && |b| == 2
    && (a[0] < b[0] || (a[0] == b[0] && a[1] < b[1]))
  }

  function CursorOf(h: Hit): seq<int> { [h.messageId, h.subSeq] }

  /** Unique keys, newest first, and each hit carrying its own key as sort value. */
  ghost predicate Descending(hits: seq<Hit>) {
    && (forall i :: 0 <= i < |hits| ==> hits[i].sort == CursorOf(hits[i]))
    && (forall i, j :: 0 <= i < j < |hits| ==> Below(hits[j].sort, hits[i].sort))
  }

  /** The same for the documents of a snapshot. */
  ghost predicate IsSnapshot(index: seq<Doc>) {
    Descending(Hits(index))
  }

  function Hits(index: seq<Doc>): (r: seq<Hit>)
    ensures |r| == |index| && forall i :: 0 <= i < |r| ==> r[i] == index[i].hit
  {
    seq(|index|, i requires 0 <= i < |index| => index[i].hit)
  }

  /** A hit, if it lies after the cursor; the first page has no cursor. */
  function Keep(h: Hit, after: seq<int>): seq<Hit> {
    if after == [] || Below(h.sort, after) then [h] else []
  }

  /** Hits after a cursor. */
  function Beyond(hits: seq<Hit>, after: seq<int>): seq<Hit> {
    if hits == [] then [] else Keep(hits[0], after) + Beyond(hits[1..], after)
  }

  function Take<T>(s: seq<T>, n: int): seq<T> {
    s[..Max(0, Min(n, |s|))]
  }

  /** An honest page. */
  function Page(hits: seq<Hit>, size: int, after: seq<int>): seq<Hit> {
    Take(Beyond(hits, after), size)
  }

  /** The filter, term by term: a hit is selected if and only if it is that of a document which is
      not virtual, belongs to the channel, and has a timestamp in the range, both ends included. */
  lemma {:induction false} SelectMeaning(index: seq<Doc>, q: Query)
    ensures forall h :: h in Select(index, q) ==>
              && h.channelId == q.channelId && q.range.startTs <= h.timestamp && h.timestamp <= q.range.endTs
              && Doc(h, false) in index
    ensures forall h :: Doc(h, false) in index && h.channelId == q.channelId
                        && q.range.startTs <= h.timestamp && h.timestamp <= q.range.endTs ==>
              h in Select(index, q)
  {
    if index != [] {
      SelectMeaning(index[1..], q);
      assert index == [index[0]] + index[1..];
    }
  }

  /** The order of a snapshot, column by column: newest message first, and within a message the
      highest sub-sequence number first; the sort values are these two columns. */
  lemma SnapshotMeaning(index: seq<Doc>)
    ensures IsSnapshot(index)
            <==> (forall i :: 0 <= i < |index| ==> index[i].hit.sort == [index[i].hit.messageId, index[i].hit.subSeq])
                 && (forall i, j :: 0 <= i < j < |index| ==>
                      var a, b := index[i].hit, index[j].hit;
                      a.messageId > b.messageId || (a.messageId == b.messageId && a.subSeq > b.subSeq))
  {
    var hits := Hits(index);
    if IsSnapshot(index) {
      forall i | 0 <= i < |index|
        ensures index[i].hit.sort == [index[i].hit.messageId, index[i].hit.subSeq]
      {
        assert hits[i].sort == CursorOf(hits[i]);
      }
      forall i, j | 0 <= i < j < |index|
        ensures index[i].hit.messageId > index[j].hit.messageId
                || (index[i].hit.messageId == index[j].hit.messageId && index[i].hit.subSeq > index[j].hit.subSeq)
      {
        assert Below(hits[j].sort, hits[i].sort);
        assert hits[i].sort == CursorOf(hits[i]) && hits[j].sort == CursorOf(hits[j]);
      }
    }
  }

  lemma {:induction false} SelectDescending(index: seq<Doc>, q: Query)
    requires IsSnapshot(index)
    ensures Descending(Select(index, q))
  {
    if index != [] {
      assert Hits(index[1..]) == Hits(index)[1..];
      SelectDescending(index[1..], q);
      SelectMeaning(index[1..], q);
      var rest := Select(index[1..], q);
      forall j | 0 <= j < |rest|
        ensures Below(rest[j].sort, index[0].hit.sort)
      {
        assert rest[j] in rest;
        assert Doc(rest[j], false) in index[1..];
        var i :| 1 <= i < |index| && index[i] == Doc(rest[j], false);
        assert Hits(index)[i] == rest[j] && Hits(index)[0] == index[0].hit;
      }
    }
  }

  /** The cursor held after the first n hits. */
  function CursorAt(hits: seq<Hit>, n: nat): seq<int>
    requires n <= |hits|
  {
    if n == 0 then [] else hits[n - 1].sort
  }

  lemma {:induction false} BeyondAll(hits: seq<Hit>, after: seq<int>)
    requires after == [] || forall i :: 0 <= i < |hits| ==> Below(hits[i].sort, after)
    ensures Beyond(hits, after) == hits
  {
    if hits != [] {
      BeyondAll(hits[1..], after);
      assert hits == [hits[0]] + hits[1..];
    }
  }

  lemma {:induction false} BeyondNone(hits: seq<Hit>, after: seq<int>)
    requires after != [] && forall i :: 0 <= i < |hits| ==> !Below(hits[i].sort, after)
    ensures Beyond(hits, after) == []
  {
    if hits != [] {
      BeyondNone(hits[1..], after);
    }
  }

  lemma {:induction false} BeyondAppend(a: seq<Hit>, b: seq<Hit>, after: seq<int>)
    ensures Beyond(a + b, after) == Beyond(a, after) + Beyond(b, after)
  {
    if a == [] {
      assert a + b == b;
    } else {
      BeyondAppend(a[1..], b, after);
      assert (a + b)[0] == a[0] && (a + b)[1..] == a[1..] + b;
      Regroup(Keep(a[0], after), Beyond(a[1..], after), Beyond(b, after));
    }
  }

  lemma BelowAsymmetric(hits: seq<Hit>, i: nat, j: nat)
    requires Descending(hits) && i <= j < |hits|
    ensures !Below(hits[i].sort, hits[j].sort)
  {
    if i < j {
      assert Below(hits[j].sort, hits[i].sort);
    }
  }

  lemma BelowLater(hits: seq<Hit>, i: nat, j: nat)
    requires Descending(hits) && i < j < |hits|
    ensures Below(hits[j].sort, hits[i].sort)
  {
  }

  /** The cursor of the n-th hit stands exactly between the first n hits and the others. */
  lemma CursorSeparates(hits: seq<Hit>, n: nat)
    requires Descending(hits) && 0 < n <= |hits|
    ensures forall i :: 0 <= i < n ==> !Below(hits[..n][i].sort, hits[n - 1].sort)
    ensures forall i :: 0 <= i < |hits| - n ==> Below(hits[n..][i].sort, hits[n - 1].sort)
    ensures hits[n - 1].sort != []
  {
    forall i | 0 <= i < n
      ensures !Below(hits[..n][i].sort, hits[n - 1].sort)
    {
      BelowAsymmetric(hits, i, n - 1);
    }
    forall i | 0 <= i < |hits| - n
      ensures Below(hits[n..][i].sort, hits[n - 1].sort)
    {
      BelowLater(hits, n - 1, n + i);
    }
    assert hits[n - 1].sort == CursorOf(hits[n - 1]);
  }

  lemma BeyondSplit(before: seq<Hit>, rest: seq<Hit>, after: seq<int>)
    requires after != []
    requires forall i :: 0 <= i < |before| ==> !Below(before[i].sort, after)
    requires forall i :: 0 <= i < |rest| ==> Below(rest[i].sort, after)
    ensures Beyond(before + rest, after) == rest
  {
    BeyondNone(before, after);
    BeyondAll(rest, after);
    BeyondAppend(before, rest, after);
  }

  lemma TakeDrop<T>(s: seq<T>, n: nat)
    requires n <= |s|
    ensures s[..n] + s[n..] == s
  {
  }

  lemma BeyondCursor(hits: seq<Hit>, n: nat)
    requires Descending(hits) && n <= |hits|
    ensures Beyond(hits, CursorAt(hits, n)) == hits[n..]
  {
    if n == 0 {
      BeyondAll(hits, []);
    } else {
      CursorSeparates(hits, n);
      BeyondSplit(hits[..n], hits[n..], hits[n - 1].sort);
      TakeDrop(hits, n);
    }
  }

  lemma PageAt(hits: seq<Hit>, size: nat, start: nat)
    requires Descending(hits) && start <= |hits|
    ensures Page(hits, size, CursorAt(hits, start)) == hits[start..Min(start + size, |hits|)]
  {
    BeyondCursor(hits, start);
  }

  ghost predicate Continues(hits: seq<Hit>, size: nat, page: seq<Hit>, next: seq<Hit>) {
    page != [] && |page| >= size && next == Page(hits, size, Last(page).sort)
  }

  /** A series of pages as the pager fetches them: the first without a cursor, each next one
      after a full page and with the sort value of that page's last hit. */
  ghost predicate IsPaging(hits: seq<Hit>, size: nat, pages: seq<seq<Hit>>) {
    && (pages != [] ==> pages[0] == Page(hits, size, []))
    && (forall i, j :: 0 <= i < j < |pages| && j == i + 1 ==>
          Continues(hits, size, pages[i], pages[j]))
  }

  lemma NextPage(hits: seq<Hit>, size: nat, start: nat, page: seq<Hit>, next: seq<Hit>)
    requires Descending(hits) && 0 < size <= start <= |hits|
    requires page == hits[start - size..start] && next == Page(hits, size, Last(page).sort)
    ensures next == hits[start..Min(start + size, |hits|)]
  {
    assert Last(page) == hits[start - 1];
    PageAt(hits, size, start);
  }

  lemma FrontIsPaging(hits: seq<Hit>, size: nat, pages: seq<seq<Hit>>)
    requires pages != [] && IsPaging(hits, size, pages)
    ensures IsPaging(hits, size, Front(pages))
  {
    var front: seq<seq<Hit>> := Front(pages);
    forall i, j | 0 <= i < j < |front| && j == i + 1
      ensures Continues(hits, size, front[i], front[j])
    {
      assert front[i] == pages[i] && front[j] == pages[j];
    }
  }

  /** One more page after pages that reach up to `mid`. */
  lemma ReachNext(hits: seq<Hit>, size: nat, front: seq<seq<Hit>>, last: seq<Hit>, before: nat, mid: nat)
    requires Descending(hits) && size > 0 && before <= mid <= |hits| && mid == Min(before + size, |hits|)
    requires front != [] && Last(front) == hits[before..mid] && Flatten(front) == hits[..mid]
    requires Continues(hits, size, Last(front), last)
    ensures mid == before + size
    ensures last == hits[mid..Min(mid + size, |hits|)]
    ensures Flatten(front + [last]) == hits[..Min(mid + size, |hits|)]
  {
    hide Descending, Page;
    NextPage(hits, size, mid, Last(front), last);
    FlattenPush(front, last);
    SliceJoin(hits, mid, Min(mid + size, |hits|), Flatten(front + [last]), last);
  }

  lemma LastTwo(hits: seq<Hit>, size: nat, pages: seq<seq<Hit>>)
    requires IsPaging(hits, size, pages) && |pages| > 1
    ensures Continues(hits, size, Last(Front(pages)), Last(pages))
  {
    assert Last(Front(pages)) == pages[|pages| - 2];
  }

  lemma {:induction false} PagesReach(hits: seq<Hit>, size: nat, pages: seq<seq<Hit>>) returns (start: nat, end: nat)
    requires Descending(hits) && size > 0 && pages != [] && IsPaging(hits, size, pages)
    ensures start == (|pages| - 1) * size && start <= |hits| && end == Min(start + size, |hits|)
    ensures Last(pages) == hits[start..end]
    ensures Flatten(pages) == hits[..end]
  {
    hide Descending, Page, Continues;
    var front: seq<seq<Hit>>, last: seq<Hit> := Front(pages), Last(pages);
    if front == [] {
      start, end := 0, Min(size, |hits|);
      PageAt(hits, size, 0);
      FlattenSingle(last);
      assert pages == [last];
    } else {
      LastTwo(hits, size, pages);
      FrontIsPaging(hits, size, pages);
      hide IsPaging;
      var before, mid := PagesReach(hits, size, front);
      start, end := mid, Min(mid + size, |hits|);
      ReachNext(hits, size, front, last, before, mid);
      FrontLast(pages);
      NextMultiple(|front|, size);
    }
  }

  lemma NextMultiple(n: nat, size: nat)
    ensures (n - 1) * size + size == n * size
  {
  }

  /** Paging neither skips nor repeats a hit: the pages together are a prefix of the hits, of
      full length up to the last page, and all of them once a page comes back short. */
  lemma PagingHasNoGap(hits: seq<Hit>, size: nat, pages: seq<seq<Hit>>)
    requires Descending(hits) && size > 0 && IsPaging(hits, size, pages)
    ensures Flatten(pages) == Take(hits, |pages| * size)
    ensures pages != [] && |Last(pages)| < size ==> Flatten(pages) == hits
  {
    if pages != [] {
      var start, end := PagesReach(hits, size, pages);
      assert |pages| * size == (|pages| - 1) * size + size;
    }
  }

  lemma SliceJoin<T>(s: seq<T>, b: nat, c: nat, all: seq<T>, rest: seq<T>)
    requires b <= c <= |s|
    requires all == s[..b] + rest && rest == s[b..c]
    ensures all == s[..c]
  {
  }
}
