/** internal/executor/executor.go: paging with caps, the run of one task, its life cycle in a
    worker, the queue and the registry of cancel functions. */
module Executor {
  import opened Base
  import opened Types
  import opened Search
  import opened Rollover
  import opened Export
  import opened Remote
  import opened Writer
  import opened Store
  import opened Gate

  /** The most hits one channel can still contribute. */
  function Room(cfg: Settings, seen: int): nat {
    Max(0, Min(cfg.perChannelCap, cfg.maxTaskHits - seen))
  }

  lemma StopsAtTotalCap(cfg: Settings, len: nat, seen: int, n: nat)
    requires n <= Room(cfg, seen) && n < len && seen + n >= cfg.maxTaskHits
    ensures CutOf(cfg, len, seen) == ByTotalCap && Quota(cfg, len, seen) == n
  {
  }

  lemma StopsAtChannelCap(cfg: Settings, len: nat, seen: int, n: nat)
    requires n <= Room(cfg, seen) && n < len && seen + n < cfg.maxTaskHits && n >= cfg.perChannelCap
    ensures CutOf(cfg, len, seen) == ByChannelCap && Quota(cfg, len, seen) == n
  {
  }

  lemma StopsAtEnd(cfg: Settings, len: nat, seen: int)
    requires len <= Room(cfg, seen)
    ensures CutOf(cfg, len, seen) == Whole && Quota(cfg, len, seen) == len
  {
  }

  lemma PageNumber(k: nat, size: nat, i: nat)
    requires i < size
    ensures (k * size + i) / size == k
  {
    var n := k * size + i;
    DivBound(k, size, n);
    assert (k + 1) * size == k * size + size;
    MulMonotone(k + 1, n / size, size);
  }

  lemma ChopNext(cfg: Settings, got: seq<Hit>, h: Hit)
    ensures Chop(cfg.limits, Lines(cfg.codec, got + [h]))
         == match LineOf(cfg.codec, ToInput(h))
            case None => Chop(cfg.limits, Lines(cfg.codec, got))
            case Some(l) => Push(cfg.limits, Chop(cfg.limits, Lines(cfg.codec, got)), l)
  {
    assert Front(got + [h]) == got && Last(got + [h]) == h;
    var lines := Lines(cfg.codec, got);
    match LineOf(cfg.codec, ToInput(h))
    case None => assert lines + [] == lines;
    case Some(l) => assert Front(lines + [l]) == lines && Last(lines + [l]) == l;
  }

  ghost predicate LateSearch(late0: nat, late: nat, cancelled: bool) {
    late == late0 || (late == late0 + 1 && cancelled)
  }

  lemma TakeNone<T>(got: seq<T>, page: seq<T>)
    ensures got + page[..0] == got
  {
  }

  lemma TakeNext<T>(got: seq<T>, page: seq<T>, i: nat)
    requires i < |page|
    ensures got + page[..i] + [page[i]] == got + page[..i + 1]
  {
  }

  /** The hits taken and the two flags are those of the specification. */
  ghost predicate DrainIsExact(cfg: Settings, hits: seq<Hit>, seen: int, got: seq<Hit>, chTrunc: bool, totalCap: bool) {
    && got == hits[..Quota(cfg, |hits|, seen)]
    && chTrunc == (CutOf(cfg, |hits|, seen) == ByChannelCap)
    && totalCap == (CutOf(cfg, |hits|, seen) == ByTotalCap)
  }

  /** Between two pages: only full pages so far, and the cursor stands behind the last hit. */
  ghost predicate Progress(cfg: Settings, honest: bool, hits: seq<Hit>, calls: nat, got: seq<Hit>, after: seq<int>) {
    && calls * cfg.pageSize <= |got|
    && (honest ==> calls * cfg.pageSize == |got| <= |hits| && got == hits[..|got|] && after == CursorAt(hits, |got|))
  }

  lemma ProgressStart(cfg: Settings, honest: bool, hits: seq<Hit>)
    ensures Progress(cfg, honest, hits, 0, [], [])
  {
  }

  /** The drain ends inside a page, at its n-th hit: after full pages only, so the number of
      hits tells the number of calls. */
  lemma DrainEnds(cfg: Settings, os: Services, job: Job, channelId: string, seen: int, calls: nat,
                  got: seq<Hit>, after: seq<int>, page: seq<Hit>, n: nat, taken: seq<Hit>,
                  chTrunc: bool, totalCap: bool)
    requires cfg.pageSize > 0 && IsSnapshot(os.index)
    requires Progress(cfg, os.honest, ChannelHits(os.index, job, channelId), calls, got, after)
    requires os.honest ==> IsNextPage(cfg, ChannelHits(os.index, job, channelId), got, page)
    requires n <= |page| && taken == got + page[..n] && |taken| <= Room(cfg, seen)
    requires totalCap ==> !chTrunc && n < |page| && seen + |taken| >= cfg.maxTaskHits
    requires chTrunc ==> n < |page| && seen + |taken| < cfg.maxTaskHits && |taken| >= cfg.perChannelCap
    requires !totalCap && !chTrunc ==> n == |page| < cfg.pageSize
    ensures os.honest ==> DrainIsExact(cfg, ChannelHits(os.index, job, channelId), seen, taken, chTrunc, totalCap)
    ensures os.honest ==> PageCalls(cfg, |taken|) == calls + 1
  {
    if os.honest {
      var hits := ChannelHits(os.index, job, channelId);
      TakePrefix(hits, |got|, page, n);
      PageNumber(calls, cfg.pageSize, n);
      if totalCap {
        StopsAtTotalCap(cfg, |hits|, seen, |taken|);
      } else if chTrunc {
        StopsAtChannelCap(cfg, |hits|, seen, |taken|);
      } else {
        StopsAtEnd(cfg, |hits|, seen);
      }
    }
  }

  /** The page holds the hits that follow those already taken. */
  ghost predicate IsNextPage(cfg: Settings, hits: seq<Hit>, got: seq<Hit>, page: seq<Hit>) {
    |got| <= |hits| && cfg.pageSize > 0 && page == hits[|got|..Min(|got| + cfg.pageSize, |hits|)]
  }

  lemma HonestPage(cfg: Settings, os: Services, job: Job, channelId: string, calls: nat, got: seq<Hit>, after: seq<int>)
    requires cfg.pageSize > 0 && IsSnapshot(os.index) && os.honest
    requires Progress(cfg, os.honest, ChannelHits(os.index, job, channelId), calls, got, after)
    ensures var hits := ChannelHits(os.index, job, channelId);
            IsNextPage(cfg, hits, got, Page(hits, cfg.pageSize, after))
  {
    SelectDescending(os.index, Query(channelId, job.range));
    PageAt(ChannelHits(os.index, job, channelId), cfg.pageSize, |got|);
  }

  lemma TakePrefix<T>(hits: seq<T>, before: nat, page: seq<T>, n: nat)
    requires before + n <= before + |page| <= |hits| && page == hits[before..before + |page|]
    ensures hits[..before] + page[..n] == hits[..before + n]
  {
  }

  /** A full page without a cut keeps the loop in step with the index. */
  lemma PageFull(cfg: Settings, os: Services, job: Job, channelId: string, calls: nat,
                 got: seq<Hit>, after: seq<int>, page: seq<Hit>, taken: seq<Hit>)
    requires cfg.pageSize > 0 && IsSnapshot(os.index)
    requires Progress(cfg, os.honest, ChannelHits(os.index, job, channelId), calls, got, after)
    requires os.honest ==> IsNextPage(cfg, ChannelHits(os.index, job, channelId), got, page)
    requires |page| >= cfg.pageSize && taken == got + page[..|page|]
    ensures Progress(cfg, os.honest, ChannelHits(os.index, job, channelId), calls + 1, taken, Last(page).sort)
  {
    assert (calls + 1) * cfg.pageSize == calls * cfg.pageSize + cfg.pageSize;
    if os.honest {
      var hits := ChannelHits(os.index, job, channelId);
      TakePrefix(hits, |got|, page, |page|);
    }
  }

  lemma CallBound(cfg: Settings, honest: bool, hits: seq<Hit>, calls: nat, got: seq<Hit>, after: seq<int>, room: nat)
    requires cfg.pageSize > 0 && Progress(cfg, honest, hits, calls, got, after) && |got| <= room
    ensures calls + 1 <= PageCalls(cfg, room)
  {
    DivBound(calls, cfg.pageSize, room);
  }

  class Worker {
    const cfg: Settings
    const store: MySQLStore
    const gate: Semaphore
    const queueBuffer: nat

    var queue: seq<TaskId>
    /** The registered cancel functions: each cancels one task context. */
    var cancels: map<TaskId, Services>

    constructor (cfg: Settings, store: MySQLStore, gate: Semaphore, queueBuffer: int)
      ensures this.cfg == (if cfg.pageSize <= 0 then cfg.(pageSize := 1000) else cfg) && this.cfg.pageSize > 0
      ensures this.store == store && this.gate == gate && this.queueBuffer == Max(1, queueBuffer)
      ensures queue == [] && cancels == map[]
    {
      this.cfg := if cfg.pageSize <= 0 then cfg.(pageSize := 1000) else cfg;
      this.store, this.gate := store, gate;
      this.queueBuffer := if queueBuffer <= 0 then 1 else queueBuffer;
      queue, cancels := [], map[];
    }

    method Enqueue(id: TaskId) returns (ok: bool)
      modifies this`queue
      ensures ok <==> |old(queue)| < queueBuffer
      ensures queue == if ok then old(queue) + [id] else old(queue)
    {
      ok := |queue| < queueBuffer;
      if ok {
        queue := queue + [id];
      }
    }

    /** Cancels the context registered for the task, and no other. */
    method CancelTask(id: TaskId)
      modifies cancels.Values`cancelled
      ensures id in cancels ==> cancels[id].cancelled
      ensures forall s :: s in cancels.Values && (id !in cancels || s != cancels[id]) ==>
                s.cancelled == old(s.cancelled)
    {
      if id in cancels {
        cancels[id].cancelled := true;
      }
    }

    /** The inner loop of `drainChannel`: writes the hits of one page until a cap stops it.
        `got` is what was written before, `taken` what is written after. */
    method WritePage(w: PartWriter, page: seq<Hit>, chSeen0: nat, total0: int, ghost seen: int, ghost got: seq<Hit>)
      returns (chSeen: nat, total: int, chTrunc: bool, totalCap: bool, err: bool, ghost taken: seq<Hit>)
      requires w.Valid() && w.cfg == cfg
      requires chSeen0 <= Room(cfg, seen) && total0 == seen + chSeen0
      requires w.visit == Chop(cfg.limits, Lines(cfg.codec, got))
      modifies w, w.up`objects, w.up`stops, w.up`cancelled
      ensures w.Valid() && w.settled == old(w.settled) && w.curChannel == old(w.curChannel)
      ensures w.up.stops == old(w.up.stops) + (if err then 1 else 0)
      ensures old(w.up.cancelled) ==> w.up.cancelled
      ensures chSeen0 <= chSeen <= Room(cfg, seen) && chSeen - chSeen0 <= |page| && total == seen + chSeen
      ensures taken == got + page[..chSeen - chSeen0]
      ensures !err ==> w.visit == Chop(cfg.limits, Lines(cfg.codec, taken))
      ensures totalCap ==> !err && !chTrunc && chSeen - chSeen0 < |page| && total >= cfg.maxTaskHits
      ensures chTrunc ==> !err && chSeen - chSeen0 < |page| && total < cfg.maxTaskHits && chSeen >= cfg.perChannelCap
      ensures !err && !totalCap && !chTrunc ==> chSeen - chSeen0 == |page|
    {
      hide PartWriter.Valid;
      chSeen, total, chTrunc, totalCap, err, taken := chSeen0, total0, false, false, false, got;
      TakeNone(got, page);
      for i := 0 to |page|
        invariant chSeen == chSeen0 + i && total == total0 + i && chSeen <= Room(cfg, seen)
        invariant w.Valid() && w.settled == old(w.settled) && w.curChannel == old(w.curChannel)
        invariant w.up.stops == old(w.up.stops)
        invariant old(w.up.cancelled) ==> w.up.cancelled
        invariant taken == got + page[..i]
        invariant w.visit == Chop(cfg.limits, Lines(cfg.codec, taken))
      {
        if total >= cfg.maxTaskHits {
          totalCap := true;
          return;
        }
        if chSeen >= cfg.perChannelCap {
          chTrunc := true;
          return;
        }
        var h := page[i];
        var ok, written := w.Write(ToInput(h));
        if !ok {
          err := true;
          return;
        }
        ChopNext(cfg, taken, h);
        TakeNext(got, page, i);
        taken := taken + [h];
        chSeen := chSeen + 1;
        total := total + 1;
      }
    }

    /** Checks the context and asks for one page: a search never starts under a context that
        was cancelled before the check. */
    method FetchPage(os: Services, job: Job, channelId: string, after: seq<int>, ghost calls: nat, ghost got: seq<Hit>)
      returns (err: bool, page: seq<Hit>)
      requires cfg.pageSize > 0 && IsSnapshot(os.index)
      requires Progress(cfg, os.honest, ChannelHits(os.index, job, channelId), calls, got, after)
      modifies os`cancelled, os`stops, os`searches, os`late
      ensures os.stops == old(os.stops) + (if err then 1 else 0)
      ensures !err && os.honest ==> IsNextPage(cfg, ChannelHits(os.index, job, channelId), got, page)
      ensures os.searches <= old(os.searches) + 1
      ensures !err ==> os.searches == old(os.searches) + 1
      ensures os.late == old(os.late) || (!old(os.cancelled) && os.cancelled && os.late == old(os.late) + 1)
      ensures old(os.cancelled) ==> os.cancelled
    {
      page := [];
      err := os.CtxErr();
      if err {
        return;
      }
      if os.honest {
        HonestPage(cfg, os, job, channelId, calls, got, after);
      }
      var r := os.Search(Query(channelId, job.range), cfg.pageSize, after);
      match r
      case Ok(hits) => page := hits;
      case Err => err := true;
    }

    /** The rest of one turn of the outer loop, after a page was fetched. `more` asks for
        another turn with the new cursor. */
    method TakePage(os: Services, w: PartWriter, job: Job, channelId: string, page: seq<Hit>, after0: seq<int>,
                    chSeen0: nat, total0: int, ghost seen: int, ghost calls: nat, ghost got: seq<Hit>)
      returns (chSeen: nat, chTrunc: bool, totalCap: bool, total: int, err: bool, more: bool, after: seq<int>,
               ghost taken: seq<Hit>)
      requires cfg.pageSize > 0 && IsSnapshot(os.index)
      requires w.Valid() && w.cfg == cfg && w.up == os
      requires |got| == chSeen0 <= Room(cfg, seen) && total0 == seen + chSeen0
      requires w.visit == Chop(cfg.limits, Lines(cfg.codec, got))
      requires Progress(cfg, os.honest, ChannelHits(os.index, job, channelId), calls, got, after0)
      requires os.honest ==> IsNextPage(cfg, ChannelHits(os.index, job, channelId), got, page)
      modifies w, os`objects, os`stops, os`cancelled
      ensures w.Valid() && w.settled == old(w.settled) && w.curChannel == old(w.curChannel)
      ensures os.stops == old(os.stops) + (if err then 1 else 0)
      ensures |taken| == chSeen <= Room(cfg, seen) && total == seen + chSeen
      ensures !err ==> w.visit == Chop(cfg.limits, Lines(cfg.codec, taken)) && !(chTrunc && totalCap)
      ensures more ==> !err && chSeen > chSeen0
                       && Progress(cfg, os.honest, ChannelHits(os.index, job, channelId), calls + 1, taken, after)
      ensures !err && !more && os.honest ==>
                && DrainIsExact(cfg, ChannelHits(os.index, job, channelId), seen, taken, chTrunc, totalCap)
                && PageCalls(cfg, |taken|) == calls + 1
      ensures old(os.cancelled) ==> os.cancelled
    {
      hide PartWriter.Valid, Chop, Lines, IsSnapshot;
      chSeen, chTrunc, totalCap, total, more, after, taken := chSeen0, false, false, total0, false, after0, got;
      err := false;
      if |page| == 0 {
        TakeNone(got, page);
        DrainEnds(cfg, os, job, channelId, seen, calls, got, after0, page, 0, got, false, false);
        return;
      }
      chSeen, total, chTrunc, totalCap, err, taken := WritePage(w, page, chSeen0, total0, seen, got);
      if err {
        return;
      }
      if totalCap || chTrunc || |page| < cfg.pageSize {
        DrainEnds(cfg, os, job, channelId, seen, calls, got, after0, page, chSeen - chSeen0, taken, chTrunc, totalCap);
        return;
      }
      PageFull(cfg, os, job, channelId, calls, got, after0, page, taken);
      more, after := true, page[|page| - 1].sort;
    }

    /** Pages through one channel. */
    method DrainChannel(os: Services, w: PartWriter, job: Job, channelId: string, totalSeen: int)
      returns (chSeen: nat, chTrunc: bool, totalCap: bool, total: int, err: bool, ghost got: seq<Hit>)
      requires cfg.pageSize > 0 && IsSnapshot(os.index)
      requires w.Valid() && w.cfg == cfg && w.up == os
      requires w.visit == Chopped([], [])
      modifies w, os`objects, os`stops, os`cancelled, os`searches, os`late
      ensures w.Valid() && w.settled == old(w.settled) && w.curChannel == old(w.curChannel)
      ensures os.stops == old(os.stops) + (if err then 1 else 0)
      ensures |got| == chSeen <= Room(cfg, totalSeen) && total == totalSeen + chSeen
      ensures !err ==> w.visit == Chop(cfg.limits, Lines(cfg.codec, got)) && !(chTrunc && totalCap)
      ensures !err && os.honest ==>
                && DrainIsExact(cfg, ChannelHits(os.index, job, channelId), totalSeen, got, chTrunc, totalCap)
                && os.searches == old(os.searches) + PageCalls(cfg, |got|)
      ensures os.searches <= old(os.searches) + PageCalls(cfg, Room(cfg, totalSeen))
      ensures LateSearch(old(os.late), os.late, os.cancelled)
      ensures old(os.cancelled) ==> os.cancelled && os.late == old(os.late)
    {
      hide PartWriter.Valid, IsSnapshot, Progress, DrainIsExact;
      ghost var calls: nat := 0;
      chSeen, chTrunc, totalCap, total, err, got := 0, false, false, totalSeen, false, [];
      var after: seq<int> := [];
      var more := true;
      ProgressStart(cfg, os.honest, ChannelHits(os.index, job, channelId));
      while more
        invariant w.Valid() && w.settled == old(w.settled) && w.curChannel == old(w.curChannel)
        invariant os.stops == old(os.stops) + (if err then 1 else 0)
        invariant |got| == chSeen <= Room(cfg, totalSeen) && total == totalSeen + chSeen
        invariant !err ==> w.visit == Chop(cfg.limits, Lines(cfg.codec, got)) && !(chTrunc && totalCap)
        invariant more ==> !err && os.searches == old(os.searches) + calls
                           && Progress(cfg, os.honest, ChannelHits(os.index, job, channelId), calls, got, after)
        invariant !more && !err && os.honest ==>
                    && DrainIsExact(cfg, ChannelHits(os.index, job, channelId), totalSeen, got, chTrunc, totalCap)
                    && os.searches == old(os.searches) + PageCalls(cfg, |got|)
        invariant os.searches <= old(os.searches) + PageCalls(cfg, Room(cfg, totalSeen))
        invariant LateSearch(old(os.late), os.late, os.cancelled)
        invariant old(os.cancelled) ==> os.cancelled && os.late == old(os.late)
        decreases more, Room(cfg, totalSeen) - chSeen
      {
        CallBound(cfg, os.honest, ChannelHits(os.index, job, channelId), calls, got, after, Room(cfg, totalSeen));
        var page;
        err, page := FetchPage(os, job, channelId, after, calls, got);
        if err {
          return;
        }
        chSeen, chTrunc, totalCap, total, err, more, after, got :=
          TakePage(os, w, job, channelId, page, after, chSeen, total, totalSeen, calls, got);
        calls := calls + 1;
      }
    }
  }
}
