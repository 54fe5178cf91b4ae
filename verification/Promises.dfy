/** Three more promises of the API document that the code keeps on some snapshots and breaks on
    others: rows falling by message_seq, numbers before truncation, each message once. */
module Promises {
  import opened Base
  import opened Types
  import opened Payload
  import opened Search
  import opened Rollover
  import opened Export
  import opened ExportProperties
  import opened Boundaries
  import Sorting

  // ----- the hits behind the rows -----

  /** The hits that are exported, in order. */
  function Kept(codec: Codec, hits: seq<Hit>): seq<Hit> {
    if hits == [] then []
    else Kept(codec, Front(hits)) + (if LineSeq(codec, Last(hits)) == [] then [] else [Last(hits)])
  }

  ghost predicate AllKept(codec: Codec, rows: seq<Hit>) {
    forall i :: 0 <= i < |rows| ==> LineSeq(codec, rows[i]) != []
  }

  lemma {:induction false} LinesOfRows(codec: Codec, rows: seq<Hit>)
    requires AllKept(codec, rows)
    ensures |Lines(codec, rows)| == |rows|
  {
    if rows != [] {
      LinesOfRows(codec, Front(rows));
    }
  }

  lemma {:induction false} KeptLines(codec: Codec, hits: seq<Hit>)
    ensures AllKept(codec, Kept(codec, hits))
    ensures Lines(codec, Kept(codec, hits)) == Lines(codec, hits)
  {
    if hits != [] {
      var front, last := Kept(codec, Front(hits)), Last(hits);
      KeptLines(codec, Front(hits));
      if LineSeq(codec, last) == [] {
        assert Kept(codec, hits) == front;
      } else {
        assert Front(front + [last]) == front && Last(front + [last]) == last;
      }
    }
  }

  lemma {:induction false} KeptMembers(codec: Codec, hits: seq<Hit>)
    ensures forall h :: h in Kept(codec, hits) ==> h in hits
  {
    if hits != [] {
      KeptMembers(codec, Front(hits));
    }
  }

  /** A line holds the columns of its hit, each in its own field, and the hit's text. */
  ghost predicate LineFrom(codec: Codec, l: Line, h: Hit) {
    exists text: string ::
      && ExtractPayload(h.payload, h.payloadRaw) == Some(text)
      && codec.marshal(OutLine(h.messageSeq, h.from, h.channelId, h.timestamp, text)) == Some(l)
  }

  lemma LineFromHit(codec: Codec, h: Hit)
    requires LineSeq(codec, h) != []
    ensures LineFrom(codec, LineSeq(codec, h)[0], h)
  {
    LineFields(codec, h);
    var text := ExtractPayload(h.payload, h.payloadRaw).value;
    assert codec.marshal(OutLine(h.messageSeq, h.from, h.channelId, h.timestamp, text)) == LineOf(codec, ToInput(h));
  }

  /** The lines are those of the hits kept, one by one. */
  lemma {:induction false} LinesTell(codec: Codec, rows: seq<Hit>)
    requires AllKept(codec, rows)
    ensures |Lines(codec, rows)| == |rows|
    ensures forall i :: 0 <= i < |rows| ==> LineFrom(codec, Lines(codec, rows)[i], rows[i])
  {
    if rows != [] {
      LinesTell(codec, Front(rows));
      LineFromHit(codec, Last(rows));
    }
  }

  lemma {:induction false} KeptDescending(codec: Codec, hits: seq<Hit>)
    requires Descending(hits)
    ensures Descending(Kept(codec, hits))
  {
    if hits != [] {
      var front, last := Kept(codec, Front(hits)), Last(hits);
      DescendingSlice(hits, 0, |hits| - 1);
      assert Front(hits) == hits[0..|hits| - 1];
      KeptDescending(codec, Front(hits));
      KeptMembers(codec, Front(hits));
      forall i | 0 <= i < |front|
        ensures Below(last.sort, front[i].sort)
      {
        assert front[i] in Front(hits);
        var j :| 0 <= j < |hits| - 1 && hits[j] == front[i];
        BelowLater(hits, j, |hits| - 1);
      }
    }
  }

  /** Rows cut into pieces as long as the parts. */
  function Pieces(rows: seq<Hit>, parts: seq<seq<Line>>): seq<seq<Hit>>
    requires |rows| == |Flatten(parts)|
  {
    if parts == [] then [] else [rows[..|parts[0]|]] + Pieces(rows[|parts[0]|..], parts[1..])
  }

  lemma {:induction false} LinesSplit(codec: Codec, rows: seq<Hit>, n: nat)
    requires AllKept(codec, rows) && n <= |rows|
    ensures |Lines(codec, rows)| == |rows|
    ensures Lines(codec, rows[..n]) == Lines(codec, rows)[..n] && Lines(codec, rows[n..]) == Lines(codec, rows)[n..]
  {
    LinesOfRows(codec, rows);
    LinesOfRows(codec, rows[..n]);
    LinesAppend(codec, rows[..n], rows[n..]);
    TakeDrop(rows, n);
  }

  ghost predicate GoodRows(codec: Codec, rows: seq<Hit>, lines: seq<Line>) {
    AllKept(codec, rows) && Descending(rows) && Lines(codec, rows) == lines
  }

  lemma GoodSplit(codec: Codec, rows: seq<Hit>, first: seq<Line>, rest: seq<Line>)
    requires GoodRows(codec, rows, first + rest)
    ensures |first| <= |rows| == |first| + |rest|
    ensures GoodRows(codec, rows[..|first|], first) && GoodRows(codec, rows[|first|..], rest)
  {
    var n := |first|;
    LinesOfRows(codec, rows);
    LinesSplit(codec, rows, n);
    assert (first + rest)[..n] == first && (first + rest)[n..] == rest;
    assert rows[0..n] == rows[..n] && rows[n..|rows|] == rows[n..];
    DescendingSlice(rows, 0, n);
    DescendingSlice(rows, n, |rows|);
  }

  /** Each piece is exported as its part, and stays in order. */
  lemma {:induction false} PiecesMeaning(codec: Codec, rows: seq<Hit>, parts: seq<seq<Line>>)
    requires GoodRows(codec, rows, Flatten(parts)) && |rows| == |Flatten(parts)|
    ensures var pieces := Pieces(rows, parts);
            |pieces| == |parts| && forall k :: 0 <= k < |pieces| ==> GoodRows(codec, pieces[k], parts[k])
  {
    hide GoodRows;
    if parts != [] {
      GoodSplit(codec, rows, parts[0], Flatten(parts[1..]));
      PiecesMeaning(codec, rows[|parts[0]|..], parts[1..]);
    }
  }

  lemma VisitRowsFit(cfg: Settings, v: Visit)
    ensures |Kept(cfg.codec, v.hits)| == |Flatten(Split(cfg.limits, VisitLines(cfg, v)))|
  {
    KeptLines(cfg.codec, v.hits);
    LinesOfRows(cfg.codec, Kept(cfg.codec, v.hits));
    SplitIsGreedy(cfg.limits, VisitLines(cfg, v));
  }

  /** The hits in each part of a visit. */
  function VisitRows(cfg: Settings, v: Visit): seq<seq<Hit>> {
    VisitRowsFit(cfg, v);
    Pieces(Kept(cfg.codec, v.hits), Split(cfg.limits, VisitLines(cfg, v)))
  }

  /** The hits in each part of a run. */
  function Rows(cfg: Settings, vs: seq<Visit>): seq<seq<Hit>> {
    if vs == [] then [] else Rows(cfg, Front(vs)) + VisitRows(cfg, Last(vs))
  }

  lemma VisitRowsMeaning(cfg: Settings, v: Visit)
    requires Descending(v.hits)
    ensures var rows, parts := VisitRows(cfg, v), VisitParts(cfg, v);
            && |rows| == |parts|
            && forall k :: 0 <= k < |rows| ==> GoodRows(cfg.codec, rows[k], parts[k].lines)
  {
    var kept := Kept(cfg.codec, v.hits);
    VisitRowsFit(cfg, v);
    KeptLines(cfg.codec, v.hits);
    KeptDescending(cfg.codec, v.hits);
    SplitIsGreedy(cfg.limits, VisitLines(cfg, v));
    PiecesMeaning(cfg.codec, kept, Split(cfg.limits, VisitLines(cfg, v)));
  }

  /** These are the hits behind the lines of the parts, newest first, part by part. */
  ghost predicate RowsFit(cfg: Settings, rows: seq<seq<Hit>>, cs: seq<Content>) {
    && |rows| == |cs|
    && forall k :: 0 <= k < |rows| ==> GoodRows(cfg.codec, rows[k], cs[k].lines)
  }

  lemma RowsFitAppend(cfg: Settings, rows: seq<seq<Hit>>, cs: seq<Content>, more: seq<seq<Hit>>, ds: seq<Content>)
    requires RowsFit(cfg, rows, cs) && RowsFit(cfg, more, ds)
    ensures RowsFit(cfg, rows + more, cs + ds)
  {
  }

  lemma {:induction false} RowsOfContents(cfg: Settings, vs: seq<Visit>)
    requires forall i :: 0 <= i < |vs| ==> Descending(vs[i].hits)
    ensures RowsFit(cfg, Rows(cfg, vs), Contents(cfg, vs))
  {
    if vs != [] {
      RowsOfContents(cfg, Front(vs));
      VisitRowsMeaning(cfg, Last(vs));
      RowsFitAppend(cfg, Rows(cfg, Front(vs)), Contents(cfg, Front(vs)),
                    VisitRows(cfg, Last(vs)), VisitParts(cfg, Last(vs)));
    }
  }

  // ----- rows falling by message_seq -----

  ghost predicate BySeq(rows: seq<Hit>) {
    forall i, j :: 0 <= i < j < |rows| ==> rows[j].messageSeq < rows[i].messageSeq
  }

  /** Message ids and message numbers order these hits alike, wherever they stand. */
  ghost predicate SeqAgrees(hits: seq<Hit>) {
    forall a, b :: a in hits && b in hits && Below(b.sort, a.sort) ==> b.messageSeq < a.messageSeq
  }

  lemma BySeqIff(rows: seq<Hit>)
    requires Descending(rows)
    ensures BySeq(rows) <==> SeqAgrees(rows)
  {
    forall a, b | BySeq(rows) && a in rows && b in rows && Below(b.sort, a.sort)
      ensures b.messageSeq < a.messageSeq
    {
      var i :| 0 <= i < |rows| && rows[i] == a;
      var j :| 0 <= j < |rows| && rows[j] == b;
      if j <= i {
        BelowAsymmetric(rows, j, i);
      }
    }
    forall i, j | SeqAgrees(rows) && 0 <= i < j < |rows|
      ensures rows[j].messageSeq < rows[i].messageSeq
    {
      assert Below(rows[j].sort, rows[i].sort);
    }
  }

  lemma RunVisitsDescending(cfg: Settings, index: seq<Doc>, job: Job)
    requires IsSnapshot(index)
    ensures var vs := RunVisits(cfg, index, job);
            forall i :: 0 <= i < |vs| ==> Descending(vs[i].hits)
  {
    var vs, channels := RunVisits(cfg, index, job), Sorting.SortStrings(job.channels);
    VisitChannels(cfg, index, job, channels, 0);
    forall i | 0 <= i < |vs|
      ensures Descending(vs[i].hits)
    {
      var all := ChannelHits(index, job, channels[i]);
      SelectDescending(index, Query(channels[i], job.range));
      DescendingSlice(all, 0, |vs[i].hits|);
      assert vs[i].hits == all[0..|vs[i].hits|];
    }
  }

  /** The exact condition for the promised order: the rows of every part of a run fall by
      message_seq if and only if message ids and message numbers agree within each part. */
  lemma RowsBySeqIff(cfg: Settings, index: seq<Doc>, job: Job)
    requires IsSnapshot(index)
    ensures var rows := Rows(cfg, RunVisits(cfg, index, job));
            && RowsFit(cfg, rows, RunContents(cfg, index, job))
            && ((forall k :: 0 <= k < |rows| ==> BySeq(rows[k]))
                <==> (forall k :: 0 <= k < |rows| ==> SeqAgrees(rows[k])))
  {
    var rows := Rows(cfg, RunVisits(cfg, index, job));
    RunVisitsDescending(cfg, index, job);
    RowsOfContents(cfg, RunVisits(cfg, index, job));
    forall k | 0 <= k < |rows|
      ensures BySeq(rows[k]) <==> SeqAgrees(rows[k])
    {
      BySeqIff(rows[k]);
    }
  }

  /** Every part of these visits falls by message_seq. */
  ghost predicate AllBySeq(cfg: Settings, vs: seq<Visit>) {
    forall k :: 0 <= k < |Rows(cfg, vs)| ==> BySeq(Rows(cfg, vs)[k])
  }

  lemma {:induction false} PiecesBySeq(rows: seq<Hit>, parts: seq<seq<Line>>)
    requires |rows| == |Flatten(parts)| && BySeq(rows)
    ensures forall k :: 0 <= k < |Pieces(rows, parts)| ==> BySeq(Pieces(rows, parts)[k])
  {
    if parts != [] {
      assert Flatten(parts)[|parts[0]|..] == Flatten(parts[1..]);
      PiecesBySeq(rows[|parts[0]|..], parts[1..]);
    }
  }

  lemma OnePiece(rows: seq<Hit>, part: seq<Line>)
    requires |rows| == |Flatten([part])|
    ensures Pieces(rows, [part]) == [rows]
  {
    FlattenSingle(part);
    assert rows[..|part|] == rows;
    assert Pieces(rows[|part|..], [part][1..]) == [];
  }

  /** Limits under which the lines go into one part. */
  function Roomy(lines: seq<Line>): Limits {
    Limits(|lines| + 1, RawSize(lines) + 1)
  }

  lemma RoomyFits(lim: Limits, lines: seq<Line>)
    requires lim.maxRows >= |lines| && lim.maxBytes > RawSize(lines)
    ensures |Split(lim, lines)| <= 1
  {
    if lines != [] {
      PrefixSize(lines, |lines| - 1);
    }
    OnePartIff(lim, lines);
  }

  lemma WholeVisitRows(cfg: Settings, v: Visit)
    requires |Split(cfg.limits, VisitLines(cfg, v))| <= 1
    ensures Kept(cfg.codec, v.hits) != [] ==> VisitRows(cfg, v) == [Kept(cfg.codec, v.hits)]
  {
    var kept, parts := Kept(cfg.codec, v.hits), Split(cfg.limits, VisitLines(cfg, v));
    VisitRowsFit(cfg, v);
    if kept != [] {
      assert parts == [parts[0]];
      OnePiece(kept, parts[0]);
    }
  }

  lemma {:induction false} RowsOfVisit(cfg: Settings, vs: seq<Visit>, i: nat)
    requires i < |vs|
    ensures forall rows :: rows in VisitRows(cfg, vs[i]) ==> rows in Rows(cfg, vs)
  {
    if i < |vs| - 1 {
      RowsOfVisit(cfg, Front(vs), i);
    }
  }

  lemma {:induction false} AllBySeqFrom(cfg: Settings, vs: seq<Visit>)
    requires forall i :: 0 <= i < |vs| ==> BySeq(Kept(cfg.codec, vs[i].hits))
    ensures AllBySeq(cfg, vs)
  {
    if vs != [] {
      var v := Last(vs);
      AllBySeqFrom(cfg, Front(vs));
      VisitRowsFit(cfg, v);
      PiecesBySeq(Kept(cfg.codec, v.hits), Split(cfg.limits, VisitLines(cfg, v)));
    }
  }

  lemma {:induction false} VisitsIgnoreLimits(cfg: Settings, lim: Limits, index: seq<Doc>, job: Job,
                                              channels: seq<string>, seen: int)
    ensures Visits(cfg.(limits := lim), index, job, channels, seen) == Visits(cfg, index, job, channels, seen)
  {
    if channels != [] {
      VisitsIgnoreLimits(cfg, lim, index, job, channels[1..], VisitOf(cfg, index, job, channels[0], seen).total);
    }
  }

  /** And over all limits: the promise can be relied on if and only if the exported hits of each
      channel visit agree, which can be told from the snapshot before the run. */
  lemma EveryLimitBySeqIff(cfg: Settings, index: seq<Doc>, job: Job)
    requires IsSnapshot(index)
    ensures var vs := RunVisits(cfg, index, job);
            (forall lim: Limits :: AllBySeq(cfg.(limits := lim), RunVisits(cfg.(limits := lim), index, job)))
            <==> forall i :: 0 <= i < |vs| ==> SeqAgrees(Kept(cfg.codec, vs[i].hits))
  {
    var vs := RunVisits(cfg, index, job);
    RunVisitsDescending(cfg, index, job);
    forall lim: Limits
      ensures RunVisits(cfg.(limits := lim), index, job) == vs
    {
      VisitsIgnoreLimits(cfg, lim, index, job, Sorting.SortStrings(job.channels), 0);
    }
    forall i | 0 <= i < |vs|
      ensures BySeq(Kept(cfg.codec, vs[i].hits)) <==> SeqAgrees(Kept(cfg.codec, vs[i].hits))
    {
      KeptDescending(cfg.codec, vs[i].hits);
      BySeqIff(Kept(cfg.codec, vs[i].hits));
    }
    forall lim: Limits | forall i :: 0 <= i < |vs| ==> SeqAgrees(Kept(cfg.codec, vs[i].hits))
      ensures AllBySeq(cfg.(limits := lim), vs)
    {
      AllBySeqFrom(cfg.(limits := lim), vs);
    }
    forall i | 0 <= i < |vs| && AllBySeq(cfg.(limits := Roomy(VisitLines(cfg, vs[i]))), vs)
      ensures BySeq(Kept(cfg.codec, vs[i].hits))
    {
      RoomyBySeq(cfg, vs, i);
    }
    if forall lim: Limits :: AllBySeq(cfg.(limits := lim), RunVisits(cfg.(limits := lim), index, job)) {
      EveryLimitPoint(cfg, index, job);
    }
  }

  lemma EveryLimitPoint(cfg: Settings, index: seq<Doc>, job: Job)
    requires forall lim: Limits :: AllBySeq(cfg.(limits := lim), RunVisits(cfg.(limits := lim), index, job))
    ensures var vs := RunVisits(cfg, index, job);
            forall i :: 0 <= i < |vs| ==> AllBySeq(cfg.(limits := Roomy(VisitLines(cfg, vs[i]))), vs)
  {
    var vs := RunVisits(cfg, index, job);
    forall i | 0 <= i < |vs|
      ensures AllBySeq(cfg.(limits := Roomy(VisitLines(cfg, vs[i]))), vs)
    {
      var lim := Roomy(VisitLines(cfg, vs[i]));
      VisitsIgnoreLimits(cfg, lim, index, job, Sorting.SortStrings(job.channels), 0);
    }
  }

  lemma RoomyBySeq(cfg: Settings, vs: seq<Visit>, i: nat)
    requires i < |vs| && AllBySeq(cfg.(limits := Roomy(VisitLines(cfg, vs[i]))), vs)
    ensures BySeq(Kept(cfg.codec, vs[i].hits))
  {
    var wide := cfg.(limits := Roomy(VisitLines(cfg, vs[i])));
    var kept := Kept(cfg.codec, vs[i].hits);
    RoomyFits(wide.limits, VisitLines(cfg, vs[i]));
    WholeVisitRows(wide, vs[i]);
    RowsOfVisit(wide, vs, i);
    if kept != [] {
      assert kept in VisitRows(wide, vs[i]);
      var k :| 0 <= k < |Rows(wide, vs)| && Rows(wide, vs)[k] == kept;
    }
  }

  /** Two messages, the one with the higher message id numbered lower: under roomy limits and any
      codec that exports both, their part does not fall by message_seq. */
  lemma RowsNotBySeq(codec: Codec)
    requires LineSeq(codec, SmallHit(2, 8)) != [] && LineSeq(codec, SmallHit(1, 9)) != []
    ensures var cfg := SmallSettings(codec, Roomy(Lines(codec, [SmallHit(2, 8), SmallHit(1, 9)])));
            !AllBySeq(cfg, RunVisits(cfg, SmallIndex(8, 9), SMALL_JOB))
  {
    var hits := [SmallHit(2, 8), SmallHit(1, 9)];
    var cfg := SmallSettings(codec, Roomy(Lines(codec, hits)));
    var vs := RunVisits(cfg, SmallIndex(8, 9), SMALL_JOB);
    SmallVisits(cfg, 8, 9);
    assert Front(hits) == [hits[0]] && Front([hits[0]]) == [];
    assert Kept(codec, [hits[0]]) == [hits[0]];
    assert Kept(codec, hits) == hits;
    assert !BySeq(hits) by {
      assert hits[1].messageSeq > hits[0].messageSeq;
    }
    if AllBySeq(cfg, vs) {
      RoomyBySeq(cfg, vs, 0);
    }
  }

  // ----- numbers before truncation -----

  /** A warning is below what it should report: the hits its channel has, or for the task-wide cap
      those of all channels. */
  predicate Underreports(index: seq<Doc>, job: Job, w: Warning) {
    match w.code
    case PerChannelTruncated => w.actualSeen < CountOf(index, job, w.channelId)
    case TotalTruncated => w.actualSeen < CountSum(index, job, job.channels)
  }

  /** Of the channels from here on. */
  predicate UnderreportsFrom(index: seq<Doc>, job: Job, channels: seq<string>, seen: int, w: Warning) {
    match w.code
    case PerChannelTruncated => w.actualSeen < CountOf(index, job, w.channelId)
    case TotalTruncated => w.actualSeen < seen + CountSum(index, job, channels)
  }

  lemma VisitUnderreports(cfg: Settings, index: seq<Doc>, job: Job, ch: string, seen: int)
    ensures forall w :: w in WarningOf(cfg, VisitOf(cfg, index, job, ch, seen)) ==>
              && w.channelId == ch
              && w.actualSeen < (if w.code == PerChannelTruncated then 0 else seen) + CountOf(index, job, ch)
  {
    CutIffDropped(cfg, |ChannelHits(index, job, ch)|, seen);
  }

  lemma {:induction false} VisitsUnderreport(cfg: Settings, index: seq<Doc>, job: Job, channels: seq<string>, seen: int)
    ensures forall w :: w in Warnings(cfg, Visits(cfg, index, job, channels, seen)) ==>
              UnderreportsFrom(index, job, channels, seen, w)
  {
    if channels != [] {
      var v := VisitOf(cfg, index, job, channels[0], seen);
      VisitsFirst(cfg, index, job, channels, seen);
      VisitUnderreports(cfg, index, job, channels[0], seen);
      if v.cut != ByTotalCap {
        VisitsUnderreport(cfg, index, job, channels[1..], v.total);
      }
    }
  }

  /** The promise that actual_seen is the number of hits before truncation is broken by every
      warning there is. */
  lemma WarningsUnderreport(cfg: Settings, index: seq<Doc>, job: Job)
    ensures forall w :: w in RunPlan(cfg, index, job).warnings ==> Underreports(index, job, w)
  {
    VisitsUnderreport(cfg, index, job, Sorting.SortStrings(job.channels), 0);
    CountSumSorted(index, job, job.channels);
  }

  // ----- each message once -----

  ghost predicate TakenFrom(index: seq<Doc>, job: Job, vs: seq<Visit>) {
    forall i :: 0 <= i < |vs| ==> vs[i].hits <= ChannelHits(index, job, vs[i].channel)
  }

  /** No channel gives hits to two visits. */
  ghost predicate VisitedOnce(vs: seq<Visit>) {
    forall i, j :: 0 <= i < j < |vs| && vs[i].channel == vs[j].channel ==> vs[i].hits == [] || vs[j].hits == []
  }

  lemma HitChannel(index: seq<Doc>, job: Job, ch: string, h: Hit)
    requires h in ChannelHits(index, job, ch)
    ensures h.channelId == ch
  {
    SelectMeaning(index, Query(ch, job.range));
  }

  lemma {:induction false} VisitHitsMember(vs: seq<Visit>, h: Hit)
    ensures h in VisitHits(vs) <==> exists i :: 0 <= i < |vs| && h in vs[i].hits
  {
    if vs != [] {
      VisitHitsMember(vs[1..], h);
      if h in VisitHits(vs[1..]) {
        var i :| 0 <= i < |vs[1..]| && h in vs[1..][i].hits;
        assert h in vs[i + 1].hits;
      }
    }
  }

  lemma DistinctAppend<T>(a: seq<T>, b: seq<T>)
    ensures Distinct(a + b) <==> Distinct(a) && Distinct(b) && forall x :: x in a ==> x !in b
  {
    var c := a + b;
    forall i, j | Distinct(c) && 0 <= i < j < |a|
      ensures a[i] != a[j]
    {
      assert c[i] != c[j];
    }
    forall i, j | Distinct(c) && 0 <= i < j < |b|
      ensures b[i] != b[j]
    {
      assert c[|a| + i] != c[|a| + j];
    }
    forall x | x in a && x in b
      ensures !Distinct(c)
    {
      var i :| 0 <= i < |a| && a[i] == x;
      var j :| 0 <= j < |b| && b[j] == x;
      assert c[i] == c[|a| + j];
    }
    forall i, j | Distinct(a) && Distinct(b) && (forall x :: x in a ==> x !in b) && 0 <= i < j < |c|
      ensures c[i] != c[j]
    {
      if i < |a| <= j {
        assert c[i] in a && c[j] in b;
      }
    }
  }

  lemma DescendingDistinct(hits: seq<Hit>)
    requires Descending(hits)
    ensures Distinct(hits)
  {
    forall i, j | 0 <= i < j < |hits|
      ensures hits[i] != hits[j]
    {
      assert Below(hits[j].sort, hits[i].sort);
    }
  }

  /** The first visit shares hits with later ones exactly when one of them is of its channel and
      both took any, because both took the newest. */
  lemma SharedHits(index: seq<Doc>, job: Job, vs: seq<Visit>)
    requires TakenFrom(index, job, vs) && vs != []
    ensures (forall h :: h in vs[0].hits ==> h !in VisitHits(vs[1..]))
            <==> forall j :: 1 <= j < |vs| && vs[j].channel == vs[0].channel ==> vs[0].hits == [] || vs[j].hits == []
  {
    var v := vs[0];
    forall h | h in v.hits && h in VisitHits(vs[1..])
      ensures exists j :: 1 <= j < |vs| && vs[j].channel == v.channel && v.hits != [] && vs[j].hits != []
    {
      VisitHitsMember(vs[1..], h);
      var i :| 0 <= i < |vs[1..]| && h in vs[1..][i].hits;
      assert h in vs[i + 1].hits;
      HitChannel(index, job, v.channel, h);
      HitChannel(index, job, vs[i + 1].channel, h);
    }
    forall j | 1 <= j < |vs| && vs[j].channel == v.channel && v.hits != [] && vs[j].hits != []
      ensures v.hits[0] in v.hits && v.hits[0] in VisitHits(vs[1..])
    {
      assert vs[j].hits[0] == v.hits[0];
      VisitHitsMember(vs[1..], v.hits[0]);
      assert vs[1..][j - 1] == vs[j];
    }
  }

  lemma {:induction false} HitsOnceIff(index: seq<Doc>, job: Job, vs: seq<Visit>)
    requires TakenFrom(index, job, vs) && forall i :: 0 <= i < |vs| ==> Descending(vs[i].hits)
    ensures Distinct(VisitHits(vs)) <==> VisitedOnce(vs)
  {
    if vs != [] {
      assert forall i :: 0 <= i < |vs[1..]| ==> vs[1..][i] == vs[i + 1];
      HitsOnceIff(index, job, vs[1..]);
      DescendingDistinct(vs[0].hits);
      DistinctAppend(vs[0].hits, VisitHits(vs[1..]));
      SharedHits(index, job, vs);
      VisitedOnceFirst(vs);
    }
  }

  lemma VisitedOnceFirst(vs: seq<Visit>)
    requires vs != []
    ensures VisitedOnce(vs)
            <==> VisitedOnce(vs[1..])
                 && forall j :: 1 <= j < |vs| && vs[j].channel == vs[0].channel ==> vs[0].hits == [] || vs[j].hits == []
  {
    forall i, j | VisitedOnce(vs) && 0 <= i < j < |vs[1..]| && vs[1..][i].channel == vs[1..][j].channel
      ensures vs[1..][i].hits == [] || vs[1..][j].hits == []
    {
      assert vs[i + 1].channel == vs[j + 1].channel;
    }
    forall i, j | VisitedOnce(vs[1..]) && 1 <= i < j < |vs| && vs[i].channel == vs[j].channel
      ensures vs[i].hits == [] || vs[j].hits == []
    {
      assert vs[1..][i - 1].channel == vs[1..][j - 1].channel;
    }
  }

  /** The exact condition for every message to be taken once: no channel is asked for twice and
      gives hits both times. */
  lemma TakenOnceIff(cfg: Settings, index: seq<Doc>, job: Job)
    requires IsSnapshot(index)
    ensures Distinct(VisitHits(RunVisits(cfg, index, job))) <==> VisitedOnce(RunVisits(cfg, index, job))
  {
    VisitChannels(cfg, index, job, Sorting.SortStrings(job.channels), 0);
    RunVisitsDescending(cfg, index, job);
    HitsOnceIff(index, job, RunVisits(cfg, index, job));
  }

  /** What two visits of the channel take. */
  lemma TwoVisits(cfg: Settings, job: Job)
    requires cfg.perChannelCap >= 2 && cfg.maxTaskHits >= 4 && job.range == SMALL_RANGE
    ensures var v, w := VisitOf(cfg, SmallIndex(2, 1), job, "c", 0), VisitOf(cfg, SmallIndex(2, 1), job, "c", 2);
            && v.hits == w.hits == [SmallHit(2, 2), SmallHit(1, 1)] && v.cut == w.cut == Whole && v.total == 2
  {
    SmallHits(2, 1, job);
    var hits := [SmallHit(2, 2), SmallHit(1, 1)];
    assert hits[..2] == hits;
  }

  /** A request that names its channel twice gets the messages twice. */
  lemma AskedTwice(codec: Codec, limits: Limits)
    ensures var cfg, job := SmallSettings(codec, limits), SMALL_JOB.(channels := ["c", "c"]);
            VisitHits(RunVisits(cfg, SmallIndex(2, 1), job))
            == [SmallHit(2, 2), SmallHit(1, 1), SmallHit(2, 2), SmallHit(1, 1)]
  {
    var cfg, job, index := SmallSettings(codec, limits), SMALL_JOB.(channels := ["c", "c"]), SmallIndex(2, 1);
    hide SmallHit, SmallIndex, VisitOf;
    TwoVisits(cfg, job);
    Sorting.SortSorted(["c", "c"]);
    Sorting.LeqTotal("c", "c");
    Sorting.SortedIsUnique(Sorting.SortStrings(["c", "c"]), ["c", "c"]);
    var v, w := VisitOf(cfg, index, job, "c", 0), VisitOf(cfg, index, job, "c", 2);
    assert ["c", "c"][1..] == ["c"] && ["c"][1..] == [];
    assert Visits(cfg, index, job, ["c"], 2) == [w];
    assert Visits(cfg, index, job, ["c", "c"], 0) == [v] + [w];
    assert VisitHits([w]) == v.hits by {
      assert [w][1..] == [];
    }
    assert ([v] + [w])[1..] == [w];
  }

  // ----- what a client reads -----

  lemma TakenHit(cfg: Settings, index: seq<Doc>, job: Job, h: Hit)
    requires h in VisitHits(RunVisits(cfg, index, job))
    ensures h.channelId in job.channels && job.range.startTs <= h.timestamp <= job.range.endTs && Doc(h, false) in index
  {
    var vs, channels := RunVisits(cfg, index, job), Sorting.SortStrings(job.channels);
    VisitHitsMember(vs, h);
    var i :| 0 <= i < |vs| && h in vs[i].hits;
    VisitChannels(cfg, index, job, channels, 0);
    assert h in ChannelHits(index, job, channels[i]);
    SelectMeaning(index, Query(channels[i], job.range));
    assert channels[i] in multiset(channels);
  }

  /** End to end, line by line: what a client downloads holds one line for each exported hit, in
      order, with sequence number, sender, channel, time and text of that hit in their fields; and
      each is the hit of a document that is not virtual, of a requested channel, in the requested
      range. */
  lemma DownloadTells(cfg: Settings, index: seq<Doc>, job: Job, objects: map<string, Bytes>)
    requires Lossless(cfg.codec) && MarshalsJson(cfg.codec)
    requires Stored(cfg.codec, objects, RunPlan(cfg, index, job).parts, RunContents(cfg, index, job))
    ensures var got, rows := Download(cfg.codec, objects, RunPlan(cfg, index, job).parts),
                             Kept(cfg.codec, VisitHits(RunVisits(cfg, index, job)));
            && got.Some? && |got.value| == |rows|
            && forall i :: 0 <= i < |rows| ==>
                 && LineFrom(cfg.codec, got.value[i], rows[i])
                 && rows[i].channelId in job.channels && Doc(rows[i], false) in index
                 && job.range.startTs <= rows[i].timestamp <= job.range.endTs
  {
    hide Stored, RunPlan, RunContents, Download, RunVisits, LineFrom;
    var hits := VisitHits(RunVisits(cfg, index, job));
    DownloadIsExport(cfg, index, job, objects);
    KeptLines(cfg.codec, hits);
    LinesTell(cfg.codec, Kept(cfg.codec, hits));
    KeptMembers(cfg.codec, hits);
    forall i | 0 <= i < |Kept(cfg.codec, hits)|
      ensures Kept(cfg.codec, hits)[i] in hits
    {
      assert Kept(cfg.codec, hits)[i] in Kept(cfg.codec, hits);
    }
    forall h | h in hits {
      TakenHit(cfg, index, job, h);
    }
  }
}
