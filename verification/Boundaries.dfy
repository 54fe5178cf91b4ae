/** How many parts a run has, and exactly when a channel is split or the byte limit passed. */
module Boundaries {
  import opened Base
  import opened Types
  import opened Search
  import opened Payload
  import opened Rollover
  import opened Export
  import opened ExportProperties
  import Sorting

  /** The lines of each part. */
  function PartLines(cs: seq<Content>): (r: seq<seq<Line>>)
    ensures |r| == |cs| && forall k :: 0 <= k < |r| ==> r[k] == cs[k].lines
  {
    seq(|cs|, i requires 0 <= i < |cs| => cs[i].lines)
  }

  function VisitLines(cfg: Settings, v: Visit): seq<Line> {
    Lines(cfg.codec, v.hits)
  }

  lemma PartLinesOfVisit(cfg: Settings, v: Visit)
    ensures PartLines(VisitParts(cfg, v)) == Split(cfg.limits, VisitLines(cfg, v))
  {
  }

  lemma PartLinesPush(cfg: Settings, vs: seq<Visit>)
    requires vs != []
    ensures PartLines(Contents(cfg, vs))
         == PartLines(Contents(cfg, Front(vs))) + Split(cfg.limits, VisitLines(cfg, Last(vs)))
  {
    PartLinesOfVisit(cfg, Last(vs));
  }

  lemma {:induction false} PartLinesFlatten(cs: seq<Content>)
    ensures Flatten(PartLines(cs)) == LinesOf(cs)
  {
    if cs != [] {
      PartLinesFlatten(Front(cs));
      assert PartLines(cs) == PartLines(Front(cs)) + [Last(cs).lines];
      FlattenPush(PartLines(Front(cs)), Last(cs).lines);
    }
  }

  // ----- how many parts -----

  /** Visits that export anything. */
  function Busy(cfg: Settings, vs: seq<Visit>): nat {
    Sum(v => if VisitLines(cfg, v) == [] then 0 else 1, vs)
  }

  lemma RowFullAppend(lim: Limits, a: seq<seq<Line>>, b: seq<seq<Line>>)
    ensures RowFull(lim, a + b) == RowFull(lim, a) + RowFull(lim, b)
    ensures ByteFull(lim, a + b) == ByteFull(lim, a) + ByteFull(lim, b)
  {
    SumAppend((p: seq<Line>) => if |p| >= lim.maxRows then 1 else 0, a, b);
    SumAppend((p: seq<Line>) => if RawSize(p) >= lim.maxBytes then 1 else 0, a, b);
  }

  lemma BusyPush(cfg: Settings, vs: seq<Visit>)
    requires vs != []
    ensures Busy(cfg, vs) == Busy(cfg, Front(vs)) + (if VisitLines(cfg, Last(vs)) == [] then 0 else 1)
  {
    var f := (v: Visit) => if VisitLines(cfg, v) == [] then 0 else 1;
    FrontLast(vs);
    SumAppend(f, Front(vs), [Last(vs)]);
    SumSingle(f, Last(vs));
  }

  lemma VisitPartsBound(lim: Limits, lines: seq<Line>)
    ensures var parts := Split(lim, lines);
            |parts| <= (if lines == [] then 0 else 1) + RowFull(lim, parts) + ByteFull(lim, parts)
  {
    SplitIsGreedy(lim, lines);
    FullParts(lim, Split(lim, lines));
  }

  lemma {:induction false} FullPartsOfRun(cfg: Settings, vs: seq<Visit>)
    ensures var parts := PartLines(Contents(cfg, vs));
            |parts| <= Busy(cfg, vs) + RowFull(cfg.limits, parts) + ByteFull(cfg.limits, parts)
  {
    if vs != [] {
      var lines := VisitLines(cfg, Last(vs));
      FullPartsOfRun(cfg, Front(vs));
      PartLinesPush(cfg, vs);
      BusyPush(cfg, vs);
      VisitPartsBound(cfg.limits, lines);
      RowFullAppend(cfg.limits, PartLines(Contents(cfg, Front(vs))), Split(cfg.limits, lines));
    }
  }

  /** The number of parts of a run: one for each channel visit that exports anything, and beyond
      that only parts that are full by rows or by bytes. */
  lemma PartCount(cfg: Settings, index: seq<Doc>, job: Job)
    requires cfg.limits.maxRows > 0 && cfg.limits.maxBytes > 0
    ensures var plan, vs := RunPlan(cfg, index, job), RunVisits(cfg, index, job);
            |plan.parts| <= Busy(cfg, vs) + plan.count / cfg.limits.maxRows
                            + RawSize(Lines(cfg.codec, VisitHits(vs))) / cfg.limits.maxBytes
  {
    var vs, lim := RunVisits(cfg, index, job), cfg.limits;
    var parts := PartLines(Contents(cfg, vs));
    PlanWellFormed(cfg, index, job);
    PartsConserveLines(cfg, index, job);
    PartLinesFlatten(Contents(cfg, vs));
    FullPartsOfRun(cfg, vs);
    RowFullBound(lim, parts);
    ByteFullBound(lim, parts);
    DivBound(RowFull(lim, parts), lim.maxRows, |Flatten(parts)|);
    DivBound(ByteFull(lim, parts), lim.maxBytes, RawSize(Flatten(parts)));
  }

  // ----- one channel, several parts -----

  /** No channel has two parts. */
  ghost predicate ChannelsWhole(cs: seq<Content>) {
    forall k, l :: 0 <= k < l < |cs| ==> cs[k].channel != cs[l].channel
  }

  ghost predicate HasChannel(cs: seq<Content>, ch: string) {
    exists k :: 0 <= k < |cs| && cs[k].channel == ch
  }

  /** The lines of every visit fit into one part, and no channel is exported by two visits. */
  ghost predicate VisitsWhole(cfg: Settings, vs: seq<Visit>) {
    && (forall i :: 0 <= i < |vs| ==> FitsOnePart(cfg.limits, VisitLines(cfg, vs[i])))
    && (forall i, j :: 0 <= i < j < |vs| && vs[i].channel == vs[j].channel ==>
          VisitLines(cfg, vs[i]) == [] || VisitLines(cfg, vs[j]) == [])
  }

  ghost predicate Exports(cfg: Settings, vs: seq<Visit>, ch: string) {
    exists i :: 0 <= i < |vs| && vs[i].channel == ch && VisitLines(cfg, vs[i]) != []
  }

  lemma VisitPartsEmpty(cfg: Settings, v: Visit)
    ensures VisitParts(cfg, v) == [] <==> VisitLines(cfg, v) == []
    ensures forall k :: 0 <= k < |VisitParts(cfg, v)| ==> VisitParts(cfg, v)[k].channel == v.channel
  {
    SplitIsGreedy(cfg.limits, VisitLines(cfg, v));
  }

  lemma HasChannelAppend(a: seq<Content>, b: seq<Content>, ch: string)
    ensures HasChannel(a + b, ch) <==> HasChannel(a, ch) || HasChannel(b, ch)
  {
    if HasChannel(a, ch) {
      var k :| 0 <= k < |a| && a[k].channel == ch;
      assert (a + b)[k].channel == ch;
    }
    if HasChannel(b, ch) {
      var k :| 0 <= k < |b| && b[k].channel == ch;
      assert (a + b)[|a| + k].channel == ch;
    }
  }

  lemma ExportsPush(cfg: Settings, vs: seq<Visit>, ch: string)
    requires vs != []
    ensures Exports(cfg, vs, ch)
            <==> Exports(cfg, Front(vs), ch) || (Last(vs).channel == ch && VisitLines(cfg, Last(vs)) != [])
  {
    if Exports(cfg, Front(vs), ch) {
      var i :| 0 <= i < |Front(vs)| && Front(vs)[i].channel == ch && VisitLines(cfg, Front(vs)[i]) != [];
      assert vs[i].channel == ch;
    }
    if Last(vs).channel == ch && VisitLines(cfg, Last(vs)) != [] {
      assert vs[|vs| - 1].channel == ch;
    }
  }

  lemma VisitHasChannel(cfg: Settings, v: Visit, ch: string)
    ensures HasChannel(VisitParts(cfg, v), ch) <==> v.channel == ch && VisitLines(cfg, v) != []
  {
    VisitPartsEmpty(cfg, v);
    if VisitParts(cfg, v) != [] {
      assert VisitParts(cfg, v)[0].channel == v.channel;
    }
  }

  lemma {:induction false} ChannelsOfContents(cfg: Settings, vs: seq<Visit>, ch: string)
    ensures HasChannel(Contents(cfg, vs), ch) <==> Exports(cfg, vs, ch)
  {
    if vs != [] {
      ChannelsOfContents(cfg, Front(vs), ch);
      HasChannelAppend(Contents(cfg, Front(vs)), VisitParts(cfg, Last(vs)), ch);
      VisitHasChannel(cfg, Last(vs), ch);
      ExportsPush(cfg, vs, ch);
    }
  }

  /** Parts of one channel, put behind others. */
  lemma WholeAppend(a: seq<Content>, b: seq<Content>, ch: string)
    requires forall k :: 0 <= k < |b| ==> b[k].channel == ch
    ensures ChannelsWhole(a + b) <==> ChannelsWhole(a) && |b| <= 1 && (b == [] || !HasChannel(a, ch))
  {
    var c := a + b;
    assert forall k :: 0 <= k < |a| ==> c[k] == a[k];
    assert forall k :: 0 <= k < |b| ==> c[|a| + k] == b[k];
    if |b| > 1 {
      assert c[|a|].channel == c[|a| + 1].channel;
    }
    if b != [] && HasChannel(a, ch) {
      var k :| 0 <= k < |a| && a[k].channel == ch;
      assert c[k].channel == c[|a|].channel;
    }
  }

  lemma VisitsWholePush(cfg: Settings, vs: seq<Visit>)
    requires vs != []
    ensures var v := Last(vs);
            VisitsWhole(cfg, vs)
            <==> VisitsWhole(cfg, Front(vs)) && FitsOnePart(cfg.limits, VisitLines(cfg, v))
                 && (VisitLines(cfg, v) == [] || !Exports(cfg, Front(vs), v.channel))
  {
    hide VisitLines, FitsOnePart;
    var front, v := Front(vs), Last(vs);
    assert forall i :: 0 <= i < |front| ==> front[i] == vs[i];
    assert vs[|vs| - 1] == v;
    if VisitLines(cfg, v) != [] && Exports(cfg, front, v.channel) {
      var i :| 0 <= i < |front| && front[i].channel == v.channel && VisitLines(cfg, front[i]) != [];
      assert vs[i].channel == vs[|vs| - 1].channel;
    }
  }

  lemma {:induction false} ContentsWholeIff(cfg: Settings, vs: seq<Visit>)
    ensures ChannelsWhole(Contents(cfg, vs)) <==> VisitsWhole(cfg, vs)
  {
    if vs != [] {
      var v := Last(vs);
      ContentsWholeIff(cfg, Front(vs));
      VisitPartsEmpty(cfg, v);
      OnePartIff(cfg.limits, VisitLines(cfg, v));
      WholeAppend(Contents(cfg, Front(vs)), VisitParts(cfg, v), v.channel);
      ChannelsOfContents(cfg, Front(vs), v.channel);
      VisitsWholePush(cfg, vs);
    }
  }

  /** The exact condition for the promise that a channel never spans parts: every visit fits
      into one part, and no channel is exported twice. */
  lemma ChannelsWholeIff(cfg: Settings, index: seq<Doc>, job: Job)
    ensures ChannelsWhole(RunContents(cfg, index, job)) <==> VisitsWhole(cfg, RunVisits(cfg, index, job))
  {
    ContentsWholeIff(cfg, RunVisits(cfg, index, job));
  }

  // ----- the byte limit -----

  ghost predicate VisitsFit(cfg: Settings, vs: seq<Visit>) {
    forall i :: 0 <= i < |vs| ==> EveryLineFits(cfg.limits, VisitLines(cfg, vs[i]))
  }

  lemma VisitsFitPush(cfg: Settings, vs: seq<Visit>)
    requires vs != []
    ensures VisitsFit(cfg, vs)
            <==> VisitsFit(cfg, Front(vs)) && EveryLineFits(cfg.limits, VisitLines(cfg, Last(vs)))
  {
    hide EveryLineFits, VisitLines;
    assert forall i :: 0 <= i < |vs| - 1 ==> Front(vs)[i] == vs[i];
  }

  lemma {:induction false} ContentsWithinIff(cfg: Settings, vs: seq<Visit>)
    ensures WithinBytes(cfg.limits, PartLines(Contents(cfg, vs))) <==> VisitsFit(cfg, vs)
  {
    if vs != [] {
      var lines := VisitLines(cfg, Last(vs));
      ContentsWithinIff(cfg, Front(vs));
      PartLinesPush(cfg, vs);
      WithinBytesIff(cfg.limits, lines);
      VisitsFitPush(cfg, vs);
      hide WithinBytes, VisitsFit, EveryLineFits;
      WithinAppend(cfg.limits, PartLines(Contents(cfg, Front(vs))), Split(cfg.limits, lines));
    }
  }

  /** The exact condition for the promise that no part exceeds the byte limit: each line of each
      visit fits into the room the counter leaves for it. */
  lemma WithinLimitIff(cfg: Settings, index: seq<Doc>, job: Job)
    ensures WithinBytes(cfg.limits, PartLines(RunContents(cfg, index, job)))
            <==> VisitsFit(cfg, RunVisits(cfg, index, job))
  {
    ContentsWithinIff(cfg, RunVisits(cfg, index, job));
  }

  // ----- both promises are broken by small inputs, whatever the codec -----

  function SmallSettings(codec: Codec, limits: Limits): Settings {
    Settings(10, 10, 10, limits, "", codec)
  }

  /** A plain text message of channel c. */
  function SmallHit(id: int, messageSeq: int): Hit {
    Hit(messageSeq, id, 0, "", "c", 1, Some(map["type" := Int(TEXT)]), None, [id, 0])
  }

  /** Two messages of one channel, the one with the higher message id first. */
  function SmallIndex(seq2: int, seq1: int): seq<Doc> {
    [Doc(SmallHit(2, seq2), false), Doc(SmallHit(1, seq1), false)]
  }

  const SMALL_RANGE := TimeRange(1, 1)
  const SMALL_JOB: Job := Job("id", "me", "day", ["c"], SMALL_RANGE)

  lemma SmallHits(seq2: int, seq1: int, job: Job)
    requires job.range == SMALL_RANGE
    ensures IsSnapshot(SmallIndex(seq2, seq1))
    ensures ChannelHits(SmallIndex(seq2, seq1), job, "c") == [SmallHit(2, seq2), SmallHit(1, seq1)]
  {
    var q, index := Query("c", job.range), SmallIndex(seq2, seq1);
    assert index[1..] == [index[1]] && [index[1]][1..] == [];
    assert Select([index[1]], q) == [SmallHit(1, seq1)];
    assert Select(index, q) == [SmallHit(2, seq2)] + Select(index[1..], q);
  }

  lemma SmallVisits(cfg: Settings, seq2: int, seq1: int)
    requires cfg.perChannelCap >= 2 && cfg.maxTaskHits >= 2
    ensures var vs := RunVisits(cfg, SmallIndex(seq2, seq1), SMALL_JOB);
            |vs| == 1 && vs[0].channel == "c" && vs[0].hits == [SmallHit(2, seq2), SmallHit(1, seq1)]
  {
    var index, hits := SmallIndex(seq2, seq1), [SmallHit(2, seq2), SmallHit(1, seq1)];
    SmallHits(seq2, seq1, SMALL_JOB);
    assert Sorting.SortStrings(["c"]) == ["c"] by {
      assert ["c"][1..] == [];
    }
    assert hits[..2] == hits;
    var v := VisitOf(cfg, index, SMALL_JOB, "c", 0);
    assert v.hits == hits && v.cut == Whole;
    assert Visits(cfg, index, SMALL_JOB, ["c"], 0) == [v] by {
      assert ["c"][0] == "c";
      assert Visits(cfg, index, SMALL_JOB, ["c"][1..], v.total) == [];
    }
    assert SMALL_JOB.channels == ["c"];
  }

  lemma TwoLines(codec: Codec, a: Hit, b: Hit)
    requires LineSeq(codec, a) != [] && LineSeq(codec, b) != []
    ensures Lines(codec, [a, b]) == [LineSeq(codec, a)[0], LineSeq(codec, b)[0]]
  {
    assert Front([a, b]) == [a] && Front([a]) == [];
    assert Lines(codec, [a]) == [] + LineSeq(codec, a);
    assert LineSeq(codec, a) == [LineSeq(codec, a)[0]] && LineSeq(codec, b) == [LineSeq(codec, b)[0]];
  }

  /** One row per part: the channel of two messages that are both exported has two parts. */
  lemma ChannelSpansParts(codec: Codec, n: int, seq2: int, seq1: int)
    requires LineSeq(codec, SmallHit(2, seq2)) != [] && LineSeq(codec, SmallHit(1, seq1)) != []
    ensures !ChannelsWhole(RunContents(SmallSettings(codec, Limits(1, n)), SmallIndex(seq2, seq1), SMALL_JOB))
  {
    var cfg := SmallSettings(codec, Limits(1, n));
    var vs := RunVisits(cfg, SmallIndex(seq2, seq1), SMALL_JOB);
    SmallVisits(cfg, seq2, seq1);
    TwoLines(codec, SmallHit(2, seq2), SmallHit(1, seq1));
    ChannelsWholeIff(cfg, SmallIndex(seq2, seq1), SMALL_JOB);
    assert !FitsOnePart(cfg.limits, VisitLines(cfg, vs[0]));
  }

  lemma TooLong(lim: Limits, l2: Line, l1: Line)
    requires lim.maxRows >= 2 && l1 != [] && lim.maxBytes == RawSize([l2, l1]) - 1
    ensures !EveryLineFits(lim, [l2, l1])
  {
    var lines := [l2, l1];
    assert lines == [l2] + [l1];
    SumAppend(LineSize, [l2], [l1]);
    SumSingle(LineSize, l2);
    SumSingle(LineSize, l1);
    assert lines[..1] == [l2] && Front([l2]) == [];
    assert Counted(lim, lines[..1]) == Count(1, LineSize(l2));
    assert lines[1] == l1;
  }

  lemma JsonLine(codec: Codec, h: Hit)
    requires MarshalsJson(codec) && LineSeq(codec, h) != []
    ensures LineSeq(codec, h)[0] != []
  {
    LinesAreJson(codec, [h]);
    assert Lines(codec, [h]) == [] + LineSeq(codec, h);
  }

  /** A limit one byte short of two lines: they still go into one part, if more than one row may. */
  lemma PartPassesLimit(codec: Codec, maxRows: int, seq2: int, seq1: int)
    requires maxRows >= 2 && MarshalsJson(codec)
    requires LineSeq(codec, SmallHit(2, seq2)) != [] && LineSeq(codec, SmallHit(1, seq1)) != []
    ensures var maxBytes := RawSize(Lines(codec, [SmallHit(2, seq2), SmallHit(1, seq1)])) - 1;
            var cfg := SmallSettings(codec, Limits(maxRows, maxBytes));
            !WithinBytes(cfg.limits, PartLines(RunContents(cfg, SmallIndex(seq2, seq1), SMALL_JOB)))
  {
    hide LineSeq, Lines, RawSize, SmallHit, SmallIndex, RunVisits, RunContents, EveryLineFits, WithinBytes,
         PartLines, MarshalsJson;
    var h2, h1 := SmallHit(2, seq2), SmallHit(1, seq1);
    var lines := Lines(codec, [h2, h1]);
    var cfg := SmallSettings(codec, Limits(maxRows, RawSize(lines) - 1));
    TwoLines(codec, h2, h1);
    JsonLine(codec, h1);
    TooLong(cfg.limits, LineSeq(codec, h2)[0], LineSeq(codec, h1)[0]);
    SmallVisits(cfg, seq2, seq1);
    WithinLimitIff(cfg, SmallIndex(seq2, seq1), SMALL_JOB);
  }
}
