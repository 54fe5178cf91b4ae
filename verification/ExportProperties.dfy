/** What the specification of a run guarantees to the caller. */
module ExportProperties {
  import opened Base
  import opened Types
  import opened Search
  import opened Rollover
  import opened Export
  import Framing
  import Keys
  import Sorting

  // ----- nothing is dropped silently -----

  function VisitHits(vs: seq<Visit>): seq<Hit> {
    if vs == [] then [] else vs[0].hits + VisitHits(vs[1..])
  }

  function AllHits(index: seq<Doc>, job: Job, channels: seq<string>): seq<Hit> {
    if channels == [] then [] else ChannelHits(index, job, channels[0]) + AllHits(index, job, channels[1..])
  }

  lemma {:induction false} WarningsAppend(cfg: Settings, a: seq<Visit>, b: seq<Visit>)
    ensures Warnings(cfg, a + b) == Warnings(cfg, a) + Warnings(cfg, b)
  {
    if b == [] {
      assert a + b == a;
    } else {
      WarningsAppend(cfg, a, Front(b));
      assert Front(a + b) == a + Front(b) && Last(a + b) == Last(b);
      Regroup(Warnings(cfg, a), Warnings(cfg, Front(b)), WarningOf(cfg, Last(b)));
    }
  }

  lemma WarningsFirst(cfg: Settings, v: Visit, rest: seq<Visit>)
    ensures Warnings(cfg, [v] + rest) == WarningOf(cfg, v) + Warnings(cfg, rest)
  {
    WarningsAppend(cfg, [v], rest);
    assert Front([v]) == [] && Last([v]) == v;
    assert Warnings(cfg, [v]) == [] + WarningOf(cfg, v);
  }

  function RestOf(cfg: Settings, index: seq<Doc>, job: Job, channels: seq<string>, seen: int): seq<Visit>
    requires channels != []
  {
    var v := VisitOf(cfg, index, job, channels[0], seen);
    if v.cut == ByTotalCap then [] else Visits(cfg, index, job, channels[1..], v.total)
  }

  lemma VisitsFirst(cfg: Settings, index: seq<Doc>, job: Job, channels: seq<string>, seen: int)
    requires channels != []
    ensures var v := VisitOf(cfg, index, job, channels[0], seen);
            var rest := RestOf(cfg, index, job, channels, seen);
            var vs := Visits(cfg, index, job, channels, seen);
            && vs == [v] + rest
            && VisitHits(vs) == v.hits + VisitHits(rest)
            && Warnings(cfg, vs) == WarningOf(cfg, v) + Warnings(cfg, rest)
            && (WarningOf(cfg, v) == [] <==> v.hits == ChannelHits(index, job, channels[0]))
  {
    var v := VisitOf(cfg, index, job, channels[0], seen);
    var rest := RestOf(cfg, index, job, channels, seen);
    CutIffDropped(cfg, |ChannelHits(index, job, channels[0])|, seen);
    assert ([v] + rest)[1..] == rest;
    WarningsFirst(cfg, v, rest);
  }

  lemma {:induction false} HitsNotMore(cfg: Settings, index: seq<Doc>, job: Job, channels: seq<string>, seen: int)
    ensures var vs := Visits(cfg, index, job, channels, seen);
            && |VisitHits(vs)| <= |AllHits(index, job, channels)|
            && (Warnings(cfg, vs) != [] ==> |VisitHits(vs)| < |AllHits(index, job, channels)|)
  {
    if channels != [] {
      VisitsFirst(cfg, index, job, channels, seen);
      HitsNotMore(cfg, index, job, channels[1..], VisitOf(cfg, index, job, channels[0], seen).total);
    }
  }

  lemma {:induction false} WholeWithoutWarning(cfg: Settings, index: seq<Doc>, job: Job, channels: seq<string>,
                                               seen: int)
    requires Warnings(cfg, Visits(cfg, index, job, channels, seen)) == []
    ensures VisitHits(Visits(cfg, index, job, channels, seen)) == AllHits(index, job, channels)
  {
    if channels != [] {
      VisitsFirst(cfg, index, job, channels, seen);
      WholeWithoutWarning(cfg, index, job, channels[1..], VisitOf(cfg, index, job, channels[0], seen).total);
    }
  }

  /** A run is `completed` exactly when the caps dropped no hit, and `partial` otherwise. */
  lemma CompletedIffNothingDropped(cfg: Settings, index: seq<Doc>, job: Job)
    ensures Success(RunPlan(cfg, index, job)).status == Completed
            <==> VisitHits(RunVisits(cfg, index, job)) == AllHits(index, job, Sorting.SortStrings(job.channels))
    ensures Success(RunPlan(cfg, index, job)).status != Completed
            ==> Success(RunPlan(cfg, index, job)).status == Partial
  {
    var channels := Sorting.SortStrings(job.channels);
    HitsNotMore(cfg, index, job, channels, 0);
    if RunPlan(cfg, index, job).warnings == [] {
      WholeWithoutWarning(cfg, index, job, channels, 0);
    }
  }

  /** total_truncated occurs at most once, on the last channel visited, and ends the run;
      without it every requested channel is visited. */
  lemma {:induction false} TotalCutEndsRun(cfg: Settings, index: seq<Doc>, job: Job, channels: seq<string>, seen: int)
    ensures var vs := Visits(cfg, index, job, channels, seen);
            && |vs| <= |channels|
            && (forall k :: 0 <= k < |vs| - 1 ==> vs[k].cut != ByTotalCap)
            && (|vs| < |channels| ==> vs != [] && Last(vs).cut == ByTotalCap)
  {
    if channels != [] {
      TotalCutEndsRun(cfg, index, job, channels[1..], VisitOf(cfg, index, job, channels[0], seen).total);
    }
  }

  /** What a warning may say: a per-channel one reports the cap itself as the number of hits
      seen, because reading stops there, and the total one reports the task limit. */
  predicate WarningInRange(cfg: Settings, w: Warning) {
    match w.code
    case PerChannelTruncated => w.limit == cfg.perChannelCap && w.actualSeen == Max(0, cfg.perChannelCap)
    case TotalTruncated => w.limit == cfg.maxTaskHits && w.actualSeen == Max(0, cfg.maxTaskHits)
  }

  lemma {:induction false} WarningNumbers(cfg: Settings, index: seq<Doc>, job: Job, channels: seq<string>, seen: int)
    requires seen == 0 || 0 < seen <= cfg.maxTaskHits
    ensures forall w :: w in Warnings(cfg, Visits(cfg, index, job, channels, seen)) ==> WarningInRange(cfg, w)
  {
    if channels != [] {
      var v := VisitOf(cfg, index, job, channels[0], seen);
      VisitsFirst(cfg, index, job, channels, seen);
      assert forall w :: w in WarningOf(cfg, v) ==> WarningInRange(cfg, w);
      if v.cut != ByTotalCap {
        WarningNumbers(cfg, index, job, channels[1..], v.total);
      }
    }
  }

  /** Over a whole run: the last visit decides, and every warning carries its cap. */
  lemma TruncationExact(cfg: Settings, index: seq<Doc>, job: Job)
    ensures var vs := RunVisits(cfg, index, job);
            && (forall k :: 0 <= k < |vs| - 1 ==> vs[k].cut != ByTotalCap)
            && (|vs| < |job.channels| ==> vs != [] && Last(vs).cut == ByTotalCap)
            && (forall w :: w in RunPlan(cfg, index, job).warnings ==> WarningInRange(cfg, w))
  {
    var channels := Sorting.SortStrings(job.channels);
    assert |multiset(channels)| == |channels| && |multiset(job.channels)| == |job.channels|;
    TotalCutEndsRun(cfg, index, job, channels, 0);
    WarningNumbers(cfg, index, job, channels, 0);
  }

  // ----- admission -----

  /** The sum that admission compares with the task limit; duplicates count twice. */
  function CountSum(index: seq<Doc>, job: Job, channels: seq<string>): nat {
    if channels == [] then 0 else |ChannelHits(index, job, channels[0])| + CountSum(index, job, channels[1..])
  }

  function CountOf(index: seq<Doc>, job: Job, ch: string): nat {
    |ChannelHits(index, job, ch)|
  }

  lemma {:induction false} CountSumInsert(index: seq<Doc>, job: Job, x: string, s: seq<string>)
    ensures CountSum(index, job, Sorting.Insert(x, s)) == CountOf(index, job, x) + CountSum(index, job, s)
  {
    if s == [] {
      assert [x][1..] == [];
    } else if Sorting.Leq(x, s[0]) {
      assert ([x] + s)[1..] == s;
    } else {
      CountSumInsert(index, job, x, s[1..]);
      assert ([s[0]] + Sorting.Insert(x, s[1..]))[1..] == Sorting.Insert(x, s[1..]);
    }
  }

  lemma {:induction false} CountSumSorted(index: seq<Doc>, job: Job, s: seq<string>)
    ensures CountSum(index, job, Sorting.SortStrings(s)) == CountSum(index, job, s)
  {
    if s != [] {
      CountSumSorted(index, job, s[1..]);
      CountSumInsert(index, job, s[0], Sorting.SortStrings(s[1..]));
    }
  }

  ghost predicate WithinCap(cfg: Settings, index: seq<Doc>, job: Job, channels: seq<string>) {
    forall ch :: ch in channels ==> CountOf(index, job, ch) <= Max(0, cfg.perChannelCap)
  }

  lemma WithinCapFirst(cfg: Settings, index: seq<Doc>, job: Job, channels: seq<string>)
    requires channels != []
    ensures WithinCap(cfg, index, job, channels)
            <==> CountOf(index, job, channels[0]) <= Max(0, cfg.perChannelCap)
                 && WithinCap(cfg, index, job, channels[1..])
  {
    assert forall ch :: ch in channels <==> ch == channels[0] || ch in channels[1..];
  }

  lemma {:induction false} NoTotalCut(cfg: Settings, index: seq<Doc>, job: Job, channels: seq<string>, seen: nat)
    requires seen + CountSum(index, job, channels) <= cfg.maxTaskHits
    ensures var vs := Visits(cfg, index, job, channels, seen);
            && (forall w :: w in Warnings(cfg, vs) ==> w.code == PerChannelTruncated)
            && (Warnings(cfg, vs) == [] <==> WithinCap(cfg, index, job, channels))
  {
    if channels != [] {
      var v := VisitOf(cfg, index, job, channels[0], seen);
      var rest := Visits(cfg, index, job, channels[1..], v.total);
      assert v.cut != ByTotalCap;
      NoTotalCut(cfg, index, job, channels[1..], v.total);
      WarningsFirst(cfg, v, rest);
      WithinCapFirst(cfg, index, job, channels);
    }
  }

  /** Behind admission the total cap is dead: if the snapshot holds just the counts that
      were summed and accepted, the run never reports total_truncated, and it completes
      exactly when every requested channel is within the per-channel cap. */
  lemma AdmissionMakesTotalCapDead(cfg: Settings, index: seq<Doc>, job: Job)
    requires CountSum(index, job, job.channels) <= cfg.maxTaskHits
    ensures forall w :: w in RunPlan(cfg, index, job).warnings ==> w.code == PerChannelTruncated
    ensures Success(RunPlan(cfg, index, job)).status == Completed
            <==> WithinCap(cfg, index, job, job.channels)
  {
    var channels := Sorting.SortStrings(job.channels);
    CountSumSorted(index, job, job.channels);
    NoTotalCut(cfg, index, job, channels, 0);
    assert forall ch :: ch in channels <==> ch in multiset(channels);
    assert forall ch :: ch in job.channels <==> ch in multiset(job.channels);
  }

  // ----- order -----

  /** The order of channels in the request changes neither parts, counts nor warnings. */
  lemma RequestOrderIrrelevant(cfg: Settings, index: seq<Doc>, a: Job, b: Job)
    requires multiset(a.channels) == multiset(b.channels)
    requires a.(channels := b.channels) == b
    ensures RunContents(cfg, index, a) == RunContents(cfg, index, b)
    ensures RunPlan(cfg, index, a) == RunPlan(cfg, index, b)
  {
    Sorting.SortIgnoresOrder(a.channels, b.channels);
    SameVisits(cfg, index, a, b, Sorting.SortStrings(a.channels), 0);
    var cs := RunContents(cfg, index, a);
    assert forall k :: 0 <= k < |cs| ==> MetaOf(cfg, a, k, cs[k]) == MetaOf(cfg, b, k, cs[k]);
    assert Metas(cfg, a, cs) == Metas(cfg, b, cs);
  }

  lemma {:induction false} SameVisits(cfg: Settings, index: seq<Doc>, a: Job, b: Job, channels: seq<string>, seen: int)
    requires a.(channels := b.channels) == b
    ensures Visits(cfg, index, a, channels, seen) == Visits(cfg, index, b, channels, seen)
  {
    if channels != [] {
      var v := VisitOf(cfg, index, a, channels[0], seen);
      SameVisits(cfg, index, a, b, channels[1..], v.total);
    }
  }

  lemma {:induction false} VisitChannels(cfg: Settings, index: seq<Doc>, job: Job, channels: seq<string>, seen: int)
    ensures var vs := Visits(cfg, index, job, channels, seen);
            && |vs| <= |channels|
            && forall k :: 0 <= k < |vs| ==>
                 && vs[k].channel == channels[k]
                 && vs[k].hits <= ChannelHits(index, job, channels[k])
  {
    if channels != [] {
      VisitChannels(cfg, index, job, channels[1..], VisitOf(cfg, index, job, channels[0], seen).total);
    }
  }

  /** The number of hits whose lines make up the first p lines. */
  function Position(codec: Codec, hits: seq<Hit>, p: nat): (n: nat)
    requires p <= |Lines(codec, hits)|
    ensures n <= |hits|
  {
    if hits == [] then 0
    else if p <= |Lines(codec, Front(hits))| then Position(codec, Front(hits), p)
    else |hits|
  }

  lemma {:induction false} PositionMeaning(codec: Codec, hits: seq<Hit>, p: nat)
    requires p <= |Lines(codec, hits)|
    ensures Lines(codec, hits[..Position(codec, hits, p)]) == Lines(codec, hits)[..p]
  {
    if hits != [] {
      var front := Lines(codec, Front(hits));
      var n := Position(codec, hits, p);
      if p <= |front| {
        PositionMeaning(codec, Front(hits), p);
        assert hits[..n] == Front(hits)[..n];
      } else {
        assert hits[..n] == hits && p == |front| + 1;
      }
    }
  }

  lemma {:induction false} PositionMonotone(codec: Codec, hits: seq<Hit>, p: nat, q: nat)
    requires p <= q <= |Lines(codec, hits)|
    ensures Position(codec, hits, p) <= Position(codec, hits, q)
  {
    if hits != [] && q <= |Lines(codec, Front(hits))| {
      PositionMonotone(codec, Front(hits), p, q);
    }
  }

  /** Consecutive lines are the lines of consecutive hits. */
  lemma LinesSlice(codec: Codec, hits: seq<Hit>, p: nat, q: nat) returns (a: nat, b: nat)
    requires p <= q <= |Lines(codec, hits)|
    ensures a <= b <= |hits|
    ensures Lines(codec, hits[a..b]) == Lines(codec, hits)[p..q]
  {
    a, b := Position(codec, hits, p), Position(codec, hits, q);
    PositionMeaning(codec, hits, p);
    PositionMeaning(codec, hits, q);
    PositionMonotone(codec, hits, p, q);
    LinesBetween(codec, hits, a, b);
    DropFront(Lines(codec, hits), p, q, Lines(codec, hits[a..b]));
  }

  lemma LinesBetween(codec: Codec, hits: seq<Hit>, a: nat, b: nat)
    requires a <= b <= |hits|
    ensures Lines(codec, hits[..b]) == Lines(codec, hits[..a]) + Lines(codec, hits[a..b])
  {
    LinesAppend(codec, hits[..a], hits[a..b]);
    assert hits[..a] + hits[a..b] == hits[..b];
  }

  lemma DropFront<T>(s: seq<T>, p: nat, q: nat, mid: seq<T>)
    requires p <= q <= |s| && s[..q] == s[..p] + mid
    ensures mid == s[p..q]
  {
    assert s[..q][p..] == s[p..q];
    assert (s[..p] + mid)[p..] == mid;
  }

  lemma {:induction false} FlattenSlice<T>(parts: seq<seq<T>>, k: nat) returns (p: nat)
    requires k < |parts|
    ensures p + |parts[k]| <= |Flatten(parts)|
    ensures Flatten(parts)[p..p + |parts[k]|] == parts[k]
  {
    if k == 0 {
      p := 0;
    } else {
      var q := FlattenSlice(parts[1..], k - 1);
      p := |parts[0]| + q;
      assert Flatten(parts)[|parts[0]|..] == Flatten(parts[1..]);
    }
  }

  /** A part holds the lines of consecutive hits of its channel, strictly descending by
      (messageId, subSeq), all of them matching the request. */
  ghost predicate HoldsRunOfChannel(cfg: Settings, index: seq<Doc>, job: Job, c: Content) {
    exists hits: seq<Hit> ::
      && Descending(hits)
      && c.lines == Lines(cfg.codec, hits)
      && (exists a: nat, b: nat :: a <= b <= |ChannelHits(index, job, c.channel)|
            && hits == ChannelHits(index, job, c.channel)[a..b])
  }

  lemma DescendingSlice(hits: seq<Hit>, a: nat, b: nat)
    requires Descending(hits) && a <= b <= |hits|
    ensures Descending(hits[a..b])
  {
    var s := hits[a..b];
    forall i, j | 0 <= i < j < |s|
      ensures Below(s[j].sort, s[i].sort)
    {
      BelowLater(hits, a + i, a + j);
    }
    forall i | 0 <= i < |s|
      ensures s[i].sort == CursorOf(s[i])
    {
      assert s[i] == hits[a + i];
    }
  }

  lemma RunOfChannel(cfg: Settings, index: seq<Doc>, job: Job, ch: string, a: nat, b: nat)
    requires IsSnapshot(index) && a <= b <= |ChannelHits(index, job, ch)|
    ensures HoldsRunOfChannel(cfg, index, job, Content(ch, Lines(cfg.codec, ChannelHits(index, job, ch)[a..b])))
  {
    SelectDescending(index, Query(ch, job.range));
    DescendingSlice(ChannelHits(index, job, ch), a, b);
  }

  lemma PartOfVisit(cfg: Settings, index: seq<Doc>, job: Job, v: Visit, k: nat)
    requires IsSnapshot(index) && v.hits <= ChannelHits(index, job, v.channel)
    requires k < |VisitParts(cfg, v)|
    ensures HoldsRunOfChannel(cfg, index, job, VisitParts(cfg, v)[k])
    ensures VisitParts(cfg, v)[k].lines != []
  {
    var a, b := PartSlice(cfg, v, k);
    assert v.hits[a..b] == ChannelHits(index, job, v.channel)[a..b];
    RunOfChannel(cfg, index, job, v.channel, a, b);
  }

  lemma PartSlice(cfg: Settings, v: Visit, k: nat) returns (a: nat, b: nat)
    requires k < |VisitParts(cfg, v)|
    ensures a <= b <= |v.hits|
    ensures VisitParts(cfg, v)[k] == Content(v.channel, Lines(cfg.codec, v.hits[a..b]))
    ensures VisitParts(cfg, v)[k].lines != []
  {
    var lines := Lines(cfg.codec, v.hits);
    var parts := Split(cfg.limits, lines);
    SplitIsGreedy(cfg.limits, lines);
    var p := FlattenSlice(parts, k);
    a, b := LinesSlice(cfg.codec, v.hits, p, p + |parts[k]|);
  }

  ghost predicate ChannelsSorted(cs: seq<Content>) {
    forall k, l :: 0 <= k < l < |cs| ==> Sorting.Leq(cs[k].channel, cs[l].channel)
  }

  lemma {:induction false} ContentsInOrder(cfg: Settings, index: seq<Doc>, job: Job, vs: seq<Visit>)
    requires IsSnapshot(index)
    requires forall i :: 0 <= i < |vs| ==> vs[i].hits <= ChannelHits(index, job, vs[i].channel)
    requires forall i, j :: 0 <= i < j < |vs| ==> Sorting.Leq(vs[i].channel, vs[j].channel)
    ensures ChannelsSorted(Contents(cfg, vs))
    ensures forall c :: c in Contents(cfg, vs) ==>
              HoldsRunOfChannel(cfg, index, job, c) && c.lines != []
              && exists i :: 0 <= i < |vs| && vs[i].channel == c.channel
  {
    if vs != [] {
      var cs, v := Contents(cfg, Front(vs)), Last(vs);
      var more := VisitParts(cfg, v);
      ContentsInOrder(cfg, index, job, Front(vs));
      Sorting.LeqTotal(v.channel, v.channel);
      forall k | 0 <= k < |more|
        ensures HoldsRunOfChannel(cfg, index, job, more[k]) && more[k].lines != []
      {
        PartOfVisit(cfg, index, job, v, k);
      }
      forall k, l | 0 <= k < l < |cs + more|
        ensures Sorting.Leq((cs + more)[k].channel, (cs + more)[l].channel)
      {
        if k < |cs| {
          assert cs[k] in cs;
        }
      }
      forall c | c in cs + more
        ensures exists i :: 0 <= i < |vs| && vs[i].channel == c.channel
      {
        if c in more {
          assert vs[|vs| - 1].channel == c.channel;
        } else {
          var i :| 0 <= i < |Front(vs)| && Front(vs)[i].channel == c.channel;
          assert vs[i].channel == c.channel;
        }
      }
    }
  }

  /** Parts come in non-decreasing channel order, none is empty or mixes channels, and the
      rows of each are consecutive hits of its channel, newest first by (messageId, subSeq). */
  lemma PartsInOrder(cfg: Settings, index: seq<Doc>, job: Job)
    requires IsSnapshot(index)
    ensures ChannelsSorted(RunContents(cfg, index, job))
    ensures forall c :: c in RunContents(cfg, index, job) ==>
              HoldsRunOfChannel(cfg, index, job, c) && c.lines != [] && c.channel in job.channels
  {
    var channels := Sorting.SortStrings(job.channels);
    var vs := RunVisits(cfg, index, job);
    Sorting.SortSorted(job.channels);
    VisitChannels(cfg, index, job, channels, 0);
    ContentsInOrder(cfg, index, job, vs);
    forall c | c in RunContents(cfg, index, job)
      ensures c.channel in job.channels
    {
      var i :| 0 <= i < |vs| && vs[i].channel == c.channel;
      assert channels[i] in multiset(channels);
    }
  }

  // ----- conservation of lines -----

  function LinesOf(cs: seq<Content>): seq<Line> {
    if cs == [] then [] else LinesOf(Front(cs)) + Last(cs).lines
  }

  lemma {:induction false} LinesOfAppend(a: seq<Content>, b: seq<Content>)
    ensures LinesOf(a + b) == LinesOf(a) + LinesOf(b)
  {
    if b == [] {
      assert a + b == a;
    } else {
      LinesOfAppend(a, Front(b));
      assert Front(a + b) == a + Front(b) && Last(a + b) == Last(b);
      Regroup(LinesOf(a), LinesOf(Front(b)), Last(b).lines);
    }
  }

  lemma {:induction false} LinesOfTag(ch: string, parts: seq<seq<Line>>)
    ensures LinesOf(Tag(ch, parts)) == Flatten(parts)
  {
    if parts != [] {
      LinesOfTag(ch, Front(parts));
      assert Front(Tag(ch, parts)) == Tag(ch, Front(parts));
      assert parts == Front(parts) + [Last(parts)];
      FlattenPush(Front(parts), Last(parts));
    }
  }

  lemma {:induction false} VisitHitsPush(vs: seq<Visit>, v: Visit)
    ensures VisitHits(vs + [v]) == VisitHits(vs) + v.hits
  {
    if vs == [] {
      assert [v][1..] == [];
    } else {
      VisitHitsPush(vs[1..], v);
      assert (vs + [v])[0] == vs[0] && (vs + [v])[1..] == vs[1..] + [v];
      Regroup(vs[0].hits, VisitHits(vs[1..]), v.hits);
    }
  }

  lemma VisitPartsLines(cfg: Settings, v: Visit)
    ensures LinesOf(VisitParts(cfg, v)) == Lines(cfg.codec, v.hits)
  {
    LinesOfTag(v.channel, Split(cfg.limits, Lines(cfg.codec, v.hits)));
    SplitIsGreedy(cfg.limits, Lines(cfg.codec, v.hits));
  }

  lemma ContentsLinesStep(cfg: Settings, front: seq<Visit>, v: Visit)
    requires LinesOf(Contents(cfg, front)) == Lines(cfg.codec, VisitHits(front))
    ensures LinesOf(Contents(cfg, front) + VisitParts(cfg, v)) == Lines(cfg.codec, VisitHits(front + [v]))
  {
    LinesOfAppend(Contents(cfg, front), VisitParts(cfg, v));
    VisitPartsLines(cfg, v);
    VisitHitsPush(front, v);
    LinesAppend(cfg.codec, VisitHits(front), v.hits);
  }

  lemma {:induction false} ContentsLines(cfg: Settings, vs: seq<Visit>)
    ensures LinesOf(Contents(cfg, vs)) == Lines(cfg.codec, VisitHits(vs))
  {
    if vs != [] {
      var front, v := Front(vs), Last(vs);
      ContentsLines(cfg, front);
      ContentsLinesStep(cfg, front, v);
      FrontLast(vs);
    }
  }

  /** All parts together are the lines of the hits taken: nothing lost, repeated or reordered. */
  lemma PartsConserveLines(cfg: Settings, index: seq<Doc>, job: Job)
    ensures LinesOf(RunContents(cfg, index, job)) == Lines(cfg.codec, VisitHits(RunVisits(cfg, index, job)))
  {
    ContentsLines(cfg, RunVisits(cfg, index, job));
  }

  lemma MetasFront(cfg: Settings, job: Job, cs: seq<Content>)
    requires cs != []
    ensures Metas(cfg, job, cs) == Metas(cfg, job, Front(cs)) + [MetaOf(cfg, job, |cs| - 1, Last(cs))]
  {
  }

  lemma {:induction false} MetasTotal(cfg: Settings, job: Job, cs: seq<Content>)
    ensures TotalMessages(Metas(cfg, job, cs)) == |LinesOf(cs)|
  {
    if cs != [] {
      MetasTotal(cfg, job, Front(cs));
      MetasFront(cfg, job, cs);
      var last := MetaOf(cfg, job, |cs| - 1, Last(cs));
      SumAppend(MessageCount, Metas(cfg, job, Front(cs)), [last]);
      SumSingle(MessageCount, last);
    }
  }

  /** A plan is numbered without gaps and its count is the number of exported lines. */
  lemma PlanWellFormed(cfg: Settings, index: seq<Doc>, job: Job)
    ensures var p := RunPlan(cfg, index, job);
            && Dense(p.parts)
            && (forall k :: 0 <= k < |p.parts| ==> p.parts[k].taskId == job.taskId)
            && p.count == TotalMessages(p.parts) == |Lines(cfg.codec, VisitHits(RunVisits(cfg, index, job)))|
  {
    MetasTotal(cfg, job, RunContents(cfg, index, job));
    PartsConserveLines(cfg, index, job);
  }

  // ----- downloading -----

  ghost predicate Lossless(codec: Codec) {
    forall b: Bytes :: codec.gunzip(codec.gzip(b)) == Some(b)
  }

  ghost predicate MarshalsJson(codec: Codec) {
    forall o: OutLine :: codec.marshal(o).Some? ==> Framing.IsJsonLine(codec.marshal(o).value)
  }

  /** The objects of the parts are in the bucket. */
  ghost predicate Stored(codec: Codec, objects: map<string, Bytes>, parts: seq<Part>, cs: seq<Content>) {
    && |parts| == |cs|
    && forall k :: 0 <= k < |parts| ==> parts[k].s3Key in objects && objects[parts[k].s3Key] == ObjectOf(codec, cs[k])
  }

  /** The metadata of a part describe the object that is stored for it, and name its channel. */
  lemma PartsDescribeObjects(cfg: Settings, index: seq<Doc>, job: Job, objects: map<string, Bytes>)
    requires Stored(cfg.codec, objects, RunPlan(cfg, index, job).parts, RunContents(cfg, index, job))
    ensures var parts, cs := RunPlan(cfg, index, job).parts, RunContents(cfg, index, job);
            forall k :: 0 <= k < |parts| ==>
              && parts[k].s3Key == Keys.ObjectKey(cfg.keyPrefix, job.day, job.caller, job.taskId, k)
              && parts[k].s3Key in objects
              && var data := objects[parts[k].s3Key];
              && parts[k].sizeBytes == |data| && parts[k].sha256 == cfg.codec.sha256(data)
              && parts[k].channelIds == [cs[k].channel]
              && (Lossless(cfg.codec) && MarshalsJson(cfg.codec) ==>
                    cfg.codec.gunzip(data).Some?
                    && parts[k].messageCount == |Framing.Pieces(cfg.codec.gunzip(data).value)|)
  {
    var parts, cs := RunPlan(cfg, index, job).parts, RunContents(cfg, index, job);
    PartsConserveLines(cfg, index, job);
    forall k | 0 <= k < |parts| && Lossless(cfg.codec) && MarshalsJson(cfg.codec)
      ensures Framing.Pieces(Framing.Raw(cs[k].lines)) == cs[k].lines
    {
      LinesAreJson(cfg.codec, VisitHits(RunVisits(cfg, index, job)));
      LinesOfMembers(cs, k);
      Framing.PiecesOfRaw(cs[k].lines);
    }
  }

  /** A client: fetch each part, decompress, split into lines, concatenate. */
  function Download(codec: Codec, objects: map<string, Bytes>, parts: seq<Part>): Option<seq<Line>> {
    if parts == [] then Some([])
    else
      var p := Last(parts);
      var before := Download(codec, objects, Front(parts));
      if before.None? || p.s3Key !in objects then None
      else match codec.gunzip(objects[p.s3Key])
        case None => None
        case Some(raw) => Some(before.value + Framing.Pieces(raw))
  }

  lemma {:induction false} LinesAreJson(codec: Codec, hits: seq<Hit>)
    requires MarshalsJson(codec)
    ensures forall l :: l in Lines(codec, hits) ==> Framing.IsJsonLine(l)
  {
    if hits != [] {
      LinesAreJson(codec, Front(hits));
    }
  }

  lemma {:induction false} LinesOfMembers(cs: seq<Content>, k: nat)
    requires k < |cs|
    ensures forall l :: l in cs[k].lines ==> l in LinesOf(cs)
  {
    if k < |cs| - 1 {
      LinesOfMembers(Front(cs), k);
    }
  }

  lemma {:induction false} DownloadLines(codec: Codec, objects: map<string, Bytes>, parts: seq<Part>, cs: seq<Content>)
    requires Lossless(codec) && Stored(codec, objects, parts, cs)
    requires forall l :: l in LinesOf(cs) ==> Framing.IsJsonLine(l)
    ensures Download(codec, objects, parts) == Some(LinesOf(cs))
  {
    if parts != [] {
      LinesOfMembers(cs, |cs| - 1);
      DownloadLines(codec, objects, Front(parts), Front(cs));
      Framing.PiecesOfRaw(Last(cs).lines);
    }
  }

  /** End to end: a client that downloads the parts of a plan reads exactly the lines of the
      capped, filtered prefixes of the sorted channels. */
  lemma DownloadIsExport(cfg: Settings, index: seq<Doc>, job: Job, objects: map<string, Bytes>)
    requires Lossless(cfg.codec) && MarshalsJson(cfg.codec)
    requires Stored(cfg.codec, objects, RunPlan(cfg, index, job).parts, RunContents(cfg, index, job))
    ensures Download(cfg.codec, objects, RunPlan(cfg, index, job).parts)
         == Some(Lines(cfg.codec, VisitHits(RunVisits(cfg, index, job))))
  {
    PartsConserveLines(cfg, index, job);
    LinesAreJson(cfg.codec, VisitHits(RunVisits(cfg, index, job)));
    DownloadLines(cfg.codec, objects, RunPlan(cfg, index, job).parts, RunContents(cfg, index, job));
  }
}
