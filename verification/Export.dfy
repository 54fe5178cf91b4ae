/** What an export run has to deliver, in a few lines: sort the channels, take a capped prefix
    of the hits of each, keep the lines of those, cut them into parts. The paging loops of
    Executor.dfy are proved against these functions. */
module Export {
  import opened Base
  import opened Types
  import opened Payload
  import opened Search
  import opened Rollover
  import Framing
  import Keys
  import Sorting

  /** The five fields of a line. */
  datatype OutLine = OutLine(messageSeq: int, fromUid: string, channelId: string, timestamp: int, payload: string)

  /** Foreign code: JSON marshalling (which may refuse), gzip and its inverse, and the digest. */
  datatype Codec = Codec(marshal: OutLine -> Option<Line>, gzip: Bytes -> Bytes,
                         gunzip: Bytes -> Option<Bytes>, sha256: Bytes -> string)

  datatype Settings = Settings(pageSize: int, maxTaskHits: int, perChannelCap: int, limits: Limits,
                               keyPrefix: string, codec: Codec)

  datatype Job = Job(taskId: TaskId, caller: string, day: string, channels: seq<string>, range: TimeRange)

  datatype InputMessage = InputMessage(messageSeq: int, from: string, channelId: string, timestamp: int,
                                       payload: Option<Object>, payloadRaw: Option<Object>)

  function ToInput(h: Hit): InputMessage {
    InputMessage(h.messageSeq, h.from, h.channelId, h.timestamp, h.payload, h.payloadRaw)
  }

  /** The line of a message, or None when the writer skips it. */
  function LineOf(codec: Codec, m: InputMessage): Option<Line> {
    match ExtractPayload(m.payload, m.payloadRaw)
    case None => None
    case Some(text) => codec.marshal(OutLine(m.messageSeq, m.from, m.channelId, m.timestamp, text))
  }

  /** Which column of a hit stands in which field of its line, and when there is no line. */
  lemma LineFields(codec: Codec, h: Hit)
    ensures ExtractPayload(h.payload, h.payloadRaw) == None ==> LineOf(codec, ToInput(h)) == None
    ensures forall o: OutLine ::
              && ExtractPayload(h.payload, h.payloadRaw) == Some(o.payload)
              && o.messageSeq == h.messageSeq && o.fromUid == h.from
              && o.channelId == h.channelId && o.timestamp == h.timestamp ==>
                LineOf(codec, ToInput(h)) == codec.marshal(o)
  {
  }

  function LineSeq(codec: Codec, h: Hit): seq<Line> {
    match LineOf(codec, ToInput(h))
    case None => []
    case Some(l) => [l]
  }

  function Lines(codec: Codec, hits: seq<Hit>): seq<Line> {
    if hits == [] then [] else Lines(codec, Front(hits)) + LineSeq(codec, Last(hits))
  }

  lemma {:induction false} LinesAppend(codec: Codec, a: seq<Hit>, b: seq<Hit>)
    ensures Lines(codec, a + b) == Lines(codec, a) + Lines(codec, b)
  {
    if b == [] {
      assert a + b == a;
    } else {
      LinesAppend(codec, a, Front(b));
      assert Front(a + b) == a + Front(b) && Last(a + b) == Last(b);
      Regroup(Lines(codec, a), Lines(codec, Front(b)), LineSeq(codec, Last(b)));
    }
  }

  // ----- caps -----

  datatype Cut = Whole | ByChannelCap | ByTotalCap

  /** Hits taken from a channel of `len` hits when `seen` were taken before. */
  function Quota(cfg: Settings, len: nat, seen: int): (n: nat)
    ensures n <= len
  {
    Max(0, Min(len, Min(cfg.perChannelCap, cfg.maxTaskHits - seen)))
  }

  /** Which cap, if any, cuts the channel off. */
  function CutOf(cfg: Settings, len: nat, seen: int): Cut {
    var cap, left := Max(0, cfg.perChannelCap), Max(0, cfg.maxTaskHits - seen);
    if len > left && left <= cap then ByTotalCap
    else if len > cap && left > cap then ByChannelCap
    else Whole
  }

  /** A cut is reported exactly when hits were left behind. */
  lemma CutIffDropped(cfg: Settings, len: nat, seen: int)
    ensures CutOf(cfg, len, seen) == Whole <==> Quota(cfg, len, seen) == len
  {
  }

  // ----- visits -----

  /** One channel's share: the hits taken, how it ended, and the running total after it. */
  datatype Visit = Visit(channel: string, hits: seq<Hit>, cut: Cut, total: int)

  function ChannelHits(index: seq<Doc>, job: Job, ch: string): seq<Hit> {
    Select(index, Query(ch, job.range))
  }

  function VisitOf(cfg: Settings, index: seq<Doc>, job: Job, ch: string, seen: int): Visit {
    var all := ChannelHits(index, job, ch);
    var n := Quota(cfg, |all|, seen);
    Visit(ch, all[..n], CutOf(cfg, |all|, seen), seen + n)
  }

  /** A total cut ends the run. */
  function Visits(cfg: Settings, index: seq<Doc>, job: Job, channels: seq<string>, seen: int): seq<Visit> {
    if channels == [] then []
    else
      var v := VisitOf(cfg, index, job, channels[0], seen);
      if v.cut == ByTotalCap then [v] else [v] + Visits(cfg, index, job, channels[1..], v.total)
  }

  function WarningOf(cfg: Settings, v: Visit): seq<Warning> {
    match v.cut
    case Whole => []
    case ByChannelCap => [Warning(v.channel, PerChannelTruncated, cfg.perChannelCap, |v.hits|)]
    case ByTotalCap => [Warning(v.channel, TotalTruncated, cfg.maxTaskHits, v.total)]
  }

  function Warnings(cfg: Settings, vs: seq<Visit>): seq<Warning> {
    if vs == [] then [] else Warnings(cfg, Front(vs)) + WarningOf(cfg, Last(vs))
  }

  // ----- parts -----

  /** The lines of one part; a part belongs to one channel. */
  datatype Content = Content(channel: string, lines: seq<Line>)

  function Tag(ch: string, parts: seq<seq<Line>>): (r: seq<Content>)
    ensures |r| == |parts|
    ensures forall k :: 0 <= k < |r| ==> r[k] == Content(ch, parts[k])
  {
    seq(|parts|, i requires 0 <= i < |parts| => Content(ch, parts[i]))
  }

  function VisitParts(cfg: Settings, v: Visit): seq<Content> {
    Tag(v.channel, Split(cfg.limits, Lines(cfg.codec, v.hits)))
  }

  function Contents(cfg: Settings, vs: seq<Visit>): seq<Content> {
    if vs == [] then [] else Contents(cfg, Front(vs)) + VisitParts(cfg, Last(vs))
  }

  /** The object stored for a part. */
  function ObjectOf(codec: Codec, c: Content): Bytes {
    codec.gzip(Framing.Raw(c.lines))
  }

  function MetaOf(cfg: Settings, job: Job, k: nat, c: Content): Part {
    var data := ObjectOf(cfg.codec, c);
    Part(job.taskId, k, Keys.ObjectKey(cfg.keyPrefix, job.day, job.caller, job.taskId, k),
         |data|, |c.lines|, cfg.codec.sha256(data), [c.channel])
  }

  function Metas(cfg: Settings, job: Job, cs: seq<Content>): (r: seq<Part>)
    ensures |r| == |cs|
    ensures forall k :: 0 <= k < |r| ==> r[k] == MetaOf(cfg, job, k, cs[k])
  {
    seq(|cs|, k requires 0 <= k < |cs| => MetaOf(cfg, job, k, cs[k]))
  }

  // ----- the whole run -----

  function RunVisits(cfg: Settings, index: seq<Doc>, job: Job): seq<Visit> {
    Visits(cfg, index, job, Sorting.SortStrings(job.channels), 0)
  }

  function RunContents(cfg: Settings, index: seq<Doc>, job: Job): seq<Content> {
    Contents(cfg, RunVisits(cfg, index, job))
  }

  function RunPlan(cfg: Settings, index: seq<Doc>, job: Job): Plan {
    var parts := Metas(cfg, job, RunContents(cfg, index, job));
    Plan(parts, TotalMessages(parts), Warnings(cfg, RunVisits(cfg, index, job)))
  }

  // ----- search budget -----

  /** Page requests for a channel that yields n hits: one per full page, and one more. */
  function PageCalls(cfg: Settings, n: nat): nat
    requires cfg.pageSize > 0
  {
    n / cfg.pageSize + 1
  }

  /** Page requests of an undisturbed run. */
  function Searches(cfg: Settings, vs: seq<Visit>): nat
    requires cfg.pageSize > 0
  {
    if vs == [] then 0 else Searches(cfg, Front(vs)) + PageCalls(cfg, |Last(vs).hits|)
  }
}
