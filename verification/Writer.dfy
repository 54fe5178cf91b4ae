/** internal/result/writer.go: the part buffer, its rollover, and the list of parts. */
module Writer {
  import opened Base
  import opened Types
  import opened Rollover
  import opened Export
  import opened ExportProperties
  import opened Remote
  import Framing
  import Keys

  datatype PartBuffer = PartBuffer(buf: Bytes, rows: int, rawSize: int)

  /** The buffer holds these lines; a nil buffer holds none. */
  ghost predicate Holds(cur: Option<PartBuffer>, lines: seq<Line>) {
    match cur
    case None => lines == []
    case Some(b) => b.buf == Framing.Raw(lines) && b.rows == |lines| && b.rawSize == RawSize(lines)
  }

  lemma HoldsPush(b: PartBuffer, lines: seq<Line>, l: Line)
    requires Holds(Some(b), lines)
    ensures Holds(Some(PartBuffer(b.buf + (l + [NEWLINE]), b.rows + 1, b.rawSize + |l + [NEWLINE]|)), lines + [l])
  {
    Framing.RawPush(lines, l);
    Regroup(b.buf, l, [NEWLINE]);
    SumAppend(LineSize, lines, [l]);
    SumSingle(LineSize, l);
  }

  lemma MetasPush(cfg: Settings, job: Job, cs: seq<Content>, c: Content)
    ensures Metas(cfg, job, cs + [c]) == Metas(cfg, job, cs) + [MetaOf(cfg, job, |cs|, c)]
  {
  }

  lemma TagPush(ch: string, closed: seq<seq<Line>>, open: seq<Line>)
    ensures Tag(ch, closed + [open]) == Tag(ch, closed) + [Content(ch, open)]
  {
  }

  /** The keys of the parts so far differ from the key of the next one. */
  lemma NextKeyFresh(cfg: Settings, job: Job, cs: seq<Content>, k: nat)
    requires k < |cs|
    ensures Metas(cfg, job, cs)[k].s3Key
         != Keys.ObjectKey(cfg.keyPrefix, job.day, job.caller, job.taskId, |cs|)
  {
    Keys.KeyInjective(cfg.keyPrefix, job.day, job.caller, job.taskId, k, |cs|);
  }

  lemma StoredElsewhere(cfg: Settings, job: Job, cs: seq<Content>, objects: map<string, Bytes>, data: Bytes)
    requires Stored(cfg.codec, objects, Metas(cfg, job, cs), cs)
    ensures var key := Keys.ObjectKey(cfg.keyPrefix, job.day, job.caller, job.taskId, |cs|);
            Stored(cfg.codec, objects[key := data], Metas(cfg, job, cs), cs)
  {
    forall k | 0 <= k < |cs| {
      NextKeyFresh(cfg, job, cs, k);
    }
  }

  lemma StoredPush(cfg: Settings, job: Job, cs: seq<Content>, c: Content, objects: map<string, Bytes>)
    requires Stored(cfg.codec, objects, Metas(cfg, job, cs), cs)
    ensures var m := MetaOf(cfg, job, |cs|, c);
            Stored(cfg.codec, objects[m.s3Key := ObjectOf(cfg.codec, c)], Metas(cfg, job, cs) + [m], cs + [c])
  {
    StoredElsewhere(cfg, job, cs, objects, ObjectOf(cfg.codec, c));
  }

  class PartWriter {
    const cfg: Settings
    const job: Job
    const up: Services

    var parts: seq<Part>
    var partSeq: nat
    var cur: Option<PartBuffer>
    var curChannel: string

    /** Contents of the channels finished before the current one. */
    ghost var settled: seq<Content>
    /** Lines of the current channel, closed parts and open buffer. */
    ghost var visit: Chopped

    ghost function Closed(): seq<Content>
      reads this
    {
      settled + Tag(curChannel, visit.closed)
    }

    ghost predicate Valid()
      reads this, up`objects
    {
      && partSeq == |parts|
      && parts == Metas(cfg, job, Closed())
      && Holds(cur, visit.open)
      && Stored(cfg.codec, up.objects, parts, Closed())
    }

    constructor (cfg: Settings, job: Job, up: Services)
      ensures Valid()
      ensures this.cfg == cfg && this.job == job && this.up == up
      ensures settled == [] && visit == Chopped([], []) && curChannel == ""
    {
      this.cfg, this.job, this.up := cfg, job, up;
      parts, partSeq, cur, curChannel := [], 0, None, "";
      settled, visit := [], Chopped([], []);
    }

    /** Uploads the open buffer as the next part, if it has rows. */
    method Flush() returns (ok: bool)
      requires Valid()
      modifies this, up`objects, up`stops, up`cancelled
      ensures Valid()
      ensures settled == old(settled) && curChannel == old(curChannel)
      ensures ok ==> visit == Chopped(Close(old(visit)), [])
      ensures !ok ==> visit == old(visit)
      ensures up.stops == old(up.stops) + (if ok then 0 else 1)
      ensures old(up.cancelled) ==> up.cancelled
    {
      if cur.None? {
        return true;
      }
      if cur.value.rows == 0 {
        cur := None;
        return true;
      }
      var data := cfg.codec.gzip(cur.value.buf);
      var sum := cfg.codec.sha256(data);
      var key := Keys.ObjectKey(cfg.keyPrefix, job.day, job.caller, job.taskId, partSeq);
      ghost var cs, c := Closed(), Content(curChannel, visit.open);
      ghost var objects := up.objects;
      StoredElsewhere(cfg, job, cs, objects, data);
      StoredPush(cfg, job, cs, c, objects);
      ok := up.Upload(key, data);
      if !ok {
        return;
      }
      MetasPush(cfg, job, cs, c);
      TagPush(curChannel, visit.closed, visit.open);
      Regroup(settled, Tag(curChannel, visit.closed), [c]);
      parts := parts + [Part(job.taskId, partSeq, key, |data|, cur.value.rows, sum, [curChannel])];
      partSeq := partSeq + 1;
      cur := None;
      visit := Chopped(visit.closed + [visit.open], []);
    }

    /** Closes the part of the previous channel before the next one begins. */
    method StartChannel(channel: string) returns (ok: bool)
      requires Valid()
      modifies this, up`objects, up`stops, up`cancelled
      ensures Valid()
      ensures ok ==> settled == old(settled + Tag(curChannel, Close(visit)))
      ensures ok ==> curChannel == channel && visit == Chopped([], [])
      ensures up.stops == old(up.stops) + (if ok then 0 else 1)
      ensures old(up.cancelled) ==> up.cancelled
    {
      ok := true;
      if cur.Some? {
        ok := Flush();
        if !ok {
          return;
        }
      }
      settled := Closed();
      curChannel := channel;
      visit := Chopped([], []);
      assert Closed() == settled;
    }

    /** Writes one message, or skips it when it has no text or does not marshal. */
    method Write(m: InputMessage) returns (ok: bool, written: bool)
      requires Valid()
      modifies this, up`objects, up`stops, up`cancelled
      ensures Valid()
      ensures settled == old(settled) && curChannel == old(curChannel)
      ensures ok ==> (written <==> LineOf(cfg.codec, m).Some?)
      ensures ok ==> visit == match LineOf(cfg.codec, m)
                              case None => old(visit)
                              case Some(l) => Push(cfg.limits, old(visit), l)
      ensures up.stops == old(up.stops) + (if ok then 0 else 1)
      ensures old(up.cancelled) ==> up.cancelled
    {
      var marshalled := LineOf(cfg.codec, m);
      if marshalled.None? {
        return true, false;
      }
      var l := marshalled.value;
      var line := l + [NEWLINE];
      if cur.None? {
        cur := Some(PartBuffer([], 0, 0));
      }
      HoldsPush(cur.value, visit.open, l);
      var b := cur.value;
      cur := Some(PartBuffer(b.buf + line, b.rows + 1, b.rawSize + |line|));
      visit := Chopped(visit.closed, visit.open + [l]);
      if cur.value.rows >= cfg.limits.maxRows || cur.value.rawSize >= cfg.limits.maxBytes {
        ok := Flush();
        if !ok {
          return ok, false;
        }
      }
      return true, true;
    }

    /** Closes the last part and adds up the rows. */
    method Finish() returns (ok: bool, ps: seq<Part>, total: int)
      requires Valid()
      modifies this, up`objects, up`stops, up`cancelled
      ensures Valid()
      ensures ok ==> Closed() == old(settled + Tag(curChannel, Close(visit)))
      ensures ok ==> ps == parts && total == TotalMessages(parts)
      ensures up.stops == old(up.stops) + (if ok then 0 else 1)
      ensures old(up.cancelled) ==> up.cancelled
    {
      ps, total := [], 0;
      ok := Flush();
      if !ok {
        return;
      }
      for i := 0 to |parts|
        modifies {}
        invariant total == TotalMessages(parts[..i])
      {
        SumAppend(MessageCount, parts[..i], [parts[i]]);
        SumSingle(MessageCount, parts[i]);
        assert parts[..i] + [parts[i]] == parts[..i + 1];
        total := total + parts[i].messageCount;
      }
      assert parts[..|parts|] == parts;
      ps := parts;
    }
  }
}
