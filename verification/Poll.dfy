/** `handleGet` of internal/handler/handler.go: the row, and for a published task its parts. */
module Poll {
  import opened Base
  import opened Types
  import opened Store

  datatype Link = Link(url: string, expiresAt: int)

  datatype PartOut = PartOut(link: Link, sizeBytes: nat, messageCount: nat, sha256: string, channelIds: seq<string>)

  /** The JSON body; a field that is not sent is None or empty. */
  datatype Response = NotFound | Error
    | Shown(status: Status, count: Option<int>, parts: Option<seq<PartOut>>, warnings: seq<Warning>,
            errorCode: string, errorMessage: string)

  class Handler {
    const store: MySQLStore
    /** Signs a link for an object key, or fails. */
    const presign: string -> Option<Link>

    constructor (store: MySQLStore, presign: string -> Option<Link>)
      ensures this.store == store && this.presign == presign
    {
      this.store, this.presign := store, presign;
    }

    /** Is this the answer for the part, with a link to the part's own object? */
    predicate Renders(out: PartOut, p: Part) {
      && presign(p.s3Key) == Some(out.link)
      && out.sizeBytes == p.sizeBytes && out.messageCount == p.messageCount
      && out.sha256 == p.sha256 && out.channelIds == p.channelIds
    }

    ghost predicate RendersAll(out: seq<PartOut>, parts: seq<Part>) {
      |out| == |parts| && forall k :: 0 <= k < |parts| ==> Renders(out[k], parts[k])
    }

    /** Turns rows into answers, in order; stops at the first link that cannot be signed. */
    method Render(parts: seq<Part>) returns (out: Option<seq<PartOut>>)
      ensures out.Some? <==> forall k :: 0 <= k < |parts| ==> presign(parts[k].s3Key).Some?
      ensures out.Some? ==> RendersAll(out.value, parts)
    {
      var made: seq<PartOut> := [];
      for i := 0 to |parts|
        invariant |made| == i
        invariant forall k :: 0 <= k < i ==> Renders(made[k], parts[k])
      {
        var p := parts[i];
        var link := presign(p.s3Key);
        if link.None? {
          return None;
        }
        made := made + [PartOut(link.value, p.sizeBytes, p.messageCount, p.sha256, p.channelIds)];
      }
      out := Some(made);
    }

    /** Somebody else's task looks like none at all. The owner sees the status; the count, the
        parts and the warnings of a published task and of no other; the error of a failed task
        and of no other. The row is as first read; the parts are as last read, and other parties
        may write in between. */
    method HandleGet(id: TaskId, caller: string) returns (r: Response, ghost f: seq<Ack>)
      modifies store
      ensures Drift(old(store.db), store.db) && store.foreign >= old(store.foreign)
      ensures store.foreign == old(store.foreign) ==> store.db == old(store.db)
      ensures store.fates == old(store.fates) + f && f != []
      ensures |f| == if f[0] == Done && Owns(old(store.db), id, caller)
                        && old(store.db).tasks[id].status.IsPublished() then 2 else 1
      ensures r == NotFound <==> f[0] == Done && !Owns(old(store.db), id, caller)
      ensures !AllDone(f) ==> r == Error
      ensures r.Shown? ==>
                && Owns(old(store.db), id, caller)
                && var row, rows := old(store.db).tasks[id], RowsOf(store.db, id);
                && r.status == row.status
                && r.count == (if row.status.IsPublished() then Some(row.actualCount) else None)
                && r.warnings == (if row.status.IsPublished() then row.warnings else [])
                && (r.parts.Some? <==> row.status.IsPublished())
                && (r.parts.Some? ==> RendersAll(r.parts.value, rows))
                && r.errorCode == (if row.status == Failed then row.errorCode else "")
                && r.errorMessage == (if row.status == Failed then row.errorMessage else "")
      ensures r == Error && AllDone(f) ==>
                && Owns(old(store.db), id, caller) && old(store.db).tasks[id].status.IsPublished()
                && exists k :: 0 <= k < |RowsOf(store.db, id)| && presign(RowsOf(store.db, id)[k].s3Key).None?
    {
      var ack, t := store.Get(id);
      f := [ack];
      if ack != Done {
        return Error, f;
      }
      if t.None? || t.value.caller != caller {
        return NotFound, f;
      }
      var row := t.value;
      var count, parts, warnings := None, None, [];
      if row.status.IsPublished() {
        count := Some(row.actualCount);
        store.Interleave();
        var rows;
        ack, rows := store.GetParts(id);
        f := f + [ack];
        assert f[1] == ack;
        if ack != Done {
          return Error, f;
        }
        parts := Render(rows);
        if parts.None? {
          return Error, f;
        }
        if |row.warnings| > 0 {
          warnings := row.warnings;
        }
      }
      var failed := row.status == Failed;
      r := Shown(row.status, count, parts, warnings,
                 if failed then row.errorCode else "", if failed then row.errorMessage else "");
    }
  }
}
