/** The services a run talks to, as seen by one task: the search snapshot, the bucket, and the
    task context that may be cancelled from outside at any moment. Each call may fail. */
module Remote {
  import opened Base
  import opened Search

  class Services {
    /** The documents of the point in time. */
    const index: seq<Doc>
    /** Whether `Search` answers as the index prescribes; otherwise it may answer anything. */
    const honest: bool

    var objects: map<string, Bytes>
    var cancelled: bool
    /** Failed calls, and context checks that found the context cancelled. */
    ghost var stops: nat
    /** Points in time opened; searches begun, and those begun under a cancelled context. */
    ghost var pits: nat
    ghost var searches: nat
    ghost var late: nat

    constructor (index: seq<Doc>, honest: bool)
      requires IsSnapshot(index)
      ensures this.index == index && this.honest == honest
      ensures objects == map[] && !cancelled && stops == 0 && pits == 0 && searches == 0 && late == 0
    {
      this.index, this.honest := index, honest;
      objects, cancelled, stops, pits, searches, late := map[], false, 0, 0, 0, 0;
    }

    /** Lets somebody else cancel the context between two steps. */
    method Interleave()
      modifies this`cancelled
      ensures old(cancelled) ==> cancelled
    {
      if * { cancelled := true; }
    }

    /** ctx.Err() != nil */
    method CtxErr() returns (b: bool)
      modifies this`cancelled, this`stops
      ensures old(cancelled) ==> cancelled
      ensures b == cancelled
      ensures stops == old(stops) + (if b then 1 else 0)
    {
      Interleave();
      b := cancelled;
      if b { stops := stops + 1; }
    }

    method OpenPIT() returns (ok: bool)
      modifies this`cancelled, this`stops, this`pits
      ensures old(cancelled) ==> cancelled
      ensures stops == old(stops) + (if ok then 0 else 1)
      ensures pits == old(pits) + (if ok then 1 else 0)
    {
      Interleave();
      if * {
        ok, pits := true, pits + 1;
      } else {
        ok, stops := false, stops + 1;
      }
    }

    method Search(q: Query, size: int, after: seq<int>) returns (r: Result<seq<Hit>>)
      modifies this`cancelled, this`stops, this`searches, this`late
      ensures old(cancelled) ==> cancelled
      ensures stops == old(stops) + (if r.Err? then 1 else 0)
      ensures searches == old(searches) + 1
      ensures late == old(late) || (late == old(late) + 1 && cancelled)
      ensures r.Ok? && honest ==> r.value == Page(Select(index, q), size, after)
    {
      Interleave();
      searches := searches + 1;
      if cancelled { late := late + 1; }
      if * {
        r := Ok(Page(Select(index, q), size, after));
        if !honest {
          var anything: seq<Hit> := *;
          r := Ok(anything);
        }
      } else {
        r := Err;
        stops := stops + 1;
      }
      Interleave();
    }

    /** Stores an object; a failed upload may have stored it all the same. */
    method Upload(key: string, data: Bytes) returns (ok: bool)
      modifies this`cancelled, this`stops, this`objects
      ensures old(cancelled) ==> cancelled
      ensures stops == old(stops) + (if ok then 0 else 1)
      ensures objects == old(objects)[key := data] || (!ok && objects == old(objects))
    {
      Interleave();
      if * {
        objects := objects[key := data];
        ok := true;
      } else {
        if * { objects := objects[key := data]; }
        ok, stops := false, stops + 1;
      }
    }
  }
}
