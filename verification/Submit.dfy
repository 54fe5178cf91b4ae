/** internal/submit/submit.go: validation, admission by count, and the slot-create-enqueue
    sequence with its undo steps. */
module Submit {
  import opened Base
  import opened Types
  import opened Search
  import opened Export
  import opened ExportProperties
  import opened Store
  import opened Gate
  import opened Executor
  import opened TaskIds

  const MAX_CHANNELS := 30
  const MAX_RANGE_SECONDS := 31 * 24 * 3600
  const MS_THRESHOLD := 1_000_000_000_000

  datatype Request = Request(channels: seq<string>, range: TimeRange)

  datatype Rejection = InvalidRequest | TooLarge | RangeTooLong | Degraded | Internal

  datatype Answer = Accepted(id: TaskId) | Rejected(why: Rejection)

  function Validate(req: Request): Option<Rejection> {
    var n, r := |req.channels|, req.range;
    if n == 0 then Some(InvalidRequest)
    else if n > MAX_CHANNELS then Some(TooLarge)
    else if "" in req.channels then Some(InvalidRequest)
    else if r.startTs <= 0 || r.endTs <= 0 then Some(InvalidRequest)
    else if r.startTs >= MS_THRESHOLD || r.endTs >= MS_THRESHOLD then Some(InvalidRequest)
    else if r.endTs < r.startTs then Some(InvalidRequest)
    else if r.endTs - r.startTs > MAX_RANGE_SECONDS then Some(RangeTooLong)
    else None
  }

  /** The requests that pass: one to thirty channels, each with a name, and a range of at most
      31 days given in seconds, whose ends are in order. */
  lemma ValidateMeaning(req: Request)
    ensures var n, from, to := |req.channels|, req.range.startTs, req.range.endTs;
            var wellFormed := (forall ch :: ch in req.channels ==> ch != "") && 0 < from <= to < 1_000_000_000_000;
            && (Validate(req) == None <==> 1 <= n <= 30 && wellFormed && to - from <= 2_678_400)
            && (Validate(req) == Some(TooLarge) <==> n > 30)
            && (Validate(req) == Some(RangeTooLong) <==> 1 <= n <= 30 && wellFormed && to - from > 2_678_400)
            && (Validate(req) == Some(InvalidRequest) <==> n == 0 || (n <= 30 && !wellFormed))
  {
  }

  function NewRow(caller: string, requestId: string, req: Request, estimate: nat): Task {
    Task(caller, Queued, estimate, req.channels, req.range, requestId, [], "", "")
  }

  function RequestJob(req: Request): Job {
    Job("", "", "", req.channels, req.range)
  }

  /** What the caller is told, given how the store calls of the submission ended: none when it is
      refused before, the insert, and the failure mark of a task the queue has no room for. */
  predicate Tells(r: Answer, id: TaskId, f: seq<Ack>) {
    if f == [] then r.Rejected? && r.why != Internal
    else if f[0] != Done then |f| == 1 && r == Rejected(Internal)
    else if |f| == 1 then r == Accepted(id)
    else |f| == 2 && r == Rejected(Degraded)
  }

  /** What a submission nobody interferes with leaves behind. */
  predicate Undisturbed(db0: Db, db: Db, row: Task, id: TaskId, room: bool, f: seq<Ack>) {
    var created := Insert(db0, id, row);
    if f == [] || f[0] == Refused then db == db0
    else
      && id !in db0.tasks
      && (f[0] == Done ==> |f| == if room then 1 else 2)
      && db == if |f| == 2 then Write(f[1], created, SetVerdict(created, id, QueueFull())) else created
  }

  class Submitter {
    const maxTaskHits: int
    const submitWait: int
    const gate: Semaphore
    const exec: Worker
    /** Counts that failed. */
    ghost var outages: nat

    constructor (maxTaskHits: int, submitWait: int, gate: Semaphore, exec: Worker)
      ensures this.maxTaskHits == maxTaskHits && this.submitWait == submitWait
      ensures this.gate == gate && this.exec == exec && outages == 0
    {
      this.maxTaskHits, this.submitWait, this.gate, this.exec := maxTaskHits, submitWait, gate, exec;
      outages := 0;
    }

    /** Counts the hits of one channel, or fails. */
    method Count(index: seq<Doc>, q: Query) returns (n: Option<nat>)
      modifies this`outages
      ensures n.None? || n.value == |Select(index, q)|
      ensures outages == old(outages) + (if n.None? then 1 else 0)
    {
      n := Some(|Select(index, q)|);
      if * {
        n, outages := None, outages + 1;
      }
    }

    /** Sums the counts of the requested channels, or gives up at the first failing count. */
    method CountAll(index: seq<Doc>, req: Request) returns (total: Option<nat>)
      modifies this`outages
      ensures total.Some? ==> total.value == CountSum(index, RequestJob(req), req.channels)
      ensures outages == old(outages) + (if total.None? then 1 else 0)
    {
      var sum := 0;
      assert req.channels[0..] == req.channels;
      for i := 0 to |req.channels|
        invariant outages == old(outages)
        invariant sum + CountSum(index, RequestJob(req), req.channels[i..])
               == CountSum(index, RequestJob(req), req.channels)
      {
        var n := Count(index, Query(req.channels[i], req.range));
        if n.None? {
          return None;
        }
        assert req.channels[i..][1..] == req.channels[i + 1..];
        sum := sum + n.value;
      }
      return Some(sum);
    }

    /** Other parties take their turn between two steps of this call, which holds `mine` slots. */
    method Interleave(mine: nat)
      requires gate.Valid() && mine <= gate.tokens
      modifies gate`tokens, gate`others, exec.store`db, exec.store`foreign, exec`queue
      ensures gate.Valid() && mine <= gate.tokens
      ensures gate.tokens - gate.others == old(gate.tokens - gate.others)
      ensures Drift(old(exec.store.db), exec.store.db) && exec.store.foreign >= old(exec.store.foreign)
      ensures exec.store.foreign == old(exec.store.foreign) ==>
                gate.tokens == old(gate.tokens) && exec.store.db == old(exec.store.db) && exec.queue == old(exec.queue)
    {
      var next: seq<TaskId> := *;
      if |next| <= exec.queueBuffer {
        gate.Interleave(mine);
        exec.store.Interleave();
        exec.queue := next;
        exec.store.foreign := exec.store.foreign + 1;
      }
    }

    /** A request is refused as its validation says, when a count fails, or exactly when the sum
        of the counts passes the limit; all that before anything is touched. Then it needs a slot.
        Whatever others do meanwhile, the call leaves the gate one higher of its own exactly for
        an accepted task; an accepted task is new, stored as queued, and last in the queue. `made`
        are the tables to which the row was added, if it was; a row of a submission that the queue
        turned away is marked failed. When nobody interfered, nothing else has changed at all, and
        the queue turned nothing away while it had room. */
    method Submit(index: seq<Doc>, caller: string, requestId: string, req: Request, now: nat, rnd: seq<byte>,
                  ctxDone: bool)
      returns (r: Answer, ghost id: TaskId, ghost made: Option<Db>, ghost f: seq<Ack>)
      requires gate.Valid() && |rnd| == 16
      modifies this`outages, gate, exec.store, exec`queue
      ensures gate.Valid() && outages >= old(outages) && gate.expired >= old(gate.expired)
      ensures exec.store.foreign >= old(exec.store.foreign) && exec.store.fates == old(exec.store.fates) + f
      ensures Validate(req).Some? ==> r == Rejected(Validate(req).value) && outages == old(outages)
      ensures Validate(req) == None && outages > old(outages) ==> r == Rejected(Degraded)
      ensures Validate(req) == None && outages == old(outages) ==>
                (r == Rejected(TooLarge) <==> CountSum(index, RequestJob(req), req.channels) > maxTaskHits)
      ensures Validate(req).Some? || outages > old(outages) || r == Rejected(TooLarge) ==>
                f == [] && exec.store.foreign == old(exec.store.foreign) && gate.expired == old(gate.expired)
      ensures r == Rejected(Degraded) && f == [] ==>
                || outages > old(outages) || ctxDone
                || (if submitWait <= 0 then old(gate.tokens) == gate.capacity else gate.expired > old(gate.expired))
      ensures Tells(r, id, f) && (f != [] ==> IsIdFor(id, now, rnd)) && (made.Some? <==> f != [] && f[0] != Refused)
      ensures gate.tokens - gate.others == old(gate.tokens - gate.others) + (if r.Accepted? then 1 else 0)
      ensures r.Accepted? ==> exec.queue != [] && Last(exec.queue) == id
      ensures made.None? ==> Drift(old(exec.store.db), exec.store.db)
      ensures made.Some? ==>
                && id !in made.value.tasks && Drift(old(exec.store.db), made.value)
                && Drift(Insert(made.value, id, NewRow(caller, requestId, req, 0)), exec.store.db)
      ensures f == [Done, Done] ==>
                id in exec.store.db.tasks && exec.store.db.tasks[id] == Conclude(exec.store.db.tasks[id], QueueFull())
      ensures exec.store.foreign == old(exec.store.foreign) ==>
                && gate.tokens == old(gate.tokens) + (if r.Accepted? then 1 else 0)
                && exec.queue == (if r.Accepted? then old(exec.queue) + [id] else old(exec.queue))
                && Undisturbed(old(exec.store.db), exec.store.db, NewRow(caller, requestId, req, 0), id,
                               |old(exec.queue)| < exec.queueBuffer, f)
      ensures exec.store.foreign == old(exec.store.foreign) && f != [] ==> old(gate.tokens) < gate.capacity
    {
      id, made, f := "", None, [];
      var invalid := Validate(req);
      if invalid.Some? {
        return Rejected(invalid.value), id, made, f;
      }
      var total := CountAll(index, req);
      if total.None? {
        return Rejected(Degraded), id, made, f;
      }
      if total.value > maxTaskHits {
        return Rejected(TooLarge), id, made, f;
      }
      var ok := gate.Acquire(submitWait, ctxDone);
      if !ok {
        return Rejected(Degraded), id, made, f;
      }
      r, id, made, f := CreateAndEnqueue(caller, requestId, req, total.value, now, rnd);
    }

    /** The rest of the call, once it holds a slot. */
    method CreateAndEnqueue(caller: string, requestId: string, req: Request, total: nat, now: nat, rnd: seq<byte>)
      returns (r: Answer, ghost id: TaskId, ghost made: Option<Db>, ghost f: seq<Ack>)
      requires gate.Valid() && gate.tokens > 0 && |rnd| == 16
      modifies gate`tokens, gate`others, exec.store, exec`queue
      ensures gate.Valid()
      ensures exec.store.foreign >= old(exec.store.foreign) && exec.store.fates == old(exec.store.fates) + f && f != []
      ensures Tells(r, id, f) && IsIdFor(id, now, rnd) && (made.Some? <==> f[0] != Refused)
      ensures gate.tokens - gate.others == old(gate.tokens - gate.others) - (if r.Accepted? then 0 else 1)
      ensures r.Accepted? ==> exec.queue != [] && Last(exec.queue) == id
      ensures made.None? ==> Drift(old(exec.store.db), exec.store.db)
      ensures made.Some? ==>
                && id !in made.value.tasks && Drift(old(exec.store.db), made.value)
                && Drift(Insert(made.value, id, NewRow(caller, requestId, req, 0)), exec.store.db)
      ensures f == [Done, Done] ==>
                id in exec.store.db.tasks && exec.store.db.tasks[id] == Conclude(exec.store.db.tasks[id], QueueFull())
      ensures exec.store.foreign == old(exec.store.foreign) ==>
                && gate.tokens == old(gate.tokens) - (if r.Accepted? then 0 else 1)
                && exec.queue == (if r.Accepted? then old(exec.queue) + [id] else old(exec.queue))
                && Undisturbed(old(exec.store.db), exec.store.db, NewRow(caller, requestId, req, 0), id,
                               |old(exec.queue)| < exec.queueBuffer, f)
    {
      ghost var db0 := exec.store.db;
      made := None;
      Interleave(1);
      var newId := NewTaskID(now, rnd);
      id := newId;
      ghost var db1 := exec.store.db;
      var ack := exec.store.Create(newId, NewRow(caller, requestId, req, total));
      f := [ack];
      ghost var created := Insert(db1, id, NewRow(caller, requestId, req, 0));
      if ack != Refused {
        made := Some(db1);
        assert exec.store.db == created;
      }
      Interleave(1);
      if ack != Refused {
        assert Drift(created, exec.store.db);
      } else {
        DriftTransitive(db0, db1, exec.store.db);
      }
      if ack != Done {
        gate.Release();
        return Rejected(Internal), id, made, f;
      }
      var ok := exec.Enqueue(newId);
      if ok {
        return Accepted(newId), id, made, f;
      }
      ghost var db2 := exec.store.db;
      ack := TurnAway(newId);
      f := [Done, ack];
      DriftTransitive(created, db2, exec.store.db);
      return Rejected(Degraded), id, made, f;
    }

    /** Gives the slot back and marks the task failed. */
    method TurnAway(id: TaskId) returns (ack: Ack)
      requires gate.Valid() && gate.tokens > 0 && id in exec.store.db.tasks
      modifies gate`tokens, gate`others, exec.store, exec`queue
      ensures gate.Valid() && gate.tokens - gate.others == old(gate.tokens - gate.others) - 1
      ensures Drift(old(exec.store.db), exec.store.db)
      ensures exec.store.foreign >= old(exec.store.foreign) && exec.store.fates == old(exec.store.fates) + [ack]
      ensures ack == Done ==>
                id in exec.store.db.tasks && exec.store.db.tasks[id] == Conclude(exec.store.db.tasks[id], QueueFull())
      ensures exec.store.foreign == old(exec.store.foreign) ==>
                && gate.tokens == old(gate.tokens) - 1 && exec.queue == old(exec.queue)
                && exec.store.db == Write(ack, old(exec.store.db), SetVerdict(old(exec.store.db), id, QueueFull()))
    {
      gate.Release();
      Interleave(0);
      ack := exec.store.Finalize(id, QueueFull());
    }
  }
}
