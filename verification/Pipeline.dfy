/** `run` and `process` of internal/executor/executor.go: the export of one task and its life
    cycle in a worker. */
module Pipeline {
  import opened Base
  import opened Types
  import opened Search
  import opened Rollover
  import opened Export
  import opened ExportProperties
  import opened Remote
  import opened Writer
  import opened Store
  import opened Executor
  import Sorting

  function JobOf(id: TaskId, t: Task, day: string): Job {
    Job(id, t.caller, day, t.channels, t.range)
  }

  /** The visit a drain has made. */
  function Made(channel: string, hits: seq<Hit>, chTrunc: bool, totalCap: bool, total: int): Visit {
    Visit(channel, hits, if totalCap then ByTotalCap else if chTrunc then ByChannelCap else Whole, total)
  }

  /** Against an honest index, the channels still to come complete the visits made so far to
      those of the whole run. */
  ghost predicate OnCourse(cfg: Settings, os: Services, job: Job, made: seq<Visit>, i: nat, total: int, ended: bool) {
    os.honest ==>
      var channels := Sorting.SortStrings(job.channels);
      && i <= |channels|
      && var rest := if ended then [] else Visits(cfg, os.index, job, channels[i..], total);
      made + rest == RunVisits(cfg, os.index, job)
  }

  lemma OnCourseStart(cfg: Settings, os: Services, job: Job)
    ensures OnCourse(cfg, os, job, [], 0, 0, false)
  {
    var channels := Sorting.SortStrings(job.channels);
    assert channels[0..] == channels;
  }

  lemma OnCourseStep(cfg: Settings, os: Services, job: Job, made: seq<Visit>, i: nat, total: int, v: Visit)
    requires OnCourse(cfg, os, job, made, i, total, false) && i < |Sorting.SortStrings(job.channels)|
    requires os.honest ==> v == VisitOf(cfg, os.index, job, Sorting.SortStrings(job.channels)[i], total)
    ensures OnCourse(cfg, os, job, made + [v], i + 1, v.total, v.cut.ByTotalCap?)
  {
    if os.honest {
      var channels := Sorting.SortStrings(job.channels);
      assert channels[i..][0] == channels[i] && channels[i..][1..] == channels[i + 1..];
      var rest := if v.cut.ByTotalCap? then [] else Visits(cfg, os.index, job, channels[i + 1..], v.total);
      assert Visits(cfg, os.index, job, channels[i..], total) == [v] + rest;
      Regroup(made, [v], rest);
    }
  }

  lemma OnCourseEnd(cfg: Settings, os: Services, job: Job, made: seq<Visit>, i: nat, total: int, ended: bool)
    requires OnCourse(cfg, os, job, made, i, total, ended)
    requires ended || i == |Sorting.SortStrings(job.channels)|
    ensures os.honest ==> made == RunVisits(cfg, os.index, job)
  {
  }

  lemma VisitsPush(cfg: Settings, made: seq<Visit>, v: Visit)
    ensures Contents(cfg, made + [v]) == Contents(cfg, made) + VisitParts(cfg, v)
    ensures Warnings(cfg, made + [v]) == Warnings(cfg, made) + WarningOf(cfg, v)
    ensures cfg.pageSize > 0 ==> Searches(cfg, made + [v]) == Searches(cfg, made) + PageCalls(cfg, |v.hits|)
  {
    assert Front(made + [v]) == made && Last(made + [v]) == v;
  }

  /** What the parts will hold once the open buffer is closed. */
  ghost function Written(w: PartWriter): seq<Content>
    reads w
  {
    w.settled + Tag(w.curChannel, Close(w.visit))
  }

  lemma NothingWritten(cfg: Settings, w: PartWriter)
    requires w.settled == [] && w.visit == Chopped([], [])
    ensures Written(w) == Contents(cfg, []) && Warnings(cfg, []) == []
    ensures cfg.pageSize > 0 ==> Searches(cfg, []) == 0
  {
  }

  // ----- how a task ends -----

  /** What a failed run may say. */
  const MESSAGES := {"open pit failed", "cancelled", "writer start channel failed", "search failed",
                     "finish writer failed", "append part failed"}

  /** Parts are stored one by one up to the first that reports an error. */
  predicate PutsFit(puts: seq<Ack>, n: nat) {
    && |puts| <= n
    && (forall k :: 0 <= k < |puts| - 1 ==> puts[k] == Done)
    && (PutsDone(puts) ==> |puts| == n)
  }

  predicate PutsDone(puts: seq<Ack>) {
    puts == [] || Last(puts) == Done
  }

  /** How many of them were performed. */
  function Performed(puts: seq<Ack>): nat {
    if puts != [] && Last(puts) == Refused then |puts| - 1 else |puts|
  }

  /** What a run leaves behind that was not stopped before it stored its parts: all objects, the
      part rows in order as far as they could be stored, and the whole plan when all could. */
  ghost predicate LeftBehind(cfg: Settings, os: Services, job: Job, rows0: seq<Part>, rows: seq<Part>,
                            puts: seq<Ack>, v: Verdict)
    reads os`objects
  {
    var plan := RunPlan(cfg, os.index, job);
    && PutsFit(puts, |plan.parts|)
    && rows == UpsertAll(rows0, plan.parts[..Performed(puts)])
    && Stored(cfg.codec, os.objects, plan.parts, RunContents(cfg, os.index, job))
    && (PutsDone(puts) ==> v == Success(plan))
  }

  lemma LeftSoFar(cfg: Settings, os: Services, job: Job, rows0: seq<Part>, rows: seq<Part>, puts: seq<Ack>,
                       v: Verdict, w: Verdict)
    requires LeftBehind(cfg, os, job, rows0, rows, puts, v) && !PutsDone(puts)
    ensures LeftBehind(cfg, os, job, rows0, rows, puts, w)
  {
  }

  /** The verdict on a run: a failed one counts as cancelled when its context is done. */
  predicate IsVerdict(v: Verdict, failed: bool, cancelled: bool) {
    if !failed then
      v.status == (if v.warnings == [] then Completed else Partial) && v.errorCode == "" && v.errorMessage == ""
    else if cancelled then v == Verdict(Cancelled, 0, [], "", "")
    else v == Verdict(Failed, 0, [], "internal_error", v.errorMessage) && v.errorMessage in MESSAGES
  }

  /** How a task ends that was marked running, when the writes of its parts ended as `puts`, the
      verdict was `v`, and the write of the verdict ended as `ack`. A run that was stopped has
      stored no part. */
  ghost predicate EndsAs(cfg: Settings, os: Services, id: TaskId, day: string, db0: Db, db: Db, puts: seq<Ack>,
                         ack: Ack, stopped: bool, v: Verdict)
    requires id in db0.tasks
    reads os`objects, os`cancelled
  {
    && id in db.tasks
    && var row0, rows0, rows := db0.tasks[id], RowsOf(db0, id), RowsOf(db, id);
    && IsVerdict(v, stopped || !PutsDone(puts), os.cancelled)
    && db.tasks[id] == (if ack == Refused then row0.(status := Running) else Conclude(row0, v))
    && (stopped ==> puts == [] && rows == rows0)
    && (!stopped && !PutsDone(puts) && !os.cancelled ==> v.errorMessage == "append part failed")
    && (!stopped && os.honest ==> LeftBehind(cfg, os, JobOf(id, row0, day), rows0, rows, puts, v))
  }

  ghost predicate Concluded(cfg: Settings, os: Services, id: TaskId, day: string, db0: Db, db: Db, f: seq<Ack>,
                            stopped: bool)
    requires id in db0.tasks
    reads os`objects, os`cancelled
  {
    f != [] && exists v: Verdict :: EndsAs(cfg, os, id, day, db0, db, Front(f), Last(f), stopped, v)
  }

  /** How a task ends whose store calls ended as `f`. Only an open row that could be read is
      touched; one that could not be marked running is marked failed, if that can be written. */
  ghost predicate Processed(cfg: Settings, os: Services, id: TaskId, day: string, db0: Db, db: Db, f: seq<Ack>,
                            stopped: bool)
    reads os`objects, os`cancelled
  {
    && f != []
    && if f[0] != Done || !CanSwitch(db0, id) then |f| == 1 && db == db0 && !stopped
       else
         && |f| >= 3
         && var marked := Write(f[1], db0, SetStatus(db0, id, Running));
         if f[1] != Done then
           && |f| == 3 && !stopped
           && db == Write(f[2], marked, SetVerdict(marked, id, Failure("update status running failed")))
         else Concluded(cfg, os, id, day, db0, db, f[2..], stopped)
  }

  lemma OthersTransitive(id: TaskId, a: Db, b: Db, c: Db)
    requires Others(id, a, b) && Others(id, b, c)
    ensures Others(id, a, c)
  {
    forall other | other != id
      ensures RowsOf(c, other) == RowsOf(a, other)
    {
      assert RowsOf(b, other) == RowsOf(a, other);
    }
  }

  /** Nothing changes for other tasks. */
  ghost predicate Others(id: TaskId, db0: Db, db: Db) {
    && db.tasks.Keys == db0.tasks.Keys
    && forall other :: other != id ==>
         && (other in db0.tasks ==> db.tasks[other] == db0.tasks[other])
         && RowsOf(db, other) == RowsOf(db0, other)
  }

  /** The row once the verdict has been written, or has not. */
  lemma FinalRow(db0: Db, db2: Db, db: Db, id: TaskId, ack: Ack, v: Verdict)
    requires id in db0.tasks && db2.tasks == SetStatus(db0, id, Running).tasks
    requires db == Write(ack, db2, SetVerdict(db2, id, v))
    ensures id in db.tasks && RowsOf(db, id) == RowsOf(db2, id) && Others(id, db2, db)
    ensures db.tasks[id] == if ack == Refused then db0.tasks[id].(status := Running) else Conclude(db0.tasks[id], v)
    ensures RowsOf(SetStatus(db0, id, Running), id) == RowsOf(db0, id)
  {
  }

  class Runner {
    const exec: Worker

    constructor (exec: Worker)
      ensures this.exec == exec
    {
      this.exec := exec;
    }

    /** One turn of the channel loop. The visit it returns describes what was written,
        whatever the search answered. */
    method VisitChannel(os: Services, w: PartWriter, job: Job, ch: string, totalSeen0: int)
      returns (failed: bool, message: string, warnings: seq<Warning>, totalSeen: int, ended: bool, ghost v: Visit)
      requires exec.cfg.pageSize > 0 && IsSnapshot(os.index)
      requires w.Valid() && w.cfg == exec.cfg && w.up == os
      modifies w, os`objects, os`stops, os`cancelled, os`searches, os`late
      ensures w.Valid()
      ensures os.stops == old(os.stops) + (if failed then 1 else 0) && (failed ==> message in MESSAGES)
      ensures !failed ==> Written(w) == old(Written(w)) + VisitParts(exec.cfg, v)
      ensures !failed ==> warnings == WarningOf(exec.cfg, v) && ended == v.cut.ByTotalCap? && totalSeen == v.total
      ensures !failed && os.honest ==>
                && v == VisitOf(exec.cfg, os.index, job, ch, totalSeen0)
                && os.searches == old(os.searches) + PageCalls(exec.cfg, |v.hits|)
      ensures os.late == old(os.late) || (!old(os.cancelled) && os.cancelled && os.late == old(os.late) + 1)
      ensures old(os.cancelled) ==> os.cancelled && failed && message == "cancelled" && os.objects == old(os.objects)
    {
      message, warnings, totalSeen, ended, v := "", [], totalSeen0, false, Visit(ch, [], Whole, 0);
      failed := os.CtxErr();
      if failed {
        message := "cancelled";
        return;
      }
      var ok := w.StartChannel(ch);
      if !ok {
        failed, message := true, "writer start channel failed";
        return;
      }
      ghost var got;
      var chSeen, chTrunc, totalCap;
      chSeen, chTrunc, totalCap, totalSeen, failed, got := exec.DrainChannel(os, w, job, ch, totalSeen);
      if failed {
        message := "search failed";
        return;
      }
      if chTrunc {
        warnings := warnings + [Warning(ch, PerChannelTruncated, exec.cfg.perChannelCap, chSeen)];
      }
      if totalCap {
        warnings := warnings + [Warning(ch, TotalTruncated, exec.cfg.maxTaskHits, totalSeen)];
      }
      v, ended := Made(ch, got, chTrunc, totalCap, totalSeen), totalCap;
    }

    /** The channel loop: visits the sorted channels until a total cap ends the run. */
    method VisitChannels(os: Services, w: PartWriter, job: Job)
      returns (failed: bool, message: string, warnings: seq<Warning>, ghost made: seq<Visit>)
      requires exec.cfg.pageSize > 0 && IsSnapshot(os.index)
      requires w.Valid() && w.cfg == exec.cfg && w.up == os
      requires w.settled == [] && w.visit == Chopped([], [])
      modifies w, os`objects, os`stops, os`cancelled, os`searches, os`late
      ensures w.Valid()
      ensures os.stops == old(os.stops) + (if failed then 1 else 0) && (failed ==> message in MESSAGES)
      ensures !failed ==> Written(w) == Contents(exec.cfg, made)
      ensures !failed ==> warnings == Warnings(exec.cfg, made)
      ensures !failed && os.honest ==> made == RunVisits(exec.cfg, os.index, job)
      ensures !failed && os.honest ==> os.searches == old(os.searches) + Searches(exec.cfg, made)
      ensures LateSearch(old(os.late), os.late, os.cancelled)
    {
      hide PartWriter.Valid, OnCourse, IsSnapshot, Written, Contents, Warnings, Searches, VisitParts, WarningOf,
           RunVisits, VisitOf, Sorting.SortStrings;
      var channels := Sorting.SortStrings(job.channels);
      failed, message, warnings, made := false, "", [], [];
      NothingWritten(exec.cfg, w);
      var totalSeen := 0;
      var ended := false;
      var i := 0;
      OnCourseStart(exec.cfg, os, job);
      while i < |channels| && !ended
        invariant 0 <= i <= |channels|
        invariant w.Valid()
        invariant os.stops == old(os.stops)
        invariant Written(w) == Contents(exec.cfg, made)
        invariant warnings == Warnings(exec.cfg, made)
        invariant OnCourse(exec.cfg, os, job, made, i, totalSeen, ended)
        invariant os.honest ==> os.searches == old(os.searches) + Searches(exec.cfg, made)
        invariant LateSearch(old(os.late), os.late, os.cancelled)
        decreases |channels| - i
      {
        ghost var seenBefore, v := totalSeen, Visit("", [], Whole, 0);
        var more;
        failed, message, more, totalSeen, ended, v := VisitChannel(os, w, job, channels[i], totalSeen);
        if failed {
          return;
        }
        warnings := warnings + more;
        OnCourseStep(exec.cfg, os, job, made, i, seenBefore, v);
        VisitsPush(exec.cfg, made, v);
        made := made + [v];
        i := i + 1;
      }
      OnCourseEnd(exec.cfg, os, job, made, i, totalSeen, ended);
    }

    /** Stores the part rows one by one. */
    method StoreParts(parts: seq<Part>) returns (ok: bool, ghost puts: seq<Ack>)
      modifies exec.store`db, exec.store`fates
      ensures exec.store.fates == old(exec.store.fates) + puts && PutsFit(puts, |parts|)
      ensures ok <==> PutsDone(puts)
      ensures exec.store.db == PutAll(old(exec.store.db), parts[..Performed(puts)])
    {
      ghost var db0 := exec.store.db;
      puts := [];
      for i := 0 to |parts|
        invariant |puts| == i && forall k :: 0 <= k < i ==> puts[k] == Done
        invariant exec.store.fates == old(exec.store.fates) + puts
        invariant exec.store.db == PutAll(db0, parts[..i])
      {
        assert Front(parts[..i + 1]) == parts[..i];
        var ack := exec.store.AppendPart(parts[i]);
        puts := puts + [ack];
        if ack != Done {
          return false, puts;
        }
      }
      ok := true;
    }

    /** Fails exactly when a dependency failed or a context check stopped it; otherwise it
        delivers what the specification says. */
    method Run(os: Services, id: TaskId, t: Task, day: string) returns (v: Verdict, ghost puts: seq<Ack>)
      requires exec.cfg.pageSize > 0 && IsSnapshot(os.index)
      modifies os, exec.store`db, exec.store`fates
      ensures os.stops >= old(os.stops) && exec.store.fates == old(exec.store.fates) + puts
      ensures os.stops > old(os.stops) ==> puts == [] && exec.store.db == old(exec.store.db)
      ensures IsVerdict(v, os.stops > old(os.stops) || !PutsDone(puts), false)
      ensures !PutsDone(puts) ==> v.errorMessage == "append part failed"
      ensures os.pits == old(os.pits) || os.pits == old(os.pits) + 1
      ensures os.stops == old(os.stops) || os.searches > old(os.searches) ==> os.pits == old(os.pits) + 1
      ensures exec.store.db.tasks == old(exec.store.db.tasks)
      ensures Others(id, old(exec.store.db), exec.store.db)
      ensures os.stops == old(os.stops) && os.honest ==>
                && var job := JobOf(id, t, day);
                && LeftBehind(exec.cfg, os, job, RowsOf(old(exec.store.db), id), RowsOf(exec.store.db, id), puts, v)
                && os.searches == old(os.searches) + Searches(exec.cfg, RunVisits(exec.cfg, os.index, job))
      ensures LateSearch(old(os.late), os.late, os.cancelled)
    {
      puts := [];
      var ok := os.OpenPIT();
      if !ok {
        return Failure("open pit failed"), puts;
      }
      var failed, message, plan := Produce(os, JobOf(id, t, day));
      if failed {
        return Failure(message), puts;
      }
      ok, puts := StoreParts(plan.parts);
      PutAllRows(old(exec.store.db), id, plan.parts[..Performed(puts)]);
      if !ok {
        return Failure("append part failed"), puts;
      }
      v := Success(plan);
    }

    /** Writes all parts and draws up the plan of what was written. */
    method Produce(os: Services, job: Job) returns (failed: bool, message: string, plan: Plan)
      requires exec.cfg.pageSize > 0 && IsSnapshot(os.index)
      modifies os`objects, os`stops, os`cancelled, os`searches, os`late
      ensures os.stops == old(os.stops) + (if failed then 1 else 0) && (failed ==> message in MESSAGES)
      ensures !failed ==> forall k :: 0 <= k < |plan.parts| ==> plan.parts[k].taskId == job.taskId
      ensures !failed && os.honest ==>
                && plan == RunPlan(exec.cfg, os.index, job)
                && Stored(exec.cfg.codec, os.objects, plan.parts, RunContents(exec.cfg, os.index, job))
                && os.searches == old(os.searches) + Searches(exec.cfg, RunVisits(exec.cfg, os.index, job))
      ensures LateSearch(old(os.late), os.late, os.cancelled)
    {
      hide IsSnapshot;
      plan := Plan([], 0, []);
      var w := new PartWriter(exec.cfg, job, os);
      var warnings;
      ghost var made;
      failed, message, warnings, made := VisitChannels(os, w, job);
      if failed {
        return;
      }
      var ok, parts, written := w.Finish();
      if !ok {
        return true, "finish writer failed", plan;
      }
      plan := Plan(parts, written, warnings);
    }

    /** The life of one task in a worker: register, read, skip or run, write the verdict, and
        on every path unregister and give the slot back. */
    method Process(os: Services, id: TaskId, day: string) returns (ghost f: seq<Ack>)
      requires exec.cfg.pageSize > 0 && IsSnapshot(os.index) && exec.gate.Valid()
      modifies os, exec.store`db, exec.store`fates, exec.gate, exec`cancels
      ensures exec.gate.Valid() && exec.gate.tokens == Max(0, old(exec.gate.tokens) - 1)
      ensures exec.cancels == old(exec.cancels) - {id}
      ensures exec.store.fates == old(exec.store.fates) + f
      ensures Others(id, old(exec.store.db), exec.store.db)
      ensures Processed(exec.cfg, os, id, day, old(exec.store.db), exec.store.db, f, os.stops > old(os.stops))
      ensures LateSearch(old(os.late), os.late, os.cancelled)
    {
      exec.cancels := exec.cancels[id := os];
      f := Attempt(os, id, day);
      exec.cancels := exec.cancels - {id};
      exec.gate.Release();
    }

    /** The part of `process` between registering and the deferred calls. */
    method Attempt(os: Services, id: TaskId, day: string) returns (ghost f: seq<Ack>)
      requires exec.cfg.pageSize > 0 && IsSnapshot(os.index)
      modifies os, exec.store`db, exec.store`fates
      ensures exec.store.fates == old(exec.store.fates) + f
      ensures Others(id, old(exec.store.db), exec.store.db)
      ensures Processed(exec.cfg, os, id, day, old(exec.store.db), exec.store.db, f, os.stops > old(os.stops))
      ensures LateSearch(old(os.late), os.late, os.cancelled)
    {
      hide Concluded, IsSnapshot;
      var ack, t := exec.store.Get(id);
      f := [ack];
      if ack != Done || t.None? {
        return;
      }
      if t.value.status.IsTerminal() {
        return;
      }
      ghost var db0 := exec.store.db;
      ack := exec.store.UpdateStatus(id, Running);
      f := f + [ack];
      ghost var db1 := exec.store.db;
      if ack != Done {
        ack := exec.store.Finalize(id, Failure("update status running failed"));
        f := f + [ack];
        return;
      }
      ghost var rest := RunAndConclude(os, id, t.value, day, db0);
      f := f + rest;
      assert f[2..] == rest;
      OthersTransitive(id, db0, db1, exec.store.db);
    }

    /** Runs the task and writes its verdict. */
    method RunAndConclude(os: Services, id: TaskId, t: Task, day: string, ghost db0: Db) returns (ghost f: seq<Ack>)
      requires exec.cfg.pageSize > 0 && IsSnapshot(os.index)
      requires id in db0.tasks && db0.tasks[id] == t && exec.store.db == SetStatus(db0, id, Running)
      modifies os, exec.store`db, exec.store`fates
      ensures exec.store.fates == old(exec.store.fates) + f && f != []
      ensures Others(id, old(exec.store.db), exec.store.db)
      ensures Concluded(exec.cfg, os, id, day, db0, exec.store.db, f, os.stops > old(os.stops))
      ensures LateSearch(old(os.late), os.late, os.cancelled)
    {
      hide LeftBehind, IsVerdict, IsSnapshot, RunPlan, Others, Conclude, RowsOf, PutsDone;
      ghost var db1 := exec.store.db;
      var v;
      v, f := Run(os, id, t, day);
      ghost var db2, puts, v0 := exec.store.db, f, v;
      v := Decide(os, v, os.stops > old(os.stops) || !PutsDone(puts));
      var ack := exec.store.Finalize(id, v);
      f := puts + [ack];
      assert Front(f) == puts;
      FinalRow(db0, db2, exec.store.db, id, ack, v);
      OthersTransitive(id, db1, db2, exec.store.db);
      if os.stops == old(os.stops) && os.honest && !PutsDone(puts) {
        LeftSoFar(exec.cfg, os, JobOf(id, t, day), RowsOf(db0, id), RowsOf(db2, id), puts, v0, v);
      }
      assert EndsAs(exec.cfg, os, id, day, db0, exec.store.db, Front(f), Last(f), os.stops > old(os.stops), v);
    }

    /** A failed run counts as cancelled when the context is done by now. */
    method Decide(os: Services, v: Verdict, ghost failed: bool) returns (w: Verdict)
      requires IsVerdict(v, failed, false)
      modifies os`cancelled
      ensures IsVerdict(w, failed, os.cancelled) && (!failed || !os.cancelled ==> w == v)
      ensures old(os.cancelled) ==> os.cancelled
    {
      w := v;
      if v.status == Failed {
        os.Interleave();
        if os.cancelled {
          w := Verdict(Cancelled, v.count, v.warnings, "", "");
        }
      }
    }
  }
}
