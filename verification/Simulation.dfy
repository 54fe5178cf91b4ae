/** The imperative `process` of Pipeline.dfy against the worker of Protocol.dfy: undisturbed,
    they leave the same rows, slots and registry behind. */
module Simulation {
  import opened Base
  import opened Types
  import opened Search
  import opened Export
  import opened ExportProperties
  import opened Remote
  import opened Store
  import opened Pipeline
  import opened Protocol
  import opened Safety
  import opened Service
  import Cancel
  import Poll
  import Submit

  // ----- the worker of the protocol, undisturbed -----

  /** On its way through one task the worker stands at `pc`; of the rest of the state only the
      rows, the registry entry and the history differ from the start. */
  predicate OnTheWay(s0: State, s: State, w: nat, id: TaskId, pc: Worker, db: Db, registered: bool) {
    && w < |s0.workers| && s.workers == s0.workers[w := pc] && s.db == db
    && s.gate == s0.gate && s.queue == s0.queue && s.ctxDone == s0.ctxDone && s.down == s0.down
    && s.cancels == (if registered then s0.cancels + {id} else s0.cancels)
  }

  lemma Advance(cfg: Config, s0: State, s: State, w: nat, ack: Ack, pit: Pit) returns (t: State)
    requires Leads(cfg, s0, s) && WorkEnabled(s, w)
    ensures Leads(cfg, s0, t) && t == Work1(cfg, s, w, ack, pit)
  {
    hide Leads, Work1;
    LeadsOn(cfg, s0, s, Work(w, ack, pit));
    t := Apply(cfg, s, Work(w, ack, pit));
  }

  const NO_PIT: Pit := Pit(0, "", Scope("", [], TimeRange(0, 0)))

  /** Register, read, mark running. */
  lemma Begins(cfg: Config, s0: State, w: nat, id: TaskId) returns (s: State)
    requires w < |s0.workers| && s0.workers[w] == Taken(id) && !CtxDone(s0, id) && CanSwitch(s0.db, id)
    ensures Leads(cfg, s0, s) && OnTheWay(s0, s, w, id, Opening(id), SetStatus(s0.db, id, Running), true)
  {
    hide Leads;
    LeadsHere(cfg, s0);
    s := s0;
    for k := 0 to 3
      invariant Leads(cfg, s0, s)
      invariant OnTheWay(s0, s, w, id,
                         match k case 0 => Taken(id) case 1 => Registered(id) case 2 => Loaded(id)
                           case _ => Opening(id),
                         if k < 3 then s0.db else SetStatus(s0.db, id, Running), k > 0)
    {
      s := Advance(cfg, s0, s, w, Done, NO_PIT);
    }
  }

  lemma {:induction false} Pages(cfg: Config, s0: State, s: State, w: nat, id: TaskId, p: Pit, left: nat, db: Db)
    returns (t: State)
    requires Leads(cfg, s0, s) && OnTheWay(s0, s, w, id, Fetching(id, p, left), db, true) && !CtxDone(s0, id)
    ensures Leads(cfg, s0, t) && OnTheWay(s0, t, w, id, Appending(id, p, 0), db, true)
    decreases left
  {
    hide Leads;
    t := Advance(cfg, s0, s, w, Done, p);
    if left > 0 {
      t := Advance(cfg, s0, t, w, Done, p);
      t := Pages(cfg, s0, t, w, id, p, left - 1, db);
    }
  }

  lemma PutOne(db: Db, parts: seq<Part>, k: nat)
    requires k < |parts|
    ensures PutAll(db, parts[..k + 1]) == PutPart(PutAll(db, parts[..k]), parts[k])
  {
    assert Front(parts[..k + 1]) == parts[..k];
  }

  /** What a run decides that could store its parts as `puts` says. */
  function Decided(plan: Plan, puts: seq<Ack>): Verdict {
    if PutsDone(puts) then Success(plan) else GiveUp(AppendFailed)
  }

  /** Stores the parts from the k-th on, as far as the writes go. */
  lemma {:induction false} Puts(cfg: Config, s0: State, s: State, w: nat, id: TaskId, p: Pit, k: nat, db: Db,
                                puts: seq<Ack>)
    returns (t: State)
    requires Leads(cfg, s0, s) && !CtxDone(s0, id)
    requires PutsFit(puts, |cfg.plan(id, p).parts|) && k <= |puts| && (forall i :: 0 <= i < k ==> puts[i] == Done)
    requires OnTheWay(s0, s, w, id, Appending(id, p, k), PutAll(db, cfg.plan(id, p).parts[..k]), true)
    ensures Leads(cfg, s0, t)
    ensures var plan := cfg.plan(id, p);
            OnTheWay(s0, t, w, id, Deciding(id, Decided(plan, puts)), PutAll(db, plan.parts[..Performed(puts)]), true)
    decreases |puts| - k
  {
    hide Leads, PutPart, PutAll;
    var parts := cfg.plan(id, p).parts;
    if k < |puts| {
      t := Advance(cfg, s0, s, w, puts[k], p);
      PutOne(db, parts, k);
      if puts[k] == Done {
        t := Puts(cfg, s0, t, w, id, p, k + 1, db, puts);
      }
    } else {
      t := Advance(cfg, s0, s, w, Done, p);
    }
  }

  /** Both end idle, with the slot returned and the registry entry gone. */
  predicate Returned(s0: State, t: State, w: nat, id: TaskId) {
    && w < |s0.workers| && t.workers == s0.workers[w := Idle] && t.gate == Release(s0).gate
    && t.cancels == s0.cancels - {id} && t.queue == s0.queue
  }

  lemma Leaves(cfg: Config, start: State, s0: State, s: State, w: nat, id: TaskId, db: Db) returns (t: State)
    requires Leads(cfg, start, s) && OnTheWay(s0, s, w, id, Leaving(id), db, true)
    ensures Leads(cfg, start, t) && Returned(s0, t, w, id) && t.db == db
  {
    hide Leads;
    t := Advance(cfg, start, s, w, Done, NO_PIT);
    t := Advance(cfg, start, t, w, Done, NO_PIT);
  }

  /** The verdict that is written: a failure counts as cancelled when the context is done. */
  function Final(v: Verdict, ctx: bool): Verdict {
    if v.status == Failed && ctx then Verdict(Cancelled, v.count, v.warnings, "", "") else v
  }

  /** From the decision to the end. A context that is to be done by now is cut off by a shutdown. */
  lemma Concludes(cfg: Config, s0: State, s: State, w: nat, id: TaskId, v: Verdict, db: Db, ctx: bool, ack: Ack)
    returns (t: State)
    requires Leads(cfg, s0, s) && OnTheWay(s0, s, w, id, Deciding(id, v), db, true) && !CtxDone(s0, id)
    ensures Leads(cfg, s0, t) && Returned(s0, t, w, id)
    ensures t.db == Write(ack, db, SetVerdict(db, id, Final(v, ctx)))
  {
    hide Leads, SetVerdict;
    var s1 := s0;
    t := s;
    if ctx {
      LeadsOn(cfg, s0, s, Shutdown);
      t, s1 := Apply(cfg, s, Shutdown), s0.(down := true);
    }
    t := Advance(cfg, s0, t, w, Done, NO_PIT);
    assert OnTheWay(s1, t, w, id, Finalizing(id, Final(v, ctx)), db, true);
    t := Advance(cfg, s0, t, w, ack, NO_PIT);
    t := Leaves(cfg, s0, s1, t, w, id, Write(ack, db, SetVerdict(db, id, Final(v, ctx))));
  }

  /** The tables after a task that was marked running: some parts stored, the verdict written or
      not. */
  function Ended(db: Db, id: TaskId, parts: seq<Part>, ack: Ack, v: Verdict): Db {
    var put := PutAll(SetStatus(db, id, Running), parts);
    Write(ack, put, SetVerdict(put, id, v))
  }

  /** A worker whose run gets as far as storing parts, whatever becomes of the writes. */
  lemma WorkerRuns(cfg: Config, s: State, w: nat, id: TaskId, pit: Pit, puts: seq<Ack>, ctx: bool, ack: Ack)
    returns (t: State)
    requires w < |s.workers| && s.workers[w] == Taken(id) && !CtxDone(s, id) && CanSwitch(s.db, id)
    requires PutsFit(puts, |cfg.plan(id, PitFor(s.db, id, pit)).parts|)
    ensures Leads(cfg, s, t) && Returned(s, t, w, id)
    ensures var plan := cfg.plan(id, PitFor(s.db, id, pit));
            t.db == Ended(s.db, id, plan.parts[..Performed(puts)], ack, Final(Decided(plan, puts), ctx))
  {
    hide Leads, Returned, PutAll, SetVerdict;
    var p, db := PitFor(s.db, id, pit), SetStatus(s.db, id, Running);
    var plan := cfg.plan(id, p);
    t := Begins(cfg, s, w, id);
    t := Advance(cfg, s, t, w, Done, pit);
    assert OnTheWay(s, t, w, id, Fetching(id, p, cfg.searches(id, p)), db, true);
    hide OnTheWay;
    t := Pages(cfg, s, t, w, id, p, cfg.searches(id, p), db);
    assert plan.parts[..0] == [];
    PutNone(db);
    t := Puts(cfg, s, t, w, id, p, 0, db, puts);
    t := Concludes(cfg, s, t, w, id, Decided(plan, puts), PutAll(db, plan.parts[..Performed(puts)]), ctx, ack);
  }

  lemma PutNone(db: Db)
    ensures PutAll(db, []) == db
  {
  }

  /** A worker whose run is stopped before it stores a part. */
  lemma WorkerStops(cfg: Config, s: State, w: nat, id: TaskId, ctx: bool, ack: Ack) returns (t: State)
    requires w < |s.workers| && s.workers[w] == Taken(id) && !CtxDone(s, id) && CanSwitch(s.db, id)
    ensures Leads(cfg, s, t) && Returned(s, t, w, id)
    ensures t.db == Ended(s.db, id, [], ack, Final(GiveUp(OpenRefused), ctx))
  {
    hide Leads, Returned, SetVerdict, SetStatus;
    var db := SetStatus(s.db, id, Running);
    PutNone(db);
    t := Begins(cfg, s, w, id);
    t := Advance(cfg, s, t, w, Refused, NO_PIT);
    t := Concludes(cfg, s, t, w, id, GiveUp(OpenRefused), db, ctx, ack);
  }

  /** A worker whose mark reports an error. */
  lemma WorkerUnmarked(cfg: Config, s: State, w: nat, id: TaskId, ack: Ack, ack': Ack) returns (t: State)
    requires w < |s.workers| && s.workers[w] == Taken(id) && !CtxDone(s, id) && CanSwitch(s.db, id) && ack != Done
    ensures Leads(cfg, s, t) && Returned(s, t, w, id)
    ensures var marked := Write(ack, s.db, SetStatus(s.db, id, Running));
            t.db == Write(ack', marked, SetVerdict(marked, id, GiveUp(MarkRefused)))
  {
    hide Leads, SetVerdict, SetStatus;
    LeadsHere(cfg, s);
    t := Advance(cfg, s, s, w, Done, NO_PIT);
    t := Advance(cfg, s, t, w, Done, NO_PIT);
    t := Advance(cfg, s, t, w, ack, NO_PIT);
    t := Advance(cfg, s, t, w, ack', NO_PIT);
    var db := t.db;
    t := Leaves(cfg, s, s, t, w, id, db);
  }

  /** A worker that cannot read its task, or finds no open row, leaves everything as it is. */
  lemma WorkerSkips(cfg: Config, s: State, w: nat, id: TaskId, ack: Ack) returns (t: State)
    requires w < |s.workers| && s.workers[w] == Taken(id) && !CtxDone(s, id)
    requires ack != Done || !CanSwitch(s.db, id)
    ensures Leads(cfg, s, t) && Returned(s, t, w, id) && t.db == s.db
  {
    hide Leads;
    LeadsHere(cfg, s);
    t := Advance(cfg, s, s, w, Done, NO_PIT);
    t := Advance(cfg, s, t, w, ack, NO_PIT);
    t := Leaves(cfg, s, s, t, w, id, s.db);
  }

  /** A worker nobody disturbs exports its task. */
  lemma WorkerExports(cfg: Config, s: State, w: nat, id: TaskId, pit: Pit) returns (t: State)
    requires w < |s.workers| && s.workers[w] == Taken(id) && !CtxDone(s, id) && CanSwitch(s.db, id)
    ensures Leads(cfg, s, t) && Returned(s, t, w, id)
    ensures t.db == Exported(s.db, id, cfg.plan(id, PitFor(s.db, id, pit)))
  {
    hide Leads, Returned, PutAll, SetVerdict, SetStatus;
    var parts := cfg.plan(id, PitFor(s.db, id, pit)).parts;
    var puts: seq<Ack> := seq(|parts|, _ => Done);
    t := WorkerRuns(cfg, s, w, id, pit, puts, false, Done);
    assert parts[..Performed(puts)] == parts;
  }

  // ----- the imperative worker -----

  /** Tables that agree with the ones before outside of one task, and with each other in it. */
  lemma SameTables(db0: Db, a: Db, b: Db, id: TaskId)
    requires id in db0.tasks && Others(id, db0, a) && Others(id, db0, b)
    requires a.tasks[id] == b.tasks[id] && RowsOf(a, id) == RowsOf(b, id)
    ensures SameDb(a, b)
  {
    hide RowsOf;
    assert a.tasks.Keys == b.tasks.Keys;
    forall other | other in a.tasks
      ensures a.tasks[other] == b.tasks[other]
    {
    }
    assert a.tasks == b.tasks;
    forall other: TaskId
      ensures RowsOf(a, other) == RowsOf(b, other)
    {
      assert other != id ==> RowsOf(a, other) == RowsOf(db0, other);
    }
  }

  lemma EndedRows(db: Db, id: TaskId, parts: seq<Part>, ack: Ack, v: Verdict)
    requires id in db.tasks && forall k :: 0 <= k < |parts| ==> parts[k].taskId == id
    ensures var out := Ended(db, id, parts, ack, v);
            && Others(id, db, out) && RowsOf(out, id) == UpsertAll(RowsOf(db, id), parts)
            && out.tasks[id] == if ack == Refused then db.tasks[id].(status := Running) else Conclude(db.tasks[id], v)
  {
    hide UpsertAll, PutAll, Conclude, RowsOf;
    var marked := SetStatus(db, id, Running);
    var put := PutAll(marked, parts);
    PutAllRows(marked, id, parts);
    FinalRow(db, put, Ended(db, id, parts, ack, v), id, ack, v);
    MarkedOthers(db, id);
    assert Others(id, marked, put);
    OthersTransitive(id, db, marked, put);
    OthersTransitive(id, db, put, Ended(db, id, parts, ack, v));
  }

  lemma MarkedOthers(db: Db, id: TaskId)
    ensures Others(id, db, SetStatus(db, id, Running))
  {
  }

  /** The verdicts of the two workers are the same, but for the words about a run that stopped. */
  lemma SameVerdict(cfg: Settings, os: Services, job: Job, rows0: seq<Part>, rows: seq<Part>, puts: seq<Ack>,
                    v: Verdict, stopped: bool)
    requires IsVerdict(v, stopped || !PutsDone(puts), os.cancelled)
    requires stopped ==> puts == []
    requires !stopped ==> LeftBehind(cfg, os, job, rows0, rows, puts, v)
    requires !stopped && !PutsDone(puts) && !os.cancelled ==> v.errorMessage == "append part failed"
    ensures !stopped ==> v == Final(Decided(RunPlan(cfg, os.index, job), puts), os.cancelled)
    ensures stopped && os.cancelled ==> v == Final(GiveUp(OpenRefused), os.cancelled)
    ensures stopped && !os.cancelled ==> v == GiveUp(OpenRefused).(errorMessage := v.errorMessage)
  {
    hide RunPlan, UpsertAll, Stored;
  }

  /** The tables after a run that ended so are those of a worker that stored the same parts and
      wrote the same verdict. */
  lemma EndsSame(cfg: Settings, os: Services, id: TaskId, day: string, db0: Db, db: Db, puts: seq<Ack>, ack: Ack,
                 stopped: bool, v: Verdict)
    requires id in db0.tasks && os.honest && Others(id, db0, db)
    requires EndsAs(cfg, os, id, day, db0, db, puts, ack, stopped, v)
    ensures var plan := RunPlan(cfg, os.index, JobOf(id, db0.tasks[id], day));
            && (!stopped ==> PutsFit(puts, |plan.parts|))
            && SameDb(db, Ended(db0, id, if stopped then [] else plan.parts[..Performed(puts)], ack, v))
  {
    hide RunPlan, UpsertAll, Stored, IsVerdict, Conclude, RowsOf, Ended, SameDb, Others;
    var plan := RunPlan(cfg, os.index, JobOf(id, db0.tasks[id], day));
    PlanWellFormed(cfg, os.index, JobOf(id, db0.tasks[id], day));
    var parts := if stopped then [] else plan.parts[..Performed(puts)];
    UpsertNone(RowsOf(db0, id));
    EndedRows(db0, id, parts, ack, v);
    SameTables(db0, db, Ended(db0, id, parts, ack, v), id);
  }

  lemma UpsertNone(rows: seq<Part>)
    ensures UpsertAll(rows, []) == rows
  {
  }

  /** What `Process` promises for an undisturbed task is the export of its plan. */
  lemma ProcessExports(cfg: Settings, os: Services, id: TaskId, day: string, db0: Db, db: Db, f: seq<Ack>)
    requires CanSwitch(db0, id) && os.honest && Others(id, db0, db)
    requires Processed(cfg, os, id, day, db0, db, f, false) && AllDone(f)
    ensures SameDb(db, Exported(db0, id, RunPlan(cfg, os.index, JobOf(id, db0.tasks[id], day))))
  {
    var rest := f[2..];
    assert Concluded(cfg, os, id, day, db0, db, rest, false);
    var v: Verdict :| EndsAs(cfg, os, id, day, db0, db, Front(rest), Last(rest), false, v);
    hide Concluded, Others, UpsertAll, PutAll, Success, Conclude, RowsOf, SameDb, Stored;
    EndsSame(cfg, os, id, day, db0, db, Front(rest), Done, false, v);
    hide RunPlan;
    var plan := RunPlan(cfg, os.index, JobOf(id, db0.tasks[id], day));
    assert plan.parts[..Performed(Front(rest))] == plan.parts;
  }

  /** The same tables, but for what the row of one task says about its failure. */
  ghost predicate SameButText(a: Db, b: Db, id: TaskId) {
    && a.tasks.Keys == b.tasks.Keys && (forall other: TaskId :: RowsOf(a, other) == RowsOf(b, other))
    && forall other :: other in a.tasks ==>
         var x, y := a.tasks[other], b.tasks[other];
         x == if other == id then y.(errorMessage := x.errorMessage) else y
  }

  lemma Reworded(db0: Db, a: Db, id: TaskId, parts: seq<Part>, ack: Ack, v: Verdict, w: Verdict)
    requires id in db0.tasks && forall k :: 0 <= k < |parts| ==> parts[k].taskId == id
    requires SameDb(a, Ended(db0, id, parts, ack, v)) && v == w.(errorMessage := v.errorMessage)
    ensures SameButText(a, Ended(db0, id, parts, ack, w), id)
  {
    hide RowsOf, Ended, UpsertAll;
    EndedRows(db0, id, parts, ack, v);
    EndedRows(db0, id, parts, ack, w);
    var b, c := Ended(db0, id, parts, ack, v), Ended(db0, id, parts, ack, w);
    forall other: TaskId
      ensures RowsOf(a, other) == RowsOf(c, other)
    {
      assert RowsOf(a, other) == RowsOf(b, other);
      assert other != id ==> RowsOf(b, other) == RowsOf(db0, other) == RowsOf(c, other);
    }
  }

  /** Whatever a process has left behind that was marked running, some run of the worker has. */
  lemma ConcludedIsARun(world: World, caps: (nat, nat), os: Services, at: nat, s: State, w: nat, id: TaskId,
                        day: string, db: Db, puts: seq<Ack>, ack: Ack, stopped: bool, v: Verdict)
    returns (t: State)
    requires world.settings.pageSize > 0 && world.index(at) == os.index && os.honest
    requires w < |s.workers| && s.workers[w] == Taken(id) && !CtxDone(s, id) && CanSwitch(s.db, id)
    requires Others(id, s.db, db) && EndsAs(world.settings, os, id, day, s.db, db, puts, ack, stopped, v)
    ensures Leads(ServiceConfig(world, caps.0, caps.1), s, t) && Returned(s, t, w, id)
    ensures if stopped && !os.cancelled then SameButText(db, t.db, id) else SameDb(db, t.db)
  {
    var cfg, pit := ServiceConfig(world, caps.0, caps.1), Pit(at, day, Scope("", [], TimeRange(0, 0)));
    var job := JobOf(id, s.db.tasks[id], day);
    var plan := RunPlan(world.settings, os.index, job);
    assert cfg.plan(id, PitFor(s.db, id, pit)) == plan;
    hide Leads, RunPlan, UpsertAll, PutAll, Stored, RowsOf, SameDb, Returned, Others, ServiceConfig, Ended, Conclude;
    hide SetVerdict, SetStatus, IsVerdict, LeftBehind, SameButText;
    EndsSame(world.settings, os, id, day, s.db, db, puts, ack, stopped, v);
    SameVerdict(world.settings, os, job, RowsOf(s.db, id), RowsOf(db, id), puts, v, stopped);
    if stopped {
      t := WorkerStops(cfg, s, w, id, os.cancelled, ack);
      if !os.cancelled {
        Reworded(s.db, db, id, [], ack, v, GiveUp(OpenRefused));
      }
    } else {
      t := WorkerRuns(cfg, s, w, id, pit, puts, os.cancelled, ack);
    }
  }

  /** The same for every process. */
  lemma ProcessedIsARun(world: World, caps: (nat, nat), os: Services, at: nat, s: State, w: nat, id: TaskId,
                        day: string, db: Db, f: seq<Ack>, stopped: bool)
    returns (t: State)
    requires world.settings.pageSize > 0 && world.index(at) == os.index && os.honest
    requires w < |s.workers| && s.workers[w] == Taken(id) && !CtxDone(s, id)
    requires Others(id, s.db, db) && Processed(world.settings, os, id, day, s.db, db, f, stopped)
    ensures Leads(ServiceConfig(world, caps.0, caps.1), s, t) && Returned(s, t, w, id)
    ensures if stopped && !os.cancelled then SameButText(db, t.db, id) else SameDb(db, t.db)
  {
    hide Leads, EndsAs, Returned, Others, ServiceConfig;
    var cfg := ServiceConfig(world, caps.0, caps.1);
    if f[0] != Done || !CanSwitch(s.db, id) {
      t := WorkerSkips(cfg, s, w, id, f[0]);
    } else if f[1] != Done {
      t := WorkerUnmarked(cfg, s, w, id, f[1], f[2]);
    } else {
      var rest := f[2..];
      var v: Verdict :| EndsAs(world.settings, os, id, day, s.db, db, Front(rest), Last(rest), stopped, v);
      t := ConcludedIsARun(world, caps, os, at, s, w, id, day, db, Front(rest), Last(rest), stopped, v);
    }
  }

  /** The two descriptions of a worker agree, whatever fails: against an index that answers
      honestly, each outcome of `Process` - of its reads, its writes, its searches and uploads and
      its looks at the context - is the outcome of a run of the protocol from the same state,
      which takes the same worker through the same task and ends with the same rows, the same gate
      and the same registry. Only the words about a run that stopped may differ. */
  method ProcessIsARun(runner: Runner, os: Services, id: TaskId, day: string, ghost world: World, ghost at: nat,
                       ghost caps: (nat, nat), ghost s: State, ghost w: nat)
    returns (ghost t: State)
    requires runner.exec.cfg.pageSize > 0 && IsSnapshot(os.index) && runner.exec.gate.Valid()
    requires world.settings == runner.exec.cfg && world.index(at) == os.index
    requires w < |s.workers| && s.workers[w] == Taken(id) && !CtxDone(s, id)
    requires s.db == runner.exec.store.db && s.gate == runner.exec.gate.tokens
    requires s.cancels == runner.exec.cancels.Keys
    modifies os, runner.exec.store, runner.exec.gate, runner.exec`cancels
    ensures os.honest ==>
              && Leads(ServiceConfig(world, caps.0, caps.1), s, t) && Returned(s, t, w, id)
              && runner.exec.gate.tokens == t.gate && runner.exec.cancels.Keys == t.cancels
              && if os.stops > old(os.stops) && !os.cancelled then SameButText(runner.exec.store.db, t.db, id)
                 else SameDb(runner.exec.store.db, t.db)
  {
    hide Leads, Processed, IsSnapshot, Others, ServiceConfig, SameDb, SameButText;
    ghost var f := runner.Process(os, id, day);
    t := s;
    if os.honest {
      t := ProcessedIsARun(world, caps, os, at, s, w, id, day, runner.exec.store.db, f, os.stops > old(os.stops));
    }
  }

  // ----- submissions, cancels and polls -----

  lemma Submits(cfg: Config, s0: State, s: State, i: nat, ack: Ack, id: TaskId) returns (t: State)
    requires Leads(cfg, s0, s) && SubmitEnabled(cfg, s, i, ack, id)
    ensures Leads(cfg, s0, t) && t == Submit1(cfg, s, i, ack, id)
  {
    hide Leads, Submit1;
    LeadsOn(cfg, s0, s, Protocol.Step.Submit(i, ack, id));
    t := Apply(cfg, s, Protocol.Step.Submit(i, ack, id));
  }

  /** Of the rest of the state only gate, queue, rows and the history differ from the start. */
  predicate Submitting(s0: State, s: State, i: nat, pc: Protocol.Submitter, gate: nat, queue: seq<TaskId>, db: Db) {
    && i < |s0.submitters| && s.submitters == s0.submitters[i := pc] && s.cancels == s0.cancels
    && s.gate == gate && s.queue == queue && s.db == db
  }

  /** A submitter that is given no slot. */
  lemma SubmitterGivesUp(cfg: Config, s: State, i: nat, row: Task) returns (t: State)
    requires i < |s.submitters| && s.submitters[i] == Acquiring(row)
    ensures Leads(cfg, s, t) && Submitting(s, t, i, Answered(None), s.gate, s.queue, s.db)
  {
    hide Leads;
    LeadsHere(cfg, s);
    t := Submits(cfg, s, s, i, Refused, "");
  }

  /** A submitter that is given a slot, whatever becomes of its writes `f`. */
  lemma SubmitterEnds(cfg: Config, s: State, i: nat, row: Task, id: TaskId, f: seq<Ack>, db: Db) returns (t: State)
    requires i < |s.submitters| && s.submitters[i] == Acquiring(row) && row.status == Queued
    requires s.gate < cfg.gateCap && f != [] && (f[0] != Done ==> |f| == 1)
    requires Submit.Undisturbed(s.db, db, row, id, |s.queue| < cfg.queueCap, f)
    ensures Leads(cfg, s, t)
    ensures if f == [Done] then Submitting(s, t, i, Answered(Some(id)), s.gate + 1, s.queue + [id], db)
            else Submitting(s, t, i, Answered(None), s.gate, s.queue, db)
  {
    hide Leads, SetVerdict;
    LeadsHere(cfg, s);
    t := Submits(cfg, s, s, i, Done, id);
    assert Submitting(s, t, i, Holding(id, row), s.gate + 1, s.queue, s.db);
    t := Submits(cfg, s, t, i, f[0], id);
    var created := Write(f[0], s.db, Insert(s.db, id, row));
    assert row.(status := Queued) == row;
    assert Submitting(s, t, i, if f[0] == Done then Created(id) else Undoing, s.gate + 1, s.queue, created);
    t := Submits(cfg, s, t, i, Done, id);
    if f[0] == Done && |s.queue| >= cfg.queueCap {
      assert Submitting(s, t, i, Full(id), s.gate + 1, s.queue, created);
      t := Submits(cfg, s, t, i, Done, id);
      assert Submitting(s, t, i, Rejecting(id), s.gate, s.queue, created);
      t := Submits(cfg, s, t, i, f[1], id);
    }
  }

  /** Did the submission get as far as asking for a slot? */
  ghost predicate Arrives(sub: Submit.Submitter, index: seq<Doc>, req: Submit.Request, outages0: nat)
    reads sub`outages
  {
    && Submit.Validate(req) == None && sub.outages == outages0
    && CountSum(index, Submit.RequestJob(req), req.channels) <= sub.maxTaskHits
  }

  /** A submission that asks for a slot, with nobody interfering, is a run of a submitter to the
      same answer, gate, queue and rows, whichever of its calls fail. */
  method SubmitIsARun(sub: Submit.Submitter, index: seq<Doc>, caller: string, requestId: string, req: Submit.Request,
                      now: nat, rnd: seq<byte>, ctxDone: bool, ghost cfg: Config, ghost s: State, ghost i: nat)
    returns (r: Submit.Answer, ghost t: State)
    requires sub.gate.Valid() && |rnd| == 16
    requires cfg.gateCap == sub.gate.capacity && cfg.queueCap == sub.exec.queueBuffer
    requires i < |s.submitters| && s.submitters[i] == Acquiring(Submit.NewRow(caller, requestId, req, 0))
    requires s.gate == sub.gate.tokens && s.db == sub.exec.store.db && s.queue == sub.exec.queue
    modifies sub`outages, sub.gate, sub.exec.store, sub.exec`queue
    ensures Arrives(sub, index, req, old(sub.outages)) && sub.exec.store.foreign == old(sub.exec.store.foreign) ==>
              && Leads(cfg, s, t)
              && Submitting(s, t, i, Answered(if r.Accepted? then Some(r.id) else None),
                            sub.gate.tokens, sub.exec.queue, sub.exec.store.db)
  {
    hide Leads;
    ghost var id, made, f;
    r, id, made, f := sub.Submit(index, caller, requestId, req, now, rnd, ctxDone);
    t := s;
    if Arrives(sub, index, req, old(sub.outages)) && sub.exec.store.foreign == old(sub.exec.store.foreign) {
      if f == [] {
        t := SubmitterGivesUp(cfg, s, i, Submit.NewRow(caller, requestId, req, 0));
      } else {
        t := SubmitterEnds(cfg, s, i, Submit.NewRow(caller, requestId, req, 0), id, f, sub.exec.store.db);
      }
    }
  }

  lemma Cancels(cfg: Config, s0: State, s: State, c: nat, ack: Ack) returns (t: State)
    requires Leads(cfg, s0, s) && CancelEnabled(s, c)
    ensures Leads(cfg, s0, t) && t == Cancel1(s, c, ack)
  {
    hide Leads, Cancel1;
    LeadsOn(cfg, s0, s, Protocol.Step.Cancel(c, ack));
    t := Apply(cfg, s, Protocol.Step.Cancel(c, ack));
  }

  /** What a canceller of the protocol answers. */
  function ReplyOf(r: Cancel.Outcome): Reply {
    match r
    case NotFound => Reply.NotFound
    case Failure => Reply.Error
    case Is(st) => Reply.Is(st)
  }

  /** A canceller nobody overtakes, whatever becomes of its calls `f`. */
  lemma CancellerEnds(cfg: Config, s: State, c: nat, id: TaskId, caller: string, r: Cancel.Outcome, switched: bool,
                      f: seq<Ack>, db: Db)
    returns (t: State)
    requires c < |s.cancellers| && s.cancellers[c] == Looking(id, caller)
    requires Cancel.Undisturbed(s.db, db, id, caller, r, switched, f)
    ensures Leads(cfg, s, t) && t.cancels == s.cancels && t.db == db
    ensures t.cancellers == s.cancellers[c := Told(id, caller, ReplyOf(r))]
    ensures switched ==> id in t.signalled && (id in s.cancels ==> id in t.ctxDone)
  {
    hide Leads;
    LeadsHere(cfg, s);
    t := Cancels(cfg, s, s, c, f[0]);
    if |f| == 2 {
      t := Cancels(cfg, s, t, c, f[1]);
      if switched {
        t := CancellerSignals(cfg, s, t, c, id, caller);
      }
    }
  }

  lemma CancellerSignals(cfg: Config, s0: State, s: State, c: nat, id: TaskId, caller: string) returns (t: State)
    requires Leads(cfg, s0, s) && c < |s.cancellers| && s.cancellers[c] == Signalling(id, caller)
    ensures Leads(cfg, s0, t) && t.cancels == s.cancels && t.db == s.db
    ensures t.cancellers == s.cancellers[c := Told(id, caller, Is(Cancelled))]
    ensures id in t.signalled && (id in s.cancels ==> id in t.ctxDone)
  {
    hide Leads;
    t := Cancels(cfg, s0, s, c, Done);
    if id in s.cancels {
      t := Cancels(cfg, s0, t, c, Done);
    }
  }

  /** A cancel with nobody interfering is a run of a canceller to the same answer, rows and
      registry, and with the same context cancelled, whichever of its calls fail. */
  method CancelIsARun(canceller: Cancel.Canceller, id: TaskId, caller: string, ghost cfg: Config, ghost s: State,
                      ghost c: nat)
    returns (r: Cancel.Outcome, ghost t: State)
    requires c < |s.cancellers| && s.cancellers[c] == Looking(id, caller)
    requires s.db == canceller.exec.store.db && s.cancels == canceller.exec.cancels.Keys
    modifies canceller.exec.store, canceller.exec`cancels, canceller.exec.cancels.Values`cancelled
    ensures canceller.exec.store.foreign == old(canceller.exec.store.foreign) ==>
              && Leads(cfg, s, t) && t.cancellers == s.cancellers[c := Told(id, caller, ReplyOf(r))]
              && t.db == canceller.exec.store.db && t.cancels == canceller.exec.cancels.Keys
              && (r.Is? && CanSwitch(s.db, id) && id in canceller.exec.cancels ==>
                    id in t.ctxDone && canceller.exec.cancels[id].cancelled)
  {
    hide Leads;
    var switched;
    ghost var f;
    r, switched, f := canceller.Cancel(id, caller);
    t := s;
    if canceller.exec.store.foreign == old(canceller.exec.store.foreign) {
      t := CancellerEnds(cfg, s, c, id, caller, r, switched, f, canceller.exec.store.db);
    }
  }

  /** What a poller nobody overtakes is shown when its reads end as `f`. */
  function Seen(db: Db, id: TaskId, caller: string, f: seq<Ack>): Answer {
    if f == [] || f[0] != Done then Trouble
    else if !Owns(db, id, caller) then NoTask
    else if !db.tasks[id].status.IsPublished() then Progress(db.tasks[id])
    else if |f| < 2 || f[1] != Done then Trouble
    else Delivered(db.tasks[id], RowsOf(db, id))
  }

  lemma PollerAnswers(cfg: Config, s: State, i: nat, id: TaskId, caller: string, f: seq<Ack>) returns (t: State)
    requires i < |s.pollers| && s.pollers[i] == Asking(id, caller) && f != []
    requires |f| == if f[0] == Done && Owns(s.db, id, caller) && s.db.tasks[id].status.IsPublished() then 2 else 1
    ensures Leads(cfg, s, t) && t.db == s.db && i < |t.pollers| && t.pollers[i].Shown?
    ensures t.pollers == s.pollers[i := t.pollers[i]] && t.pollers[i].answer == Seen(s.db, id, caller, f)
  {
    hide Leads;
    LeadsHere(cfg, s);
    LeadsOn(cfg, s, s, Protocol.Step.Poll(i, f[0]));
    t := Apply(cfg, s, Protocol.Step.Poll(i, f[0]));
    if |f| == 2 {
      LeadsOn(cfg, s, t, Protocol.Step.Poll(i, f[1]));
      t := Apply(cfg, t, Protocol.Step.Poll(i, f[1]));
    }
  }

  /** The response a poll sends for what its poller has been shown; a link that cannot be signed
      spoils the answer. */
  predicate Sends(h: Poll.Handler, r: Poll.Response, answer: Answer) {
    match answer
    case NoTask => r == Poll.Response.NotFound
    case Trouble => r == Poll.Response.Error
    case Progress(row) =>
      && r.Shown? && r.status == row.status && r.count == None && r.parts == None && r.warnings == []
      && r.errorCode == (if row.status == Failed then row.errorCode else "")
      && r.errorMessage == (if row.status == Failed then row.errorMessage else "")
    case Delivered(row, parts) =>
      if forall k :: 0 <= k < |parts| ==> h.presign(parts[k].s3Key).Some? then
        && r.Shown? && r.status == row.status && r.count == Some(row.actualCount) && r.warnings == row.warnings
        && r.errorCode == "" && r.errorMessage == ""
        && r.parts.Some? && |r.parts.value| == |parts|
        && forall k :: 0 <= k < |parts| ==> h.Renders(r.parts.value[k], parts[k])
      else r == Poll.Response.Error
  }

  /** A poll with nobody interfering is a run of a poller, and sends what that poller is shown,
      whichever of its reads fail. */
  method PollIsARun(handler: Poll.Handler, id: TaskId, caller: string, ghost cfg: Config, ghost s: State, ghost i: nat)
    returns (r: Poll.Response, ghost t: State)
    requires i < |s.pollers| && s.pollers[i] == Asking(id, caller) && s.db == handler.store.db
    modifies handler.store
    ensures handler.store.foreign == old(handler.store.foreign) ==>
              && Leads(cfg, s, t) && t.db == handler.store.db
              && i < |t.pollers| && t.pollers[i].Shown? && Sends(handler, r, t.pollers[i].answer)
  {
    hide Leads;
    ghost var f;
    r, f := handler.HandleGet(id, caller);
    t := s;
    if handler.store.foreign == old(handler.store.foreign) {
      t := PollerAnswers(cfg, s, i, id, caller, f);
    }
  }

  // ----- from the request to the row, and from the row to the answer -----

  /** The row of a submission asks the worker for what the request names, and starts out empty
      whatever was estimated. */
  lemma AcceptedJob(db: Db, id: TaskId, caller: string, requestId: string, req: Submit.Request, estimate: nat,
                    day: string)
    requires id !in db.tasks
    ensures var db' := Insert(db, id, Submit.NewRow(caller, requestId, req, estimate));
            && id in db'.tasks && JobOf(id, db'.tasks[id], day) == Job(id, caller, day, req.channels, req.range)
            && Owns(db', id, caller) && db'.tasks[id].requestId == requestId
            && db'.tasks[id].status == Queued && db'.tasks[id].actualCount == 0 && db'.tasks[id].warnings == []
            && db'.tasks[id].errorCode == "" && db'.tasks[id].errorMessage == ""
            && db'.parts == db.parts && forall other :: other in db.tasks ==>
                 other in db'.tasks && db'.tasks[other] == db.tasks[other]
  {
  }

  /** What a poll sends once the verdict of a run is in the row: the code and the words of a
      failure, count and warnings of a success, neither for a cancelled task. */
  lemma VerdictShown(h: Poll.Handler, r: Poll.Response, t: Task, plan: Plan, message: string, parts: seq<Part>)
    ensures Sends(h, r, Progress(Conclude(t, Failure(message)))) ==>
              r.Shown? && r.status == Failed && r.errorCode == "internal_error" && r.errorMessage == message
              && r.count == None && r.parts == None
    ensures Sends(h, r, Progress(Conclude(t, QueueFull()))) ==>
              r.Shown? && r.status == Failed && r.errorCode == "service_degraded" && r.errorMessage == "queue full"
    ensures Sends(h, r, Progress(Conclude(t, Verdict(Cancelled, 0, [], "", "")))) ==>
              r.Shown? && r.status == Cancelled && r.errorCode == "" && r.errorMessage == "" && r.parts == None
    ensures Sends(h, r, Delivered(Conclude(t, Success(plan)), parts)) && r.Shown? ==>
              && r.status == (if plan.warnings == [] then Completed else Partial)
              && r.count == Some(plan.count) && r.warnings == plan.warnings
              && r.errorCode == "" && r.errorMessage == ""
    ensures forall v: Verdict :: ScopeOf(Conclude(t, v)) == ScopeOf(t) && Conclude(t, v).requestId == t.requestId
  {
  }
}
