/** Runs that show which comforting statements are false, for every configuration: a cancelled
    task can still be published, and a queue smaller than the gate does fill up. */
module Witness {
  import opened Base
  import opened Types
  import opened Store
  import opened Protocol
  import opened Safety

  /** The label of steps that open nothing. */
  const NO_PIT := Pit(0, "", Scope("", [], TimeRange(0, 0)))

  function Fresh(workers: seq<Worker>): State {
    State(0, [], {}, {}, false, Db(map[], map[]), workers, [], [], [], [], map[], map[], {}, {}, multiset{}, {})
  }

  lemma FreshReachable(cfg: Config, workers: seq<Worker>)
    requires ConfigOk(cfg) && workers != [] && forall w :: 0 <= w < |workers| ==> workers[w] == Idle
    ensures Reachable(cfg, Fresh(workers))
  {
    hide ConfigOk;
    assert IsExecution(cfg, [Fresh(workers)], []);
    assert Last([Fresh(workers)]) == Fresh(workers);
  }

  lemma Extend(cfg: Config, s: State, step: Step)
    requires Reachable(cfg, s) && Enabled(cfg, s, step)
    ensures Reachable(cfg, Apply(cfg, s, step))
  {
    hide ConfigOk, Enabled, Apply, Init;
    var ss: seq<State>, steps: seq<Step> :| IsExecution(cfg, ss, steps) && Last(ss) == s;
    var ss', steps' := ss + [Apply(cfg, s, step)], steps + [step];
    forall i | 0 <= i < |steps'|
      ensures Moves(cfg, ss', steps', i)
    {
      assert i < |steps| ==> Moves(cfg, ss, steps, i);
    }
    assert ss'[0] == ss[0];
    assert IsExecution(cfg, ss', steps');
    assert Last(ss') == Apply(cfg, s, step);
  }

  // ----- a cancelled task that is published -----

  /** One worker, at a given point; nobody else is around. */
  predicate Alone(s: State, pc: Worker, id: TaskId, caller: string) {
    && s.workers == [pc] && !s.down && id in s.db.tasks && s.db.tasks[id].caller == caller
  }

  predicate BeforeCancel(s: State, id: TaskId) {
    s.cancellers == [] && s.ctxDone == {} && id in s.db.tasks && !s.db.tasks[id].status.IsTerminal()
  }

  predicate AfterCancel(s: State, id: TaskId, caller: string) {
    s.cancellers == [Canceller.Told(id, caller, Is(Cancelled))] && id in s.signalled
  }

  lemma Accepted(cfg: Config, workers: seq<Worker>, row: Task, id: TaskId) returns (s: State)
    requires ConfigOk(cfg) && workers != [] && forall w :: 0 <= w < |workers| ==> workers[w] == Idle
    ensures Reachable(cfg, s) && s.workers == workers && !s.down && s.queue == [id]
    ensures BeforeCancel(s, id) && ScopeOf(s.db.tasks[id]) == ScopeOf(row)
  {
    FreshReachable(cfg, workers);
    assert cfg.gateCap > 0 && cfg.queueCap > 0;
    hide ConfigOk, Reachable;
    s := Fresh(workers);
    Extend(cfg, s, Arrive(row));
    s := Apply(cfg, s, Arrive(row));
    for k := 0 to 3
      invariant Reachable(cfg, s) && s.workers == workers && !s.down && s.cancellers == [] && s.ctxDone == {}
      invariant k == 0 ==> s.submitters == [Acquiring(row)] && s.gate == 0 && s.queue == [] && s.db.tasks == map[]
      invariant k == 1 ==> s.submitters == [Holding(id, row)] && s.queue == [] && s.db.tasks == map[]
      invariant k == 2 ==> s.submitters == [Created(id)] && s.queue == []
      invariant k >= 2 ==> BeforeCancel(s, id) && ScopeOf(s.db.tasks[id]) == ScopeOf(row)
      invariant k == 3 ==> s.queue == [id]
    {
      Extend(cfg, s, Submit(0, Done, id));
      s := Apply(cfg, s, Submit(0, Done, id));
    }
  }

  /** The worker takes the task, reads it, marks it running and opens a point in time. */
  lemma Opened(cfg: Config, row: Task, id: TaskId, pit: Pit) returns (s: State)
    requires ConfigOk(cfg) && pit.scope == ScopeOf(row)
    ensures Reachable(cfg, s) && Alone(s, Fetching(id, pit, cfg.searches(id, pit)), id, row.caller)
    ensures BeforeCancel(s, id) && id in s.cancels
  {
    s := Accepted(cfg, [Idle], row, id);
    hide ConfigOk, Reachable;
    for k := 0 to 5
      invariant Reachable(cfg, s) && BeforeCancel(s, id) && ScopeOf(s.db.tasks[id]) == ScopeOf(row)
      invariant k == 0 ==> s.queue == [id]
      invariant k >= 2 ==> id in s.cancels
      invariant Alone(s, match k case 0 => Idle case 1 => Taken(id) case 2 => Registered(id) case 3 => Loaded(id)
                           case 4 => Opening(id) case _ => Fetching(id, pit, cfg.searches(id, pit)), id, row.caller)
    {
      Extend(cfg, s, Work(0, Done, pit));
      s := Apply(cfg, s, Work(0, Done, pit));
    }
  }

  /** Then it pages until its last look at the context is behind it. */
  lemma {:induction false} Paged(cfg: Config, s: State, id: TaskId, caller: string, pit: Pit, left: nat)
    returns (t: State)
    requires Reachable(cfg, s) && Alone(s, Fetching(id, pit, left), id, caller)
    requires BeforeCancel(s, id) && id in s.cancels
    ensures Reachable(cfg, t) && Alone(t, Appending(id, pit, 0), id, caller) && BeforeCancel(t, id) && id in t.cancels
    decreases left
  {
    hide Reachable;
    Extend(cfg, s, Work(0, Done, pit));
    t := Apply(cfg, s, Work(0, Done, pit));
    if left > 0 {
      Extend(cfg, t, Work(0, Done, pit));
      t := Apply(cfg, t, Work(0, Done, pit));
      t := Paged(cfg, t, id, caller, pit, left - 1);
    }
  }

  /** Now the owner cancels: the row is switched, the context cancelled, the answer given. */
  lemma Cancels(cfg: Config, s: State, pc: Worker, id: TaskId, caller: string) returns (t: State)
    requires Reachable(cfg, s) && Alone(s, pc, id, caller) && BeforeCancel(s, id) && id in s.cancels
    ensures Reachable(cfg, t) && Alone(t, pc, id, caller) && AfterCancel(t, id, caller)
  {
    hide Reachable;
    Extend(cfg, s, AskCancel(id, caller));
    t := Apply(cfg, s, AskCancel(id, caller));
    for k := 0 to 4
      invariant Reachable(cfg, t) && Alone(t, pc, id, caller) && id in t.cancels
      invariant t.cancellers == [match k case 0 => Looking(id, caller) case 1 => Swapping(id, caller)
                                   case 2 => Signalling(id, caller) case 3 => Firing(id, caller)
                                   case _ => Canceller.Told(id, caller, Is(Cancelled))]
      invariant k <= 1 ==> !t.db.tasks[id].status.IsTerminal()
      invariant k == 4 ==> id in t.signalled
    {
      Extend(cfg, t, Cancel(0, Done));
      t := Apply(cfg, t, Cancel(0, Done));
    }
  }

  /** Undisturbed, the worker stores its parts. */
  lemma {:induction false} Stores(cfg: Config, s: State, id: TaskId, caller: string, pit: Pit, k: nat)
    returns (t: State)
    requires Reachable(cfg, s) && Alone(s, Appending(id, pit, k), id, caller)
    requires BeforeCancel(s, id) && id in s.cancels
    requires k <= |cfg.plan(id, pit).parts|
    ensures Reachable(cfg, t) && BeforeCancel(t, id) && id in t.cancels
    ensures Alone(t, Deciding(id, Success(cfg.plan(id, pit))), id, caller)
    decreases |cfg.plan(id, pit).parts| - k
  {
    hide Reachable, Upsert;
    Extend(cfg, s, Work(0, Done, pit));
    t := Apply(cfg, s, Work(0, Done, pit));
    if k < |cfg.plan(id, pit).parts| {
      t := Stores(cfg, t, id, caller, pit, k + 1);
    }
  }

  /** A success in hand is written under a context no cancel reaches. */
  lemma Publishes(cfg: Config, s: State, id: TaskId, caller: string, plan: Plan) returns (t: State)
    requires Reachable(cfg, s) && Alone(s, Deciding(id, Success(plan)), id, caller) && AfterCancel(s, id, caller)
    ensures Reachable(cfg, t) && AfterCancel(t, id, caller)
    ensures id in t.db.tasks && t.db.tasks[id].status.IsPublished()
  {
    hide Reachable;
    Extend(cfg, s, Work(0, Done, NO_PIT));
    t := Apply(cfg, s, Work(0, Done, NO_PIT));
    Extend(cfg, t, Work(0, Done, NO_PIT));
    t := Apply(cfg, t, Work(0, Done, NO_PIT));
  }

  /** `cancelled` does not absorb: under every configuration there is a run in which the owner
      was told that the task is cancelled, the signal was delivered to its worker, and the task
      is published all the same, because the worker had stored its last part by then. */
  lemma CancelledCanBePublished(cfg: Config, row: Task, id: TaskId, pit: Pit) returns (s: State)
    requires ConfigOk(cfg) && pit.scope == ScopeOf(row)
    ensures Reachable(cfg, s) && AfterCancel(s, id, row.caller)
    ensures id in s.db.tasks && s.db.tasks[id].status.IsPublished()
  {
    hide ConfigOk, Reachable, Alone, BeforeCancel, AfterCancel;
    var plan := cfg.plan(id, pit);
    s := Opened(cfg, row, id, pit);
    s := Paged(cfg, s, id, row.caller, pit, cfg.searches(id, pit));
    s := Stores(cfg, s, id, row.caller, pit, 0);
    s := Cancels(cfg, s, Deciding(id, Success(plan)), id, row.caller);
    s := Publishes(cfg, s, id, row.caller, plan);
  }

  // ----- a cancel that answers `running` -----

  /** Two cancels of the owner have both found the task open, and its worker has read it. */
  predicate Racing(s: State, id: TaskId, caller: string) {
    && Alone(s, Loaded(id), id, caller) && BeforeSwitch(s, id)
    && s.cancellers == [Swapping(id, caller), Swapping(id, caller)]
  }

  predicate BeforeSwitch(s: State, id: TaskId) {
    s.ctxDone == {} && id in s.db.tasks && !s.db.tasks[id].status.IsTerminal()
  }

  lemma Races(cfg: Config, row: Task, id: TaskId) returns (s: State)
    requires ConfigOk(cfg)
    ensures Reachable(cfg, s) && Racing(s, id, row.caller)
  {
    s := Read(cfg, row, id);
    hide ConfigOk, Reachable, Work1, Submit1, Poll1;
    for k := 0 to 2
      invariant Reachable(cfg, s) && Alone(s, Loaded(id), id, row.caller) && BeforeSwitch(s, id) && |s.cancellers| == k
      invariant forall c :: 0 <= c < k ==> s.cancellers[c] == Swapping(id, row.caller)
    {
      Extend(cfg, s, AskCancel(id, row.caller));
      s := Apply(cfg, s, AskCancel(id, row.caller));
      Extend(cfg, s, Cancel(k, Done));
      s := Apply(cfg, s, Cancel(k, Done));
    }
  }

  /** The worker has read the task and is about to mark it running. */
  lemma Read(cfg: Config, row: Task, id: TaskId) returns (s: State)
    requires ConfigOk(cfg)
    ensures Reachable(cfg, s) && Alone(s, Loaded(id), id, row.caller) && BeforeCancel(s, id)
  {
    s := Accepted(cfg, [Idle], row, id);
    hide ConfigOk, Reachable, Submit1, Cancel1, Poll1;
    for k := 0 to 3
      invariant Reachable(cfg, s) && BeforeCancel(s, id) && (k == 0 ==> s.queue == [id])
      invariant Alone(s, match k case 0 => Idle case 1 => Taken(id) case 2 => Registered(id) case _ => Loaded(id),
                      id, row.caller)
    {
      Extend(cfg, s, Work(0, Done, NO_PIT));
      s := Apply(cfg, s, Work(0, Done, NO_PIT));
    }
  }

  /** A cancel may answer a status that is not terminal, under every configuration: the first of
      two switches the row, the second hits nothing, the worker marks the task running, and the
      second reads that. */
  lemma CancelTellsRunning(cfg: Config, row: Task, id: TaskId) returns (s: State)
    requires ConfigOk(cfg)
    ensures Reachable(cfg, s) && |s.cancellers| == 2
    ensures s.cancellers[1] == Canceller.Told(id, row.caller, Is(Running))
  {
    s := Races(cfg, row, id);
    hide ConfigOk, Reachable;
    Extend(cfg, s, Cancel(0, Done));
    s := Apply(cfg, s, Cancel(0, Done));
    Extend(cfg, s, Cancel(1, Done));
    s := Apply(cfg, s, Cancel(1, Done));
    assert s.cancellers == [Signalling(id, row.caller), Rereading(id, row.caller)];
    Extend(cfg, s, Work(0, Done, NO_PIT));
    s := Apply(cfg, s, Work(0, Done, NO_PIT));
    Extend(cfg, s, Cancel(1, Done));
    s := Apply(cfg, s, Cancel(1, Done));
  }

  // ----- a full queue -----

  /** The n-th of a supply of distinct ids. */
  function Id(n: nat): TaskId {
    seq(n, _ => '0')
  }

  /** n tasks are queued, and the workers have not got round to them. */
  ghost predicate Filled(s: State, n: nat) {
    && s.gate == n && |s.queue| == n && |s.submitters| == n
    && s.workers == [Idle] && s.cancellers == [] && s.cancels == {} && !s.down
    && forall id :: id in s.db.tasks ==> |id| < n
  }

  /** One more submission, up to the moment before it is enqueued. */
  lemma Knocks(cfg: Config, s: State, row: Task) returns (t: State)
    requires Reachable(cfg, s) && Filled(s, |s.queue|) && |s.queue| < cfg.gateCap
    ensures Reachable(cfg, t)
    ensures var n := |s.queue|;
            && t.submitters == s.submitters + [Created(Id(n))] && t.gate == n + 1 && t.queue == s.queue
            && t.workers == [Idle] && t.cancellers == [] && t.cancels == {} && !t.down
            && Id(n) in t.db.tasks && t.db.tasks[Id(n)] == FreshRow(row.(status := Queued))
            && t.db.tasks.Keys == s.db.tasks.Keys + {Id(n)}
  {
    hide Reachable, Work1, Cancel1, Poll1;
    var n := |s.queue|;
    assert Id(n) !in s.db.tasks;
    Extend(cfg, s, Arrive(row));
    t := Apply(cfg, s, Arrive(row));
    Extend(cfg, t, Submit(n, Done, Id(n)));
    t := Apply(cfg, t, Submit(n, Done, Id(n)));
    assert t.submitters == s.submitters + [Holding(Id(n), row)];
    Extend(cfg, t, Submit(n, Done, Id(n)));
    t := Apply(cfg, t, Submit(n, Done, Id(n)));
  }

  /** And then it is enqueued. */
  lemma OneMore(cfg: Config, s: State, row: Task) returns (t: State)
    requires Reachable(cfg, s) && Filled(s, |s.queue|) && |s.queue| < cfg.gateCap && |s.queue| < cfg.queueCap
    ensures Reachable(cfg, t) && Filled(t, |s.queue| + 1)
  {
    hide Reachable, Work1, Cancel1, Poll1;
    var n := |s.queue|;
    t := Knocks(cfg, s, row);
    Extend(cfg, t, Submit(n, Done, ""));
    t := Apply(cfg, t, Submit(n, Done, ""));
  }

  lemma {:induction false} Fills(cfg: Config, row: Task, n: nat) returns (s: State)
    requires ConfigOk(cfg) && n <= cfg.queueCap && n <= cfg.gateCap
    ensures Reachable(cfg, s) && Filled(s, n)
  {
    if n == 0 {
      FreshReachable(cfg, [Idle]);
      s := Fresh([Idle]);
    } else {
      s := Fills(cfg, row, n - 1);
      s := OneMore(cfg, s, row);
    }
  }

  /** The exact condition: submitters are turned away by a full queue in some run if and only
      if the queue is smaller than the gate. */
  lemma QueueFillsIff(cfg: Config)
    requires ConfigOk(cfg)
    ensures (exists s :: Reachable(cfg, s) && !NoneTurnedAway(s)) <==> cfg.queueCap < cfg.gateCap
  {
    if cfg.queueCap < cfg.gateCap {
      var row := Task("", Queued, 0, [], TimeRange(0, 0), "", [], "", "");
      var s := Fills(cfg, row, cfg.queueCap);
      s := Knocks(cfg, s, row);
      hide ConfigOk, Reachable, Work1, Cancel1, Poll1;
      var i := |s.submitters| - 1;
      Extend(cfg, s, Submit(i, Done, ""));
      s := Apply(cfg, s, Submit(i, Done, ""));
      assert s.submitters[i].Full?;
      assert !NoneTurnedAway(s);
    } else {
      forall s | Reachable(cfg, s)
        ensures NoneTurnedAway(s)
      {
        var ss: seq<State>, steps: seq<Step> :| IsExecution(cfg, ss, steps) && Last(ss) == s;
        QueueNeverFull(cfg, ss, steps, |steps|);
      }
    }
  }

  /** Then a cancellation can also be overwritten by the submitter: a cancel under the caller's
      name was answered `cancelled`, and the row says that the task failed. The id is that of a
      submission not answered yet, so the caller has not been given it. */
  lemma CancelledCanFail(cfg: Config, row: Task) returns (s: State, id: TaskId)
    requires ConfigOk(cfg) && cfg.queueCap < cfg.gateCap
    ensures Reachable(cfg, s) && id in s.db.tasks && s.db.tasks[id].status == Failed
    ensures s.cancellers == [Canceller.Told(id, row.caller, Is(Cancelled))]
  {
    s := Fills(cfg, row, cfg.queueCap);
    s := Knocks(cfg, s, row);
    hide ConfigOk, Reachable, Work1, Submit1, Cancel1, Poll1;
    id := Id(cfg.queueCap);
    var i := |s.submitters| - 1;
    s := CancelsQueued(cfg, s, id, row.caller);
    s := Rejects(cfg, s, i, id);
  }

  lemma Rejects(cfg: Config, s: State, i: nat, id: TaskId) returns (t: State)
    requires Reachable(cfg, s) && i < |s.submitters| && s.submitters[i] == Created(id)
    requires |s.queue| >= cfg.queueCap && id in s.db.tasks
    ensures Reachable(cfg, t) && t.cancellers == s.cancellers
    ensures id in t.db.tasks && t.db.tasks[id].status == Failed
  {
    hide Reachable, Work1, Cancel1, Poll1;
    t := s;
    for k := 0 to 3
      invariant Reachable(cfg, t) && |t.submitters| == |s.submitters| && |t.queue| >= cfg.queueCap
      invariant id in t.db.tasks && (k == 3 ==> t.db.tasks[id].status == Failed)
      invariant t.cancellers == s.cancellers
      invariant t.submitters[i] == match k case 0 => Created(id) case 1 => Full(id) case 2 => Rejecting(id)
                                     case _ => Answered(None)
    {
      Extend(cfg, t, Submit(i, Done, ""));
      t := Apply(cfg, t, Submit(i, Done, ""));
    }
  }

  /** A cancel of an open row, by its owner, with nobody registered: the state after k of its steps. */
  ghost predicate CancelAt(s: State, t: State, id: TaskId, caller: string, k: nat) {
    && t.submitters == s.submitters && t.queue == s.queue
    && id in t.db.tasks && id !in t.cancels && t.db.tasks[id].caller == caller
    && t.cancellers == [match k case 0 => Looking(id, caller) case 1 => Swapping(id, caller)
                          case 2 => Signalling(id, caller)
                          case _ => Canceller.Told(id, caller, Is(Cancelled))]
    && (k <= 1 ==> !t.db.tasks[id].status.IsTerminal())
  }

  lemma CancelMoves(cfg: Config, s: State, t: State, id: TaskId, caller: string, k: nat)
    requires CancelAt(s, t, id, caller, k) && k < 3
    ensures Enabled(cfg, t, Cancel(0, Done)) && CancelAt(s, Apply(cfg, t, Cancel(0, Done)), id, caller, k + 1)
  {
    hide Work1, Submit1, Poll1;
  }

  lemma CancelsQueued(cfg: Config, s: State, id: TaskId, caller: string) returns (t: State)
    requires Reachable(cfg, s) && id in s.db.tasks && id !in s.cancels && s.cancellers == []
    requires s.db.tasks[id].caller == caller && !s.db.tasks[id].status.IsTerminal()
    ensures Reachable(cfg, t) && t.submitters == s.submitters && t.queue == s.queue
    ensures id in t.db.tasks && t.cancellers == [Canceller.Told(id, caller, Is(Cancelled))]
  {
    hide Reachable, Work1, Submit1, Cancel1, Poll1;
    Extend(cfg, s, AskCancel(id, caller));
    t := Apply(cfg, s, AskCancel(id, caller));
    for k := 0 to 3
      invariant Reachable(cfg, t) && CancelAt(s, t, id, caller, k)
    {
      CancelMoves(cfg, s, t, id, caller, k);
      Extend(cfg, t, Cancel(0, Done));
      t := Apply(cfg, t, Cancel(0, Done));
    }
  }
}
