/** What holds in every state of every run, and at every step of it. */
module Safety {
  import opened Base
  import opened Types
  import opened Store
  import opened Protocol
  import opened Invariant
  import opened TaskSteps
  import opened SystemSteps

  /** A run from an initial state. */
  ghost predicate IsExecution(cfg: Config, ss: seq<State>, steps: seq<Step>) {
    ConfigOk(cfg) && IsRun(cfg, ss, steps) && Init(ss[0])
  }

  ghost predicate Reachable(cfg: Config, s: State) {
    exists ss: seq<State>, steps: seq<Step> :: IsExecution(cfg, ss, steps) && Last(ss) == s
  }

  lemma ReachableInv(cfg: Config, s: State)
    requires Reachable(cfg, s)
    ensures ConfigOk(cfg) && Inv(cfg, s)
  {
    var ss: seq<State>, steps: seq<Step> :| IsExecution(cfg, ss, steps) && Last(ss) == s;
    hide Inv, ConfigOk;
    InvOverRuns(cfg, ss, steps, |ss| - 1);
  }

  /** Along a run the invariant holds before each step, and the step is lawful. */
  lemma Along(cfg: Config, ss: seq<State>, steps: seq<Step>, i: nat)
    requires IsExecution(cfg, ss, steps) && i < |steps|
    ensures ConfigOk(cfg) && Inv(cfg, ss[i]) && Enabled(cfg, ss[i], steps[i])
    ensures ss[i + 1] == Apply(cfg, ss[i], steps[i])
  {
    hide Inv, ConfigOk, Enabled, Apply;
    InvOverRuns(cfg, ss, steps, i);
    assert Moves(cfg, ss, steps, i);
  }

  /** Some run leads from one state to the other. */
  ghost predicate Leads(cfg: Config, s: State, t: State) {
    exists ss: seq<State>, steps: seq<Step> :: IsRun(cfg, ss, steps) && ss[0] == s && Last(ss) == t
  }

  lemma LeadsHere(cfg: Config, s: State)
    ensures Leads(cfg, s, s)
  {
    assert IsRun(cfg, [s], []) && Last([s]) == s;
  }

  lemma LeadsOn(cfg: Config, s: State, t: State, step: Step)
    requires Leads(cfg, s, t) && Enabled(cfg, t, step)
    ensures Leads(cfg, s, Apply(cfg, t, step))
  {
    hide Enabled, Apply;
    var ss: seq<State>, steps: seq<Step> :| IsRun(cfg, ss, steps) && ss[0] == s && Last(ss) == t;
    var ss', steps' := ss + [Apply(cfg, t, step)], steps + [step];
    forall i | 0 <= i < |steps'|
      ensures Moves(cfg, ss', steps', i)
    {
      assert i < |steps| ==> Moves(cfg, ss, steps, i);
    }
    assert IsRun(cfg, ss', steps') && ss'[0] == s && Last(ss') == Apply(cfg, t, step);
  }

  // ----- slots -----

  predicate TakesSlot(s: State, step: Step) {
    step.Submit? && step.i < |s.submitters| && s.submitters[step.i].Acquiring? && step.ack == Done
  }

  predicate GivesSlot(s: State, step: Step) {
    || (step.Work? && step.w < |s.workers| && s.workers[step.w].Unregistered?)
    || (step.Submit? && step.i < |s.submitters| && (s.submitters[step.i].Undoing? || s.submitters[step.i].Full?))
  }

  /** Every step that releases finds a token to take; the default branch of `Release` is dead. */
  lemma ReleaseNeverEmpty(cfg: Config, s: State, step: Step)
    requires Inv(cfg, s) && GivesSlot(s, step)
    ensures s.gate > 0
  {
    hide ViewsOk, QueueOk, LogOk, HolderOk, CancellersOk, PollersOk, Sum;
    if step.Work? {
      SumMember(WorkerSlot, s.workers, step.w);
    } else {
      SumMember(SubmitterSlot, s.submitters, step.i);
    }
  }

  lemma GateMoves(cfg: Config, s: State, step: Step)
    requires Inv(cfg, s) && Enabled(cfg, s, step)
    ensures Apply(cfg, s, step).gate
         == s.gate + (if TakesSlot(s, step) then 1 else 0) - (if GivesSlot(s, step) then 1 else 0)
    ensures !(TakesSlot(s, step) && GivesSlot(s, step))
  {
    if GivesSlot(s, step) {
      ReleaseNeverEmpty(cfg, s, step);
    }
    hide Inv, Work1, Poll1, Cancel1;
    match step
    case Work(w, ack, pit) => WorkHasShape(cfg, s, w, ack, pit);
    case Submit(i, ack, newId) => hide Create, Offer; SubmitHasShape(cfg, s, i, ack, newId);
    case Cancel(i, ack) => CancelHasShape(s, i, ack);
    case Poll(i, ack) => PollAside(s, i, ack);
    case _ =>
  }

  function SlotsTaken(ss: seq<State>, steps: seq<Step>, n: nat): nat
    requires n <= |steps| && |ss| == |steps| + 1
  {
    if n == 0 then 0 else SlotsTaken(ss, steps, n - 1) + (if TakesSlot(ss[n - 1], steps[n - 1]) then 1 else 0)
  }

  function SlotsGiven(ss: seq<State>, steps: seq<Step>, n: nat): nat
    requires n <= |steps| && |ss| == |steps| + 1
  {
    if n == 0 then 0 else SlotsGiven(ss, steps, n - 1) + (if GivesSlot(ss[n - 1], steps[n - 1]) then 1 else 0)
  }

  /** Slot conservation: at every point of a run the gate counts the slots taken and not yet
      given back, they are exactly those of submitters, queued tasks and busy workers, and
      there are never more than the capacity. */
  lemma {:induction false} SlotConservation(cfg: Config, ss: seq<State>, steps: seq<Step>, n: nat)
    requires IsExecution(cfg, ss, steps) && n <= |steps|
    ensures var s := ss[n];
            && SlotsTaken(ss, steps, n) == SlotsGiven(ss, steps, n) + s.gate
            && s.gate == Sum(SubmitterSlot, s.submitters) + |s.queue| + Sum(WorkerSlot, s.workers)
            && s.gate <= cfg.gateCap
  {
    InvOverRuns(cfg, ss, steps, n);
    InvParts(cfg, ss[n]);
    if n > 0 {
      SlotConservation(cfg, ss, steps, n - 1);
      Along(cfg, ss, steps, n - 1);
      hide Inv, ConfigOk, Apply, TakesSlot, GivesSlot, Sum;
      GateMoves(cfg, ss[n - 1], steps[n - 1]);
    }
  }

  predicate ReturnsSlotOf(s: State, step: Step, id: TaskId) {
    step.Work? && step.w < |s.workers| && s.workers[step.w] == Unregistered(id)
  }

  /** How often workers have given back the slot of a task. */
  function SlotReturns(ss: seq<State>, steps: seq<Step>, n: nat, id: TaskId): nat
    requires n <= |steps| && |ss| == |steps| + 1
  {
    if n == 0 then 0
    else SlotReturns(ss, steps, n - 1, id) + (if ReturnsSlotOf(ss[n - 1], steps[n - 1], id) then 1 else 0)
  }

  predicate IsOver(s: State, id: TaskId) {
    id in s.life && s.life[id].Over?
  }

  lemma SubmitOver(cfg: Config, s: State, i: nat, ack: Ack, newId: TaskId, id: TaskId)
    requires Inv(cfg, s) && SubmitEnabled(cfg, s, i, ack, newId)
    ensures IsOver(Submit1(cfg, s, i, ack, newId), id) <==> IsOver(s, id)
  {
    hide Inv, Submit1;
    SubmitHasShape(cfg, s, i, ack, newId);
    if InOffer(s.submitters[i]) {
      Makes(cfg, s, i);
    } else if s.submitters[i].Holding? {
      FreshId(cfg, s, s.submitters[i].id);
    }
  }

  lemma WorkOver(cfg: Config, s: State, w: nat, ack: Ack, pit: Pit, id: TaskId)
    requires Inv(cfg, s) && WorkEnabled(s, w)
    ensures IsOver(Work1(cfg, s, w, ack, pit), id) <==> IsOver(s, id) || s.workers[w] == Unregistered(id)
    ensures s.workers[w] == Unregistered(id) ==> !IsOver(s, id)
  {
    InvParts(cfg, s);
    hide Inv, Work1;
    WorkHasShape(cfg, s, w, ack, pit);
    if s.workers[w].Idle? {
      HeadIsWaiting(cfg, s);
    } else {
      Held(cfg, s, w);
    }
  }

  lemma OverStep(cfg: Config, s: State, step: Step, id: TaskId)
    requires Inv(cfg, s) && Enabled(cfg, s, step)
    ensures IsOver(Apply(cfg, s, step), id) <==> IsOver(s, id) || ReturnsSlotOf(s, step, id)
    ensures ReturnsSlotOf(s, step, id) ==> !IsOver(s, id)
  {
    hide Inv, Work1, Submit1, Cancel1, Poll1;
    match step
    case Work(w, ack, pit) => WorkOver(cfg, s, w, ack, pit, id);
    case Submit(i, ack, newId) => SubmitOver(cfg, s, i, ack, newId, id);
    case Cancel(i, ack) => CancelHasShape(s, i, ack);
    case Poll(i, ack) => PollAside(s, i, ack);
    case _ =>
  }

  /** A worker gives the slot of a task back at most once, on whatever path it leaves the task,
      and it has done so exactly when the task is over. */
  lemma {:induction false} SlotReturnedOnce(cfg: Config, ss: seq<State>, steps: seq<Step>, n: nat, id: TaskId)
    requires IsExecution(cfg, ss, steps) && n <= |steps|
    ensures SlotReturns(ss, steps, n, id) == if IsOver(ss[n], id) then 1 else 0
  {
    if n > 0 {
      SlotReturnedOnce(cfg, ss, steps, n - 1, id);
      Along(cfg, ss, steps, n - 1);
      hide Inv, ConfigOk, Apply, Enabled, IsOver, ReturnsSlotOf;
      OverStep(cfg, ss[n - 1], steps[n - 1], id);
    }
  }

  // ----- the status window -----

  /** The writes that do not look at the status they replace, when they put another one there. */
  predicate Overwrites(s: State, step: Step, id: TaskId) {
    match step
    case Work(w, ack, _) =>
      && w < |s.workers| && ack != Refused
      && ((s.workers[w] == Loaded(id) && !CtxDone(s, id)) || (s.workers[w] == Unmarked(id) && !s.down)
          || (s.workers[w].Finalizing? && s.workers[w].id == id && s.workers[w].v.status != Cancelled))
    case Submit(i, ack, _) => i < |s.submitters| && s.submitters[i] == Rejecting(id) && ack != Refused
    case _ => false
  }

  lemma OverwriteLeavesCancelled(cfg: Config, s: State, step: Step, id: TaskId)
    requires Enabled(cfg, s, step) && id in s.db.tasks && Overwrites(s, step, id)
    ensures var s' := Apply(cfg, s, step); id in s'.db.tasks && s'.db.tasks[id].status != Cancelled
  {
    hide GiveUp, QueueFull, Mark, CtxDone;
  }

  lemma OtherWritesKeepCancelled(cfg: Config, s: State, step: Step, id: TaskId)
    requires Enabled(cfg, s, step) && id in s.db.tasks && s.db.tasks[id].status == Cancelled
    requires Writer(s, step, id) && !Overwrites(s, step, id)
    ensures var s' := Apply(cfg, s, step); id in s'.db.tasks && s'.db.tasks[id].status == Cancelled
  {
    hide GiveUp, QueueFull, Mark, CtxDone, Upsert;
  }

  /** The only terminal status that is ever left is a `cancelled` put there by a conditional
      update, and exactly by those writes: `completed`, `partial` and `failed` are final. */
  lemma TerminalLeftIff(cfg: Config, s: State, step: Step, id: TaskId)
    requires ConfigOk(cfg) && Inv(cfg, s) && Enabled(cfg, s, step) && IsTerminalIn(s.db, id)
    ensures var s' := Apply(cfg, s, step);
            && id in s'.db.tasks
            && (s'.db.tasks[id].status != s.db.tasks[id].status
                <==> s.db.tasks[id].status == Cancelled && Overwrites(s, step, id))
    ensures Apply(cfg, s, step).db.tasks[id].status != s.db.tasks[id].status ==> id in s.switched
  {
    hide Inv, ConfigOk, Enabled, Apply, Writer, Overwrites;
    OverwritesWrites(s, step, id);
    if Writer(s, step, id) {
      WriterWindow(cfg, s, step, id);
      if Overwrites(s, step, id) {
        OverwriteLeavesCancelled(cfg, s, step, id);
      } else {
        OtherWritesKeepCancelled(cfg, s, step, id);
      }
    } else {
      RowStays(cfg, s, step, id);
    }
  }

  /** That update came after the worker's read: a worker that goes on has read a row no cancel
      had switched. */
  lemma ReadBeforeSwitch(cfg: Config, s: State, w: nat, ack: Ack, pit: Pit)
    requires Inv(cfg, s) && WorkEnabled(s, w) && s.workers[w].Registered?
    ensures var s' := Work1(cfg, s, w, ack, pit);
            w < |s'.workers| && (s'.workers[w].Loaded? <==> ack == Done && !s.down && s.workers[w].id !in s'.switched)
  {
    hide Inv;
    Held(cfg, s, w);
  }

  lemma OverwritesWrites(s: State, step: Step, id: TaskId)
    ensures Overwrites(s, step, id) ==> Writer(s, step, id)
  {
  }

  /** Somebody may still write the task's row without looking: a submitter that may find the
      queue full, or a worker between its read and its last write. */
  predicate InWindow(s: State, id: TaskId) {
    && id in s.life
    && match OwnerOf(s, id)
       case BySubmitter(_) => true
       case ByWorker(pc) => !pc.Idle? && !pc.Exited? && !pc.Taken? && !pc.Registered? && !InLeave(pc)
       case Nobody => false
  }

  /** A terminal row nobody will write any more. */
  predicate Settled(s: State, id: TaskId) {
    IsTerminalIn(s.db, id) && !InWindow(s, id)
  }

  lemma WriterInWindow(cfg: Config, s: State, step: Step, id: TaskId)
    requires Inv(cfg, s) && Enabled(cfg, s, step) && Writer(s, step, id) && IsTerminalIn(s.db, id)
    ensures InWindow(s, id)
  {
    hide Inv;
    match step
    case Work(w, ack, pit) => Held(cfg, s, w);
    case Submit(i, ack, newId) => Makes(cfg, s, i);
    case Cancel(i, ack) =>
  }

  lemma SameOwner(s: State, s': State, id: TaskId)
    requires Lookup(s'.life, id) == Lookup(s.life, id) && OwnerOf(s', id) == OwnerOf(s, id)
    ensures InWindow(s', id) == InWindow(s, id)
  {
    hide OwnerOf;
  }

  lemma SameViewWindow(s: State, s': State, id: TaskId)
    requires ViewOf(s', id) == ViewOf(s, id)
    ensures InWindow(s', id) == InWindow(s, id)
  {
    hide OwnerOf, InWindow;
    assert ViewOf(s', id).owner == ViewOf(s, id).owner && ViewOf(s', id).life == ViewOf(s, id).life;
    SameOwner(s, s', id);
  }

  lemma TakeClosed(cfg: Config, s: State, w: nat, ack: Ack, pit: Pit)
    requires Inv(cfg, s) && WorkEnabled(s, w) && s.workers[w].Idle?
    ensures !InWindow(Work1(cfg, s, w, ack, pit), s.queue[0])
  {
    hide Inv;
  }

  lemma EnterClosed(cfg: Config, s: State, w: nat, ack: Ack)
    requires Inv(cfg, s) && WorkEnabled(s, w) && InEnter(s.workers[w]) && IsTerminalIn(s.db, s.workers[w].id)
    ensures !InWindow(Enter(s, w, ack), s.workers[w].id)
  {
    hide Inv, WorkerOk, Common;
    Held(cfg, s, w);
  }

  lemma LeaveClosed(cfg: Config, s: State, w: nat)
    requires Inv(cfg, s) && WorkEnabled(s, w) && InLeave(s.workers[w])
    ensures !InWindow(Leave(s, w), s.workers[w].id)
  {
    hide Inv, WorkerOk, Common, PositionOf;
    Held(cfg, s, w);
  }

  lemma OutsideWindow(cfg: Config, s: State, w: nat)
    requires Inv(cfg, s) && WorkEnabled(s, w) && !s.workers[w].Idle? && !InWindow(s, s.workers[w].id)
    ensures InEnter(s.workers[w]) || InLeave(s.workers[w])
  {
    hide Inv, WorkerOk, Common;
    Held(cfg, s, w);
  }

  lemma EnterTerminal(cfg: Config, s: State, w: nat, ack: Ack, pit: Pit)
    requires Inv(cfg, s) && WorkEnabled(s, w) && Settled(s, WorkTask(s, w))
    ensures !InWindow(Work1(cfg, s, w, ack, pit), WorkTask(s, w))
  {
    hide Inv, InWindow, Take, Enter, MarkRunning, Gather, Publish, Settle, Leave;
    if s.workers[w].Idle? {
      TakeClosed(cfg, s, w, ack, pit);
    } else {
      OutsideWindow(cfg, s, w);
      if InEnter(s.workers[w]) {
        EnterClosed(cfg, s, w, ack);
      } else {
        LeaveClosed(cfg, s, w);
      }
    }
  }

  lemma CreateClosed(cfg: Config, s: State, i: nat, ack: Ack, newId: TaskId, id: TaskId)
    requires Inv(cfg, s) && SubmitEnabled(cfg, s, i, ack, newId) && Settled(s, id)
    ensures !InWindow(Submit1(cfg, s, i, ack, newId), id)
  {
    hide Inv, Submit1, InWindow;
    if SubmitTask(s.submitters[i], id) {
      if s.submitters[i].Holding? {
        CreateRefused(cfg, s, i, newId, id);
      } else {
        Makes(cfg, s, i);
        MakingInWindow(cfg, s, i, id);
      }
    } else {
      SubmitViews(cfg, s, i, ack, newId, id);
      SameViewWindow(s, Submit1(cfg, s, i, ack, newId), id);
    }
  }

  lemma MakingInWindow(cfg: Config, s: State, i: nat, id: TaskId)
    requires i < |s.submitters| && id in s.life && s.life[id] == Making(i)
    ensures InWindow(s, id)
  {
  }

  lemma CreateRefused(cfg: Config, s: State, i: nat, newId: TaskId, id: TaskId)
    requires Inv(cfg, s) && SubmitEnabled(cfg, s, i, Refused, newId)
    requires s.submitters[i].Holding? && id == s.submitters[i].id
    ensures InWindow(Submit1(cfg, s, i, Refused, newId), id) == InWindow(s, id)
  {
    hide Inv;
    NotMaker(cfg, s, i, id);
  }

  /** Once closed, the window does not open again for a terminal row: a worker that takes the
      task now reads the terminal status and skips it. */
  lemma WindowStaysClosed(cfg: Config, s: State, step: Step, id: TaskId)
    requires ConfigOk(cfg) && Inv(cfg, s) && Enabled(cfg, s, step) && Settled(s, id)
    ensures !InWindow(Apply(cfg, s, step), id)
  {
    hide Inv, ConfigOk, Work1, Submit1, Cancel1, Poll1, InWindow, OwnerOf, ViewOf;
    match step
    case Work(w, ack, pit) =>
      if WorkTask(s, w) == id {
        EnterTerminal(cfg, s, w, ack, pit);
      } else {
        WorkViews(cfg, s, w, ack, pit, id);
        SameViewWindow(s, Work1(cfg, s, w, ack, pit), id);
      }
    case Submit(i, ack, newId) => CreateClosed(cfg, s, i, ack, newId, id);
    case Cancel(i, ack) =>
      CancelHasShape(s, i, ack);
      AsideOwner(s, Cancel1(s, i, ack), id);
    case Shutdown => AsideOwner(s, Apply(cfg, s, step), id);
    case _ =>
      IdleViews(cfg, s, step, id);
      SameViewWindow(s, Apply(cfg, s, step), id);
  }

  lemma AsideOwner(s: State, s': State, id: TaskId)
    requires s'.life == s.life && s'.workers == s.workers && s'.submitters == s.submitters
    ensures InWindow(s', id) == InWindow(s, id)
  {
  }

  lemma SettledStep(cfg: Config, s: State, step: Step, id: TaskId)
    requires ConfigOk(cfg) && Inv(cfg, s) && Enabled(cfg, s, step) && Settled(s, id)
    ensures SameRow(s, Apply(cfg, s, step), id) && Settled(Apply(cfg, s, step), id)
  {
    hide Inv, ConfigOk, Enabled, Apply, Writer, InWindow;
    if Writer(s, step, id) {
      WriterInWindow(cfg, s, step, id);
    } else {
      RowStays(cfg, s, step, id);
      WindowStaysClosed(cfg, s, step, id);
    }
  }

  /** Outside the window a terminal row is frozen for the rest of the run, parts included. */
  lemma {:induction false} SettledForever(cfg: Config, ss: seq<State>, steps: seq<Step>, i: nat, j: nat, id: TaskId)
    requires IsExecution(cfg, ss, steps) && i <= j < |ss| && Settled(ss[i], id)
    ensures Settled(ss[j], id) && SameRow(ss[i], ss[j], id)
  {
    hide Settled, Inv, ConfigOk, Moves;
    if i < j {
      SettledForever(cfg, ss, steps, i, j - 1, id);
      Along(cfg, ss, steps, j - 1);
      hide Apply, Enabled;
      SettledStep(cfg, ss[j - 1], steps[j - 1], id);
    } else {
      SettledHasRow(ss[i], id);
    }
  }

  lemma SettledHasRow(s: State, id: TaskId)
    requires Settled(s, id)
    ensures IsTerminalIn(s.db, id)
  {
  }

  predicate IsFinal(s: State, id: TaskId) {
    id in s.db.tasks && s.db.tasks[id].status in {Completed, Partial, Failed}
  }

  lemma FinalStep(cfg: Config, s: State, step: Step, id: TaskId)
    requires ConfigOk(cfg) && Inv(cfg, s) && Enabled(cfg, s, step) && IsFinal(s, id)
    ensures SameRow(s, Apply(cfg, s, step), id)
  {
    hide Inv, ConfigOk, Enabled, Apply, Writer;
    if Writer(s, step, id) {
      WriterWindow(cfg, s, step, id);
    } else {
      RowStays(cfg, s, step, id);
    }
  }

  /** `completed`, `partial` and `failed` are never left, in or out of the window; neither the
      rest of the row nor the parts change again. */
  lemma {:induction false} FinalForever(cfg: Config, ss: seq<State>, steps: seq<Step>, i: nat, j: nat, id: TaskId)
    requires IsExecution(cfg, ss, steps) && i <= j < |ss| && IsFinal(ss[i], id)
    ensures IsFinal(ss[j], id) && SameRow(ss[i], ss[j], id)
  {
    hide Inv, ConfigOk, Moves;
    if i < j {
      FinalForever(cfg, ss, steps, i, j - 1, id);
      Along(cfg, ss, steps, j - 1);
      hide Apply, Enabled;
      FinalStep(cfg, ss[j - 1], steps[j - 1], id);
    }
  }

  /** A task whose worker has left is terminal and frozen, unless that worker's read or last
      write failed. */
  lemma LeftMeansSettled(cfg: Config, s: State, id: TaskId)
    requires Inv(cfg, s) && id in s.life && id !in s.orphans
    requires s.life[id].Over? || (s.life[id].Working? && s.life[id].w < |s.workers| && InLeave(s.workers[s.life[id].w]))
    ensures Settled(s, id)
  {
    hide GateOk, QueueOk, LogOk, HolderOk, CancellersOk, PollersOk;
    assert TaskOk(cfg, id, ViewOf(s, id));
  }

  // ----- publication -----

  /** A row that announces a result tells the truth about what is stored with it: the parts
      are the whole plan of a run for just this row, numbered from 0 without a gap; the count is
      the number of messages in them; and the status is `completed` exactly when there is no
      warning. */
  ghost predicate Published(cfg: Config, id: TaskId, row: Task, parts: seq<Part>) {
    && Dense(parts)
    && (forall k :: 0 <= k < |parts| ==> parts[k].taskId == id)
    && row.actualCount == TotalMessages(parts)
    && (row.status == Completed <==> row.warnings == [])
    && row.errorCode == "" && row.errorMessage == ""
    && exists pit: Pit :: pit.scope == ScopeOf(row)
         && parts == cfg.plan(id, pit).parts && row.warnings == cfg.plan(id, pit).warnings
  }

  lemma PlanPublished(cfg: Config, id: TaskId, pit: Pit, row: Task)
    requires ConfigOk(cfg) && row.status.IsPublished() && row == Conclude(row, Success(cfg.plan(id, pit)))
    requires pit.scope == ScopeOf(row)
    ensures Published(cfg, id, row, cfg.plan(id, pit).parts)
  {
  }

  lemma PublishedState(cfg: Config, s: State, id: TaskId)
    requires ConfigOk(cfg) && Inv(cfg, s) && id in s.db.tasks && s.db.tasks[id].status.IsPublished()
    ensures Published(cfg, id, s.db.tasks[id], RowsOf(s.db, id))
  {
    hide GateOk, QueueOk, LogOk, HolderOk, CancellersOk, PollersOk, ConfigOk, Published;
    var v := ViewOf(s, id);
    assert TaskOk(cfg, id, v);
    PublishedView(cfg, id, v);
    PlanPublished(cfg, id, v.pit.value, s.db.tasks[id]);
  }

  lemma PublishedView(cfg: Config, id: TaskId, v: View)
    requires TaskOk(cfg, id, v) && v.row.Some? && v.row.value.status.IsPublished()
    ensures PublishedOk(cfg, id, v) && v.pit.value.scope == ScopeOf(v.row.value)
  {
  }

  /** Publication safety: in every reachable state a published task is complete, and so is
      every answer a poll has put together from its two reads, whatever ran in between. */
  lemma PublicationSafety(cfg: Config, s: State)
    requires Reachable(cfg, s)
    ensures forall id :: id in s.db.tasks && s.db.tasks[id].status.IsPublished() ==>
              Published(cfg, id, s.db.tasks[id], RowsOf(s.db, id))
    ensures forall i :: 0 <= i < |s.pollers| && s.pollers[i].Shown? && s.pollers[i].answer.Delivered? ==>
              Published(cfg, s.pollers[i].id, s.pollers[i].answer.row, s.pollers[i].answer.parts)
  {
    ReachableInv(cfg, s);
    forall id | id in s.db.tasks && s.db.tasks[id].status.IsPublished()
      ensures Published(cfg, id, s.db.tasks[id], RowsOf(s.db, id))
    {
      PublishedState(cfg, s, id);
    }
    forall i | 0 <= i < |s.pollers| && s.pollers[i].Shown? && s.pollers[i].answer.Delivered?
      ensures Published(cfg, s.pollers[i].id, s.pollers[i].answer.row, s.pollers[i].answer.parts)
    {
      PollerShows(cfg, s, i);
      PublishedState(cfg, s, s.pollers[i].id);
    }
  }

  lemma PollerShows(cfg: Config, s: State, i: nat)
    requires Inv(cfg, s) && i < |s.pollers| && s.pollers[i].Shown? && s.pollers[i].answer.Delivered?
    ensures var p := s.pollers[i];
            && p.id in s.db.tasks && p.answer.row == s.db.tasks[p.id] && p.answer.parts == RowsOf(s.db, p.id)
            && p.answer.row.status.IsPublished()
  {
    hide GateOk, QueueOk, LogOk, HolderOk, CancellersOk, ViewsOk;
    assert PollerOk(s.pollers[i], s.db);
  }

  // ----- workers stay -----

  /** In every run there are as many workers as at first, and one exits only after a shutdown. */
  lemma {:induction false} WorkersStay(cfg: Config, ss: seq<State>, steps: seq<Step>, i: nat)
    requires IsExecution(cfg, ss, steps) && i < |ss|
    ensures |ss[i].workers| == |ss[0].workers|
    ensures forall w :: 0 <= w < |ss[i].workers| && ss[i].workers[w].Exited? ==> ss[i].down
  {
    hide Inv, ConfigOk, Moves;
    if i > 0 {
      WorkersStay(cfg, ss, steps, i - 1);
      Along(cfg, ss, steps, i - 1);
      WorkersAfter(cfg, ss[i - 1], steps[i - 1]);
    }
  }

  lemma WorkersAfter(cfg: Config, s: State, step: Step)
    requires Enabled(cfg, s, step)
    requires forall w :: 0 <= w < |s.workers| && s.workers[w].Exited? ==> s.down
    ensures var s' := Apply(cfg, s, step);
            && |s'.workers| == |s.workers|
            && forall w :: 0 <= w < |s'.workers| && s'.workers[w].Exited? ==> s'.down
  {
    hide Work1, Submit1, Cancel1, Poll1;
    match step
    case Work(w, ack, pit) => WorkHasShape(cfg, s, w, ack, pit);
    case Submit(i, ack, newId) => SubmitHasShape(cfg, s, i, ack, newId);
    case Cancel(i, ack) => CancelHasShape(s, i, ack);
    case Poll(i, ack) => PollAside(s, i, ack);
    case _ =>
  }

  // ----- what was submitted -----

  /** The columns that say what a task exports, and for whom, never change in any run. */
  lemma {:induction false} ScopeForever(cfg: Config, ss: seq<State>, steps: seq<Step>, i: nat, j: nat, id: TaskId)
    requires IsExecution(cfg, ss, steps) && i <= j < |ss| && id in ss[i].db.tasks
    ensures id in ss[j].db.tasks && ScopeOf(ss[j].db.tasks[id]) == ScopeOf(ss[i].db.tasks[id])
  {
    hide Inv, ConfigOk, Moves, Apply, Enabled, ScopeOf;
    if i < j {
      ScopeForever(cfg, ss, steps, i, j - 1, id);
      Along(cfg, ss, steps, j - 1);
      Grows(cfg, ss[j - 1], steps[j - 1], id);
    }
  }

  /** So from its insert on, a row asks for what its submitter held, whatever runs in between. */
  lemma AsSubmitted(cfg: Config, ss: seq<State>, steps: seq<Step>, i: nat, j: nat, n: nat, id: TaskId, row: Task)
    requires IsExecution(cfg, ss, steps) && i < j < |ss|
    requires steps[i].Submit? && steps[i].i == n && steps[i].ack != Refused
    requires n < |ss[i].submitters| && ss[i].submitters[n] == Holding(id, row)
    ensures id in ss[j].db.tasks && ScopeOf(ss[j].db.tasks[id]) == ScopeOf(row)
  {
    hide Inv, ConfigOk, Moves, Work1, Cancel1, Poll1;
    Along(cfg, ss, steps, i);
    assert id !in ss[i].db.tasks;
    assert ss[i + 1].db == Insert(ss[i].db, id, row.(status := Queued));
    ScopeForever(cfg, ss, steps, i + 1, j, id);
  }

  // ----- owners only -----

  /** In every reachable state, whatever a poll has been shown of a row, and whatever status a
      cancel has been told, is of a task of the caller who asked; and a poll is shown parts
      exactly of published rows. */
  lemma OwnersOnly(cfg: Config, s: State)
    requires Reachable(cfg, s)
    ensures forall i :: 0 <= i < |s.pollers| && s.pollers[i].Shown? ==>
              var p := s.pollers[i];
              && (p.answer.Progress? || p.answer.Delivered? ==>
                    Owns(s.db, p.id, p.caller) && p.answer.row.caller == p.caller)
              && (p.answer.Progress? ==> !p.answer.row.status.IsPublished())
              && (p.answer.Delivered? ==> p.answer.row.status.IsPublished())
    ensures forall i :: 0 <= i < |s.cancellers| && s.cancellers[i].Told? && s.cancellers[i].reply.Is? ==>
              Owns(s.db, s.cancellers[i].id, s.cancellers[i].caller)
  {
    ReachableInv(cfg, s);
    hide GateOk, QueueOk, LogOk, HolderOk, ViewsOk, Reachable;
    forall i | 0 <= i < |s.pollers|
      ensures PollerOk(s.pollers[i], s.db)
    {
    }
    forall i | 0 <= i < |s.cancellers|
      ensures CancellerOk(s.cancellers[i], s.switched, s.db)
    {
    }
  }

  // ----- a cancellation is never lost -----

  /** How a cancellation that has switched the row and run CancelTask takes effect: the worker
      has not read the row yet, and will find it cancelled; or its context is cancelled; or
      there is no worker any more. */
  ghost predicate Noticed(s: State, id: TaskId) {
    && id in s.life && id in s.db.tasks
    && match s.life[id]
       case Waiting(_) => s.db.tasks[id].status == Cancelled
       case Working(w, _) =>
         && w < |s.workers| && Holds(s.workers[w]) && s.workers[w].id == id
         && (InEnter(s.workers[w]) ==> s.db.tasks[id].status == Cancelled)
         && (!InEnter(s.workers[w]) && !InLeave(s.workers[w]) ==> CtxDone(s, id))
       case Making(_) => s.db.tasks[id].status == Cancelled
       case Stray => s.db.tasks[id].status == Cancelled
       case Dropped => true
       case Over(_) => true
  }

  lemma SignalNoticed(cfg: Config, s: State, id: TaskId)
    requires Inv(cfg, s) && id in s.signalled
    ensures Noticed(s, id)
  {
    hide GateOk, QueueOk, LogOk, HolderOk, CancellersOk, PollersOk;
    assert TaskOk(cfg, id, ViewOf(s, id));
  }

  /** No cancellation is lost, and at most one search of a task starts under a cancelled
      context. */
  lemma CancelNeverLost(cfg: Config, s: State)
    requires Reachable(cfg, s)
    ensures forall id :: id in s.signalled ==> Noticed(s, id)
    ensures forall id :: s.late[id] <= 1
  {
    ReachableInv(cfg, s);
    forall id | id in s.signalled
      ensures Noticed(s, id)
    {
      SignalNoticed(cfg, s, id);
    }
    forall id: TaskId
      ensures s.late[id] <= 1
    {
      LateOnce(cfg, s, id);
    }
  }

  lemma LateOnce(cfg: Config, s: State, id: TaskId)
    requires Inv(cfg, s)
    ensures s.late[id] <= 1
  {
    hide GateOk, QueueOk, LogOk, HolderOk, CancellersOk, PollersOk;
    assert TaskOk(cfg, id, ViewOf(s, id));
  }

  /** The step of a worker that heeds a cancellation: it skips the task; nothing it calls under
      the task's context succeeds; and a run that has failed by then counts as cancelled. */
  predicate Heeded(cfg: Config, pc: Worker, next: Worker) {
    match pc
    case Registered(id) => next == Leaving(id)
    case Loaded(id) => next == Unmarked(id)
    case Opening(_) => next.Deciding? && next.v.status == Failed
    case Checked(_, _, _) => next.Deciding? && next.v.status == Failed
    case Fetching(_, _, left) => left > 0 ==> next.Deciding? && next.v.status == Failed
    case Appending(id, p, k) => k < |cfg.plan(id, p).parts| ==> next.Deciding? && next.v.status == Failed
    case Deciding(_, v) => next.Finalizing? && next.v.status == (if v.status == Failed then Cancelled else v.status)
    case _ => true
  }

  predicate Heeds(cfg: Config, s: State, s': State, w: nat) {
    w < |s.workers| && w < |s'.workers| && Heeded(cfg, s.workers[w], s'.workers[w])
  }

  /** A worker that will read a terminal row, or whose context is done. */
  predicate StoppedAt(s: State, w: nat)
    requires w < |s.workers| && Holds(s.workers[w])
  {
    var pc := s.workers[w];
    if pc.Registered? then IsTerminalIn(s.db, pc.id) else InEnter(pc) || InLeave(pc) || CtxDone(s, pc.id)
  }

  lemma EnterHeeds(cfg: Config, s: State, w: nat, ack: Ack)
    requires WorkEnabled(s, w) && InEnter(s.workers[w]) && StoppedAt(s, w)
    ensures Heeds(cfg, s, Enter(s, w, ack), w)
  {
    hide Mark, CtxDone;
  }

  lemma MarkHeeds(cfg: Config, s: State, w: nat, ack: Ack)
    requires WorkEnabled(s, w) && InMark(s.workers[w]) && StoppedAt(s, w)
    ensures Heeds(cfg, s, MarkRunning(s, w, ack), w)
  {
    hide SetVerdict, SetStatus, Write, GiveUp, Mark;
  }

  lemma GatherHeeds(cfg: Config, s: State, w: nat, ack: Ack, pit: Pit)
    requires WorkEnabled(s, w) && InGather(s.workers[w]) && StoppedAt(s, w)
    ensures Heeds(cfg, s, Gather(cfg, s, w, ack, pit), w)
  {
    hide GiveUp;
  }

  lemma PublishHeeds(cfg: Config, s: State, w: nat, ack: Ack)
    requires WorkEnabled(s, w) && s.workers[w].Appending? && StoppedAt(s, w)
    ensures Heeds(cfg, s, Publish(cfg, s, w, ack), w)
  {
    hide PutPart, Write, GiveUp;
  }

  lemma SettleHeeds(cfg: Config, s: State, w: nat, ack: Ack)
    requires WorkEnabled(s, w) && InSettle(s.workers[w]) && StoppedAt(s, w)
    ensures Heeds(cfg, s, Settle(s, w, ack), w)
  {
    hide SetVerdict, Write, Mark;
  }

  lemma LeaveHeeds(cfg: Config, s: State, w: nat)
    requires WorkEnabled(s, w) && InLeave(s.workers[w]) && StoppedAt(s, w)
    ensures Heeds(cfg, s, Leave(s, w), w)
  {
    hide PositionOf;
  }

  lemma StoppedHeeds(cfg: Config, s: State, w: nat, ack: Ack, pit: Pit)
    requires WorkEnabled(s, w) && !s.workers[w].Idle? && StoppedAt(s, w)
    ensures Heeds(cfg, s, Work1(cfg, s, w, ack, pit), w)
  {
    hide Heeds, StoppedAt, Take, Enter, MarkRunning, Gather, Publish, Settle, Leave;
    var pc := s.workers[w];
    if InEnter(pc) { EnterHeeds(cfg, s, w, ack); }
    else if InMark(pc) { MarkHeeds(cfg, s, w, ack); }
    else if InGather(pc) { GatherHeeds(cfg, s, w, ack, pit); }
    else if pc.Appending? { PublishHeeds(cfg, s, w, ack); }
    else if InSettle(pc) { SettleHeeds(cfg, s, w, ack); }
    else { LeaveHeeds(cfg, s, w); }
  }

  /** What a noticed cancellation does to the worker's next step, however its call turns out. */
  lemma NoticedActs(cfg: Config, s: State, w: nat, ack: Ack, pit: Pit)
    requires Inv(cfg, s) && WorkEnabled(s, w) && !s.workers[w].Idle? && s.workers[w].id in s.signalled
    ensures var s' := Work1(cfg, s, w, ack, pit);
            w < |s'.workers| && Heeded(cfg, s.workers[w], s'.workers[w])
  {
    hide Inv, Work1;
    SignalNoticed(cfg, s, s.workers[w].id);
    Held(cfg, s, w);
    StoppedHeeds(cfg, s, w, ack, pit);
  }

  // ----- queue -----

  /** The ids workers have taken during the first n steps, in order. */
  function TakenIds(ss: seq<State>, steps: seq<Step>, n: nat): seq<TaskId>
    requires n <= |steps| && |ss| == |steps| + 1
  {
    if n == 0 then []
    else TakenIds(ss, steps, n - 1) + TakenBy(ss[n - 1], steps[n - 1])
  }

  function TakenBy(s: State, step: Step): seq<TaskId> {
    if step.Work? && WorkEnabled(s, step.w) && s.workers[step.w].Idle? then [s.queue[0]] else []
  }

  /** The ids submitters have enqueued during the first n steps, in order. */
  function EnqueuedIds(ss: seq<State>, steps: seq<Step>, n: nat): seq<TaskId>
    requires n <= |steps| && |ss| == |steps| + 1
  {
    if n == 0 then []
    else EnqueuedIds(ss, steps, n - 1) + EnqueuedBy(ss[n - 1], ss[n], steps[n - 1])
  }

  function EnqueuedBy(s: State, s': State, step: Step): seq<TaskId> {
    if step.Submit? && step.i < |s.submitters| && s.submitters[step.i].Created?
       && step.i < |s'.submitters| && s'.submitters[step.i].Answered?
    then [s.submitters[step.i].id] else []
  }

  lemma QueueMoves(cfg: Config, s: State, step: Step)
    requires Inv(cfg, s) && Enabled(cfg, s, step)
    ensures var s' := Apply(cfg, s, step);
            && s'.log == s.log + EnqueuedBy(s, s', step)
            && TakenBy(s, step) + s'.queue == s.queue + EnqueuedBy(s, s', step)
  {
    hide Inv, Work1, Submit1, Cancel1, Poll1;
    match step
    case Work(w, ack, pit) => WorkHasShape(cfg, s, w, ack, pit);
    case Submit(i, ack, newId) => SubmitHasShape(cfg, s, i, ack, newId);
    case Cancel(i, ack) => CancelHasShape(s, i, ack);
    case Poll(i, ack) => PollAside(s, i, ack);
    case _ =>
  }

  lemma FifoStep<T>(taken: seq<T>, queue: seq<T>, log: seq<T>, t: seq<T>, queue': seq<T>, e: seq<T>)
    requires taken + queue == log && t + queue' == queue + e
    ensures taken + t + queue' == log + e
  {
    assert taken + t + queue' == taken + (t + queue');
  }

  /** First in, first out: what was enqueued is what was taken followed by what is still
      queued. */
  lemma {:induction false} FirstInFirstOut(cfg: Config, ss: seq<State>, steps: seq<Step>, n: nat)
    requires IsExecution(cfg, ss, steps) && n <= |steps|
    ensures EnqueuedIds(ss, steps, n) == ss[n].log
    ensures TakenIds(ss, steps, n) + ss[n].queue == ss[n].log
  {
    hide Inv, ConfigOk, TakenBy, EnqueuedBy;
    if n > 0 {
      var s, s' := ss[n - 1], ss[n];
      FirstInFirstOut(cfg, ss, steps, n - 1);
      Along(cfg, ss, steps, n - 1);
      hide Apply, Enabled;
      QueueMoves(cfg, s, steps[n - 1]);
      FifoStep(TakenIds(ss, steps, n - 1), s.queue, s.log, TakenBy(s, steps[n - 1]), s'.queue,
               EnqueuedBy(s, s', steps[n - 1]));
    }
  }

  /** No id is ever enqueued twice, and every enqueued one has a row. */
  lemma EnqueuedOnce(cfg: Config, ss: seq<State>, steps: seq<Step>, n: nat)
    requires IsExecution(cfg, ss, steps) && n <= |steps|
    ensures Distinct(EnqueuedIds(ss, steps, n))
    ensures forall k :: 0 <= k < |EnqueuedIds(ss, steps, n)| ==> EnqueuedIds(ss, steps, n)[k] in ss[n].db.tasks
  {
    hide Inv, ConfigOk;
    InvOverRuns(cfg, ss, steps, n);
    LogDistinct(cfg, ss[n]);
    FirstInFirstOut(cfg, ss, steps, n);
  }

  lemma LogDistinct(cfg: Config, s: State)
    requires Inv(cfg, s)
    ensures Distinct(s.log)
    ensures forall k :: 0 <= k < |s.log| ==> s.log[k] in s.db.tasks
  {
    InvParts(cfg, s);
    hide Inv;
    forall k | 0 <= k < |s.log|
      ensures s.log[k] in s.db.tasks
    {
      FreshId(cfg, s, s.log[k]);
    }
  }

  // ----- queue full -----

  /** No submitter has been turned away by the queue. */
  ghost predicate NoneTurnedAway(s: State) {
    forall i :: 0 <= i < |s.submitters| ==> !s.submitters[i].Full? && !s.submitters[i].Rejecting?
  }

  /** A submitter about to enqueue holds a slot that is not in the queue. */
  lemma RoomInQueue(cfg: Config, s: State, i: nat)
    requires GateOk(cfg, s) && i < |s.submitters| && s.submitters[i].Created?
    ensures |s.queue| < cfg.gateCap
  {
    hide Sum;
    SumMember(SubmitterSlot, s.submitters, i);
  }

  lemma NoneTurnedAwayStep(cfg: Config, s: State, step: Step)
    requires Inv(cfg, s) && Enabled(cfg, s, step) && NoneTurnedAway(s) && cfg.gateCap <= cfg.queueCap
    ensures NoneTurnedAway(Apply(cfg, s, step))
  {
    InvParts(cfg, s);
    hide Inv, Work1, Cancel1, Poll1;
    match step
    case Work(w, ack, pit) => WorkHasShape(cfg, s, w, ack, pit);
    case Submit(i, ack, newId) =>
      if s.submitters[i].Created? {
        RoomInQueue(cfg, s, i);
      }
      NotTurnedAway(cfg, s, i, ack, newId);
    case Cancel(i, ack) => CancelHasShape(s, i, ack);
    case Poll(i, ack) => PollAside(s, i, ack);
    case _ =>
  }

  lemma NotTurnedAway(cfg: Config, s: State, i: nat, ack: Ack, newId: TaskId)
    requires SubmitEnabled(cfg, s, i, ack, newId) && !s.submitters[i].Full? && !s.submitters[i].Rejecting?
    requires s.submitters[i].Created? ==> |s.queue| < cfg.queueCap
    ensures var s' := Submit1(cfg, s, i, ack, newId);
            && |s'.submitters| == |s.submitters| && s'.submitters == s.submitters[i := s'.submitters[i]]
            && !s'.submitters[i].Full? && !s'.submitters[i].Rejecting?
  {
    hide Submit1;
    SubmitHasShape(cfg, s, i, ack, newId);
  }

  /** With a queue at least as large as the gate, as in the defaults, the queue is never full
      when a submitter gets there. */
  lemma {:induction false} QueueNeverFull(cfg: Config, ss: seq<State>, steps: seq<Step>, n: nat)
    requires IsExecution(cfg, ss, steps) && n <= |steps| && cfg.gateCap <= cfg.queueCap
    ensures NoneTurnedAway(ss[n])
  {
    if n > 0 {
      QueueNeverFull(cfg, ss, steps, n - 1);
      Along(cfg, ss, steps, n - 1);
      hide Inv, ConfigOk, Apply, Enabled, NoneTurnedAway;
      NoneTurnedAwayStep(cfg, ss[n - 1], steps[n - 1]);
    }
  }

  // ----- cancel is idempotent -----

  /** A cancel that finds the row terminal: it has not read it yet, or it has answered with
      what it found, or with an error of its own read. */
  predicate Harmless(c: Canceller, row: Task) {
    || c.Looking?
    || (c.Told? && (c.reply == Error || c.reply == (if c.caller == row.caller then Is(row.status) else NotFound)))
  }

  lemma HarmlessLook(s: State, i: nat, ack: Ack)
    requires CancelEnabled(s, i) && IsTerminalIn(s.db, s.cancellers[i].id)
    requires Harmless(s.cancellers[i], s.db.tasks[s.cancellers[i].id])
    ensures var c' := Cancel1(s, i, ack).cancellers;
            |c'| == |s.cancellers| && c'[i].id == s.cancellers[i].id && Harmless(c'[i], s.db.tasks[c'[i].id])
  {
    hide Swap, Signal;
  }

  lemma HarmlessStep(cfg: Config, s: State, step: Step, c: nat, id: TaskId, row: Task)
    requires Enabled(cfg, s, step) && c < |Apply(cfg, s, step).cancellers|
    requires Apply(cfg, s, step).cancellers[c].id == id && IsTerminalIn(s.db, id) && s.db.tasks[id] == row
    requires c < |s.cancellers| ==> s.cancellers[c].id == id && Harmless(s.cancellers[c], row)
    ensures Harmless(Apply(cfg, s, step).cancellers[c], row)
  {
    CancellersAfter(cfg, s, step);
    hide Work1, Submit1, Cancel1, Poll1;
    if step.Cancel? && step.i == c {
      HarmlessLook(s, c, step.ack);
    }
  }

  /** Every cancel that arrives once the task is terminal and outside the window leaves it
      alone: it never gets as far as switching or signalling, and it answers the owner with the
      one status the row has for the rest of the run. */
  lemma {:induction false} CancelIsIdempotent(cfg: Config, ss: seq<State>, steps: seq<Step>, i: nat, j: nat, c: nat,
                                              id: TaskId)
    requires IsExecution(cfg, ss, steps) && i <= j < |ss| && Settled(ss[i], id)
    requires |ss[i].cancellers| <= c < |ss[j].cancellers| && ss[j].cancellers[c].id == id
    ensures id in ss[i].db.tasks && Harmless(ss[j].cancellers[c], ss[i].db.tasks[id])
  {
    hide Inv, ConfigOk, Settled, Harmless;
    SettledHasRow(ss[i], id);
    if i < j {
      Along(cfg, ss, steps, j - 1);
      hide Apply, Enabled, IsRun;
      SettledForever(cfg, ss, steps, i, j - 1, id);
      SettledHasRow(ss[j - 1], id);
      if c < |ss[j - 1].cancellers| {
        SameCanceller(cfg, ss[j - 1], steps[j - 1], c);
        CancelIsIdempotent(cfg, ss, steps, i, j - 1, c, id);
      }
      HarmlessStep(cfg, ss[j - 1], steps[j - 1], c, id, ss[i].db.tasks[id]);
    }
  }

  lemma SameCanceller(cfg: Config, s: State, step: Step, c: nat)
    requires Enabled(cfg, s, step) && c < |s.cancellers| && c < |Apply(cfg, s, step).cancellers|
    ensures Apply(cfg, s, step).cancellers[c].id == s.cancellers[c].id
  {
    CancellersAfter(cfg, s, step);
    hide Work1, Submit1, Poll1, Cancel1;
    if step.Cancel? {
      CancelHasShape(s, step.i, step.ack);
    }
  }
}
