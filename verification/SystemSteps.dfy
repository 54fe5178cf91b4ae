/** The global parts of the invariant: slots, queue, log, program points, readers. */
module SystemSteps {
  import opened Base
  import opened Types
  import opened Store
  import opened Protocol
  import opened Invariant
  import opened TaskSteps

  // ----- slots -----

  /** The program points from which a worker writes to the store. */
  predicate Writes(pc: Worker) {
    pc.Loaded? || pc.Unmarked? || pc.Appending? || pc.Finalizing?
  }

  /** What a worker's step does to the parts of the state that are shared by all tasks. */
  predicate WorkShape(s: State, s': State, w: nat)
    requires WorkEnabled(s, w)
  {
    && |s'.workers| == |s.workers| && s'.workers == s.workers[w := s'.workers[w]]
    && !s'.workers[w].Exited? && (s'.workers[w].Idle? <==> s.workers[w].Unregistered?)
    && (!s'.workers[w].Idle? ==> s'.workers[w].id == WorkTask(s, w))
    && (s.workers[w].Idle? ==> s'.workers[w].Taken?)
    && s'.queue == (if s.workers[w].Idle? then s.queue[1..] else s.queue)
    && s'.life == (if s.workers[w].Idle? then s.life[WorkTask(s, w) := Working(w, PositionOf(s, WorkTask(s, w)))]
                   else if s.workers[w].Unregistered? then s.life[WorkTask(s, w) := Over(PositionOf(s, WorkTask(s, w)))]
                   else s.life)
    && s'.gate == (if s.workers[w].Unregistered? then Release(s).gate else s.gate)
    && s'.submitters == s.submitters && s'.cancellers == s.cancellers && s'.pollers == s.pollers
    && (!Writes(s.workers[w]) ==> s'.db == s.db)
    && s'.log == s.log && s'.down == s.down && s'.switched == s.switched && s'.signalled == s.signalled
    && s'.ctxDone == (if s.workers[w].Unregistered? then s.ctxDone + {WorkTask(s, w)} else s.ctxDone)
  }

  lemma TakeShape(s: State, w: nat)
    requires WorkEnabled(s, w) && s.workers[w].Idle?
    ensures WorkShape(s, Take(s, w), w)
  {
    hide PositionOf;
  }

  lemma EnterShape(s: State, w: nat, ack: Ack)
    requires WorkEnabled(s, w) && InEnter(s.workers[w])
    ensures WorkShape(s, Enter(s, w, ack), w)
  {
  }

  lemma MarkRunningShape(s: State, w: nat, ack: Ack)
    requires WorkEnabled(s, w) && InMark(s.workers[w])
    ensures WorkShape(s, MarkRunning(s, w, ack), w)
  {
    hide SetVerdict, SetStatus, Write, GiveUp, Mark;
  }

  lemma GatherShape(cfg: Config, s: State, w: nat, ack: Ack, pit: Pit)
    requires WorkEnabled(s, w) && InGather(s.workers[w])
    ensures WorkShape(s, Gather(cfg, s, w, ack, pit), w)
  {
    hide CtxDone, GiveUp;
  }

  lemma PublishShape(cfg: Config, s: State, w: nat, ack: Ack)
    requires WorkEnabled(s, w) && s.workers[w].Appending?
    ensures WorkShape(s, Publish(cfg, s, w, ack), w)
  {
    hide PutPart, Write, GiveUp;
  }

  lemma SettleShape(s: State, w: nat, ack: Ack)
    requires WorkEnabled(s, w) && InSettle(s.workers[w])
    ensures WorkShape(s, Settle(s, w, ack), w)
  {
    hide SetVerdict, Write, Mark, CtxDone;
  }

  lemma LeaveShape(s: State, w: nat)
    requires WorkEnabled(s, w) && InLeave(s.workers[w])
    ensures WorkShape(s, Leave(s, w), w)
  {
    hide PositionOf;
  }

  lemma WorkHasShape(cfg: Config, s: State, w: nat, ack: Ack, pit: Pit)
    requires WorkEnabled(s, w)
    ensures WorkShape(s, Work1(cfg, s, w, ack, pit), w)
  {
    hide WorkShape, Take, Enter, MarkRunning, Gather, Publish, Settle, Leave;
    var pc := s.workers[w];
    if pc.Idle? { TakeShape(s, w); }
    else if InEnter(pc) { EnterShape(s, w, ack); }
    else if InMark(pc) { MarkRunningShape(s, w, ack); }
    else if InGather(pc) { GatherShape(cfg, s, w, ack, pit); }
    else if pc.Appending? { PublishShape(cfg, s, w, ack); }
    else if InSettle(pc) { SettleShape(s, w, ack); }
    else { LeaveShape(s, w); }
  }

  /** A worker's step moves a slot with the task: it comes out of the queue when the task is
      taken, and goes back to the gate when the worker is done. */
  lemma WorkGate(cfg: Config, s: State, w: nat, ack: Ack, pit: Pit)
    requires GateOk(cfg, s) && WorkEnabled(s, w)
    ensures GateOk(cfg, Work1(cfg, s, w, ack, pit))
  {
    hide Work1, Sum;
    var s' := Work1(cfg, s, w, ack, pit);
    WorkHasShape(cfg, s, w, ack, pit);
    SumUpdate(WorkerSlot, s.workers, w, s'.workers[w]);
    SumMember(WorkerSlot, s.workers, w);
  }

  predicate SubmitShape(cfg: Config, s: State, s': State, i: nat)
    requires i < |s.submitters|
  {
    var pc := s.submitters[i];
    && |s'.submitters| == |s.submitters| && s'.submitters == s.submitters[i := s'.submitters[i]]
    && s'.workers == s.workers && s'.cancellers == s.cancellers && s'.pollers == s.pollers
    && (!pc.Holding? && !pc.Rejecting? ==> s'.db == s.db)
    && s'.orphans == s.orphans && s'.ctxDone == s.ctxDone && s'.down == s.down
    && s'.switched == s.switched && s'.signalled == s.signalled
    && if pc.Acquiring? && s'.submitters[i].Holding? then
         && s.gate < cfg.gateCap && s'.gate == s.gate + 1 && s'.queue == s.queue && s'.log == s.log && s'.life == s.life
       else if pc.Holding? && pc.id !in s.db.tasks && pc.id in s'.db.tasks then
         && s'.gate == s.gate && s'.queue == s.queue && s'.log == s.log
         && ((s'.life == s.life[pc.id := Making(i)] && s'.submitters[i] == Created(pc.id))
             || (s'.life == s.life[pc.id := Stray] && s'.submitters[i] == Undoing))
       else if pc.Created? && s'.submitters[i].Answered? then
         && |s.queue| < cfg.queueCap && s'.gate == s.gate && s'.submitters[i] == Answered(Some(pc.id))
         && s'.queue == s.queue + [pc.id] && s'.log == s.log + [pc.id] && s'.life == s.life[pc.id := Waiting(|s.log|)]
       else if pc.Full? || pc.Undoing? then
         && s'.gate == Release(s).gate && s'.queue == s.queue && s'.log == s.log && s'.life == s.life
         && s'.submitters[i] == (if pc.Full? then Rejecting(pc.id) else Answered(None))
       else
         && s'.gate == s.gate && s'.queue == s.queue && s'.log == s.log && (pc.Created? ==> |s.queue| >= cfg.queueCap)
         && s'.life == (if pc.Rejecting? then s.life[pc.id := Dropped] else s.life)
         && s'.submitters[i] == (if pc.Created? then Full(pc.id) else if pc.Holding? then Undoing else Answered(None))
  }

  lemma AdmitShape(cfg: Config, s: State, i: nat, ack: Ack, newId: TaskId)
    requires SubmitEnabled(cfg, s, i, ack, newId) && InAdmit(s.submitters[i])
    ensures SubmitShape(cfg, s, Admit(s, i, ack, newId), i)
  {
  }

  lemma CreateShape(cfg: Config, s: State, i: nat, ack: Ack, newId: TaskId)
    requires SubmitEnabled(cfg, s, i, ack, newId) && s.submitters[i].Holding?
    ensures SubmitShape(cfg, s, Create(s, i, ack), i)
  {
  }

  lemma OfferShape(cfg: Config, s: State, i: nat, ack: Ack, newId: TaskId)
    requires SubmitEnabled(cfg, s, i, ack, newId) && InOffer(s.submitters[i])
    ensures SubmitShape(cfg, s, Offer(cfg, s, i, ack), i)
  {
    hide SetVerdict, Write, QueueFull;
  }

  lemma SubmitHasShape(cfg: Config, s: State, i: nat, ack: Ack, newId: TaskId)
    requires SubmitEnabled(cfg, s, i, ack, newId)
    ensures SubmitShape(cfg, s, Submit1(cfg, s, i, ack, newId), i)
  {
    hide SubmitShape, Admit, Create, Offer;
    if InAdmit(s.submitters[i]) { AdmitShape(cfg, s, i, ack, newId); }
    else if s.submitters[i].Holding? { CreateShape(cfg, s, i, ack, newId); }
    else { OfferShape(cfg, s, i, ack, newId); }
  }

  lemma SubmitGate(cfg: Config, s: State, i: nat, ack: Ack, newId: TaskId)
    requires GateOk(cfg, s) && SubmitEnabled(cfg, s, i, ack, newId)
    ensures GateOk(cfg, Submit1(cfg, s, i, ack, newId))
  {
    hide Submit1, Sum;
    var s' := Submit1(cfg, s, i, ack, newId);
    SubmitHasShape(cfg, s, i, ack, newId);
    SumUpdate(SubmitterSlot, s.submitters, i, s'.submitters[i]);
    SumMember(SubmitterSlot, s.submitters, i);
  }

  /** Cancels and polls read and write rows and marks only. */
  predicate Aside(s: State, s': State) {
    && s'.gate == s.gate && s'.queue == s.queue && s'.log == s.log && s'.down == s.down
    && s'.workers == s.workers && s'.submitters == s.submitters && s'.life == s.life && s'.cancels == s.cancels
    && s'.db.parts == s.db.parts && s'.db.tasks.Keys == s.db.tasks.Keys
  }

  /** What a canceller's step does to everything but the row and the marks of its task. */
  predicate CancelShape(s: State, s': State, i: nat)
    requires i < |s.cancellers|
  {
    && Aside(s, s') && s'.pollers == s.pollers && s'.orphans == s.orphans
    && s.switched <= s'.switched && s.signalled <= s'.signalled && s.ctxDone <= s'.ctxDone
    && |s'.cancellers| == |s.cancellers| && s'.cancellers == s.cancellers[i := s'.cancellers[i]]
    && var c, c' := s.cancellers[i], s'.cancellers[i];
    && c'.id == c.id && c'.caller == c.caller
    && match c
       case Looking(_, _) => c'.Told? || (c'.Swapping? && c.id in s.db.tasks)
       case Swapping(_, _) => c'.Told? || c'.Rereading? || (c'.Signalling? && c.id in s'.switched)
       case Rereading(_, _) => c'.Told?
       case Signalling(_, _) => c'.Told? || c'.Firing?
       case Firing(_, _) => c'.Told?
       case Told(_, _, _) => true
  }

  lemma LookShape(s: State, i: nat, ack: Ack)
    requires i < |s.cancellers| && InLook(s.cancellers[i])
    ensures CancelShape(s, Look(s, i, ack), i)
  {
  }

  lemma SwapShape(s: State, i: nat, ack: Ack)
    requires i < |s.cancellers| && s.cancellers[i].Swapping?
    ensures CancelShape(s, Swap(s, i, ack), i)
  {
  }

  lemma SignalShape(s: State, i: nat)
    requires i < |s.cancellers| && InSignal(s.cancellers[i])
    ensures CancelShape(s, Signal(s, i), i)
  {
  }

  lemma CancelHasShape(s: State, i: nat, ack: Ack)
    requires CancelEnabled(s, i)
    ensures CancelShape(s, Cancel1(s, i, ack), i)
  {
    hide CancelShape, Look, Swap, Signal;
    var pc := s.cancellers[i];
    if InLook(pc) { LookShape(s, i, ack); }
    else if pc.Swapping? { SwapShape(s, i, ack); }
    else { SignalShape(s, i); }
  }

  lemma PollAside(s: State, i: nat, ack: Ack)
    requires PollEnabled(s, i)
    ensures Aside(s, Poll1(s, i, ack)) && Poll1(s, i, ack).db == s.db
    ensures Poll1(s, i, ack).cancellers == s.cancellers && Poll1(s, i, ack).switched == s.switched
    ensures Poll1(s, i, ack).orphans == s.orphans
  {
  }

  lemma StepGate(cfg: Config, s: State, step: Step)
    requires GateOk(cfg, s) && Enabled(cfg, s, step)
    ensures GateOk(cfg, Apply(cfg, s, step))
  {
    hide Work1, Submit1, Cancel1, Poll1, Sum;
    match step
    case Work(w, ack, pit) => WorkGate(cfg, s, w, ack, pit);
    case Submit(i, ack, newId) => SubmitGate(cfg, s, i, ack, newId);
    case Arrive(row) =>
      SumAppend(SubmitterSlot, s.submitters, [Acquiring(row)]);
      SumSingle(SubmitterSlot, Acquiring(row));
    case Exit(w) =>
      SumUpdate(WorkerSlot, s.workers, w, Exited);
    case Cancel(i, ack) => CancelHasShape(s, i, ack);
    case Poll(i, ack) => PollAside(s, i, ack);
    case _ =>
  }

  // ----- queue and log -----

  lemma TailShrinks(log: seq<TaskId>, queue: seq<TaskId>)
    requires queue != [] && |queue| <= |log| && queue == log[|log| - |queue|..]
    ensures queue[1..] == log[|log| - |queue[1..]|..]
  {
  }

  lemma TailGrows(log: seq<TaskId>, queue: seq<TaskId>, id: TaskId)
    requires |queue| <= |log| && queue == log[|log| - |queue|..]
    ensures queue + [id] == (log + [id])[|log + [id]| - |queue + [id]|..]
  {
  }

  lemma WorkQueue(cfg: Config, s: State, w: nat, ack: Ack, pit: Pit)
    requires QueueOk(cfg, s) && WorkEnabled(s, w)
    ensures QueueOk(cfg, Work1(cfg, s, w, ack, pit))
  {
    hide Work1;
    WorkHasShape(cfg, s, w, ack, pit);
    if s.workers[w].Idle? {
      TailShrinks(s.log, s.queue);
    }
  }

  lemma SubmitQueue(cfg: Config, s: State, i: nat, ack: Ack, newId: TaskId)
    requires QueueOk(cfg, s) && SubmitEnabled(cfg, s, i, ack, newId)
    ensures QueueOk(cfg, Submit1(cfg, s, i, ack, newId))
  {
    hide Submit1;
    SubmitHasShape(cfg, s, i, ack, newId);
    if s.submitters[i].Created? {
      TailGrows(s.log, s.queue, s.submitters[i].id);
    }
  }

  lemma StepQueue(cfg: Config, s: State, step: Step)
    requires QueueOk(cfg, s) && Enabled(cfg, s, step)
    ensures QueueOk(cfg, Apply(cfg, s, step))
  {
    hide Work1, Submit1, Cancel1, Poll1;
    match step
    case Work(w, ack, pit) => WorkQueue(cfg, s, w, ack, pit);
    case Submit(i, ack, newId) => SubmitQueue(cfg, s, i, ack, newId);
    case Cancel(i, ack) => CancelHasShape(s, i, ack);
    case Poll(i, ack) => PollAside(s, i, ack);
    case _ =>
  }

  lemma LogTake(log: seq<TaskId>, n: nat, life: map<TaskId, Life>, id: TaskId, w: nat)
    requires LogFits(log, n, life) && id in life && 0 < n <= |log| && life[id] == Waiting(|log| - n)
    ensures LogFits(log, n - 1, life[id := Working(w, |log| - n)])
  {
  }

  lemma LogEnd(log: seq<TaskId>, n: nat, life: map<TaskId, Life>, id: TaskId)
    requires LogFits(log, n, life) && id in life && life[id].Working?
    ensures LogFits(log, n, life[id := Over(life[id].k)])
  {
  }

  lemma LogPush(log: seq<TaskId>, n: nat, life: map<TaskId, Life>, id: TaskId)
    requires LogFits(log, n, life) && n <= |log| && (id in life ==> !WasEnqueued(life[id]))
    ensures LogFits(log + [id], n + 1, life[id := Waiting(|log|)])
  {
  }

  lemma LogAside(log: seq<TaskId>, n: nat, life: map<TaskId, Life>, id: TaskId, l: Life)
    requires LogFits(log, n, life) && (id in life ==> !WasEnqueued(life[id])) && !WasEnqueued(l)
    ensures LogFits(log, n, life[id := l])
  {
  }

  lemma StepLog(cfg: Config, s: State, step: Step)
    requires Inv(cfg, s) && Enabled(cfg, s, step)
    ensures LogOk(Apply(cfg, s, step))
  {
    hide Work1, Submit1, Cancel1, Poll1, Inv, LogFits;
    InvParts(cfg, s);
    match step
    case Work(w, ack, pit) =>
      WorkHasShape(cfg, s, w, ack, pit);
      var id := WorkTask(s, w);
      if s.workers[w].Idle? {
        HeadIsWaiting(cfg, s);
        LogTake(s.log, |s.queue|, s.life, id, w);
      } else if s.workers[w].Unregistered? {
        LogEnd(s.log, |s.queue|, s.life, id);
      }
    case Submit(i, ack, newId) =>
      SubmitHasShape(cfg, s, i, ack, newId);
      var c := s.submitters[i];
      if c.Holding? {
        FreshId(cfg, s, c.id);
        if c.id !in s.life {
          LogAside(s.log, |s.queue|, s.life, c.id, Making(i));
          LogAside(s.log, |s.queue|, s.life, c.id, Stray);
        }
      } else if InOffer(c) {
        LogPush(s.log, |s.queue|, s.life, c.id);
        LogAside(s.log, |s.queue|, s.life, c.id, Dropped);
      }
    case Cancel(i, ack) => CancelHasShape(s, i, ack);
    case Poll(i, ack) => PollAside(s, i, ack);
    case _ =>
  }

  lemma InvParts(cfg: Config, s: State)
    requires Inv(cfg, s)
    ensures GateOk(cfg, s) && QueueOk(cfg, s) && LogOk(s) && HolderOk(s)
  {
    hide GateOk, QueueOk, LogOk, HolderOk, CancellersOk, PollersOk, ViewsOk;
  }

  /** A task has a life exactly when it has a row. */
  lemma FreshId(cfg: Config, s: State, id: TaskId)
    requires Inv(cfg, s)
    ensures id in s.life <==> id in s.db.tasks
  {
    hide GateOk, QueueOk, LogOk, HolderOk, CancellersOk, PollersOk;
    assert TaskOk(cfg, id, ViewOf(s, id));
  }

  lemma HoldersTake(workers: seq<Worker>, submitters: seq<Submitter>, life: map<TaskId, Life>, w: nat, pc: Worker,
                    l: Life)
    requires HoldersFit(workers, submitters, life) && w < |workers| && !Holds(workers[w]) && Holds(pc)
    requires pc.id in life && life[pc.id].Waiting? && l.Working? && l.w == w
    ensures HoldersFit(workers[w := pc], submitters, life[pc.id := l])
  {
  }

  lemma HoldersKeep(workers: seq<Worker>, submitters: seq<Submitter>, life: map<TaskId, Life>, w: nat, pc: Worker)
    requires HoldersFit(workers, submitters, life) && w < |workers| && Holds(workers[w])
    requires Holds(pc) && pc.id == workers[w].id
    ensures HoldersFit(workers[w := pc], submitters, life)
  {
  }

  lemma HoldersDrop(workers: seq<Worker>, submitters: seq<Submitter>, life: map<TaskId, Life>, w: nat, pc: Worker,
                    l: Life)
    requires HoldersFit(workers, submitters, life) && w < |workers| && Holds(workers[w]) && !Holds(pc) && l.Over?
    ensures HoldersFit(workers[w := pc], submitters, life[workers[w].id := l])
  {
  }

  lemma HoldersSubmit(workers: seq<Worker>, submitters: seq<Submitter>, life: map<TaskId, Life>, i: nat, pc: Submitter)
    requires HoldersFit(workers, submitters, life) && i < |submitters|
    requires InOffer(pc) ==> InOffer(submitters[i]) && submitters[i].id == pc.id
    requires pc.Answered? ==> pc.accepted.None?
    ensures HoldersFit(workers, submitters[i := pc], life)
  {
  }

  lemma HoldersLife(workers: seq<Worker>, submitters: seq<Submitter>, life: map<TaskId, Life>, i: nat, pc: Submitter,
                    id: TaskId, l: Life)
    requires HoldersFit(workers, submitters, life) && i < |submitters|
    requires id in life ==> life[id] == Making(i)
    requires InOffer(pc) ==> pc.id == id && l == Making(i)
    requires pc.Answered? && pc.accepted.Some? ==> pc.accepted.value == id && WasEnqueued(l)
    ensures HoldersFit(workers, submitters[i := pc], life[id := l])
  {
  }

  lemma HoldersArrive(workers: seq<Worker>, submitters: seq<Submitter>, life: map<TaskId, Life>, pc: Submitter)
    requires HoldersFit(workers, submitters, life) && pc.Acquiring?
    ensures HoldersFit(workers, submitters + [pc], life)
  {
  }

  lemma HoldersExit(workers: seq<Worker>, submitters: seq<Submitter>, life: map<TaskId, Life>, w: nat)
    requires HoldersFit(workers, submitters, life) && w < |workers|
    ensures HoldersFit(workers[w := Exited], submitters, life)
  {
  }

  lemma StepHolders(cfg: Config, s: State, step: Step)
    requires Inv(cfg, s) && Enabled(cfg, s, step)
    ensures HolderOk(Apply(cfg, s, step))
  {
    hide Work1, Submit1, Cancel1, Poll1, Inv;
    InvParts(cfg, s);
    match step
    case Work(w, ack, pit) =>
      WorkHasShape(cfg, s, w, ack, pit);
      var id := WorkTask(s, w);
      var pc := Work1(cfg, s, w, ack, pit).workers[w];
      if s.workers[w].Idle? {
        HeadIsWaiting(cfg, s);
        HoldersTake(s.workers, s.submitters, s.life, w, pc, Working(w, PositionOf(s, id)));
      } else if s.workers[w].Unregistered? {
        HoldersDrop(s.workers, s.submitters, s.life, w, pc, Over(PositionOf(s, id)));
      } else {
        HoldersKeep(s.workers, s.submitters, s.life, w, pc);
      }
    case Submit(i, ack, newId) =>
      SubmitHasShape(cfg, s, i, ack, newId);
      StepHoldersSubmit(cfg, s, i, Submit1(cfg, s, i, ack, newId));
    case Arrive(row) => HoldersArrive(s.workers, s.submitters, s.life, Acquiring(row));
    case Exit(w) => HoldersExit(s.workers, s.submitters, s.life, w);
    case Cancel(i, ack) => CancelHasShape(s, i, ack);
    case Poll(i, ack) => PollAside(s, i, ack);
    case _ =>
  }

  lemma StepHoldersSubmit(cfg: Config, s: State, i: nat, s': State)
    requires Inv(cfg, s) && i < |s.submitters| && SubmitShape(cfg, s, s', i)
    ensures HolderOk(s')
  {
    hide Inv;
    InvParts(cfg, s);
    var c, pc := s.submitters[i], s'.submitters[i];
    if s'.life == s.life && !pc.Created? {
      HoldersSubmit(s.workers, s.submitters, s.life, i, pc);
    } else {
      FreshId(cfg, s, c.id);
      HoldersLife(s.workers, s.submitters, s.life, i, pc, c.id, s'.life[c.id]);
    }
  }

  // ----- rows -----

  /** The steps that may write the row or the parts of an existing task. */
  predicate Writer(s: State, step: Step, id: TaskId) {
    match step
    case Work(w, ack, _) => w < |s.workers| && Writes(s.workers[w]) && s.workers[w].id == id && ack != Refused
    case Submit(i, ack, _) => i < |s.submitters| && s.submitters[i] == Rejecting(id) && ack != Refused
    case Cancel(i, ack) =>
      && i < |s.cancellers| && s.cancellers[i].Swapping? && s.cancellers[i].id == id
      && ack != Refused && CanSwitch(s.db, id)
    case _ => false
  }

  ghost predicate SameRow(s: State, s': State, id: TaskId) {
    id in s'.db.tasks && id in s.db.tasks && s'.db.tasks[id] == s.db.tasks[id] && RowsOf(s'.db, id) == RowsOf(s.db, id)
  }

  lemma SameView(s: State, s': State, id: TaskId)
    requires ViewOf(s', id) == ViewOf(s, id) && id in s.db.tasks
    ensures SameRow(s, s', id)
  {
    hide RowsOf, OwnerOf;
    assert ViewOf(s', id).row == ViewOf(s, id).row;
  }

  lemma RefusedWrite(cfg: Config, s: State, w: nat, pit: Pit)
    requires WorkEnabled(s, w) && Writes(s.workers[w])
    ensures Work1(cfg, s, w, Refused, pit).db == s.db
  {
    hide SetVerdict, SetStatus, PutPart, GiveUp;
  }

  lemma WorkRow(cfg: Config, s: State, w: nat, ack: Ack, pit: Pit, id: TaskId)
    requires ConfigOk(cfg) && Inv(cfg, s) && WorkEnabled(s, w) && id in s.db.tasks
    requires !Writer(s, Work(w, ack, pit), id)
    ensures SameRow(s, Work1(cfg, s, w, ack, pit), id)
  {
    hide Inv, ConfigOk, Work1, ViewOf;
    if id != WorkTask(s, w) {
      WorkViews(cfg, s, w, ack, pit, id);
      SameView(s, Work1(cfg, s, w, ack, pit), id);
    } else {
      WorkHasShape(cfg, s, w, ack, pit);
      if Writes(s.workers[w]) {
        RefusedWrite(cfg, s, w, pit);
      }
    }
  }

  lemma CreateKeeps(s: State, i: nat, ack: Ack, id: TaskId)
    requires i < |s.submitters| && s.submitters[i].Holding? && id in s.db.tasks
    ensures SameRow(s, Create(s, i, ack), id)
  {
  }

  lemma RejectRow(cfg: Config, s: State, i: nat, ack: Ack, id: TaskId)
    requires i < |s.submitters| && s.submitters[i].Rejecting? && id in s.db.tasks
    requires id != s.submitters[i].id || ack == Refused
    ensures SameRow(s, Offer(cfg, s, i, ack), id)
  {
    hide QueueFull;
  }

  lemma SubmitRow(cfg: Config, s: State, i: nat, ack: Ack, newId: TaskId, id: TaskId)
    requires SubmitEnabled(cfg, s, i, ack, newId) && id in s.db.tasks
    requires !Writer(s, Submit(i, ack, newId), id)
    ensures SameRow(s, Submit1(cfg, s, i, ack, newId), id)
  {
    hide Admit, Create, Offer;
    var pc := s.submitters[i];
    if pc.Holding? {
      CreateKeeps(s, i, ack, id);
    } else if pc.Rejecting? {
      RejectRow(cfg, s, i, ack, id);
    } else {
      SubmitHasShape(cfg, s, i, ack, newId);
    }
  }

  lemma CancelRow(s: State, i: nat, ack: Ack, id: TaskId)
    requires CancelEnabled(s, i) && id in s.db.tasks && !Writer(s, Cancel(i, ack), id)
    ensures SameRow(s, Cancel1(s, i, ack), id)
  {
  }

  /** Whatever is not written by one of the named steps stays as it is; no row disappears. */
  lemma RowStays(cfg: Config, s: State, step: Step, id: TaskId)
    requires ConfigOk(cfg) && Inv(cfg, s) && Enabled(cfg, s, step) && id in s.db.tasks && !Writer(s, step, id)
    ensures SameRow(s, Apply(cfg, s, step), id)
  {
    hide Inv, ConfigOk, Work1, Submit1, Cancel1, Poll1, Writer;
    match step
    case Work(w, ack, pit) => WorkRow(cfg, s, w, ack, pit, id);
    case Submit(i, ack, newId) => SubmitRow(cfg, s, i, ack, newId, id);
    case Cancel(i, ack) => CancelRow(s, i, ack, id);
    case Poll(i, ack) => PollAside(s, i, ack);
    case _ =>
  }

  /** The row of a task some step is about to write is not settled: it is queued, running, or
      a cancellation that came in between. */
  lemma WriterWindow(cfg: Config, s: State, step: Step, id: TaskId)
    requires Inv(cfg, s) && Enabled(cfg, s, step) && Writer(s, step, id)
    ensures id in s.db.tasks && s.db.tasks[id].status in {Queued, Running, Cancelled}
    ensures s.db.tasks[id].status == Cancelled ==> id in s.switched
  {
    hide Inv;
    match step
    case Work(w, ack, pit) => Held(cfg, s, w);
    case Submit(i, ack, newId) => Makes(cfg, s, i);
    case Cancel(i, ack) =>
  }

  /** A published task is final, row and parts. */
  lemma PublishedStays(cfg: Config, s: State, step: Step, id: TaskId)
    requires ConfigOk(cfg) && Inv(cfg, s) && Enabled(cfg, s, step)
    requires id in s.db.tasks && s.db.tasks[id].status.IsPublished()
    ensures SameRow(s, Apply(cfg, s, step), id)
  {
    hide Inv, ConfigOk, Apply, Enabled, Writer;
    if Writer(s, step, id) {
      WriterWindow(cfg, s, step, id);
    } else {
      RowStays(cfg, s, step, id);
    }
  }

  // ----- cancellers and pollers -----

  /** A write leaves the row as it is, or running, or terminal: nothing is queued again; and it
      leaves the columns that are written once. */
  lemma WriterOutcome(cfg: Config, s: State, step: Step, id: TaskId)
    requires Inv(cfg, s) && Enabled(cfg, s, step) && Writer(s, step, id)
    ensures var s' := Apply(cfg, s, step);
            && id in s.db.tasks && id in s'.db.tasks
            && var st := s'.db.tasks[id].status;
            && (st == s.db.tasks[id].status || st == Running || st.IsTerminal())
            && ScopeOf(s'.db.tasks[id]) == ScopeOf(s.db.tasks[id])
  {
    hide Inv;
    match step
    case Work(w, ack, pit) => WorkOutcome(cfg, s, w, ack, pit);
    case Submit(i, ack, newId) => RejectOutcome(cfg, s, i, ack, newId, id);
    case Cancel(i, ack) => SwapOutcome(s, i, ack);
  }

  lemma WorkOutcome(cfg: Config, s: State, w: nat, ack: Ack, pit: Pit)
    requires Inv(cfg, s) && WorkEnabled(s, w) && Writes(s.workers[w])
    ensures var id, db := s.workers[w].id, Work1(cfg, s, w, ack, pit).db;
            && id in s.db.tasks && id in db.tasks
            && var st := db.tasks[id].status;
            && (st == s.db.tasks[id].status || st == Running || st.IsTerminal())
            && ScopeOf(db.tasks[id]) == ScopeOf(s.db.tasks[id])
  {
    hide Inv, GiveUp, Upsert, CtxDone, Mark;
    Held(cfg, s, w);
  }

  lemma RejectOutcome(cfg: Config, s: State, i: nat, ack: Ack, newId: TaskId, id: TaskId)
    requires Inv(cfg, s) && SubmitEnabled(cfg, s, i, ack, newId) && s.submitters[i] == Rejecting(id)
    ensures id in s.db.tasks
    ensures var db := Submit1(cfg, s, i, ack, newId).db;
            && id in db.tasks && ScopeOf(db.tasks[id]) == ScopeOf(s.db.tasks[id])
            && (db.tasks[id].status == s.db.tasks[id].status || db.tasks[id].status.IsTerminal())
  {
    hide Inv, QueueFull;
    Makes(cfg, s, i);
  }

  lemma SwapOutcome(s: State, i: nat, ack: Ack)
    requires CancelEnabled(s, i) && s.cancellers[i].Swapping? && CanSwitch(s.db, s.cancellers[i].id)
    requires ack != Refused
    ensures var id, db := s.cancellers[i].id, Cancel1(s, i, ack).db;
            IsCancelled(db, id) && ScopeOf(db.tasks[id]) == ScopeOf(s.db.tasks[id])
  {
    hide Look, Signal;
  }

  predicate IsCancelled(db: Db, id: TaskId) {
    id in db.tasks && db.tasks[id].status == Cancelled
  }

  /** No row disappears or changes in the columns that are written once, and no mark is taken
      back. */
  lemma Grows(cfg: Config, s: State, step: Step, id: TaskId)
    requires ConfigOk(cfg) && Inv(cfg, s) && Enabled(cfg, s, step)
    ensures id in s.db.tasks ==>
              id in Apply(cfg, s, step).db.tasks && ScopeOf(Apply(cfg, s, step).db.tasks[id]) == ScopeOf(s.db.tasks[id])
    ensures id in s.switched ==> id in Apply(cfg, s, step).switched
  {
    hide Inv, ConfigOk, Work1, Submit1, Cancel1, Poll1, Writer;
    if id in s.db.tasks {
      if Writer(s, step, id) {
        WriterOutcome(cfg, s, step, id);
      } else {
        RowStays(cfg, s, step, id);
      }
    }
    match step
    case Work(w, ack, pit) => WorkHasShape(cfg, s, w, ack, pit);
    case Submit(i, ack, newId) => SubmitHasShape(cfg, s, i, ack, newId);
    case Cancel(i, ack) => CancelHasShape(s, i, ack);
    case Poll(i, ack) => PollAside(s, i, ack);
    case _ =>
  }

  /** The cancellers after a step: one has moved on, one has arrived, or nothing happened. */
  lemma CancellersAfter(cfg: Config, s: State, step: Step)
    requires Enabled(cfg, s, step)
    ensures var cs := Apply(cfg, s, step).cancellers;
            match step
            case Cancel(i, ack) => i < |s.cancellers| && cs == s.cancellers[i := Cancel1(s, i, ack).cancellers[i]]
            case AskCancel(id, caller) => cs == s.cancellers + [Looking(id, caller)]
            case _ => cs == s.cancellers
  {
    hide Work1, Submit1, Cancel1, Poll1;
    match step
    case Work(w, ack, pit) => WorkHasShape(cfg, s, w, ack, pit);
    case Submit(i, ack, newId) => SubmitHasShape(cfg, s, i, ack, newId);
    case Cancel(i, ack) => CancelHasShape(s, i, ack);
    case Poll(i, ack) => PollAside(s, i, ack);
    case _ =>
  }

  lemma CancellerMoves(s: State, i: nat, ack: Ack)
    requires CancelEnabled(s, i) && CancellerOk(s.cancellers[i], s.switched, s.db)
    ensures var s' := Cancel1(s, i, ack); i < |s'.cancellers| && CancellerOk(s'.cancellers[i], s'.switched, s'.db)
  {
    hide Look, Swap, Signal;
    var c := s.cancellers[i];
    if InLook(c) { LookMoves(s, i, ack); }
    else if c.Swapping? { SwapMoves(s, i, ack); }
    else { SignalMoves(s, i); }
  }

  lemma LookMoves(s: State, i: nat, ack: Ack)
    requires i < |s.cancellers| && InLook(s.cancellers[i]) && CancellerOk(s.cancellers[i], s.switched, s.db)
    ensures var s' := Look(s, i, ack); i < |s'.cancellers| && CancellerOk(s'.cancellers[i], s'.switched, s'.db)
  {
  }

  lemma SwapMoves(s: State, i: nat, ack: Ack)
    requires i < |s.cancellers| && s.cancellers[i].Swapping? && CancellerOk(s.cancellers[i], s.switched, s.db)
    ensures var s' := Swap(s, i, ack); i < |s'.cancellers| && CancellerOk(s'.cancellers[i], s'.switched, s'.db)
  {
  }

  lemma SignalMoves(s: State, i: nat)
    requires i < |s.cancellers| && InSignal(s.cancellers[i]) && CancellerOk(s.cancellers[i], s.switched, s.db)
    ensures var s' := Signal(s, i); i < |s'.cancellers| && CancellerOk(s'.cancellers[i], s'.switched, s'.db)
  {
  }

  /** What a canceller has found stays possible: only a write over another cancel's switch makes
      a terminal row `running` again. */
  lemma CancellerStays(cfg: Config, s: State, step: Step, c: Canceller)
    requires ConfigOk(cfg) && Inv(cfg, s) && Enabled(cfg, s, step) && CancellerOk(c, s.switched, s.db)
    ensures CancellerOk(c, Apply(cfg, s, step).switched, Apply(cfg, s, step).db)
  {
    hide Inv, ConfigOk, Apply, Enabled, Writer;
    Grows(cfg, s, step, c.id);
    if c.Rereading? {
      if Writer(s, step, c.id) {
        WriterOutcome(cfg, s, step, c.id);
        WriterWindow(cfg, s, step, c.id);
      } else {
        RowStays(cfg, s, step, c.id);
      }
    }
  }

  lemma StepCancellers(cfg: Config, s: State, step: Step)
    requires ConfigOk(cfg) && Inv(cfg, s) && Enabled(cfg, s, step)
    ensures CancellersOk(Apply(cfg, s, step))
  {
    var s' := Apply(cfg, s, step);
    CancellersAfter(cfg, s, step);
    forall i | 0 <= i < |s'.cancellers|
      ensures CancellerOk(s'.cancellers[i], s'.switched, s'.db)
    {
      assert i < |s.cancellers| ==> CancellerOk(s.cancellers[i], s.switched, s.db);
      hide Inv, ConfigOk, Work1, Submit1, Poll1, Cancel1;
      if step.Cancel? && step.i == i {
        CancellerMoves(s, i, step.ack);
      } else if i < |s.cancellers| {
        CancellerStays(cfg, s, step, s.cancellers[i]);
      }
    }
  }

  lemma PollersAfter(cfg: Config, s: State, step: Step)
    requires Enabled(cfg, s, step)
    ensures var ps := Apply(cfg, s, step).pollers;
            match step
            case Poll(i, ack) => i < |s.pollers| && ps == s.pollers[i := Poll1(s, i, ack).pollers[i]]
            case AskPoll(id, caller) => ps == s.pollers + [Asking(id, caller)]
            case _ => ps == s.pollers
  {
    hide Work1, Submit1, Cancel1;
    match step
    case Work(w, ack, pit) => WorkHasShape(cfg, s, w, ack, pit);
    case Submit(i, ack, newId) => SubmitHasShape(cfg, s, i, ack, newId);
    case Cancel(i, ack) => CancelHasShape(s, i, ack);
    case _ =>
  }

  lemma PollerMoves(s: State, i: nat, ack: Ack)
    requires PollEnabled(s, i) && PollerOk(s.pollers[i], s.db)
    ensures var s' := Poll1(s, i, ack); i < |s'.pollers| && PollerOk(s'.pollers[i], s'.db)
  {
  }

  /** What a poll holds in hand outlives every step, because published tasks do. */
  lemma PollerStays(cfg: Config, s: State, step: Step, p: Poller)
    requires ConfigOk(cfg) && Inv(cfg, s) && Enabled(cfg, s, step) && PollerOk(p, s.db)
    ensures PollerOk(p, Apply(cfg, s, step).db)
  {
    hide Inv, ConfigOk, Apply, Enabled;
    Grows(cfg, s, step, p.id);
    if p.Reading? || (p.Shown? && p.answer.Delivered?) {
      PublishedStays(cfg, s, step, p.id);
    }
  }

  lemma StepPollers(cfg: Config, s: State, step: Step)
    requires ConfigOk(cfg) && Inv(cfg, s) && Enabled(cfg, s, step)
    ensures PollersOk(Apply(cfg, s, step))
  {
    var s' := Apply(cfg, s, step);
    PollersAfter(cfg, s, step);
    forall i | 0 <= i < |s'.pollers|
      ensures PollerOk(s'.pollers[i], s'.db)
    {
      assert i < |s.pollers| ==> PollerOk(s.pollers[i], s.db);
      hide Inv, ConfigOk, Work1, Submit1, Poll1, Cancel1;
      if step.Poll? && step.i == i {
        PollerMoves(s, i, step.ack);
      } else if i < |s.pollers| {
        PollerStays(cfg, s, step, s.pollers[i]);
      }
    }
  }

  // ----- the invariant -----

  lemma GateInitially(cfg: Config, s: State)
    requires Init(s)
    ensures GateOk(cfg, s)
  {
    AllIdle(s.workers);
  }

  lemma PartiesInitially(cfg: Config, s: State)
    requires Init(s)
    ensures QueueOk(cfg, s) && LogOk(s) && HolderOk(s) && CancellersOk(s) && PollersOk(s)
  {
  }

  lemma ViewsInitially(cfg: Config, s: State)
    requires Init(s)
    ensures ViewsOk(cfg, s)
  {
  }

  lemma {:induction false} AllIdle(workers: seq<Worker>)
    requires forall w :: 0 <= w < |workers| ==> workers[w] == Idle
    ensures Sum(WorkerSlot, workers) == 0
  {
    if workers != [] {
      AllIdle(workers[1..]);
    }
  }

  lemma InvStep(cfg: Config, s: State, step: Step)
    requires ConfigOk(cfg) && Inv(cfg, s) && Enabled(cfg, s, step)
    ensures Inv(cfg, Apply(cfg, s, step))
  {
    InvParts(cfg, s);
    StepViews(cfg, s, step);
    StepGate(cfg, s, step);
    StepQueue(cfg, s, step);
    StepLog(cfg, s, step);
    StepHolders(cfg, s, step);
    StepCancellers(cfg, s, step);
    StepPollers(cfg, s, step);
    hide Apply, GateOk, QueueOk, LogOk, HolderOk, CancellersOk, PollersOk, ViewsOk;
  }

  /** The invariant holds in every state of every run. */
  lemma {:induction false} InvOverRuns(cfg: Config, ss: seq<State>, steps: seq<Step>, i: nat)
    requires ConfigOk(cfg) && IsRun(cfg, ss, steps) && Init(ss[0]) && i < |ss|
    ensures Inv(cfg, ss[i])
  {
    if i == 0 {
      GateInitially(cfg, ss[0]);
      PartiesInitially(cfg, ss[0]);
      ViewsInitially(cfg, ss[0]);
      hide Init, GateOk, QueueOk, LogOk, HolderOk, CancellersOk, PollersOk, ViewsOk;
    } else {
      InvOverRuns(cfg, ss, steps, i - 1);
      assert Moves(cfg, ss, steps, i - 1);
      InvStep(cfg, ss[i - 1], steps[i - 1]);
    }
  }
}
