/** Every step keeps the invariant. A step touches one task: the views of all others stay as
    they are (the `...Others` lemmas), and the touched one is followed through its program
    point (the `...Local` lemmas). */
module TaskSteps {
  import opened Base
  import opened Types
  import opened Store
  import opened Protocol
  import opened Invariant

  /** The task a worker's next step is about. */
  function WorkTask(s: State, w: nat): TaskId
    requires WorkEnabled(s, w)
  {
    if s.workers[w].Idle? then s.queue[0] else s.workers[w].id
  }

  lemma HeadIsWaiting(cfg: Config, s: State)
    requires QueueOk(cfg, s) && LogOk(s) && s.queue != []
    ensures s.queue[0] in s.life && s.life[s.queue[0]] == Waiting(|s.log| - |s.queue|)
    ensures PositionOf(s, s.queue[0]) == |s.log| - |s.queue|
  {
    assert s.queue[0] == s.log[|s.log| - |s.queue|];
  }

  /** No other task is owned by this worker. */
  lemma NotOwner(cfg: Config, s: State, w: nat, id: TaskId)
    requires Inv(cfg, s) && WorkEnabled(s, w) && id != WorkTask(s, w)
    ensures id in s.life && s.life[id].Working? ==> s.life[id].w != w
  {
    hide GateOk, QueueOk, LogOk, CancellersOk, PollersOk, HolderOk;
    assert TaskOk(cfg, id, ViewOf(s, id));
  }

  /** What the invariant says about a worker's own task. */
  lemma Held(cfg: Config, s: State, w: nat)
    requires Inv(cfg, s) && WorkEnabled(s, w) && !s.workers[w].Idle?
    ensures var id := s.workers[w].id;
            && id in s.life && s.life[id].Working? && s.life[id].w == w
            && Common(ViewOf(s, id)) && WorkerOk(cfg, id, ViewOf(s, id), s.workers[w])
  {
    hide GateOk, QueueOk, LogOk, CancellersOk, PollersOk, WorkerOk;
    var id := s.workers[w].id;
    assert TaskOk(cfg, id, ViewOf(s, id));
  }

  /** And the other way round: what has to be shown after the worker's step. */
  lemma Back(cfg: Config, s: State, w: nat, id: TaskId)
    requires w < |s.workers| && id in s.life && s.life[id].Working? && s.life[id].w == w
    requires Common(ViewOf(s, id)) && WorkerOk(cfg, id, ViewOf(s, id), s.workers[w])
    ensures TaskOk(cfg, id, ViewOf(s, id))
  {
    hide Common, WorkerOk;
  }

  lemma TakeOthers(cfg: Config, s: State, w: nat, id: TaskId)
    requires Inv(cfg, s) && WorkEnabled(s, w) && s.workers[w].Idle? && id != s.queue[0]
    ensures ViewOf(Take(s, w), id) == ViewOf(s, id)
  {
    hide Inv, GiveUp;
    NotOwner(cfg, s, w, id);
  }

  lemma TakeLocal(cfg: Config, s: State, w: nat)
    requires Inv(cfg, s) && WorkEnabled(s, w) && s.workers[w].Idle?
    ensures TaskOk(cfg, s.queue[0], ViewOf(Take(s, w), s.queue[0]))
  {
    hide GateOk, CancellersOk, PollersOk;
    assert TaskOk(cfg, s.queue[0], ViewOf(s, s.queue[0]));
    HeadIsWaiting(cfg, s);
  }

  lemma EnterOthers(cfg: Config, s: State, w: nat, ack: Ack, id: TaskId)
    requires Inv(cfg, s) && WorkEnabled(s, w) && InEnter(s.workers[w]) && id != s.workers[w].id
    ensures ViewOf(Enter(s, w, ack), id) == ViewOf(s, id)
  {
    hide Inv, GiveUp;
    NotOwner(cfg, s, w, id);
  }

  lemma EnterLocal(cfg: Config, s: State, w: nat, ack: Ack)
    requires Inv(cfg, s) && WorkEnabled(s, w) && InEnter(s.workers[w])
    ensures TaskOk(cfg, s.workers[w].id, ViewOf(Enter(s, w, ack), s.workers[w].id))
  {
    hide Inv, GiveUp, TaskOk;
    Held(cfg, s, w);
    Back(cfg, Enter(s, w, ack), w, s.workers[w].id);
  }

  lemma MarkRunningOthers(cfg: Config, s: State, w: nat, ack: Ack, id: TaskId)
    requires Inv(cfg, s) && WorkEnabled(s, w) && InMark(s.workers[w]) && id != s.workers[w].id
    ensures ViewOf(MarkRunning(s, w, ack), id) == ViewOf(s, id)
  {
    hide Inv, GiveUp;
    NotOwner(cfg, s, w, id);
  }

  lemma MarkRunningLocal(cfg: Config, s: State, w: nat, ack: Ack)
    requires Inv(cfg, s) && WorkEnabled(s, w) && InMark(s.workers[w])
    ensures TaskOk(cfg, s.workers[w].id, ViewOf(MarkRunning(s, w, ack), s.workers[w].id))
  {
    hide Inv, GiveUp, TaskOk;
    Held(cfg, s, w);
    Back(cfg, MarkRunning(s, w, ack), w, s.workers[w].id);
  }

  lemma GatherOthers(cfg: Config, s: State, w: nat, ack: Ack, pit: Pit, id: TaskId)
    requires Inv(cfg, s) && WorkEnabled(s, w) && InGather(s.workers[w]) && id != s.workers[w].id
    ensures ViewOf(Gather(cfg, s, w, ack, pit), id) == ViewOf(s, id)
  {
    hide Inv, GiveUp;
    NotOwner(cfg, s, w, id);
  }

  lemma OpenLocal(cfg: Config, s: State, w: nat, ack: Ack, pit: Pit)
    requires Inv(cfg, s) && WorkEnabled(s, w) && s.workers[w].Opening?
    ensures TaskOk(cfg, s.workers[w].id, ViewOf(Gather(cfg, s, w, ack, pit), s.workers[w].id))
  {
    hide Inv, GiveUp, TaskOk;
    Held(cfg, s, w);
    Back(cfg, Gather(cfg, s, w, ack, pit), w, s.workers[w].id);
  }

  lemma FetchLocal(cfg: Config, s: State, w: nat, ack: Ack, pit: Pit)
    requires Inv(cfg, s) && WorkEnabled(s, w) && s.workers[w].Fetching?
    ensures TaskOk(cfg, s.workers[w].id, ViewOf(Gather(cfg, s, w, ack, pit), s.workers[w].id))
  {
    hide Inv, GiveUp, TaskOk;
    Held(cfg, s, w);
    Back(cfg, Gather(cfg, s, w, ack, pit), w, s.workers[w].id);
  }

  lemma CheckLocal(cfg: Config, s: State, w: nat, ack: Ack, pit: Pit)
    requires Inv(cfg, s) && WorkEnabled(s, w) && s.workers[w].Checked?
    ensures TaskOk(cfg, s.workers[w].id, ViewOf(Gather(cfg, s, w, ack, pit), s.workers[w].id))
  {
    hide Inv, GiveUp, TaskOk;
    Held(cfg, s, w);
    Back(cfg, Gather(cfg, s, w, ack, pit), w, s.workers[w].id);
  }

  lemma GatherLocal(cfg: Config, s: State, w: nat, ack: Ack, pit: Pit)
    requires Inv(cfg, s) && WorkEnabled(s, w) && InGather(s.workers[w])
    ensures TaskOk(cfg, s.workers[w].id, ViewOf(Gather(cfg, s, w, ack, pit), s.workers[w].id))
  {
    hide Inv, TaskOk, ViewOf, Gather;
    if s.workers[w].Opening? {
      OpenLocal(cfg, s, w, ack, pit);
    } else if s.workers[w].Fetching? {
      FetchLocal(cfg, s, w, ack, pit);
    } else {
      CheckLocal(cfg, s, w, ack, pit);
    }
  }

  lemma PlanPart(cfg: Config, id: TaskId, pit: Pit, k: nat)
    requires ConfigOk(cfg) && k < |cfg.plan(id, pit).parts|
    ensures cfg.plan(id, pit).parts[k].taskId == id
  {
  }

  lemma PublishOthers(cfg: Config, s: State, w: nat, ack: Ack, id: TaskId)
    requires ConfigOk(cfg) && Inv(cfg, s) && WorkEnabled(s, w) && s.workers[w].Appending? && id != s.workers[w].id
    ensures ViewOf(Publish(cfg, s, w, ack), id) == ViewOf(s, id)
  {
    hide Inv, ConfigOk, Upsert, GiveUp;
    var c := s.workers[w];
    NotOwner(cfg, s, w, id);
    if c.k < |cfg.plan(c.id, c.pit).parts| {
      PlanPart(cfg, c.id, c.pit, c.k);
    }
  }

  /** The rows stored so far are the first k parts, and one more part makes it k + 1. */
  lemma PutNext(cfg: Config, id: TaskId, pit: Pit, k: nat)
    requires ConfigOk(cfg) && k < |cfg.plan(id, pit).parts|
    ensures var parts := cfg.plan(id, pit).parts; Upsert(parts[..k], parts[k]) == parts[..k + 1]
  {
    var parts := cfg.plan(id, pit).parts;
    UpsertAtEnd(parts[..k], parts[k]);
  }

  lemma PublishLocal(cfg: Config, s: State, w: nat, ack: Ack)
    requires ConfigOk(cfg) && Inv(cfg, s) && WorkEnabled(s, w) && s.workers[w].Appending?
    ensures TaskOk(cfg, s.workers[w].id, ViewOf(Publish(cfg, s, w, ack), s.workers[w].id))
  {
    hide Inv, ConfigOk, Upsert, GiveUp, TaskOk;
    Held(cfg, s, w);
    var c := s.workers[w];
    var parts := cfg.plan(c.id, c.pit).parts;
    if c.k < |parts| {
      PutNext(cfg, c.id, c.pit, c.k);
      PlanPart(cfg, c.id, c.pit, c.k);
    } else {
      assert parts[..c.k] == parts;
    }
    Back(cfg, Publish(cfg, s, w, ack), w, s.workers[w].id);
  }

  lemma SettleOthers(cfg: Config, s: State, w: nat, ack: Ack, id: TaskId)
    requires Inv(cfg, s) && WorkEnabled(s, w) && InSettle(s.workers[w]) && id != s.workers[w].id
    ensures ViewOf(Settle(s, w, ack), id) == ViewOf(s, id)
  {
    hide Inv, GiveUp;
    NotOwner(cfg, s, w, id);
  }

  lemma SettleLocal(cfg: Config, s: State, w: nat, ack: Ack)
    requires Inv(cfg, s) && WorkEnabled(s, w) && InSettle(s.workers[w])
    ensures TaskOk(cfg, s.workers[w].id, ViewOf(Settle(s, w, ack), s.workers[w].id))
  {
    hide Inv, GiveUp, TaskOk;
    Held(cfg, s, w);
    Back(cfg, Settle(s, w, ack), w, s.workers[w].id);
  }

  lemma LeaveOthers(cfg: Config, s: State, w: nat, id: TaskId)
    requires Inv(cfg, s) && WorkEnabled(s, w) && InLeave(s.workers[w]) && id != s.workers[w].id
    ensures ViewOf(Leave(s, w), id) == ViewOf(s, id)
  {
    hide Inv, GiveUp;
    NotOwner(cfg, s, w, id);
  }

  lemma LeaveLocal(cfg: Config, s: State, w: nat)
    requires Inv(cfg, s) && WorkEnabled(s, w) && InLeave(s.workers[w])
    ensures TaskOk(cfg, s.workers[w].id, ViewOf(Leave(s, w), s.workers[w].id))
  {
    hide Inv, GiveUp;
    Held(cfg, s, w);
  }

  /** A worker's step changes the view of one task only, and lawfully. */
  lemma WorkViews(cfg: Config, s: State, w: nat, ack: Ack, pit: Pit, id: TaskId)
    requires ConfigOk(cfg) && Inv(cfg, s) && WorkEnabled(s, w)
    ensures var s' := Work1(cfg, s, w, ack, pit);
            && TaskOk(cfg, id, ViewOf(s', id))
            && (id != WorkTask(s, w) ==> ViewOf(s', id) == ViewOf(s, id))
  {
    assert TaskOk(cfg, id, ViewOf(s, id));
    hide Inv, ConfigOk, ViewOf, TaskOk, Take, Enter, MarkRunning, Gather, Publish, Settle, Leave;
    var pc := s.workers[w];
    if id != WorkTask(s, w) {
      if pc.Idle? { TakeOthers(cfg, s, w, id); }
      else if InEnter(pc) { EnterOthers(cfg, s, w, ack, id); }
      else if InMark(pc) { MarkRunningOthers(cfg, s, w, ack, id); }
      else if InGather(pc) { GatherOthers(cfg, s, w, ack, pit, id); }
      else if pc.Appending? { PublishOthers(cfg, s, w, ack, id); }
      else if InSettle(pc) { SettleOthers(cfg, s, w, ack, id); }
      else { LeaveOthers(cfg, s, w, id); }
    } else {
      if pc.Idle? { TakeLocal(cfg, s, w); }
      else if InEnter(pc) { EnterLocal(cfg, s, w, ack); }
      else if InMark(pc) { MarkRunningLocal(cfg, s, w, ack); }
      else if InGather(pc) { GatherLocal(cfg, s, w, ack, pit); }
      else if pc.Appending? { PublishLocal(cfg, s, w, ack); }
      else if InSettle(pc) { SettleLocal(cfg, s, w, ack); }
      else { LeaveLocal(cfg, s, w); }
    }
  }

  // ----- submitters -----

  /** The task a submitter's step may change. */
  predicate SubmitTask(pc: Submitter, id: TaskId) {
    match pc
    case Holding(j, _) => j == id
    case Created(j) => j == id
    case Full(j) => j == id
    case Rejecting(j) => j == id
    case _ => false
  }

  lemma NotMaker(cfg: Config, s: State, i: nat, id: TaskId)
    requires Inv(cfg, s) && i < |s.submitters| && !SubmitterHolds(s.submitters[i], id)
    ensures id in s.life && s.life[id].Making? ==> s.life[id].i != i
  {
    hide GateOk, QueueOk, LogOk, CancellersOk, PollersOk, HolderOk;
    assert TaskOk(cfg, id, ViewOf(s, id));
  }

  lemma AdmitViews(cfg: Config, s: State, i: nat, ack: Ack, newId: TaskId, id: TaskId)
    requires Inv(cfg, s) && i < |s.submitters| && InAdmit(s.submitters[i])
    ensures ViewOf(Admit(s, i, ack, newId), id) == ViewOf(s, id)
  {
    hide Inv;
    NotMaker(cfg, s, i, id);
  }

  lemma CreateOthers(cfg: Config, s: State, i: nat, ack: Ack, id: TaskId)
    requires Inv(cfg, s) && i < |s.submitters| && s.submitters[i].Holding? && id != s.submitters[i].id
    ensures ViewOf(Create(s, i, ack), id) == ViewOf(s, id)
  {
    hide Inv;
    NotMaker(cfg, s, i, id);
  }

  lemma CreateLocal(cfg: Config, s: State, i: nat, ack: Ack)
    requires Inv(cfg, s) && i < |s.submitters| && s.submitters[i].Holding?
    requires s.submitters[i].id in s.db.tasks ==> ack == Refused
    ensures TaskOk(cfg, s.submitters[i].id, ViewOf(Create(s, i, ack), s.submitters[i].id))
  {
    var id := s.submitters[i].id;
    assert TaskOk(cfg, id, ViewOf(s, id));
    hide Inv;
    NotMaker(cfg, s, i, id);
  }

  /** What the invariant says about a submitter's own task. */
  lemma Makes(cfg: Config, s: State, i: nat)
    requires Inv(cfg, s) && i < |s.submitters| && InOffer(s.submitters[i])
    ensures var id := s.submitters[i].id;
            id in s.life && s.life[id] == Making(i) && Common(ViewOf(s, id)) && Untouched(ViewOf(s, id))
  {
    hide GateOk, QueueOk, LogOk, CancellersOk, PollersOk, Untouched;
    assert TaskOk(cfg, s.submitters[i].id, ViewOf(s, s.submitters[i].id));
  }

  lemma OfferDbOthers(cfg: Config, s: State, i: nat, ack: Ack, id: TaskId)
    requires i < |s.submitters| && InOffer(s.submitters[i]) && id != s.submitters[i].id
    ensures var db := Offer(cfg, s, i, ack).db;
            RowsOf(db, id) == RowsOf(s.db, id) && Lookup(db.tasks, id) == Lookup(s.db.tasks, id)
  {
    hide QueueFull;
  }

  lemma OfferOthers(cfg: Config, s: State, i: nat, ack: Ack, id: TaskId)
    requires Inv(cfg, s) && i < |s.submitters| && InOffer(s.submitters[i]) && id != s.submitters[i].id
    ensures ViewOf(Offer(cfg, s, i, ack), id) == ViewOf(s, id)
  {
    hide Inv, QueueFull, SetVerdict, Write, RowsOf;
    NotMaker(cfg, s, i, id);
    OfferDbOthers(cfg, s, i, ack, id);
  }

  lemma OfferLocal(cfg: Config, s: State, i: nat, ack: Ack)
    requires Inv(cfg, s) && i < |s.submitters| && InOffer(s.submitters[i])
    ensures TaskOk(cfg, s.submitters[i].id, ViewOf(Offer(cfg, s, i, ack), s.submitters[i].id))
  {
    hide Inv, QueueFull;
    Makes(cfg, s, i);
  }

  lemma SubmitViews(cfg: Config, s: State, i: nat, ack: Ack, newId: TaskId, id: TaskId)
    requires Inv(cfg, s) && SubmitEnabled(cfg, s, i, ack, newId)
    ensures var s' := Submit1(cfg, s, i, ack, newId);
            && TaskOk(cfg, id, ViewOf(s', id))
            && (!SubmitTask(s.submitters[i], id) ==> ViewOf(s', id) == ViewOf(s, id))
  {
    assert TaskOk(cfg, id, ViewOf(s, id));
    hide Inv, ViewOf, TaskOk, Admit, Create, Offer;
    var pc := s.submitters[i];
    if InAdmit(pc) { AdmitViews(cfg, s, i, ack, newId, id); }
    else if pc.Holding? {
      if pc.id == id { CreateLocal(cfg, s, i, ack); } else { CreateOthers(cfg, s, i, ack, id); }
    } else {
      if pc.id == id { OfferLocal(cfg, s, i, ack); } else { OfferOthers(cfg, s, i, ack, id); }
    }
  }

  // ----- cancellers -----

  /** A cancel may strike at any point of a task's life. */
  lemma Struck(cfg: Config, id: TaskId, v: View)
    requires TaskOk(cfg, id, v) && v.row.Some? && !v.row.value.status.IsTerminal()
    ensures TaskOk(cfg, id, v.(row := Some(v.row.value.(status := Cancelled)), switched := true))
  {
  }

  /** Contexts may be cancelled at any time, and once the switch is done the signal may come: it
      finds the worker's entry and cancels the context, or there is none to find. */
  lemma Raised(cfg: Config, id: TaskId, v: View, signalled: bool, fired: bool)
    requires TaskOk(cfg, id, v) && (signalled || fired ==> v.switched)
    ensures var raised := v.(fired := v.fired || fired, ctx := true);
            && TaskOk(cfg, id, raised)
            && (signalled ==> TaskOk(cfg, id, raised.(signalled := true)))
    ensures signalled && !v.registered ==> TaskOk(cfg, id, v.(signalled := true))
  {
  }

  lemma LookViews(s: State, i: nat, ack: Ack, id: TaskId)
    requires i < |s.cancellers| && InLook(s.cancellers[i])
    ensures ViewOf(Look(s, i, ack), id) == ViewOf(s, id)
  {
  }

  lemma SwapOthers(s: State, i: nat, ack: Ack, id: TaskId)
    requires i < |s.cancellers| && s.cancellers[i].Swapping? && id != s.cancellers[i].id
    ensures ViewOf(Swap(s, i, ack), id) == ViewOf(s, id)
  {
  }

  lemma SwapView(s: State, i: nat, ack: Ack)
    requires i < |s.cancellers| && s.cancellers[i].Swapping?
    ensures var id, v := s.cancellers[i].id, ViewOf(s, s.cancellers[i].id);
            var hit := ack != Refused && CanSwitch(s.db, id);
            && (hit ==> v.row.Some? && !v.row.value.status.IsTerminal())
            && ViewOf(Swap(s, i, ack), id)
               == if hit then v.(row := Some(v.row.value.(status := Cancelled)), switched := true) else v
  {
  }

  lemma SwapLocal(cfg: Config, s: State, i: nat, ack: Ack)
    requires Inv(cfg, s) && i < |s.cancellers| && s.cancellers[i].Swapping?
    ensures TaskOk(cfg, s.cancellers[i].id, ViewOf(Swap(s, i, ack), s.cancellers[i].id))
  {
    var id := s.cancellers[i].id;
    assert TaskOk(cfg, id, ViewOf(s, id));
    hide Inv, TaskOk, Swap, ViewOf;
    SwapView(s, i, ack);
    if ack != Refused && CanSwitch(s.db, id) {
      Struck(cfg, id, ViewOf(s, id));
    }
  }

  lemma SignalOthers(s: State, i: nat, id: TaskId)
    requires i < |s.cancellers| && InSignal(s.cancellers[i]) && id != s.cancellers[i].id
    ensures ViewOf(Signal(s, i), id) == ViewOf(s, id)
  {
  }

  lemma SignalLocal(cfg: Config, s: State, i: nat)
    requires Inv(cfg, s) && i < |s.cancellers| && InSignal(s.cancellers[i])
    ensures TaskOk(cfg, s.cancellers[i].id, ViewOf(Signal(s, i), s.cancellers[i].id))
  {
    var c, id := s.cancellers[i], s.cancellers[i].id;
    var v := ViewOf(s, id);
    assert TaskOk(cfg, id, v) && v.switched;
    hide Inv, TaskOk;
    if c.Firing? {
      Raised(cfg, id, v, true, true);
      assert ViewOf(Signal(s, i), id) == v.(fired := true, ctx := true).(signalled := true);
    } else if id !in s.cancels {
      Raised(cfg, id, v, true, false);
      assert ViewOf(Signal(s, i), id) == v.(signalled := true);
    } else {
      assert ViewOf(Signal(s, i), id) == v;
    }
  }

  lemma CancelViews(cfg: Config, s: State, i: nat, ack: Ack, id: TaskId)
    requires Inv(cfg, s) && CancelEnabled(s, i)
    ensures TaskOk(cfg, id, ViewOf(Cancel1(s, i, ack), id))
  {
    assert TaskOk(cfg, id, ViewOf(s, id));
    hide Inv, TaskOk, ViewOf, Look, Swap, Signal;
    var pc := s.cancellers[i];
    if InLook(pc) { LookViews(s, i, ack, id); }
    else if pc.Swapping? {
      if pc.id == id { SwapLocal(cfg, s, i, ack); } else { SwapOthers(s, i, ack, id); }
    } else {
      if pc.id == id { SignalLocal(cfg, s, i); } else { SignalOthers(s, i, id); }
    }
  }

  // ----- the other steps -----

  /** The owner of a task is not one of those whose program point an idle step changes. */
  lemma OwnersWork(cfg: Config, s: State, id: TaskId)
    requires Inv(cfg, s) && id in s.life
    ensures s.life[id].Making? ==> s.life[id].i < |s.submitters|
    ensures s.life[id].Working? ==> s.life[id].w < |s.workers| && !s.workers[s.life[id].w].Idle?
  {
    hide GateOk, QueueOk, LogOk, HolderOk, CancellersOk, PollersOk;
    assert TaskOk(cfg, id, ViewOf(s, id));
  }

  lemma IdleViews(cfg: Config, s: State, step: Step, id: TaskId)
    requires Inv(cfg, s) && Enabled(cfg, s, step)
    requires step.Arrive? || step.Exit? || step.AskCancel? || step.AskPoll? || step.Poll?
    ensures ViewOf(Apply(cfg, s, step), id) == ViewOf(s, id) && Apply(cfg, s, step).down == s.down
  {
    hide Inv;
    if id in s.life {
      OwnersWork(cfg, s, id);
    }
    assert OwnerOf(Apply(cfg, s, step), id) == OwnerOf(s, id);
  }

  lemma ShutdownViews(cfg: Config, s: State, id: TaskId)
    requires Inv(cfg, s)
    ensures TaskOk(cfg, id, ViewOf(Apply(cfg, s, Shutdown), id))
  {
    var v := ViewOf(s, id);
    assert TaskOk(cfg, id, v);
    hide Inv, TaskOk;
    Raised(cfg, id, v, false, false);
    assert ViewOf(Apply(cfg, s, Shutdown), id) == v.(ctx := true);
  }

  lemma StepViews(cfg: Config, s: State, step: Step)
    requires ConfigOk(cfg) && Inv(cfg, s) && Enabled(cfg, s, step)
    ensures ViewsOk(cfg, Apply(cfg, s, step))
  {
    forall id: TaskId
      ensures TaskOk(cfg, id, ViewOf(Apply(cfg, s, step), id))
    {
      assert TaskOk(cfg, id, ViewOf(s, id));
      hide Inv, TaskOk, ViewOf, ConfigOk, Work1, Submit1, Cancel1, Poll1;
      match step
      case Work(w, ack, pit) => WorkViews(cfg, s, w, ack, pit, id);
      case Submit(i, ack, newId) => SubmitViews(cfg, s, i, ack, newId, id);
      case Cancel(i, ack) => CancelViews(cfg, s, i, ack, id);
      case Shutdown => ShutdownViews(cfg, s, id);
      case _ => IdleViews(cfg, s, step, id);
    }
  }
}
