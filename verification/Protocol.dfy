/** The concurrent life of tasks: submitters, the gate, the queue, workers with their cancel
    registry, cancellers, pollers and the store, as a transition system. One step is one
    atomic action of one goroutine: a store statement, a channel operation, a map access
    under the lock, or a look at a context. A store write may be acknowledged, performed but
    reported as an error, or not performed. */
module Protocol {
  import opened Base
  import opened Types
  import opened Store

  /** The columns of a row that are written once. */
  datatype Scope = Scope(caller: string, channels: seq<string>, range: TimeRange)

  function ScopeOf(t: Task): Scope {
    Scope(t.caller, t.channels, t.range)
  }

  /** A run's point in time: which snapshot it reads, the day it starts, and what the row it
      has read asks for. */
  datatype Pit = Pit(at: nat, day: string, scope: Scope)

  function PitFor(db: Db, id: TaskId, pit: Pit): Pit {
    if id in db.tasks then pit.(scope := ScopeOf(db.tasks[id])) else pit
  }

  /** `plan` is what an undisturbed run delivers for a task at a point in time, `searches`
      the number of page requests it takes. */
  datatype Config = Config(gateCap: nat, queueCap: nat, plan: (TaskId, Pit) -> Plan, searches: (TaskId, Pit) -> nat)

  /** Why a run is given up. */
  datatype Cause = MarkRefused | OpenRefused | ContextDone | WriterFailed | SearchFailed | AppendFailed

  function GiveUp(c: Cause): (v: Verdict)
    ensures v.status == Failed && v.count == 0 && v.warnings == []
  {
    Failure(match c
      case MarkRefused => "update status running failed"
      case OpenRefused => "open pit failed"
      case ContextDone => "cancelled"
      case WriterFailed => "finish writer failed"
      case SearchFailed => "search failed"
      case AppendFailed => "append part failed")
  }

  /** The program points of `process`; a worker holds the task named in it. */
  datatype Worker =
    | Idle
    | Exited
    | Taken(id: TaskId)
    | Registered(id: TaskId)
    | Loaded(id: TaskId)
    | Unmarked(id: TaskId)
    | Opening(id: TaskId)
    | Fetching(id: TaskId, pit: Pit, left: nat)
    | Checked(id: TaskId, pit: Pit, left: nat)
    | Appending(id: TaskId, pit: Pit, k: nat)
    | Deciding(id: TaskId, v: Verdict)
    | Finalizing(id: TaskId, v: Verdict)
    | Leaving(id: TaskId)
    | Unregistered(id: TaskId)

  /** The program points of `Submit` after validation and count. */
  datatype Submitter =
    | Acquiring(row: Task)
    | Holding(id: TaskId, row: Task)
    | Undoing
    | Created(id: TaskId)
    | Full(id: TaskId)
    | Rejecting(id: TaskId)
    | Answered(accepted: Option<TaskId>)

  datatype Reply = NotFound | Error | Is(status: Status)

  /** The program points of `Cancel`; `Rereading` is the read after a switch that hit no row. */
  datatype Canceller =
    | Looking(id: TaskId, caller: string)
    | Swapping(id: TaskId, caller: string)
    | Rereading(id: TaskId, caller: string)
    | Signalling(id: TaskId, caller: string)
    | Firing(id: TaskId, caller: string)
    | Told(id: TaskId, caller: string, reply: Reply)

  datatype Answer = NoTask | Trouble | Progress(row: Task) | Delivered(row: Task, parts: seq<Part>)

  /** The program points of `handleGet`. */
  datatype Poller =
    | Asking(id: TaskId, caller: string)
    | Reading(id: TaskId, caller: string, row: Task)
    | Shown(id: TaskId, caller: string, answer: Answer)

  /** Where a stored task is on its way; k is its position among all enqueued tasks. */
  datatype Life =
    | Making(i: nat)
    | Stray
    | Dropped
    | Waiting(k: nat)
    | Working(w: nat, k: nat)
    | Over(k: nat)

  datatype State = State(
    gate: nat,
    queue: seq<TaskId>,
    cancels: set<TaskId>,
    ctxDone: set<TaskId>,
    down: bool,
    db: Db,
    workers: seq<Worker>,
    submitters: seq<Submitter>,
    cancellers: seq<Canceller>,
    pollers: seq<Poller>,
    // History: recorded by the steps, never consulted by them.
    log: seq<TaskId>,            // every id ever enqueued
    life: map<TaskId, Life>,
    pits: map<TaskId, Pit>,      // the point in time a task's run opened
    switched: set<TaskId>,       // ids some conditional update has set to cancelled
    signalled: set<TaskId>,      // ids whose cancel has also finished its CancelTask
    late: multiset<TaskId>,      // searches begun under a cancelled context
    orphans: set<TaskId>)        // ids whose worker saw its read of an open row, or its last write, fail

  datatype Step =
    | Arrive(row: Task)
    | Submit(i: nat, ack: Ack, id: TaskId)
    | Work(w: nat, ack: Ack, pit: Pit)
    | Exit(w: nat)
    | AskCancel(id: TaskId, caller: string)
    | Cancel(i: nat, ack: Ack)
    | AskPoll(id: TaskId, caller: string)
    | Poll(i: nat, ack: Ack)
    | Shutdown

  /** The task context of a worker is derived from the one that shutdown cancels. */
  predicate CtxDone(s: State, id: TaskId) {
    s.down || id in s.ctxDone
  }

  function Mark(set0: set<TaskId>, id: TaskId, b: bool): set<TaskId> {
    if b then set0 + {id} else set0
  }

  /** A call under the task's context does not even start once that is done. */
  function TaskAck(s: State, id: TaskId, ack: Ack): Ack {
    if CtxDone(s, id) then Refused else ack
  }

  /** Has the task been enqueued, as the k-th of all? */
  predicate HasPosition(l: Life, k: int) {
    match l
    case Waiting(j) => j == k
    case Working(_, j) => j == k
    case Over(j) => j == k
    case _ => false
  }

  predicate WasEnqueued(l: Life) {
    l.Waiting? || l.Working? || l.Over?
  }

  function PositionOf(s: State, id: TaskId): nat {
    if id in s.life && WasEnqueued(s.life[id]) then s.life[id].k else 0
  }

  function SetWorker(s: State, w: nat, pc: Worker): State
    requires w < |s.workers|
  {
    s.(workers := s.workers[w := pc])
  }

  function SetSubmitter(s: State, i: nat, pc: Submitter): State
    requires i < |s.submitters|
  {
    s.(submitters := s.submitters[i := pc])
  }

  function SetCanceller(s: State, i: nat, pc: Canceller): State
    requires i < |s.cancellers|
  {
    s.(cancellers := s.cancellers[i := pc])
  }

  function SetPoller(s: State, i: nat, pc: Poller): State
    requires i < |s.pollers|
  {
    s.(pollers := s.pollers[i := pc])
  }

  /** Receiving from the semaphore never blocks. */
  function Release(s: State): State {
    s.(gate := if s.gate > 0 then s.gate - 1 else 0)
  }

  // ----- what a step does -----

  predicate WorkEnabled(s: State, w: nat) {
    w < |s.workers| && !s.workers[w].Exited? && (s.workers[w].Idle? ==> s.queue != [])
  }

  /** A worker takes the oldest queued task. */
  function Take(s: State, w: nat): State
    requires w < |s.workers| && s.queue != []
  {
    var id := s.queue[0];
    SetWorker(s, w, Taken(id)).(queue := s.queue[1..], life := s.life[id := Working(w, PositionOf(s, id))])
  }

  /** Register the cancel function, then read the row; a terminal one is skipped. */
  function Enter(s: State, w: nat, ack: Ack): State
    requires w < |s.workers| && InEnter(s.workers[w])
  {
    var id := s.workers[w].id;
    if s.workers[w].Taken? then SetWorker(s, w, Registered(id)).(cancels := s.cancels + {id})
    else if TaskAck(s, id, ack) != Done || id !in s.db.tasks then
      SetWorker(s, w, Leaving(id)).(orphans := Mark(s.orphans, id, !IsTerminalIn(s.db, id)))
    else SetWorker(s, w, if s.db.tasks[id].status.IsTerminal() then Leaving(id) else Loaded(id))
  }

  predicate InEnter(pc: Worker) {
    pc.Taken? || pc.Registered?
  }

  /** Mark the task running, or failed when that is refused. The second write runs under the
      context that shutdown cancels. */
  function MarkRunning(s: State, w: nat, ack: Ack): State
    requires w < |s.workers| && InMark(s.workers[w])
  {
    var id := s.workers[w].id;
    if s.workers[w].Loaded? then
      var a := TaskAck(s, id, ack);
      SetWorker(s, w, if a == Done then Opening(id) else Unmarked(id))
        .(db := Write(a, s.db, SetStatus(s.db, id, Running)))
    else
      var a := if s.down then Refused else ack;
      SetWorker(s, w, Leaving(id))
        .(db := Write(a, s.db, SetVerdict(s.db, id, GiveUp(MarkRefused))), orphans := Mark(s.orphans, id, a != Done))
  }

  predicate InMark(pc: Worker) {
    pc.Loaded? || pc.Unmarked?
  }

  /** Open a point in time, then look at the context before each search. */
  function Gather(cfg: Config, s: State, w: nat, ack: Ack, pit: Pit): State
    requires w < |s.workers| && InGather(s.workers[w])
  {
    match s.workers[w]
    case Opening(id) =>
      if TaskAck(s, id, ack) == Done then
        var p := PitFor(s.db, id, pit);
        SetWorker(s, w, Fetching(id, p, cfg.searches(id, p))).(pits := s.pits[id := p])
      else SetWorker(s, w, Deciding(id, GiveUp(OpenRefused)))
    case Fetching(id, p, left) =>
      SetWorker(s, w,
        if ack != Done then Deciding(id, GiveUp(WriterFailed))
        else if left == 0 then Appending(id, p, 0)
        else if CtxDone(s, id) then Deciding(id, GiveUp(ContextDone))
        else Checked(id, p, left - 1))
    case Checked(id, p, left) =>
      SetWorker(s, w, if TaskAck(s, id, ack) == Done then Fetching(id, p, left) else Deciding(id, GiveUp(SearchFailed)))
        .(late := if CtxDone(s, id) then s.late + multiset{id} else s.late)
  }

  predicate InGather(pc: Worker) {
    pc.Opening? || pc.Fetching? || pc.Checked?
  }

  /** Store the metadata of one part after the other. */
  function Publish(cfg: Config, s: State, w: nat, ack: Ack): State
    requires w < |s.workers| && s.workers[w].Appending?
  {
    var Appending(id, p, k) := s.workers[w];
    var plan := cfg.plan(id, p);
    if k >= |plan.parts| then SetWorker(s, w, Deciding(id, Success(plan)))
    else
      var a := TaskAck(s, id, ack);
      SetWorker(s, w, if a == Done then Appending(id, p, k + 1) else Deciding(id, GiveUp(AppendFailed)))
        .(db := Write(a, s.db, PutPart(s.db, plan.parts[k])))
  }

  /** Turn a failure under a cancelled context into `cancelled`, then store the verdict. */
  function Settle(s: State, w: nat, ack: Ack): State
    requires w < |s.workers| && InSettle(s.workers[w])
  {
    var id, v := s.workers[w].id, s.workers[w].v;
    if s.workers[w].Deciding? then
      SetWorker(s, w, Finalizing(id, if v.status == Failed && CtxDone(s, id)
                                     then Verdict(Cancelled, v.count, v.warnings, "", "") else v))
    else
      SetWorker(s, w, Leaving(id))
        .(db := Write(ack, s.db, SetVerdict(s.db, id, v)), orphans := Mark(s.orphans, id, ack != Done))
  }

  predicate InSettle(pc: Worker) {
    pc.Deciding? || pc.Finalizing?
  }

  /** The deferred calls: leave the registry, then cancel the context and give the slot back. */
  function Leave(s: State, w: nat): State
    requires w < |s.workers| && InLeave(s.workers[w])
  {
    var id := s.workers[w].id;
    if s.workers[w].Leaving? then SetWorker(s, w, Unregistered(id)).(cancels := s.cancels - {id})
    else
      SetWorker(Release(s), w, Idle)
        .(ctxDone := s.ctxDone + {id}, life := s.life[id := Over(PositionOf(s, id))])
  }

  predicate InLeave(pc: Worker) {
    pc.Leaving? || pc.Unregistered?
  }

  function Work1(cfg: Config, s: State, w: nat, ack: Ack, pit: Pit): State
    requires WorkEnabled(s, w)
  {
    var pc := s.workers[w];
    if pc.Idle? then Take(s, w)
    else if InEnter(pc) then Enter(s, w, ack)
    else if InMark(pc) then MarkRunning(s, w, ack)
    else if InGather(pc) then Gather(cfg, s, w, ack, pit)
    else if pc.Appending? then Publish(cfg, s, w, ack)
    else if InSettle(pc) then Settle(s, w, ack)
    else Leave(s, w)
  }

  predicate SubmitEnabled(cfg: Config, s: State, i: nat, ack: Ack, id: TaskId) {
    && i < |s.submitters| && !s.submitters[i].Answered?
    && (s.submitters[i].Acquiring? && ack == Done ==> s.gate < cfg.gateCap)
    && (s.submitters[i].Holding? && s.submitters[i].id in s.db.tasks ==> ack == Refused)
  }

  /** Take a slot for a fresh id, or give up waiting; and the release after a failed insert. */
  function Admit(s: State, i: nat, ack: Ack, newId: TaskId): State
    requires i < |s.submitters| && InAdmit(s.submitters[i])
  {
    if s.submitters[i].Undoing? then SetSubmitter(Release(s), i, Answered(None))
    else if ack == Done then SetSubmitter(s, i, Holding(newId, s.submitters[i].row)).(gate := s.gate + 1)
    else SetSubmitter(s, i, Answered(None))
  }

  predicate InAdmit(pc: Submitter) {
    pc.Acquiring? || pc.Undoing?
  }

  /** Insert the row. One that was inserted without an acknowledgement is never enqueued. */
  function Create(s: State, i: nat, ack: Ack): State
    requires i < |s.submitters| && s.submitters[i].Holding?
  {
    var Holding(id, row) := s.submitters[i];
    if ack == Refused then SetSubmitter(s, i, Undoing)
    else
      SetSubmitter(s, i, if ack == Done then Created(id) else Undoing)
        .(db := Insert(s.db, id, row.(status := Queued)),
          life := s.life[id := if ack == Done then Making(i) else Stray])
  }

  /** Hand the task to the queue; a full one costs the slot and marks the task failed. */
  function Offer(cfg: Config, s: State, i: nat, ack: Ack): State
    requires i < |s.submitters| && InOffer(s.submitters[i])
  {
    match s.submitters[i]
    case Created(id) =>
      if |s.queue| < cfg.queueCap then
        SetSubmitter(s, i, Answered(Some(id)))
          .(queue := s.queue + [id], log := s.log + [id], life := s.life[id := Waiting(|s.log|)])
      else SetSubmitter(s, i, Full(id))
    case Full(id) => SetSubmitter(Release(s), i, Rejecting(id))
    case Rejecting(id) =>
      SetSubmitter(s, i, Answered(None))
        .(db := Write(ack, s.db, SetVerdict(s.db, id, QueueFull())), life := s.life[id := Dropped])
  }

  predicate InOffer(pc: Submitter) {
    pc.Created? || pc.Full? || pc.Rejecting?
  }

  function Submit1(cfg: Config, s: State, i: nat, ack: Ack, newId: TaskId): State
    requires SubmitEnabled(cfg, s, i, ack, newId)
  {
    var pc := s.submitters[i];
    if InAdmit(pc) then Admit(s, i, ack, newId)
    else if pc.Holding? then Create(s, i, ack)
    else Offer(cfg, s, i, ack)
  }

  predicate CancelEnabled(s: State, i: nat) {
    i < |s.cancellers| && !s.cancellers[i].Told?
  }

  /** The two reads: before the switch, and after one that hit no row. */
  function Look(s: State, i: nat, ack: Ack): State
    requires i < |s.cancellers| && InLook(s.cancellers[i])
  {
    var id, caller := s.cancellers[i].id, s.cancellers[i].caller;
    SetCanceller(s, i,
      if s.cancellers[i].Rereading? then
        Told(id, caller, if ack == Done && id in s.db.tasks then Is(s.db.tasks[id].status) else Error)
      else if ack != Done then Told(id, caller, Error)
      else if id !in s.db.tasks || s.db.tasks[id].caller != caller then Told(id, caller, NotFound)
      else if s.db.tasks[id].status.IsTerminal() then Told(id, caller, Is(s.db.tasks[id].status))
      else Swapping(id, caller))
  }

  predicate InLook(pc: Canceller) {
    pc.Looking? || pc.Rereading?
  }

  /** The conditional update. */
  function Swap(s: State, i: nat, ack: Ack): State
    requires i < |s.cancellers| && s.cancellers[i].Swapping?
  {
    var id, caller := s.cancellers[i].id, s.cancellers[i].caller;
    var hit := ack != Refused && CanSwitch(s.db, id);
    SetCanceller(s, i, if ack != Done then Told(id, caller, Error)
                       else if hit then Signalling(id, caller) else Rereading(id, caller))
      .(db := if hit then SwitchToCancelled(s.db, id) else s.db, switched := Mark(s.switched, id, hit))
  }

  /** CancelTask: look the entry up under the lock, then call what was found. */
  function Signal(s: State, i: nat): State
    requires i < |s.cancellers| && InSignal(s.cancellers[i])
  {
    var id, caller := s.cancellers[i].id, s.cancellers[i].caller;
    if s.cancellers[i].Signalling? && id in s.cancels then SetCanceller(s, i, Firing(id, caller))
    else
      SetCanceller(s, i, Told(id, caller, Is(Cancelled)))
        .(ctxDone := Mark(s.ctxDone, id, s.cancellers[i].Firing?), signalled := s.signalled + {id})
  }

  predicate InSignal(pc: Canceller) {
    pc.Signalling? || pc.Firing?
  }

  function Cancel1(s: State, i: nat, ack: Ack): State
    requires CancelEnabled(s, i)
  {
    var pc := s.cancellers[i];
    if InLook(pc) then Look(s, i, ack)
    else if pc.Swapping? then Swap(s, i, ack)
    else Signal(s, i)
  }

  predicate PollEnabled(s: State, i: nat) {
    i < |s.pollers| && !s.pollers[i].Shown?
  }

  function Poll1(s: State, i: nat, ack: Ack): State
    requires PollEnabled(s, i)
  {
    match s.pollers[i]
    case Asking(id, caller) =>
      SetPoller(s, i,
        if ack != Done then Shown(id, caller, Trouble)
        else if id !in s.db.tasks || s.db.tasks[id].caller != caller then Shown(id, caller, NoTask)
        else if s.db.tasks[id].status.IsPublished() then Reading(id, caller, s.db.tasks[id])
        else Shown(id, caller, Progress(s.db.tasks[id])))
    case Reading(id, caller, row) =>
      SetPoller(s, i, Shown(id, caller, if ack == Done then Delivered(row, RowsOf(s.db, id)) else Trouble))
    case Shown(_, _, _) => s
  }

  predicate Enabled(cfg: Config, s: State, step: Step) {
    match step
    case Arrive(_) => true
    case Submit(i, ack, id) => SubmitEnabled(cfg, s, i, ack, id)
    case Work(w, _, _) => WorkEnabled(s, w)
    case Exit(w) => w < |s.workers| && s.workers[w].Idle? && s.down
    case AskCancel(_, _) => true
    case Cancel(i, _) => CancelEnabled(s, i)
    case AskPoll(_, _) => true
    case Poll(i, _) => PollEnabled(s, i)
    case Shutdown => true
  }

  function Apply(cfg: Config, s: State, step: Step): State
    requires Enabled(cfg, s, step)
  {
    match step
    case Arrive(row) => s.(submitters := s.submitters + [Acquiring(row)])
    case Submit(i, ack, id) => Submit1(cfg, s, i, ack, id)
    case Work(w, ack, pit) => Work1(cfg, s, w, ack, pit)
    case Exit(w) => SetWorker(s, w, Exited)
    case AskCancel(id, caller) => s.(cancellers := s.cancellers + [Looking(id, caller)])
    case Cancel(i, ack) => Cancel1(s, i, ack)
    case AskPoll(id, caller) => s.(pollers := s.pollers + [Asking(id, caller)])
    case Poll(i, ack) => Poll1(s, i, ack)
    case Shutdown => s.(down := true)
  }

  predicate Init(s: State) {
    && s.gate == 0 && s.queue == [] && s.cancels == {} && s.ctxDone == {} && !s.down
    && s.db == Db(map[], map[])
    && s.workers != [] && (forall w :: 0 <= w < |s.workers| ==> s.workers[w] == Idle)
    && s.submitters == [] && s.cancellers == [] && s.pollers == []
    && s.log == [] && s.life == map[] && s.pits == map[]
    && s.switched == {} && s.signalled == {} && s.late == multiset{} && s.orphans == {}
  }

  /** A run of the system: the states before, between and after a list of steps. */
  ghost predicate IsRun(cfg: Config, ss: seq<State>, steps: seq<Step>) {
    && |ss| == |steps| + 1
    && forall i :: 0 <= i < |steps| ==> Moves(cfg, ss, steps, i)
  }

  ghost predicate Moves(cfg: Config, ss: seq<State>, steps: seq<Step>, i: nat)
    requires i < |steps| && |ss| == |steps| + 1
  {
    Enabled(cfg, ss[i], steps[i]) && ss[i + 1] == Apply(cfg, ss[i], steps[i])
  }

  ghost predicate ConfigOk(cfg: Config) {
    && cfg.gateCap > 0 && cfg.queueCap > 0
    && forall id: TaskId, pit: Pit ::
         var plan := cfg.plan(id, pit);
         && Dense(plan.parts)
         && (forall k :: 0 <= k < |plan.parts| ==> plan.parts[k].taskId == id)
         && plan.count == TotalMessages(plan.parts)
  }
}
