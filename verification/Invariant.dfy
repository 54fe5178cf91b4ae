/** The inductive invariant of the protocol. Everything about one task is gathered in a view;
    what may be true of a view at each point of the task's life is said once, in `TaskOk`. */
module Invariant {
  import opened Base
  import opened Types
  import opened Store
  import opened Protocol

  datatype Owner = Nobody | ByWorker(pc: Worker) | BySubmitter(sub: Submitter)

  datatype View = View(row: Option<Task>, rows: seq<Part>, life: Option<Life>, owner: Owner, pit: Option<Pit>,
                       registered: bool, switched: bool, signalled: bool, fired: bool, ctx: bool, late: nat,
                       orphan: bool)

  function OwnerOf(s: State, id: TaskId): Owner {
    if id !in s.life then Nobody
    else match s.life[id]
      case Working(w, _) => if w < |s.workers| then ByWorker(s.workers[w]) else Nobody
      case Making(i) => if i < |s.submitters| then BySubmitter(s.submitters[i]) else Nobody
      case _ => Nobody
  }

  function Lookup<K, V>(m: map<K, V>, k: K): Option<V> {
    if k in m then Some(m[k]) else None
  }

  function ViewOf(s: State, id: TaskId): View {
    View(Lookup(s.db.tasks, id), RowsOf(s.db, id), Lookup(s.life, id), OwnerOf(s, id), Lookup(s.pits, id),
         id in s.cancels, id in s.switched, id in s.signalled, id in s.ctxDone, CtxDone(s, id), s.late[id],
         id in s.orphans)
  }

  /** Nothing has been done for the task yet; only a cancel may have touched its row. */
  predicate Untouched(v: View) {
    && v.row.Some? && v.row.value.status in {Queued, Cancelled}
    && v.rows == [] && v.pit.None? && v.late == 0 && !v.orphan
    && (v.switched <==> v.row.value.status == Cancelled)
    && (v.fired ==> v.switched)
  }

  /** The row carries a success, and then everything it announces is stored. */
  predicate PublishedOk(cfg: Config, id: TaskId, v: View) {
    && v.row.Some?
    && (v.row.value.status.IsPublished() ==>
          && v.pit.Some?
          && v.row.value == Conclude(v.row.value, Success(cfg.plan(id, v.pit.value)))
          && v.rows == cfg.plan(id, v.pit.value).parts)
  }

  predicate Ended(cfg: Config, id: TaskId, v: View) {
    && PublishedOk(cfg, id, v)
    && (v.orphan || v.row.value.status.IsTerminal())
  }

  /** The row while a worker has read it and not yet written its last word. */
  predicate InProgress(v: View, statuses: set<Status>) {
    && v.row.Some? && v.row.value.status in statuses
    && v.registered && !v.orphan
    && (v.signalled ==> v.ctx)
    && (v.row.value.status == Cancelled ==> v.switched)
  }

  predicate NoPit(v: View) {
    v.pit.None? && v.rows == [] && v.late == 0
  }

  /** A verdict about to be stored: a success only with all parts in place. */
  predicate VerdictOk(cfg: Config, id: TaskId, v: View, verdict: Verdict) {
    && verdict.status.IsTerminal()
    && (verdict.status.IsPublished() ==>
          v.pit.Some? && verdict == Success(cfg.plan(id, v.pit.value)) && v.rows == cfg.plan(id, v.pit.value).parts)
  }

  predicate WorkerOk(cfg: Config, id: TaskId, v: View, pc: Worker) {
    match pc
    case Idle => false
    case Exited => false
    case Taken(j) => j == id && Untouched(v) && !v.registered
    case Registered(j) => j == id && Untouched(v) && v.registered
    case Loaded(j) => j == id && InProgress(v, {Queued, Cancelled}) && NoPit(v)
    case Unmarked(j) => j == id && InProgress(v, {Queued, Running, Cancelled}) && NoPit(v)
    case Opening(j) => j == id && InProgress(v, {Running, Cancelled}) && NoPit(v)
    case Fetching(j, p, _) =>
      j == id && InProgress(v, {Running, Cancelled}) && v.pit == Some(p) && v.rows == []
    case Checked(j, p, _) =>
      j == id && InProgress(v, {Running, Cancelled}) && v.pit == Some(p) && v.rows == [] && v.late == 0
    case Appending(j, p, k) =>
      && j == id && InProgress(v, {Running, Cancelled}) && v.pit == Some(p)
      && k <= |cfg.plan(id, p).parts| && v.rows == cfg.plan(id, p).parts[..k]
    case Deciding(j, verdict) =>
      j == id && InProgress(v, {Running, Cancelled}) && VerdictOk(cfg, id, v, verdict) && verdict.status != Cancelled
    case Finalizing(j, verdict) =>
      j == id && InProgress(v, {Running, Cancelled}) && VerdictOk(cfg, id, v, verdict)
    case Leaving(j) => j == id && Ended(cfg, id, v) && v.registered
    case Unregistered(j) => j == id && Ended(cfg, id, v) && !v.registered
  }

  predicate SubmitterHolds(pc: Submitter, id: TaskId) {
    pc == Created(id) || pc == Full(id) || pc == Rejecting(id)
  }

  /** What holds at every point of a task's life. */
  predicate Common(v: View) {
    && (v.row.Some? <==> v.life.Some?)
    && v.late <= 1 && (v.late == 1 ==> v.ctx)
    && (v.signalled ==> v.switched)
    && (v.pit.Some? && v.row.Some? ==> v.pit.value.scope == ScopeOf(v.row.value))
    && (v.registered ==> v.life.Some? && v.life.value.Working?)
  }

  predicate TaskOk(cfg: Config, id: TaskId, v: View) {
    && Common(v)
    && match v.life
       case None => v.rows == [] && v.pit.None? && v.late == 0 && !v.orphan && !v.switched && !v.fired
       case Some(Making(_)) => Untouched(v) && v.owner.BySubmitter? && SubmitterHolds(v.owner.sub, id)
       case Some(Stray) => Untouched(v)
       case Some(Dropped) => v.row.value.status in {Queued, Cancelled, Failed} && NoPit(v) && !v.orphan
       case Some(Waiting(_)) => Untouched(v)
       case Some(Working(_, _)) => v.owner.ByWorker? && WorkerOk(cfg, id, v, v.owner.pc)
       case Some(Over(_)) => Ended(cfg, id, v)
  }

  ghost predicate ViewsOk(cfg: Config, s: State) {
    forall id: TaskId :: TaskOk(cfg, id, ViewOf(s, id))
  }

  // ----- who holds a slot -----

  function SubmitterSlot(pc: Submitter): nat {
    if pc.Holding? || pc.Undoing? || pc.Created? || pc.Full? then 1 else 0
  }

  function WorkerSlot(pc: Worker): nat {
    if pc.Idle? || pc.Exited? then 0 else 1
  }

  ghost predicate GateOk(cfg: Config, s: State) {
    && s.gate == Sum(SubmitterSlot, s.submitters) + |s.queue| + Sum(WorkerSlot, s.workers)
    && s.gate <= cfg.gateCap
  }

  // ----- the queue is the tail of the log -----

  ghost predicate QueueOk(cfg: Config, s: State) {
    && |s.queue| <= |s.log| && |s.queue| <= cfg.queueCap
    && s.queue == s.log[|s.log| - |s.queue|..]
  }

  /** The k-th id of the log is at position k; of those, the last n are waiting. */
  ghost predicate LogFits(log: seq<TaskId>, n: nat, life: map<TaskId, Life>) {
    && (forall k :: 0 <= k < |log| ==> log[k] in life && HasPosition(life[log[k]], k))
    && (forall id :: id in life && WasEnqueued(life[id]) ==>
          && life[id].k < |log| && log[life[id].k] == id
          && (life[id].Waiting? <==> life[id].k >= |log| - n))
  }

  ghost predicate LogOk(s: State) {
    LogFits(s.log, |s.queue|, s.life)
  }

  // ----- program points know their task -----

  predicate Holds(pc: Worker) {
    !pc.Idle? && !pc.Exited?
  }

  ghost predicate HoldersFit(workers: seq<Worker>, submitters: seq<Submitter>, life: map<TaskId, Life>) {
    && (forall w :: 0 <= w < |workers| && Holds(workers[w]) ==>
          var id := workers[w].id; id in life && life[id].Working? && life[id].w == w)
    && (forall i :: 0 <= i < |submitters| && InOffer(submitters[i]) ==>
          var id := submitters[i].id; id in life && life[id] == Making(i))
    && (forall i :: 0 <= i < |submitters| && submitters[i].Answered? && submitters[i].accepted.Some? ==>
          var id := submitters[i].accepted.value; id in life && WasEnqueued(life[id]))
  }

  ghost predicate HolderOk(s: State) {
    HoldersFit(s.workers, s.submitters, s.life)
  }

  // ----- readers -----

  /** What a cancel can read once its update has hit no row: a terminal status, or `running`
      when a worker has written over another cancel's switch. */
  predicate Answerable(st: Status, id: TaskId, switched: set<TaskId>) {
    st.IsTerminal() || (st == Running && id in switched)
  }

  predicate CancellerOk(c: Canceller, switched: set<TaskId>, db: Db) {
    && (InSignal(c) ==> c.id in switched)
    && (c.Swapping? || c.Rereading? || InSignal(c) || (c.Told? && c.reply.Is?) ==> Owns(db, c.id, c.caller))
    && (c.Rereading? ==> Answerable(db.tasks[c.id].status, c.id, switched))
    && (c.Told? && c.reply.Is? ==> Answerable(c.reply.status, c.id, switched))
  }

  ghost predicate CancellersOk(s: State) {
    forall i :: 0 <= i < |s.cancellers| ==> CancellerOk(s.cancellers[i], s.switched, s.db)
  }

  /** What a poll has read of a published task is what is stored; the row it has read is the
      caller's. */
  predicate PollerOk(p: Poller, db: Db) {
    match p
    case Reading(id, caller, row) =>
      row.status.IsPublished() && Lookup(db.tasks, id) == Some(row) && row.caller == caller
    case Shown(id, caller, Delivered(row, parts)) =>
      && row.status.IsPublished() && Lookup(db.tasks, id) == Some(row) && row.caller == caller
      && parts == RowsOf(db, id)
    case Shown(id, caller, Progress(row)) => !row.status.IsPublished() && row.caller == caller && Owns(db, id, caller)
    case _ => true
  }

  ghost predicate PollersOk(s: State) {
    forall i :: 0 <= i < |s.pollers| ==> PollerOk(s.pollers[i], s.db)
  }

  ghost predicate Inv(cfg: Config, s: State) {
    && GateOk(cfg, s) && QueueOk(cfg, s) && LogOk(s) && HolderOk(s)
    && CancellersOk(s) && PollersOk(s) && ViewsOk(cfg, s)
  }
}
