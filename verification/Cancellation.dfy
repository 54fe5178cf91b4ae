/** How a cancellation ends: what a cancel may answer, and when the status it wrote stays. */
module Cancellation {
  import opened Base
  import opened Types
  import opened Store
  import opened Protocol
  import opened Invariant
  import opened TaskSteps
  import opened SystemSteps
  import opened Safety

  // ----- the answer -----

  /** In every reachable state an answer that names a status names a terminal one, or `running`
      for a task that some cancel has switched. */
  lemma AnswersAre(cfg: Config, s: State, i: nat)
    requires Reachable(cfg, s)
    requires i < |s.cancellers| && s.cancellers[i].Told? && s.cancellers[i].reply.Is?
    ensures var c := s.cancellers[i];
            c.reply.status.IsTerminal() || (c.reply.status == Running && c.id in s.switched)
  {
    ReachableInv(cfg, s);
    hide GateOk, QueueOk, LogOk, HolderOk, PollersOk, ViewsOk;
    assert CancellerOk(s.cancellers[i], s.switched, s.db);
  }

  /** A worker marks the task running over the switch of a cancel. */
  predicate MarksOverCancel(s: State, step: Step, id: TaskId) {
    && step.Work? && step.w < |s.workers| && s.workers[step.w] == Loaded(id) && step.ack != Refused
    && !CtxDone(s, id) && id in s.switched && id in s.db.tasks && s.db.tasks[id].status == Cancelled
  }

  predicate IsRunning(s: State, id: TaskId) {
    id in s.db.tasks && s.db.tasks[id].status == Running
  }

  lemma MarkOutcome(cfg: Config, s: State, step: Step, id: TaskId)
    requires Inv(cfg, s) && Enabled(cfg, s, step) && Overwrites(s, step, id) && id in s.db.tasks
    requires !IsTerminalIn(Apply(cfg, s, step).db, id)
    ensures step.Work? && step.w < |s.workers| && s.workers[step.w] == Loaded(id)
    ensures step.ack != Refused && !CtxDone(s, id) && IsRunning(Apply(cfg, s, step), id)
  {
    hide Inv, GiveUp, QueueFull, Mark;
    if step.Work? {
      Held(cfg, s, step.w);
    }
  }

  /** Only such a write makes a terminal row open again. */
  lemma Reopens(cfg: Config, s: State, step: Step, id: TaskId)
    requires ConfigOk(cfg) && Inv(cfg, s) && Enabled(cfg, s, step) && IsTerminalIn(s.db, id)
    requires !IsTerminalIn(Apply(cfg, s, step).db, id)
    ensures MarksOverCancel(s, step, id) && IsRunning(Apply(cfg, s, step), id)
  {
    hide Inv, ConfigOk, Apply, Enabled, Overwrites;
    TerminalLeftIff(cfg, s, step, id);
    MarkOutcome(cfg, s, step, id);
  }

  /** The writes that end a running task: a worker's verdict, its failure mark unless shutdown cuts
      it off, and the switch of a cancel. */
  predicate EndsRunning(s: State, step: Step, id: TaskId) {
    match step
    case Work(w, ack, _) =>
      && w < |s.workers| && ack != Refused
      && ((s.workers[w].Finalizing? && s.workers[w].id == id) || (s.workers[w] == Unmarked(id) && !s.down))
    case Cancel(i, ack) =>
      && i < |s.cancellers| && s.cancellers[i].Swapping? && s.cancellers[i].id == id
      && ack != Refused && CanSwitch(s.db, id)
    case _ => false
  }

  lemma EndingWork(cfg: Config, s: State, w: nat, ack: Ack, pit: Pit)
    requires Inv(cfg, s) && WorkEnabled(s, w) && Writes(s.workers[w]) && IsRunning(s, s.workers[w].id)
    ensures var id, s' := s.workers[w].id, Work1(cfg, s, w, ack, pit);
            if EndsRunning(s, Work(w, ack, pit), id) then IsTerminalIn(s'.db, id) else IsRunning(s', id)
  {
    hide Inv, GiveUp, Upsert, Mark, CtxDone;
    Held(cfg, s, w);
  }

  /** A running row is ended by these writes and by no others. */
  lemma RunningStep(cfg: Config, s: State, step: Step, id: TaskId)
    requires ConfigOk(cfg) && Inv(cfg, s) && Enabled(cfg, s, step) && IsRunning(s, id)
    ensures var s' := Apply(cfg, s, step);
            if EndsRunning(s, step, id) then IsTerminalIn(s'.db, id) else IsRunning(s', id)
  {
    hide Inv, ConfigOk, Work1, Submit1, Cancel1, Poll1;
    if Writer(s, step, id) {
      match step
      case Work(w, ack, pit) => EndingWork(cfg, s, w, ack, pit);
      case Submit(i, ack, newId) => Makes(cfg, s, i);
      case Cancel(i, ack) => SwapOutcome(s, i, ack);
    } else {
      RowStays(cfg, s, step, id);
    }
  }

  /** At step k a worker marks the task running over a cancel's switch, and no step after it and
      before j ends that. */
  ghost predicate ReopenedAt(ss: seq<State>, steps: seq<Step>, k: nat, j: nat, id: TaskId)
    requires k < j <= |steps| && |ss| == |steps| + 1
  {
    MarksOverCancel(ss[k], steps[k], id) && forall m :: k < m < j ==> !EndsRunning(ss[m], steps[m], id)
  }

  lemma {:induction false} LastReopening(cfg: Config, ss: seq<State>, steps: seq<Step>, i: nat, j: nat, id: TaskId)
    returns (k: nat)
    requires IsExecution(cfg, ss, steps) && i <= j < |ss|
    requires IsTerminalIn(ss[i].db, id) && !IsTerminalIn(ss[j].db, id)
    ensures i <= k < j && ReopenedAt(ss, steps, k, j, id) && IsRunning(ss[j], id)
  {
    hide Inv, ConfigOk, MarksOverCancel, Moves, Apply, Enabled, EndsRunning;
    Along(cfg, ss, steps, j - 1);
    if IsTerminalIn(ss[j - 1].db, id) {
      Reopens(cfg, ss[j - 1], steps[j - 1], id);
      k := j - 1;
    } else {
      k := LastReopening(cfg, ss, steps, i, j - 1, id);
      RunningStep(cfg, ss[j - 1], steps[j - 1], id);
    }
  }

  lemma MarkedRunning(cfg: Config, s: State, step: Step, id: TaskId)
    requires Enabled(cfg, s, step) && MarksOverCancel(s, step, id)
    ensures IsRunning(Apply(cfg, s, step), id)
  {
    hide GiveUp;
  }

  lemma {:induction false} StaysReopened(cfg: Config, ss: seq<State>, steps: seq<Step>, k: nat, j: nat, id: TaskId)
    requires IsExecution(cfg, ss, steps) && k < j < |ss| && ReopenedAt(ss, steps, k, j, id)
    ensures IsRunning(ss[j], id)
  {
    hide Inv, ConfigOk, MarksOverCancel, Moves, Apply, Enabled, EndsRunning;
    Along(cfg, ss, steps, j - 1);
    if j == k + 1 {
      MarkedRunning(cfg, ss[k], steps[k], id);
    } else {
      StaysReopened(cfg, ss, steps, k, j - 1, id);
      RunningStep(cfg, ss[j - 1], steps[j - 1], id);
    }
  }

  /** At step i the canceller's conditional update hits no row, at step j it rereads. */
  predicate MissesAndRereads(ss: seq<State>, steps: seq<Step>, i: nat, j: nat, c: nat)
    requires |ss| == |steps| + 1
  {
    && i < j < |steps| && c < |ss[i].cancellers| && c < |ss[i + 1].cancellers| && c < |ss[j].cancellers|
    && steps[i].Cancel? && steps[i].i == c && ss[i].cancellers[c].Swapping? && ss[i + 1].cancellers[c].Rereading?
    && steps[j] == Cancel(c, Done) && ss[j].cancellers[c].Rereading?
    && ss[j].cancellers[c].id == ss[i].cancellers[c].id
  }

  lemma MissMeansTerminal(s: State, c: nat, ack: Ack)
    requires CancelEnabled(s, c) && s.cancellers[c].Swapping? && s.cancellers[c].id in s.db.tasks
    requires c < |Cancel1(s, c, ack).cancellers| && Cancel1(s, c, ack).cancellers[c].Rereading?
    ensures IsTerminalIn(Cancel1(s, c, ack).db, s.cancellers[c].id)
  {
  }

  lemma CancellerHasRow(cfg: Config, s: State, c: nat)
    requires Inv(cfg, s) && c < |s.cancellers| && (s.cancellers[c].Swapping? || s.cancellers[c].Rereading?)
    ensures s.cancellers[c].id in s.db.tasks
  {
    hide GateOk, QueueOk, LogOk, HolderOk, PollersOk, ViewsOk;
    assert CancellerOk(s.cancellers[c], s.switched, s.db);
  }

  lemma RereadTells(s: State, c: nat)
    requires CancelEnabled(s, c) && s.cancellers[c].Rereading? && s.cancellers[c].id in s.db.tasks
    ensures var x, cs := s.cancellers[c], Cancel1(s, c, Done).cancellers;
            c < |cs| && cs[c] == Told(x.id, x.caller, Is(s.db.tasks[x.id].status))
  {
  }

  /** The exact condition: a cancel that lost the race to switch answers with a status that is
      not terminal if and only if, between its update and its read, a worker marked the task
      running over another cancel's switch, and after that no step gave it a verdict, a failure
      mark or another switch. */
  lemma RereadTellsRunningIff(cfg: Config, ss: seq<State>, steps: seq<Step>, i: nat, j: nat, c: nat)
    requires IsExecution(cfg, ss, steps) && MissesAndRereads(ss, steps, i, j, c)
    ensures c < |ss[j + 1].cancellers|
    ensures var x, y := ss[j].cancellers[c], ss[j + 1].cancellers[c];
            && x.id in ss[j].db.tasks && y == Told(x.id, x.caller, Is(ss[j].db.tasks[x.id].status))
            && (!y.reply.status.IsTerminal() <==> exists k: nat :: i < k < j && ReopenedAt(ss, steps, k, j, x.id))
  {
    hide Inv, ConfigOk, MarksOverCancel, EndsRunning, Work1, Submit1, Poll1, Cancel1;
    var id := ss[j].cancellers[c].id;
    Along(cfg, ss, steps, i);
    Along(cfg, ss, steps, j);
    CancellerHasRow(cfg, ss[i], c);
    CancellerHasRow(cfg, ss[j], c);
    MissMeansTerminal(ss[i], c, steps[i].ack);
    RereadTells(ss[j], c);
    if !IsTerminalIn(ss[j].db, id) {
      var k := LastReopening(cfg, ss, steps, i + 1, j, id);
      assert i < k < j && ReopenedAt(ss, steps, k, j, id);
    }
    forall k: nat | i < k < j && ReopenedAt(ss, steps, k, j, id)
      ensures !IsTerminalIn(ss[j].db, id)
    {
      StaysReopened(cfg, ss, steps, k, j, id);
    }
  }

  // ----- the window, over runs -----

  /** The worker has read this task's row and has not written its last word. */
  predicate InHand(s: State, w: nat, id: TaskId) {
    && w < |s.workers| && Holds(s.workers[w]) && s.workers[w].id == id
    && !InEnter(s.workers[w]) && !InLeave(s.workers[w])
  }

  /** An acknowledged read of an open row. */
  predicate Reads(s: State, s': State, step: Step, w: nat, id: TaskId) {
    && step.Work? && step.w == w && w < |s.workers| && s.workers[w] == Registered(id)
    && w < |s'.workers| && s'.workers[w] == Loaded(id)
  }

  /** A conditional update that hits. */
  predicate Switches(s: State, step: Step, id: TaskId) {
    && step.Cancel? && step.i < |s.cancellers| && s.cancellers[step.i].Swapping? && s.cancellers[step.i].id == id
    && step.ack != Refused && CanSwitch(s.db, id)
  }

  lemma EnterOrLeave(cfg: Config, s: State, w: nat, ack: Ack, pit: Pit, id: TaskId)
    requires WorkEnabled(s, w) && !InHand(s, w, id)
    ensures var s' := Work1(cfg, s, w, ack, pit);
            InHand(s', w, id) ==> Reads(s, s', Work(w, ack, pit), w, id)
  {
    if s.workers[w].Idle? || InEnter(s.workers[w]) || InLeave(s.workers[w]) {
      hide MarkRunning, Gather, Publish, Settle, PositionOf, Mark;
    } else {
      hide Work1;
      WorkHasShape(cfg, s, w, ack, pit);
    }
  }

  lemma InHandStep(cfg: Config, s: State, step: Step, w: nat, id: TaskId)
    requires Enabled(cfg, s, step) && InHand(Apply(cfg, s, step), w, id)
    ensures InHand(s, w, id) || Reads(s, Apply(cfg, s, step), step, w, id)
  {
    hide Work1, Submit1, Cancel1, Poll1;
    match step
    case Work(v, ack, pit) =>
      WorkHasShape(cfg, s, v, ack, pit);
      if v == w && !InHand(s, w, id) {
        EnterOrLeave(cfg, s, w, ack, pit, id);
      }
    case Submit(i, ack, newId) => SubmitHasShape(cfg, s, i, ack, newId);
    case Cancel(i, ack) => CancelHasShape(s, i, ack);
    case Poll(i, ack) => PollAside(s, i, ack);
    case _ =>
  }

  /** Whatever a worker has in hand it has read, at a moment when no cancel had switched it. */
  lemma {:induction false} ReadBefore(cfg: Config, ss: seq<State>, steps: seq<Step>, j: nat, w: nat, id: TaskId)
    returns (i: nat)
    requires IsExecution(cfg, ss, steps) && j < |ss| && InHand(ss[j], w, id)
    ensures i < j && Reads(ss[i], ss[i + 1], steps[i], w, id) && id !in ss[i + 1].switched
    ensures forall m :: i < m <= j ==> InHand(ss[m], w, id)
  {
    hide Inv, ConfigOk, Moves, Apply, Enabled, InHand, Reads, Init;
    NothingInHand(ss[0], w, id);
    Along(cfg, ss, steps, j - 1);
    InHandStep(cfg, ss[j - 1], steps[j - 1], w, id);
    if InHand(ss[j - 1], w, id) {
      i := ReadBefore(cfg, ss, steps, j - 1, w, id);
    } else {
      i := j - 1;
      ReadsUnswitched(cfg, ss[i], steps[i], w, id);
    }
  }

  lemma NothingInHand(s: State, w: nat, id: TaskId)
    requires Init(s)
    ensures !InHand(s, w, id)
  {
  }

  lemma ReadsUnswitched(cfg: Config, s: State, step: Step, w: nat, id: TaskId)
    requires Inv(cfg, s) && Enabled(cfg, s, step) && Reads(s, Apply(cfg, s, step), step, w, id)
    ensures id !in Apply(cfg, s, step).switched
  {
    hide Inv, Work1;
    ReadBeforeSwitch(cfg, s, w, step.ack, step.pit);
  }

  lemma OnlySwapSwitches(s: State, i: nat, ack: Ack, id: TaskId)
    requires CancelEnabled(s, i)
    ensures id in Cancel1(s, i, ack).switched ==> id in s.switched || Switches(s, Cancel(i, ack), id)
  {
  }

  lemma SwitchedStep(cfg: Config, s: State, step: Step, id: TaskId)
    requires Enabled(cfg, s, step) && id in Apply(cfg, s, step).switched && id !in s.switched
    ensures Switches(s, step, id)
  {
    hide Work1, Submit1, Cancel1, Poll1, Switches;
    match step
    case Work(w, ack, pit) => WorkHasShape(cfg, s, w, ack, pit);
    case Submit(i, ack, newId) => SubmitHasShape(cfg, s, i, ack, newId);
    case Cancel(i, ack) => OnlySwapSwitches(s, i, ack, id);
    case Poll(i, ack) => PollAside(s, i, ack);
    case _ =>
  }

  lemma {:induction false} SwitchedBetween(cfg: Config, ss: seq<State>, steps: seq<Step>, i: nat, j: nat, id: TaskId)
    returns (k: nat)
    requires IsExecution(cfg, ss, steps) && i <= j < |ss| && id !in ss[i].switched && id in ss[j].switched
    ensures i <= k < j && Switches(ss[k], steps[k], id)
  {
    hide Inv, ConfigOk, Moves, Apply, Enabled, Switches;
    Along(cfg, ss, steps, j - 1);
    if id in ss[j - 1].switched {
      k := SwitchedBetween(cfg, ss, steps, i, j - 1, id);
    } else {
      k := j - 1;
      SwitchedStep(cfg, ss[k], steps[k], id);
    }
  }

  lemma OverwriterHasInHand(s: State, step: Step, id: TaskId)
    requires step.Work? && Overwrites(s, step, id)
    ensures InHand(s, step.w, id)
  {
  }

  /** At step i worker w reads the row, at step k a cancel switches it, and from the read up to
      step j the worker has it in hand. */
  ghost predicate SwitchedInHand(ss: seq<State>, steps: seq<Step>, i: nat, k: nat, j: nat, w: nat, id: TaskId)
    requires j < |steps| && |ss| == |steps| + 1
  {
    && i < k < j && Reads(ss[i], ss[i + 1], steps[i], w, id) && Switches(ss[k], steps[k], id)
    && forall m :: i < m <= j ==> InHand(ss[m], w, id)
  }

  /** The exact window, over every run: when a worker's step replaces a terminal status, that is a
      `cancelled` which a conditional update wrote after the worker had read the row and before
      this write, with the worker's task in hand all the time. */
  lemma WindowOverRuns(cfg: Config, ss: seq<State>, steps: seq<Step>, j: nat, id: TaskId)
    requires IsExecution(cfg, ss, steps) && j < |steps| && steps[j].Work? && IsTerminalIn(ss[j].db, id)
    requires id in ss[j + 1].db.tasks && ss[j + 1].db.tasks[id].status != ss[j].db.tasks[id].status
    ensures ss[j].db.tasks[id].status == Cancelled
    ensures exists i: nat, k: nat :: SwitchedInHand(ss, steps, i, k, j, steps[j].w, id)
  {
    hide Inv, ConfigOk, Moves, Apply, Enabled, Overwrites, Reads, Switches, InHand;
    Along(cfg, ss, steps, j);
    TerminalLeftIff(cfg, ss[j], steps[j], id);
    OverwriterHasInHand(ss[j], steps[j], id);
    var i := ReadBefore(cfg, ss, steps, j, steps[j].w, id);
    var k := SwitchedBetween(cfg, ss, steps, i + 1, j, id);
    assert SwitchedInHand(ss, steps, i, k, j, steps[j].w, id);
  }

  // ----- whether it lasts -----

  /** What is asked of a cancelled task: does it end up published, or just not cancelled? */
  datatype Fate = GetsPublished | GetsOverwritten

  predicate Hit(st: Status, fate: Fate) {
    if fate == GetsPublished then st.IsPublished() else st != Cancelled
  }

  /** The program points of a worker from which a cancellation can no longer be relied on. As long
      as its context is not done, that is everything between its read and its last write. Once it
      is done, a success is past stopping when all parts are stored (or there are none to store),
      so that no call under the context is left; and from the two marking points the row is
      overwritten with `failed`, unless shutdown cuts off that write too. */
  predicate PastCancel(cfg: Config, down: bool, ctx: bool, pc: Worker, fate: Fate) {
    match pc
    case Loaded(_) => if fate == GetsPublished then !ctx else !down
    case Unmarked(_) => fate == GetsOverwritten && !down
    case Opening(_) => !ctx
    case Fetching(id, p, left) => !ctx || (left == 0 && cfg.plan(id, p).parts == [])
    case Checked(_, _, _) => !ctx
    case Appending(id, p, k) => !ctx || k >= |cfg.plan(id, p).parts|
    case Deciding(_, v) => v.status.IsPublished() || (fate == GetsOverwritten && !ctx && v.status == Failed)
    case Finalizing(_, v) => Hit(v.status, fate)
    case _ => false
  }

  predicate Escapes(cfg: Config, s: State, id: TaskId, fate: Fate) {
    id in s.life && s.life[id].Working? && s.life[id].w < |s.workers|
    && PastCancel(cfg, s.down, CtxDone(s, id), s.workers[s.life[id].w], fate)
  }

  /** An accepted task that a cancel has switched, or whose cancel has been delivered, and which
      is not what is asked for yet. */
  predicate CancelStands(s: State, id: TaskId, fate: Fate) {
    && id in s.life && WasEnqueued(s.life[id])
    && id in s.db.tasks && !Hit(s.db.tasks[id].status, fate)
    && (s.db.tasks[id].status == Cancelled || id in s.signalled)
  }

  /** No worker has read the row yet. */
  predicate Unread(s: State, id: TaskId) {
    && id in s.life
    && (s.life[id].Waiting?
        || (s.life[id].Working? && s.life[id].w < |s.workers| && InEnter(s.workers[s.life[id].w])))
  }

  predicate Caught(cfg: Config, s: State, id: TaskId, fate: Fate) {
    && id in s.life && WasEnqueued(s.life[id])
    && id in s.db.tasks && !Hit(s.db.tasks[id].status, fate)
    && (Unread(s, id) ==> s.db.tasks[id].status == Cancelled)
    && !Escapes(cfg, s, id, fate)
  }

  /** What a step may do without letting a caught task escape. */
  lemma StaysCaught(cfg: Config, s: State, s': State, id: TaskId, fate: Fate)
    requires Caught(cfg, s, id, fate) && (s.down ==> s'.down) && (CtxDone(s, id) ==> CtxDone(s', id))
    requires Lookup(s'.life, id) == Lookup(s.life, id) && OwnerOf(s', id) == OwnerOf(s, id)
    requires SameRow(s, s', id) || IsCancelled(s'.db, id)
    ensures Caught(cfg, s', id, fate)
  {
  }

  /** A worker's own step does not let its task escape: whatever it writes is no hit. */
  predicate WorkCaught(cfg: Config, s: State, s': State, w: nat, fate: Fate)
    requires w < |s.workers| && Holds(s.workers[w])
  {
    var id := s.workers[w].id;
    && w < |s'.workers| && id in s'.db.tasks && !Hit(s'.db.tasks[id].status, fate)
    && (InEnter(s'.workers[w]) ==> s'.db.tasks[id].status == Cancelled)
    && (Holds(s'.workers[w]) ==> !PastCancel(cfg, s'.down, CtxDone(s', id), s'.workers[w], fate))
  }

  predicate CaughtAt(cfg: Config, s: State, w: nat, fate: Fate)
    requires w < |s.workers| && Holds(s.workers[w])
  {
    var pc := s.workers[w];
    && pc.id in s.db.tasks && !Hit(s.db.tasks[pc.id].status, fate)
    && (InEnter(pc) ==> s.db.tasks[pc.id].status == Cancelled)
    && !PastCancel(cfg, s.down, CtxDone(s, pc.id), pc, fate)
    && (pc.Deciding? || pc.Finalizing? ==> pc.v.status.IsTerminal())
    && (pc.Deciding? ==> pc.v.status != Cancelled)
  }

  lemma EnterCaught(cfg: Config, s: State, w: nat, ack: Ack, fate: Fate)
    requires WorkEnabled(s, w) && InEnter(s.workers[w]) && CaughtAt(cfg, s, w, fate)
    ensures WorkCaught(cfg, s, Enter(s, w, ack), w, fate)
  {
    hide Mark;
  }

  lemma MarkCaught(cfg: Config, s: State, w: nat, ack: Ack, fate: Fate)
    requires WorkEnabled(s, w) && InMark(s.workers[w]) && CaughtAt(cfg, s, w, fate)
    ensures WorkCaught(cfg, s, MarkRunning(s, w, ack), w, fate)
  {
    hide GiveUp, Mark;
  }

  lemma GatherCaught(cfg: Config, s: State, w: nat, ack: Ack, pit: Pit, fate: Fate)
    requires WorkEnabled(s, w) && InGather(s.workers[w]) && CaughtAt(cfg, s, w, fate)
    ensures WorkCaught(cfg, s, Gather(cfg, s, w, ack, pit), w, fate)
  {
    hide GiveUp;
  }

  lemma PublishCaught(cfg: Config, s: State, w: nat, ack: Ack, fate: Fate)
    requires WorkEnabled(s, w) && s.workers[w].Appending? && CaughtAt(cfg, s, w, fate)
    ensures WorkCaught(cfg, s, Publish(cfg, s, w, ack), w, fate)
  {
    hide PutPart, GiveUp;
  }

  lemma SettleCaught(cfg: Config, s: State, w: nat, ack: Ack, fate: Fate)
    requires WorkEnabled(s, w) && InSettle(s.workers[w]) && CaughtAt(cfg, s, w, fate)
    ensures WorkCaught(cfg, s, Settle(s, w, ack), w, fate)
  {
    hide Mark;
  }

  lemma LeaveCaught(cfg: Config, s: State, w: nat, fate: Fate)
    requires WorkEnabled(s, w) && InLeave(s.workers[w]) && CaughtAt(cfg, s, w, fate)
    ensures WorkCaught(cfg, s, Leave(s, w), w, fate)
  {
    hide PositionOf;
  }

  lemma BusyCaught(cfg: Config, s: State, w: nat, ack: Ack, pit: Pit, fate: Fate)
    requires WorkEnabled(s, w) && !s.workers[w].Idle? && CaughtAt(cfg, s, w, fate)
    ensures WorkCaught(cfg, s, Work1(cfg, s, w, ack, pit), w, fate)
  {
    hide CaughtAt, WorkCaught, Take, Enter, MarkRunning, Gather, Publish, Settle, Leave;
    var pc := s.workers[w];
    if InEnter(pc) { EnterCaught(cfg, s, w, ack, fate); }
    else if InMark(pc) { MarkCaught(cfg, s, w, ack, fate); }
    else if InGather(pc) { GatherCaught(cfg, s, w, ack, pit, fate); }
    else if pc.Appending? { PublishCaught(cfg, s, w, ack, fate); }
    else if InSettle(pc) { SettleCaught(cfg, s, w, ack, fate); }
    else { LeaveCaught(cfg, s, w, fate); }
  }

  lemma WorkerIsCaught(cfg: Config, s: State, w: nat, fate: Fate)
    requires Inv(cfg, s) && WorkEnabled(s, w) && !s.workers[w].Idle?
    requires Caught(cfg, s, s.workers[w].id, fate)
    ensures CaughtAt(cfg, s, w, fate)
  {
    hide Inv, PastCancel;
    Held(cfg, s, w);
  }

  lemma OwnWorkStaysCaught(cfg: Config, s: State, w: nat, ack: Ack, pit: Pit, fate: Fate)
    requires ConfigOk(cfg) && Inv(cfg, s) && WorkEnabled(s, w) && Caught(cfg, s, WorkTask(s, w), fate)
    ensures Caught(cfg, Work1(cfg, s, w, ack, pit), WorkTask(s, w), fate)
  {
    InvParts(cfg, s);
    hide Inv, ConfigOk, Work1, Hit, PastCancel;
    var id, s' := WorkTask(s, w), Work1(cfg, s, w, ack, pit);
    WorkHasShape(cfg, s, w, ack, pit);
    if s.workers[w].Idle? {
      HeadIsWaiting(cfg, s);
      NotPastWhenTaken(cfg, s'.down, CtxDone(s', id), id, fate);
    } else {
      Held(cfg, s, w);
      WorkerIsCaught(cfg, s, w, fate);
      BusyCaught(cfg, s, w, ack, pit, fate);
    }
  }

  lemma NotPastWhenTaken(cfg: Config, down: bool, ctx: bool, id: TaskId, fate: Fate)
    ensures !PastCancel(cfg, down, ctx, Taken(id), fate)
  {
  }

  lemma OthersWorkStaysCaught(cfg: Config, s: State, w: nat, ack: Ack, pit: Pit, id: TaskId, fate: Fate)
    requires ConfigOk(cfg) && Inv(cfg, s) && WorkEnabled(s, w) && id != WorkTask(s, w) && Caught(cfg, s, id, fate)
    ensures Caught(cfg, Work1(cfg, s, w, ack, pit), id, fate)
  {
    hide Inv, ConfigOk, Work1, Caught, OwnerOf, RowsOf;
    CaughtHasRow(cfg, s, id, fate);
    WorkViews(cfg, s, w, ack, pit, id);
    WorkHasShape(cfg, s, w, ack, pit);
    var s' := Work1(cfg, s, w, ack, pit);
    assert ViewOf(s', id).owner == ViewOf(s, id).owner && ViewOf(s', id).life == ViewOf(s, id).life;
    assert ViewOf(s', id).ctx == ViewOf(s, id).ctx;
    SameView(s, s', id);
    StaysCaught(cfg, s, s', id, fate);
  }

  lemma CaughtHasRow(cfg: Config, s: State, id: TaskId, fate: Fate)
    requires Caught(cfg, s, id, fate)
    ensures id in s.db.tasks && id in s.life && WasEnqueued(s.life[id])
  {
  }

  lemma SubmitKeepsLife(cfg: Config, s: State, i: nat, ack: Ack, newId: TaskId, id: TaskId)
    requires Inv(cfg, s) && SubmitEnabled(cfg, s, i, ack, newId) && id in s.life && WasEnqueued(s.life[id])
    ensures var s' := Submit1(cfg, s, i, ack, newId);
            Lookup(s'.life, id) == Lookup(s.life, id) && OwnerOf(s', id) == OwnerOf(s, id) && SameRow(s, s', id)
  {
    hide Inv, Submit1, RowsOf;
    SubmitHasShape(cfg, s, i, ack, newId);
    FreshId(cfg, s, id);
    if InOffer(s.submitters[i]) {
      Makes(cfg, s, i);
    }
    SubmitRow(cfg, s, i, ack, newId, id);
  }

  lemma CancelStaysCaught(cfg: Config, s: State, i: nat, ack: Ack, id: TaskId, fate: Fate)
    requires Inv(cfg, s) && CancelEnabled(s, i) && Caught(cfg, s, id, fate)
    ensures Caught(cfg, Cancel1(s, i, ack), id, fate)
  {
    hide Inv, Cancel1, Caught, RowsOf;
    CaughtHasRow(cfg, s, id, fate);
    CancelHasShape(s, i, ack);
    if Writer(s, Cancel(i, ack), id) {
      SwapOutcome(s, i, ack);
    } else {
      CancelRow(s, i, ack, id);
    }
    StaysCaught(cfg, s, Cancel1(s, i, ack), id, fate);
  }

  lemma IdleStaysCaught(cfg: Config, s: State, step: Step, id: TaskId, fate: Fate)
    requires Inv(cfg, s) && Enabled(cfg, s, step) && Caught(cfg, s, id, fate)
    requires step.Arrive? || step.Exit? || step.AskCancel? || step.AskPoll? || step.Poll?
    ensures Caught(cfg, Apply(cfg, s, step), id, fate)
  {
    hide Inv, Apply, Enabled, Caught, OwnerOf, RowsOf;
    var s' := Apply(cfg, s, step);
    CaughtHasRow(cfg, s, id, fate);
    IdleViews(cfg, s, step, id);
    assert ViewOf(s', id).owner == ViewOf(s, id).owner && ViewOf(s', id).life == ViewOf(s, id).life;
    assert ViewOf(s', id).ctx == ViewOf(s, id).ctx;
    SameView(s, s', id);
    StaysCaught(cfg, s, s', id, fate);
  }

  lemma SubmitStaysCaught(cfg: Config, s: State, i: nat, ack: Ack, newId: TaskId, id: TaskId, fate: Fate)
    requires Inv(cfg, s) && SubmitEnabled(cfg, s, i, ack, newId) && Caught(cfg, s, id, fate)
    ensures Caught(cfg, Submit1(cfg, s, i, ack, newId), id, fate)
  {
    hide Inv, Submit1, Caught, OwnerOf, RowsOf;
    CaughtHasRow(cfg, s, id, fate);
    SubmitKeepsLife(cfg, s, i, ack, newId, id);
    SubmitHasShape(cfg, s, i, ack, newId);
    StaysCaught(cfg, s, Submit1(cfg, s, i, ack, newId), id, fate);
  }

  lemma CaughtStep(cfg: Config, s: State, step: Step, id: TaskId, fate: Fate)
    requires ConfigOk(cfg) && Inv(cfg, s) && Enabled(cfg, s, step) && Caught(cfg, s, id, fate)
    ensures Caught(cfg, Apply(cfg, s, step), id, fate)
  {
    hide Inv, ConfigOk, Work1, Submit1, Cancel1, Poll1, Caught, RowsOf;
    match step
    case Work(w, ack, pit) =>
      if WorkTask(s, w) == id {
        OwnWorkStaysCaught(cfg, s, w, ack, pit, fate);
      } else {
        OthersWorkStaysCaught(cfg, s, w, ack, pit, id, fate);
      }
    case Submit(i, ack, newId) => SubmitStaysCaught(cfg, s, i, ack, newId, id, fate);
    case Cancel(i, ack) => CancelStaysCaught(cfg, s, i, ack, id, fate);
    case Shutdown =>
      CaughtHasRow(cfg, s, id, fate);
      StaysCaught(cfg, s, Apply(cfg, s, step), id, fate);
    case _ => IdleStaysCaught(cfg, s, step, id, fate);
  }

  lemma {:induction false} CaughtForever(cfg: Config, ss: seq<State>, steps: seq<Step>, n: nat, id: TaskId, fate: Fate)
    requires ConfigOk(cfg) && IsRun(cfg, ss, steps) && n < |ss|
    requires Inv(cfg, ss[0]) && Caught(cfg, ss[0], id, fate)
    ensures Inv(cfg, ss[n]) && Caught(cfg, ss[n], id, fate)
  {
    hide ConfigOk, Inv, Caught;
    if n > 0 {
      CaughtForever(cfg, ss, steps, n - 1, id, fate);
      assert Moves(cfg, ss, steps, n - 1);
      hide Apply, Enabled;
      InvStep(cfg, ss[n - 1], steps[n - 1]);
      CaughtStep(cfg, ss[n - 1], steps[n - 1], id, fate);
    }
  }

  // ----- and how it fails to last -----

  /** How far the worker is from its last write: phases first, then steps within one. */
  function PhasesToHit(pc: Worker): nat {
    match pc
    case Loaded(_) => 6
    case Opening(_) => 5
    case Fetching(_, _, _) => 4
    case Checked(_, _, _) => 4
    case Appending(_, _, _) => 3
    case Deciding(_, _) => 2
    case _ => 1
  }

  function StepsInPhase(cfg: Config, pc: Worker): nat {
    match pc
    case Fetching(_, _, left) => 2 * left
    case Checked(_, _, left) => 2 * left + 1
    case Appending(id, p, k) => Max(0, |cfg.plan(id, p).parts| - k)
    case _ => 0
  }

  /** The worker has hit, or is one step closer. */
  predicate Approaches(cfg: Config, s: State, s': State, w: nat, fate: Fate)
    requires w < |s.workers| && Holds(s.workers[w])
  {
    var pc := s.workers[w];
    && pc.id in s'.db.tasks
    && (Hit(s'.db.tasks[pc.id].status, fate)
        || (w < |s'.workers| && Holds(s'.workers[w]) && s'.workers[w].id == pc.id
            && PastCancel(cfg, s'.down, CtxDone(s', pc.id), s'.workers[w], fate)
            && (PhasesToHit(s'.workers[w]) < PhasesToHit(pc)
                || (PhasesToHit(s'.workers[w]) == PhasesToHit(pc)
                    && StepsInPhase(cfg, s'.workers[w]) < StepsInPhase(cfg, pc)))))
  }

  lemma MarkApproaches(cfg: Config, s: State, w: nat, fate: Fate)
    requires WorkEnabled(s, w) && InMark(s.workers[w]) && s.workers[w].id in s.db.tasks
    requires PastCancel(cfg, s.down, CtxDone(s, s.workers[w].id), s.workers[w], fate)
    ensures Approaches(cfg, s, MarkRunning(s, w, Done), w, fate)
  {
    hide GiveUp, Mark;
  }

  lemma GatherApproaches(cfg: Config, s: State, w: nat, pit: Pit, fate: Fate)
    requires WorkEnabled(s, w) && InGather(s.workers[w]) && s.workers[w].id in s.db.tasks
    requires PastCancel(cfg, s.down, CtxDone(s, s.workers[w].id), s.workers[w], fate)
    ensures Approaches(cfg, s, Gather(cfg, s, w, Done, pit), w, fate)
  {
    hide GiveUp;
  }

  lemma PublishApproaches(cfg: Config, s: State, w: nat, fate: Fate)
    requires WorkEnabled(s, w) && s.workers[w].Appending? && s.workers[w].id in s.db.tasks
    requires PastCancel(cfg, s.down, CtxDone(s, s.workers[w].id), s.workers[w], fate)
    ensures Approaches(cfg, s, Publish(cfg, s, w, Done), w, fate)
  {
    hide Upsert, GiveUp;
  }

  lemma SettleApproaches(cfg: Config, s: State, w: nat, fate: Fate)
    requires WorkEnabled(s, w) && InSettle(s.workers[w]) && s.workers[w].id in s.db.tasks
    requires PastCancel(cfg, s.down, CtxDone(s, s.workers[w].id), s.workers[w], fate)
    ensures Approaches(cfg, s, Settle(s, w, Done), w, fate)
  {
    hide Mark;
  }

  lemma WorkApproaches(cfg: Config, s: State, w: nat, pit: Pit, fate: Fate)
    requires WorkEnabled(s, w) && Holds(s.workers[w]) && s.workers[w].id in s.db.tasks
    requires PastCancel(cfg, s.down, CtxDone(s, s.workers[w].id), s.workers[w], fate)
    ensures Approaches(cfg, s, Work1(cfg, s, w, Done, pit), w, fate)
  {
    hide Approaches, MarkRunning, Gather, Publish, Settle;
    var pc := s.workers[w];
    if InMark(pc) { MarkApproaches(cfg, s, w, fate); }
    else if InGather(pc) { GatherApproaches(cfg, s, w, pit, fate); }
    else if pc.Appending? { PublishApproaches(cfg, s, w, fate); }
    else { SettleApproaches(cfg, s, w, fate); }
  }

  lemma {:induction false} Hits(cfg: Config, s: State, s1: State, w: nat, pit: Pit, id: TaskId, fate: Fate)
    returns (t: State)
    requires Leads(cfg, s, s1) && w < |s1.workers| && Holds(s1.workers[w]) && s1.workers[w].id == id
    requires id in s1.db.tasks && PastCancel(cfg, s1.down, CtxDone(s1, id), s1.workers[w], fate)
    ensures Leads(cfg, s, t) && id in t.db.tasks && Hit(t.db.tasks[id].status, fate)
    decreases PhasesToHit(s1.workers[w]), StepsInPhase(cfg, s1.workers[w])
  {
    hide Leads, Work1, PastCancel, PhasesToHit, StepsInPhase;
    WorkApproaches(cfg, s1, w, pit, fate);
    LeadsOn(cfg, s, s1, Work(w, Done, pit));
    t := Apply(cfg, s1, Work(w, Done, pit));
    if !Hit(t.db.tasks[id].status, fate) {
      t := Hits(cfg, s, t, w, pit, id, fate);
    }
  }

  ghost predicate CanHit(cfg: Config, s: State, id: TaskId, fate: Fate) {
    exists t: State :: Leads(cfg, s, t) && id in t.db.tasks && Hit(t.db.tasks[id].status, fate)
  }

  /** The exact condition, over every continuation: an accepted task that is cancelled, whether
      the cancel was told so or not and whether it has signalled or not, can still be published,
      or still lose its `cancelled`, if and only if its worker stands at one of the points named
      in `PastCancel`. */
  lemma CancelFailsIff(cfg: Config, s: State, id: TaskId, fate: Fate)
    requires Reachable(cfg, s) && CancelStands(s, id, fate)
    ensures CanHit(cfg, s, id, fate) <==> Escapes(cfg, s, id, fate)
  {
    ReachableInv(cfg, s);
    hide Inv, ConfigOk, PastCancel, Hit, CtxDone;
    if Escapes(cfg, s, id, fate) {
      EscapingWorker(cfg, s, id, fate);
      LeadsHere(cfg, s);
      var t := Hits(cfg, s, s, s.life[id].w, Pit(0, "", Scope("", [], TimeRange(0, 0))), id, fate);
    } else if CanHit(cfg, s, id, fate) {
      StandsIsCaught(cfg, s, id, fate);
      var t: State :| Leads(cfg, s, t) && id in t.db.tasks && Hit(t.db.tasks[id].status, fate);
      var ss: seq<State>, steps: seq<Step> :| IsRun(cfg, ss, steps) && ss[0] == s && Last(ss) == t;
      CaughtForever(cfg, ss, steps, |ss| - 1, id, fate);
    }
  }

  lemma StandsIsCaught(cfg: Config, s: State, id: TaskId, fate: Fate)
    requires Inv(cfg, s) && CancelStands(s, id, fate) && !Escapes(cfg, s, id, fate)
    ensures Caught(cfg, s, id, fate)
  {
    hide Inv, Hit, Escapes;
    if id in s.signalled {
      SignalNoticed(cfg, s, id);
    }
  }

  lemma EscapingWorker(cfg: Config, s: State, id: TaskId, fate: Fate)
    requires Inv(cfg, s) && Escapes(cfg, s, id, fate)
    ensures var pc := s.workers[s.life[id].w]; Holds(pc) && pc.id == id
  {
    hide GateOk, QueueOk, LogOk, HolderOk, CancellersOk, PollersOk;
    assert TaskOk(cfg, id, ViewOf(s, id));
  }
}
