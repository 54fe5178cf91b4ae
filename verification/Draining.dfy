/** Without new requests the system comes to rest, and at rest nothing is left behind. */
module Draining {
  import opened Base
  import opened Types
  import opened Store
  import opened Protocol
  import opened Invariant
  import opened TaskSteps
  import opened SystemSteps
  import opened Safety

  /** The steps the system takes by itself. */
  predicate Internal(step: Step) {
    step.Submit? || step.Work? || step.Exit? || step.Cancel? || step.Poll?
  }

  // ----- a measure in two parts -----

  /** Points in time still to be opened, at most one per task on its way there. How much work
      follows is known only then. */
  function WorkerOpens(pc: Worker): nat {
    if pc.Taken? || pc.Registered? || pc.Loaded? || pc.Opening? then 1 else 0
  }

  function SubmitterOpens(pc: Submitter): nat {
    if pc.Acquiring? || pc.Holding? || pc.Created? then 1 else 0
  }

  function Opens(s: State): nat {
    |s.queue| + Sum(WorkerOpens, s.workers) + Sum(SubmitterOpens, s.submitters)
  }

  /** Steps still to go, as far as they are known. */
  function WorkerLeft(cfg: Config, pc: Worker): nat {
    match pc
    case Exited => 0
    case Idle => 1
    case Unregistered(_) => 2
    case Leaving(_) => 3
    case Finalizing(_, _) => 4
    case Deciding(_, _) => 5
    case Unmarked(_) => 4
    case Appending(id, p, k) => 6 + Max(0, |cfg.plan(id, p).parts| - k)
    case Fetching(id, p, left) => 8 + |cfg.plan(id, p).parts| + 2 * left
    case Checked(id, p, left) => 9 + |cfg.plan(id, p).parts| + 2 * left
    case Opening(_) => 6
    case Loaded(_) => 7
    case Registered(_) => 8
    case Taken(_) => 9
  }

  const QUEUED_LEFT := 10

  function SubmitterLeft(pc: Submitter): nat {
    match pc
    case Answered(_) => 0
    case Undoing => 1
    case Rejecting(_) => 1
    case Full(_) => 2
    case Created(_) => 12
    case Holding(_, _) => 13
    case Acquiring(_) => 14
  }

  function CancellerLeft(pc: Canceller): nat {
    match pc
    case Told(_, _, _) => 0
    case Firing(_, _) => 1
    case Rereading(_, _) => 1
    case Signalling(_, _) => 2
    case Swapping(_, _) => 3
    case Looking(_, _) => 4
  }

  function PollerLeft(pc: Poller): nat {
    match pc
    case Shown(_, _, _) => 0
    case Reading(_, _, _) => 1
    case Asking(_, _) => 2
  }

  function Left(cfg: Config, s: State): nat {
    QUEUED_LEFT * |s.queue| + Sum(pc => WorkerLeft(cfg, pc), s.workers) + Sum(SubmitterLeft, s.submitters)
    + Sum(CancellerLeft, s.cancellers) + Sum(PollerLeft, s.pollers)
  }

  /** Lexicographic order on the two parts. */
  predicate Smaller(cfg: Config, s': State, s: State) {
    Opens(s') < Opens(s) || (Opens(s') == Opens(s) && Left(cfg, s') < Left(cfg, s))
  }

  /** A busy worker's step opens a point in time, or brings it closer to the end. */
  predicate Closer(cfg: Config, s: State, s': State, w: nat) {
    && w < |s.workers| && w < |s'.workers|
    && WorkerOpens(s'.workers[w]) <= WorkerOpens(s.workers[w])
    && (WorkerOpens(s'.workers[w]) == WorkerOpens(s.workers[w]) ==>
          WorkerLeft(cfg, s'.workers[w]) < WorkerLeft(cfg, s.workers[w]))
  }

  lemma EnterCloser(cfg: Config, s: State, w: nat, ack: Ack)
    requires WorkEnabled(s, w) && InEnter(s.workers[w])
    ensures Closer(cfg, s, Enter(s, w, ack), w)
  {
  }

  lemma MarkRunningCloser(cfg: Config, s: State, w: nat, ack: Ack)
    requires WorkEnabled(s, w) && InMark(s.workers[w])
    ensures Closer(cfg, s, MarkRunning(s, w, ack), w)
  {
    hide SetVerdict, SetStatus, Write, GiveUp, Mark;
  }

  lemma GatherCloser(cfg: Config, s: State, w: nat, ack: Ack, pit: Pit)
    requires WorkEnabled(s, w) && InGather(s.workers[w])
    ensures Closer(cfg, s, Gather(cfg, s, w, ack, pit), w)
  {
    hide CtxDone, GiveUp;
  }

  lemma PublishCloser(cfg: Config, s: State, w: nat, ack: Ack)
    requires WorkEnabled(s, w) && s.workers[w].Appending?
    ensures Closer(cfg, s, Publish(cfg, s, w, ack), w)
  {
    hide PutPart, Write, GiveUp;
  }

  lemma SettleCloser(cfg: Config, s: State, w: nat, ack: Ack)
    requires WorkEnabled(s, w) && InSettle(s.workers[w])
    ensures Closer(cfg, s, Settle(s, w, ack), w)
  {
    hide SetVerdict, Write, Mark, CtxDone;
  }

  lemma LeaveCloser(cfg: Config, s: State, w: nat)
    requires WorkEnabled(s, w) && InLeave(s.workers[w])
    ensures Closer(cfg, s, Leave(s, w), w)
  {
    hide PositionOf;
  }

  lemma WorkerProgress(cfg: Config, s: State, w: nat, ack: Ack, pit: Pit)
    requires WorkEnabled(s, w) && !s.workers[w].Idle?
    ensures Closer(cfg, s, Work1(cfg, s, w, ack, pit), w)
  {
    hide Closer, Take, Enter, MarkRunning, Gather, Publish, Settle, Leave;
    var pc := s.workers[w];
    if InEnter(pc) { EnterCloser(cfg, s, w, ack); }
    else if InMark(pc) { MarkRunningCloser(cfg, s, w, ack); }
    else if InGather(pc) { GatherCloser(cfg, s, w, ack, pit); }
    else if pc.Appending? { PublishCloser(cfg, s, w, ack); }
    else if InSettle(pc) { SettleCloser(cfg, s, w, ack); }
    else { LeaveCloser(cfg, s, w); }
  }

  lemma WorkSmaller(cfg: Config, s: State, w: nat, ack: Ack, pit: Pit)
    requires WorkEnabled(s, w)
    ensures Smaller(cfg, Work1(cfg, s, w, ack, pit), s)
  {
    hide Work1, Sum;
    var s' := Work1(cfg, s, w, ack, pit);
    WorkHasShape(cfg, s, w, ack, pit);
    SumUpdate(WorkerOpens, s.workers, w, s'.workers[w]);
    SumUpdate(pc => WorkerLeft(cfg, pc), s.workers, w, s'.workers[w]);
    if !s.workers[w].Idle? {
      WorkerProgress(cfg, s, w, ack, pit);
    }
  }

  lemma SubmitSmaller(cfg: Config, s: State, i: nat, ack: Ack, newId: TaskId)
    requires SubmitEnabled(cfg, s, i, ack, newId)
    ensures Smaller(cfg, Submit1(cfg, s, i, ack, newId), s)
  {
    hide Submit1, Sum;
    var s' := Submit1(cfg, s, i, ack, newId);
    SubmitHasShape(cfg, s, i, ack, newId);
    SumUpdate(SubmitterOpens, s.submitters, i, s'.submitters[i]);
    SumUpdate(SubmitterLeft, s.submitters, i, s'.submitters[i]);
  }

  lemma CancelSmaller(cfg: Config, s: State, i: nat, ack: Ack)
    requires CancelEnabled(s, i)
    ensures Smaller(cfg, Cancel1(s, i, ack), s)
  {
    hide Cancel1, Sum;
    CancelHasShape(s, i, ack);
    SumUpdate(CancellerLeft, s.cancellers, i, Cancel1(s, i, ack).cancellers[i]);
  }

  lemma PollerCloser(s: State, i: nat, ack: Ack)
    requires PollEnabled(s, i)
    ensures var ps := Poll1(s, i, ack).pollers;
            i < |ps| && ps == s.pollers[i := ps[i]] && PollerLeft(ps[i]) < PollerLeft(s.pollers[i])
  {
  }

  lemma PollSmaller(cfg: Config, s: State, i: nat, ack: Ack)
    requires PollEnabled(s, i)
    ensures Smaller(cfg, Poll1(s, i, ack), s)
  {
    hide Poll1, Sum;
    PollAside(s, i, ack);
    PollerCloser(s, i, ack);
    SumUpdate(PollerLeft, s.pollers, i, Poll1(s, i, ack).pollers[i]);
  }

  /** Every step the system takes by itself makes the measure smaller, however store calls,
      searches and waits turn out. */
  lemma InternalSmaller(cfg: Config, s: State, step: Step)
    requires Enabled(cfg, s, step) && Internal(step)
    ensures Smaller(cfg, Apply(cfg, s, step), s)
  {
    hide Work1, Submit1, Cancel1, Poll1, Sum, Smaller;
    match step
    case Work(w, ack, pit) => WorkSmaller(cfg, s, w, ack, pit);
    case Submit(i, ack, newId) => SubmitSmaller(cfg, s, i, ack, newId);
    case Cancel(i, ack) => CancelSmaller(cfg, s, i, ack);
    case Poll(i, ack) => PollSmaller(cfg, s, i, ack);
    case Exit(w) => ExitSmaller(cfg, s, w);
  }

  lemma ExitSmaller(cfg: Config, s: State, w: nat)
    requires Enabled(cfg, s, Exit(w))
    ensures Smaller(cfg, Apply(cfg, s, Exit(w)), s)
  {
    hide Sum;
    SumUpdate(WorkerOpens, s.workers, w, Exited);
    SumUpdate(pc => WorkerLeft(cfg, pc), s.workers, w, Exited);
  }

  // ----- no run goes on forever by itself -----

  ghost predicate InternalMove(cfg: Config, s: State, s': State) {
    exists step :: Internal(step) && Enabled(cfg, s, step) && s' == Apply(cfg, s, step)
  }

  lemma MoveSmaller(cfg: Config, s: State, s': State)
    requires InternalMove(cfg, s, s')
    ensures Smaller(cfg, s', s)
  {
    var step :| Internal(step) && Enabled(cfg, s, step) && s' == Apply(cfg, s, step);
    InternalSmaller(cfg, s, step);
  }

  lemma {:induction false} Descends(cfg: Config, run: nat -> State, from: nat) returns (stop: nat)
    ensures stop >= from && !InternalMove(cfg, run(stop), run(stop + 1))
    decreases Opens(run(from)), Left(cfg, run(from))
  {
    hide Opens, Left, InternalMove;
    if InternalMove(cfg, run(from), run(from + 1)) {
      MoveSmaller(cfg, run(from), run(from + 1));
      stop := Descends(cfg, run, from + 1);
    } else {
      stop := from;
    }
  }

  /** Draining terminates: from any state whatever, no infinite sequence of internal steps
      exists. */
  lemma DrainingTerminates(cfg: Config, run: nat -> State)
    ensures exists i: nat :: !InternalMove(cfg, run(i), run(i + 1))
  {
    var stop := Descends(cfg, run, 0);
  }

  // ----- at rest -----

  ghost predicate AtRest(cfg: Config, s: State) {
    forall step :: Internal(step) ==> !Enabled(cfg, s, step)
  }

  lemma RestingParties(cfg: Config, s: State)
    requires AtRest(cfg, s)
    ensures forall w :: 0 <= w < |s.workers| ==> !Holds(s.workers[w]) && (s.workers[w].Idle? ==> s.queue == [])
    ensures forall i :: 0 <= i < |s.submitters| ==> s.submitters[i].Answered?
    ensures forall i :: 0 <= i < |s.cancellers| ==> s.cancellers[i].Told?
    ensures forall i :: 0 <= i < |s.pollers| ==> s.pollers[i].Shown?
  {
    forall w | 0 <= w < |s.workers|
      ensures !Holds(s.workers[w]) && (s.workers[w].Idle? ==> s.queue == [])
    {
      assert !Enabled(cfg, s, Work(w, Done, Pit(0, "", Scope("", [], TimeRange(0, 0)))));
    }
    forall i | 0 <= i < |s.submitters|
      ensures s.submitters[i].Answered?
    {
      assert !Enabled(cfg, s, Submit(i, Refused, ""));
    }
    forall i | 0 <= i < |s.cancellers|
      ensures s.cancellers[i].Told?
    {
      assert !Enabled(cfg, s, Cancel(i, Done));
    }
    forall i | 0 <= i < |s.pollers|
      ensures s.pollers[i].Shown?
    {
      assert !Enabled(cfg, s, Poll(i, Done));
    }
  }

  lemma {:induction false} NoSlots<T>(f: T -> nat, s: seq<T>)
    requires forall k :: 0 <= k < |s| ==> f(s[k]) == 0
    ensures Sum(f, s) == 0
  {
    if s != [] {
      NoSlots(f, s[1..]);
    }
  }

  /** Everything accepted has been dealt with: its row is terminal and frozen unless the
      worker's read or last write failed, and then the store error is on record. */
  ghost predicate Drained(s: State) {
    && s.gate == 0 && s.queue == [] && s.cancels == {}
    && forall i :: 0 <= i < |s.submitters| ==>
         && s.submitters[i].Answered?
         && (s.submitters[i].accepted.Some? ==>
               var id := s.submitters[i].accepted.value;
               && id in s.life && s.life[id].Over?
               && (id !in s.orphans ==> Settled(s, id)))
  }

  lemma RestingTask(cfg: Config, s: State, id: TaskId)
    requires Inv(cfg, s)
    requires forall w :: 0 <= w < |s.workers| ==> !Holds(s.workers[w])
    ensures id !in s.cancels
    ensures id in s.life ==> !s.life[id].Working?
    ensures s.queue == [] && id in s.life && WasEnqueued(s.life[id]) ==> s.life[id].Over?
  {
    InvParts(cfg, s);
    hide GateOk, QueueOk, HolderOk, CancellersOk, PollersOk;
    assert TaskOk(cfg, id, ViewOf(s, id));
  }

  /** A reachable state at rest in which some worker has not been shut down is drained. */
  lemma RestIsDrained(cfg: Config, s: State, w: nat)
    requires Reachable(cfg, s) && AtRest(cfg, s)
    requires w < |s.workers| && !s.workers[w].Exited?
    ensures Drained(s)
  {
    ReachableInv(cfg, s);
    RestingParties(cfg, s);
    InvParts(cfg, s);
    assert s.queue == [];
    NoSlots(WorkerSlot, s.workers);
    NoSlots(SubmitterSlot, s.submitters);
    hide Inv, ConfigOk, Enabled, AtRest, LogOk, Settled;
    forall id | id in s.cancels
      ensures false
    {
      RestingTask(cfg, s, id);
    }
    forall i | 0 <= i < |s.submitters| && s.submitters[i].accepted.Some?
      ensures var id := s.submitters[i].accepted.value;
              id in s.life && s.life[id].Over? && (id !in s.orphans ==> Settled(s, id))
    {
      var id := s.submitters[i].accepted.value;
      RestingTask(cfg, s, id);
      if id !in s.orphans {
        LeftMeansSettled(cfg, s, id);
      }
    }
  }

  lemma DoneLeavesNoOrphan(cfg: Config, s: State, w: nat, pit: Pit)
    requires Inv(cfg, s) && WorkEnabled(s, w) && !s.down
    ensures Work1(cfg, s, w, Done, pit).orphans == s.orphans
  {
    hide Inv, GiveUp, PositionOf;
    if !s.workers[w].Idle? {
      Held(cfg, s, w);
    }
  }

  lemma NoOrphanStep(cfg: Config, s: State, step: Step)
    requires Inv(cfg, s) && Enabled(cfg, s, step) && !s.down
    requires step != Shutdown && (step.Work? ==> step.ack == Done)
    ensures Apply(cfg, s, step).orphans == s.orphans && !Apply(cfg, s, step).down
  {
    hide Inv, Work1, Submit1, Cancel1, Poll1;
    match step
    case Work(w, ack, pit) =>
      WorkHasShape(cfg, s, w, ack, pit);
      DoneLeavesNoOrphan(cfg, s, w, pit);
    case Submit(i, ack, newId) => SubmitHasShape(cfg, s, i, ack, newId);
    case Cancel(i, ack) => CancelHasShape(s, i, ack);
    case Poll(i, ack) => PollAside(s, i, ack);
    case _ =>
  }

  /** When all calls of the workers succeed and nothing shuts them down, no task is left without
      a last word - cancelled ones included, whose worker may find its context done already. */
  lemma {:induction false} NoFailureNoOrphan(cfg: Config, ss: seq<State>, steps: seq<Step>, n: nat)
    requires IsExecution(cfg, ss, steps) && n <= |steps|
    requires forall k :: 0 <= k < n ==> steps[k] != Shutdown && (steps[k].Work? ==> steps[k].ack == Done)
    ensures ss[n].orphans == {} && !ss[n].down
  {
    if n > 0 {
      NoFailureNoOrphan(cfg, ss, steps, n - 1);
      Along(cfg, ss, steps, n - 1);
      hide Inv, ConfigOk, Apply, Enabled;
      NoOrphanStep(cfg, ss[n - 1], steps[n - 1]);
    }
  }

  /** Also after a shutdown nobody holds a slot but the tasks left in the queue. */
  lemma RestAfterShutdown(cfg: Config, s: State)
    requires Reachable(cfg, s) && AtRest(cfg, s)
    ensures s.gate == |s.queue| && s.cancels == {}
  {
    ReachableInv(cfg, s);
    RestingParties(cfg, s);
    InvParts(cfg, s);
    NoSlots(WorkerSlot, s.workers);
    NoSlots(SubmitterSlot, s.submitters);
    hide Inv, ConfigOk, Enabled, AtRest, LogOk;
    forall id | id in s.cancels
      ensures false
    {
      RestingTask(cfg, s, id);
    }
  }
}
