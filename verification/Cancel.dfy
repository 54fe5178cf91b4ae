/** internal/cancel/cancel.go: look up, switch, signal. */
module Cancel {
  import opened Types
  import opened Store
  import opened Remote
  import opened Executor

  datatype Outcome = NotFound | Failure | Is(status: Status)

  /** What a cancel nobody interferes with answers and leaves behind, when its calls ended as `f`:
      the read, and for an open task of the caller's the conditional update. */
  predicate Undisturbed(db0: Db, db: Db, id: TaskId, caller: string, r: Outcome, switched: bool, f: seq<Ack>) {
    && f != []
    && if f[0] != Done then |f| == 1 && r == Failure && !switched && db == db0
       else if !Owns(db0, id, caller) then |f| == 1 && r == NotFound && !switched && db == db0
       else if IsTerminalIn(db0, id) then |f| == 1 && r == Is(db0.tasks[id].status) && !switched && db == db0
       else
         && |f| == 2 && db == Write(f[1], db0, SwitchToCancelled(db0, id))
         && (switched <==> f[1] == Done) && r == if switched then Is(Cancelled) else Failure
  }

  class Canceller {
    const exec: Worker

    constructor (exec: Worker)
      ensures this.exec == exec
    {
      this.exec := exec;
    }

    /** Other parties take their turn between two steps of this call: rows are written, the
        task's worker leaves the registry, or one enters it with a context of its own. */
    method Interleave(id: TaskId)
      modifies exec.store`db, exec.store`foreign, exec`cancels
      ensures Drift(old(exec.store.db), exec.store.db) && exec.store.foreign >= old(exec.store.foreign)
      ensures exec.store.foreign == old(exec.store.foreign) ==>
                exec.store.db == old(exec.store.db) && exec.cancels == old(exec.cancels)
      ensures forall k :: k in exec.cancels ==>
                fresh(exec.cancels[k]) || (k in old(exec.cancels) && exec.cancels[k] == old(exec.cancels)[k])
    {
      exec.store.Interleave();
      if * {
        exec.cancels := exec.cancels - {id};
        exec.store.foreign := exec.store.foreign + 1;
      }
      if * {
        var other := new Services([], false);
        exec.cancels := exec.cancels[id := other];
        exec.store.foreign := exec.store.foreign + 1;
      }
    }

    /** `switched` says whether this call was told that it made the switch; only then does it
        signal, and what it signals is the context registered for the task at that moment.
        The answer is `cancelled` after a switch; else the status read first, if that was
        terminal; else the status read last, whatever others have made of it - also `running`.
        Other callers' tasks look absent. When nobody interfered, an open task of the caller's is
        switched, signalled and answered `cancelled`, unless a call failed; and nothing but the
        row and the context is touched. */
    method Cancel(id: TaskId, caller: string) returns (r: Outcome, switched: bool, ghost f: seq<Ack>)
      modifies exec.store, exec`cancels, exec.cancels.Values`cancelled
      ensures r == Failure <==> !AllDone(f)
      ensures !Owns(old(exec.store.db), id, caller) ==>
                r in {NotFound, Failure} && exec.store.db == old(exec.store.db) && !switched
      ensures Owns(old(exec.store.db), id, caller) ==> r != NotFound
      ensures IsTerminalIn(old(exec.store.db), id) ==> exec.store.db == old(exec.store.db) && !switched
      ensures switched ==> r == Is(Cancelled) && (id in exec.cancels ==> exec.cancels[id].cancelled)
      ensures r.Is? && !switched ==>
                && id in exec.store.db.tasks && r.status == exec.store.db.tasks[id].status
                && (r.status.IsTerminal() || !IsTerminalIn(old(exec.store.db), id))
      ensures forall s :: s in old(exec.cancels).Values && s.cancelled != old(s.cancelled) ==>
                switched && id in exec.cancels && s == exec.cancels[id]
      ensures Drift(old(exec.store.db), exec.store.db)
      ensures exec.store.foreign >= old(exec.store.foreign) && exec.store.fates == old(exec.store.fates) + f
      ensures exec.store.foreign == old(exec.store.foreign) ==>
                && exec.cancels == old(exec.cancels)
                && Undisturbed(old(exec.store.db), exec.store.db, id, caller, r, switched, f)
    {
      hide Drift, SwitchToCancelled;
      switched := false;
      ghost var db0 := exec.store.db;
      var ack, t := exec.store.Get(id);
      f := [ack];
      assert f[0] == ack;
      DriftSelf(db0);
      if ack != Done {
        return Failure, false, f;
      }
      if t.None? || t.value.caller != caller {
        return NotFound, false, f;
      }
      DriftKeeps(db0, db0, id);
      if t.value.status.IsTerminal() {
        return Is(t.value.status), false, f;
      }
      ghost var rest;
      r, switched, rest := SwitchAndSignal(id);
      f := [ack] + rest;
      assert f[1..] == rest;
    }

    /** The rest of the call, once it has read an open row of the caller's. */
    method SwitchAndSignal(id: TaskId) returns (r: Outcome, switched: bool, ghost f: seq<Ack>)
      requires CanSwitch(exec.store.db, id)
      modifies exec.store, exec`cancels, exec.cancels.Values`cancelled
      ensures exec.store.fates == old(exec.store.fates) + f && f != []
      ensures r != NotFound && (r == Failure <==> !AllDone(f))
      ensures switched ==> r == Is(Cancelled) && (id in exec.cancels ==> exec.cancels[id].cancelled)
      ensures r.Is? && !switched ==> id in exec.store.db.tasks && r.status == exec.store.db.tasks[id].status
      ensures forall s :: s in old(exec.cancels).Values && s.cancelled != old(s.cancelled) ==>
                switched && id in exec.cancels && s == exec.cancels[id]
      ensures Drift(old(exec.store.db), exec.store.db) && exec.store.foreign >= old(exec.store.foreign)
      ensures exec.store.foreign == old(exec.store.foreign) ==>
                && exec.cancels == old(exec.cancels)
                && |f| == 1 && (switched <==> f[0] == Done)
                && exec.store.db == Write(f[0], old(exec.store.db), SwitchToCancelled(old(exec.store.db), id))
    {
      hide Drift, SwitchToCancelled;
      Interleave(id);
      ghost var db0, db1 := old(exec.store.db), exec.store.db;
      DriftKeeps(db0, db1, id);
      var ack, cur;
      ack, switched, cur := exec.store.CancelCAS(id);
      ghost var db2 := exec.store.db;
      f := if |exec.store.fates| == |old(exec.store.fates)| + 1 then [ack] else [Done, ack];
      assert f[|f| - 1] == ack;
      if !CanSwitch(db1, id) {
        DriftTransitive(db0, db1, db2);
      }
      DriftKeeps(db0, db2, id);
      if ack != Done {
        return Failure, false, f;
      }
      if !switched {
        return if cur.Some? then Is(cur.value) else Failure, false, f;
      }
      Interleave(id);
      DriftTransitive(db0, db2, exec.store.db);
      exec.CancelTask(id);
      return Is(Cancelled), true, f;
    }
  }
}
