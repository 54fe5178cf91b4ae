/** internal/store/mysql.go: every operation is one atomic statement over two tables, except
    CancelCAS, which is an update and, when that hits no row, a separate read.
    The functions say what a statement does to the tables; the class performs them in
    place and adds the ways in which a call can fail. */
module Store {
  import opened Base
  import opened Types

  /** The tables. The parts of a task are kept in the order of the unique
      index (task_id, part_seq). */
  datatype Db = Db(tasks: map<TaskId, Task>, parts: map<TaskId, seq<Part>>)

  /** How a write ends: acknowledged, performed but reported as an error, or not performed. */
  datatype Ack = Done | Lost | Refused

  /** The tables after a write that ended so. */
  function Write(ack: Ack, before: Db, after: Db): Db {
    if ack == Refused then before else after
  }

  predicate AllDone(f: seq<Ack>) {
    forall k :: 0 <= k < |f| ==> f[k] == Done
  }

  function RowsOf(db: Db, id: TaskId): seq<Part> {
    if id in db.parts then db.parts[id] else []
  }

  predicate IsTerminalIn(db: Db, id: TaskId) {
    id in db.tasks && db.tasks[id].status.IsTerminal()
  }

  predicate Owns(db: Db, id: TaskId, caller: string) {
    id in db.tasks && db.tasks[id].caller == caller
  }

  /** The inserted row: actual_count is the literal 0, whatever the caller estimated. */
  function FreshRow(t: Task): Task {
    t.(actualCount := 0, warnings := [], errorCode := "", errorMessage := "")
  }

  function Insert(db: Db, id: TaskId, t: Task): Db {
    if id in db.tasks then db else db.(tasks := db.tasks[id := FreshRow(t)])
  }

  function SetStatus(db: Db, id: TaskId, st: Status): Db {
    if id in db.tasks then db.(tasks := db.tasks[id := db.tasks[id].(status := st)]) else db
  }

  function Conclude(t: Task, v: Verdict): Task {
    t.(status := v.status, actualCount := v.count, warnings := v.warnings,
       errorCode := v.errorCode, errorMessage := v.errorMessage)
  }

  function SetVerdict(db: Db, id: TaskId, v: Verdict): Db {
    if id in db.tasks then db.(tasks := db.tasks[id := Conclude(db.tasks[id], v)]) else db
  }

  /** `status IN (queued, running)` in the where clause. */
  predicate CanSwitch(db: Db, id: TaskId) {
    id in db.tasks && !db.tasks[id].status.IsTerminal()
  }

  function SwitchToCancelled(db: Db, id: TaskId): Db {
    if CanSwitch(db, id) then SetStatus(db, id, Cancelled) else db
  }

  /** The conditional update, in the words of its where clause: it touches a row that is queued or
      running and no other, and sets its status and nothing else. */
  lemma SwitchMeaning(db: Db, id: TaskId)
    ensures CanSwitch(db, id) <==> id in db.tasks && db.tasks[id].status in {Queued, Running}
    ensures SwitchToCancelled(db, id).parts == db.parts && SwitchToCancelled(db, id).tasks.Keys == db.tasks.Keys
    ensures forall other :: other in db.tasks ==>
              var row, row' := db.tasks[other], SwitchToCancelled(db, id).tasks[other];
              && (row' != row <==> other == id && row.status in {Queued, Running})
              && (row' != row ==> row'.status == Cancelled && row' == row.(status := row'.status))
  {
  }

  /** What other parties may do between two statements: write any row, but take none away and
      change no owner. */
  predicate Drift(a: Db, b: Db) {
    forall id :: id in a.tasks ==> id in b.tasks && b.tasks[id].caller == a.tasks[id].caller
  }

  lemma DriftSelf(a: Db)
    ensures Drift(a, a)
  {
  }

  lemma DriftTransitive(a: Db, b: Db, c: Db)
    requires Drift(a, b) && Drift(b, c)
    ensures Drift(a, c)
  {
  }

  lemma DriftKeeps(a: Db, b: Db, id: TaskId)
    requires Drift(a, b)
    ensures Drift(a, SwitchToCancelled(b, id))
    ensures id in a.tasks ==> id in b.tasks && b.tasks[id].caller == a.tasks[id].caller
    ensures IsTerminalIn(b, id) ==> SwitchToCancelled(b, id) == b
  {
  }

  /** INSERT ... ON DUPLICATE KEY UPDATE into rows held in part_seq order. */
  function Upsert(rows: seq<Part>, p: Part): seq<Part> {
    if rows == [] || p.partSeq < rows[0].partSeq then [p] + rows
    else if p.partSeq == rows[0].partSeq then [p] + rows[1..]
    else [rows[0]] + Upsert(rows[1..], p)
  }

  function PutPart(db: Db, p: Part): Db {
    db.(parts := db.parts[p.taskId := Upsert(RowsOf(db, p.taskId), p)])
  }

  function UpsertAll(rows: seq<Part>, ps: seq<Part>): seq<Part> {
    if ps == [] then rows else Upsert(UpsertAll(rows, Front(ps)), Last(ps))
  }

  ghost predicate Ascending(rows: seq<Part>) {
    forall i, j :: 0 <= i < j < |rows| ==> rows[i].partSeq < rows[j].partSeq
  }

  lemma {:induction false} UpsertMembers(rows: seq<Part>, p: Part, q: Part)
    requires Ascending(rows)
    ensures q in Upsert(rows, p) <==> q == p || (q in rows && q.partSeq != p.partSeq)
  {
    if rows != [] {
      assert rows == [rows[0]] + rows[1..];
      if q in rows[1..] {
        var i :| 1 <= i < |rows| && rows[i] == q;
        assert rows[0].partSeq < rows[i].partSeq;
      }
      if p.partSeq > rows[0].partSeq {
        UpsertMembers(rows[1..], p, q);
      }
    }
  }

  lemma {:induction false} UpsertAscending(rows: seq<Part>, p: Part)
    requires Ascending(rows)
    ensures Ascending(Upsert(rows, p))
  {
    if rows != [] && p.partSeq > rows[0].partSeq {
      var rest := Upsert(rows[1..], p);
      UpsertAscending(rows[1..], p);
      forall i | 0 <= i < |rest|
        ensures rows[0].partSeq < rest[i].partSeq
      {
        UpsertMembers(rows[1..], p, rest[i]);
      }
    }
  }

  /** What the upsert means: the index stays ascending, the new row is the one stored
      under its number, and every other number keeps its row. */
  lemma {:induction false} UpsertMeaning(rows: seq<Part>, p: Part)
    requires Ascending(rows)
    ensures Ascending(Upsert(rows, p))
    ensures forall q :: q in Upsert(rows, p) <==> q == p || (q in rows && q.partSeq != p.partSeq)
  {
    UpsertAscending(rows, p);
    forall q: Part {
      UpsertMembers(rows, p, q);
    }
  }

  /** Repeating an append changes nothing, which is the idempotence the statement is for. */
  lemma {:induction false} UpsertIdempotent(rows: seq<Part>, p: Part)
    ensures Upsert(Upsert(rows, p), p) == Upsert(rows, p)
  {
    if rows == [] || p.partSeq < rows[0].partSeq {
    } else if p.partSeq == rows[0].partSeq {
      assert ([p] + rows[1..])[1..] == rows[1..];
    } else {
      UpsertIdempotent(rows[1..], p);
      assert Upsert(rows, p)[1..] == Upsert(rows[1..], p);
    }
  }

  lemma {:induction false} UpsertAtEnd(rows: seq<Part>, p: Part)
    requires forall i :: 0 <= i < |rows| ==> rows[i].partSeq < p.partSeq
    ensures Upsert(rows, p) == rows + [p]
  {
    if rows != [] {
      UpsertAtEnd(rows[1..], p);
      assert rows + [p] == [rows[0]] + (rows[1..] + [p]);
    }
  }

  /** Appending a dense list to a task without parts stores exactly that list. */
  lemma {:induction false} UpsertAllDense(ps: seq<Part>)
    requires Dense(ps)
    ensures UpsertAll([], ps) == ps
  {
    if ps != [] {
      UpsertAllDense(Front(ps));
      UpsertAtEnd(Front(ps), Last(ps));
      assert Front(ps) + [Last(ps)] == ps;
    }
  }

  /** Stores several parts, one statement each. */
  function PutAll(db: Db, ps: seq<Part>): Db {
    if ps == [] then db else PutPart(PutAll(db, Front(ps)), Last(ps))
  }

  lemma {:induction false} PutAllRows(db: Db, id: TaskId, ps: seq<Part>)
    requires forall k :: 0 <= k < |ps| ==> ps[k].taskId == id
    ensures PutAll(db, ps).tasks == db.tasks
    ensures RowsOf(PutAll(db, ps), id) == UpsertAll(RowsOf(db, id), ps)
    ensures forall other :: other != id ==> RowsOf(PutAll(db, ps), other) == RowsOf(db, other)
  {
    if ps != [] {
      PutAllRows(db, id, Front(ps));
    }
  }

  /** What an undisturbed run makes of the tables: marked running, all parts stored, concluded. */
  function Exported(db: Db, id: TaskId, plan: Plan): Db {
    SetVerdict(PutAll(SetStatus(db, id, Running), plan.parts), id, Success(plan))
  }

  /** The same rows in both tables. */
  ghost predicate SameDb(a: Db, b: Db) {
    a.tasks == b.tasks && forall id: TaskId :: RowsOf(a, id) == RowsOf(b, id)
  }

  class MySQLStore {
    var db: Db
    /** How the statements of the caller ended, one after the other. */
    ghost var fates: seq<Ack>
    /** Turns in which other parties may have changed something; only `Interleave` methods count. */
    ghost var foreign: nat

    constructor ()
      ensures db == Db(map[], map[]) && fates == [] && foreign == 0
    {
      db := Db(map[], map[]);
      fates, foreign := [], 0;
    }

    /** Chooses how a call ends; nothing is known about the choice. */
    method Fate() returns (ack: Ack)
      modifies this`fates
      ensures fates == old(fates) + [ack]
    {
      if * {
        ack := Done;
      } else if * {
        ack := Lost;
      } else {
        ack := Refused;
      }
      fates := fates + [ack];
    }

    /** A duplicate task_id violates the primary key and is reported as an error. */
    method Create(id: TaskId, t: Task) returns (ack: Ack)
      modifies this`db, this`fates
      ensures id in old(db).tasks ==> ack == Refused
      ensures db == Write(ack, old(db), Insert(old(db), id, t))
      ensures fates == old(fates) + [ack]
    {
      if id in db.tasks {
        fates := fates + [Refused];
        return Refused;
      }
      ack := Fate();
      if ack != Refused {
        db := db.(tasks := db.tasks[id := FreshRow(t)]);
      }
    }

    method Get(id: TaskId) returns (ack: Ack, t: Option<Task>)
      modifies this`fates
      ensures ack == Done ==> (t.Some? <==> id in db.tasks)
      ensures ack == Done && t.Some? ==> t.value == db.tasks[id]
      ensures fates == old(fates) + [ack]
    {
      ack := Fate();
      t := if ack == Done && id in db.tasks then Some(db.tasks[id]) else None;
    }

    method UpdateStatus(id: TaskId, st: Status) returns (ack: Ack)
      modifies this`db, this`fates
      ensures db == Write(ack, old(db), SetStatus(old(db), id, st))
      ensures fates == old(fates) + [ack]
    {
      ack := Fate();
      if ack != Refused && id in db.tasks {
        db := db.(tasks := db.tasks[id := db.tasks[id].(status := st)]);
      }
    }

    method Finalize(id: TaskId, v: Verdict) returns (ack: Ack)
      modifies this`db, this`fates
      ensures db == Write(ack, old(db), SetVerdict(old(db), id, v))
      ensures fates == old(fates) + [ack]
    {
      ack := Fate();
      if ack != Refused && id in db.tasks {
        db := db.(tasks := db.tasks[id := Conclude(db.tasks[id], v)]);
      }
    }

    method AppendPart(p: Part) returns (ack: Ack)
      modifies this`db, this`fates
      ensures db == Write(ack, old(db), PutPart(old(db), p))
      ensures fates == old(fates) + [ack]
    {
      ack := Fate();
      if ack != Refused {
        db := PutPart(db, p);
      }
    }

    /** Reads the rows one by one, in part_seq order. */
    method GetParts(id: TaskId) returns (ack: Ack, parts: seq<Part>)
      modifies this`fates
      ensures ack == Done ==> parts == RowsOf(db, id)
      ensures fates == old(fates) + [ack]
    {
      parts := [];
      ack := Fate();
      if ack == Done {
        var rows := RowsOf(db, id);
        for i := 0 to |rows|
          invariant parts == rows[..i]
        {
          parts := parts + [rows[i]];
        }
      }
    }

    /** Other parties take their turn. */
    method Interleave()
      modifies this`db, this`foreign
      ensures Drift(old(db), db) && foreign >= old(foreign)
      ensures foreign == old(foreign) ==> db == old(db)
    {
      var next: Db := *;
      if Drift(db, next) {
        db, foreign := next, foreign + 1;
      }
    }

    /** The conditional update, and when it hit no row a read, before which others may write. An
        update that was performed but reported as failed is no switch to the caller. The status
        read need not be terminal any more. */
    method CancelCAS(id: TaskId) returns (ack: Ack, switched: bool, cur: Option<Status>)
      modifies this
      ensures CanSwitch(old(db), id) ==> switched == (ack == Done)
      ensures !CanSwitch(old(db), id) ==> !switched && Drift(old(db), db)
      ensures ack == Done && !switched ==> (cur.Some? <==> id in db.tasks)
      ensures ack == Done && cur.Some? ==> !switched && cur.value == db.tasks[id].status
      ensures foreign >= old(foreign)
      ensures CanSwitch(old(db), id) || foreign == old(foreign) ==>
                db == Write(ack, old(db), SwitchToCancelled(old(db), id))
      ensures CanSwitch(old(db), id) ==> foreign == old(foreign) && fates == old(fates) + [ack]
      ensures !CanSwitch(old(db), id) ==> fates in {old(fates) + [ack], old(fates) + [Done, ack]}
    {
      switched, cur := false, None;
      ack := Fate();
      var hit := ack != Refused && CanSwitch(db, id);
      if hit {
        db := SetStatus(db, id, Cancelled);
      }
      if ack != Done {
        return;
      }
      if hit {
        return Done, true, None;
      }
      Interleave();
      var t;
      ack, t := Get(id);
      assert fates == old(fates) + [Done, ack];
      if t.Some? {
        cur := Some(t.value.status);
      }
    }
  }
}
