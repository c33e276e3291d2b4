/**
 * The task store behind the route handlers of backend/main.py: a table of
 * task rows keyed by their integer id, and the five operations on it (list,
 * get, create, patch, change status, delete). Each operation is first given as
 * a function from the old table to a `Step`, the new table and the reply; the
 * class `TaskStore` then performs it in place and is proved to agree with it.
 */
module Store {
  import opened Wrappers
  import opened Database
  import opened Schemas

  /** The errors a handler reports: an unknown id (404) and the NOT NULL
      constraint on `titolo` failing at commit time. */
  datatype Error = NotFound | IntegrityError

  /** The `tasks` table, keyed by primary key. */
  type Table = map<int, TaskDB>

  /** The table after an operation, and its reply. */
  datatype Step<+T> = Step(table: Table, result: Result<T, Error>)

  /** Every row is filed under its own id and can be returned as a `Task`. */
  predicate TableValid(t: Table)
  {
    forall id :: id in t ==> t[id].id == id && Representable(t[id])
  }

  /** The response for a row that can be represented. */
  function Response(row: TaskDB): Task
    requires Representable(row)
  {
    FromRow(row).value
  }

  // ---------------------------------------------------------------- get_task

  /** `get_task`: the task filed under `id`, or NotFound. */
  function Lookup(t: Table, id: int): (r: Result<Task, Error>)
    requires TableValid(t)
    ensures r.Err? <==> id !in t
    ensures r.Err? ==> r.error == NotFound
    ensures r.Ok? ==> r.value.id == id && ToRow(r.value) == t[id]
  {
    if id in t then Ok(Response(t[id])) else Err(NotFound)
  }

  // ------------------------------------------------------------- create_task

  /** `create_task` under the fresh key `id`, at time `now`. */
  function Insert(t: Table, id: int, input: TaskCreate, now: Timestamp): Table
  {
    t[id := NewRow(id, input.titolo, input.categoria, input.dettagli, now)]
  }

  /** Creating adds exactly one entry under the fresh id; reading it back gives
      the input's title, category and details, the supplied creation time, the
      default state and no outcome or completion time; every other entry is
      unchanged and the table stays valid. */
  lemma InsertThenLookup(t: Table, id: int, input: TaskCreate, now: Timestamp)
    requires TableValid(t) && id !in t
    ensures TableValid(Insert(t, id, input, now))
    ensures Insert(t, id, input, now).Keys == t.Keys + {id}
    ensures forall k :: k in t ==> Insert(t, id, input, now)[k] == t[k]
    ensures Lookup(Insert(t, id, input, now), id)
         == Ok(Task(id, input.titolo, input.categoria, input.dettagli, None, Aperto, now, None))
  {
  }

  // ------------------------------------------------------------- update_task

  /** One `(campo, valore)` pair of `model_dump(exclude_unset=True)`. */
  datatype Assignment =
    | SetTitolo(titolo: Option<string>)
    | SetCategoria(categoria: Option<Categoria>)
    | SetDettagli(dettagli: Option<string>)
    | SetOutcome(outcome: Option<string>)

  /** `setattr(task, campo, valore)`. */
  function SetField(row: TaskDB, a: Assignment): TaskDB
  {
    match a
    case SetTitolo(v) => row.(titolo := v)
    case SetCategoria(v) => row.(categoria := v)
    case SetDettagli(v) => row.(dettagli := v)
    case SetOutcome(v) => row.(outcome := v)
  }

  /** The pair for `titolo`, if it was sent. */
  function SentTitolo(f: Field<string>): seq<Assignment>
  {
    if f.Absent? then [] else [SetTitolo(f.Over(None))]
  }

  /** The pair for `categoria`, if it was sent. */
  function SentCategoria(f: Field<Categoria>): seq<Assignment>
  {
    if f.Absent? then [] else [SetCategoria(f.Over(None))]
  }

  /** The pair for `dettagli`, if it was sent. */
  function SentDettagli(f: Field<string>): seq<Assignment>
  {
    if f.Absent? then [] else [SetDettagli(f.Over(None))]
  }

  /** The pair for `outcome`, if it was sent. */
  function SentOutcome(f: Field<string>): seq<Assignment>
  {
    if f.Absent? then [] else [SetOutcome(f.Over(None))]
  }

  /** `model_dump(exclude_unset=True).items()`: the sent fields only, in
      declaration order. */
  function PatchEntries(p: TaskUpdate): seq<Assignment>
  {
    SentTitolo(p.titolo) + SentCategoria(p.categoria) + SentDettagli(p.dettagli) + SentOutcome(p.outcome)
  }

  /** The row after the `setattr` calls of `as`, performed left to right. */
  function SetAll(row: TaskDB, sets: seq<Assignment>): TaskDB
  {
    if sets == [] then row else SetField(SetAll(row, sets[..|sets| - 1]), sets[|sets| - 1])
  }

  /** Merge-patch semantics, field by field: a field left out keeps the old
      value, a field sent as null becomes null, a field sent with a value takes
      it; `id`, `stato`, `created_at` and `completed_at` are not patchable. */
  function ApplyPatch(row: TaskDB, p: TaskUpdate): TaskDB
  {
    row.(titolo := p.titolo.Over(row.titolo),
         categoria := p.categoria.Over(row.categoria),
         dettagli := p.dettagli.Over(row.dettagli),
         outcome := p.outcome.Over(row.outcome))
  }

  /** Performing the assignments of `a + b` is performing those of `a`, then those of `b`. */
  lemma {:induction false} SetAllConcat(row: TaskDB, a: seq<Assignment>, b: seq<Assignment>)
    ensures SetAll(row, a + b) == SetAll(SetAll(row, a), b)
    decreases |b|
  {
    if b == [] {
      assert a + b == a;
    } else {
      var b' := b[..|b| - 1];
      assert (a + b)[..|a + b| - 1] == a + b';
      SetAllConcat(row, a, b');
    }
  }

  /** The `setattr` loop over the sent fields computes the merge-patch. */
  lemma PatchEntriesApply(row: TaskDB, p: TaskUpdate)
    ensures SetAll(row, PatchEntries(p)) == ApplyPatch(row, p)
  {
    var t, c, d, o := SentTitolo(p.titolo), SentCategoria(p.categoria), SentDettagli(p.dettagli), SentOutcome(p.outcome);
    var r1 := row.(titolo := p.titolo.Over(row.titolo));
    var r2 := r1.(categoria := p.categoria.Over(row.categoria));
    var r3 := r2.(dettagli := p.dettagli.Over(row.dettagli));
    assert SetAll(row, t) == r1 by { SetAllSent(row, t); }
    assert SetAll(r1, c) == r2 by { SetAllSent(r1, c); }
    assert SetAll(r2, d) == r3 by { SetAllSent(r2, d); }
    assert SetAll(r3, o) == ApplyPatch(row, p) by { SetAllSent(r3, o); }
    SetAllConcat(row, t, c);
    SetAllConcat(row, t + c, d);
    SetAllConcat(row, t + c + d, o);
  }

  /** At most one assignment: none leaves the row, one is a single `setattr`. */
  lemma SetAllSent(row: TaskDB, sets: seq<Assignment>)
    requires |sets| <= 1
    ensures SetAll(row, sets) == if sets == [] then row else SetField(row, sets[0])
  {
    if sets != [] {
      assert sets[..0] == [];
    }
  }

  /** What a patch does to the row: only the sent fields change, each as sent,
      and the fields the patch schema does not carry are untouched. */
  lemma ApplyPatchFields(row: TaskDB, p: TaskUpdate)
    ensures var r := ApplyPatch(row, p);
      && r.id == row.id && r.stato == row.stato
      && r.createdAt == row.createdAt && r.completedAt == row.completedAt
      && (p.titolo.Absent? ==> r.titolo == row.titolo)
      && (p.titolo.Null? ==> r.titolo == None)
      && (p.titolo.Value? ==> r.titolo == Some(p.titolo.v))
      && (p.categoria.Absent? ==> r.categoria == row.categoria)
      && (p.categoria.Null? ==> r.categoria == None)
      && (p.categoria.Value? ==> r.categoria == Some(p.categoria.v))
      && (p.dettagli.Absent? ==> r.dettagli == row.dettagli)
      && (p.dettagli.Null? ==> r.dettagli == None)
      && (p.dettagli.Value? ==> r.dettagli == Some(p.dettagli.v))
      && (p.outcome.Absent? ==> r.outcome == row.outcome)
      && (p.outcome.Null? ==> r.outcome == None)
      && (p.outcome.Value? ==> r.outcome == Some(p.outcome.v))
  {
  }

  /** The empty patch changes nothing. */
  lemma EmptyPatchIdentity(row: TaskDB)
    ensures ApplyPatch(row, TaskUpdate(Absent, Absent, Absent, Absent)) == row
  {
  }

  /** `q` sent after `p`: a field sent in `q` wins, otherwise `p`'s field stands. */
  function Merge(p: TaskUpdate, q: TaskUpdate): TaskUpdate
  {
    TaskUpdate(if q.titolo.Absent? then p.titolo else q.titolo,
               if q.categoria.Absent? then p.categoria else q.categoria,
               if q.dettagli.Absent? then p.dettagli else q.dettagli,
               if q.outcome.Absent? then p.outcome else q.outcome)
  }

  /** Two patches in a row are one merged patch; in particular sending the
      same patch twice is the same as sending it once. */
  lemma ApplyPatchCompose(row: TaskDB, p: TaskUpdate, q: TaskUpdate)
    ensures ApplyPatch(ApplyPatch(row, p), q) == ApplyPatch(row, Merge(p, q))
    ensures ApplyPatch(ApplyPatch(row, p), p) == ApplyPatch(row, p)
  {
  }

  /** The commit of a patched row as the handler performs it: the patch is
      applied and only the NOT NULL constraint on `titolo` can refuse it. */
  function CommitPatchAsWritten(row: TaskDB, p: TaskUpdate): (r: Result<TaskDB, Error>)
    ensures r.Ok? <==> ApplyPatch(row, p).titolo.Some?
    ensures r.Ok? ==> r.value == ApplyPatch(row, p)
    ensures r.Err? ==> r.error == IntegrityError
  {
    var task := ApplyPatch(row, p);
    if task.titolo.None? then Err(IntegrityError) else Ok(task)
  }

  /** Every patch that sends `categoria: null` without a null title, applied
      to a row that can be returned, is committed as written and leaves a row
      the response schema cannot represent. */
  lemma NullCategoryCommitted(row: TaskDB, p: TaskUpdate)
    requires Representable(row) && p.categoria.Null? && !p.titolo.Null?
    ensures CommitPatchAsWritten(row, p).Ok?
    ensures !Representable(CommitPatchAsWritten(row, p).value)
    ensures FromRow(CommitPatchAsWritten(row, p).value) == None
  {
  }

  /** The patch without its category when that is sent as null: the documented
      rule of the handler, that only the fields sent and not None are written,
      applied to the one field the response cannot do without. */
  function SkipNullCategoria(p: TaskUpdate): TaskUpdate
  {
    if p.categoria.Null? then p.(categoria := Absent) else p
  }

  /** The corrected commit: a null category is skipped and the rest of the
      patch is committed as written. It differs from the code only on a null
      category, which now keeps the old one; a row that could be returned stays
      so. */
  function CommitPatch(row: TaskDB, p: TaskUpdate): (r: Result<TaskDB, Error>)
    ensures r.Ok? <==> ApplyPatch(row, p).titolo.Some?
    ensures r.Err? ==> r.error == IntegrityError
    ensures !p.categoria.Null? ==> r == CommitPatchAsWritten(row, p)
    ensures p.categoria.Null? && r.Ok? ==> r.value == CommitPatchAsWritten(row, p).value.(categoria := row.categoria)
    ensures r.Ok? && Representable(row) ==> Representable(r.value)
  {
    CommitPatchAsWritten(row, SkipNullCategoria(p))
  }

  /** `update_task`, with the corrected commit. */
  function Update(t: Table, id: int, p: TaskUpdate): (s: Step<Task>)
    requires TableValid(t)
    ensures TableValid(s.table)
  {
    if id !in t then Step(t, Err(NotFound))
    else
      match CommitPatch(t[id], p)
      case Err(e) => Step(t, Err(e))
      case Ok(row) => Step(t[id := row], Ok(Response(row)))
  }

  /** A successful patch rewrites exactly the one entry, with the merge-patch
      of the old row (a null category skipped); a refused one leaves the table
      as it was; only a null title is refused. */
  lemma UpdateEffect(t: Table, id: int, p: TaskUpdate)
    requires TableValid(t) && id in t
    ensures var s := Update(t, id, p);
      && (s.result.Ok? ==> s.table == t[id := ApplyPatch(t[id], SkipNullCategoria(p))]
                           && ToRow(s.result.value) == ApplyPatch(t[id], SkipNullCategoria(p)))
      && (s.result.Err? ==> s.table == t && s.result.error == IntegrityError)
      && (s.result.Ok? <==> !p.titolo.Null?)
  {
  }

  // ----------------------------------------------------------- update_status

  /** `task.stato = nuovo_stato`, and the completion time is stamped (over any
      earlier one) exactly when the new state is COMPLETATO. */
  function SetStatus(row: TaskDB, s: Stato, now: Timestamp): TaskDB
  {
    var r := row.(stato := s);
    if s == Completato then r.(completedAt := Some(now)) else r
  }

  /** Changing the state writes `stato`, stamps `completed_at` only on
      COMPLETATO, never clears it, and touches nothing else. */
  lemma SetStatusFields(row: TaskDB, s: Stato, now: Timestamp)
    ensures var r := SetStatus(row, s, now);
      && r.stato == s
      && (s == Completato ==> r.completedAt == Some(now))
      && (s != Completato ==> r.completedAt == row.completedAt)
      && (row.completedAt.Some? ==> r.completedAt.Some?)
      && r.(stato := row.stato, completedAt := row.completedAt) == row
  {
  }

  /** Reopening a completed task keeps its completion time. */
  lemma ReopenKeepsCompletion(row: TaskDB, done: Timestamp, later: Timestamp)
    ensures SetStatus(SetStatus(row, Completato, done), Aperto, later).completedAt == Some(done)
  {
  }

  /** `update_status`. */
  function UpdateStatus(t: Table, id: int, s: Stato, now: Timestamp): (r: Step<Task>)
    requires TableValid(t)
    ensures TableValid(r.table)
  {
    if id !in t then Step(t, Err(NotFound))
    else
      var row := SetStatus(t[id], s, now);
      Step(t[id := row], Ok(Response(row)))
  }

  /** A status change on a stored task rewrites exactly that entry and
      replies with the rewritten task. */
  lemma UpdateStatusEffect(t: Table, id: int, s: Stato, now: Timestamp)
    requires TableValid(t) && id in t
    ensures var r := UpdateStatus(t, id, s, now);
      && r.table == t[id := SetStatus(t[id], s, now)]
      && r.result.Ok? && ToRow(r.result.value) == SetStatus(t[id], s, now)
  {
  }

  // ------------------------------------------------------------- delete_task

  /** The confirmation message for deleting a task titled `titolo`. */
  function DeleteMessage(titolo: string): string
  {
    "Task '" + titolo + "' eliminata"
  }

  /** The title a confirmation message names, if it is one. */
  function DeletedTitle(m: string): Option<string>
  {
    if |m| >= 17 && m[..6] == "Task '" && m[|m| - 11..] == "' eliminata" then Some(m[6..|m| - 11])
    else None
  }

  /** The message names the deleted title, and determines it. */
  lemma DeleteMessageNamesTitle(titolo: string)
    ensures DeletedTitle(DeleteMessage(titolo)) == Some(titolo)
  {
  }

  /** `delete_task`. */
  function Delete(t: Table, id: int): (r: Step<string>)
    requires TableValid(t)
    ensures TableValid(r.table)
  {
    if id !in t then Step(t, Err(NotFound))
    else Step(t - {id}, Ok(DeleteMessage(t[id].titolo.value)))
  }

  /** Deleting removes exactly that key, returns the message naming its title,
      and a later lookup of the id fails with NotFound. */
  lemma DeleteThenLookup(t: Table, id: int)
    requires TableValid(t) && id in t
    ensures var s := Delete(t, id);
      && s.table.Keys == t.Keys - {id}
      && (forall k :: k in s.table ==> s.table[k] == t[k])
      && s.result == Ok(DeleteMessage(t[id].titolo.value))
      && Lookup(s.table, id) == Err(NotFound)
  {
  }

  // ------------------------------------------------------------ unknown ids

  /** Every operation on an id that is not in the table fails with NotFound
      and leaves the table unchanged. */
  lemma UnknownIdFails(t: Table, id: int, p: TaskUpdate, s: Stato, now: Timestamp)
    requires TableValid(t) && id !in t
    ensures Lookup(t, id) == Err(NotFound)
    ensures Update(t, id, p) == Step(t, Err(NotFound))
    ensures UpdateStatus(t, id, s, now) == Step(t, Err(NotFound))
    ensures Delete(t, id) == Step(t, Err(NotFound))
  {
  }

  // --------------------------------------------------------------- the store

  /** The `tasks` table of one database, changed in place by the handlers. */
  class TaskStore {
    var tasks: Table
    /** The next key to hand out; larger than every key in use. */
    var nextId: int

    ghost predicate Valid()
      reads this
    {
      TableValid(tasks) && forall id :: id in tasks ==> id < nextId
    }

    constructor ()
      ensures Valid() && tasks == map[]
    {
      tasks := map[];
      nextId := 1;
    }

    /** `get_tasks`: every stored task once, in no particular order. */
    method GetTasks() returns (r: seq<Task>)
      requires Valid()
      ensures |r| == |tasks|
      ensures forall i :: 0 <= i < |r| ==> r[i].id in tasks && Lookup(tasks, r[i].id) == Ok(r[i])
      ensures forall i, j :: 0 <= i < j < |r| ==> r[i].id != r[j].id
      ensures forall id :: id in tasks ==> exists i :: 0 <= i < |r| && r[i].id == id
    {
      r := [];
      var rest := tasks.Keys;
      while rest != {}
        invariant rest <= tasks.Keys
        invariant |r| + |rest| == |tasks|
        invariant forall i :: 0 <= i < |r| ==> r[i].id in tasks && r[i].id !in rest && Lookup(tasks, r[i].id) == Ok(r[i])
        invariant forall i, j :: 0 <= i < j < |r| ==> r[i].id != r[j].id
        invariant forall k :: k in tasks && k !in rest ==> exists i :: 0 <= i < |r| && r[i].id == k
        decreases |rest|
      {
        assert exists k :: k in rest by {
          if forall k :: k !in rest { assert false; }
        }
        var key :| key in rest;
        ghost var before, restBefore := r, rest;
        r := r + [Response(tasks[key])];
        rest := rest - {key};
        forall k | k in tasks && k !in rest
          ensures exists i :: 0 <= i < |r| && r[i].id == k
        {
          if k == key {
            assert r[|before|].id == k;
          } else {
            assert k !in restBefore;
            var i :| 0 <= i < |before| && before[i].id == k;
            assert r[i].id == k;
          }
        }
      }
    }

    /** `get_task`. */
    method GetTask(id: int) returns (r: Result<Task, Error>)
      requires Valid()
      ensures r == Lookup(tasks, id)
    {
      if id !in tasks {
        return Err(NotFound);
      }
      r := Ok(Response(tasks[id]));
    }

    /** `create_task`, at time `now`, under a key not in use. */
    method CreateTask(input: TaskCreate, now: Timestamp) returns (created: Task)
      requires Valid()
      modifies this
      ensures Valid()
      ensures created.id !in old(tasks)
      ensures tasks == Insert(old(tasks), created.id, input, now)
      ensures Lookup(tasks, created.id) == Ok(created)
    {
      var id := nextId;
      tasks := Insert(tasks, id, input, now);
      nextId := nextId + 1;
      created := Response(tasks[id]);
    }

    /** `update_task`, corrected: the sent fields, less a null category, are
        set on the row one by one, then the row is committed. */
    method UpdateTask(id: int, patch: TaskUpdate) returns (r: Result<Task, Error>)
      requires Valid()
      modifies this
      ensures Valid() && nextId == old(nextId)
      ensures Step(tasks, r) == Update(old(tasks), id, patch)
    {
      if id !in tasks {
        return Err(NotFound);
      }
      var sent := SkipNullCategoria(patch);
      var task := tasks[id];
      var updateData := PatchEntries(sent);
      var i := 0;
      while i < |updateData|
        invariant 0 <= i <= |updateData|
        invariant task == SetAll(tasks[id], updateData[..i])
      {
        assert updateData[..i + 1][..i] == updateData[..i];
        task := SetField(task, updateData[i]);
        i := i + 1;
      }
      assert updateData[..i] == updateData;
      PatchEntriesApply(tasks[id], sent);
      if task.titolo.None? {
        return Err(IntegrityError);
      }
      tasks := tasks[id := task];
      r := Ok(Response(task));
    }

    /** `update_status`, at time `now`. */
    method UpdateTaskStatus(id: int, nuovoStato: Stato, now: Timestamp) returns (r: Result<Task, Error>)
      requires Valid()
      modifies this
      ensures Valid() && nextId == old(nextId)
      ensures Step(tasks, r) == UpdateStatus(old(tasks), id, nuovoStato, now)
    {
      if id !in tasks {
        return Err(NotFound);
      }
      var task := tasks[id];
      task := task.(stato := nuovoStato);
      if nuovoStato == Completato {
        task := task.(completedAt := Some(now));
      }
      tasks := tasks[id := task];
      r := Ok(Response(task));
    }

    /** `delete_task`. */
    method DeleteTask(id: int) returns (r: Result<string, Error>)
      requires Valid()
      modifies this
      ensures Valid() && nextId == old(nextId)
      ensures Step(tasks, r) == Delete(old(tasks), id)
    {
      if id !in tasks {
        return Err(NotFound);
      }
      var task := tasks[id];
      tasks := tasks - {id};
      r := Ok(DeleteMessage(task.titolo.value));
    }
  }

  /** A session over a fresh store: create a task with only a title, complete
      it, delete it, and find it gone. */
  method ExampleSession(now: Timestamp, later: Timestamp)
  {
    var store := new TaskStore();
    var input := TaskCreate("Buy milk", INU, None);
    var created := store.CreateTask(input, now);
    assert created.categoria == INU && created.stato == Aperto && created.completedAt == None;
    var done := store.UpdateTaskStatus(created.id, Completato, later);
    assert done.Ok? && done.value.completedAt == Some(later);
    var message := store.DeleteTask(created.id);
    assert DeleteMessage("Buy milk") == "Task 'Buy milk' eliminata";
    assert message == Ok("Task 'Buy milk' eliminata");
    var gone := store.GetTask(created.id);
    assert gone == Err(NotFound);
  }
}
