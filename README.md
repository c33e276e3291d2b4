# Jarvis task store, modelled in Dafny

Jarvis is a small personal task-management REST API. Its backend keeps one
table, `tasks`, of task records keyed by an integer id. Each record holds a
title (`titolo`), a category (`categoria`, one of six values), optional
details (`dettagli`), an optional outcome, a state (`stato`: aperto, earning or
completato), a creation time and an optional completion time. The route
handlers list the tasks, get one, create one, merge-patch one, change its
state and delete it. An unknown id is reported as NotFound (HTTP 404).

This project models that store:

- `database.dfy` (module `Database`): the `Categoria` and `Stato`
  enumerations with the strings they are stored as, and the `TaskDB` row. Its
  nullable fields are `Option`s. `NewRow` applies the column defaults that an
  insert does not pass.
- `schemas.dfy` (module `Schemas`): the payload shapes `TaskCreate` (which is
  `TaskBase`), `TaskUpdate` and the response `Task`. A JSON field is
  `Field<T>`: `Absent`, `Null` or `Value(v)`. The validation functions apply
  the schema defaults and reject categories outside the enumeration. `FromRow`
  and `ToRow` convert between a row and a response.
- `store.dfy` (module `Store`): each handler as a function from the old table
  to a `Step` (the new table and the reply), with lemmas about those
  functions. The class `TaskStore` holds the table as a `map<int, TaskDB>` and
  the next key to hand out. Its methods change that state in place and are
  proved to agree with the functions. `UpdateTask` keeps the handler's
  `setattr` loop over the fields actually sent.
- `wrappers.dfy` (module `Wrappers`): `Option` and `Result`.

The table is a map, so each id is filed once, as the primary key requires.
`TableValid` adds that every row sits under its own id and has a title and a
category. Every operation keeps `TableValid`. The clock is a `now: Timestamp` parameter of the operations that read it.

Two things the code does not do:
- The code does not check that a title is non-empty. Only the NOT NULL
  constraint applies, so the empty string is a valid title.
- The code never clears `completed_at` when a task leaves the completed
  state. `ReopenKeepsCompletion` states this.

The handler's docstring and its code disagree on null fields in a patch. The
docstring of `update_task` (backend/main.py:90) says only the fields that are
sent and not None are written. The code (backend/main.py:99-103) uses
`exclude_unset`, so a field sent as null is written too. A null `dettagli` or
`outcome` then clears that field, and a null `titolo` fails the NOT NULL
constraint at commit. `ApplyPatchFields` and `CommitPatchAsWritten` state this
as-written behaviour, and the model keeps it for every field but one. For a
null `categoria` the code leaves a row that no reply can be built from (see
"## Findings"). There the corrected model follows the docstring: it skips the
null category and applies the rest of the patch.

## Model

| member | source | states |
|---|---|---|
| `Database.CategorieExhaustive` | backend/models/database.py:32-38 | there are exactly six categories, each listed once |
| `Database.StatiExhaustive` | backend/models/database.py:41-44 | there are exactly three states, each listed once |
| `Database.CategoriaRoundTrip` | backend/models/database.py:32-38 | a category's stored string parses back to it, and only that string parses to it |
| `Database.StatoRoundTrip` | backend/models/database.py:41-44 | a state's stored string parses back to it, and only that string parses to it |
| `Schemas.ValidateCreate` | backend/models/schemas.py:13-22 | a create payload is accepted exactly when a non-null title is sent and the category (if sent) is a valid value; the category defaults to INU and the details to null |
| `Schemas.ValidateCreateRoundTrip` | backend/models/schemas.py:13-22 | every `TaskCreate`, sent explicitly, validates back to itself |
| `Schemas.CreateDefaults` | backend/models/schemas.py:14-16 | a payload with only a title yields category INU and no details |
| `Schemas.ValidateUpdate` | backend/models/schemas.py:27-31 | every patch field may be left out or sent as null; only a sent category outside the enumeration is rejected; presence and nullness are kept |
| `Schemas.ValidateUpdateRoundTrip` | backend/models/schemas.py:27-31 | every `TaskUpdate`, when sent, validates back to itself |
| `Schemas.FromRow` | backend/models/schemas.py:36-44 | a response can be built from a row exactly when the row has a title and a category, and the response carries the row's values unchanged |
| `Schemas.FromRowToRow` | backend/models/schemas.py:36-44 | every response comes back unchanged from its row |
| `Store.Lookup` | backend/main.py:49-59 | get fails with NotFound exactly when the id is absent; otherwise it returns the row filed under that id |
| `Store.InsertThenLookup` | backend/main.py:62-82 | create adds exactly one entry under the fresh id and leaves the others alone; reading it back gives the input's fields, the supplied creation time, state aperto, and no outcome or completion time |
| `Store.SetAllConcat` | backend/main.py:102-103 | applying a sequence of field assignments one by one splits over concatenation |
| `Store.PatchEntriesApply` | backend/main.py:98-103 | the `setattr` loop over the fields sent (`exclude_unset`) computes the merge-patch |
| `Store.ApplyPatchFields` | backend/main.py:98-103 | a field left out keeps its value, one sent as null becomes null, one sent with a value takes it; id, state, creation and completion times never change |
| `Store.EmptyPatchIdentity` | backend/main.py:98-103 | a patch with no fields changes nothing |
| `Store.ApplyPatchCompose` | backend/main.py:98-103 | two patches in a row equal one merged patch; a repeated patch changes nothing more |
| `Store.CommitPatchAsWritten` | backend/main.py:98-106 | as the code is written: the patch is applied, and only a null title is refused (IntegrityError at commit) |
| `Store.NullCategoryCommitted` | backend/main.py:98-106 | as written, every patch that sends a null category (and no null title) to a returnable row is committed and leaves a row with no response |
| `Store.CommitPatch` | backend/main.py:90-106 | corrected commit: a null category is skipped, as the docstring describes, and the rest is committed as written; it agrees with the code on every other patch; a null title still fails the NOT NULL constraint; a row that could be returned stays so |
| `Store.Update` | backend/main.py:85-108 | update, with the corrected commit, keeps the table valid |
| `Store.UpdateEffect` | backend/main.py:85-108 | corrected update: a successful one rewrites only that entry, with the merge-patch less a null category; a refused one leaves the table unchanged with IntegrityError; it is refused exactly when the title is sent as null |
| `Store.SetStatusFields` | backend/main.py:124-128 | the state becomes the new one; completion time is stamped with now, overwriting any earlier stamp, exactly when the new state is completato; it is never cleared; nothing else changes |
| `Store.ReopenKeepsCompletion` | backend/main.py:124-128 | reopening a completed task keeps its completion time |
| `Store.UpdateStatus` | backend/main.py:111-133 | changing the state keeps the table valid |
| `Store.UpdateStatusEffect` | backend/main.py:119-133 | a status change on a stored task rewrites only that entry and replies with the rewritten task |
| `Store.DeleteMessageNamesTitle` | backend/main.py:148 | the deletion message names the deleted title, and the title can be read back from it |
| `Store.Delete` | backend/main.py:136-148 | delete keeps the table valid |
| `Store.DeleteThenLookup` | backend/main.py:140-148 | delete removes exactly that key, leaves every other entry unchanged, returns the message with the title, and a later get fails with NotFound |
| `Store.UnknownIdFails` | backend/main.py:54-143 | get (lines 54-57), update (93-96), status change (119-122) and delete (140-143) on an absent id fail with NotFound and leave the table unchanged |
| `Store.TaskStore.GetTasks` | backend/main.py:39-46 | list returns every stored task exactly once, each as get returns it |
| `Store.TaskStore.GetTask` | backend/main.py:49-59 | get on the store returns what `Lookup` specifies, and changes nothing |
| `Store.TaskStore.CreateTask` | backend/main.py:62-82 | create files the new row under a key not in use, leaves the other entries alone, keeps the store valid, and returns what a get of the new id returns |
| `Store.TaskStore.UpdateTask` | backend/main.py:85-108 | the corrected in-place update, `setattr` loop included, leaves the table and reply that `Update` specifies |
| `Store.TaskStore.UpdateTaskStatus` | backend/main.py:111-133 | the in-place status change leaves the table and reply that `UpdateStatus` specifies |
| `Store.TaskStore.DeleteTask` | backend/main.py:136-148 | the in-place delete leaves the table and reply that `Delete` specifies |

## Left out

- HTTP routing, the root endpoint, CORS, `init_db` and the per-request session of `get_db`: framework and I/O plumbing with no behaviour of the store's own.
- The ORM session (`add`, `commit`, `refresh`, `query`): rows are values in a map. A commit either writes the changed row or, when the NOT NULL constraint fails, leaves the table as it was (the rollback). Object identity and aliasing in the session are not modelled.
- Id generation by the database: the store hands out a counter that is larger than every key in use. It promises only that the key is fresh. Ids are unbounded integers, so the 64-bit width of an SQLite key is not modelled.
- `datetime.now()`: the time is a parameter. Nothing relates `completed_at` to `created_at`, because the clock is not guaranteed to move forward.
- Concurrency between requests: left to the database engine. The code has no logic for it.
- Pydantic's 422 responses: `ValidationError` names only the first field found at fault, not the list of all errors. Payloads are modelled with string or null fields only, and unknown extra fields are not modelled.
- The column defaults for `categoria` and `created_at` never take effect, because `create_task` always passes both; `NewRow` applies only the defaults of the columns it does not pass. The response schema's defaults for `outcome`, `stato` and `completed_at` never take effect either: a row always carries those attributes, so `FromRow` reads them.
- The frontend (`frontend/src/App.jsx`) is presentation and network I/O. It is not part of this model.

## Findings

| source | as written | input that shows it | evidently intended | confidence | as-written member | corrected member |
|---|---|---|---|---|---|---|
| backend/main.py:98-106 | `categoria` sent as null in a patch is written and committed, because the column is nullable. The response schema then needs a `Categoria`, so this reply fails (a server error), and so will every later get or list that includes that row. | `PATCH /tasks/1` with body `{"categoria": null}` on an existing task | as the docstring at backend/main.py:90 says, a field sent as None is not written: the category is kept and the rest of the patch applies | not executed; high | `Store.NullCategoryCommitted` | `Store.CommitPatch` |

`Store.Update` and `Store.TaskStore.UpdateTask` use the corrected commit.
