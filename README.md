# Asana-to-Things reconciliation, modelled in Dafny

The script `things.py` keeps the to-do list of the Things app in step with the Asana tasks
assigned to the user. It keeps a table from Asana task ids (`gid`) to Things to-do ids, stored
as a JSON file. A run does the following (things.py:52-121):

- It collects the candidate tasks: every active task id, plus every id already in the table.
- It fetches each candidate's detail. A candidate with no `data` in its response is skipped.
- For each fetched task it builds one command for Things. The command is `update`, with the
  known Things id, if the table has a non-null id for the task, and `create` otherwise.
- The command carries a sparse attribute record: the title, plus `completed`, `deadline` and
  `notes` only when the task has the matching field.
- After the command is sent, a completed task is popped from the table. Any other task is set
  to the first id Things returned.
- The table is written back at the end of the run.

The model has four modules:

- `Wrappers`: `Option` (a dictionary key present or absent), `Nullable` (a value that may be
  `None`/`null`) and `Result` (a value, or the exception that aborted the run).
- `Attributes`: the task detail record, how notes are composed, the attribute record, and how
  the command is chosen and built.
- `Reconciliation`:
  - the candidate dictionary, as a function and as the loop `CollectCandidates`;
  - the per-candidate decision `Decide`;
  - one pass of the loop body, `Process`;
  - the loop itself, `ProcessAll`, and the whole run, `Run`.

  A run's outcome is either the table written back or the exception that stopped it. `Run` is
  proved against `Final`, the table a run that raises nothing writes back, and against the trace
  of candidates it visited.
- `Properties`: lemmas about `Final`. They cover: completion retires an entry, a skipped task
  keeps its entry, an open task is mapped to the id Things returned, a mapped task is an update
  in the next run, running twice is idempotent, plus two worked examples: a first create into an
  empty table, and the retirement of a tracked task that is now completed.

The I/O is replaced by three inputs:
- the active-task list, a sequence of ids;
- the detail lookup `Fetch`, a function from a task id to an optional task record;
- the local store `Sink`, a deterministic function from a command to the list of Things ids it
  answers (`x-things-ids`).

Exceptions the script would raise are modelled as `Failure` values:
- a missing `name` raises `KeyError` at things.py:88, before the command is sent;
- a missing `completed` raises `KeyError` at things.py:113, after the command is sent;
- an empty id list for a task that is not completed raises `IndexError` at things.py:116.

An aborted run writes nothing, so the file keeps its previous table.

Points where the code's own behaviour is easy to misread:
- Notes are sent only when the task has a `notes` key (things.py:93). A permalink without a
  `notes` key gives no notes attribute.
- `completed` is read unconditionally at things.py:113. A detail without it aborts the run
  rather than counting as "not completed".
- `due_on` is copied as it is (things.py:91-92), so a `due_on` of `null` is sent as a `null`
  deadline. `Task.dueOn` is therefore `Option<Nullable<string>>`.
- Table values may be `null` in the loaded file. Such an entry gives a `create`, because
  things.py:77 tests the value and not the key. Values the run writes are never `null`.

Running twice gives the same table if the local store keeps ids stable: an update of to-do `L`
answers `L` first. `Properties.StableUpdates` states this, and `RunTwiceIsIdempotent` assumes
it. It is a sufficient condition, not a necessary one.

## Model

| member | source | states |
|---|---|---|
| `Attributes.ComposeNotes` | things.py:93-98 | Without a permalink the notes are unchanged. With one, the result ends with the permalink. Non-empty notes are kept as a prefix. Empty notes give the permalink alone. |
| `Attributes.NotesRoundTrip` | things.py:93-98 | The task's own notes can be recovered from the composed notes and the permalink, so composing loses nothing. |
| `Attributes.ComposeNotesInjective` | things.py:93-98 | Two different notes texts never compose to the same text under the same permalink. |
| `Attributes.NotesExamples` | things.py:93-98 | `("", url)` gives `url`; `("buy milk", url)` gives `"buy milk\n\n" + url`; `("buy milk", none)` gives `"buy milk"`. |
| `Attributes.BuildAttributes` | things.py:86-98 | Fails with `KeyError("name")` exactly when `name` is missing. Otherwise the title is the name. `completed` and `deadline` are copied from `completed` and `due_on`, present exactly when those are. `notes` is present exactly when the task has `notes`, and is then the composed notes. |
| `Attributes.SparseAttributes` | things.py:86-94 | The attribute keys are `title` plus exactly the task's `completed`, `notes` and (renamed) `due_on` keys. |
| `Attributes.Classify` | things.py:76-83 | The operation is `Update` exactly when the prior local id is non-null, and the command id is always the prior id (`None` for a create). |
| `Attributes.BuildCommand` | things.py:74-101 | Fails exactly when `name` is missing. A built command has kind `to-do` and id equal to the prior id. Its operation is `Update` exactly when its id is non-null, and its attributes are the task's attribute record. |
| `Reconciliation.Candidates` | things.py:52-60 | The candidate keys are exactly the active ids plus the loaded table's keys. A candidate's prior id is the table's value when the table has the key, overriding the `None` of an active id, and `None` otherwise. |
| `Reconciliation.CollectCandidates` | things.py:52-60 | The loop over the active ids, followed by the dictionary update, builds exactly `Candidates`. |
| `Reconciliation.Conclude` | things.py:112-116 | A missing `completed` raises `KeyError("completed")`. `completed` true retires the entry whatever the store answered. `completed` false assigns the first returned id, and raises `IndexError` when no id was returned. It never keeps the entry. |
| `Reconciliation.Decide` | things.py:63-116 | A candidate is left as it is exactly when it has no data. It is retired exactly when it has data with a name and `completed` true. It succeeds only when its data has both `name` and `completed`, and data without `name` raises `KeyError("name")`. |
| `Reconciliation.Final` | things.py:63-116 | The table written back has only candidate keys. Each candidate's entry is its loaded entry settled by that candidate's change: kept, removed (a no-op when absent) or set to the returned id. |
| `Reconciliation.Process` | things.py:73-116 | The command is sent exactly when `name` is present, and it is the built command. The pass fails exactly when `Decide` does, with the same exception. On success only the candidate's own key changes, and it changes as `Decide` says. |
| `Reconciliation.ProcessAll` | things.py:62-116 | Succeeds exactly when no candidate fails. On success it returns `Final` and has visited every candidate once. On failure, some candidate fails with that exception. Every visited candidate is skipped exactly when it has no data, and is otherwise sent the command built from its prior id. On an aborted run, every candidate visited before the last one succeeded. When the abort happened after the command was sent (`completed` missing, or no id returned), the last step is that candidate's `Sent` step, and that candidate fails with the run's exception. So the trace records every command Things received before the raise. |
| `Reconciliation.Run` | things.py:52-121 | Makes the same promises as `ProcessAll`, over the candidates collected from the active ids and the loaded table. |
| `Properties.CompletedIsRetired` | things.py:112-114 | A candidate whose fetched task has `completed` true is not in the table written back, whether its command was a create or an update. |
| `Properties.SkippedIsUnchanged` | things.py:67-71 | A candidate without data keeps its loaded entry, present or absent. |
| `Properties.OpenIsMapped` | things.py:108-116 | A candidate whose task is not completed is mapped to the non-null first id the store returned for its command. |
| `Properties.MappedIsUpdatedNextRun` | things.py:63-116 | A task mapped in one run is still a candidate in the next run over the written table, whatever that run's active list is. Its command there is an `update` carrying the id recorded in the first run. |
| `Properties.RunTwiceIsIdempotent` | things.py:52-116 | Take a run that raises nothing and a store that keeps ids stable. A second run over its table, with the same remote state, raises nothing and writes back the same table. |
| `Properties.CreateScenario` | things.py:52-116 | Empty table, one active open task "Buy milk", and the store answers `L1`. The command is a create with a null id, the title and `completed: false`, and the table becomes `{"1": "L1"}`. |
| `Properties.RetireScenario` | things.py:52-116 | Table `{"1": "L1"}` and the task is now completed. The command is an update of `L1` with `completed: true`, and the table becomes empty whatever the store answers. |

## Left out

- Configuration loading and the template written on first run (things.py:8-28): file I/O and
  process exit.
- Loading and saving the JSON table (things.py:30-40, 118-121): file I/O. The model takes the
  loaded table as an input, and a missing file is the empty map. A successful outcome is the
  table written back. A file holding JSON `null`, which is what the test at things.py:59 guards
  against, or holding something other than an object, is not modelled.
- The HTTP requests (things.py:43-49, 55, 64-65): network. They are replaced by the active-id
  sequence and the `Fetch` function. Malformed responses are not modelled, nor are transport
  errors, which would abort the run like the modelled exceptions do.
- `json.dumps`, URL quoting, the `xcall` call and parsing `x-things-ids` (things.py:103-110):
  serialisation and a foreign call. `Sink` stands for all of them. The one-element JSON array
  (things.py:74, 101) is modelled as the single `Command` handed to `Sink`. A missing
  `x-things-ids` key is not modelled.
- JSON value types: detail fields have the types Asana documents (`name`, `notes` and
  `permalink_url` strings, `completed` a boolean, `due_on` a string or `null`). A value of any
  other type, which could make `+=` raise `TypeError` or `is True` be false, is not modelled.
- Fresh ids on create: `Sink` is a deterministic function of the command, so two Asana tasks
  whose create commands are identical (same fields, null id) get the same Things id in the
  model, where Things would create two to-dos. No proved property depends on this.
- Dictionary iteration order: the loop visits candidates in an unspecified order. Each candidate
  touches only its own key, so a successful run's table does not depend on the order.
- `Run`, `ProcessAll`: when a run aborts on a missing `name` (things.py:88), no command is sent
  for the failing candidate, so the trace does not name it. The contract then only says that
  some candidate fails with that exception.
