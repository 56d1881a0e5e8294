/** The reconciliation loop of the synchronisation script (things.py:52-116): collect the
    candidate tasks, and for each one fetch its detail, send one command to the local store
    and update the Asana-to-Things table in place. */
module Reconciliation {
  import opened Wrappers
  import opened Attributes

  /** The Asana-to-Things table as loaded from its JSON file: a value may be JSON `null`. */
  type Table = map<TaskId, Nullable<LocalId>>

  /** The task detail lookup: `None` when the response has no `data` key (things.py:68-71). */
  type Fetch = TaskId -> Option<Task>

  /** The local store: the list of Things ids (`x-things-ids`) it answers to a command. */
  type Sink = Command -> seq<LocalId>

  /** What processing one candidate does to its own table entry. */
  datatype Change = Keep | Retire | Assign(local: LocalId)

  /** One candidate visited by the loop: skipped for lack of data, or sent to the local store. */
  datatype Step = Skipped(task: TaskId) | Sent(task: TaskId, command: Command)

  /** The candidate dictionary `task_list` (things.py:52-60): every active id with no prior
      local id, overridden by the loaded table's entries. */
  function Candidates(active: seq<TaskId>, loaded: Table): (c: Table)
    ensures c.Keys == (set g | g in active) + loaded.Keys
    ensures forall k :: k in c ==> c[k] == if k in loaded then loaded[k] else Null
  {
    (map g | g in active :: Null) + loaded
  }

  /** Builds `task_list` with the loop and the dictionary update of things.py:52-60. */
  method CollectCandidates(active: seq<TaskId>, loaded: Table) returns (taskList: Table)
    ensures taskList == Candidates(active, loaded)
  {
    taskList := map[];
    for i := 0 to |active|
      invariant taskList.Keys == set g | g in active[..i]
      invariant forall k :: k in taskList ==> taskList[k] == Null
    {
      assert active[..i + 1] == active[..i] + [active[i]];
      taskList := taskList[active[i] := Null];
    }
    assert active[..|active|] == active;
    taskList := taskList + loaded;
  }

  /** The table decision once the command has been sent (things.py:113-116): `completed`
      is read unconditionally, and the first returned id only when the task is not completed. */
  function Conclude(task: Task, ids: seq<LocalId>): (r: Result<Change, Failure>)
    ensures r.Failure? <==> task.completed.None? || (task.completed == Some(false) && ids == [])
    ensures r.Failure? && task.completed.None? ==> r.error == KeyError("completed")
    ensures r.Failure? && task.completed.Some? ==> r.error == IndexError
    ensures r == Success(Retire) <==> task.completed == Some(true)
    ensures r.Success? && r.value.Assign? ==> ids != [] && r.value.local == ids[0]
    ensures r != Success(Keep)
  {
    if task.completed.None? then Failure(KeyError("completed"))
    else if task.completed.value then Success(Retire)
    else if |ids| == 0 then Failure(IndexError)
    else Success(Assign(ids[0]))
  }

  /** What one candidate's pass through the loop body does (things.py:64-116). */
  function Decide(prior: Nullable<LocalId>, detail: Option<Task>, sink: Sink): (r: Result<Change, Failure>)
    ensures r == Success(Keep) <==> detail.None?
    ensures r == Success(Retire) <==> detail.Some? && detail.value.name.Some? && detail.value.completed == Some(true)
    ensures r.Success? && detail.Some? ==> detail.value.name.Some? && detail.value.completed.Some?
    ensures detail.Some? && detail.value.name.None? ==> r == Failure(KeyError("name"))
  {
    match detail
    case None => Success(Keep)
    case Some(task) =>
      match BuildCommand(prior, task)
      case Failure(e) => Failure(e)
      case Success(command) => Conclude(task, sink(command))
  }

  /** A table entry after a change: `pop(id, None)` removes it whether or not it is there. */
  function Settle(before: Option<Nullable<LocalId>>, change: Change): (r: Option<Nullable<LocalId>>) {
    match change
    case Keep => before
    case Retire => None
    case Assign(local) => Some(NonNull(local))
  }

  /** No candidate's pass raises. */
  predicate AllSucceed(candidates: Table, fetch: Fetch, sink: Sink) {
    forall k :: k in candidates ==> Decide(candidates[k], fetch(k), sink).Success?
  }

  /** The entry a candidate ends the run with. */
  function FinalEntry(candidates: Table, loaded: Table, fetch: Fetch, sink: Sink, k: TaskId): (r: Option<Nullable<LocalId>>)
    requires k in candidates && Decide(candidates[k], fetch(k), sink).Success?
  {
    Settle(Lookup(loaded, k), Decide(candidates[k], fetch(k), sink).value)
  }

  /** The table a run that raises nothing persists: each candidate's entry settled by its change. */
  function Final(candidates: Table, loaded: Table, fetch: Fetch, sink: Sink): (t: Table)
    requires AllSucceed(candidates, fetch, sink)
    ensures t.Keys <= candidates.Keys
    ensures forall k :: k in candidates ==> Lookup(t, k) == FinalEntry(candidates, loaded, fetch, sink, k)
  {
    map k | k in candidates.Keys && FinalEntry(candidates, loaded, fetch, sink, k).Some? ::
      FinalEntry(candidates, loaded, fetch, sink, k).value
  }

  /** A table that agrees with every candidate's final entry and has no other key is the final table. */
  lemma FinalUnique(candidates: Table, loaded: Table, fetch: Fetch, sink: Sink, table: Table)
    requires AllSucceed(candidates, fetch, sink)
    requires table.Keys <= candidates.Keys
    requires forall k :: k in candidates ==> Lookup(table, k) == FinalEntry(candidates, loaded, fetch, sink, k)
    ensures table == Final(candidates, loaded, fetch, sink)
  {
  }

  /** The candidates a trace visits. */
  function Visited(trace: seq<Step>): (r: set<TaskId>) {
    set i | 0 <= i < |trace| :: trace[i].task
  }

  /** Appending a step adds its candidate to the visited set. */
  lemma VisitedAppend(trace: seq<Step>, step: Step)
    ensures Visited(trace + [step]) == Visited(trace) + {step.task}
  {
    var t := trace + [step];
    assert t[|trace|] == step;
    forall x | x in Visited(trace) ensures x in Visited(t) {
      var i :| 0 <= i < |trace| && trace[i].task == x;
      assert t[i] == trace[i];
    }
  }

  /** No candidate is visited twice. */
  predicate DistinctTasks(trace: seq<Step>) {
    forall i, j :: 0 <= i < j < |trace| ==> trace[i].task != trace[j].task
  }

  /** Appending a step for an unvisited candidate keeps the trace free of repeats. */
  lemma DistinctAppend(trace: seq<Step>, step: Step)
    requires DistinctTasks(trace) && step.task !in Visited(trace)
    ensures DistinctTasks(trace + [step])
  {
  }

  /** A trace step agrees with the candidate it names: skipped exactly when there is no data,
      otherwise carrying the command built from the candidate's prior local id. */
  predicate StepFits(step: Step, candidates: Table, fetch: Fetch) {
    && step.task in candidates
    && (step.Skipped? <==> fetch(step.task).None?)
    && (step.Sent? ==> BuildCommand(candidates[step.task], fetch(step.task).value) == Success(step.command))
  }

  /** One pass of the loop body for a candidate that has data (things.py:73-116): build and
      send the command, then pop the entry or set it to the first returned id. `sent` is the
      command handed to the local store, `None` when building it raised first. */
  method Process(id: TaskId, prior: Nullable<LocalId>, task: Task, sink: Sink, table: Table)
    returns (outcome: Result<Table, Failure>, sent: Option<Command>)
    ensures sent.Some? <==> task.name.Some?
    ensures sent.Some? ==> BuildCommand(prior, task) == Success(sent.value)
    ensures outcome.Failure? <==> Decide(prior, Some(task), sink).Failure?
    ensures outcome.Failure? ==> Decide(prior, Some(task), sink) == Failure(outcome.error)
    ensures outcome.Success? ==> outcome.value.Keys <= table.Keys + {id}
    ensures outcome.Success? ==>
              Lookup(outcome.value, id) == Settle(Lookup(table, id), Decide(prior, Some(task), sink).value)
    ensures outcome.Success? ==> forall k :: k != id ==> Lookup(outcome.value, k) == Lookup(table, k)
  {
    sent := None;
    var command := BuildCommand(prior, task);
    if command.Failure? {
      return Failure(command.error), sent;
    }
    sent := Some(command.value);
    var ids := sink(command.value);
    if task.completed.None? {
      return Failure(KeyError("completed")), sent;
    }
    if task.completed.value {
      outcome := Success(table - {id});
    } else if |ids| == 0 {
      outcome := Failure(IndexError);
    } else {
      outcome := Success(table[id := NonNull(ids[0])]);
    }
  }

  /** Appending a step that fits and names an unvisited candidate keeps a trace well formed. */
  lemma TraceAppend(candidates: Table, fetch: Fetch, trace: seq<Step>, step: Step)
    requires forall i :: 0 <= i < |trace| ==> StepFits(trace[i], candidates, fetch)
    requires DistinctTasks(trace)
    requires StepFits(step, candidates, fetch) && step.task !in Visited(trace)
    ensures forall i :: 0 <= i < |trace + [step]| ==> StepFits((trace + [step])[i], candidates, fetch)
    ensures DistinctTasks(trace + [step])
    ensures Visited(trace + [step]) == Visited(trace) + {step.task}
  {
    VisitedAppend(trace, step);
    DistinctAppend(trace, step);
  }

  /** The loop invariant of ProcessAll: the candidates outside `todo` have been processed without
      raising and hold their final entries, the others still hold their loaded entries. */
  ghost predicate LoopInvariant(candidates: Table, loaded: Table, fetch: Fetch, sink: Sink,
                                todo: set<TaskId>, table: Table, trace: seq<Step>)
  {
    && todo <= candidates.Keys
    && table.Keys <= candidates.Keys
    && (forall k :: k in todo ==> Lookup(table, k) == Lookup(loaded, k))
    && (forall k :: k in candidates && k !in todo ==> Decide(candidates[k], fetch(k), sink).Success?)
    && (forall k :: k in candidates && k !in todo ==>
          Lookup(table, k) == FinalEntry(candidates, loaded, fetch, sink, k))
    && Visited(trace) == candidates.Keys - todo
    && (forall i :: 0 <= i < |trace| ==> StepFits(trace[i], candidates, fetch))
    && DistinctTasks(trace)
  }

  /** Processing one more candidate without raising keeps the loop invariant. */
  lemma LoopStep(candidates: Table, loaded: Table, fetch: Fetch, sink: Sink,
                 todo: set<TaskId>, table: Table, trace: seq<Step>, next: Table, step: Step)
    requires LoopInvariant(candidates, loaded, fetch, sink, todo, table, trace)
    requires step.task in todo && StepFits(step, candidates, fetch)
    requires Decide(candidates[step.task], fetch(step.task), sink).Success?
    requires next.Keys <= table.Keys + {step.task}
    requires Lookup(next, step.task) ==
               Settle(Lookup(table, step.task), Decide(candidates[step.task], fetch(step.task), sink).value)
    requires forall k :: k != step.task ==> Lookup(next, k) == Lookup(table, k)
    ensures LoopInvariant(candidates, loaded, fetch, sink, todo - {step.task}, next, trace + [step])
  {
    TraceAppend(candidates, fetch, trace, step);
  }

  /** The loop of things.py:63-116 over the candidate dictionary, starting from the loaded table.
      `trace` lists the candidates in the order they were visited. */
  method ProcessAll(candidates: Table, loaded: Table, fetch: Fetch, sink: Sink)
    returns (outcome: Result<Table, Failure>, trace: seq<Step>)
    requires loaded.Keys <= candidates.Keys
    ensures outcome.Success? <==> AllSucceed(candidates, fetch, sink)
    ensures outcome.Success? ==> outcome.value == Final(candidates, loaded, fetch, sink)
    ensures outcome.Failure? ==>
              (exists k :: k in candidates && Decide(candidates[k], fetch(k), sink) == Failure(outcome.error))
    ensures outcome.Success? ==> Visited(trace) == candidates.Keys
    ensures forall i :: 0 <= i < |trace| ==> StepFits(trace[i], candidates, fetch)
    ensures DistinctTasks(trace)
    ensures outcome.Failure? ==>
              forall i :: 0 <= i < |trace| - 1 ==>
                trace[i].task in candidates && Decide(candidates[trace[i].task], fetch(trace[i].task), sink).Success?
    ensures outcome.Failure? && outcome.error != KeyError("name") ==>
              && |trace| > 0 && trace[|trace| - 1].Sent? && trace[|trace| - 1].task in candidates
              && Decide(candidates[trace[|trace| - 1].task], fetch(trace[|trace| - 1].task), sink) == Failure(outcome.error)
  {
    var table := loaded;
    var todo := candidates.Keys;
    trace := [];
    while todo != {}
      invariant LoopInvariant(candidates, loaded, fetch, sink, todo, table, trace)
      decreases todo
    {
      var id :| id in todo;
      var detail := fetch(id);
      if detail.None? {
        LoopStep(candidates, loaded, fetch, sink, todo, table, trace, table, Skipped(id));
        trace := trace + [Skipped(id)];
      } else {
        var next, sent := Process(id, candidates[id], detail.value, sink, table);
        if sent.Some? {
          var step := Sent(id, sent.value);
          if next.Success? {
            LoopStep(candidates, loaded, fetch, sink, todo, table, trace, next.value, step);
          } else {
            TraceAppend(candidates, fetch, trace, step);
          }
          trace := trace + [step];
        }
        if next.Failure? {
          return Failure(next.error), trace;
        }
        table := next.value;
      }
      todo := todo - {id};
    }
    FinalUnique(candidates, loaded, fetch, sink, table);
    outcome := Success(table);
  }

  /** One run of the script between loading and saving the table (things.py:52-121): `outcome`
      is the table written back, or the exception that aborted the run, in which case nothing is
      written and the file keeps its previous content. */
  method Run(active: seq<TaskId>, loaded: Table, fetch: Fetch, sink: Sink)
    returns (outcome: Result<Table, Failure>, trace: seq<Step>)
    ensures outcome.Success? <==> AllSucceed(Candidates(active, loaded), fetch, sink)
    ensures outcome.Success? ==> outcome.value == Final(Candidates(active, loaded), loaded, fetch, sink)
    ensures outcome.Failure? ==>
              (exists k :: k in Candidates(active, loaded) &&
                 Decide(Candidates(active, loaded)[k], fetch(k), sink) == Failure(outcome.error))
    ensures outcome.Success? ==> Visited(trace) == Candidates(active, loaded).Keys
    ensures forall i :: 0 <= i < |trace| ==> StepFits(trace[i], Candidates(active, loaded), fetch)
    ensures DistinctTasks(trace)
    ensures outcome.Failure? ==>
              forall i :: 0 <= i < |trace| - 1 ==>
                trace[i].task in Candidates(active, loaded) && Decide(Candidates(active, loaded)[trace[i].task], fetch(trace[i].task), sink).Success?
    ensures outcome.Failure? && outcome.error != KeyError("name") ==>
              && |trace| > 0 && trace[|trace| - 1].Sent? && trace[|trace| - 1].task in Candidates(active, loaded)
              && Decide(Candidates(active, loaded)[trace[|trace| - 1].task], fetch(trace[|trace| - 1].task), sink) == Failure(outcome.error)
  {
    var taskList := CollectCandidates(active, loaded);
    outcome, trace := ProcessAll(taskList, loaded, fetch, sink);
  }
}
