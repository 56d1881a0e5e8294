/** Properties of whole runs, stated over the table a run persists (`Final`), which is what
    `Reconciliation.Run` returns when nothing raises. */
module Properties {
  import opened Wrappers
  import opened Attributes
  import opened Reconciliation

  /** The local store keeps a to-do's id across updates: an update of `L` answers `L` first. */
  ghost predicate StableUpdates(sink: Sink) {
    forall command: Command :: command.operation == Update && command.id.NonNull? ==>
      sink(command) != [] && sink(command)[0] == command.id.value
  }

  /** A candidate whose task is completed is not in the persisted table, whether it was
      created or updated on this pass. */
  lemma CompletedIsRetired(candidates: Table, loaded: Table, fetch: Fetch, sink: Sink, k: TaskId)
    requires AllSucceed(candidates, fetch, sink)
    requires k in candidates && fetch(k).Some? && fetch(k).value.completed == Some(true)
    ensures k !in Final(candidates, loaded, fetch, sink)
  {
  }

  /** A candidate without data keeps its loaded entry, present or absent. */
  lemma SkippedIsUnchanged(candidates: Table, loaded: Table, fetch: Fetch, sink: Sink, k: TaskId)
    requires AllSucceed(candidates, fetch, sink)
    requires k in candidates && fetch(k).None?
    ensures Lookup(Final(candidates, loaded, fetch, sink), k) == Lookup(loaded, k)
  {
  }

  /** A candidate whose task is not completed is mapped to the first id the local store
      returned for the command built for it. */
  lemma OpenIsMapped(candidates: Table, loaded: Table, fetch: Fetch, sink: Sink, k: TaskId)
    requires AllSucceed(candidates, fetch, sink)
    requires k in candidates && fetch(k).Some? && fetch(k).value.completed == Some(false)
    ensures BuildCommand(candidates[k], fetch(k).value).Success?
    ensures sink(BuildCommand(candidates[k], fetch(k).value).value) != []
    ensures Lookup(Final(candidates, loaded, fetch, sink), k) ==
              Some(NonNull(sink(BuildCommand(candidates[k], fetch(k).value).value)[0]))
  {
  }

  /** A task mapped in one run is an update in the next run over the persisted table, with the
      local id the first run recorded, whatever the next run's active list is. */
  lemma MappedIsUpdatedNextRun(active: seq<TaskId>, loaded: Table, fetch: Fetch, sink: Sink,
                               nextActive: seq<TaskId>, k: TaskId, task: Task)
    requires AllSucceed(Candidates(active, loaded), fetch, sink)
    requires k in Candidates(active, loaded) && fetch(k).Some? && fetch(k).value.completed == Some(false)
    requires task.name.Some?
    ensures k in Candidates(nextActive, Final(Candidates(active, loaded), loaded, fetch, sink))
    ensures
      var c := Candidates(active, loaded);
      var recorded := sink(BuildCommand(c[k], fetch(k).value).value)[0];
      var next := Candidates(nextActive, Final(c, loaded, fetch, sink));
      BuildCommand(next[k], task) == Success(Command(TO_DO, Update, NonNull(recorded), BuildAttributes(task).value))
  {
  }

  /** Running twice over the same remote state with a local store that keeps ids stable:
      the second run raises nothing either and persists the same table. */
  lemma RunTwiceIsIdempotent(active: seq<TaskId>, loaded: Table, fetch: Fetch, sink: Sink)
    requires AllSucceed(Candidates(active, loaded), fetch, sink)
    requires StableUpdates(sink)
    ensures
      var first := Final(Candidates(active, loaded), loaded, fetch, sink);
      && AllSucceed(Candidates(active, first), fetch, sink)
      && Final(Candidates(active, first), first, fetch, sink) == first
  {
    var c1 := Candidates(active, loaded);
    var first := Final(c1, loaded, fetch, sink);
    var c2 := Candidates(active, first);
    forall k | k in c2
      ensures Decide(c2[k], fetch(k), sink).Success?
      ensures Lookup(first, k) == FinalEntry(c2, first, fetch, sink, k)
    {
      assert k in c1;
      if fetch(k).None? {
        SkippedIsUnchanged(c1, loaded, fetch, sink, k);
      } else {
        var t := fetch(k).value;
        assert Decide(c1[k], fetch(k), sink).Success?;
        if t.completed.value {
          CompletedIsRetired(c1, loaded, fetch, sink, k);
          assert Decide(c2[k], fetch(k), sink) == Success(Retire);
        } else {
          OpenIsMapped(c1, loaded, fetch, sink, k);
          var recorded := sink(BuildCommand(c1[k], t).value)[0];
          assert c2[k] == NonNull(recorded);
          var command := BuildCommand(c2[k], t).value;
          assert command.operation == Update && command.id == NonNull(recorded);
          assert Decide(c2[k], fetch(k), sink) == Success(Assign(recorded));
        }
      }
    }
    FinalUnique(c2, first, fetch, sink, first);
  }

  /** An empty table and one active, open task give one create command and the table
      `{"1": "L1"}`. */
  lemma CreateScenario(fetch: Fetch, sink: Sink)
    requires fetch("1") == Some(Task(Some("Buy milk"), Some(false), None, None, None))
    requires sink(Command(TO_DO, Create, Null, AttributeRecord("Buy milk", Some(false), None, None))) == ["L1"]
    ensures BuildCommand(Null, fetch("1").value) ==
              Success(Command(TO_DO, Create, Null, AttributeRecord("Buy milk", Some(false), None, None)))
    ensures AllSucceed(Candidates(["1"], map[]), fetch, sink)
    ensures Final(Candidates(["1"], map[]), map[], fetch, sink) == map["1" := NonNull("L1")]
  {
  }

  /** A tracked task that is now completed gives one update
      command with its local id and leaves the table empty, whatever the store answers. */
  lemma RetireScenario(fetch: Fetch, sink: Sink)
    requires fetch("1") == Some(Task(Some("Buy milk"), Some(true), None, None, None))
    ensures BuildCommand(NonNull("L1"), fetch("1").value) ==
              Success(Command(TO_DO, Update, NonNull("L1"), AttributeRecord("Buy milk", Some(true), None, None)))
    ensures AllSucceed(Candidates([], map["1" := NonNull("L1")]), fetch, sink)
    ensures Final(Candidates([], map["1" := NonNull("L1")]), map["1" := NonNull("L1")], fetch, sink) == map[]
  {
  }
}
