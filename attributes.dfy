/** What one remote task becomes on the local side: the sparse attribute record and the
    one create-or-update command sent to the local store (things.py:73-101). */
module Attributes {
  import opened Wrappers

  /** An Asana task id (`gid`). */
  type TaskId = string
  /** A Things to-do id. */
  type LocalId = string

  /** The `data` object of a task detail response. Each field is `None` when its key is
      missing from the object; `dueOn` may be present with the JSON value `null`. */
  datatype Task = Task(
    name: Option<string>,
    completed: Option<bool>,
    dueOn: Option<Nullable<string>>,
    notes: Option<string>,
    permalinkUrl: Option<string>)

  /** The `attributes` dictionary of a command: `title` is always set, every other
      field is `None` when its key is left out (the local store then leaves it untouched). */
  datatype AttributeRecord = AttributeRecord(
    title: string,
    completed: Option<bool>,
    deadline: Option<Nullable<string>>,
    notes: Option<string>)

  datatype Operation = Create | Update

  /** One element of the JSON array handed to the local store. */
  datatype Command = Command(
    kind: string,
    operation: Operation,
    id: Nullable<LocalId>,
    attributes: AttributeRecord)

  /** The exceptions that abort a run: a missing dictionary key, or indexing an empty id list. */
  datatype Failure = KeyError(key: string) | IndexError

  const TO_DO := "to-do"
  const SEPARATOR := "\n\n"

  /** The notes text sent to the local store when the task has `notes` (things.py:94-98):
      the task's notes, followed by the permalink after a blank line when both are there. */
  function ComposeNotes(notes: string, permalink: Option<string>): (r: string)
    ensures permalink.None? ==> r == notes
    ensures permalink.Some? ==> |permalink.value| <= |r| && r[|r| - |permalink.value|..] == permalink.value
    ensures notes != "" ==> notes <= r
    ensures notes == "" && permalink.Some? ==> r == permalink.value
  {
    if notes != "" && permalink.Some? then
      notes + SEPARATOR + permalink.value
    else if permalink.Some? then
      permalink.value
    else
      notes
  }

  /** Recovers the task's own notes from composed notes, given the permalink it was composed with. */
  function StripPermalink(composed: string, permalink: string): (notes: string)
    ensures |notes| <= |composed|
  {
    var n := |SEPARATOR| + |permalink|;
    if composed == permalink then ""
    else if n <= |composed| && composed[|composed| - n..] == SEPARATOR + permalink then
      composed[..|composed| - n]
    else
      composed
  }

  /** Builds the attribute record step by step, as things.py:86-98 does. Reading `name`
      raises when the key is missing (things.py:88). */
  function BuildAttributes(task: Task): (r: Result<AttributeRecord, Failure>)
    ensures r.Failure? <==> task.name.None?
    ensures r.Failure? ==> r.error == KeyError("name")
    ensures r.Success? ==> r.value.title == task.name.value
    ensures r.Success? ==> r.value.completed == task.completed
    ensures r.Success? ==> r.value.deadline == task.dueOn
    ensures r.Success? ==> (r.value.notes.Some? <==> task.notes.Some?)
    ensures r.Success? && task.notes.Some? ==>
              r.value.notes.value == ComposeNotes(task.notes.value, task.permalinkUrl)
  {
    if task.name.None? then Failure(KeyError("name"))
    else
      var a := AttributeRecord(task.name.value, None, None, None);
      var a := if task.completed.Some? then a.(completed := task.completed) else a;
      var a := if task.dueOn.Some? then a.(deadline := task.dueOn) else a;
      var a := if task.notes.Some? then a.(notes := Some(ComposeNotes(task.notes.value, task.permalinkUrl))) else a;
      Success(a)
  }

  /** The operation and the command id chosen from the prior local id (things.py:76-83). */
  function Classify(prior: Nullable<LocalId>): (r: (Operation, Nullable<LocalId>))
    ensures r.0 == Update <==> prior.NonNull?
    ensures r.1 == prior
  {
    if prior.NonNull? then (Update, prior) else (Create, Null)
  }

  /** The command sent for one candidate (things.py:74-101). */
  function BuildCommand(prior: Nullable<LocalId>, task: Task): (r: Result<Command, Failure>)
    ensures r.Failure? <==> task.name.None?
    ensures r.Failure? ==> r.error == KeyError("name")
    ensures r.Success? ==> r.value.kind == TO_DO
    ensures r.Success? ==> r.value.id == prior
    ensures r.Success? ==> (r.value.operation == Update <==> r.value.id.NonNull?)
    ensures r.Success? ==> Success(r.value.attributes) == BuildAttributes(task)
  {
    match BuildAttributes(task)
    case Failure(e) => Failure(e)
    case Success(attributes) =>
      var (operation, id) := Classify(prior);
      Success(Command(TO_DO, operation, id, attributes))
  }

  /** The JSON keys a task detail carries, among those the script reads. */
  function TaskKeys(task: Task): (r: set<string>) {
    (if task.name.Some? then {"name"} else {})
    + (if task.completed.Some? then {"completed"} else {})
    + (if task.dueOn.Some? then {"due_on"} else {})
    + (if task.notes.Some? then {"notes"} else {})
    + (if task.permalinkUrl.Some? then {"permalink_url"} else {})
  }

  /** The JSON keys of an attribute record. */
  function AttributeKeys(a: AttributeRecord): (r: set<string>) {
    {"title"}
    + (if a.completed.Some? then {"completed"} else {})
    + (if a.deadline.Some? then {"deadline"} else {})
    + (if a.notes.Some? then {"notes"} else {})
  }

  /** Composing loses nothing: the task's notes are recovered from what was sent. */
  lemma NotesRoundTrip(notes: string, permalink: string)
    ensures StripPermalink(ComposeNotes(notes, Some(permalink)), permalink) == notes
  {
  }

  /** Two different notes texts never compose to the same text under one permalink. */
  lemma ComposeNotesInjective(notes1: string, notes2: string, permalink: Option<string>)
    requires ComposeNotes(notes1, permalink) == ComposeNotes(notes2, permalink)
    ensures notes1 == notes2
  {
  }

  /** The attribute record carries exactly the fields the task carries: `title` always,
      `completed` and `notes` under their own names, `due_on` renamed to `deadline`. */
  lemma SparseAttributes(task: Task)
    requires task.name.Some?
    ensures BuildAttributes(task).Success?
    ensures AttributeKeys(BuildAttributes(task).value) ==
              {"title"}
              + (TaskKeys(task) * {"completed", "notes"})
              + (if "due_on" in TaskKeys(task) then {"deadline"} else {})
  {
  }

  /** Three concrete notes: empty notes with a permalink, notes with a permalink, notes
      without one. */
  lemma NotesExamples()
    ensures ComposeNotes("", Some("https://x/1")) == "https://x/1"
    ensures ComposeNotes("buy milk", Some("https://x/1")) == "buy milk\n\nhttps://x/1"
    ensures ComposeNotes("buy milk", None) == "buy milk"
  {
  }
}
