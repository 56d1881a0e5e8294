/** Small value wrappers shared by the model.

    Two different kinds of "nothing" occur in the synchronisation script and are kept apart here:
    - `Option` says whether a key is PRESENT in a dictionary (`'notes' in task_detail`);
    - `Nullable` is a value that may be Python's `None` / JSON `null` (a table entry, a command id).
 */
module Wrappers {

  datatype Option<+T> = None | Some(value: T)

  datatype Nullable<+T> = Null | NonNull(value: T)

  /** The outcome of a step that can raise: a value, or the exception that aborted it. */
  datatype Result<+R, +E> = Success(value: R) | Failure(error: E)

  /** `k in m` as an `Option`, so that "absent" and "present with value v" compare as values. */
  function Lookup<K, V>(m: map<K, V>, k: K): (r: Option<V>)
    ensures r.Some? <==> k in m
    ensures r.Some? ==> r.value == m[k]
  {
    if k in m then Some(m[k]) else None
  }
}
