/**
 * The `useTasks` hook: the signed-in user's task list and a loading flag,
 * kept in step with the remote `tasks` table. Each mutation changes the local
 * list only after the store has answered, by one of three list operations:
 * put the inserted row in front, replace the rows with the updated id, or
 * drop the rows with the deleted id.
 */
module UseTasks {
  import opened Wrappers
  import opened Seqs
  import opened Tasks

  /** No two rows of the list share an id (the table's key). */
  ghost predicate UniqueIds(ts: seq<Task>) {
    forall i, j :: 0 <= i < |ts| && 0 <= j < |ts| && ts[i].id == ts[j].id ==> i == j
  }

  /** No row of the list has this id. */
  ghost predicate IdAbsent(ts: seq<Task>, id: string) {
    forall i :: 0 <= i < |ts| ==> ts[i].id != id
  }

  /** `prev.map(task => task.id === id ? data : task)`. */
  function ReplaceById(ts: seq<Task>, id: string, row: Task): (r: seq<Task>)
    ensures |r| == |ts|
    ensures forall i :: 0 <= i < |ts| && ts[i].id == id ==> r[i] == row
    ensures forall i :: 0 <= i < |ts| && ts[i].id != id ==> r[i] == ts[i]
  {
    if ts == [] then []
    else [if ts[0].id == id then row else ts[0]] + ReplaceById(ts[1..], id, row)
  }

  /** `prev.filter(task => task.id !== id)`. */
  function RemoveById(ts: seq<Task>, id: string): (r: seq<Task>)
    ensures IsSubsequence(r, ts)
    ensures forall t :: t in r <==> t in ts && t.id != id
    ensures |r| + |Filter(ts, (t: Task) => t.id == id)| == |ts|
  {
    var keep := (t: Task) => t.id != id;
    FilterIsSubsequence(ts, keep);
    FilterComplement(ts, keep, (t: Task) => t.id == id);
    Filter(ts, keep)
  }

  /** An update whose id matches no row leaves the list as it was. */
  lemma ReplaceAbsentIsIdentity(ts: seq<Task>, id: string, row: Task)
    requires IdAbsent(ts, id)
    ensures ReplaceById(ts, id, row) == ts
  {
  }

  /** Applying the same successful update twice gives the list of applying it once. */
  lemma ReplaceIdempotent(ts: seq<Task>, id: string, row: Task)
    requires row.id == id
    ensures ReplaceById(ReplaceById(ts, id, row), id, row) == ReplaceById(ts, id, row)
  {
  }

  /**
   * With unique ids, an update of the row at position `k` changes that
   * position and nothing else.
   */
  lemma ReplaceUniqueIsPointUpdate(ts: seq<Task>, k: nat, row: Task)
    requires UniqueIds(ts) && k < |ts|
    ensures ReplaceById(ts, ts[k].id, row) == ts[k := row]
  {
  }

  /**
   * When the store honours `toggleTaskComplete`, the list afterwards differs
   * from the list before only in the `completed` field of the toggled row.
   */
  lemma ToggleChangesOnlyCompletion(ts: seq<Task>, k: nat, completed: bool)
    requires UniqueIds(ts) && k < |ts|
    ensures ReplaceById(ts, ts[k].id, Patched(ts[k], CompletionPatch(completed)))
         == ts[k := ts[k].(completed := completed)]
  {
  }

  /** An update that keeps the row's id keeps the ids unique. */
  lemma ReplacePreservesUniqueIds(ts: seq<Task>, id: string, row: Task)
    requires UniqueIds(ts) && row.id == id
    ensures UniqueIds(ReplaceById(ts, id, row))
  {
  }

  /** Deleting a row after updating it is the same as deleting it. */
  lemma {:induction false} DeleteAfterUpdate(ts: seq<Task>, id: string, row: Task)
    requires row.id == id
    ensures RemoveById(ReplaceById(ts, id, row), id) == RemoveById(ts, id)
  {
    if ts != [] {
      DeleteAfterUpdate(ts[1..], id, row);
      var head := if ts[0].id == id then row else ts[0];
      assert ReplaceById(ts, id, row) == [head] + ReplaceById(ts[1..], id, row);
      FilterConcat([head], ReplaceById(ts[1..], id, row), (t: Task) => t.id != id);
      FilterConcat([ts[0]], ts[1..], (t: Task) => t.id != id);
      assert [ts[0]] + ts[1..] == ts;
    }
  }

  /** Deleting twice removes nothing more than deleting once. */
  lemma DeleteIdempotent(ts: seq<Task>, id: string)
    ensures RemoveById(RemoveById(ts, id), id) == RemoveById(ts, id)
  {
    FilterIdempotent(ts, (t: Task) => t.id != id);
  }

  /** Deleting an id that no row carries leaves the list as it was. */
  lemma DeleteAbsentIsIdentity(ts: seq<Task>, id: string)
    requires IdAbsent(ts, id)
    ensures RemoveById(ts, id) == ts
  {
    FilterKeepsAll(ts, (t: Task) => t.id != id);
  }

  /**
   * With unique ids, deleting the id of the row at position `k` removes
   * exactly that one row: the list shrinks by one and the rows before and
   * after it stay in place.
   */
  lemma DeleteUniqueRemovesOne(ts: seq<Task>, k: nat)
    requires UniqueIds(ts) && k < |ts|
    ensures RemoveById(ts, ts[k].id) == ts[..k] + ts[k + 1..]
    ensures |RemoveById(ts, ts[k].id)| == |ts| - 1
  {
    var id := ts[k].id;
    var keep := (t: Task) => t.id != id;
    var before, after := ts[..k], ts[k + 1..];
    assert ts == before + ([ts[k]] + after);
    assert IdAbsent(before, id) by {
      forall i | 0 <= i < |before| ensures before[i].id != id {
        assert before[i] == ts[i];
      }
    }
    assert IdAbsent(after, id) by {
      forall i | 0 <= i < |after| ensures after[i].id != id {
        assert after[i] == ts[k + 1 + i];
      }
    }
    FilterConcat(before, [ts[k]] + after, keep);
    FilterConcat([ts[k]], after, keep);
    FilterKeepsAll(before, keep);
    FilterKeepsAll(after, keep);
    assert Filter([ts[k]], keep) == [];
  }

  /** A created row whose id the list does not hold yet keeps the ids unique. */
  lemma CreateKeepsIdsUnique(ts: seq<Task>, row: Task)
    requires UniqueIds(ts) && IdAbsent(ts, row.id)
    ensures UniqueIds([row] + ts)
  {
  }

  /**
   * Deleting a just-created row whose id the list did not hold gives back
   * the list before the creation.
   */
  lemma CreateThenDelete(ts: seq<Task>, row: Task)
    requires IdAbsent(ts, row.id)
    ensures RemoveById([row] + ts, row.id) == ts
  {
    var keep := (t: Task) => t.id != row.id;
    FilterConcat([row], ts, keep);
    FilterKeepsAll(ts, keep);
    assert Filter([row], keep) == [];
  }

  /** What `createTask` and `updateTask` hand back to their caller. */
  datatype MutationResult =
    | Saved(data: Task)         // `{ data, error: null }`
    | Failed(error: StoreError) // `{ data: null, error }`

  /** The hook's state: `tasks`, `loading`, and the identity `useAuth` supplies. */
  class TasksHook {
    var tasks: seq<Task>
    var loading: bool
    var user: Option<User>

    /** The state before any effect has run: an empty list, still loading. */
    constructor ()
      ensures tasks == [] && loading && user == None
    {
      tasks := [];
      loading := true;
      user := None;
    }

    /**
     * The effect that runs whenever the identity changes: with a user, start
     * fetching; without one, clear the list and stop loading, with no remote
     * call.
     */
    method OnUserChange(u: Option<User>) returns (fetchIssued: bool)
      modifies this
      ensures user == u
      ensures fetchIssued <==> u.Some?
      ensures u.Some? ==> loading && tasks == old(tasks)
      ensures u.None? ==> tasks == [] && !loading
    {
      user := u;
      if u.Some? {
        BeginFetch();
        fetchIssued := true;
      } else {
        tasks := [];
        loading := false;
        fetchIssued := false;
      }
    }

    /** `fetchTasks` (also exposed as `refetch`) up to its `await`: loading is set. */
    method BeginFetch()
      modifies this`loading
      ensures loading
    {
      loading := true;
    }

    /**
     * `fetchTasks` after the select answered: the rows replace the list (no
     * rows, `null`, give the empty list), an error leaves the list as it was,
     * and loading ends either way.
     */
    method FinishFetch(response: Remote<Option<seq<Task>>>)
      modifies this`tasks, this`loading
      ensures !loading
      ensures response.Ok? && response.value.Some? ==> tasks == response.value.value
      ensures response.Ok? && response.value.None? ==> tasks == []
      ensures response.Err? ==> tasks == old(tasks)
    {
      if response.Ok? {
        tasks := if response.value.Some? then response.value.value else [];
      }
      loading := false;
    }

    /**
     * `createTask(title, description = '')`. Without a user it sends nothing
     * and returns nothing. Otherwise it sends exactly the owner, title and
     * description (blank titles included), and `response` is the store's
     * answer: the inserted row goes in front of the list, an error leaves the
     * list alone.
     */
    method CreateTask(title: string, description: string := "", response: Remote<Task>)
      returns (request: Option<NewTask>, result: Option<MutationResult>)
      modifies this`tasks
      ensures user.None? ==> request.None? && result.None? && tasks == old(tasks)
      ensures user.Some? ==> request == Some(NewTask(user.value.id, title, description))
      ensures user.Some? && response.Ok? ==>
        tasks == [response.value] + old(tasks) && result == Some(Saved(response.value))
      ensures user.Some? && response.Err? ==>
        tasks == old(tasks) && result == Some(Failed(response.error))
    {
      if user.None? {
        return None, None;
      }
      request := Some(NewTask(user.value.id, title, description));
      match response
      case Ok(row) =>
        tasks := [row] + tasks;
        result := Some(Saved(row));
      case Err(e) =>
        result := Some(Failed(e));
    }

    /**
     * `updateTask(id, updates)`: the request names the row and carries the
     * fields unchanged; the store's answer replaces every row with
     * that id; an error leaves the list alone.
     */
    method UpdateTask(id: string, updates: TaskPatch, response: Remote<Task>)
      returns (request: TaskUpdate, result: MutationResult)
      modifies this`tasks
      ensures request == TaskUpdate(id, updates)
      ensures response.Ok? ==> tasks == ReplaceById(old(tasks), id, response.value) && result == Saved(response.value)
      ensures response.Err? ==> tasks == old(tasks) && result == Failed(response.error)
    {
      request := TaskUpdate(id, updates);
      match response
      case Ok(row) =>
        tasks := ReplaceById(tasks, id, row);
        result := Saved(row);
      case Err(e) =>
        result := Failed(e);
    }

    /** `toggleTaskComplete(id, completed)`: `updateTask` with `{ completed }` as the only field. */
    method ToggleTaskComplete(id: string, completed: bool, response: Remote<Task>)
      returns (request: TaskUpdate, result: MutationResult)
      modifies this`tasks
      ensures request == TaskUpdate(id, TaskPatch(None, None, Some(completed)))
      ensures response.Ok? ==> tasks == ReplaceById(old(tasks), id, response.value) && result == Saved(response.value)
      ensures response.Err? ==> tasks == old(tasks) && result == Failed(response.error)
    {
      request, result := UpdateTask(id, CompletionPatch(completed), response);
    }

    /**
     * `deleteTask(id)`: once the store confirms, every row with that id is
     * dropped; an error leaves the list alone and is returned.
     */
    method DeleteTask(id: string, response: Remote<()>) returns (error: Option<StoreError>)
      modifies this`tasks
      ensures response.Ok? ==> tasks == RemoveById(old(tasks), id) && error.None?
      ensures response.Err? ==> tasks == old(tasks) && error == Some(response.error)
    {
      if response.Ok? {
        tasks := RemoveById(tasks, id);
        error := None;
      } else {
        error := Some(response.error);
      }
    }
  }
}
