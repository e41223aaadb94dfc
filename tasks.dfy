/**
 * The records exchanged with the hosted `tasks` table, and the shape of the
 * table's answers. The query builder itself is not modelled: each remote call
 * appears only as the answer it produced.
 */
module Tasks {
  import opened Wrappers

  /** A row of the `tasks` table. */
  datatype Task = Task(
    id: string,
    userId: string,
    title: string,
    description: string,
    completed: bool,
    createdAt: string)

  /** The signed-in identity: only its id is read. */
  datatype User = User(id: string)

  /** The record `createTask` inserts; the store assigns id, completion and timestamp. */
  datatype NewTask = NewTask(userId: string, title: string, description: string)

  /** A `Partial<Task>` update: the fields present are the ones to overwrite. */
  datatype TaskPatch = TaskPatch(title: Option<string>, description: Option<string>, completed: Option<bool>)

  /** The request `updateTask(id, updates)` sends: which row, and which fields to overwrite. */
  datatype TaskUpdate = TaskUpdate(id: string, updates: TaskPatch)

  /** The error object the client library reports; treated opaquely. */
  datatype StoreError = StoreError(message: string)

  /** What one remote call came back with: its data, or its error. */
  datatype Remote<+T> = Ok(value: T) | Err(error: StoreError)

  /** The patch `toggleTaskComplete(id, completed)` sends: `{ completed }` alone. */
  function CompletionPatch(completed: bool): (p: TaskPatch) {
    TaskPatch(None, None, Some(completed))
  }

  /**
   * The row a store that honours an update would return: the patched fields
   * overwritten, every other field as before.
   */
  function Patched(t: Task, p: TaskPatch): (r: Task)
    ensures r.id == t.id && r.userId == t.userId && r.createdAt == t.createdAt
    ensures r.title == (if p.title.Some? then p.title.value else t.title)
    ensures r.description == (if p.description.Some? then p.description.value else t.description)
    ensures r.completed == (if p.completed.Some? then p.completed.value else t.completed)
  {
    var t1 := if p.title.Some? then t.(title := p.title.value) else t;
    var t2 := if p.description.Some? then t1.(description := p.description.value) else t1;
    if p.completed.Some? then t2.(completed := p.completed.value) else t2
  }
}
