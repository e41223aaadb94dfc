/**
 * The `TaskCard` component: one task's card, with its edit fields, its busy
 * flag and its handlers. Handlers that change state on both sides of an
 * `await` are split there: `Save`/`SaveSettled` and
 * `ToggleComplete`/`ToggleSettled`. The browser's confirmation dialog is the
 * `confirmed` argument of `Delete`.
 */
module Card {
  import opened Wrappers
  import opened Text
  import opened Tasks

  /** A call the card makes to the callbacks it was given. */
  datatype CardCall =
    | OnUpdate(id: string, updates: TaskPatch)       // `onUpdate(id, updates)`
    | OnToggleComplete(id: string, completed: bool)  // `onToggleComplete(id, completed)`
    | OnDelete(id: string)                           // `onDelete(id)`

  class TaskCard {
    var task: Task
    var isEditing: bool
    var editTitle: string
    var editDescription: string
    var loading: bool

    /** A new card starts idle, not editing, with the edit fields set from the task. */
    constructor (t: Task)
      ensures task == t && !isEditing && !loading
      ensures editTitle == t.title && editDescription == t.description
    {
      task := t;
      isEditing := false;
      editTitle := t.title;
      editDescription := t.description;
      loading := false;
    }

    /**
     * A re-render with a newer version of the same task (the card is keyed by
     * the task's id). The edit fields keep their values: they were set from
     * the task only when the card was created.
     */
    method ReceiveTask(t: Task)
      requires t.id == task.id
      modifies this`task
      ensures task == t
    {
      task := t;
    }

    /** The Edit button. */
    method StartEditing()
      modifies this`isEditing
      ensures isEditing
    {
      isEditing := true;
    }

    /** The title input's `onChange`. */
    method ChangeTitle(value: string)
      modifies this`editTitle
      ensures editTitle == value
    {
      editTitle := value;
    }

    /** The description textarea's `onChange`. */
    method ChangeDescription(value: string)
      modifies this`editDescription
      ensures editDescription == value
    {
      editDescription := value;
    }

    /**
     * The Save button's enabling condition `!(loading || !editTitle.trim())`:
     * the card is idle and the edit title holds a non-whitespace character.
     */
    predicate SaveEnabled(): (enabled: bool)
      reads this
      ensures enabled <==> !loading && exists i :: 0 <= i < |editTitle| && !IsWhitespace(editTitle[i])
    {
      BlankIffAllWhitespace(editTitle);
      !loading && !IsBlank(editTitle)
    }

    /**
     * `handleSave` up to its `await`. A blank edit title makes no call and
     * changes nothing. Otherwise loading is set and `onUpdate` receives the
     * task's id with exactly two fields: the trimmed title and the trimmed
     * description; the completion flag is not sent.
     */
    method Save() returns (call: Option<CardCall>)
      modifies this`loading
      ensures call.None? <==> IsBlank(editTitle)
      ensures call.None? ==> loading == old(loading)
      ensures call.Some? ==> loading
      ensures call.Some? ==> call.value == OnUpdate(task.id, TaskPatch(Some(Trim(editTitle)), Some(Trim(editDescription)), None))
    {
      if IsBlank(editTitle) {
        return None;
      }
      loading := true;
      call := Some(OnUpdate(task.id, TaskPatch(Some(Trim(editTitle)), Some(Trim(editDescription)), None)));
    }

    /** `handleSave` after `onUpdate` has finished: loading ends and editing ends. */
    method SaveSettled()
      modifies this`loading, this`isEditing
      ensures !loading && !isEditing
    {
      loading := false;
      isEditing := false;
    }

    /**
     * `handleCancel`: the edit fields go back to the task's current title and
     * description, and editing ends.
     */
    method Cancel()
      modifies this`editTitle, this`editDescription, this`isEditing
      ensures editTitle == task.title && editDescription == task.description && !isEditing
    {
      editTitle := task.title;
      editDescription := task.description;
      isEditing := false;
    }

    /**
     * `handleToggleComplete` up to its `await`: loading is set and
     * `onToggleComplete` receives the task's id and the opposite of its
     * current completion.
     */
    method ToggleComplete() returns (call: CardCall)
      modifies this`loading
      ensures loading
      ensures call == OnToggleComplete(task.id, !task.completed)
    {
      loading := true;
      call := OnToggleComplete(task.id, !task.completed);
    }

    /** `handleToggleComplete` after `onToggleComplete` has finished: loading ends. */
    method ToggleSettled()
      modifies this`loading
      ensures !loading
    {
      loading := false;
    }

    /**
     * `handleDelete`: without confirmation nothing is called and nothing
     * changes; with it, loading is set and `onDelete` receives the task's id.
     * Nothing ever clears loading afterwards.
     */
    method Delete(confirmed: bool) returns (call: Option<CardCall>)
      modifies this`loading
      ensures !confirmed ==> call.None? && loading == old(loading)
      ensures confirmed ==> loading && call == Some(OnDelete(task.id))
    {
      if confirmed {
        loading := true;
        call := Some(OnDelete(task.id));
      } else {
        call := None;
      }
    }
  }
}
