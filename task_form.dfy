/**
 * The `TaskForm` component: the new-task form's fields and its handlers.
 * `handleSubmit` is split at its `await`: `Submit` runs up to the call of
 * `onAddTask`, `AddSettled` runs once that call has finished.
 */
module Form {
  import opened Wrappers
  import opened Text

  /** A call `onAddTask(title, description)`. */
  datatype AddCall = AddCall(title: string, description: string)

  class TaskForm {
    var title: string
    var description: string
    var loading: bool
    var isExpanded: bool

    /** An empty, collapsed, idle form. */
    constructor ()
      ensures title == "" && description == "" && !loading && !isExpanded
    {
      title := "";
      description := "";
      loading := false;
      isExpanded := false;
    }

    /** The title input's `onChange`. */
    method ChangeTitle(value: string)
      modifies this`title
      ensures title == value
    {
      title := value;
    }

    /** The description textarea's `onChange`. */
    method ChangeDescription(value: string)
      modifies this`description
      ensures description == value
    {
      description := value;
    }

    /** Focusing the title input expands the form. */
    method Focus()
      modifies this`isExpanded
      ensures isExpanded
    {
      isExpanded := true;
    }

    /**
     * The submit button's enabling condition `!(loading || !title.trim())`:
     * the form is idle and the title holds a non-whitespace character.
     */
    predicate SubmitEnabled(): (enabled: bool)
      reads this
      ensures enabled <==> !loading && exists i :: 0 <= i < |title| && !IsWhitespace(title[i])
    {
      BlankIffAllWhitespace(title);
      !loading && !IsBlank(title)
    }

    /**
     * `handleSubmit` up to its `await`. A blank title makes no call and
     * changes nothing. Otherwise loading is set and `onAddTask` receives the
     * trimmed title, which is non-empty and has no whitespace at either end,
     * and the trimmed description.
     */
    method Submit() returns (call: Option<AddCall>)
      modifies this`loading
      ensures call.None? <==> IsBlank(title)
      ensures call.None? ==> loading == old(loading)
      ensures call.Some? ==> loading && call.value == AddCall(Trim(title), Trim(description))
      ensures call.Some? ==> call.value.title != [] && IsTrimmed(call.value.title)
    {
      if IsBlank(title) {
        return None;
      }
      loading := true;
      call := Some(AddCall(Trim(title), Trim(description)));
    }

    /**
     * `handleSubmit` after `onAddTask` has finished, whatever it did: the
     * fields are cleared, loading ends and the form collapses.
     */
    method AddSettled()
      modifies this
      ensures title == "" && description == "" && !loading && !isExpanded
    {
      title := "";
      description := "";
      loading := false;
      isExpanded := false;
    }

    /** The Cancel button: collapse the form and clear both fields; loading is untouched. */
    method Cancel()
      modifies this`isExpanded, this`title, this`description
      ensures !isExpanded && title == "" && description == ""
    {
      isExpanded := false;
      title := "";
      description := "";
    }
  }
}
