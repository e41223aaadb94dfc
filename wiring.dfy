/**
 * How the dashboard connects the components to the hook: the form's
 * `onAddTask` is `handleAddTask`, which awaits `createTask`; each card's
 * `onUpdate`, `onToggleComplete` and `onDelete` are the hook's `updateTask`,
 * `toggleTaskComplete` and `deleteTask`. Each method below runs one handler
 * to completion, with the store's answer as a parameter.
 */
module Wiring {
  import opened Wrappers
  import opened Text
  import opened Tasks
  import opened UseTasks
  import opened Form
  import opened Card

  /**
   * Submitting the new-task form. A blank title reaches neither the hook nor
   * the store and changes nothing; otherwise the store is asked to insert the
   * trimmed title and description (when someone is signed in), and the form
   * is cleared and collapsed whatever the store answered.
   */
  method SubmitNewTask(form: TaskForm, hook: TasksHook, response: Remote<Task>) returns (request: Option<NewTask>)
    modifies form, hook`tasks
    ensures IsBlank(old(form.title)) ==> unchanged(form) && unchanged(hook)
    ensures !IsBlank(old(form.title)) ==>
      form.title == "" && form.description == "" && !form.loading && !form.isExpanded
    ensures request.Some? <==> !IsBlank(old(form.title)) && hook.user.Some?
    ensures request.Some? ==>
      request.value == NewTask(hook.user.value.id, Trim(old(form.title)), Trim(old(form.description)))
    ensures hook.tasks == if request.Some? && response.Ok? then [response.value] + old(hook.tasks) else old(hook.tasks)
  {
    ghost var title, description := form.title, form.description;
    var call := form.Submit();
    if call.None? {
      return None;
    }
    assert call.value == AddCall(Trim(title), Trim(description));
    var result;
    request, result := hook.CreateTask(call.value.title, call.value.description, response);
    form.AddSettled();
  }

  /**
   * Saving a card's edit. A blank edit title changes nothing anywhere and
   * sends nothing; otherwise the store is asked to set the card's row to the
   * trimmed title and description, the hook replaces the rows with the
   * card's id by the store's answer (or keeps the list on an error) and the
   * card leaves edit mode.
   */
  method SaveCardEdit(card: TaskCard, hook: TasksHook, response: Remote<Task>) returns (request: Option<TaskUpdate>)
    modifies card`loading, card`isEditing, hook`tasks
    ensures request.None? <==> IsBlank(old(card.editTitle))
    ensures request.Some? ==>
      request.value == TaskUpdate(card.task.id,
        TaskPatch(Some(Trim(old(card.editTitle))), Some(Trim(old(card.editDescription))), None))
    ensures IsBlank(old(card.editTitle)) ==> unchanged(card) && unchanged(hook)
    ensures !IsBlank(old(card.editTitle)) ==>
      && !card.loading && !card.isEditing && card.task == old(card.task)
      && hook.tasks == (if response.Ok? then ReplaceById(old(hook.tasks), card.task.id, response.value)
                        else old(hook.tasks))
  {
    var call := card.Save();
    if call.None? {
      return None;
    }
    var update, result := hook.UpdateTask(call.value.id, call.value.updates, response);
    request := Some(update);
    card.SaveSettled();
  }

  /**
   * Toggling a card: the store is asked to set the card's row to
   * `{ completed: !task.completed }`, the hook replaces the rows with the
   * card's id by the store's answer, and the card ends idle.
   */
  method ToggleCard(card: TaskCard, hook: TasksHook, response: Remote<Task>) returns (request: TaskUpdate)
    modifies card`loading, hook`tasks
    ensures request == TaskUpdate(old(card.task).id, CompletionPatch(!old(card.task).completed))
    ensures !card.loading && card.task == old(card.task)
    ensures hook.tasks == (if response.Ok? then ReplaceById(old(hook.tasks), card.task.id, response.value)
                           else old(hook.tasks))
  {
    var call := card.ToggleComplete();
    var result;
    request, result := hook.ToggleTaskComplete(call.id, call.completed, response);
    card.ToggleSettled();
  }

  /**
   * Deleting from a card: unconfirmed, nothing changes and nothing is sent;
   * confirmed, the store is asked to delete the card's id, the card stays
   * busy and, once the store confirms, every row with that id is gone.
   */
  method DeleteFromCard(card: TaskCard, hook: TasksHook, confirmed: bool, response: Remote<()>) returns (deleted: Option<string>)
    modifies card`loading, hook`tasks
    ensures deleted == if confirmed then Some(old(card.task).id) else None
    ensures !confirmed ==> unchanged(card) && unchanged(hook)
    ensures confirmed ==>
      && card.loading && card.task == old(card.task)
      && hook.tasks == (if response.Ok? then RemoveById(old(hook.tasks), card.task.id) else old(hook.tasks))
  {
    var call := card.Delete(confirmed);
    if call.None? {
      return None;
    }
    deleted := Some(call.value.id);
    var error := hook.DeleteTask(call.value.id, response);
  }
}
