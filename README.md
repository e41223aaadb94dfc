# TaskFlow task list — a Dafny model

TaskFlow is a small to-do web application. A signed-in user sees their tasks,
adds tasks through a form, edits, completes and deletes them on per-task
cards, and filters the list into all, pending and completed views. The tasks
live in a hosted `tasks` table; the client keeps a local copy of the list in
the `useTasks` hook and changes it after each remote call returns.

This project models the logic-bearing part of the application:

- `useTasks` (module `UseTasks`): the hook's state (`tasks`, `loading`, the
  signed-in user) as class `TasksHook`, and the three list operations it applies
  after a successful remote call (prepend the inserted row, replace rows by id,
  drop rows by id), with lemmas about them.
- `Dashboard` (module `Dashboard`): the filtered view, the three counts, and
  the choice between spinner, empty-state message and task cards, as pure
  functions.
- `TaskForm` (module `Form`) and `TaskCard` (module `Card`): the per-component
  state and its event handlers, as classes.
- The dashboard's wiring of form and cards to the hook (module `Wiring`).
- Supporting modules: `Text` (JavaScript's `String.prototype.trim`), `Seqs`
  (order-preserving filter, subsequences), `Tasks` (the table's row, the
  partial update, the store's answer), `Wrappers` (`Option`).

Modelling conventions:

- A remote call is not executed: its answer (`Ok(data)` or `Err(error)`) is a
  parameter of the operation that issues it. Where it matters whether a call
  is made at all, the request is an out-parameter (`None` = no call).
- A handler that changes state both before and after an `await` is split at
  that `await` into two methods (`BeginFetch`/`FinishFetch`,
  `Submit`/`AddSettled`, `Save`/`SaveSettled`, `ToggleComplete`/`ToggleSettled`),
  so that the state while the call is in flight is visible. Handlers that
  change state only after their `await` are one method.
- A callback a component receives (`onAddTask`, `onUpdate`,
  `onToggleComplete`, `onDelete`) is returned as a call value; module `Wiring`
  feeds those values to the hook.
- The browser's `confirm` dialog is the boolean `confirmed`.
- Whitespace for `trim` is ECMAScript's WhiteSpace and LineTerminator set:
  tab, line feed, vertical tab, form feed, carriage return, the byte order
  mark, the Unicode space separators and U+2028/U+2029.

Two behaviours of the code a reader might not expect:

- A failed fetch leaves the list as it was. It is not emptied
  (src/hooks/useTasks.ts:27-30).
- `createTask` does not reject a blank title. Only the form does that
  (src/hooks/useTasks.ts:36-48, src/components/TaskForm.tsx:16).

## Model

| member | source | states |
|---|---|---|
| `Text.TrimStartSpec` | src/components/TaskForm.tsx:19 | removing leading whitespace leaves a suffix that does not start with whitespace, and only whitespace was removed |
| `Text.TrimEndSpec` | src/components/TaskForm.tsx:19 | removing trailing whitespace leaves a prefix that does not end with whitespace, and only whitespace was removed |
| `Text.Trim` | src/components/TaskForm.tsx:19 | `trim()` never leaves whitespace at either end and never lengthens the string |
| `Text.TrimIsSlice` | src/components/TaskForm.tsx:19 | `trim()` keeps one contiguous slice of the input; everything it removes before and after that slice is whitespace |
| `Text.BlankIffAllWhitespace` | src/components/TaskForm.tsx:16 | `!s.trim()` holds exactly when every character of `s` is whitespace |
| `Text.TrimOfTrimmed` | src/components/TaskCard.tsx:23-24 | a string with no whitespace at either end is its own trim |
| `Text.TrimIdempotent` | src/components/TaskCard.tsx:23-24 | trimming an already trimmed title changes nothing |
| `Seqs.Filter` | src/components/Dashboard.tsx:17-19 | `filter` keeps exactly the elements that satisfy the predicate and never lengthens the list |
| `Seqs.FilterIsSubsequence` | src/components/Dashboard.tsx:14-23 | `filter` keeps its survivors in their original relative order |
| `Seqs.FilterComplement` | src/components/Dashboard.tsx:27-28 | filtering by a predicate and by its negation splits a list into two disjoint parts whose lengths add up to the whole |
| `Seqs.FilterIdempotent` | src/hooks/useTasks.ts:87 | filtering twice with the same predicate is filtering once |
| `UseTasks.ReplaceById` | src/hooks/useTasks.ts:71 | the update keeps the length; each row with the id becomes the returned row, every other row stays as it was |
| `UseTasks.RemoveById` | src/hooks/useTasks.ts:87 | the delete keeps exactly the rows without the id, every copy of each, in their original order: its length is the input's less the rows with the id |
| `UseTasks.ReplaceAbsentIsIdentity` | src/hooks/useTasks.ts:71 | an update whose id matches no row leaves the list unchanged |
| `UseTasks.ReplaceIdempotent` | src/hooks/useTasks.ts:71 | applying the same successful update twice equals applying it once |
| `UseTasks.ReplaceUniqueIsPointUpdate` | src/hooks/useTasks.ts:71 | with unique ids, the update changes the one position holding the id and nothing else |
| `UseTasks.ToggleChangesOnlyCompletion` | src/hooks/useTasks.ts:95-97 | when the store applies `{ completed }` faithfully, the list changes only in the toggled row's `completed` field |
| `UseTasks.ReplacePreservesUniqueIds` | src/hooks/useTasks.ts:71 | an update that returns a row with the same id keeps ids unique |
| `UseTasks.DeleteAfterUpdate` | src/hooks/useTasks.ts:71-87 | deleting an id after updating it equals deleting it directly |
| `UseTasks.DeleteIdempotent` | src/hooks/useTasks.ts:87 | deleting the same id twice equals deleting it once |
| `UseTasks.DeleteAbsentIsIdentity` | src/hooks/useTasks.ts:87 | deleting an id no row carries leaves the list unchanged |
| `UseTasks.DeleteUniqueRemovesOne` | src/hooks/useTasks.ts:87 | with unique ids, deleting a present id removes exactly that one row; the rows before and after it keep their places |
| `UseTasks.CreateKeepsIdsUnique` | src/hooks/useTasks.ts:53 | prepending a row whose id is new keeps ids unique |
| `UseTasks.CreateThenDelete` | src/hooks/useTasks.ts:53-87 | deleting the id of a row just prepended, when that id was new, restores the previous list |
| `UseTasks.TasksHook.constructor` | src/hooks/useTasks.ts:6-7 | the hook starts with an empty list and `loading` true |
| `UseTasks.TasksHook.OnUserChange` | src/hooks/useTasks.ts:10-17 | with a user a fetch starts (`loading` true); without one the list is emptied and `loading` is false, with no fetch issued |
| `UseTasks.TasksHook.BeginFetch` | src/hooks/useTasks.ts:19-21 | `loading` is true while the select is in flight |
| `UseTasks.TasksHook.FinishFetch` | src/hooks/useTasks.ts:22-33 | on success the list becomes the returned rows, or empty when the data is null; on error it is unchanged; `loading` ends false either way |
| `UseTasks.TasksHook.CreateTask` | src/hooks/useTasks.ts:36-58 | no user: no insert, nothing returned, nothing changed; otherwise the insert carries exactly owner, title and description (default `''`); success prepends the row and returns it; failure keeps the list and returns the error |
| `UseTasks.TasksHook.UpdateTask` | src/hooks/useTasks.ts:61-77 | the request carries the id and the fields exactly as given; success replaces the rows with the id by the returned row and returns it; failure keeps the list and returns the error |
| `UseTasks.TasksHook.ToggleTaskComplete` | src/hooks/useTasks.ts:95-97 | the request is the id with `{ completed }` as the only field; the list changes exactly as `updateTask` changes it |
| `UseTasks.TasksHook.DeleteTask` | src/hooks/useTasks.ts:79-93 | success drops every row with the id; failure keeps the list and returns the error |
| `Dashboard.FilteredTasks` | src/components/Dashboard.tsx:14-23 | `all` gives the list itself; `pending` and `completed` give exactly the tasks with that completion; every view is a subsequence of the list |
| `Dashboard.TaskCounts` | src/components/Dashboard.tsx:25-29 | `all` is the list length, and `pending + completed == all` |
| `Dashboard.PendingCompletedPartition` | src/components/Dashboard.tsx:25-29 | the pending and completed views are disjoint, cover the list, and their lengths add up to its length |
| `Dashboard.VisibleMatchesCount` | src/components/Dashboard.tsx:14-29 | for every filter, the number of tasks shown equals the count shown beside that filter |
| `Dashboard.CompletingShiftsCounts` | src/components/Dashboard.tsx:25-29 | completing one pending task moves one from the pending count to the completed count, total unchanged |
| `Dashboard.EmptyMessage` | src/components/Dashboard.tsx:96-103 | each filter has its own fixed heading and text, and the heading identifies the filter |
| `Dashboard.Render` | src/components/Dashboard.tsx:39-116 | spinner exactly while loading; else the active filter's empty-state heading and text exactly when the filtered view is empty; else one card per shown task |
| `Dashboard.EmptyStateIsTruthful` | src/components/Dashboard.tsx:96-103 | each empty-state message is true of the list: no tasks at all, no pending task, no completed task |
| `Form.TaskForm.constructor` | src/components/TaskForm.tsx:9-12 | the form starts empty, idle and collapsed |
| `Form.TaskForm.ChangeTitle` | src/components/TaskForm.tsx:36 | typing sets the title |
| `Form.TaskForm.ChangeDescription` | src/components/TaskForm.tsx:48 | typing sets the description |
| `Form.TaskForm.Focus` | src/components/TaskForm.tsx:37 | focusing the title input expands the form |
| `Form.TaskForm.SubmitEnabled` | src/components/TaskForm.tsx:67 | submit is enabled exactly when not loading and the title has a non-whitespace character |
| `Form.TaskForm.Submit` | src/components/TaskForm.tsx:14-19 | a blank title makes no call and changes nothing; otherwise `loading` is true and `onAddTask` gets the trimmed title (non-empty, trimmed) and the trimmed description |
| `Form.TaskForm.AddSettled` | src/components/TaskForm.tsx:20-23 | after the add, title and description are empty, `loading` and `isExpanded` false |
| `Form.TaskForm.Cancel` | src/components/TaskForm.tsx:56-60 | Cancel collapses the form and clears both fields |
| `Card.TaskCard.constructor` | src/components/TaskCard.tsx:13-16 | a card starts idle, not editing, with edit fields copied from the task |
| `Card.TaskCard.ReceiveTask` | src/components/TaskCard.tsx:12-16 | a newer version of the same task replaces the card's task; the edit fields keep their values |
| `Card.TaskCard.StartEditing` | src/components/TaskCard.tsx:108 | the Edit button enters edit mode |
| `Card.TaskCard.ChangeTitle` | src/components/TaskCard.tsx:59 | typing sets the edit title |
| `Card.TaskCard.ChangeDescription` | src/components/TaskCard.tsx:65 | typing sets the edit description |
| `Card.TaskCard.SaveEnabled` | src/components/TaskCard.tsx:73 | Save is enabled exactly when not loading and the edit title has a non-whitespace character |
| `Card.TaskCard.Save` | src/components/TaskCard.tsx:18-25 | a blank edit title makes no call and changes nothing; otherwise `loading` is true and `onUpdate(task.id, …)` gets exactly the trimmed title and trimmed description |
| `Card.TaskCard.SaveSettled` | src/components/TaskCard.tsx:26-27 | after the update, `loading` and `isEditing` are false |
| `Card.TaskCard.Cancel` | src/components/TaskCard.tsx:30-34 | the edit fields return to the task's current title and description, and editing ends |
| `Card.TaskCard.ToggleComplete` | src/components/TaskCard.tsx:36-38 | `loading` is true and `onToggleComplete` gets the task's id and the negation of its completion |
| `Card.TaskCard.ToggleSettled` | src/components/TaskCard.tsx:39 | after the toggle, `loading` is false |
| `Card.TaskCard.Delete` | src/components/TaskCard.tsx:42-47 | unconfirmed: no call, `loading` unchanged; confirmed: `loading` true and `onDelete(task.id)`; nothing resets `loading`, so after a failed delete the card stays busy |
| `Wiring.SubmitNewTask` | src/components/Dashboard.tsx:35-37 | a whitespace-only title reaches neither hook nor store and changes nothing; otherwise the insert carries the trimmed fields, a success prepends the row, and the form is reset whatever the answer |
| `Wiring.SaveCardEdit` | src/components/Dashboard.tsx:113 | a blank edit sends nothing and changes nothing; otherwise the store is asked to set the card's id to the trimmed title and description (completion untouched), the hook replaces the card's row by the store's answer and the card leaves edit mode; only the card's `loading` and `isEditing` and the hook's list may change |
| `Wiring.ToggleCard` | src/components/Dashboard.tsx:112 | the store is asked to set the card's id to `{ completed: !task.completed }`, the hook replaces the card's row by the store's answer, and the card ends idle; only the card's `loading` and the hook's list may change |
| `Wiring.DeleteFromCard` | src/components/Dashboard.tsx:114 | unconfirmed, nothing is sent and nothing changes; confirmed, the store is asked to delete the card's id, the card stays busy and a confirmed delete drops the card's row; only the card's `loading` and the hook's list may change |

## Left out

- The hosted database's client library (`from`, `select`, `order`, `insert`,
  `update`, `eq`, `delete`, `single`) is not part of this model. Each call is
  represented only by its answer. That the select orders rows by `created_at`
  newest first is the store's business and is not checked.
- `useAuth`, `signOut` and `../lib/supabase` (where `Task` is declared) are not
  part of this model. `Task` is declared here with the fields the components
  read, and the user is the input of `OnUserChange`.
- React's machinery (`useState`, `useEffect`'s dependency tracking,
  `useMemo`, re-rendering) is left out. Concurrent handlers and the
  interleaving of in-flight requests are left out too: each handler runs as
  the steps described above, one at a time.
- The `disabled={loading}` attributes of the toggle and delete buttons
  (src/components/TaskCard.tsx:97, 116) are not separate members. They are the
  card's `loading` field.
- All JSX and CSS rendering, including src/components/TaskFilter.tsx, which
  only maps the three filters and their counts to buttons. Dates formatted
  with `toLocaleDateString` are left out.
- `console.error` logging, and the wording of the dialog `confirm` shows.
- What the store returns is outside the model: `UseTasks.ToggleChangesOnlyCompletion`
  assumes that the store returns the old row
  with only `completed` changed.
