/**
 * The `Dashboard` component's derived values: the tasks the active filter
 * shows, the per-filter counts shown on the filter bar, and which of the
 * loading spinner, the empty-state message or the task cards is rendered.
 */
module Dashboard {
  import opened Seqs
  import opened Tasks

  /** `FilterType`: `'all' | 'pending' | 'completed'`. */
  datatype FilterType = All | Pending | Completed

  predicate IsPending(t: Task) { !t.completed }

  predicate IsCompleted(t: Task) { t.completed }

  /** Whether a filter's view includes a task. */
  predicate Shows(f: FilterType, t: Task) {
    match f
    case All => true
    case Pending => IsPending(t)
    case Completed => IsCompleted(t)
  }

  /**
   * `filteredTasks`: the tasks the filter shows, in list order; the `all`
   * filter hands back the list itself.
   */
  function FilteredTasks(ts: seq<Task>, f: FilterType): (r: seq<Task>)
    ensures f == All ==> r == ts
    ensures IsSubsequence(r, ts)
    ensures forall t :: t in r <==> t in ts && Shows(f, t)
  {
    match f
    case Pending => FilterIsSubsequence(ts, IsPending); Filter(ts, IsPending)
    case Completed => FilterIsSubsequence(ts, IsCompleted); Filter(ts, IsCompleted)
    case All => SubsequenceReflexive(ts); ts
  }

  /** `taskCounts`. */
  datatype Counts = Counts(all: nat, pending: nat, completed: nat)

  /** The counts shown beside each filter: list length, pending and completed tasks. */
  function TaskCounts(ts: seq<Task>): (c: Counts)
    ensures c.all == |ts|
    ensures c.pending + c.completed == c.all
  {
    FilterComplement(ts, IsPending, IsCompleted);
    Counts(|ts|, |Filter(ts, IsPending)|, |Filter(ts, IsCompleted)|)
  }

  /** The count the filter bar shows beside filter `f`. */
  function CountFor(c: Counts, f: FilterType): (n: nat) {
    match f
    case All => c.all
    case Pending => c.pending
    case Completed => c.completed
  }

  /**
   * The pending and completed views split the list: no task is in both,
   * every task is in one of them, and their sizes add up to the list's.
   */
  lemma PendingCompletedPartition(ts: seq<Task>)
    ensures forall t :: t in FilteredTasks(ts, Pending) ==> t !in FilteredTasks(ts, Completed)
    ensures forall t :: t in ts ==> t in FilteredTasks(ts, Pending) || t in FilteredTasks(ts, Completed)
    ensures |FilteredTasks(ts, Pending)| + |FilteredTasks(ts, Completed)| == |ts|
  {
    FilterComplement(ts, IsPending, IsCompleted);
  }

  /** Whatever the filter, the view is as long as the count shown beside that filter. */
  lemma VisibleMatchesCount(ts: seq<Task>, f: FilterType)
    ensures |FilteredTasks(ts, f)| == CountFor(TaskCounts(ts), f)
  {
  }

  /**
   * Marking the pending task at position `k` as completed moves one task
   * from the pending count to the completed count.
   */
  lemma CompletingShiftsCounts(ts: seq<Task>, k: nat)
    requires k < |ts| && !ts[k].completed
    ensures var after := TaskCounts(ts[k := ts[k].(completed := true)]);
      && after.all == TaskCounts(ts).all
      && after.pending + 1 == TaskCounts(ts).pending
      && after.completed == TaskCounts(ts).completed + 1
  {
    var done := ts[k].(completed := true);
    var ts' := ts[k := done];
    assert ts == ts[..k] + [ts[k]] + ts[k + 1..];
    assert ts' == ts[..k] + [done] + ts[k + 1..];
    FilterConcat(ts[..k] + [ts[k]], ts[k + 1..], IsPending);
    FilterConcat(ts[..k], [ts[k]], IsPending);
    FilterConcat(ts[..k] + [done], ts[k + 1..], IsPending);
    FilterConcat(ts[..k], [done], IsPending);
    assert Filter([ts[k]], IsPending) == [ts[k]];
    assert Filter([done], IsPending) == [];
  }

  /**
   * The empty-state heading and text for each filter: a fixed pair per
   * filter, whose heading names the filter it belongs to.
   */
  function EmptyMessage(f: FilterType): (m: (string, string))
    ensures f == All <==> m.0 == "No tasks yet"
    ensures f == Pending <==> m.0 == "No pending tasks"
    ensures f == Completed <==> m.0 == "No completed tasks"
  {
    match f
    case All => ("No tasks yet", "Create your first task to get started!")
    case Pending => ("No pending tasks", "All your tasks are completed!")
    case Completed => ("No completed tasks", "Complete some tasks to see them here.")
  }

  /** What the dashboard's body renders. */
  datatype Screen =
    | Spinner
    | EmptyState(heading: string, text: string)
    | Cards(visible: seq<Task>)

  /**
   * The spinner while loading; otherwise the empty-state message of the
   * active filter when its view is empty, else one card per shown task.
   */
  function Render(loading: bool, ts: seq<Task>, f: FilterType): (s: Screen)
    ensures s.Spinner? <==> loading
    ensures s.EmptyState? <==> !loading && FilteredTasks(ts, f) == []
    ensures s.EmptyState? ==> (s.heading, s.text) == EmptyMessage(f)
    ensures s.Cards? ==> s.visible == FilteredTasks(ts, f) && s.visible != []
  {
    if loading then Spinner
    else if |FilteredTasks(ts, f)| == 0 then EmptyState(EmptyMessage(f).0, EmptyMessage(f).1)
    else Cards(FilteredTasks(ts, f))
  }

  /**
   * Each empty-state message tells the truth about the list: "No tasks yet"
   * only when there are none, "All your tasks are completed!" only when no
   * task is pending, "No completed tasks" only when none is completed.
   */
  lemma EmptyStateIsTruthful(ts: seq<Task>, f: FilterType)
    requires Render(false, ts, f).EmptyState?
    ensures f == All ==> ts == []
    ensures f == Pending ==> forall t :: t in ts ==> t.completed
    ensures f == Completed ==> forall t :: t in ts ==> !t.completed
  {
  }
}
