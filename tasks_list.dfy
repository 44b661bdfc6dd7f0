/**
  The task list component: what it passes up when one of its cards reports a
  change, and when it shows the pagination controls.

  A card reports either the edited task or `null` for a deletion. The
  deletion branch filters with a callback that reads `updatedTask.id`, so on
  `null` it throws as soon as the callback runs on the first task.
*/
module TasksList {
  import opened Wrappers

  /** The fields of a task the client reads. */
  datatype TaskItem = TaskItem(id: int, title: string, description: string, status: string)

  /** What a property read on `null` throws. */
  datatype Thrown = NullDereference

  /** `tasks.map(task => task.id === u.id ? u : task)`. */
  function ReplaceById(tasks: seq<TaskItem>, u: TaskItem): (r: seq<TaskItem>)
    ensures |r| == |tasks|
    ensures forall i :: 0 <= i < |tasks| ==> r[i] == (if tasks[i].id == u.id then u else tasks[i])
  {
    if |tasks| == 0 then []
    else [if tasks[0].id == u.id then u else tasks[0]] + ReplaceById(tasks[1..], u)
  }

  /** `handleTaskUpdated(updatedTask)`: the list passed to the page, or the error thrown. */
  function HandleTaskUpdated(tasks: seq<TaskItem>, updated: Option<TaskItem>): Result<seq<TaskItem>, Thrown>
  {
    match updated
    case None => if |tasks| == 0 then Success([]) else Failure(NullDereference)
    case Some(u) => Success(ReplaceById(tasks, u))
  }

  /** An edit keeps the length and order: the task with the edited id is replaced, the others
      are untouched; when no id matches the list passed on is the same list. */
  lemma EditReplacesById(tasks: seq<TaskItem>, u: TaskItem)
    ensures HandleTaskUpdated(tasks, Some(u)).Success?
    ensures var r := HandleTaskUpdated(tasks, Some(u)).value;
      && |r| == |tasks|
      && (forall i :: 0 <= i < |tasks| && tasks[i].id == u.id ==> r[i] == u)
      && (forall i :: 0 <= i < |tasks| && tasks[i].id != u.id ==> r[i] == tasks[i])
      && ((forall i :: 0 <= i < |tasks| ==> tasks[i].id != u.id) ==> r == tasks)
  {
  }

  /** A deletion report throws on any non-empty list; it never passes on a shorter list. */
  lemma DeletionThrows(tasks: seq<TaskItem>)
    ensures |tasks| > 0 <==> HandleTaskUpdated(tasks, None).Failure?
    ensures HandleTaskUpdated(tasks, None).Success? ==> HandleTaskUpdated(tasks, None).value == tasks
  {
  }

  /** Whatever a card reports, the list passed up is never shorter. */
  lemma NeverShrinks(tasks: seq<TaskItem>, updated: Option<TaskItem>)
    ensures HandleTaskUpdated(tasks, updated).Success? ==> |HandleTaskUpdated(tasks, updated).value| == |tasks|
  {
  }

  /** "No tasks found" is shown for an empty list. */
  predicate ShowsEmptyMessage(tasks: seq<TaskItem>)
  {
    |tasks| == 0
  }

  /** The pagination controls are shown for a non-empty list with more than one page. */
  predicate ShowsPagination(tasks: seq<TaskItem>, totalPages: int)
  {
    !ShowsEmptyMessage(tasks) && totalPages > 1
  }

  /** The pagination bar never appears beside the empty message, and an edit passed up leaves
      both as they were: only the number of tasks and pages decides them. */
  lemma EditKeepsWhatIsShown(tasks: seq<TaskItem>, u: TaskItem, totalPages: int)
    ensures ShowsPagination(tasks, totalPages) ==> !ShowsEmptyMessage(tasks)
    ensures var r := HandleTaskUpdated(tasks, Some(u)).value;
      && ShowsEmptyMessage(r) == ShowsEmptyMessage(tasks)
      && ShowsPagination(r, totalPages) == ShowsPagination(tasks, totalPages)
  {
    EditReplacesById(tasks, u);
  }
}
