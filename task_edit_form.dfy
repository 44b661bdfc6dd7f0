/**
  The edit form of a task card. Submitting sends a PATCH holding only the
  fields that differ from the loaded task and reports the merged task;
  deleting sends a DELETE after confirmation and reports `null`.

  `apiFetch` is not called here: each handler receives what the call
  returned, or the message of what it threw, and answers the request it made.
*/
module TaskEditForm {
  import opened Wrappers
  import opened Text
  import Endpoints
  import TasksList
  import Models
  import JsonValues
  import Views
  import Fetch

  /** The three form fields. */
  datatype FormData = FormData(title: string, description: string, status: string)

  /** The request a handler makes: the PATCH with its `updates`, or the DELETE. */
  datatype Call = PatchCall(url: string, updates: map<string, string>) | DeleteCall(url: string)

  const UpdateFailed: string := "Failed to update task"
  const DeleteFailed: string := "Failed to delete task"
  /** What V8 throws when the list's filter callback reads `id` of `null`. */
  const NullReadMessage: string := "Cannot read properties of null (reading 'id')"

  /** The fields an edit names. */
  const EditableFields: set<string> := {"title", "description", "status"}

  /** The form's value of a field, and the task's. */
  function FormValue(form: FormData, field: string): string
    requires field in EditableFields
  {
    if field == "title" then form.title else if field == "description" then form.description else form.status
  }

  function TaskValue(task: TasksList.TaskItem, field: string): string
    requires field in EditableFields
  {
    if field == "title" then task.title else if field == "description" then task.description else task.status
  }

  /** The `updates` object: exactly the fields whose form value differs from the task's,
      each with the form's value. */
  function Diff(task: TasksList.TaskItem, form: FormData): (r: map<string, string>)
    ensures r.Keys <= EditableFields
    ensures forall f :: f in EditableFields ==> (f in r <==> FormValue(form, f) != TaskValue(task, f))
    ensures forall f :: f in r ==> r[f] == FormValue(form, f)
  {
    map f | f in EditableFields && FormValue(form, f) != TaskValue(task, f) :: FormValue(form, f)
  }

  /** The three conditional assignments building `updates`. */
  method ComputeUpdates(task: TasksList.TaskItem, form: FormData) returns (updates: map<string, string>)
    ensures updates == Diff(task, form)
  {
    updates := map[];
    if form.title != task.title {
      updates := updates["title" := form.title];
    }
    if form.description != task.description {
      updates := updates["description" := form.description];
    }
    if form.status != task.status {
      updates := updates["status" := form.status];
    }
  }

  /** `{ ...task, ...updates }`: the task with the fields of `updates` overridden. */
  function Merge(task: TasksList.TaskItem, updates: map<string, string>): TasksList.TaskItem
  {
    TasksList.TaskItem(
      task.id,
      if "title" in updates then updates["title"] else task.title,
      if "description" in updates then updates["description"] else task.description,
      if "status" in updates then updates["status"] else task.status)
  }

  /** Merging the diff gives the task as the form shows it, under the task's own id. */
  lemma MergeDiffIsForm(task: TasksList.TaskItem, form: FormData)
    ensures Merge(task, Diff(task, form)) == TasksList.TaskItem(task.id, form.title, form.description, form.status)
  {
    assert FormValue(form, "title") == form.title;
    assert FormValue(form, "description") == form.description;
    assert FormValue(form, "status") == form.status;
  }

  /** The diff is empty exactly when the form still shows the task. */
  lemma EmptyDiffIffUnchanged(task: TasksList.TaskItem, form: FormData)
    ensures |Diff(task, form)| == 0 <==>
      form.title == task.title && form.description == task.description && form.status == task.status
  {
    var d := Diff(task, form);
    if form.title != task.title { assert "title" in d; }
    if form.description != task.description { assert "description" in d; }
    if form.status != task.status { assert "status" in d; }
    if |d| != 0 {
      var f :| f in d;
      assert FormValue(form, f) != TaskValue(task, f);
    }
  }

  /** The statuses the select offers: NEW only while the task is new. */
  function StatusOptions(current: string): (r: seq<string>)
    ensures "IN_PROGRESS" in r && "COMPLETED" in r
    ensures "NEW" in r <==> current == "NEW"
  {
    (if current == "NEW" then ["NEW"] else []) + ["IN_PROGRESS", "COMPLETED"]
  }

  /** The options offered for a stored task are exactly the values `update_status` accepts
      for it. */
  lemma OptionsMatchStatusRule(t: Models.Task, option: string)
    ensures option in StatusOptions(Models.StatusCode(t.status)) <==>
      Views.StatusChange(t, JsonValues.Str(option)).Ok?
  {
    Views.StatusChangeRules(t, JsonValues.Str(option));
    Models.ChoicesAreTheThreeCodes(option);
  }

  /** The options of the DELETE: `{ method: 'DELETE' }`. */
  const DeleteOptions: Fetch.Options := Fetch.Options(Some("DELETE"), map[], JsonValues.Undefined)

  /** The task API's `destroy` answers 204, which `fetch` hands over without a body, so
      `response.json()` rejects. The DELETE's `apiFetch` therefore throws after its one request
      although the task is gone, so the form receives a failure and `onTaskUpdated(null)` is
      never reached. */
  lemma DeletionAnswerThrows(base: string, token: Option<string>, id: int, rest: seq<Fetch.Reply>, fuel: nat)
    requires fuel > 0
    ensures var url := Some(Endpoints.TaskById(base, IntToString(id)));
      var run := Fetch.ApiFetchRun(base, token, url, DeleteOptions, [Fetch.Reply(204, None)] + rest, fuel);
      && run.result == Failure(Fetch.InvalidBody)
      && run.sent == [Fetch.ApiRequest(token, url, DeleteOptions)]
      && run.token == token && run.rest == rest
  {
    assert ([Fetch.Reply(204, None)] + rest)[1..] == rest;
  }

  class EditForm {
    const task: TasksList.TaskItem
    var formData: FormData
    var error: Option<string>
    var isSubmitting: bool

    constructor (task: TasksList.TaskItem, initial: FormData)
      ensures this.task == task && formData == initial && error.None? && !isSubmitting
    {
      this.task := task;
      formData := initial;
      error := None;
      isSubmitting := false;
    }

    /** `handleSubmit` once the PATCH, if one is made, has answered with `patchOutcome`:
        the request made, the task passed to `onTaskUpdated`, and whether `onCancel` ran. */
    method HandleSubmit(base: string, patchOutcome: Result<JsonValues.Json, string>)
      returns (call: Option<Call>, reported: Option<TasksList.TaskItem>, cancelled: bool)
      modifies this
      ensures var updates := Diff(task, formData);
        && (call.Some? <==> |updates| > 0)
        && (call.Some? ==> call.value == PatchCall(Endpoints.TaskById(base, IntToString(task.id)), updates))
        && (|updates| == 0 ==> reported.None? && cancelled && error.None?)
        && (|updates| > 0 && patchOutcome.Success? ==>
              reported == Some(Merge(task, updates)) && cancelled && error.None?)
        && (|updates| > 0 && patchOutcome.Failure? ==>
              reported.None? && !cancelled
              && error == Some(if patchOutcome.error != "" then patchOutcome.error else UpdateFailed))
      ensures !isSubmitting && formData == old(formData)
    {
      isSubmitting := true;
      error := None;
      reported := None;
      cancelled := false;
      var updates := ComputeUpdates(task, formData);
      if |updates| > 0 {
        call := Some(PatchCall(Endpoints.TaskById(base, IntToString(task.id)), updates));
        match patchOutcome {
          case Failure(message) =>
            error := Some(if message != "" then message else UpdateFailed);
          case Success(_) =>
            reported := Some(Merge(task, updates));
            cancelled := true;
        }
      } else {
        call := None;
        cancelled := true;
      }
      isSubmitting := false;
    }

    /** `handleDelete`: `confirmed` is the answer to the confirmation dialog, `deleteOutcome`
        what the DELETE answered, and `listTasks` the tasks of a list whose `handleTaskUpdated`
        is taken to be `onTaskUpdated`. Answers the request made and the list passed on. */
    method HandleDelete(base: string, confirmed: bool, deleteOutcome: Result<JsonValues.Json, string>,
                        listTasks: seq<TasksList.TaskItem>)
      returns (call: Option<Call>, passedOn: Option<seq<TasksList.TaskItem>>)
      modifies this
      ensures call.Some? <==> confirmed
      ensures call.Some? ==> call.value == DeleteCall(Endpoints.TaskById(base, IntToString(task.id)))
      ensures !confirmed ==> passedOn.None? && error == old(error)
      ensures confirmed && deleteOutcome.Failure? ==>
        passedOn.None? && error == Some(if deleteOutcome.error != "" then deleteOutcome.error else DeleteFailed)
      ensures confirmed && deleteOutcome.Success? && |listTasks| > 0 ==>
        passedOn.None? && error == Some(NullReadMessage)
      ensures confirmed && deleteOutcome.Success? && |listTasks| == 0 ==>
        passedOn == Some([]) && error == old(error)
      ensures formData == old(formData) && isSubmitting == old(isSubmitting)
    {
      passedOn := None;
      if !confirmed {
        return None, None;
      }
      call := Some(DeleteCall(Endpoints.TaskById(base, IntToString(task.id))));
      match deleteOutcome {
        case Failure(message) =>
          error := Some(if message != "" then message else DeleteFailed);
        case Success(_) =>
          var listed := TasksList.HandleTaskUpdated(listTasks, None);
          if listed.Success? {
            passedOn := Some(listed.value);
          } else {
            error := Some(NullReadMessage);
          }
      }
    }
  }

  /** Were the form's report passed to the task list, a successful submit would replace the
      edited task in place with the values the form shows, leaving every other task untouched. */
  lemma SubmitShowsFormInList(tasks: seq<TasksList.TaskItem>, task: TasksList.TaskItem, form: FormData, i: int)
    requires 0 <= i < |tasks|
    ensures var r := TasksList.HandleTaskUpdated(tasks, Some(Merge(task, Diff(task, form))));
      && r.Success? && |r.value| == |tasks|
      && (tasks[i].id == task.id ==>
            r.value[i] == TasksList.TaskItem(task.id, form.title, form.description, form.status))
      && (tasks[i].id != task.id ==> r.value[i] == tasks[i])
  {
    MergeDiffIsForm(task, form);
    TasksList.EditReplacesById(tasks, Merge(task, Diff(task, form)));
  }
}
