/**
  The two persistent entities of the backend, `User` and `Task`, with the
  field constraints their model classes declare and the two rules a task
  answers about itself: whether its title may still be edited and whether
  its status may be set back to NEW.

  Time is an integer count of microseconds (the resolution of Python's
  `datetime`); `now` is always a parameter.
*/
module Models {
  import opened Wrappers

  /** `Task.STATUS_CHOICES`: the stored value and its label. */
  datatype Status = New | InProgress | Completed

  const StatusChoices: seq<(string, string)> :=
    [("NEW", "New"), ("IN_PROGRESS", "In Progress"), ("COMPLETED", "Completed")]

  /** The status a task has when none is given. */
  const DefaultStatus: Status := New

  /** The value stored in the `status` column. */
  function StatusCode(s: Status): string
  {
    match s
    case New => "NEW"
    case InProgress => "IN_PROGRESS"
    case Completed => "COMPLETED"
  }

  /** `code in dict(Task.STATUS_CHOICES)`. */
  predicate IsChoice(code: string)
  {
    exists i :: 0 <= i < |StatusChoices| && StatusChoices[i].0 == code
  }

  /** The status a stored value names, if it is one of the choices. */
  function ParseStatus(code: string): (r: Option<Status>)
    ensures r.Some? <==> IsChoice(code)
    ensures r.Some? ==> StatusCode(r.value) == code
  {
    if code == "NEW" then
      assert StatusChoices[0].0 == code;
      Some(New)
    else if code == "IN_PROGRESS" then
      assert StatusChoices[1].0 == code;
      Some(InProgress)
    else if code == "COMPLETED" then
      assert StatusChoices[2].0 == code;
      Some(Completed)
    else None
  }

  /** Every status is stored as one of the choices and read back as itself. */
  lemma StatusRoundTrip(s: Status)
    ensures IsChoice(StatusCode(s)) && ParseStatus(StatusCode(s)) == Some(s)
  {
    match s
    case New => assert StatusChoices[0].0 == StatusCode(s);
    case InProgress => assert StatusChoices[1].0 == StatusCode(s);
    case Completed => assert StatusChoices[2].0 == StatusCode(s);
  }

  /** The choices are exactly the three codes. */
  lemma ChoicesAreTheThreeCodes(code: string)
    ensures IsChoice(code) <==> code in {"NEW", "IN_PROGRESS", "COMPLETED"}
  {
    if IsChoice(code) {
      var i :| 0 <= i < |StatusChoices| && StatusChoices[i].0 == code;
      assert i == 0 || i == 1 || i == 2;
    } else {
      assert ParseStatus(code).None?;
    }
  }

  datatype User = User(
    id: int,
    username: string,
    password: string,
    firstName: string,
    lastName: string,
    email: string,
    isActive: bool)

  /** The limits the `User` model declares on its fields. */
  predicate UserFieldsValid(u: User)
  {
    && 4 <= |u.username| <= 100
    && 6 <= |u.password| <= 100
    && 0 < |u.firstName| <= 30
    && |u.lastName| <= 30
  }

  /** The lengths of the user table's text columns: `username` holds 100 characters, `first_name`
      and `last_name` 30 each. The password column holds the hash, not the submitted text. */
  predicate FitsColumns(username: string, firstName: string, lastName: string)
  {
    |username| <= 100 && |firstName| <= 30 && |lastName| <= 30
  }

  /** `username` is a unique column: the comparison is exact. */
  predicate UniqueUsernames(users: seq<User>)
  {
    forall i, j :: 0 <= i < j < |users| ==> users[i].username != users[j].username
  }

  datatype Task = Task(
    id: int,
    owner: int,
    title: string,
    description: string,
    status: Status,
    createdAt: int)

  const TitleMaxLength: nat := 200

  /** `title` is a non-blank column of at most 200 characters. */
  predicate TitleValid(title: string)
  {
    0 < |title| <= TitleMaxLength
  }

  /** `unique_together = ('user', 'title')`: no two tasks of one owner share a title. */
  predicate UniqueTitles(rows: map<int, Task>)
  {
    forall a, b :: a in rows && b in rows && a != b && rows[a].owner == rows[b].owner ==>
      rows[a].title != rows[b].title
  }

  /** A new row starts NEW, may be set to NEW again, and may be renamed for exactly five
      minutes from its creation. */
  function NewTask(id: int, owner: int, title: string, description: string, now: int): (t: Task)
    ensures t.status == New && CanChangeToNew(t)
    ensures CanEditTitle(t, now) && !CanEditTitle(t, now + EditWindow)
  {
    Task(id, owner, title, description, DefaultStatus, now)
  }

  /** Five minutes in microseconds. */
  const EditWindow: int := 5 * 60 * 1000000

  /** `can_edit_title`: strictly before `created_at + 5 minutes`. */
  predicate CanEditTitle(t: Task, now: int)
  {
    now < t.createdAt + EditWindow
  }

  /** `can_change_to_new`. */
  predicate CanChangeToNew(t: Task)
  {
    t.status == New
  }

  /** The window is open at creation, closes exactly five minutes later and never reopens. */
  lemma EditWindowCloses(t: Task, now: int, later: int)
    ensures CanEditTitle(t, t.createdAt)
    ensures !CanEditTitle(t, t.createdAt + EditWindow)
    ensures !CanEditTitle(t, now) && now <= later ==> !CanEditTitle(t, later)
  {
  }
}
