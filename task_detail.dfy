/**
 * The task page (`TaskDetail.tsx`): it fetches one task, accepts it bare or
 * wrapped under `task`, and renders a spinner, an error, "Task not found" or
 * the task.
 */
module TaskDetail {
  import opened Js
  import Display

  /** `data.task || data`: the wrapped task when it is truthy, otherwise the payload itself. */
  function UnwrapTask(data: Json): (r: Result<Json>)
    ensures r.Err? <==> data.Nullish()
    ensures r.Ok? && data.Obj? && "task" in data.fields && Truthy(data.fields["task"]) ==> r.value == data.fields["task"]
    ensures r.Ok? && !(data.Obj? && "task" in data.fields && Truthy(data.fields["task"])) ==> r.value == data
  {
    match Member(data, "task")
    case Err(m) => Err(m)
    case Ok(inner) => Ok(Or(inner, data))
  }

  /**
   * The two response shapes give the same task: a bare task object, and the
   * same object wrapped as `{task: …}`, unless the bare object itself carries a
   * truthy `task` field.
   */
  lemma WrappedAndBareAgree(t: map<string, Json>)
    requires !("task" in t && Truthy(t["task"]))
    ensures UnwrapTask(Obj(map["task" := Obj(t)])) == UnwrapTask(Obj(t)) == Ok(Obj(t))
  {
  }

  /** How one fetch settles: the task, an error message, or a thrown non-Error that leaves no error. */
  datatype Settled = Loaded(task: Json) | Failed(message: string) | FailedWithoutMessage

  /** The promise chain of the effect: status check, `json()`, unwrap, `.catch(error => setError(error.message))`. */
  function SettleFetch(outcome: FetchOutcome): (s: Settled)
    ensures outcome.Response? && !outcome.ok ==> s == Failed(HttpErrorMessage(outcome.status))
    ensures s.Loaded? <==>
      outcome.Response? && outcome.ok && outcome.body.Parsed? && !outcome.body.value.Nullish()
    ensures s.Loaded? ==> UnwrapTask(outcome.body.value) == Ok(s.task)
    ensures outcome.Response? && outcome.ok && outcome.body.Malformed? ==> s == Failed(outcome.body.message)
    ensures outcome.Response? && outcome.ok && outcome.body.Parsed? && outcome.body.value.Nullish() ==>
      s == Failed(NullAccessMessage(outcome.body.value, "task"))
    ensures outcome.Rejected? && outcome.thrown.ErrorThrown? ==> s == Failed(outcome.thrown.message)
    ensures s.FailedWithoutMessage? <==> outcome == Rejected(OtherThrown)
  {
    match outcome
    case Rejected(ErrorThrown(m)) => Failed(m)
    case Rejected(OtherThrown) => FailedWithoutMessage
    case Response(ok, status, body) =>
      if !ok then Failed(HttpErrorMessage(status))
      else match body
        case Malformed(m) => Failed(m)
        case Parsed(data) =>
          match UnwrapTask(data)
          case Ok(t) => Loaded(t)
          case Err(m) => Failed(m)
  }

  /** The branches of the page, by precedence; `Crashed` is a render that throws. */
  datatype Screen = Spinner | ErrorBanner(message: string) | TaskNotFound | Detail(task: Json) | Crashed

  /**
   * The detail's creator card can be evaluated: `task.creator` is readable,
   * and its image is truthy or its name is a string to take `charAt(0)` of.
   */
  predicate DetailRenders(task: Json) {
    && Display.CreatorReadable(task)
    && var creator := Member(task, "creator").value;
      Display.AvatarReadable(Member(creator, "image").value, Member(creator, "name").value)
  }

  class TaskDetailView {
    var task: Json
    var loading: bool
    var error: Option<string>

    /** First render: no task (null), loading, no error. */
    constructor ()
      ensures task == Null && loading && error == None
      ensures Render() == Spinner
    {
      task := Null;
      loading := true;
      error := None;
    }

    /**
     * The effect for one task id, run to completion. It resets `loading` and
     * `error` but not `task`, so a failed fetch after an earlier one keeps the
     * earlier task in state (hidden behind the error).
     */
    method Load(outcome: FetchOutcome)
      modifies this
      ensures !loading
      ensures match SettleFetch(outcome)
        case Loaded(t) => task == t && error == None
        case Failed(m) => task == old(task) && error == Some(m)
        case FailedWithoutMessage => task == old(task) && error == None
    {
      loading := true;
      error := None;
      match SettleFetch(outcome) {
        case Loaded(t) =>
          task := t;
        case Failed(m) =>
          error := Some(m);
        case FailedWithoutMessage =>
      }
      loading := false;
    }

    /**
     * Spinner, then a truthy error, then "Task not found" for a falsy task,
     * then the detail, unless its creator card throws.
     */
    function Render(): (s: Screen)
      reads this
      ensures s == Spinner <==> loading
      ensures s.ErrorBanner? <==> !loading && error.Some? && error.value != ""
      ensures s.ErrorBanner? ==> s.message == error.value
      ensures s == TaskNotFound <==> !loading && !(error.Some? && error.value != "") && !Truthy(task)
      ensures s.Detail? ==> s.task == task && Truthy(task) && DetailRenders(task)
      ensures s == Crashed <==> !loading && !(error.Some? && error.value != "") && Truthy(task) && !DetailRenders(task)
    {
      if loading then Spinner
      else if error.Some? && error.value != "" then ErrorBanner(error.value)
      else if !Truthy(task) then TaskNotFound
      else if !DetailRenders(task) then Crashed
      else Detail(task)
    }
  }

  /** A non-ok response shows the status in the error banner. */
  method NotOkExample(status: nat) returns (screen: Screen)
    ensures screen == ErrorBanner(HttpErrorMessage(status))
  {
    var view := new TaskDetailView();
    view.Load(Response(false, status, Malformed("unread")));
    screen := view.Render();
  }

  /** The header and footer of the detail: icon, status badge and action button. */
  datatype Header = Header(icon: Display.Icon, status: string, action: string)

  /** Icon, badge and button of a task object with its `category` and `is_completed` fields. */
  function HeaderOf(task: map<string, Json>): (h: Header)
    ensures h.icon == Display.CategoryIcon(if "category" in task then task["category"] else Undefined)
    ensures var done := "is_completed" in task && Truthy(task["is_completed"]);
      && (h.status == "Completed" <==> done)
      && (h.action == "Task Completed" <==> done)
      && (!done ==> h.status == "Active" && h.action == "Accept Task")
  {
    var category := if "category" in task then task["category"] else Undefined;
    var completed := if "is_completed" in task then task["is_completed"] else Undefined;
    Header(Display.CategoryIcon(category), Display.StatusLabel(completed), Display.ActionLabel(completed))
  }
}
