/**
 * The "My Tasks" page (`MyTasksList.tsx`): it fetches the signed-in user's
 * tasks once, takes `data.tasks` or the empty list, and renders a spinner, an
 * error, an empty-list notice or one card per task.
 */
module MyTasks {
  import opened Js
  import Display

  const FetchFailed := "Failed to fetch tasks"
  const EmptyNotice := "You haven't created any tasks yet"

  /** `data.tasks || []`. */
  function TasksOrEmpty(data: Json): (r: Result<Json>)
    ensures r.Err? <==> data.Nullish()
    ensures r.Ok? ==> Truthy(r.value) || r.value == Arr([])
    ensures r.Ok? && data.Obj? && "tasks" in data.fields && Truthy(data.fields["tasks"]) ==> r.value == data.fields["tasks"]
    ensures r.Ok? && !(data.Obj? && "tasks" in data.fields && Truthy(data.fields["tasks"])) ==> r.value == Arr([])
  {
    match Member(data, "tasks")
    case Err(m) => Err(m)
    case Ok(v) => Ok(Or(v, Arr([])))
  }

  /**
   * `fetchTasks`: a non-ok status throws `HTTP error! status: <status>`; the
   * catch keeps an Error's message and replaces anything else by 'Failed to
   * fetch tasks'.
   */
  function FetchTasks(outcome: FetchOutcome): (r: Result<Json>)
    ensures outcome.Response? && !outcome.ok ==> r == Err(HttpErrorMessage(outcome.status))
    ensures outcome == Rejected(OtherThrown) ==> r == Err(FetchFailed)
    ensures r.Ok? <==> outcome.Response? && outcome.ok && outcome.body.Parsed? && !outcome.body.value.Nullish()
    ensures r.Ok? ==> TasksOrEmpty(outcome.body.value) == r
    ensures outcome.Rejected? ==> r == Err(CatchMessage(outcome.thrown, FetchFailed))
    ensures outcome.Response? && outcome.ok && outcome.body.Malformed? ==> r == Err(outcome.body.message)
    ensures outcome.Response? && outcome.ok && outcome.body.Parsed? && outcome.body.value.Nullish() ==>
      r == Err(NullAccessMessage(outcome.body.value, "tasks"))
  {
    match outcome
    case Rejected(t) => Err(CatchMessage(t, FetchFailed))
    case Response(ok, status, body) =>
      if !ok then Err(HttpErrorMessage(status))
      else match body
        case Malformed(m) => Err(m)
        case Parsed(data) => TasksOrEmpty(data)
  }

  /** One task card: the task it links to, its category icon, its status badge and its creator's stars. */
  datatype Card = Card(task: Json, icon: Display.Icon, status: string, stars: Option<seq<bool>>)

  function CardOf(task: Json): (c: Card)
    ensures c.task == task
    ensures c.status == "Completed" <==> task.Obj? && "is_completed" in task.fields && Truthy(task.fields["is_completed"])
    ensures c.status == "Active" <==> !(task.Obj? && "is_completed" in task.fields && Truthy(task.fields["is_completed"]))
    ensures c.status == Display.StatusLabel(if task.Obj? && "is_completed" in task.fields then task.fields["is_completed"] else Undefined)
    ensures c.icon == Display.CategoryIcon(if task.Obj? && "category" in task.fields then task.fields["category"] else Undefined)
    ensures Display.CreatorReadable(task) ==>
      c.stars == Display.RatingStars(Member(Member(task, "creator").value, "rating").value)
  {
    var fields := if task.Obj? then task.fields else map[];
    var category := if "category" in fields then fields["category"] else Undefined;
    var completed := if "is_completed" in fields then fields["is_completed"] else Undefined;
    var stars := if Display.CreatorReadable(task) then Display.RatingStars(Member(Member(task, "creator").value, "rating").value) else None;
    Card(task, Display.CategoryIcon(category), Display.StatusLabel(completed), stars)
  }

  /** `tasks.map(task => <card/>)`: one card per task, in order. */
  function Cards(tasks: seq<Json>): (cards: seq<Card>)
    ensures |cards| == |tasks|
    ensures forall k :: 0 <= k < |tasks| ==> cards[k] == CardOf(tasks[k])
  {
    if tasks == [] then [] else [CardOf(tasks[0])] + Cards(tasks[1..])
  }

  /** The branches of the page, by precedence; `Crashed` is a render that throws. */
  datatype Screen = Spinner | ErrorBanner(message: string) | NoTasks(notice: string) | TaskCards(cards: seq<Card>) | Crashed

  /** Every card's `task.creator.name` and `task.creator.rating` can be read. */
  predicate CardsRender(items: seq<Json>) {
    forall k :: 0 <= k < |items| ==> Display.CreatorReadable(items[k])
  }

  /**
   * `tasks.length === 0` for a value that is not an array: an empty string, or
   * an object whose `length` field is the number 0.
   */
  predicate LengthIsZero(tasks: Json) {
    || tasks == Str("")
    || (tasks.Obj? && "length" in tasks.fields && tasks.fields["length"] == Num(0))
  }

  class MyTasksView {
    var tasks: Json
    var loading: bool
    var error: Option<string>

    /** First render: an empty list, loading, no error. */
    constructor ()
      ensures tasks == Arr([]) && loading && error == None
      ensures Render() == Spinner
    {
      tasks := Arr([]);
      loading := true;
      error := None;
    }

    /** The mount effect, run to completion: reset, fetch, store the tasks or the error, stop loading. */
    method Load(outcome: FetchOutcome)
      modifies this
      ensures !loading
      ensures match FetchTasks(outcome)
        case Ok(v) => tasks == v && error == None
        case Err(m) => tasks == old(tasks) && error == Some(m)
    {
      loading := true;
      error := None;
      match FetchTasks(outcome) {
        case Ok(v) =>
          tasks := v;
        case Err(m) =>
          error := Some(m);
      }
      loading := false;
    }

    /**
     * Spinner, then a truthy error, then the list: the notice when
     * `tasks.length === 0`, one card per task otherwise. A value that is not an
     * array has no `map`, so rendering it throws (an empty string or an object
     * whose `length` is 0 still shows the notice), and so does a card whose
     * creator is missing.
     */
    function Render(): (s: Screen)
      reads this
      ensures s == Spinner <==> loading
      ensures s.ErrorBanner? <==> !loading && error.Some? && error.value != ""
      ensures s.ErrorBanner? ==> s.message == error.value
      ensures s.NoTasks? ==> s.notice == EmptyNotice
      ensures tasks.Arr? && !s.Spinner? && !s.ErrorBanner? ==>
        if tasks.items == [] then s == NoTasks(EmptyNotice)
        else (s.TaskCards? <==> CardsRender(tasks.items)) && (!s.TaskCards? ==> s == Crashed)
      ensures !tasks.Arr? && !s.Spinner? && !s.ErrorBanner? ==>
        (s.NoTasks? <==> LengthIsZero(tasks)) && (!s.NoTasks? ==> s == Crashed)
      ensures s.TaskCards? ==> tasks.Arr? && s.cards == Cards(tasks.items) && |s.cards| == |tasks.items|
    {
      if loading then Spinner
      else if error.Some? && error.value != "" then ErrorBanner(error.value)
      else match tasks
        case Arr(items) =>
          if |items| == 0 then NoTasks(EmptyNotice)
          else if !CardsRender(items) then Crashed
          else TaskCards(Cards(items))
        case _ => if LengthIsZero(tasks) then NoTasks(EmptyNotice) else Crashed
    }
  }

  /** A payload without `tasks` leads to the empty-list notice, not to an error. */
  method MissingTasksExample(status: nat) returns (screen: Screen)
    ensures screen == NoTasks(EmptyNotice)
  {
    var view := new MyTasksView();
    view.Load(Response(true, status, Parsed(Obj(map[]))));
    screen := view.Render();
  }
}
