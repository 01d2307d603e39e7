/**
 * The task list page (`TaskList.tsx`): it fetches all tasks once, accepts the
 * payload as a bare array or wrapped under `data` or `results`, filters it by
 * the selected category in memory, and renders one of four branches.
 */
module TaskList {
  import opened Js
  import Display

  /** The category the filter starts with and that disables filtering. */
  const All := "all"

  /** The categories offered in the filter column. */
  const FilterCategories: seq<string> := ["all", "design", "web", "text", "video", "image", "programming", "other"]

  const NotAnArray := "Expected an array of tasks"

  /**
   * The payload normalisation and its array check: an array payload is used as it is; otherwise the first truthy
   * of `data.data` and `data.results`, or `[]` when both are falsy, must be an
   * array. Reading a property of null or undefined throws.
   */
  function NormaliseTasks(data: Json): (r: Result<seq<Json>>)
    ensures data.Arr? ==> r == Ok(data.items)
    ensures data.Nullish() ==> r.Err? && r.message != NotAnArray
    ensures !data.Arr? && !data.Obj? && !data.Nullish() ==> r == Ok([])
    ensures data.Obj? ==>
      var wrapped := if "data" in data.fields then data.fields["data"] else Undefined;
      var results := if "results" in data.fields then data.fields["results"] else Undefined;
      && (Truthy(wrapped) ==> r == if wrapped.Arr? then Ok(wrapped.items) else Err(NotAnArray))
      && (!Truthy(wrapped) && Truthy(results) ==> r == if results.Arr? then Ok(results.items) else Err(NotAnArray))
      && (!Truthy(wrapped) && !Truthy(results) ==> r == Ok([]))
  {
    if data.Arr? then Ok(data.items)
    else
      match Member(data, "data")
      case Err(m) => Err(m)
      case Ok(inner) =>
        var candidate := Or(inner, Or(Member(data, "results").value, Arr([])));
        if candidate.Arr? then Ok(candidate.items) else Err(NotAnArray)
  }

  /** The three shapes the page accepts, a bare array and the two wrappers, give the same tasks. */
  lemma WrappedPayloadsAgree(items: seq<Json>)
    ensures NormaliseTasks(Obj(map["data" := Arr(items)])) == Ok(items)
    ensures NormaliseTasks(Obj(map["results" := Arr(items)])) == Ok(items)
    ensures NormaliseTasks(Arr(items)) == Ok(items)
  {
  }

  /** A wrapped value that is truthy but not an array is rejected, whatever `results` holds. */
  lemma TruthyNonArrayRejected(data: Json)
    requires data.Obj? && "data" in data.fields
    requires Truthy(data.fields["data"]) && !data.fields["data"].Arr?
    ensures NormaliseTasks(data) == Err(NotAnArray)
  {
  }

  /** `task.category === selectedCategory`. */
  predicate InCategory(task: Json, category: string) {
    task.Obj? && "category" in task.fields && task.fields["category"] == Str(category)
  }

  /** The tasks whose `category` equals the selection, in their original order. */
  function KeepCategory(tasks: seq<Json>, category: string): (r: seq<Json>)
    ensures |r| <= |tasks|
    ensures forall k :: 0 <= k < |r| ==> InCategory(r[k], category) && r[k] in tasks
    ensures forall k :: 0 <= k < |tasks| && InCategory(tasks[k], category) ==> tasks[k] in r
  {
    if tasks == [] then []
    else if InCategory(tasks[0], category) then [tasks[0]] + KeepCategory(tasks[1..], category)
    else KeepCategory(tasks[1..], category)
  }

  /** `filteredTasks` (line 102): every task for "all", otherwise the tasks of the selected category. */
  function FilterTasks(tasks: seq<Json>, selected: string): (r: seq<Json>)
    ensures selected == All ==> r == tasks
    ensures |r| <= |tasks|
  {
    if selected == All then tasks else KeepCategory(tasks, selected)
  }

  /** `a` occurs in `b` in order, possibly with gaps. */
  predicate IsSubsequence<T(==)>(a: seq<T>, b: seq<T>)
  {
    if a == [] then true
    else if b == [] then false
    else if a[0] == b[0] then IsSubsequence(a[1..], b[1..])
    else IsSubsequence(a, b[1..])
  }

  /** The filter keeps the original order: the filtered list is a subsequence of the fetched one. */
  lemma {:induction false} FilterIsSubsequence(tasks: seq<Json>, selected: string)
    ensures IsSubsequence(FilterTasks(tasks, selected), tasks)
  {
    if selected == All {
      SubsequenceReflexive(tasks);
    } else {
      KeepCategorySubsequence(tasks, selected);
    }
  }

  lemma {:induction false} SubsequenceReflexive<T>(s: seq<T>)
    ensures IsSubsequence(s, s)
  {
    if s != [] {
      SubsequenceReflexive(s[1..]);
    }
  }

  lemma {:induction false} KeepCategorySubsequence(tasks: seq<Json>, category: string)
    ensures IsSubsequence(KeepCategory(tasks, category), tasks)
  {
    if tasks != [] {
      KeepCategorySubsequence(tasks[1..], category);
      var r := KeepCategory(tasks, category);
      if !InCategory(tasks[0], category) && r != [] {
        assert InCategory(r[0], category);
        assert r[0] != tasks[0];
      }
    }
  }

  /**
   * The filter drops exactly the tasks of other categories and keeps every
   * task of the selected one as often as it occurs.
   */
  lemma {:induction false} FilterCounts(tasks: seq<Json>, selected: string, t: Json)
    requires selected != All
    ensures multiset(FilterTasks(tasks, selected))[t] == if InCategory(t, selected) then multiset(tasks)[t] else 0
  {
    KeepCategoryCounts(tasks, selected, t);
  }

  lemma {:induction false} KeepCategoryCounts(tasks: seq<Json>, category: string, t: Json)
    ensures multiset(KeepCategory(tasks, category))[t] == if InCategory(t, category) then multiset(tasks)[t] else 0
  {
    if tasks != [] {
      KeepCategoryCounts(tasks[1..], category, t);
      assert tasks == [tasks[0]] + tasks[1..];
      assert multiset(tasks) == multiset([tasks[0]]) + multiset(tasks[1..]);
      if InCategory(tasks[0], category) {
        assert KeepCategory(tasks, category) == [tasks[0]] + KeepCategory(tasks[1..], category);
        assert multiset(KeepCategory(tasks, category)) == multiset([tasks[0]]) + multiset(KeepCategory(tasks[1..], category));
      } else {
        assert KeepCategory(tasks, category) == KeepCategory(tasks[1..], category);
        assert tasks[0] == t ==> !InCategory(t, category);
      }
    }
  }

  /**
   * What the page body shows, by precedence: spinner, error, empty notice,
   * task cards; `Crashed` is a render that throws.
   */
  datatype Screen =
    | Loading
    | ErrorBanner(message: string)
    | NoTasks(notice: string)
    | TaskCards(shown: seq<Json>)
    | Crashed

  /**
   * The category filter, which runs on every render before the loading check,
   * reads `task.category` and so throws on a null or undefined task; with
   * "all" selected it does not run.
   */
  predicate FilterThrows(tasks: seq<Json>, selected: string) {
    selected != All && exists k :: 0 <= k < |tasks| && tasks[k].Nullish()
  }

  /** Every card's `task.creator.name` and `task.creator.rating` can be read. */
  predicate CardsRender(shown: seq<Json>) {
    forall k :: 0 <= k < |shown| ==> Display.CreatorReadable(shown[k])
  }

  /** The notice for an empty filtered list. */
  function NoTasksNotice(category: string): string
  {
    "No tasks found in the \"" + category + "\" category"
  }

  /** How one fetch settles: the tasks, an error message, or a thrown non-Error whose missing `message` leaves no error. */
  datatype Settled = Loaded(tasks: seq<Json>) | Failed(message: string) | FailedWithoutMessage

  /** The promise chain of the effect: status check, `json()`, normalisation, `.catch`. */
  function SettleFetch(outcome: FetchOutcome): (s: Settled)
    ensures outcome.Response? && !outcome.ok ==> s == Failed(HttpErrorMessage(outcome.status))
    ensures s.Loaded? <==>
      outcome.Response? && outcome.ok && outcome.body.Parsed? && NormaliseTasks(outcome.body.value).Ok?
    ensures s.Loaded? ==> NormaliseTasks(outcome.body.value) == Ok(s.tasks)
    ensures outcome.Response? && outcome.ok && outcome.body.Parsed? && NormaliseTasks(outcome.body.value).Err? ==>
      s == Failed(NormaliseTasks(outcome.body.value).message)
    ensures outcome.Response? && outcome.ok && outcome.body.Malformed? ==> s == Failed(outcome.body.message)
    ensures outcome.Rejected? && outcome.thrown.ErrorThrown? ==> s == Failed(outcome.thrown.message)
    ensures s.FailedWithoutMessage? <==> outcome == Rejected(OtherThrown)
  {
    match outcome
    case Rejected(ErrorThrown(m)) => Failed(m)
    case Rejected(OtherThrown) => FailedWithoutMessage
    case Response(ok, status, body) =>
      if !ok then Failed(HttpErrorMessage(status))
      else match body
        case Malformed(m) => Failed(m)
        case Parsed(data) =>
          match NormaliseTasks(data)
          case Ok(items) => Loaded(items)
          case Err(m) => Failed(m)
  }

  /** The component state of the page. */
  class TaskListView {
    var selectedCategory: string
    var tasks: seq<Json>
    var loading: bool
    var error: Option<string>

    /** The category filter only ever holds one of the offered categories. */
    ghost predicate Valid()
      reads this
    {
      selectedCategory in FilterCategories
    }

    /** First render: "all" selected, no tasks, loading, no error. */
    constructor ()
      ensures Valid()
      ensures selectedCategory == All && tasks == [] && loading && error == None
      ensures Render() == Loading
    {
      selectedCategory := All;
      tasks := [];
      loading := true;
      error := None;
    }

    /** The mount effect, run to completion: reset, fetch, store tasks or error, stop loading. */
    method Load(outcome: FetchOutcome)
      requires Valid()
      modifies this
      ensures Valid()
      ensures !loading && selectedCategory == old(selectedCategory)
      ensures match SettleFetch(outcome)
        case Loaded(items) => tasks == items && error == None
        case Failed(m) => tasks == old(tasks) && error == Some(m)
        case FailedWithoutMessage => tasks == old(tasks) && error == None
    {
      loading := true;
      error := None;
      match SettleFetch(outcome) {
        case Loaded(items) =>
          tasks := items;
        case Failed(m) =>
          error := Some(m);
        case FailedWithoutMessage =>
      }
      loading := false;
    }

    /** A click on a category in the filter column. */
    method SelectCategory(category: string)
      requires Valid() && category in FilterCategories
      modifies this`selectedCategory
      ensures Valid() && selectedCategory == category
    {
      selectedCategory := category;
    }

    /**
     * The render: a throwing filter first, then loading, then a truthy error,
     * then the filtered list or its empty notice; a card without a readable
     * creator throws.
     */
    function Render(): (s: Screen)
      reads this
      ensures FilterThrows(tasks, selectedCategory) ==> s == Crashed
      ensures s == Loading <==> !FilterThrows(tasks, selectedCategory) && loading
      ensures s.ErrorBanner? <==> !FilterThrows(tasks, selectedCategory) && !loading && error.Some? && error.value != ""
      ensures s.ErrorBanner? ==> s.message == error.value
      ensures s.NoTasks? <==>
        !FilterThrows(tasks, selectedCategory) && !loading && !(error.Some? && error.value != "")
        && FilterTasks(tasks, selectedCategory) == []
      ensures s.NoTasks? ==> s.notice == NoTasksNotice(selectedCategory)
      ensures s.TaskCards? ==> s.shown == FilterTasks(tasks, selectedCategory) && s.shown != [] && CardsRender(s.shown)
      ensures s == Crashed <==>
        || FilterThrows(tasks, selectedCategory)
        || (!loading && !(error.Some? && error.value != "") && !CardsRender(FilterTasks(tasks, selectedCategory)))
    {
      if FilterThrows(tasks, selectedCategory) then Crashed
      else if loading then Loading
      else if error.Some? && error.value != "" then ErrorBanner(error.value)
      else
        var shown := FilterTasks(tasks, selectedCategory);
        if |shown| == 0 then NoTasks(NoTasksNotice(selectedCategory))
        else if !CardsRender(shown) then Crashed
        else TaskCards(shown)
    }
  }

  /**
   * The example of the page's behaviour: a single "web" task, fetched and then
   * filtered by "design", leaves the empty-category notice on screen.
   */
  method DesignFilterExample() returns (screen: Screen)
    ensures screen == NoTasks("No tasks found in the \"design\" category")
  {
    var view := new TaskListView();
    var task := Obj(map["id" := Num(1), "category" := Str("web")]);
    view.Load(Response(true, 200, Parsed(Arr([task]))));
    view.SelectCategory("design");
    screen := view.Render();
  }
}
