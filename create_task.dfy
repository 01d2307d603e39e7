/**
 * The task-creation wizard (`CreateTask.tsx`): four steps (title; category;
 * description and price; deadline and review), each field editable only on
 * its own step, forward moves gated by the current step's validation, and a
 * final POST of the collected data.
 */
module CreateTask {
  import opened Js
  import Text

  /** The form state `taskData`. `expiresAt` is an ISO timestamp string. */
  datatype TaskData = TaskData(title: string, description: string, category: string, price: string, expiresAt: string)

  /** The `name` attributes of the wizard's text inputs. */
  datatype InputName = Title | Description | Price

  /** The category buttons of step 2. */
  const Categories: seq<string> := ["web", "design", "text", "programming"]

  const LastStep := 4

  /** The step whose page renders the input. */
  function StepOf(name: InputName): (k: int)
    ensures 1 <= k < LastStep
  {
    match name
    case Title => 1
    case Description => 3
    case Price => 3
  }

  /**
   * `validateStep(k)`: the message it sets when step k fails, or None when it
   * passes. Step 3 checks the description before the price; any other step
   * number passes.
   */
  function StepError(k: int, d: TaskData): (e: Option<string>)
  {
    if k == 1 then
      if Text.Trim(d.title) == "" then Some("Please enter a title") else None
    else if k == 2 then
      if Text.Trim(d.category) == "" then Some("Please select a category") else None
    else if k == 3 then
      if Text.Trim(d.description) == "" then Some("Please enter a description")
      else if Text.Trim(d.price) == "" || Text.NumberIsNaN(d.price) then Some("Please enter a valid price")
      else None
    else None
  }

  /** Step 1 fails, with 'Please enter a title', exactly when the title is blank. */
  lemma StepOneBlankTitle(d: TaskData)
    ensures StepError(1, d) == Some("Please enter a title") <==> Text.AllWhitespace(d.title)
    ensures StepError(1, d) == None <==> !Text.AllWhitespace(d.title)
  {
    Text.TrimEmptyIff(d.title);
  }

  /** Step 2 fails, with 'Please select a category', exactly when the category is blank. */
  lemma StepTwoBlankCategory(d: TaskData)
    ensures StepError(2, d) == Some("Please select a category") <==> Text.AllWhitespace(d.category)
    ensures StepError(2, d) == None <==> !Text.AllWhitespace(d.category)
  {
    Text.TrimEmptyIff(d.category);
  }

  /**
   * Step 3 reports a blank description first; with a description present it
   * reports a price that is blank or that `Number` reads as NaN.
   */
  lemma StepThreeOrder(d: TaskData)
    ensures StepError(3, d) == Some("Please enter a description") <==> Text.AllWhitespace(d.description)
    ensures StepError(3, d) == Some("Please enter a valid price") <==>
      !Text.AllWhitespace(d.description) && (Text.AllWhitespace(d.price) || Text.NumberIsNaN(d.price))
    ensures StepError(3, d) == None <==>
      !Text.AllWhitespace(d.description) && !Text.AllWhitespace(d.price) && !Text.NumberIsNaN(d.price)
  {
    Text.TrimEmptyIff(d.description);
    Text.TrimEmptyIff(d.price);
  }

  /** With a description present, a price typed as plain digits passes step 3. */
  lemma DigitPriceAccepted(d: TaskData)
    requires !Text.AllWhitespace(d.description) && Text.IsDecimalDigits(d.price)
    ensures StepError(3, d) == None
  {
    StepThreeOrder(d);
    Text.DigitsAreNumbers(d.price);
    assert !Text.IsWhitespace(d.price[0]);
  }

  /** A step's check reads only the fields shown on that step. */
  lemma StepErrorLocal(k: int, d: TaskData, d': TaskData)
    requires k == 1 ==> d.title == d'.title
    requires k == 2 ==> d.category == d'.category
    requires k == 3 ==> d.description == d'.description && d.price == d'.price
    ensures StepError(k, d) == StepError(k, d')
  {
  }

  /** Every field the final POST carries has passed its step. */
  predicate Ready(d: TaskData) {
    StepError(1, d) == None && StepError(2, d) == None && StepError(3, d) == None
  }

  /** `handleInputChange`: `{...prev, [name]: value}`. */
  function WithInput(d: TaskData, name: InputName, value: string): (r: TaskData)
    ensures r.expiresAt == d.expiresAt && r.category == d.category
    ensures r.title == (if name == Title then value else d.title)
    ensures r.description == (if name == Description then value else d.description)
    ensures r.price == (if name == Price then value else d.price)
  {
    match name
    case Title => d.(title := value)
    case Description => d.(description := value)
    case Price => d.(price := value)
  }

  /** Where the wizard sends the browser. */
  datatype Navigation = GoBack | ToTask(id: Json)

  const UnknownError := "An unknown error occurred"
  const CreateFailed := "Failed to create task"

  /**
   * The request part of `handleSubmit`: the id of the created task to navigate
   * to, or the message the catch stores. A non-ok response throws
   * `errorData.message || 'Failed to create task'`.
   */
  function SubmitResult(outcome: FetchOutcome): (r: Result<Json>)
    ensures outcome.Response? && !outcome.ok ==> r.Err?
    ensures outcome == Rejected(OtherThrown) ==> r == Err(UnknownError)
    ensures r.Ok? <==> outcome.Response? && outcome.ok && outcome.body.Parsed? && !outcome.body.value.Nullish()
    ensures r.Ok? ==> Member(outcome.body.value, "id") == r
    ensures outcome.Response? && !outcome.ok && outcome.body.Parsed? && outcome.body.value.Obj? ==>
      var fields := outcome.body.value.fields;
      && ("message" in fields && fields["message"].Str? && fields["message"].s != "" ==> r == Err(fields["message"].s))
      && ("message" in fields && Truthy(fields["message"]) ==> r == Err(ToJsString(fields["message"])))
      && (!("message" in fields && Truthy(fields["message"])) ==> r == Err(CreateFailed))
    ensures outcome.Response? && !outcome.ok && outcome.body.Parsed? && !outcome.body.value.Obj? && !outcome.body.value.Nullish() ==>
      r == Err(CreateFailed)
    ensures outcome.Response? && outcome.body.Parsed? && outcome.body.value.Nullish() ==>
      r == Err(NullAccessMessage(outcome.body.value, if outcome.ok then "id" else "message"))
    ensures outcome.Response? && outcome.body.Malformed? ==> r == Err(outcome.body.message)
    ensures outcome.Rejected? ==> r == Err(CatchMessage(outcome.thrown, UnknownError))
  {
    match outcome
    case Rejected(t) => Err(CatchMessage(t, UnknownError))
    case Response(ok, _, body) =>
      match body
      case Malformed(m) => Err(m)
      case Parsed(data) =>
        if !ok then
          match Member(data, "message")
          case Err(m) => Err(m)
          case Ok(v) => Err(ToJsString(Or(v, Str(CreateFailed))))
        else Member(data, "id")
  }

  /**
   * Between events: the step is one of 1..4, every earlier step passes its
   * check for the data, and the category is empty or one of the buttons.
   */
  ghost predicate Consistent(step: int, d: TaskData)
  {
    && 1 <= step <= LastStep
    && (step > 1 ==> StepError(1, d) == None)
    && (step > 2 ==> StepError(2, d) == None)
    && (step > 3 ==> StepError(3, d) == None)
    && (d.category == "" || d.category in Categories)
  }

  class Wizard {
    var step: int
    var taskData: TaskData
    var isLoading: bool
    var error: Option<string>
    /** The bodies posted to the create endpoint, oldest first. */
    ghost var posted: seq<TaskData>
    /** The navigations requested, oldest first. */
    ghost var navigations: seq<Navigation>

    /** The wizard's invariant, stated on its step and data. */
    ghost predicate Valid()
      reads this`step, this`taskData
    {
      Consistent(step, taskData)
    }

    /** The first render, with the default deadline computed from the clock by the caller. */
    constructor (defaultExpiresAt: string)
      ensures Valid()
      ensures step == 1 && taskData == TaskData("", "", "", "", defaultExpiresAt) && !isLoading
      ensures error == None && posted == [] && navigations == []
    {
      step := 1;
      taskData := TaskData("", "", "", "", defaultExpiresAt);
      isLoading := false;
      error := None;
      posted := [];
      navigations := [];
    }

    /** `validateStep(k)`: sets `error` to the step's message, or clears it, and reports success. */
    method ValidateStep(k: int) returns (ok: bool)
      modifies this`error
      ensures ok <==> StepError(k, taskData) == None
      ensures error == StepError(k, taskData)
    {
      if k == 1 {
        if Text.Trim(taskData.title) == "" {
          error := Some("Please enter a title");
          return false;
        }
      } else if k == 2 {
        if Text.Trim(taskData.category) == "" {
          error := Some("Please select a category");
          return false;
        }
      } else if k == 3 {
        if Text.Trim(taskData.description) == "" {
          error := Some("Please enter a description");
          return false;
        }
        if Text.Trim(taskData.price) == "" || Text.NumberIsNaN(taskData.price) {
          error := Some("Please enter a valid price");
          return false;
        }
      }
      error := None;
      return true;
    }

    /** `handleNext` (offered below the last step): one step forward when the current step passes. */
    method HandleNext()
      requires Valid() && step < LastStep
      modifies this`step, this`error
      ensures Valid()
      ensures error == StepError(old(step), taskData)
      ensures step == if error == None then old(step) + 1 else old(step)
    {
      var ok := ValidateStep(step);
      if !ok {
        return;
      }
      step := step + 1;
    }

    /** `handleBack`: one step back, or leave the wizard from step 1. */
    method HandleBack()
      requires Valid()
      modifies this`step, this`navigations
      ensures Valid()
      ensures old(step) > 1 ==> step == old(step) - 1 && navigations == old(navigations)
      ensures old(step) == 1 ==> step == 1 && navigations == old(navigations) + [GoBack]
    {
      if step > 1 {
        step := step - 1;
      } else {
        navigations := navigations + [GoBack];
      }
    }

    /** `handleInputChange` from the input rendered on the current step. */
    method HandleInputChange(name: InputName, value: string)
      requires Valid() && StepOf(name) == step
      modifies this`taskData
      ensures Valid()
      ensures taskData == WithInput(old(taskData), name, value)
    {
      var old_data := taskData;
      taskData := WithInput(taskData, name, value);
      forall j | 1 <= j < step
        ensures StepError(j, taskData) == None
      {
        StepErrorLocal(j, old_data, taskData);
      }
    }

    /** `handleCategorySelect` from one of the category buttons of step 2. */
    method HandleCategorySelect(category: string)
      requires Valid() && step == 2 && category in Categories
      modifies this`taskData
      ensures Valid()
      ensures taskData == old(taskData).(category := category)
    {
      var old_data := taskData;
      taskData := taskData.(category := category);
      forall j | 1 <= j < step
        ensures StepError(j, taskData) == None
      {
        StepErrorLocal(j, old_data, taskData);
      }
    }

    /** `handleDateChange` on step 4, with the ISO string of the picked date. */
    method HandleDateChange(isoString: string)
      requires Valid() && step == LastStep
      modifies this`taskData
      ensures Valid()
      ensures taskData == old(taskData).(expiresAt := isoString)
    {
      var old_data := taskData;
      taskData := taskData.(expiresAt := isoString);
      forall j | 1 <= j < step
        ensures StepError(j, taskData) == None
      {
        StepErrorLocal(j, old_data, taskData);
      }
    }

    /** The try/catch outcome of the request: navigate to the created task, or store the message. */
    method Settle(result: Result<Json>)
      modifies this`error, this`navigations
      ensures result.Ok? ==> navigations == old(navigations) + [ToTask(result.value)] && error == old(error)
      ensures result.Err? ==> navigations == old(navigations) && error == Some(result.message)
    {
      match result {
        case Ok(id) =>
          navigations := navigations + [ToTask(id)];
        case Err(m) =>
          error := Some(m);
      }
    }

    /** On the last step the data has passed every check. */
    lemma ReadyOnLastStep()
      requires Valid() && step == LastStep
      ensures Ready(taskData)
    {
    }

    /**
     * `handleSubmit` (offered on step 4): validation of step 4 always passes
     * and clears the error; the data is posted; then the browser goes to the
     * new task, or the error is stored; loading ends in every case. The step
     * and the data are left alone, so the invariant is kept.
     */
    method HandleSubmit(outcome: FetchOutcome)
      requires Valid() && step == LastStep
      modifies this`error, this`isLoading, this`posted, this`navigations
      ensures Valid()
      ensures posted == old(posted) + [taskData] && Ready(taskData)
      ensures !isLoading
      ensures SubmitResult(outcome).Ok? ==>
        navigations == old(navigations) + [ToTask(SubmitResult(outcome).value)] && error == None
      ensures SubmitResult(outcome).Err? ==>
        navigations == old(navigations) && error == Some(SubmitResult(outcome).message)
    {
      // Step 4 has no check of its own: the guard always passes and clears the error.
      ReadyOnLastStep();
      var ok := ValidateStep(step);
      assert ok;
      isLoading := true;
      posted := posted + [taskData];
      Settle(SubmitResult(outcome));
      isLoading := false;
    }
  }

  /** Step 1 with a blank title: Next is refused, the step stays, and the message is shown. */
  method BlankTitleExample(defaultExpiresAt: string) returns (step: int, error: Option<string>)
    ensures step == 1 && error == Some("Please enter a title")
  {
    var w := new Wizard(defaultExpiresAt);
    w.HandleInputChange(Title, "   ");
    w.HandleNext();
    step, error := w.step, w.error;
  }
}
