# Trivial: task wizard, task views, registration and user defaults

Trivial is a small freelance-task application. It has a React front end and a
Django back end. This project models the parts of it that are logic rather
than markup or plumbing, and proves properties about them:

- **The task-creation wizard** (`CreateTask.tsx`): four steps. Each of the
  first three steps validates its own fields before the user may move on. The
  last step posts the task and goes to the new task's page.
- **The four views that fetch JSON**: the task list with its category filter,
  the task detail, the account page and "my tasks". Each unwraps
  differently shaped payloads using JavaScript truthiness. Each renders in a
  fixed order: loading, then error, then not found or empty, then content.
  They share helpers: the five-star rating, the category icon with its
  default, the status and button labels, the avatar fallback, the "about me"
  fallback and the comma-separated social links.
- **The registration dialog** (`RegisterModal.tsx`): a password-confirmation
  guard that stops the handler before any request is made, then the request
  and its outcome.
- **The back end's user creation** (`apps/users/managers.py`,
  `apps/users/models.py`):
  - the e-mail requirement;
  - the `setdefault` defaults for `username` and for the three superuser flags;
  - the `is True` checks on those flags;
  - the username <- e-mail fallback in `save`.

The modules are:

- `js.dfy`: the JavaScript semantics the components rely on:
  - a JSON value and its truthiness;
  - `a || b`;
  - property access, which throws on `null` or `undefined`;
  - what a fetch can end in;
  - what a `catch` stores;
  - `String(v)`;
  - the `HTTP error! status: <n>` message.
- `text.dfy`: ECMAScript `trim` and its whitespace set, `split`/`join` on one
  character, and the full `StringNumericLiteral` grammar behind `isNaN(Number(s))`.
- `display.dfy`: the rendering helpers the views share.
- `task_list.dfy`, `task_detail.dfy`, `account.dfy`, `my_tasks.dfy`: one view
  each. Every view is a class with the component's state fields, a `Load`
  method that runs the mount effect to completion, and a `Render` function
  that gives the branch shown.
- `create_task.dfy`: the wizard as a class. Its invariant is that being on
  step k means steps 1..k-1 validate for the current data.
- `register_modal.dfy`: the registration dialog as a class.
- `users.dfy`: `create_user`, `create_superuser` and `User.save`.
  - `extra_fields` is a map from names to Python values.
  - `normalize_email` and the password hasher are function parameters.

A fetch is a parameter of the handler that runs it. The parameter gives the
outcome: a response (ok flag, status, and a body that parses or fails to
parse), or a rejection (an `Error` with its message, or some other thrown
value). Every handler runs to completion in one call.

## Model

| member | source | states |
|---|---|---|
| Js.Or | frontend/trivial-frontend/src/components/TaskList.tsx:61 | `a \|\| b` is `a` when `a` is truthy and `b` otherwise; the result is truthy iff either operand is |
| Js.Member | frontend/trivial-frontend/src/components/TaskDetail.tsx:69 | `v.key` throws exactly on null/undefined; an object's own key gives its value; any other receiver or key gives `undefined`, which holds for every key the components read since none of them is a built-in property such as `length` |
| Js.CatchMessage | frontend/trivial-frontend/src/components/CreateTask.tsx:116 | what a `catch` stores: an Error gives its message, any other thrown value gives the fallback |
| Js.NatToDecimalRoundTrip | frontend/trivial-frontend/src/components/TaskList.tsx:57 | the decimal rendering of a status is non-empty, all digits, starts with '0' only for zero (then it is "0"), and reads back as the same number |
| Js.DecimalValueSnoc | frontend/trivial-frontend/src/components/TaskList.tsx:57 | appending a digit to a decimal string multiplies its value by ten and adds the digit |
| Js.ToJsString | frontend/trivial-frontend/src/components/CreateTask.tsx:110 | `String(v)` of a string is the string itself |
| Js.HttpErrorMessage | frontend/trivial-frontend/src/components/TaskList.tsx:57 | the message is `HTTP error! status: ` followed by the canonical decimal of the status: digits with no leading zero ("0" for zero) whose value is the status |
| Text.TrimStartShape | frontend/trivial-frontend/src/components/CreateTask.tsx:51 | trimming the start drops a whitespace-only prefix and leaves a suffix that is empty or starts with a non-whitespace character |
| Text.TrimEndShape | frontend/trivial-frontend/src/components/CreateTask.tsx:51 | trimming the end drops a whitespace-only suffix and leaves a prefix that is empty or ends with a non-whitespace character |
| Text.TrimShape | frontend/trivial-frontend/src/components/Account.tsx:128 | `trim()` is a slice of the input that drops only whitespace on either side and neither starts nor ends with whitespace |
| Text.TrimEmptyIff | frontend/trivial-frontend/src/components/CreateTask.tsx:51 | `s.trim()` is empty iff every character of `s` is whitespace |
| Text.TrimIdempotent | frontend/trivial-frontend/src/components/Account.tsx:128 | trimming twice gives the same result as trimming once |
| Text.TrimUnchanged | frontend/trivial-frontend/src/components/Account.tsx:128 | a string with non-whitespace at both ends is its own trim |
| Text.IndexOf | frontend/trivial-frontend/src/components/Account.tsx:125 | the index found is the first occurrence of the character, or the length when it is absent |
| Text.Split | frontend/trivial-frontend/src/components/Account.tsx:125 | `split(sep)` gives at least one piece and no piece contains the separator |
| Text.CountAppend | frontend/trivial-frontend/src/components/Account.tsx:125 | the separator count of a concatenation is the sum of the counts |
| Text.CountAbsent | frontend/trivial-frontend/src/components/Account.tsx:125 | a string without the separator counts zero of it |
| Text.JoinSplit | frontend/trivial-frontend/src/components/Account.tsx:125 | joining the pieces of a split with the separator gives back the original string |
| Text.SplitCount | frontend/trivial-frontend/src/components/Account.tsx:125 | a split yields one more piece than there are separators |
| Text.SplitJoin | frontend/trivial-frontend/src/components/Account.tsx:125 | splitting a join of separator-free pieces gives back the pieces |
| Text.IndexOfAfterFree | frontend/trivial-frontend/src/components/Account.tsx:125 | the first separator after a separator-free prefix is at the prefix's length |
| Text.ExponentIndex | frontend/trivial-frontend/src/components/CreateTask.tsx:67 | the exponent marker found is the first `e`/`E`, or the length when there is none |
| Text.DigitsAreNumbers | frontend/trivial-frontend/src/components/CreateTask.tsx:67 | a non-empty run of decimal digits is never NaN under `Number` |
| Text.TrailingGarbageIsNaN | frontend/trivial-frontend/src/components/CreateTask.tsx:67 | `Number("12abc")` is NaN: trailing non-numeric text makes the price invalid |
| Display.RenderRating | frontend/trivial-frontend/src/components/TaskList.tsx:85-99 | the loop pushes exactly five stars, star i (from 1) being lit iff i <= rating; the result is `Stars(rating)`, the stars the cards and profile carry |
| Display.LitCount | frontend/trivial-frontend/src/components/TaskList.tsx:91 | the number of lit stars never exceeds the number of stars |
| Display.LitPrefixCount | frontend/trivial-frontend/src/components/TaskList.tsx:85-99 | stars lit exactly on a prefix of length n count n lit |
| Display.RatingLitCount | frontend/trivial-frontend/src/components/TaskDetail.tsx:92-107 | the rating loop lights min(5, max(0, rating)) stars |
| Display.RatingStars | frontend/trivial-frontend/src/components/MyTasksList.tsx:86-99 | a numeric rating field gets exactly the loop's stars `Stars(rating)`: five stars, star k+1 lit iff k < rating, so the lit ones come first and min(5, max(0, rating)) are lit; any other value has no stars in the model |
| Display.CategoryIcon | frontend/trivial-frontend/src/components/TaskList.tsx:22-43 | the table is keyed by `String(category)`: the design, web and text icons are chosen exactly when that string is the name; a string category outside the three gets the default icon |
| Display.ArrayCategoryIcon | frontend/trivial-frontend/src/components/TaskList.tsx:119 | a one-element array category picks the same icon as its element's name |
| Display.StatusLabel | frontend/trivial-frontend/src/components/TaskDetail.tsx:140-141 | the badge reads 'Completed' iff `is_completed` is truthy and 'Active' otherwise |
| Display.ActionLabel | frontend/trivial-frontend/src/components/TaskDetail.tsx:198 | the button reads 'Task Completed' iff `is_completed` is truthy and 'Accept Task' otherwise |
| Display.LabelsAgree | frontend/trivial-frontend/src/components/TaskDetail.tsx:140-141 | the badge and the button always agree about completion |
| Display.AvatarFor | frontend/trivial-frontend/src/components/TaskDetail.tsx:169-171 | a truthy image is shown as the picture; otherwise the first character of the name, and the empty string for an empty name |
| Display.AboutMe | frontend/trivial-frontend/src/components/Account.tsx:116 | a truthy `about_me` is shown as is; a falsy one shows 'No information provided'; what is shown is always truthy |
| Display.SocialLinks | frontend/trivial-frontend/src/components/Account.tsx:121-133 | the links section exists iff `socials` is truthy; it has one link per comma-separated piece (commas + 1), each with href and text the trimmed piece |
| TaskList.NormaliseTasks | frontend/trivial-frontend/src/components/TaskList.tsx:61-62 | an array is used as is; for an object, a truthy `data.data` wins, then a truthy `data.results`, each used when it is an array and refused with 'Expected an array of tasks' when it is not; with both falsy the tasks are `[]`; null throws; other primitives give `[]` |
| TaskList.WrappedPayloadsAgree | frontend/trivial-frontend/src/components/TaskList.tsx:61 | a bare array, `{data: array}` and `{results: array}` give the same tasks |
| TaskList.TruthyNonArrayRejected | frontend/trivial-frontend/src/components/TaskList.tsx:62 | a truthy `data.data` that is not an array is rejected with 'Expected an array of tasks' |
| TaskList.KeepCategory | frontend/trivial-frontend/src/components/TaskList.tsx:102 | the filter keeps only tasks of the category, drawn from the input, and keeps every such task |
| TaskList.FilterTasks | frontend/trivial-frontend/src/components/TaskList.tsx:102 | with 'all' selected the list is unchanged; the result is never longer than the input |
| TaskList.FilterIsSubsequence | frontend/trivial-frontend/src/components/TaskList.tsx:102 | the filtered tasks are a subsequence of the tasks, in their original order |
| TaskList.SubsequenceReflexive | frontend/trivial-frontend/src/components/TaskList.tsx:102 | the unfiltered list ('all') is a subsequence of itself |
| TaskList.KeepCategorySubsequence | frontend/trivial-frontend/src/components/TaskList.tsx:102 | `tasks.filter(...)` keeps the original order |
| TaskList.FilterCounts | frontend/trivial-frontend/src/components/TaskList.tsx:102 | with a category selected, each task occurs in the result as often as in the input when it matches, and never otherwise |
| TaskList.KeepCategoryCounts | frontend/trivial-frontend/src/components/TaskList.tsx:102 | the same multiplicity statement for the filter itself |
| TaskList.SettleFetch | frontend/trivial-frontend/src/components/TaskList.tsx:55-68 | a non-ok response fails with `HTTP error! status: <status>`; tasks load exactly from an ok, parsed, normalisable body; a malformed body, a normalisation error or a thrown Error fails with its message; only a thrown non-Error leaves no message |
| TaskList.TaskListView.Load | frontend/trivial-frontend/src/components/TaskList.tsx:51-70 | after the effect loading is off, the filter is unchanged, and tasks or error are set as the settled fetch says |
| TaskList.TaskListView.SelectCategory | frontend/trivial-frontend/src/components/TaskList.tsx:146-149 | a click selects that category, which is always one of the offered ones |
| TaskList.TaskListView.Render | frontend/trivial-frontend/src/components/TaskList.tsx:102-131 | a filter that throws on a null task comes first, then loading, then a non-empty error whose message is shown, then the empty-category notice 'No tasks found in the "<category>" category' or the filtered tasks; a card whose creator cannot be read throws |
| TaskList.DesignFilterExample | frontend/trivial-frontend/src/components/TaskList.tsx:102-111 | one web task filtered by design shows the design empty notice |
| TaskDetail.UnwrapTask | frontend/trivial-frontend/src/components/TaskDetail.tsx:69 | the task is `data.task` when that is truthy, otherwise `data` itself; null throws |
| TaskDetail.WrappedAndBareAgree | frontend/trivial-frontend/src/components/TaskDetail.tsx:69 | `{task: t}` and `t` unwrap to the same task |
| TaskDetail.SettleFetch | frontend/trivial-frontend/src/components/TaskDetail.tsx:62-76 | a non-ok response fails with `HTTP error! status: <status>`; a task loads exactly from an ok response whose parsed body is not nullish; a malformed body or a thrown Error fails with its message, a null body with the TypeError of reading `task`; only a thrown non-Error leaves no message |
| TaskDetail.TaskDetailView.Load | frontend/trivial-frontend/src/components/TaskDetail.tsx:58-77 | after the effect loading is off and the task or error is set as the settled fetch says |
| TaskDetail.TaskDetailView.Render | frontend/trivial-frontend/src/components/TaskDetail.tsx:109-171 | spinner, then a non-empty error whose message is shown, then 'Task not found' for a falsy task, then the detail; the detail throws when the creator is missing or has neither a truthy image nor a string name |
| TaskDetail.NotOkExample | frontend/trivial-frontend/src/components/TaskDetail.tsx:64 | a non-ok response ends with the `HTTP error! status: <status>` banner |
| TaskDetail.HeaderOf | frontend/trivial-frontend/src/components/TaskDetail.tsx:128-141 | icon by category with the default fallback; badge and button both follow `is_completed`, 'Active'/'Accept Task' when falsy |
| Account.FetchUser | frontend/trivial-frontend/src/components/Account.tsx:24-35 | non-ok gives 'Failed to fetch user data'; a thrown Error gives its message and a thrown non-Error 'An error occurred'; a malformed body fails with its message and a null body with the TypeError of reading `user`; success stores `data.user` |
| Account.MissingUserNotFound | frontend/trivial-frontend/src/components/Account.tsx:33 | a body without `user` stores `undefined` |
| Account.ProfileOf | frontend/trivial-frontend/src/components/Account.tsx:77-133 | the profile renders unless the name or socials cannot be read as strings; its avatar is `AvatarFor` of the image and name, its stars `RatingStars` of `rating`, its about-me the fallback, and its links exactly `SocialLinks` of `socials`, present iff `socials` is truthy |
| Account.AccountView.Load | frontend/trivial-frontend/src/components/Account.tsx:21-42 | after the effect loading is off and the user or error is set as the fetch says |
| Account.AccountView.Render | frontend/trivial-frontend/src/components/Account.tsx:61-133 | spinner, then a non-empty error whose message is shown, then 'User not found' for a falsy user, then the profile exactly when the user is an object whose profile renders, and a throwing render otherwise |
| Account.FailedLoadShowsError | frontend/trivial-frontend/src/components/Account.tsx:67 | a failed load with a message shows that message |
| MyTasks.TasksOrEmpty | frontend/trivial-frontend/src/components/MyTasksList.tsx:63 | the tasks are `data.tasks` when truthy, otherwise `[]`; null throws |
| MyTasks.FetchTasks | frontend/trivial-frontend/src/components/MyTasksList.tsx:54-66 | non-ok gives `HTTP error! status: <status>`; a thrown Error gives its message and a thrown non-Error 'Failed to fetch tasks'; a malformed body fails with its message and a null body with the TypeError of reading `tasks`; success stores `data.tasks \|\| []` |
| MyTasks.CardOf | frontend/trivial-frontend/src/components/MyTasksList.tsx:121-145 | a card shows its task, the icon of its category, 'Completed' iff `is_completed` is truthy and 'Active' otherwise (the shared `StatusLabel`), and `RatingStars` of its creator's rating |
| MyTasks.Cards | frontend/trivial-frontend/src/components/MyTasksList.tsx:121 | one card per task, in order |
| MyTasks.MyTasksView.Load | frontend/trivial-frontend/src/components/MyTasksList.tsx:48-70 | after the effect loading is off and the tasks or error are set as the fetch says |
| MyTasks.MyTasksView.Render | frontend/trivial-frontend/src/components/MyTasksList.tsx:103-142 | spinner, then a non-empty error whose message is shown; for an array, the empty notice for no tasks, or one card per task when every task's creator can be read and a throwing render otherwise; for any other value, the notice iff its `length` is 0 and a throwing render otherwise |
| MyTasks.MissingTasksExample | frontend/trivial-frontend/src/components/MyTasksList.tsx:63 | a response without `tasks` shows "You haven't created any tasks yet" |
| CreateTask.StepOf | frontend/trivial-frontend/src/components/CreateTask.tsx:165-233 | each text input lives on one of steps 1 to 3 |
| CreateTask.StepOneBlankTitle | frontend/trivial-frontend/src/components/CreateTask.tsx:50-55 | step 1 fails with 'Please enter a title' exactly when the title is blank, and passes otherwise |
| CreateTask.StepTwoBlankCategory | frontend/trivial-frontend/src/components/CreateTask.tsx:56-61 | step 2 fails with 'Please select a category' exactly when the category is blank |
| CreateTask.StepThreeOrder | frontend/trivial-frontend/src/components/CreateTask.tsx:62-71 | the description is checked before the price; the price fails when blank or NaN under `Number` |
| CreateTask.DigitPriceAccepted | frontend/trivial-frontend/src/components/CreateTask.tsx:67 | a described task with a digits-only price passes step 3 |
| CreateTask.StepErrorLocal | frontend/trivial-frontend/src/components/CreateTask.tsx:48-75 | each step's check reads only that step's fields |
| CreateTask.WithInput | frontend/trivial-frontend/src/components/CreateTask.tsx:25-31 | an input change replaces only the named field |
| CreateTask.SubmitResult | frontend/trivial-frontend/src/components/CreateTask.tsx:93-116 | the body is parsed first, so a malformed body fails with its message and a null body with the TypeError of reading `message` or `id`; non-ok is an error: `String(message)` when truthy, else 'Failed to create task'; a thrown Error gives its message, a thrown non-Error 'An unknown error occurred'; success yields `data.id` |
| CreateTask.Wizard.constructor | frontend/trivial-frontend/src/components/CreateTask.tsx:14-23 | step 1, empty fields with the given default expiry, not loading, no error |
| CreateTask.Wizard.ValidateStep | frontend/trivial-frontend/src/components/CreateTask.tsx:48-75 | returns true iff the step's check passes and leaves that check's message (or none) in `error`; steps other than 1 to 3 always pass |
| CreateTask.Wizard.HandleNext | frontend/trivial-frontend/src/components/CreateTask.tsx:77-80 | the step rises by exactly one when validation passes and stays otherwise; the wizard invariant is kept |
| CreateTask.Wizard.HandleBack | frontend/trivial-frontend/src/components/CreateTask.tsx:82-88 | above step 1 the step drops by one; on step 1 it stays and the page navigates back |
| CreateTask.Wizard.HandleInputChange | frontend/trivial-frontend/src/components/CreateTask.tsx:25-31 | only the named field changes, and the earlier steps still validate |
| CreateTask.Wizard.HandleCategorySelect | frontend/trivial-frontend/src/components/CreateTask.tsx:33-38 | only the category changes, to one of web/design/text/programming |
| CreateTask.Wizard.HandleDateChange | frontend/trivial-frontend/src/components/CreateTask.tsx:40-46 | only the expiry changes |
| CreateTask.Wizard.Settle | frontend/trivial-frontend/src/components/CreateTask.tsx:113-116 | success navigates to the new task; failure stores the message |
| CreateTask.Wizard.ReadyOnLastStep | frontend/trivial-frontend/src/components/CreateTask.tsx:90-91 | on the last step every earlier step validates |
| CreateTask.Wizard.HandleSubmit | frontend/trivial-frontend/src/components/CreateTask.tsx:90-120 | step 4's guard never blocks; the posted data validates; loading ends; success navigates to the task, failure stores the message |
| CreateTask.BlankTitleExample | frontend/trivial-frontend/src/components/CreateTask.tsx:50-55 | Next on a fresh wizard stays on step 1 with 'Please enter a title' |
| RegisterModal.WithField | frontend/trivial-frontend/src/components/RegisterModal.tsx:19-25 | a change replaces only the named field and keeps the other three |
| RegisterModal.RequestBody | frontend/trivial-frontend/src/components/RegisterModal.tsx:44-48 | the body has exactly `email`, `password` and `name`; `confirmPassword` is never sent |
| RegisterModal.RegisterVerdict | frontend/trivial-frontend/src/components/RegisterModal.tsx:51-60 | registered iff ok with a parseable body; a malformed body fails with its message; non-ok gives `String(data.error)` when truthy, 'Registration failed' when falsy or for a primitive body, and the TypeError for a null body; a thrown Error gives its message, a thrown non-Error 'Registration failed' |
| RegisterModal.RegisterForm.constructor | frontend/trivial-frontend/src/components/RegisterModal.tsx:9-17 | empty fields, no error, not registered, not loading |
| RegisterModal.RegisterForm.HandleChange | frontend/trivial-frontend/src/components/RegisterModal.tsx:19-25 | the form data becomes the old data with the named field replaced |
| RegisterModal.RegisterForm.HandleRegister | frontend/trivial-frontend/src/components/RegisterModal.tsx:27-64 | mismatched passwords set 'Passwords do not match' with no request and nothing else changed; otherwise one request, loading ends, and success (with one `onRegisterSuccess` call) or the error is recorded |
| RegisterModal.RegisterForm.Render | frontend/trivial-frontend/src/components/RegisterModal.tsx:80-138 | the success panel iff registered; otherwise the error line iff the error is non-empty, and 'Registering...' while loading |
| RegisterModal.MismatchExample | frontend/trivial-frontend/src/components/RegisterModal.tsx:31-34 | different passwords keep the form up with the mismatch message, whatever the server would say |
| Users.SetDefault | apps/users/managers.py:25 | `setdefault` adds the key with the default only when absent and never changes an existing entry |
| Users.UserFields | apps/users/managers.py:22-26 | a falsy e-mail raises 'The Email must be set' first; otherwise the model gets the normalised e-mail, `username` defaulting to it only when the caller gave none, and the caller's other fields unchanged |
| Users.SuperuserFields | apps/users/managers.py:50-57 | the three flags default to True without overwriting given values; a given `is_staff` that is not `True` is refused first, then `is_superuser` |
| Users.FlagsCheckedBeforeEmail | apps/users/managers.py:54-59 | a bad flag is reported before the e-mail is looked at |
| Users.SuperuserNeedsEmail | apps/users/managers.py:56-59 | with acceptable flags, a superuser without an e-mail is still refused with 'The Email must be set' |
| Users.SuperuserCreatedFields | apps/users/managers.py:50-59 | a created superuser has `is_staff` and `is_superuser` True, a username and the normalised e-mail |
| Users.UsernameFallback | apps/users/models.py:24-25 | saving keeps a truthy username and replaces an empty or missing one with the e-mail |
| Users.SaveIdempotent | apps/users/models.py:23-26 | saving twice leaves the same username as saving once |
| Users.SavedUsernamePresent | apps/users/models.py:24-25 | after a save with a non-empty e-mail the username is never empty |
| Users.User.constructor | apps/users/models.py:7-9 | a new row takes the given e-mail, username `None` unless given, and no password yet |
| Users.User.SetPassword | apps/users/managers.py:27 | the stored password is the hasher's output for the raw value |
| Users.User.Save | apps/users/models.py:23-26 | the username fallback, then one write; the e-mail is not touched |
| Users.CreateUser | apps/users/managers.py:22-29 | raises as `UserFields` says, or returns a new row saved once with the normalised e-mail, the defaulted-then-saved username and the hashed password |
| Users.CreateSuperuser | apps/users/managers.py:50-59 | the flag checks, then exactly what `create_user` does with the defaulted flags |

## Left out

- Network, JSON parsing and React: `fetch` and `response.json()` are an outcome parameter. Hooks, effects and the markup are not modelled; a render is a datatype of branches.
- Concurrency: each handler runs to completion in one call, so the `isLoading` value seen mid-request and a second submit while a request is in flight are not modelled.
- Dates and locale: the default expiry seven days from `Date.now()` is a constructor parameter. `formatDateForInput`, `formatDeadline`, `formatDate` and `toLocaleString` are not modelled. `handleDateChange` stores the given ISO string; the `Date` round trip and an invalid date's `toISOString` throw are not modelled.
- Strings are sequences of characters; JavaScript's UTF-16 code units (`charAt(0)` on a surrogate pair) are not distinguished from code points.
- JSON numbers are integers: fractional ratings, NaN and `-0` are not modelled. The rating's coercion in `i <= rating` for non-number values is not modelled.
- Display.CategoryIcon: an inherited `Object.prototype` key used as a category (`"constructor"`) would pick up a prototype member in the source; the model gives the default icon.
- TaskList.FilterTasks: treats a null task as not in the category; the throw the source's filter raises on it is modelled in `TaskList.TaskListView.Render` instead. The `|| []` after the filter never fires and is left out.
- The task list and task page screens hold the task itself; its creator's stars are `Display.RatingStars` of `task.creator.rating` but are not a separate field of those screens.
- Display.SocialLinks: requires `socials` to be a string or falsy; a truthy non-string makes `split` throw, which `Account.ProfileOf` reports as no profile.
- `App.tsx` does not pass `onRegisterSuccess`, so the call in `handleRegister` would throw there; the model counts the calls as if the prop were given.
- React refuses an object as a text child: a task or user field that holds an object or array where the markup prints it (`{task.title}`, `{user.name}`) makes the render throw. The model does not track this; it models only the throws from reading a property of null or undefined and from `charAt`, `split` and `map` on values that lack them.
- `e.preventDefault()` in `handleRegister` is a browser effect and is not modelled.
- Back end beyond `apps/users/managers.py` and `apps/users/models.py`: views, serializers, JWT handling, tasks, chat and routing are not part of this model.
- `normalize_email` and `set_password`'s hasher are function parameters; Django's own implementations are not part of this model. `create_user` is modelled for an e-mail that is a string or `None`.
- Users.CreateUser: Django's model constructor rejects unknown keyword names and the database enforces the 30-character `username` limit and unique e-mail; neither is modelled. `email` and `password` are named parameters, so the model requires them to be absent from `extra_fields`, as Python guarantees.
- The ORM write in `save` is a ghost counter of writes.
