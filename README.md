# Task tracker client: gateway, session and page rules

A Dafny model of the logic inside a React front end for a task and project tracker. Most of
the application is rendering; the model covers the parts that compute something.

- **Gateway** (`src/services/api.ts`):
  - the response normaliser `transformData`, which turns server documents (`_id`, `__v`)
    into client entities (`id`);
  - the request interceptor, which attaches the bearer token;
  - the error interceptor, which picks the rejection message and handles an expired
    session (401).
- **Field decryption** (`src/utils/crypto.util.ts`): splitting an `iv:ciphertext` field, the
  never-throw fallback, and the `email` rewrite of `decryptUserFields`. The AES primitive is a
  parameter that may fail.
- **Auth service** (`src/services/authService.ts`): the response-structure checks of
  `register` and `login`, and their first-truthy error-message chain.
- **Task service** (`src/services/taskService.ts`): the method, URL and body of each request.
- **Session** (`src/context/AuthContext.tsx`): the class `AuthProvider`, holding the user,
  the loading flag and a `Browser`. The `Browser` stands for local storage (the token), the
  location and the toasts shown.
- **Route guards** (`src/App.tsx`).
- **Small page and form rules**:
  - status helpers (`TaskCard.tsx`, copied in `TaskDetails.tsx`);
  - statistics and newest-first lists (`Dashboard.tsx`, `ProjectDetails.tsx`);
  - the status filter and empty-state texts (`Tasks.tsx`);
  - form schemas and default values (`TaskForm.tsx`, `ProjectForm.tsx`);
  - the submit handlers of the login, sign-up and profile pages.

JavaScript values are one datatype, `Values.Value`, with truthiness, `||`, property reads,
object spread and `String(v)` modelled. The rules above therefore hold for any JSON value
with integer numbers that the server may send. Every awaited call is a parameter: its settled
outcome, `Fulfilled(value)` or `Rejected(reason)`. Page handlers that only close a modal,
navigate or send a request return a list of effects.

Points where the code's behaviour is easy to misread:

- **Nested documents are not normalised.** A document's own fields are copied verbatim
  (`src/services/api.ts:53-54`), so a document nested in a document keeps its `_id`
  (`Gateway.NestedDocumentNotNormalised`). The normaliser is idempotent on values in which no
  document holds another (`Gateway.TransformIdempotentOnFlat`), and not in general.
- **The expiry notice is conditional.** A 401 always removes the token, but it requests the
  redirect and shows the expiry notice only when the pathname is not `/login`
  (`src/services/api.ts:80-86`). Assigning `location.href` does not change the pathname at
  once: it changes when the navigation commits, and the new page starts without the old
  toasts. So every 401 handled before the commit shows the notice again
  (`Gateway.ExpiryNoticePerPendingResponse`), and after the commit none is shown
  (`Gateway.NoExpiryNoticeAfterRedirect`).
- **Register and login do not decrypt.** `authService` returns the response as received
  (`src/services/authService.ts:22`). A user's `email` is decrypted only by the gateway's
  normaliser, when the user is a document with an `email` (`Gateway.TransformDocument`).
- **The login and sign-up pages never show the service's message.** The session rethrows
  the service's `Error` object (`src/context/AuthContext.tsx:66`), and these pages show a
  caught value only when it is a string (`src/pages/auth/Login.tsx:41`), so they always show
  their fixed text (`LoginPage.FailureAlwaysShowsFixedText`). The profile page calls the
  gateway directly and does show the gateway's string reason
  (`ProfilePage.GatewayReasonShown`).

## Model

| member | source | states |
|---|---|---|
| Values.Or | src/context/AuthContext.tsx:42 | `a \|\| b` is the first operand when truthy, else the second; the result is truthy exactly when either operand is |
| Values.Prop | src/pages/profile/Profile.tsx:35 | `v?.key` is the own property of an object, and `undefined` when it is missing or `v` is no object |
| Values.Spread | src/context/AuthContext.tsx:100 | an object spreads to its own fields; `null`, `undefined`, booleans and numbers spread to nothing |
| Values.ToJsString | src/context/AuthContext.tsx:60 | `String(v)` keeps a string, gives "[object Object]" for an object, and "undefined" and "null" for those values |
| Values.CaughtText | src/pages/auth/Login.tsx:41 | a caught string is shown as it is; any other caught value is shown as the fixed text |
| Values.IndexOf | src/utils/crypto.util.ts:17 | the index of the first occurrence of the separator: it holds the character, and no earlier index does; none when absent |
| Crypto.Segments | src/utils/crypto.util.ts:17 | the first two pieces of `split(":")`: the IV holds no colon; without a colon the IV is the whole string and there is no ciphertext; otherwise the string starts with IV, colon, ciphertext, followed by nothing or another colon |
| Crypto.DecryptField | src/utils/crypto.util.ts:15-33 | never throws: a non-string, or a string without a ciphertext segment, comes back unchanged; any other result is a string |
| Crypto.SegmentsOfField | src/utils/crypto.util.ts:17 | for `iv:ct` followed by any further `:` segments, the IV is the text before the first colon and the ciphertext the text between the first and second colons |
| Crypto.IndexOfAfterPrefix | src/utils/crypto.util.ts:17 | after a colon-free prefix, the first colon is the first colon of the rest, shifted by the prefix length |
| Crypto.DecryptFieldOfSegments | src/utils/crypto.util.ts:17-31 | for such a field, the primitive is applied to the IV and ciphertext segments alone; success gives its plaintext, and failure gives back the whole field |
| Crypto.DecryptFieldWithoutColon | src/utils/crypto.util.ts:17-31 | a string without a colon comes back unchanged, whatever the primitive does |
| Crypto.DecryptUserFields | src/utils/crypto.util.ts:41-47 | a falsy user comes back unchanged; otherwise a copy with the same keys plus `email`; every other field is unchanged; a truthy email is decrypted and a falsy one kept as it is |
| Gateway.TransformScalar | src/services/api.ts:43-72 | falsy values and every value that is neither array nor object come back unchanged |
| Gateway.TransformArray | src/services/api.ts:47-49 | an array maps to an array of the same length whose i-th element is the normalised i-th element |
| Gateway.TransformDocument | src/services/api.ts:52-60 | a document loses `_id` and `__v` and gains `id`; `id` is `_id`'s value unless the document had an `id`, which wins; other fields are copied verbatim, except that a truthy `email` is decrypted |
| Gateway.TransformPlainObject | src/services/api.ts:63-69 | an object without `_id` keeps exactly its keys, each value normalised; a string `email` in it is never decrypted |
| Gateway.TransformClean | src/services/api.ts:43-72 | a value holding no `_id` anywhere is a fixed point of the normaliser |
| Gateway.TransformFlatIsClean | src/services/api.ts:43-72 | when no document holds another, the normalised value holds no `_id` anywhere |
| Gateway.TransformIdempotentOnFlat | src/services/api.ts:43-72 | normalising twice equals normalising once for such values |
| Gateway.NestedDocumentNotNormalised | src/services/api.ts:53-54 | a document nested in a document keeps its `_id`, and a second pass changes the result |
| Gateway.InterceptRequest | src/services/api.ts:19-30 | with a truthy stored token, the config gains `Authorization: Bearer <token>` and nothing else changes; otherwise the config is unchanged; the same config is returned |
| Gateway.RejectionReason | src/services/api.ts:77 | the reason is always truthy: the server's message if truthy, else the transport message if truthy, else "Something went wrong" |
| Gateway.InterceptError | src/services/api.ts:76-89 | rejects with that reason and keeps the current pathname; a 401 always removes the token, and off /login requests navigation to /login and appends the expiry toast, while on /login it does neither; other statuses change nothing |
| Gateway.Browser.CommitNavigation | src/services/api.ts:83 | a requested navigation takes effect: the pathname becomes its target and the new page starts without toasts; with none pending nothing changes; the token is kept |
| Gateway.ExpiryNoticePerPendingResponse | src/services/api.ts:80-86 | two 401s handled before the navigation commits both remove the token and, off /login, both append the expiry toast; on /login nothing else changes |
| Gateway.NoExpiryNoticeAfterRedirect | src/services/api.ts:80-86 | a 401 handled after the redirect has committed finds the pathname /login and shows nothing: no token, on /login, no toast, no pending navigation |
| AuthService.RegisterRequest | src/services/authService.ts:7 | register POSTs the user data unchanged to /auth/register |
| AuthService.LoginRequest | src/services/authService.ts:37 | login POSTs the credentials unchanged to /auth/login |
| AuthService.Caught | src/services/authService.ts:11-19 | nothing is caught exactly when the response is truthy with a truthy token and user; a falsy response throws "Empty response from server", a missing token or user "Invalid response structure from server", and a rejection's reason is caught as is |
| AuthService.Settle | src/services/authService.ts:5-33 | resolves exactly on a well-formed response, returned unchanged; otherwise fails with the message chain applied to what was caught |
| AuthService.Register | src/services/authService.ts:5-33 | succeeds exactly on a response with a truthy token and a truthy user, which is returned unchanged; a falsy response fails with "Empty response from server"; a missing token or user fails with "Invalid response structure from server"; a rejection fails with the message chain |
| AuthService.Login | src/services/authService.ts:35-62 | the same rules as register, for /auth/login with fallback "Login failed" |
| AuthService.ErrorMessage | src/services/authService.ts:27-31 | the message is the server's message if truthy, else the caught value's own message if truthy, else the fallback |
| AuthService.GatewayRejectionIsReadable | src/services/authService.ts:27 | the gateway's rejection reason is never `null` or `undefined`, so reading `error.response` in the catch block cannot throw |
| AuthService.GatewayRejectionBecomesFallback | src/services/authService.ts:56-60 | a bare string from the gateway has neither field, so it becomes the fixed fallback text |
| AuthService.StructuralErrorsDistinct | src/services/authService.ts:11-19 | the two structural error texts differ from each other and from both fallbacks |
| AuthService.RegisterMatchesLogin | src/services/authService.ts:5-62 | register and login accept the same responses and differ only where the fallback text is used |
| TaskService.GetTasksRoundTrip | src/services/taskService.ts:6-11 | the list request is a GET without body; an absent or empty project id requests exactly "/tasks"; any other id is read back verbatim from "/tasks?projectId=" + id |
| TaskService.SingleTaskRequests | src/services/taskService.ts:13-27 | get, update and delete address "/tasks/" + id with GET, PUT and DELETE; the id is read back verbatim; only the update has a body, unchanged |
| TaskService.CreateTaskRequest | src/services/taskService.ts:17-19 | create POSTs the task data unchanged to "/tasks" |
| AuthContext.ProfileUser | src/context/AuthContext.tsx:39-47 | at startup the user is `response.data` when truthy, else the response; a rejected call, or a null or undefined response, installs none |
| AuthContext.Merged | src/context/AuthContext.tsx:100 | supplied fields override, every other field of the user is kept, and no other key appears |
| AuthContext.AuthProvider.constructor | src/context/AuthContext.tsx:32-33 | the session starts with no user and loading |
| AuthContext.AuthProvider.InitAuth | src/context/AuthContext.tsx:36-50 | with a truthy stored token, the fetched user is installed, or a failed fetch removes the token; without a token nothing changes; loading ends in every case |
| AuthContext.AuthProvider.Login | src/context/AuthContext.tsx:54-70 | success stores exactly the response's token and installs its user, with a success toast; failure toasts the message and rethrows the `Error`, leaving token and user unchanged; loading ends either way |
| AuthContext.AuthProvider.Register | src/context/AuthContext.tsx:72-90 | the same as login; an empty failure message is toasted as the fixed registration text |
| AuthContext.AuthProvider.Logout | src/context/AuthContext.tsx:92-96 | removes the token, clears the user (so not authenticated), and adds the logged-out toast |
| AuthContext.AuthProvider.UpdateUser | src/context/AuthContext.tsx:98-102 | without a user nothing changes; otherwise the supplied fields are merged over the user |
| Routes.ProtectedRoute | src/App.tsx:25-37 | spinner exactly while loading; the pages exactly when loaded and authenticated; otherwise a redirect to /login |
| Routes.PublicRoute | src/App.tsx:40-52 | spinner exactly while loading; the pages exactly when loaded and not authenticated; otherwise a redirect to /dashboard |
| Routes.ExactlyOneGuardRenders | src/App.tsx:25-52 | once loading is over, exactly one guard renders its pages and the other redirects |
| TaskCard.ProgressAlongStages | src/components/tasks/TaskCard.tsx:21-64 | progress strictly rises along TODO, IN_PROGRESS, REVIEW, DONE, stays in 0..100 and is 100 only for DONE; an unknown status gives 0, the default badge and its raw text as label |
| TaskCard.GreenIffDone | src/components/tasks/TaskCard.tsx:85 | the bar is green exactly when progress is 100 |
| TaskCard.OptionsFollowStages | src/components/tasks/TaskCard.tsx:97-101 | the selector offers exactly the four stages in order, each under its label; labels and badges are pairwise distinct |
| TaskDetails.HelpersMatchTaskCard | src/pages/tasks/TaskDetails.tsx:66-109 | the page's badge, label and progress helpers agree with the task card's for every status |
| TaskDetails.Page | src/pages/tasks/TaskDetails.tsx:30-64 | loading while either query loads; not found exactly when no task; otherwise the shown project is the first project with the task's project id, and none only when no project has it; badge, label and progress are the task card's; the bar is green exactly when done; the completion date is shown exactly when present |
| TaskDetails.HandleUpdateTask | src/pages/tasks/TaskDetails.tsx:111-114 | only closes the modal; no request is sent |
| TaskDetails.HandleDeleteTask | src/pages/tasks/TaskDetails.tsx:116-119 | only navigates to /tasks; no request is sent |
| Entities.WithStatus | src/pages/dashboard/Dashboard.tsx:29-32 | a task is kept exactly when it is in the list and has the status |
| Entities.WithStatusConcat | src/pages/tasks/Tasks.tsx:45 | filtering a concatenation concatenates the filtered parts, so order is kept |
| Entities.WithStatusCount | src/pages/dashboard/Dashboard.tsx:29-32 | the number of tasks kept is the number of occurrences of the status |
| Entities.FirstMatch | src/pages/tasks/TaskDetails.tsx:64 | the index of the first element satisfying the test, and none when no element does |
| Entities.FindTask | src/pages/tasks/Tasks.tsx:43 | a task with the id, the first such; none exactly when no task has it |
| Entities.FindProject | src/pages/tasks/TaskDetails.tsx:64 | a project with the id, the first such; none exactly when no project has it |
| Entities.SelectedTask | src/pages/projects/ProjectDetails.tsx:82 | nothing when no id (or an empty one) is selected; otherwise the first task with that id, found whenever one has it; the task list (`src/pages/tasks/Tasks.tsx:43`) uses the same rule |
| Dashboard.StatsOf | src/pages/dashboard/Dashboard.tsx:27-32 | the total is the number of tasks, and each status count is the number of occurrences of that status |
| Dashboard.StageCountBound | src/pages/dashboard/Dashboard.tsx:28-32 | the four stage counts add up to at most the number of tasks, and exactly to it when every task is in a stage |
| Dashboard.CountsSum | src/pages/dashboard/Dashboard.tsx:28-32 | the same bound and equality, for the dashboard's counts |
| Dashboard.RatioBounds | src/pages/dashboard/Dashboard.tsx:34 | a count over a non-zero total, times 100, lies in 0..100 and is 100 exactly when the count is the total |
| Dashboard.CompletionRateBounds | src/pages/dashboard/Dashboard.tsx:34 | the completion rate is 0 without tasks, always in 0..100, and 100 exactly when there are tasks and all are done |
| Dashboard.WithStatusAll | src/pages/dashboard/Dashboard.tsx:29 | a filter keeps every task exactly when every task has the status |
| Dashboard.BarMax | src/pages/dashboard/Dashboard.tsx:341 | the bar maximum is the total, or 1 when there are no tasks |
| Dashboard.InsertPermutes | src/pages/dashboard/Dashboard.tsx:37-39 | inserting adds exactly that element |
| Dashboard.InsertKeepsOrder | src/pages/dashboard/Dashboard.tsx:37-39 | inserting into a newest-first list keeps it newest-first |
| Dashboard.SortIsNewestFirstPermutation | src/pages/dashboard/Dashboard.tsx:37-43 | the sorted copy holds the same elements (same multiset, same length), newest first |
| Dashboard.NewestSelection | src/pages/dashboard/Dashboard.tsx:37-43 | the newest n are min(n, length) of the given elements, newest first; any element newer than a kept one is kept |
| Dashboard.RecentProjects | src/pages/dashboard/Dashboard.tsx:37-39 | min(3, count) of the projects, newest first; no project newer than a shown one is left out |
| Dashboard.RecentTasks | src/pages/dashboard/Dashboard.tsx:41-43 | min(5, count) of the tasks, newest first; no task newer than a shown one is left out |
| Dashboard.Page | src/pages/dashboard/Dashboard.tsx:20-43 | loading while either query loads; otherwise the project total, the dashboard counts, the completion rate (within 0..100), the bar maximum (total or 1) and the three newest projects and five newest tasks |
| ProjectDetails.Page | src/pages/projects/ProjectDetails.tsx:49-91 | loading while either query loads; not found exactly when no project, with no statistics; otherwise per-status counts as on the dashboard, rate equal to the dashboard's rate of those counts (0 without tasks), and the selected task: the first task with the selected id |
| ProjectDetails.StatisticsMatchDashboard | src/pages/projects/ProjectDetails.tsx:85-91 | the page's statistics are the dashboard's for the same tasks, with the rate in 0..100 and 100 exactly when all are done |
| ProjectDetails.CreateTaskPayload | src/pages/projects/ProjectDetails.tsx:93-98 | the payload holds the form's fields with `projectId` set to the page's project, overriding the form's |
| ProjectDetails.HandleCreateTask | src/pages/projects/ProjectDetails.tsx:93-105 | one POST to /tasks carrying that payload |
| ProjectDetails.HandleUpdateTask | src/pages/projects/ProjectDetails.tsx:107-119 | a PUT of the form data to the selected task; nothing without a selection |
| ProjectDetails.HandleDeleteTask | src/pages/projects/ProjectDetails.tsx:121-130 | a DELETE of the selected task; nothing without a selection |
| ProjectDetails.HandleStatusChange | src/pages/projects/ProjectDetails.tsx:132-134 | one PUT to the task whose body holds exactly `status` |
| ProjectDetails.EditProjectSubmit | src/pages/projects/ProjectDetails.tsx:355-358 | only closes the modal; the project is not updated |
| ProjectDetails.DeleteProjectConfirm | src/pages/projects/ProjectDetails.tsx:368-371 | only navigates to /projects; nothing is deleted |
| TasksPage.FilteredTasks | src/pages/tasks/Tasks.tsx:45 | "ALL" gives all tasks in their order; any other filter gives exactly the tasks with that status |
| TasksPage.FilterKeepsOrder | src/pages/tasks/Tasks.tsx:45 | the filter keeps order: it distributes over concatenation |
| TasksPage.FilterMatchesCounts | src/pages/tasks/Tasks.tsx:45 | under a stage filter the list is as long as the dashboard's count for that stage |
| TasksPage.ToLowerAscii | src/pages/tasks/Tasks.tsx:190 | same length; each letter lower-cased, so no upper-case letter remains |
| TasksPage.ReplaceFirst | src/pages/tasks/Tasks.tsx:190 | same length; only the first occurrence of the pattern is replaced |
| TasksPage.ReplaceFirstAbsent | src/pages/tasks/Tasks.tsx:190 | without the pattern the string is unchanged |
| TasksPage.ReplaceFirstAt | src/pages/tasks/Tasks.tsx:190 | with the first pattern at i, only position i changes |
| TasksPage.EmptyTitle | src/pages/tasks/Tasks.tsx:190 | "No tasks found" under ALL; otherwise "No " + the filter + " tasks", where the filter is lower-cased letter by letter and only its first underscore becomes a space |
| TasksPage.LowerKeepsFirstUnderscore | src/pages/tasks/Tasks.tsx:190 | lower-casing leaves the first underscore where it was, so `replace` finds it at the same index |
| TasksPage.EmptyTitleAll | src/pages/tasks/Tasks.tsx:190 | "No tasks found" for ALL |
| TasksPage.EmptyTitleTodo | src/pages/tasks/Tasks.tsx:190 | "No todo tasks" |
| TasksPage.EmptyTitleInProgress | src/pages/tasks/Tasks.tsx:190 | "No in progress tasks" |
| TasksPage.EmptyTitleReview | src/pages/tasks/Tasks.tsx:190 | "No review tasks" |
| TasksPage.EmptyTitleDone | src/pages/tasks/Tasks.tsx:190 | "No done tasks" |
| TasksPage.OnlyFirstUnderscoreReplaced | src/pages/tasks/Tasks.tsx:190 | a second underscore stays: "A_B_C" gives "No a b_c tasks" |
| TasksPage.EmptyDescription | src/pages/tasks/Tasks.tsx:191-193 | the description depends only on whether the filter is ALL |
| Schema.Min | src/pages/auth/Register.tsx:18 | a string passes exactly when it has at least n characters; otherwise the given message |
| Schema.Max | src/components/tasks/TaskForm.tsx:16 | a string passes exactly when it has at most n characters (n itself included); otherwise the given message |
| Schema.First | src/components/tasks/TaskForm.tsx:16 | the first failing check's message, none when both pass |
| Schema.Between | src/components/tasks/TaskForm.tsx:16-20 | valid exactly within lo..hi, bounds included; too short or too long gives the matching message |
| Schema.Email | src/pages/auth/Login.tsx:18 | valid exactly when the address check accepts it |
| TaskForm.Validate | src/components/tasks/TaskForm.tsx:15-23 | valid exactly with a title of 3..100 characters, a description of 10..500 and a non-empty project; each field shows no message exactly when it passes, and its message when it fails |
| TaskForm.StatusIsFree | src/components/tasks/TaskForm.tsx:21 | the status, present or not, never affects validation |
| TaskForm.Defaults | src/components/tasks/TaskForm.tsx:42-47 | title and description default to the task's or ""; status to the task's or "TODO"; project to the selected one, else the task's, else the first project's, else "" |
| TaskForm.ApplySelectedProject | src/components/tasks/TaskForm.tsx:51-55 | a truthy selected project replaces the form's project; otherwise nothing changes |
| TaskForm.EffectKeepsDefaults | src/components/tasks/TaskForm.tsx:42-55 | on the defaults the effect changes nothing |
| TaskForm.NewTaskStartsOnFirstOption | src/components/tasks/TaskForm.tsx:46-67 | a new task without a preselection starts on the first project option, which passes validation when it has an id |
| TaskForm.StatusOptionsAreTaskCards | src/components/tasks/TaskForm.tsx:57-62 | the form's status options are the task card's |
| TaskForm.ProjectOptions | src/components/tasks/TaskForm.tsx:64-67 | one option per project, in order, with the id as value and the name as label |
| TaskForm.ProjectSelectDisabled | src/components/tasks/TaskForm.tsx:103 | the selector is disabled exactly when a project was preselected |
| TaskForm.LockedSelectorHoldsSelection | src/components/tasks/TaskForm.tsx:46-103 | a disabled selector holds the preselected project, which passes validation |
| TaskForm.SubmitLabel | src/components/tasks/TaskForm.tsx:110 | "Update Task" exactly when editing a task, else "Create Task" |
| ProjectForm.Validate | src/components/projects/ProjectForm.tsx:12-18 | valid exactly with a name of 3..100 characters and a description of 10..500; each field shows no message exactly when it passes, and its message when it fails |
| ProjectForm.Defaults | src/components/projects/ProjectForm.tsx:34-37 | the project's name and description, or empty |
| ProjectForm.EmptyFormInvalid | src/components/projects/ProjectForm.tsx:12-37 | the empty form of a new project fails on both fields |
| ProjectForm.SubmitLabel | src/components/projects/ProjectForm.tsx:51 | "Update Project" exactly when a project was passed, else "Create Project" |
| ProjectForm.ModeIgnored | src/components/projects/ProjectForm.tsx:24-27 | the label is the same whatever the mode |
| LoginPage.Validate | src/pages/auth/Login.tsx:17-20 | valid exactly with an accepted email and a password of at least 6 characters; each field shows no message exactly when it passes, and its message when it fails |
| LoginPage.Login.constructor | src/pages/auth/Login.tsx:24-25 | no error and not loading at first |
| LoginPage.Login.OnSubmit | src/pages/auth/Login.tsx:35-45 | on success no error, the response's user signed in, its token stored and the success toast added; on failure the fixed credentials text, the service's message toasted, user and token untouched; both loading flags end false and the path is kept |
| LoginPage.FailureAlwaysShowsFixedText | src/pages/auth/Login.tsx:41 | a rethrown `Error` is never a string, so the fixed text is shown |
| RegisterPage.Validate | src/pages/auth/Register.tsx:17-22 | valid exactly with a name and a country of at least 2 characters, an accepted email and a password of at least 6; each field shows no message exactly when it passes, and its message when it fails |
| RegisterPage.Register.constructor | src/pages/auth/Register.tsx:26-27 | no error and not loading at first |
| RegisterPage.Register.OnSubmit | src/pages/auth/Register.tsx:37-47 | on success no error, the response's user signed in, its token stored and the success toast added; on failure the fixed sign-up text, the service's message (or the fixed registration text) toasted, user and token untouched; both loading flags end false and the path is kept |
| RegisterPage.FailureAlwaysShowsFixedText | src/pages/auth/Register.tsx:43 | a rethrown `Error` is never a string, so the fixed text is shown |
| ProfilePage.Validate | src/pages/profile/Profile.tsx:17-20 | valid exactly with a name and a country of at least 2 characters; each field shows no message exactly when it passes, and its message when it fails |
| ProfilePage.FieldOrEmpty | src/pages/profile/Profile.tsx:35-36 | a string field is its text; a missing or falsy one is "" |
| ProfilePage.Defaults | src/pages/profile/Profile.tsx:34-37 | the user's name and country as shown by `FieldOrEmpty`: a string as it is, and "" when the user or the field is missing or falsy |
| ProfilePage.Render | src/pages/profile/Profile.tsx:58-60 | nothing without a user; otherwise the form with its defaults |
| ProfilePage.UpdateProfile | src/services/userService.ts:14-18 | a rejection passes through; a response comes back with its user fields decrypted |
| ProfilePage.FailureMessage | src/pages/profile/Profile.tsx:51-52 | a string rejection reason is shown as it is; any other failure shows the fixed text |
| ProfilePage.GatewayReasonShown | src/pages/profile/Profile.tsx:52 | the gateway's string reason reaches the page |
| ProfilePage.Profile.constructor | src/pages/profile/Profile.tsx:24-26 | not loading and no messages at first |
| ProfilePage.Profile.OnSubmit | src/pages/profile/Profile.tsx:40-56 | the update goes through `ProfilePage.UpdateProfile`; on success the response's `data` is merged into a present user and the success message set; on failure only the error message is set and the user is untouched; loading ends either way |

## Left out

- The axios transport is not modelled: instance creation, base URL, cookies, and interceptor
  registration. Each call's outcome is a parameter.
- The AES-CBC primitive, hex decoding and UTF-8 decoding of CryptoJS are not modelled. They
  are the `decrypt` parameter of a `Cipher`, where `None` stands for a throw. Whether CryptoJS
  throws or returns "" on bad input is left to that parameter.
- `window.location`, `localStorage` and toasts are fields of the `Browser` class. `console`
  output is not modelled.
- react-query hooks are not modelled: caching, invalidation, retries, and the `onSuccess`
  callbacks that close modals after a mutation.
- Modal and selection flags are page state and are not modelled. JSX, layouts and
  presentational components are not modelled either.
- zod's `.email()` regular expression is the parameter `isEmail`.
- Dashboard.CompletionRate: exact real arithmetic; the browser's floating point and
  `toFixed` rounding are not modelled.
- Date parsing is not modelled: `createdAt` and `completedAt` are integer timestamps.
- Object key order is not modelled: objects are maps.
- JSON numbers are integers: `Value.Num` holds an `int`, so fractional and non-finite numbers
  are not modelled (the modelled rules only test a number's truthiness or write it with `String`).
- String lengths count Dafny characters, not JavaScript's UTF-16 code units.
- TasksPage.ToLowerAscii: lower-cases ASCII letters only, not the full Unicode case mapping
  of `toLowerCase`.
- AuthService.ErrorMessage: a `null` or `undefined` rejection reason, on which the source throws
  a TypeError inside its catch block, is excluded by the precondition of the services; the
  gateway never rejects with one (`AuthService.GatewayRejectionIsReadable`).
- Gateway.Browser.CommitNavigation: a navigation reloads the application; the model keeps
  only its effect on the pathname and the toasts, and keeps the token, which lives in storage.
- Dashboard.SortNewestFirst: proved sorted newest first and a permutation; the stability of
  JavaScript's sort (equal timestamps keep their order) is not proved.
- ProfilePage.FieldOrEmpty: a truthy non-string field is shown by its `String` text.
- Async scheduling and concurrent mutations are not modelled; each handler runs to
  completion.
- `src/services/projectService.ts` only forwards constant paths and is not part of this
  model. `src/services/userService.ts` appears only as `ProfilePage.UpdateProfile`.
