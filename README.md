# Project approval workflow of the demand-forecasting front end

This project models, in Dafny, the client-side approval workflow of a
browser application for material demand forecasting projects. Employees
submit projects, state admins act on them, and central admins give final
sign-off. All of that logic sits in `src/App.js`. The model covers:

- **Jurisdiction lookup** (`Jurisdiction`). The ordered state-to-cities
  table and its two lookups. `getUserState` scans the table and falls back
  to the sentinel `"Unknown"`. The approval handler's inline `find(...)?.[0]`
  falls back to `undefined`.
- **Projects and list operations** (`Projects`). Find by id, find the index
  by id (the details view), the failure fallback that patches one id's
  status, and the dashboard's "last project of this user".
- **The approval guards** (`Workflow`). The initial status of a new project,
  the guards of `handleProjectAction`, the approve/decline button
  condition, and the signup rule for sending a home state.
- **The admin list** (`AdminView`). `getAdminProjects` and its status labels.
- **Component state** (`AppState.App`). A class holding the `projects` list,
  the activity log, the selected project index, the details-view flag and
  the last message shown. Its handlers follow the source's early returns.
  The outcome of each backend request is a parameter.

JavaScript properties that may be missing (`role`, `admin_level`, `state`,
`email` of the signed-in user) are `JsValues.Attr`: `Undefined`, `Null` or
`Text(s)`. That keeps strict equality faithful. For a city in no list, the handler's
jurisdiction check compares `undefined` with the admin's `state`, and it
passes only when that state is itself `undefined`, not when it is `null`.

Some behaviours of the client are easy to misread, and the model states them
as they are in the code:

- The source's comments describe the stages: a central admin's own project is
  "auto-approved", a state admin's own project needs central approval, and
  state admins "can only approve pending projects in their state"
  (`src/App.js:195-197`, `:320`). The handler `handleProjectAction` checks
  the status only for *approve*. It sends `"declined"` for a project in any
  status: by a state admin in the project's state, or by any central admin
  (`Workflow.DeclineNotStatusGated`). What keeps declines to waiting projects
  is the button condition (`src/App.js:698-699`). The buttons appear only on
  a `"pending"` project for a state admin and a `"pending central approval"`
  project for a central admin (`Workflow.ShowsActionButtons`). Because the
  buttons act through `find` by id, a repeated id in the list lets a decline
  on a pending row reach an earlier, already approved project
  (`Workflow.RepeatedIdDecline`).
- The handler lets an admin whose level is neither `'state'` nor `'central'`
  through every guard (`Workflow.DecideOtherAdmin`). Such an admin never sees
  the buttons, so the handler is not reached for them from the admin list.
- A state admin's approval sends the action string `"approved"` as the new
  status, not `"pending central approval"`. When the request fails, the local
  fallback shows the project as `"approved"`
  (`AppState.StateApprovalFallback`). A central admin's failed decline
  likewise shows the project as `"declined"`, after which that admin's
  approval is turned down by the status guard
  (`AppState.CentralDeclineThenApprove`). Any translation the backend makes is
  not part of this model.
- A project in a city that no state lists resolves to `undefined` in the
  handler, so it clears the state-level jurisdiction check for an admin
  whose `state` is `undefined` (`Workflow.UnlistedLocationJurisdiction`).
- The client does not restrict deletion to a project's creator. It sends the
  email and leaves the decision to the backend.
- The admin list shows every project the backend returned, with no filtering
  by state on the client (`src/App.js:148`). The "Your Projects" list and the
  dashboard show only the projects whose creator strictly equals the user's
  email (`src/App.js:536`, `:917`, `:938`), the filter `Projects.ProjectsBy`.

## Model

| member | source | states |
|---|---|---|
| Jurisdiction.GetUserState | src/App.js:135-142 | The scan returns the state of the first entry whose cities include the location, and "Unknown" when no entry lists it |
| Jurisdiction.FirstStateOfFirst | src/App.js:136-139 | The in-order scan finds the first entry that lists the city |
| Jurisdiction.FirstStateOfNone | src/App.js:136-141 | The scan finds nothing exactly when no entry lists the city |
| Jurisdiction.FirstStateOfFound | src/App.js:136-139 | Whatever the scan finds is the state of the first entry listing the city |
| Jurisdiction.ListedResolves | src/App.js:73-83 | In a table with disjoint city lists, a listed city resolves to the state of the entry listing it |
| Jurisdiction.StateMappingWellFormed | src/App.js:73-83 | No city appears under two states in the application's table, and no state is named "Unknown" |
| Jurisdiction.UserStateOfMeaning | src/App.js:135-142 | In a well-formed table, getUserState answers "Unknown" if and only if no state lists the city, and every listed city resolves to the one state listing it |
| Jurisdiction.ProjectStateOf | src/App.js:327-329 | The handler's inline lookup never yields null |
| Jurisdiction.LookupsAgreeExceptUnlisted | src/App.js:327-329 | In a table with no state named "Unknown", the inline lookup equals getUserState's answer on listed cities and is undefined exactly for unlisted ones, where getUserState says "Unknown" |
| Projects.FindById | src/App.js:312 | find by id returns, if anything, a project of the list carrying that id |
| Projects.FindByIdNone | src/App.js:312-313 | find by id returns nothing if and only if no project has the id |
| Projects.FindByIdIsFirst | src/App.js:312 | find by id returns the project at the first position with that id |
| Projects.FindByIdFound | src/App.js:312 | Whatever find by id returns is the project at the first position with that id |
| Projects.FindIndexById | src/App.js:260-261 | findIndex returns -1 if and only if no project has the id, else the first position with it |
| Projects.WithStatusWhere | src/App.js:372-379 | The fallback's map keeps the length of the list |
| Projects.WithStatusWhereSpec | src/App.js:372-379 | The fallback keeps the length and order; projects with the id get status := action, every other project is unchanged |
| Projects.WithStatusWhereKeepsIds | src/App.js:372-379 | The fallback keeps every id in place |
| Projects.WithStatusWhereAbsent | src/App.js:372-379 | For an id not in the list the fallback leaves the list unchanged |
| Projects.WithStatusWhereIdempotent | src/App.js:372-379 | Applying the fallback twice gives the same list as applying it once |
| Projects.WithStatusWhereFind | src/App.js:372-379 | After the fallback, find on the id returns the project it found before, with the new status |
| Projects.WithStatusWhereFindOtherAt | src/App.js:372-379 | After the fallback, find on another id the list holds still returns the project at its first position |
| Projects.WithStatusWhereFindOther | src/App.js:372-379 | After the fallback, find on any other id returns what it returned before, nothing included |
| Projects.ProjectsBy | src/App.js:937-938 | The "Your Projects" filter (also at lines 536 and 917) keeps exactly the projects whose creator strictly equals the user's email |
| Projects.ProjectsByAppend | src/App.js:536 | Filtering a list with one project appended is the filtered list plus that project if the user created it |
| Projects.LastProjectOf | src/App.js:536-537 | The dashboard project is absent if and only if the user created none; otherwise it is one of the user's own projects |
| Projects.LastProjectOfAppend | src/App.js:536-537 | An appended project becomes the dashboard project if the user created it, and otherwise the selection stays |
| Workflow.InitialStatus | src/App.js:191-199 | A new project is "approved" if and only if a central admin creates it, "pending central approval" if and only if a state admin does, and "pending" for everyone else, including admins of any other level |
| Workflow.Decide | src/App.js:304-342 | The guards, given the component's state table, let a request through only for an admin and for the project find returns for the id |
| Workflow.DecideRejectsFirst | src/App.js:306-316 | A non-admin is rejected whatever the list holds; an admin naming an absent id is rejected with "Project not found" |
| Workflow.DecideStateAdmin | src/App.js:319-335 | A state admin passes if and only if the action is not "approved" or the status is "pending", and the looked-up state strictly equals the admin's state; an approval of a non-pending project is rejected with the status message even outside the state, and otherwise a state mismatch gives the jurisdiction message |
| Workflow.DecideCentralAdmin | src/App.js:338-342 | A central admin passes if and only if the action is not "approved" or the status is "pending central approval"; no jurisdiction check, and any rejection carries the central status message |
| Workflow.DecideOtherAdmin | src/App.js:318-342 | An admin of any other level passes every guard once the project is found |
| Workflow.UnlistedLocationJurisdiction | src/App.js:326-334 | For a project in an unlisted city, a state admin passes the jurisdiction check if and only if the admin's state is undefined |
| Workflow.DeclineNotStatusGated | src/App.js:319-342 | "declined" is never stopped by a status check: an admin in the project's jurisdiction (or not a state admin) always gets through |
| Workflow.ShowsActionButtons | src/App.js:698-699 | The buttons appear only on a "pending" project for a state admin or a "pending central approval" project for a central admin, never for an admin of another level |
| Workflow.ButtonsPassStatusGuards | src/App.js:698-699 | When the buttons are shown for the project find returns, both actions pass the status guards; a central admin always passes and a state admin can only be stopped by the jurisdiction check |
| Workflow.LucknowScenario | src/App.js:319-335 | A pending Lucknow project is rejected for a Maharashtra state admin's approval and passes for an Uttar Pradesh one |
| Workflow.RepeatedIdDecline | src/App.js:312 | With an id repeated in the list, a decline on the later pending row proceeds for the earlier, approved project |
| Workflow.SignupPayload | src/App.js:391-405 | The state is sent if and only if the role is employee or the role is admin with level "state", and then it is the form's state; a missing level control sends null |
| Workflow.SignupStateOmitted | src/App.js:402-405 | A central admin's signup, or one without a level control, carries no state |
| AdminView.StatusLabel | src/App.js:151-160 | Each known status gets its display label ("pending" is "Pending State Approval", and so on); any other status is shown verbatim |
| AdminView.StatusLabelSeparatesKnown | src/App.js:151-160 | Distinct known statuses get distinct labels |
| AdminView.AdminProjects | src/App.js:145-167 | Empty for a non-admin; otherwise the same length and order, each element the original project with its status label |
| AdminView.AdminRowButtons | src/App.js:698-711 | A button on an admin row acts on that row's project when its id is not repeated earlier, and only the state jurisdiction check can reject it; the row's project is then waiting for approval |
| AppState.AfterRefetch | src/App.js:102-120 | Refetching clears the list without an email, replaces it with the fetched list, and leaves it as it was when the fetch fails |
| AppState.ActionText | src/App.js:363 | The action is reported as "approved" if and only if it is an approval, and as "rejected" otherwise, including a decline |
| AppState.ActionLogEntry | src/App.js:364 | The log entry opens with the action's word and closes with the project id in decimal |
| AppState.ActionLogEntriesDistinct | src/App.js:363-364 | The log entries of one action for two different project ids differ |
| JsValues.DecimalStringInjective | src/App.js:364 | Distinct ids print as distinct decimal strings |
| AppState.App.LogActivity | src/App.js:96-98 | The new entry is prepended to the activity log |
| AppState.App.HandleProjectAction | src/App.js:304-381 | Rejection leaves the list and log unchanged and shows the guard's message; a failed PUT applies the fallback; a successful one refetches, logs the action and reports success |
| AppState.App.OpenProjectDetails | src/App.js:258-267 | An absent id shows an error and changes no selection; otherwise the first position with the id is selected and the details view opens |
| AppState.App.HandleDeleteProject | src/App.js:270-301 | No selection does nothing; a failed DELETE only shows the error; a successful one refetches, logs, clears the selection and closes the details view |

## Left out

- Network I/O: every `fetch` (`fetchProjects`, the POST, PUT and DELETE of the handlers, signup and login) is outside the model. A request's outcome and the list fetched afterwards are inputs of the handler (`AppState.RequestOutcome`), because the backend that decides them is not part of this model.
- Signing in: `handleLogin`, the rest of `handleSignup`, and the effect that reloads projects when the email changes. An `App` starts from a signed-in user and a fetched list.
- `handleCreateProject` beyond the initial status: the logged-in check, the POST, the reset of the form and the success messages are I/O and UI text.
- Deletion authorization and the admin list's visibility: the client enforces neither. It sends the email and shows the admin what the backend returns.
- `showCustomMessage` and its 3-second timer: the model keeps the last message shown and never clears it.
- Rendering: JSX, modals other than the details view, `getStatusBadge` colours, and `renderForecasts` with its floating-point formatting.
- Timestamps from `new Date().toLocaleString()`, which depend on the clock and locale.
- `src/Map.js` and `tailwind.config.js`: map rendering with a third-party library, and build configuration.
- AppState.App.HandleProjectAction: does not model React's asynchronous state. The source checks a snapshot of `projects` but applies the fallback to whatever list is current when the request fails. The model uses one list for both.
- AppState.App.HandleDeleteProject: when the selected index is past the end of the list, the source throws a TypeError outside its try block. The model reports this as `threw` and changes nothing.
- Projects: ids are natural numbers and locations, creators and statuses are strings. The backend assigns the ids, and a missing or differently typed field is not modelled.
- JsValues.DecimalString: prints every id in plain decimal. JavaScript prints numbers from 10^21 upward in exponent form, which the model does not follow.
