# Navigation controller of the review app shell

This project models the top-level `App` component of a web app for rating and reviewing professors,
used by two roles, student and professor. The component holds five pieces of state:

- the logged-in role;
- the login sub-screen (role picker, student form or professor form);
- the user's email;
- the current navigation target: a screen id plus an optional data bag;
- a back-stack of earlier targets.

Six handlers change this state: role select, login, logout, navigate, back and back-to-role-select.
The render picks at most one screen component from the state.

Modules:

- `Navigation` (Navigation.dfy): screen ids and the cast of an arbitrary string to a screen. It also
  holds the data bag, modelled as an optional map of string fields, where JavaScript truthiness of a
  field means "present and non-empty". Last, it holds the tab-merge rule: leaving the student
  dashboard with a `returnTab` makes the pushed entry remember that tab as its `activeTab`.
- `Controller` (Controller.dfy): the state as a value (`AppState`), one pure transition per handler,
  runs of handler calls (`Event`, `Run`), and the lemmas about them.
- `Rendering` (Render.dfy): the render dispatch as a pure function. Each child component is a tag
  that carries the props the controller passes to it, apart from its callbacks.
- `AppComponent` (App.dfy): class `App`, whose fields are the five pieces of state. Each handler is
  a method with `modifies this`. Its postcondition ties `State()` to the controller transition of
  the old state.
- `Wrappers` (Wrappers.dfy): `Option`, standing for `null` and `undefined`.

Notes on the code's behaviour:

- `handleLogin` with a null role keeps the current navigation target. It only lands on a dashboard
  for `'student'` or `'professor'`. No call site passes a null role: the two login forms fix the
  role (App.tsx:89 and App.tsx:92), so this branch is modelled but unreachable in the app.
- A professor login keeps whatever email was stored before. The email is overwritten only when a
  non-empty one is supplied.
- The back-stack may hold a target equal to the current one, because navigating to the screen that
  is already shown pushes it.

## Model

| member | source | states |
|---|---|---|
| `Navigation.ParseScreen` | App.tsx:67 | The `screen as any` cast: every id becomes a screen whose id is that string; known ids become their own case, and any other id becomes `Other` |
| `Navigation.ParseScreenId` | App.tsx:20 | Parsing the id of a canonical screen gives back that screen, so screen ids and screens correspond one to one |
| `Navigation.Field` | App.tsx:59 | `data?.key` is present exactly when the bag exists and has the key, and it then holds that key's value |
| `Navigation.WithField` | App.tsx:62 | `{...data, key: value}` sets `key` to `value` and keeps every other field; an absent bag spreads as no fields |
| `Navigation.Departing` | App.tsx:58-64 | The pushed entry keeps the current screen. When leaving the student dashboard with a truthy `returnTab`, its `activeTab` becomes the `returnTab` and every other data field is kept. Otherwise it equals the current target |
| `Controller.Dashboard` | App.tsx:42-46 | A student lands on `student-dashboard` and a professor on `professor-dashboard`, with no data |
| `Controller.RoleSelected` | App.tsx:33-36 | Only the login sub-screen changes: student picks the student form, professor picks the professor form, and a null role changes nothing |
| `Controller.LoggedIn` | App.tsx:38-47 | The role is set and the stack is emptied. The email is overwritten only by a non-empty one. A role lands on its dashboard; a null role keeps the target. The login sub-screen is untouched |
| `Controller.LoggedOut` | App.tsx:49-55 | Role null, email empty, role picker, target `student-dashboard` with no data, empty stack |
| `Controller.Navigated` | App.tsx:57-67 | The stack grows by exactly the departing entry and keeps its old entries. The new target is the one canonical screen with the given id, carrying the given data. The session fields are unchanged |
| `Controller.WentBack` | App.tsx:71-78 | On an empty stack nothing changes. Otherwise the new stack plus the new target is the old stack, so the last entry is restored and only it is removed. The session fields are unchanged |
| `Controller.ReturnedToRoleSelect` | App.tsx:80-82 | The login sub-screen becomes the role picker and nothing else changes |
| `Controller.InitialWellFormed` | App.tsx:25-31 | The mount-time state has canonical screens and an empty stack |
| `Controller.StepWellFormed` | App.tsx:33-82 | Every handler keeps every screen in the state canonical |
| `Controller.NavigateThenBack` | App.tsx:57-78 | Back after navigate restores the left state, with the target in its pushed, possibly tab-merged form; without a merge the state is restored exactly |
| `Controller.NavigateThenBackRemembersTab` | App.tsx:58-75 | Leaving the dashboard with a truthy `returnTab` and going back reopens the dashboard with `activeTab` equal to that `returnTab` |
| `Controller.HistoryLength` | App.tsx:57-78 | Over any run of navigate and back calls, the stack length is the start length plus the navigates minus the backs that found a non-empty stack, and it is never negative |
| `Controller.StepStacked` | App.tsx:57-78 | One navigate without `returnTab`, or one back that does not go below the start depth, keeps the stacked-on-base relation at the new depth |
| `Controller.RunStacked` | App.tsx:57-78 | A navigate/back run that never backs out below its start keeps the start state's stack as a prefix, at the run's net depth |
| `Controller.BalancedRunRestores` | App.tsx:57-78 | A balanced navigate/back run with no `returnTab` returns the controller to exactly its starting state |
| `Controller.LoginResets` | App.tsx:38-47 | Logging in as a role discards the previous session's navigation. Two states that differ only in role, target and stack are equal after the same login |
| `Controller.LogoutForgets` | App.tsx:49-55 | After any run of handler calls, logout gives the mount-time state, and a second logout changes nothing |
| `Controller.RunAppend` | App.tsx:33-82 | Handling two runs of calls one after the other is the same as handling their concatenation |
| `Controller.BacksOnEmptyStack` | App.tsx:71-72 | Any number of back calls on an empty stack leave the state unchanged |
| `Controller.RoleSelectThenBack` | App.tsx:33-36 | Choosing a role and then going back to the picker changes only the login sub-screen, which becomes the picker |
| `Controller.StudentLoginScenario` | App.tsx:33-47 | Picking student and then logging in with an email gives the student dashboard with no data, an empty stack and that email |
| `Controller.ReturnTabScenario` | App.tsx:57-75 | Start on the dashboard on tab A, open a professor with `returnTab` B, go back: the dashboard is on tab B |
| `Controller.SearchThenDetailScenario` | App.tsx:57-75 | Open the list with a search, open a professor, go back: the list with its search query |
| `Rendering.Render` | App.tsx:84-187 | Before login, the login sub-screen picks the component, rendered alone. After login, the page container holds at most one screen, because the screen cases are disjoint. The guards compare screen ids, as the source compares strings |
| `Rendering.MountedIffRoutable` | App.tsx:96-187 | After login, a screen mounts exactly when the target is one of the role's screens, with a truthy `professorId` where that screen needs one |
| `Rendering.PreAuthRenderDependsOnlyOnLoginScreen` | App.tsx:84-94 | With no role, two states with the same login sub-screen render the same |
| `Rendering.MissingProfessorIdRendersNothing` | App.tsx:120-135 | `professor-detail` and `write-review` without a truthy `professorId` mount nothing, for either role |
| `Rendering.StudentScreensHiddenFromProfessors` | App.tsx:148-185 | `home`, `write-review`, `profile` and `student-dashboard` never mount for a professor |
| `Rendering.UnknownScreenRendersNothing` | App.tsx:96-187 | After login, a target whose id names none of the screens leaves the page empty |
| `Rendering.MountedProps` | App.tsx:98-146 | A student's screen mounts its own component and gets its props from the target. The dashboard's `initialTab` is `activeTab`. `home` gives the home page. The list's `initialSearch` is a truthy `searchQuery`, otherwise `''`. Detail (viewer student) and review get `professorId`. The profile gets the stored email |
| `Rendering.ProfessorMountedProps` | App.tsx:148-185 | A professor's dashboard, courses and students screens mount their own components. The list's `initialSearch` is a truthy `searchQuery`, otherwise `''`. Detail gets `professorId` with viewer professor |
| `Rendering.BackToDashboardOpensReturnTab` | App.tsx:57-106 | A student who leaves the dashboard with a truthy `returnTab` and goes back sees the dashboard opened on that tab |
| `Rendering.NavigateWithoutProfessorId` | App.tsx:57-67 | Navigating to `professor-detail` without a truthy `professorId` leaves the page empty for either role |
| `AppComponent.App.constructor` | App.tsx:25-31 | The component mounts in the initial state, whose screens are canonical |
| `AppComponent.App.HandleRoleSelect` | App.tsx:33-36 | The new state is the role-select transition of the old one; role, email, target and stack are untouched; screens stay canonical |
| `AppComponent.App.HandleLogin` | App.tsx:38-47 | The new state is the login transition of the old one; the stack is empty; screens stay canonical |
| `AppComponent.App.HandleLogout` | App.tsx:49-55 | The new state is the mount-time state; screens stay canonical |
| `AppComponent.App.HandleNavigate` | App.tsx:57-69 | The departing entry is appended to the stack, and the target becomes `{screen, data}`; screens stay canonical |
| `AppComponent.App.HandleBack` | App.tsx:71-78 | On a non-empty stack the last entry becomes the target and is removed; on an empty stack the state is unchanged; screens stay canonical |
| `AppComponent.App.HandleBackToRoleSelect` | App.tsx:80-82 | The new state is the old one with the role picker as login sub-screen; screens stay canonical |

## Left out

- React hook mechanics are not modelled: `useState`, batching of setter calls, and the closures
  capturing state. Each handler is one atomic step that applies its setter calls in source order.
- `window.scrollTo` (App.tsx:68 and App.tsx:76) is left out. It is a browser side effect and does
  not touch the controller state.
- The child screen components (App.tsx:2-13) are not part of this model. Each is a tag carrying the
  non-callback props it receives. The callbacks passed to them are not modelled either. Most are
  the handlers above. The two login callbacks are wrappers: App.tsx:89 passes
  `(email) => handleLogin('student', email)`, and App.tsx:92 passes `() => handleLogin('professor')`.
  The form therefore fixes the login role, and a professor login carries no email. `Event` and
  `LoggedIn` allow more calls than the app makes: a null role, and a professor login with an email.
- The `Screen` type of `./types` is not part of this model. Its ids are taken from the screens that
  App.tsx renders.
- The JSX markup, `className` styling and DOM layout are left out. A render result is either one
  component or a container holding a list of children.
- Payload values other than strings are not modelled. The data bag is a map of strings, so a
  number, boolean or object field is not modelled, and neither is its truthiness (for example `0`).
