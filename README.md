# Checklist client: route guard, registration form, session store and list page

This project models the decision logic of a small Next.js client for a
checklist ("todo") service. Four parts are modelled:

- **The route guard** (`middleware.ts`) runs on every request. It decides from the pathname and the `auth_token` cookie whether to:
  - redirect to `/login` with a `callbackUrl`,
  - redirect to `/todos`,
  - redirect to `/login`,
  - or let the request through.
- **The registration form** (`components/register-form.tsx`) does two things:
  - It runs a chain of four checks. The first failing check picks the message.
  - It calls the session store's `register` only when every check passes, and navigates to `/todos` only when `register` does not throw.
- **The session store** (`contexts/AuthContext.tsx`) holds these fields:
  - `user`, `token`, `isLoading` and `error` in memory;
  - the two local-storage entries `auth_token` and `auth_user`;
  - the `auth_token` cookie.

  Its operations are the restore on mount, `login`, `register` and `logout`.
- **The checklist list page** (`app/todos/page.tsx`) has these parts:
  - it loads the checklists and computes each one's progress (completed of total items);
  - it creates a checklist from a trimmed name;
  - it deletes a checklist by id;
  - a checklist without a progress entry is shown as 0 of 0.

Every remote call is a parameter that stands for its outcome. `AuthReply` is the answer to a login or register call. `Fetch<T>` is a payload or the message of a thrown error. Nothing is sent or awaited.

Files and modules:

- `Common.dfy`: `Option`, `Fetch`, and JavaScript truthiness of a nullable string.
- `JsString.dfy`: `startsWith`, the `\s` character class, and `trim`.
- `Types.dfy`: the records exchanged with the server.
- `RouteGuard.dfy`: the guard, as a pure function.
- `Session.dfy`: the store.
  - Each transition is first a function on a snapshot of the store's state.
  - The class `AuthProvider` then performs it field by field.
  - Each method is proved to end in the state its function computes.
- `RegisterForm.dfy`:
  - the check chain as a function, with the email pattern given in two forms that are proved equivalent;
  - the class `Form`, whose `HandleSubmit` drives an `AuthProvider`.
- `TodosPage.dfy`:
  - the progress and list functions with their lemmas;
  - the class `TodosPage`, whose `FetchTodos` fills the progress map in a loop.

Behaviour of the code that a reader may not expect:

- Route prefixes are matched with `startsWith`.
  - So `/todosX` counts as protected and `/registered` counts as an auth route.
  - `RoutesDisjoint` shows that no pathname is both kinds, so the order of the guard's checks never matters.
- `login` writes a user record whose `id`, `username` and `email` are all the submitted username.
  - The declared `User` type has no `email` field, but the record written has one, so `Types.User` carries it.
- On mount, the stored token is taken into memory before the stored user is parsed.
  - So a corrupt `auth_user` entry leaves the token set and the user null.
  - Both storage entries are removed, and the cookie is left as it was.
- The registration checks trim nothing, so a username of spaces counts as filled in.

## Model

| member | source | states |
|---|---|---|
| RouteGuard.SomeStartsWith | middleware.ts:13-17 | `routes.some(r => pathname.startsWith(r))` holds exactly when some listed route is a prefix of the pathname |
| RouteGuard.Middleware | middleware.ts:4-37 | each of the four outcomes happens exactly when its own condition holds. Protected and no session: `/login` with the pathname as callback. Session and (auth route or `/`): `/todos`. `/` and no session: `/login`. Otherwise: pass through |
| RouteGuard.RoutesDisjoint | middleware.ts:4-17 | no pathname starts with both a protected prefix and an auth prefix, and `/` starts with neither |
| RouteGuard.NoRedirectLoop | middleware.ts:19-37 | with the same cookie, the target of any redirect is itself let through |
| RouteGuard.OnlyPresenceMatters | middleware.ts:11-35 | two cookies with the same truthiness get the same decision, and an empty cookie value is the same as none |
| RouteGuard.NestedTodoRedirects | middleware.ts:19-27 | `/todos/5` without a session goes to `/login` with callback `/todos/5`. `/dashboard` with an empty cookie does too, with callback `/dashboard`. `/login` with a session goes to `/todos` |
| JsString.TrimStart | app/todos/page.tsx:62 | the result is a suffix of the input, everything dropped is whitespace, and it does not start with whitespace |
| JsString.TrimEnd | app/todos/page.tsx:62 | the result is a prefix of the input, everything dropped is whitespace, and it does not end with whitespace |
| JsString.Trim | app/todos/page.tsx:62-66 | `trim()` gives the empty string exactly when the input is all whitespace; otherwise the result neither starts nor ends with whitespace |
| JsString.TrimKeepsMiddle | app/todos/page.tsx:62-66 | what `trim()` keeps is a contiguous part of the input, with only whitespace before and after it |
| Session.Initial | contexts/AuthContext.tsx:39-42 | the provider starts with no user, no token, no error and `isLoading` true, with the browser's storage entries and cookie as found; this satisfies the store invariant |
| Session.Restored | contexts/AuthContext.tsx:45-62 | after mount `isLoading` is false. A user is taken only from a parsable stored record, together with the stored token. Storage is cleared only for a corrupt record, and then the user stays as it was. A missing or empty entry changes nothing else. When the stored token is non-empty and the record parses, token and user take the stored values. When the record is corrupt, the token is still taken and both entries are removed. The invariant is kept |
| Session.IssuedToken | contexts/AuthContext.tsx:71 | the token taken from a reply is present exactly when the response carries a non-empty `data.token` |
| Session.ErrorText | contexts/AuthContext.tsx:91 | the shown error is the raised message when that is non-empty, and the retry text when it is empty |
| Session.AuthenticateStep | contexts/AuthContext.tsx:64-132 | an attempt raises nothing exactly when a token was issued. On success memory, storage and cookie agree on that token and the user record, and no error is shown. On failure user, token, storage and cookie are unchanged and `error` is the raised message or the retry text. `isLoading` is false afterwards and the invariant is kept |
| Session.LoggedIn | contexts/AuthContext.tsx:64-97 | the user record is `{id, username, email}` all equal to the submitted username. With no token the raised message is `response.message` or "Login failed"; a thrown message is re-raised. The shown error falls back to "Login failed. Please try again." |
| Session.Registered | contexts/AuthContext.tsx:101-132 | as `LoggedIn`, but the record's email is the submitted email and the fallbacks are "Registration failed" and "Registration failed. Please try again." |
| Session.LoggedOut | contexts/AuthContext.tsx:134-141 | logout clears user, token, error, both storage entries and the cookie, and leaves `isLoading` alone |
| Session.LogoutIdempotent | contexts/AuthContext.tsx:134-141 | logging out twice is logging out once |
| Session.MountWithoutStorage | contexts/AuthContext.tsx:47-60 | a first mount that finds either entry missing or empty leaves user and token null, leaves storage alone, and ends loading |
| Session.MountWithCorruptUser | contexts/AuthContext.tsx:50-60 | a first mount over a corrupt user record keeps the stored token in memory with a null user, removes both storage entries, and leaves the cookie |
| Session.ReloadKeepsSession | contexts/AuthContext.tsx:45-120 | what a successful login or register persists is restored by the next mount: same user, token and cookie |
| Session.NothingRestoredAfterLogout | contexts/AuthContext.tsx:45-141 | after logout from any state, the next mount restores nothing: the store starts signed out |
| Session.AuthProvider.constructor | contexts/AuthContext.tsx:39-42 | the provider's first state is `Initial` over the browser's persisted entries |
| Session.AuthProvider.RestoreOnMount | contexts/AuthContext.tsx:45-62 | the mount effect ends in the state `Restored` computes and keeps the invariant |
| Session.AuthProvider.Authenticate | contexts/AuthContext.tsx:64-132 | the shared login/register body ends in the state and the raised error `AuthenticateStep` computes |
| Session.AuthProvider.Login | contexts/AuthContext.tsx:64-97 | `login` ends in the state and raises the error `LoggedIn` computes |
| Session.AuthProvider.Register | contexts/AuthContext.tsx:101-132 | `register` ends in the state and raises the error `Registered` computes |
| Session.AuthProvider.Logout | contexts/AuthContext.tsx:134-141 | `logout` ends in the state `LoggedOut` computes |
| RegisterForm.ValidEmailIffPattern | components/register-form.tsx:47-48 | the direct email check accepts exactly the strings matched by `^[^\s@]+@[^\s@]+\.[^\s@]+$`: one `@`, no whitespace, a non-empty local part, and a `.` in the domain that is neither its first nor its last character |
| RegisterForm.ValidEmailMatches | components/register-form.tsx:47-48 | every string the direct check accepts matches the pattern |
| RegisterForm.MatchIsValidEmail | components/register-form.tsx:47-48 | every string the pattern matches passes the direct check |
| RegisterForm.PartOfSlice | components/register-form.tsx:47 | a non-empty slice without whitespace that avoids the only `@` is one `[^\s@]+` run |
| RegisterForm.Validate | components/register-form.tsx:31-54 | each message is reported exactly when its check fails and all earlier checks pass. "Please fill in all fields" covers any empty field. Then "Passwords do not match", then "Password must be at least 6 characters long", then "Please enter a valid email address". The result is `None` exactly when all four checks pass |
| RegisterForm.CheckOrderExamples | components/register-form.tsx:31-54 | mismatched short passwords report the mismatch. A short matching password reports the length. A whitespace-only username passes. An email without a dot in the domain is rejected |
| RegisterForm.Form.constructor | components/register-form.tsx:22-27 | the form starts with empty fields, no error shown and no navigation |
| RegisterForm.Form.Edit | components/register-form.tsx:99-138 | the `onChange` handlers set the four fields and nothing else |
| RegisterForm.Form.ValidateForm | components/register-form.tsx:31-54 | returns true exactly when `Validate` finds nothing. On failure it writes the first failing check's message to `validationError` |
| RegisterForm.Form.HandleSubmit | components/register-form.tsx:56-72 | on a failed check, `register` is not called, `showError` is set and the store is untouched. Otherwise `register` gets `{username, password, email}` and the store ends as `Registered` says. Then the form navigates to `/todos` on success, or sets `showError` without navigating when `register` throws |
| RegisterForm.Form.Displayed | components/register-form.tsx:86-88 | a message is shown exactly when `showError` is set or the store holds an error, and the store's error takes precedence over `validationError` |
| RegisterForm.FailedRegistrationIsShown | components/register-form.tsx:69-88 | a registration that throws always leaves a non-empty store error to show |
| TodosPage.CompletedCount | app/todos/page.tsx:42 | the completed count is at most the item count, equals it exactly when every item is completed, and is 0 exactly when none is |
| TodosPage.CompletedCountConcat | app/todos/page.tsx:42 | counting completed items distributes over concatenation |
| TodosPage.CompletedCountIsPositionCount | app/todos/page.tsx:42 | the count of completed items equals the number of positions holding a completed item, on every prefix |
| TodosPage.CountStep | app/todos/page.tsx:42 | one more item adds one to the count exactly when it is completed |
| TodosPage.PositionsStep | app/todos/page.tsx:42 | one more position adds one completed position exactly when its item is completed |
| TodosPage.ProgressOf | app/todos/page.tsx:39-48 | a successful item fetch gives `total` the item count and `completed` the count of completed items, so `completed <= total`; a failed one gives 0 of 0 |
| TodosPage.ProgressMap | app/todos/page.tsx:36-50 | the progress map has exactly one entry per fetched checklist id, each with `completed <= total` |
| TodosPage.ProgressMapEntry | app/todos/page.tsx:38-48 | each checklist's entry, at the last position holding its id, is computed from its own item fetch |
| TodosPage.FailureIsLocal | app/todos/page.tsx:39-48 | a failed item fetch for one checklist gives it 0 of 0 and changes no other checklist's entry |
| TodosPage.DisplayedProgress | app/todos/page.tsx:193 | a card shows its map entry, or 0 of 0 when there is none |
| TodosPage.DisplayedProgressBounded | app/todos/page.tsx:193 | every card of a loaded page shows at most as many completed items as it has |
| TodosPage.WithoutId | app/todos/page.tsx:84 | the filter keeps exactly the checklists whose id differs, never grows the list, and changes nothing when the id is absent |
| TodosPage.WithoutIdConcat | app/todos/page.tsx:84 | the filter distributes over concatenation, so the remaining checklists keep their order |
| TodosPage.WithoutIdIdempotent | app/todos/page.tsx:84 | deleting the same id twice is deleting it once |
| TodosPage.CreateThenDelete | app/todos/page.tsx:68-84 | appending a checklist with a new id and then deleting that id gives back the original list |
| TodosPage.NameToCreate | app/todos/page.tsx:62-66 | no request is made exactly when the typed name is all whitespace; otherwise the trimmed, non-empty name is sent |
| TodosPage.TodosPage.constructor | app/todos/page.tsx:20-25 | the page starts with no checklists, an empty progress map, loading, and the dialog closed and empty |
| TodosPage.TodosPage.FetchTodos | app/todos/page.tsx:27-58 | without a token nothing changes. If the listing fails, the checklists and the progress map keep their old values. Otherwise the page holds the fetched checklists and `ProgressMap` of their item fetches. Loading is false afterwards and the dialog state is untouched |
| TodosPage.TodosPage.HandleCreateTodo | app/todos/page.tsx:60-77 | the name sent is the trimmed name when there is a token and it is not blank, and nothing is sent otherwise. With nothing sent, nothing changes. Otherwise a success appends the returned checklist, clears the name and closes the dialog; a failure leaves those alone. `isCreating` ends false, and progress and loading are untouched |
| TodosPage.TodosPage.Create | app/todos/page.tsx:64-76 | the `try`/`finally` around `createChecklist`: on success it appends, clears the name and closes the dialog, on failure it keeps them, and `isCreating` ends false |
| TodosPage.TodosPage.HandleDeleteTodo | app/todos/page.tsx:79-90 | a call is made exactly when there is a token. A successful delete filters out every checklist with that id. A failed one leaves the list as it was. Nothing else changes |

## Left out

- The HTTP wrappers in `lib/api/` are not part of this model. Each call's outcome is a parameter: an `AuthReply`, or a `Fetch` holding a payload or the thrown message.
- The `statusCode` and `errorMessage` fields of the auth response are not read by the store, so `AuthReply` does not carry them.
- These are browser and React effects and are left out:
  - JSX rendering, toasts and `console.error`;
  - `router.push`, which is recorded only as the form's `navigatedTo` value;
  - React's batching of state updates, so the fields change in program order.
- Also left out as time and browser APIs:
  - the cookie's expiry date arithmetic and the attribute string formatting in `setCookie`/`deleteCookie`;
  - the 100 ms wait after a login.
- `JSON.parse`/`JSON.stringify` of the stored user are not modelled.
  - A stored entry is either a serialised user record or text that does not parse.
  - Text that parses to something other than a user record is not modelled.
- TodosPage.TodosPage.FetchTodos: the `Promise.all` fan-out runs one checklist after another, so when two checklists share an id the later one's entry is kept. The item fetches are concurrent in the source, and there the entry that is written last wins.
- TodosPage.TodosPage.FetchTodos: the token is a parameter, where the page reads it from the session context. The per-checklist answers are a sequence aligned with the listing.
- `progressPercentage` and `Math.round` are floating point and are left out.
- The `matcher` regex in the guard's `config` decides which requests reach the guard. It is framework configuration and is left out.
- RegisterForm.Validate: `password.length` counts UTF-16 code units in the source; here it counts characters, so the two differ for characters outside the Basic Multilingual Plane.
- The dashboard page only renders and calls `logout` and `router.push`; it is not part of this model.
- The single-checklist page is not part of this model. Its own logic is left out, because it lies outside the list page, the form, the store and the guard:
  - loading one checklist by id, and sending the user back to `/todos` when it is missing;
  - creating an item from a trimmed, non-empty name;
  - toggling, editing, saving and deleting items by id.
