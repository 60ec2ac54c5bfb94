# library-web: session, access guard and page logic in Dafny

library-web is the React front end of a library system. Readers, librarians
and administrators use it to manage books, authors, categories, users and
loans. This project models its core:

- **The session controllers.** Two `AuthProvider` variants keep the signed-in
  `user` and the bearer `token` in step with the `"token"` and `"user"`
  keys of the browser's `localStorage`.
  - The mounted one also has a `loading` flag, an expiry timer and a
    cross-tab `storage` listener.
  - The other has none of these. Its role flags are case-sensitive.

  The stateless helpers of `authService` work on the same two keys.
- **The access guard** `ProtectedRoute`. It sends a visitor to `/login` or
  `/forbidden`, or renders the nested route.
- **The page logic.** This covers:
  - the label and colour switches of the loan list, the user list and the
    profile page;
  - how a failed registration is turned into one message;
  - role and status normalisation on the user form;
  - the delete-by-id list filters;
  - the form-record mappings of the loan and book forms: id projection,
    trimming dates to `yyyy-mm-dd`, and `Number(...)` coercion of select
    values;
  - the create-or-update submit shared by the three forms;
  - the menu's path-prefix selection;
  - the light/dark switch.

Each source file that changes state step by step is a class. Its fields
are the component's state, and its methods are the handlers. Each handler
states the whole new state in terms of the old one.

Each pure expression is a function. Lemmas state what those functions
promise: both directions of each if-and-only-if, round trips, idempotence,
order preservation and "nothing else changes".

The browser's store is the class `CredentialStore.Storage`, a field of
type `map<string, string>`. The session methods change it, and their
contracts give its new contents.

Collaborators the model cannot see are parameters:

- Every network request is a `Reply<T>` argument: `Ok(value)` or
  `Fail(failure)`.
- `jwtDecode` is an `Option<int>` holding the `exp` claim in seconds.
  `None` means the token does not decode.
- `Date.now()` is an integer `now` in milliseconds.
- `window.confirm` is a boolean `confirmed`.
- Whether a file was picked is a boolean.
- A storage event from another tab is a `SyncAuth(key, newValue)` call.

`JSON.stringify` and `JSON.parse` of a profile are modelled by the concrete
`ProfileJson.Serialize` and `ProfileJson.Parse`. They are proved to be
exact inverses: `Parse(s) == Some(u)` holds if and only if
`s == Serialize(u)`. The rest of the model relies on this when a stored
profile is read back.

JavaScript details are written out explicitly:

- Truthiness of a possibly missing string is `CredentialStore.Truthy`:
  `null` and `""` are falsy.
- `Number(text)` is `Text.ToNumber`. It gives `NaN` for text that is not
  an integer.
- `toUpperCase` and `toLowerCase` are `Text.Upper` and `Text.Lower`.
- `slice(0, 10)` is `Text.Take`.

Where the written design and the code disagree, the model follows the code:

- **Expiry.** A token counts as expired only when `exp * 1000 < now`. At
  the instant `exp * 1000 == now` it is still live; see
  `Token.ExpiryBoundary`. The design counts that instant as expired.
- **No pending state in the guard.** The access guard has no loading or
  "pending" outcome. A session that is still being restored has no user
  yet, so the guard sends it to `/login`; see
  `ProtectedRoute.GuardOverSession`. The design asks for a pending outcome
  while the session initialises.
- **A token without a user.** The design asks that a session with no
  token never holds a user. The mounted controller's storage listener
  breaks this: a `"token"` removal event alone clears the token and keeps
  the user; see `AuthContext.TokenRemovalKeepsUser`. The re-run
  initialisation repairs the state afterwards (`AuthContext.CrossTabLogout`).
- **Login with an expired token.** The design rejects a login whose token
  is already expired. The code never checks expiry during login: it
  stores the token and fetches the profile.
- **Profile fetch failure during login.** The design propagates every
  failure to the caller. In the code, a failed profile fetch inside
  `login` is swallowed: `login` resolves with no user, and the session is
  logged out.

## Model

| member | source | states |
|---|---|---|
| AuthContext.AdminIgnoresCase | src/components/contexts/AuthContext.tsx:126 | `isAdmin` holds iff the role, compared case-insensitively, is "admin" |
| AuthContext.FlagsNested | src/components/contexts/AuthContext.tsx:126-128 | every admin is a librarian, and every librarian is signed in |
| AuthContext.AuthProvider.constructor | src/components/contexts/AuthContext.tsx:26-28 | the first render reads `token` from the store, with `user` null and `loading` true |
| AuthContext.AuthProvider.Logout | src/components/contexts/AuthContext.tsx:118-124 | clears `user` and `token` and removes exactly the two session keys from the store, leaving every other key as it was; the session is consistent afterwards |
| AuthContext.AuthProvider.FetchUser | src/components/contexts/AuthContext.tsx:86-96 | a fetched profile becomes `user` and is persisted under "user"; a failure is not rethrown and logs out |
| AuthContext.AuthProvider.InitializeAuth | src/components/contexts/AuthContext.tsx:46-81 | covers every branch; in all of them `loading` ends false. With no token there is no request: `user` becomes null, and the token and the store are unchanged. An undecodable or expired token logs out. With a live token and a stored profile, that profile is restored without a request; unparsable stored text logs out. With a live token and no stored profile, exactly one `/users/me` request is made: its profile is set and persisted, its failure logs out. Every success schedules the logout timer with delay `exp*1000 - now` |
| AuthContext.AuthProvider.Login | src/components/contexts/AuthContext.tsx:98-112 | a rejected login logs out and rethrows; otherwise the token is stored before the profile fetch. A failed profile fetch is swallowed: login resolves, and the session is logged out. `loading` is false on every path |
| AuthContext.AuthProvider.Register | src/components/contexts/AuthContext.tsx:114-116 | rejects iff the request fails and changes neither the session nor the store |
| AuthContext.AuthProvider.SyncAuth | src/components/contexts/AuthContext.tsx:32-39 | a "token" event copies the new value into `token`; a "user" event sets the parsed profile, or null when the key was removed; unparsable text throws and changes nothing; other keys change nothing |
| AuthContext.LogoutTwice | src/components/contexts/AuthContext.tsx:118-124 | logging out twice leaves the same state and store as logging out once |
| AuthContext.RestoreStoredSession | src/components/contexts/AuthContext.tsx:59-61 | a live token with a stored profile restores exactly that profile, without a request and without changing the store |
| AuthContext.CrossTabLogout | src/components/contexts/AuthContext.tsx:32-51 | after another tab logs out, this tab's storage events and the re-run initialisation leave it signed out, with the shared store cleared |
| AuthContext.TokenRemovalKeepsUser | src/components/contexts/AuthContext.tsx:33-35 | a "token" removal event alone keeps the user, so the session holds a user without a token |
| AuthContextPlain.FlagsStricterThanMounted | src/contexts/AuthContext.tsx:93-95 | the exact-match flags imply the case-insensitive flags of the mounted controller, and `isAuthenticated` agrees |
| AuthContextPlain.LowerCaseAdminDiffers | src/contexts/AuthContext.tsx:93 | a lower-case "admin" role is admin for the mounted controller but not for this one |
| AuthContextPlain.AuthProvider.constructor | src/contexts/AuthContext.tsx:25-26 | the first render reads `token` from the store, with `user` null |
| AuthContextPlain.AuthProvider.Logout | src/contexts/AuthContext.tsx:86-91 | clears `user` and `token` and removes exactly the two session keys |
| AuthContextPlain.AuthProvider.FetchUser | src/contexts/AuthContext.tsx:53-63 | success sets `user` and persists it under "user"; failure logs out |
| AuthContextPlain.AuthProvider.Startup | src/contexts/AuthContext.tsx:28-50 | with no token, nothing changes. An undecodable or expired token logs out. A live token with a stored profile restores it; unparsable stored text logs out. A live token with no stored profile starts an unawaited fetch with that token and changes nothing yet |
| AuthContextPlain.AuthProvider.Login | src/contexts/AuthContext.tsx:65-80 | a rejected login logs out and rethrows; otherwise the token is stored before the profile fetch, and a failed fetch logs out without rethrowing |
| AuthContextPlain.AuthProvider.Register | src/contexts/AuthContext.tsx:82-84 | rejects iff the request fails and changes no state |
| AuthContextPlain.MountThenFetch | src/contexts/AuthContext.tsx:37-63 | mounting with a live token and no stored profile, then completing the deferred fetch, signs in with that profile and persists it |
| AuthContextPlain.LogoutTwice | src/contexts/AuthContext.tsx:86-91 | logout is idempotent on state and store |
| CredentialStore.WithoutSession | src/components/contexts/AuthContext.tsx:121-122 | after a logout both session keys are absent, and every other key is as it was |
| CredentialStore.WithoutSessionIdempotent | src/services/authService.ts:20-23 | clearing the session a second time changes nothing |
| CredentialStore.WithoutSessionForgetsWrites | src/components/contexts/AuthContext.tsx:103-107 | a logout after the token was written leaves the same store as a logout before it |
| Token.ExpiryDelay | src/components/contexts/AuthContext.tsx:71 | the timer delay is non-negative for a live token and ends exactly at `exp*1000` |
| Token.ExpiryBoundary | src/components/contexts/AuthContext.tsx:54 | at `exp*1000 == now` the token is live; one millisecond later it is expired |
| Token.LiveEarlier | src/contexts/AuthContext.tsx:33 | a token live now was live at every earlier instant |
| ProfileJson.ParseSerialize | src/services/authService.ts:16-28 | a profile written to the store parses back to the same profile |
| ProfileJson.SerializeInjective | src/services/authService.ts:16 | distinct profiles are written as distinct texts |
| ProfileJson.ParseOnlySerialized | src/services/authService.ts:25-29 | text that parses is the serialisation of what it parses to |
| ProfileJson.ParseIffSerialized | src/services/authService.ts:16-28 | `Parse(s) == Some(u)` holds iff `s == Serialize(u)` |
| AuthService.CurrentUserOf | src/services/authService.ts:25-29 | null exactly when "user" is missing or empty; a parsed profile is the one whose serialisation is stored |
| AuthService.GetToken | src/services/authService.ts:31-33 | returns exactly the stored "token" value |
| AuthService.GetCurrentUser | src/services/authService.ts:25-29 | returns the parse of the stored "user" entry, as `CurrentUserOf` describes it |
| AuthService.Logout | src/services/authService.ts:20-23 | removes exactly the two session keys |
| AuthService.Login | src/services/authService.ts:5-18 | "token" is written as soon as the login answers. If the profile request then fails, the token stays and "user" is untouched. Otherwise the profile is stored and returned. A failed login changes nothing |
| AuthService.NothingAfterLogout | src/services/authService.ts:20-33 | after `logout`, both getters report nothing |
| AuthService.CurrentUserAfterLogin | src/services/authService.ts:16-29 | the profile a successful login stores is what `getCurrentUser` returns |
| AuthService.ProfileFailureKeepsOldUser | src/services/authService.ts:9-16 | a failed profile request leaves the new token stored and the earlier "user" entry in place |
| AuthService.LoginThenRead | src/services/authService.ts:5-33 | after a successful login, the getters return its token and the profile it resolved with |
| ProtectedRoute.Authorize | src/routes/ProtectedRoute.tsx:10-21 | redirects to login iff not signed in; redirects to forbidden iff signed in, roles are given, a user is loaded and the user's role is not listed |
| ProtectedRoute.NoRolesAllows | src/routes/ProtectedRoute.tsx:17-21 | without `requiredRoles` every signed-in visitor passes |
| ProtectedRoute.EmptyRolesForbid | src/routes/ProtectedRoute.tsx:17 | an empty role list forbids every signed-in user |
| ProtectedRoute.RoleMatchIsCaseSensitive | src/routes/ProtectedRoute.tsx:17 | role "admin" does not satisfy a route requiring "ADMIN" |
| ProtectedRoute.MoreRolesNeverRevoke | src/routes/ProtectedRoute.tsx:17 | adding roles never turns an admitted visitor away |
| ProtectedRoute.GuardOverSession | src/routes/ProtectedRoute.tsx:10-21 | over the session's flag, a visitor passes iff a user is loaded whose role is listed, or no roles are required; a session without a user goes to login |
| FormMode.SaveCallFor | src/pages/users/UserFormPage.tsx:66-71 | the submit updates iff the route has an id, addressing `Number(id)`, and sends the data unchanged; otherwise it creates |
| FormMode.UpdateAddressesRouteRecord | src/pages/loans/LoanFormPage.tsx:103-104 | a route id written from a record id updates that record |
| FormMode.NonNumericRouteIdUpdatesNaN | src/pages/books/BookFormPage.tsx:87-88 | a non-numeric route id still updates, addressed to NaN |
| Text.NumberOfIntText | src/pages/loans/LoanFormPage.tsx:93 | `Number` of an integer's decimal text is that integer |
| RegisterPage.With | src/pages/auth/RegisterPage.tsx:43-45 | the named field takes the value, and every other field keeps its own |
| RegisterPage.WithOwnValue | src/pages/auth/RegisterPage.tsx:43-45 | writing back a field's own value leaves the form unchanged |
| RegisterPage.ConflictWins | src/pages/auth/RegisterPage.tsx:65-66 | status 409 gives the e-mail message, whatever error list the body holds |
| RegisterPage.GenericOtherwise | src/pages/auth/RegisterPage.tsx:73-74 | with no 409 and no error list, the generic message is shown |
| RegisterPage.SingleFieldError | src/pages/auth/RegisterPage.tsx:67-72 | one field error reads "field: message" |
| RegisterPage.FieldErrorsConcatenate | src/pages/auth/RegisterPage.tsx:67-72 | field errors are joined with ", " in list order |
| RegisterPage.EmptyFieldErrorsShowNothing | src/pages/auth/RegisterPage.tsx:67-72 | an empty error list gives an empty message, so no error is shown |
| RegisterPage.Page.constructor | src/pages/auth/RegisterPage.tsx:29-39 | the page starts with the blank form, whose role is READER, and no message |
| RegisterPage.Page.HandleChange | src/pages/auth/RegisterPage.tsx:43-45 | only the form changes, by `With` |
| RegisterPage.Page.HandleSubmit | src/pages/auth/RegisterPage.tsx:47-79 | the current form is posted. Success sets `success`, resets the form to the initial one and schedules the redirect. Failure keeps the form and shows the classified message. `saving` is false afterwards |
| LoanListPage.LabelRewritesOnlyKnown | src/pages/loans/LoanListPage.tsx:29-40 | the label differs from the status iff the status is ACTIVE, RETURNED or OVERDUE |
| LoanListPage.ColorDefaultIffLabelRaw | src/pages/loans/LoanListPage.tsx:29-53 | the colour is `default` iff the label is the raw status |
| LoanListPage.KnownStatusesDistinguished | src/pages/loans/LoanListPage.tsx:29-53 | distinct known statuses get distinct labels and colours |
| LoanListPage.ReturnRenewNeedActive | src/pages/loans/LoanListPage.tsx:255-272 | return and renew are enabled iff the loan is ACTIVE and no action runs on its row |
| LoanListPage.BusyRowOnly | src/pages/loans/LoanListPage.tsx:242-285 | a running action disables every button of its row and none of another row |
| LoanListPage.ContentPriority | src/pages/loans/LoanListPage.tsx:140-164 | the spinner shows iff loading; otherwise a non-empty error shows an alert with that error, and the table shows iff there is no error; the empty notice appears iff the list is empty |
| LoanListPage.WithoutLoanRemovesExactly | src/pages/loans/LoanListPage.tsx:100 | after a delete, no loan with the id remains, every other loan remains, and nothing new appears |
| LoanListPage.WithoutLoanKeepsOrder | src/pages/loans/LoanListPage.tsx:100 | the filter splits over concatenation, so kept loans keep their order |
| LoanListPage.WithoutAbsentLoan | src/pages/loans/LoanListPage.tsx:100 | deleting an id that no loan has leaves the list unchanged |
| LoanListPage.WithoutLoanTwice | src/pages/loans/LoanListPage.tsx:100 | deleting the same id twice leaves the list as one delete does |
| LoanListPage.WithoutLoanCount | src/pages/loans/LoanListPage.tsx:100 | a delete shortens the list by exactly the number of loans that carry the id |
| LoanListPage.Page.constructor | src/pages/loans/LoanListPage.tsx:70-75 | the page starts loading, with an empty list and no action running |
| LoanListPage.Page.LoadLoans | src/pages/loans/LoanListPage.tsx:78-89 | a fetched list replaces the old one and clears the error; a failure keeps the list and sets the load error |
| LoanListPage.Page.HandleDelete | src/pages/loans/LoanListPage.tsx:95-108 | a cancelled confirm changes nothing. Success removes the loan locally and reports it. Failure keeps the list and sets the error. No action is running afterwards |
| LoanListPage.Page.HandleReturn | src/pages/loans/LoanListPage.tsx:110-123 | a cancelled confirm changes nothing. After a confirmed return the whole list is reloaded, not edited locally, and the success message is shown; a failed reload sets the load error without undoing that message. A failed return keeps the list, the message, the snackbar and the loading flag, and sets the error. No action is running afterwards |
| LoanListPage.Page.HandleRenew | src/pages/loans/LoanListPage.tsx:125-138 | the same new state as return on every path, with the renew messages |
| UserListPage.SwitchesIgnoreCase | src/pages/users/UserListPage.tsx:27-70 | every label and colour gives the same answer for a role or status whatever its case |
| UserListPage.UpperCaseRolesRecognised | src/pages/users/UserListPage.tsx:27-38 | ADMIN, LIBRARIAN and READER get their Portuguese labels |
| UserListPage.RoleColorFollowsLabel | src/pages/users/UserListPage.tsx:27-50 | `secondary` iff labelled administrator, `primary` iff labelled librarian |
| UserListPage.StatusColorFollowsLabel | src/pages/users/UserListPage.tsx:51-70 | `success` iff labelled active; a missing status is "-", and a missing role is "Usuário" |
| UserListPage.WithoutUserRemovesExactly | src/pages/users/UserListPage.tsx:103 | after a delete, no user with the id remains, every other user remains, and nothing new appears |
| UserListPage.WithoutUserKeepsOrder | src/pages/users/UserListPage.tsx:103 | kept users keep their order |
| UserListPage.WithoutUserTwice | src/pages/users/UserListPage.tsx:103 | deleting the same id twice leaves the list as one delete does |
| UserListPage.WithoutUserCount | src/pages/users/UserListPage.tsx:103 | a delete shortens the list by exactly the number of users that carry the id |
| UserListPage.Page.constructor | src/pages/users/UserListPage.tsx:73-78 | the page starts loading with an empty list |
| UserListPage.Page.LoadUsers | src/pages/users/UserListPage.tsx:81-92 | a fetched list replaces the old one and clears the error; a failure sets the load error |
| UserListPage.Page.HandleDelete | src/pages/users/UserListPage.tsx:98-111 | a cancelled confirm changes nothing. Success filters out that id. Failure keeps the list and sets the error. No action is running afterwards |
| UserListPage.Page.ClickDelete | src/pages/users/UserListPage.tsx:198 | a row without an id never reaches the delete handler and changes nothing; a row with an id gives exactly the new state of `handleDelete` on every path, and the loading flag is unchanged throughout |
| UserFormPage.LowerOr | src/pages/users/UserFormPage.tsx:25-26 | a truthy value is lower-cased; a falsy one gives the default |
| UserFormPage.Normalize | src/pages/users/UserFormPage.tsx:23-34 | role and status are always present: lower-cased, or defaulted to reader and active. Every other field is copied unchanged |
| UserFormPage.NormalizeIdempotent | src/pages/users/UserFormPage.tsx:23-34 | normalising twice is normalising once |
| UserFormPage.InitialDraftNormal | src/pages/users/UserFormPage.tsx:12-17 | the blank form, with role reader and status active, is already normal |
| UserFormPage.LoadedRoleLowered | src/pages/users/UserFormPage.tsx:42 | a user loaded with role ADMIN shows "admin" |
| UserFormPage.With | src/pages/users/UserFormPage.tsx:53-59 | only the named field changes |
| UserFormPage.Page.Load | src/pages/users/UserFormPage.tsx:36-51 | only an edit page fetches; a fetched user is shown normalised; a failure sets the load error |
| UserFormPage.Page.HandleChange | src/pages/users/UserFormPage.tsx:53-59 | only the record changes, by `With` |
| UserFormPage.Page.HandleSubmit | src/pages/users/UserFormPage.tsx:61-78 | the normalised record goes to update on an edit page and to create otherwise; the page goes back to the list iff the save succeeds |
| ProfilePage.RoleLabelFallback | src/pages/profiles/ProfilePage.tsx:7-14 | a role other than admin, librarian or reader is shown as it is, and "-" when missing or empty |
| ProfilePage.StatusLabelFallback | src/pages/profiles/ProfilePage.tsx:22-28 | likewise for statuses other than active and inactive |
| ProfilePage.StatusColorOnlyActive | src/pages/profiles/ProfilePage.tsx:15-28 | green iff the label is "Ativo" and the status is not the raw text "Ativo", which is labelled the same but stays grey |
| ProfilePage.AgreesWithUserListOnLowerCase | src/pages/profiles/ProfilePage.tsx:7-14 | on lower-case roles, the profile and the user list give the same label |
| ProfilePage.DiffersFromUserListOnUpperCase | src/pages/profiles/ProfilePage.tsx:7-14 | ADMIN is translated on the user list but shown raw on the profile |
| ProfilePage.ViewFor | src/pages/profiles/ProfilePage.tsx:63-85 | the spinner shows iff loading; otherwise an alert shows iff there is an error or no profile, carrying the error or, when it is empty, "Erro ao carregar perfil."; the card of the loaded profile shows iff not loading, no error and a profile is present |
| ProfilePage.Page.constructor | src/pages/profiles/ProfilePage.tsx:31-34 | the page starts loading with no profile |
| ProfilePage.Page.FetchMe | src/pages/profiles/ProfilePage.tsx:37-47 | a fetched profile is shown; a failure sets the load error; loading ends either way |
| ProfilePage.Page.HandleAvatarChange | src/pages/profiles/ProfilePage.tsx:49-61 | with no file, nothing changes. Otherwise an upload replaces the profile, or its failure sets the error and keeps the profile. `uploading` is false afterwards |
| ProfilePage.UploadFailureHidesProfile | src/pages/profiles/ProfilePage.tsx:56-71 | a failed upload replaces the whole profile card with the error alert |
| LoanFormPage.Choices | src/pages/loans/LoanFormPage.tsx:58-67 | one entry for each fetched element that has an id |
| LoanFormPage.ChoicesComplete | src/pages/loans/LoanFormPage.tsx:58-67 | every fetched element with an id has its `{id, caption}` entry |
| LoanFormPage.ChoicesSound | src/pages/loans/LoanFormPage.tsx:58-67 | every entry comes from a fetched element with that id and caption |
| LoanFormPage.ChoicesAppend | src/pages/loans/LoanFormPage.tsx:58-67 | the entries keep the order of the fetched list |
| LoanFormPage.UserWithoutIdLeftOut | src/pages/loans/LoanFormPage.tsx:60 | a user without an id is left out |
| LoanFormPage.DayPart | src/pages/loans/LoanFormPage.tsx:74-76 | a present date becomes its prefix of at most ten characters; a missing or empty one becomes "" |
| LoanFormPage.DayPartOfTimestamp | src/pages/loans/LoanFormPage.tsx:74-76 | a timestamp keeps exactly its `yyyy-mm-dd` day |
| LoanFormPage.DayPartIdempotent | src/pages/loans/LoanFormPage.tsx:74-76 | trimming twice is trimming once |
| LoanFormPage.DraftOfLoan | src/pages/loans/LoanFormPage.tsx:70-78 | the loaded record keeps the loan's id and status, holds its user and book ids as numbers, and holds each date trimmed to its day |
| LoanFormPage.OpenLoanHasNoReturnDate | src/pages/loans/LoanFormPage.tsx:76 | a loan never returned shows an empty return date |
| LoanFormPage.With | src/pages/loans/LoanFormPage.tsx:89-95 | `userId` and `bookId` go through `Number`; other fields take the text; only the named field changes |
| LoanFormPage.PickedUserIdRoundTrips | src/pages/loans/LoanFormPage.tsx:93 | picking a user stores that user's id as a number |
| LoanFormPage.Page.constructor | src/pages/loans/LoanFormPage.tsx:37-51 | the page starts with status ACTIVE, empty dates and nothing picked |
| LoanFormPage.Page.Load | src/pages/loans/LoanFormPage.tsx:53-87 | both pickers are filled only when both lists arrive. Only an edit page then fetches the loan. Any failure sets the single load message |
| LoanFormPage.Page.HandleChange | src/pages/loans/LoanFormPage.tsx:89-95 | only the record changes, by `With` |
| LoanFormPage.Page.HandleSubmit | src/pages/loans/LoanFormPage.tsx:97-117 | update on an edit page, create otherwise; each success has its own message; a failure sets the save error |
| BookFormPage.AuthorIdsOf | src/pages/books/BookFormPage.tsx:53 | the ids of the book's authors, position by position, or none when the book has no author list |
| BookFormPage.AuthorIdsKeepOrder | src/pages/books/BookFormPage.tsx:53 | the ids keep the authors' order |
| BookFormPage.BareBookHasNoSelection | src/pages/books/BookFormPage.tsx:51-55 | a book without authors or category loads as the blank selection: no authors, category 0 |
| BookFormPage.With | src/pages/books/BookFormPage.tsx:66-72 | `categoryId` goes through `Number`, other fields keep the typed text, and only the named field changes |
| BookFormPage.PickedCategoryRoundTrips | src/pages/books/BookFormPage.tsx:70 | picking a category stores its id as a number |
| BookFormPage.AuthorIdsFrom | src/pages/books/BookFormPage.tsx:74-80 | an array of picked values maps element-wise through `Number`; a single value gives no authors |
| BookFormPage.PickedAuthorsRoundTrip | src/pages/books/BookFormPage.tsx:74-80 | picking authors by id stores exactly those ids, in order |
| BookFormPage.Page.constructor | src/pages/books/BookFormPage.tsx:13-25 | the page starts with the blank book: no authors, category 0, one copy of everything |
| BookFormPage.Page.AuthorsLoaded | src/pages/books/BookFormPage.tsx:29-34 | the author list is the page's `content`, or the bare array; a failure sets the author error |
| BookFormPage.Page.CategoriesLoaded | src/pages/books/BookFormPage.tsx:37-42 | likewise for categories |
| BookFormPage.Page.LoadBook | src/pages/books/BookFormPage.tsx:45-63 | only an edit page fetches; a fetched book is mapped into the form; a failure sets the load error |
| BookFormPage.Page.HandleChange | src/pages/books/BookFormPage.tsx:66-72 | only the record changes, by `With` |
| BookFormPage.Page.HandleAuthorChange | src/pages/books/BookFormPage.tsx:74-80 | only `authorIds` changes |
| BookFormPage.Page.HandleSubmit | src/pages/books/BookFormPage.tsx:82-98 | the record goes to update on an edit page and to create otherwise; the page goes back to the list iff the save succeeds |
| MenuDrawer.SectionsShape | src/components/LibraryMenuDrawer.tsx:25-32 | six sections; each path is "/" followed by a character no other path has there |
| MenuDrawer.NoPathPrefixOfAnother | src/components/LibraryMenuDrawer.tsx:25-32 | no section path is a prefix of another |
| MenuDrawer.AtMostOneSelected | src/components/LibraryMenuDrawer.tsx:53 | for every current path, at most one item is selected |
| MenuDrawer.PrefixNotSegment | src/components/LibraryMenuDrawer.tsx:53 | selection is a raw text prefix: "/booksX" selects Livros |
| MenuDrawer.ClickSelectsClicked | src/components/LibraryMenuDrawer.tsx:53-57 | a click navigates to the section's path and then closes; on that path, exactly the clicked section is selected |
| ColorMode.FlipInvolution | src/components/contexts/ColorModeContext.tsx:17 | toggling always changes the mode, and toggling twice restores it |
| ColorMode.ThemeFollowsMode | src/components/contexts/ColorModeContext.tsx:20-23 | the theme is the light theme iff the mode is light; toggling switches the theme |
| ColorMode.ColorModeProvider.constructor | src/components/contexts/ColorModeContext.tsx:15 | the provider starts in light mode with the light theme |
| ColorMode.ColorModeProvider.Toggle | src/components/contexts/ColorModeContext.tsx:17-23 | the mode flips and the theme changes |
| ColorMode.ToggleTwice | src/components/contexts/ColorModeContext.tsx:17 | two toggles restore mode and theme |

## Left out

- Entities.User: the session profile keeps only `id`, `name`, `email`, `role` and `avatarUrl`. The `/users/me` body that the controllers persist with `JSON.stringify` also carries `status`, `phone`, `address`, `createdAt`, `updatedAt` and `password`, so the stored "user" text in the source holds more than `ProfileJson.Serialize` writes.
- ProfileJson.Parse: only the exact text `Serialize` writes is read back. Any other text counts as `JSON.parse` throwing. In the source, other valid JSON text parses without throwing: `null`, other key orders, whitespace. `"null"` stored under "user" would give a null user, not a logout.
- Text.ToNumber: models `Number` only on empty text and on signed decimal integers. Fractions, exponents, surrounding whitespace, hexadecimal and `Infinity` are not modelled; everything else is `NaN`.
- Text.Lower: case mapping is ASCII-only. JavaScript's Unicode case mapping of non-ASCII letters is not modelled. The same holds for `Text.Upper`.
- AuthContext.AuthProvider.InitializeAuth: the timer is modelled by its delay only. Its firing is time-driven. Its cancellation is never wired up in the source, because the cleanup is returned from the async function and not from the effect.
- AuthContext.AuthProvider.InitializeAuth: the two reads of `Date.now()` (the expiry check and the delay) are modelled as one instant `now`.
- AuthContext.AuthProvider.Login: the initialisation that the token change triggers after login is a separate effect run. It is not folded into `Login`; `CrossTabLogout` shows such a re-run.
- AuthService.Login: the login answer is assumed to carry a `token` string. A body without one would store the text "undefined" under "token".
- AuthContext.AuthProvider.Login: the same assumption. A body without a token would set the `token` state to `undefined` and store the text "undefined" under "token".
- AuthContextPlain.AuthProvider.Login: the same assumption, with the same consequence as in the mounted controller.
- The two session controllers and the guard are modelled separately, and no end-to-end composition is claimed. The mounted provider and the guard import different context modules. In that composition `useAuth` of the second module throws, because no provider of it is mounted.
- The `useAuth` and `useColorMode` accessors are not modelled. They only throw outside their provider.
- Event-loop concurrency is not modelled: overlapping logins, double submits, and the completion order of the three independent requests on the book form. Each handler runs to completion with its replies given.
- Navigation, the delayed redirects (`setTimeout` before `navigate`), snackbars and animation are not modelled. Only whether a redirect is requested is kept (`toLogin`, `toList`).
- Form inputs deliver text. The select boxes of the loan and book forms are modelled as handing over the chosen value's text.
- BookFormPage.DraftOfBook: the spread `...data` also keeps the book's `authors` and `category` objects in the record sent back. The form record models only the fields the form edits.
- UserFormPage.DraftOf: the spread `...userData` keeps every field the server sent: `phone`, `address`, `createdAt` and `updatedAt` (src/types/user.ts). The update sends them back. The form record holds only the fields the form edits, so `UserFormPage.Page.Load` and `UserFormPage.Page.HandleSubmit` do not carry those extra fields into the save payload.
- LoanFormPage.DraftOfLoan: the spread `...data` keeps the loan's nested `user`, `book` and `fine` objects (src/types/loan.ts). The update sends them back. The form record holds only the fields the form edits, so the save payload of `LoanFormPage.Page.HandleSubmit` leaves them out.
- `prepareForApi` has the same body as `normalizeUserData`. Both are the one function `UserFormPage.Normalize`.
- The delete, return and renew handlers are modelled with their replies. The dialogs are a boolean `confirmed`.
- Label, colour and layout markup is not modelled, nor are the dates formatted with `toLocaleDateString` and the fine amount formatted with `toFixed` in the loan list.
- The font-size context, the avatar crop dialog, the user menu, the login page, the remaining list and form pages (books, authors, categories), the loan actions component, the second colour-mode context, the HTTP client modules, the theme files and the route table are not part of this model. They hold floating point, canvas or date arithmetic, markup, configuration, or copies of the filters and field updates modelled here.
