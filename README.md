# Audit front end: access policy, session lifecycle, validators and page state

This project models, in Dafny, the core of a React/TypeScript front end used by
an audit division. Three kinds of user sign in to it: the division's Director,
internal auditors, and external audited parties. The model covers these parts:

- **Roles and routes.** The three role strings and the route table decide what
  each role may open (`ProtectedRoutes.tsx`). The same roles decide the sidebar
  menu and header title (`Layout.tsx`). Above both sit the `ProtectedRoute`
  guard and the `/login` route (`App.tsx`). All of this is pure: datatypes,
  functions and lemmas.
- **Session lifecycle.** The browser's two-key store (`token`, `user`) is a
  class, and so is the in-memory session of `AuthProvider`. The HTTP client's
  request and response interceptors and `authService` are methods that change
  them. Every network outcome is a parameter, either a value or an `HttpError`.
  A 401 sends the browser to `/login`; the model treats that as a page reload,
  which empties the in-memory state and boots it again.
- **Validators and formatters.** `utils/validation.ts` holds the e-mail and
  password checks, the required-field loop, the API error texts, the
  CPF/CNPJ display mask, and the CPF and CNPJ check-digit loops.
  `lib/utils.ts` holds the status colours, truncation and three form
  validators. The loops are methods proved against specification functions.
  The check-digit methods are proved equal to the published modulo-11 rule.
  The regular-expression replacements are modelled as leftmost-match searches.
- **Page state.** The login form, the users page and the audit selection are
  classes whose methods change fields the way the handlers call `setState`.
  Each handler is split at its `await`, and the outcome of the awaited call
  is a parameter.

Modules: `Wrappers`, `Text` (the JavaScript string built-ins used),
`Roles`, `ProtectedRoutes`, `Layout`, `App`, `Api`, `AuthContext`,
`LoginPage`, `UsersPage`, `AuditsPage`, `Validation`, `CheckDigits`,
`CheckDigitProperties`, `DocumentMask`, `LibUtils`.

### Where the code and its documentation differ

The model follows the code in each of these cases:

- **Unknown roles are let through.** The five internal pages are guarded by
  "role is not the audited role". A role string that is none of the three,
  or a missing user, therefore sees them (`ProtectedRoutes.UnknownRoleSeesInternalPages`).
- **A failed sign-in can clear the store.** `signIn` itself writes nothing
  when it fails. But a 401 from `/auth/login` passes through the response
  interceptor, which removes both keys and reloads (`AuthContext.AuthProvider.SignIn`).
- **`App` reads the default context.** `App` calls `useAuth()` above the
  `AuthProvider` it renders (see Findings).
- **Non-Directors on the users page stay on the loading screen.** The effect
  sets the denial message but never clears `loading`
  (`UsersPage.NonDirectorStaysLoading`).

## Model

| member | source | states |
|---|---|---|
| Roles.Classify | src/components/ProtectedRoutes.tsx:27 | Each known role is recognised exactly when `user?.role` equals its literal, case-sensitively; every other value, or no user, is a distinct "other" role |
| Roles.RoleOf | src/components/ProtectedRoutes.tsx:27 | `user?.role` as a role: each known role exactly when the user carries that literal; otherwise an unknown role carrying the raw value, or none without a user |
| Roles.ClassifyRoundTrip | src/components/ProtectedRoutes.tsx:27 | Classifying loses nothing: the role name of `Classify(r)` is `r`, and a well-formed role survives name-then-classify |
| Roles.RoleNamesDistinct | src/pages/UsersPage.tsx:215-219 | The three role strings are pairwise distinct |
| ProtectedRoutes.DefaultRoute | src/components/ProtectedRoutes.tsx:26-31 | `/audited-dashboard` exactly for the audited role, `/dashboard` for every other role |
| ProtectedRoutes.Decide | src/components/ProtectedRoutes.tsx:36-113 | The route table only ever redirects to one of the two landing routes, and only from `/`, the five internal paths, `/users` or `/audited-dashboard` |
| ProtectedRoutes.RootLandsOnDefaultRoute | src/components/ProtectedRoutes.tsx:36 | `/` redirects to the role's default route, and that route renders a real page for the role |
| ProtectedRoutes.InternalPagesExceptAudited | src/components/ProtectedRoutes.tsx:39-82 | Each of the five internal paths renders its page for every role except the audited one, which is sent to `/audited-dashboard` |
| ProtectedRoutes.NormsManualsUnguarded | src/components/ProtectedRoutes.tsx:84-87 | `/norms-manuals` renders for every role |
| ProtectedRoutes.UsersOnlyForDirector | src/components/ProtectedRoutes.tsx:89-96 | `/users` renders exactly for the Director; everyone else is redirected to `/dashboard` |
| ProtectedRoutes.AuditedDashboardOnlyForAudited | src/components/ProtectedRoutes.tsx:99-106 | `/audited-dashboard` renders exactly for the audited role; everyone else is redirected to `/dashboard` |
| ProtectedRoutes.UnlistedRendersNotFound | src/components/ProtectedRoutes.tsx:108-113 | The four placeholder paths and every unlisted path render the not-found page for every role |
| ProtectedRoutes.RenderedPagesAreReachable | src/components/ProtectedRoutes.tsx:36-113 | The table never renders a page the role is not entitled to |
| ProtectedRoutes.UnknownRoleSeesInternalPages | src/components/ProtectedRoutes.tsx:39-87 | An unknown role, or no user, still sees every internal page and the norms page |
| ProtectedRoutes.RedirectChainsSettle | src/components/ProtectedRoutes.tsx:36-113 | From any path, every role reaches a rendered page within two redirects, and further hops change nothing |
| ProtectedRoutes.LandingRouteSettles | src/components/ProtectedRoutes.tsx:39-44 | Each landing route renders, or redirects once to a route that renders |
| ProtectedRoutes.TwoHopsCanBeNeeded | src/components/ProtectedRoutes.tsx:89-106 | For the audited role, `/users` needs two hops: `/dashboard`, then `/audited-dashboard` |
| Layout.MenuItems | src/components/Layout.tsx:20-46 | The audited role gets the five-entry audited menu; other roles get the six internal entries, and the Director a seventh |
| Layout.FindByPath | src/components/Layout.tsx:84 | The result is the first menu entry with the path, or none exactly when no entry has it |
| Layout.MenuPathsDistinct | src/components/Layout.tsx:20-46 | No role's menu lists a path twice |
| Layout.UsersEntryOnlyForDirector | src/components/Layout.tsx:41-43 | `/users` appears in a role's menu exactly when the role is the Director |
| Layout.MenuPathsRenderWithoutRedirect | src/components/Layout.tsx:20-46 | Every menu entry of a role renders under the route table for that role, with no redirect |
| Layout.HeaderTitle | src/components/Layout.tsx:84 | The header title is never empty: it is the label of a menu entry for the current path, or "Dashboard" |
| Layout.HeaderTitleOfMenuEntry | src/components/Layout.tsx:84 | On a menu path the header shows that entry's label |
| Layout.HeaderTitleOffMenu | src/components/Layout.tsx:84 | On a path outside the menu the header shows "Dashboard" |
| Layout.HandleLogout | src/components/Layout.tsx:14-17 | Logout ends the session, empties the store and navigates to `/login` |
| App.ProtectedRoute | src/App.tsx:21-44 | The placeholder shows exactly while loading; once loaded, an unauthenticated visitor is sent to `/login` |
| App.GuardRedirectIsDefaultRoute | src/App.tsx:35-41 | A role left out of a non-empty `allowedRoles` goes to its default route, and that route renders for it |
| App.EmptyAllowedRolesAdmitsEveryone | src/App.tsx:23 | With the default empty `allowedRoles`, every authenticated user gets the children |
| App.AllowedRoleAdmitted | src/App.tsx:35-43 | A listed role gets the children |
| App.LoginRoute | src/App.tsx:57-59 | The login page shows exactly to an unauthenticated visitor; anyone else is sent to `/` |
| App.AppAtLogin | src/App.tsx:49-59 | At `/login`, `App` shows its placeholder exactly while loading, the login page exactly when loaded and unauthenticated, and a redirect to `/` exactly when loaded and authenticated |
| App.AppContextAsWritten | src/App.tsx:47 | As written, `App` sees `loading` and `isAuthenticated` both falsy, whatever the session |
| App.LoginShownToSignedInUserAsWritten | src/App.tsx:47-59 | As written, a signed-in user at `/login` is shown the login page |
| App.AppContext | src/contexts/AuthContext.tsx:72-80 | The provider's context: `loading` as is, and `isAuthenticated` exactly when there is a user |
| App.LoginPageOnlyWhenSignedOut | src/App.tsx:49-59 | With the provider's state, the login page shows exactly to a settled signed-out session; a signed-in user is redirected to `/`, and nothing is decided while loading |
| Api.BearerHeader | src/services/api.ts:16-27 | A header is attached exactly for a non-empty token; it is `Bearer ` followed by that token |
| Api.SessionStore.constructor | src/contexts/AuthContext.tsx:31-32 | The store holds the two given keys |
| Api.SessionStore.AuthorizationHeader | src/services/api.ts:18-21 | Every request carries a header exactly when the stored token is non-empty |
| Api.SessionStore.RejectResponse | src/services/api.ts:34-64 | Exactly a 401 empties both keys and reloads; every other error leaves the store unchanged |
| Api.SessionStore.Send | src/services/api.ts:30-65 | A response passes through unchanged, and a rejection reaches the caller as it was; only a 401 empties the store |
| Api.SessionStore.Login | src/services/api.ts:69-77 | The login outcome reaches the caller unchanged; only a 401 empties the store |
| Api.SessionStore.VerifyToken | src/services/api.ts:79-87 | The verification outcome reaches the caller unchanged; only a 401 empties the store |
| Api.SessionStore.Logout | src/services/api.ts:89-92 | Both keys are removed, so no header is sent afterwards |
| AuthContext.AuthProvider.constructor | src/contexts/AuthContext.tsx:26-27 | A new provider has no user and is loading |
| AuthContext.AuthProvider.IsAuthenticated | src/contexts/AuthContext.tsx:79 | Authenticated exactly when a user is in memory |
| AuthContext.AuthProvider.Boot | src/contexts/AuthContext.tsx:29-50 | A stored session that verifies is adopted and the store is untouched; one that fails empties the store; without a stored session nothing changes. Loading ends on every path, the two keys stay paired, and memory agrees with the store |
| AuthContext.AuthProvider.Reload | src/services/api.ts:40 | The reload after a 401 ends with no user, not loading, and an empty store |
| AuthContext.AuthProvider.SignIn | src/contexts/AuthContext.tsx:52-65 | On success both keys and the in-memory user are the server's. A failure is rethrown unchanged and changes nothing, except a 401, which empties the store and reloads. Pairing and agreement are preserved |
| AuthContext.AuthProvider.SignOut | src/contexts/AuthContext.tsx:67-70 | No user, an empty store and no header, whatever the state before |
| AuthContext.AuthProvider.ApiCall | src/services/api.ts:30-65 | A page's request outcome reaches the page unchanged; a 401 also ends the session |
| AuthContext.StartAndSignIn | src/contexts/AuthContext.tsx:29-65 | After any boot, a successful sign-in leaves the user authenticated, memory agreeing with a paired store, and the header set exactly for a non-empty token |
| AuthContext.BootRejected | src/contexts/AuthContext.tsx:34-43 | A stored session whose token is rejected boots signed out, with an empty store |
| LoginPage.FailureMessage | src/pages/LoginPage.tsx:28 | The server's non-empty message if there is one, else the fallback text; never empty |
| LoginPage.LoginForm.constructor | src/pages/LoginPage.tsx:6-9 | The form starts empty, with no error and not loading |
| LoginPage.LoginForm.BeginSubmit | src/pages/LoginPage.tsx:17-24 | Sign-in is called exactly when both fields are non-empty; otherwise the fill-in message is set and `loading` is left alone |
| LoginPage.LoginForm.FinishSubmit | src/pages/LoginPage.tsx:25-31 | Success navigates to `/dashboard`; failure shows the failure message; `loading` ends false on both paths |
| LoginPage.LoginForm.Submit | src/pages/LoginPage.tsx:14-32 | The whole handler, with the typed fields kept. An empty field means no call and nothing else touched. A success writes both store keys and the session user, then navigates. A failure shows its message and leaves the session and store as they were, except that a 401 ends the session and empties the store |
| UsersPage.RoleOptionsAreTheKnownRoles | src/pages/UsersPage.tsx:215-219 | The role select offers exactly the three known roles, once each |
| UsersPage.WithoutUser | src/pages/UsersPage.tsx:95 | A row remains exactly when its id differs from the deleted one |
| UsersPage.WithoutUserKeepsOrder | src/pages/UsersPage.tsx:95 | Deletion keeps the remaining rows in order; the filter distributes over concatenation |
| UsersPage.WithoutAbsentUser | src/pages/UsersPage.tsx:95 | Deleting an id that no row carries changes nothing |
| UsersPage.DeleteDisabled | src/pages/UsersPage.tsx:126 | The delete button is disabled exactly on the signed-in user's own row |
| UsersPage.ShowsRetry | src/pages/UsersPage.tsx:147 | Retry is offered exactly when the error does not contain the access-denied marker |
| UsersPage.RetryOnlyForLoadFailure | src/pages/UsersPage.tsx:38-48 | The denial offers no retry; the load-failure message does |
| UsersPage.UsersPageState.constructor | src/pages/UsersPage.tsx:17-26 | The page starts loading, with no rows, no error, the modal closed and an empty form |
| UsersPage.UsersPageState.View | src/pages/UsersPage.tsx:135-147 | The loading screen shows exactly while loading; after that, an error shows with its retry decision, and without an error the table shows, with the modal flag |
| UsersPage.UsersPageState.LoadEffect | src/pages/UsersPage.tsx:28-50 | Only the Director triggers the request: a missing list reads as empty, and a failure sets the load message. Any other role gets the denial and `loading` is untouched |
| UsersPage.UsersPageState.OpenCreateModal | src/pages/UsersPage.tsx:52-54 | The modal opens and nothing else changes |
| UsersPage.UsersPageState.CloseModal | src/pages/UsersPage.tsx:56-64 | The modal closes and every form field is reset |
| UsersPage.UsersPageState.ChangeField | src/pages/UsersPage.tsx:66-69 | Exactly the named field takes the value; the others are kept |
| UsersPage.UsersPageState.SubmitCreate | src/pages/UsersPage.tsx:71-87 | The created user is put first and the modal closes; a failure changes nothing |
| UsersPage.UsersPageState.DeleteUser | src/pages/UsersPage.tsx:89-102 | The request is made exactly when confirmed. On success, rows with that id leave and the rest keep their order; otherwise nothing changes. No row is ever added |
| UsersPage.NonDirectorStaysLoading | src/pages/UsersPage.tsx:28-50 | A signed-in non-Director gets the denial message, but the page stays on the loading screen |
| AuditsPage.RemoveId | src/pages/AuditsPage.tsx:85 | The id is gone and every other selected id remains |
| AuditsPage.Toggled | src/pages/AuditsPage.tsx:83-89 | A selected id is removed everywhere; an unselected id is appended at the end |
| AuditsPage.RemoveAbsentId | src/pages/AuditsPage.tsx:85 | Removing an unselected id changes nothing |
| AuditsPage.RemoveIdKeepsNoDuplicates | src/pages/AuditsPage.tsx:85 | Removal keeps a selection free of duplicates |
| AuditsPage.ToggleKeepsNoDuplicates | src/pages/AuditsPage.tsx:83-89 | Toggling keeps a selection free of duplicates |
| AuditsPage.ToggleTwice | src/pages/AuditsPage.tsx:83-89 | Toggling an unselected id twice restores the selection exactly; toggling a selected id twice restores it as a set, with the id moved to the end |
| AuditsPage.RemoveIdConcat | src/pages/AuditsPage.tsx:85 | Removal distributes over concatenation |
| AuditsPage.WithoutSelected | src/pages/AuditsPage.tsx:71-73 | An audit remains exactly when its id is not selected |
| AuditsPage.WithoutSelectedKeepsOrder | src/pages/AuditsPage.tsx:71-73 | The remaining audits keep their relative order |
| AuditsPage.AuditsPageState.constructor | src/pages/AuditsPage.tsx:20-25 | The three lists as loaded, with nothing selected |
| AuditsPage.AuditsPageState.ToggleAuditSelection | src/pages/AuditsPage.tsx:83-89 | The selection becomes its toggled form and the lists are untouched |
| AuditsPage.AuditsPageState.DeleteSelected | src/pages/AuditsPage.tsx:63-81 | The request is made exactly for a non-empty, confirmed selection. On success, the selected ids leave all three lists and the selection clears; otherwise nothing changes |
| AuditsPage.DeleteThenCheck | src/pages/AuditsPage.tsx:63-81 | After a successful batch delete, no list holds a selected id |
| Validation.IndexOf | src/utils/validation.ts:42 | The first position of the character, or none exactly when it does not occur |
| Validation.SplitsAtFirstAtIffPattern | src/utils/validation.ts:41-44 | Splitting at the first `@` and checking both halves accepts exactly the strings the pattern `^[^\s@]+@[^\s@]+\.[^\s@]+$` matches |
| Validation.IsValidEmail | src/utils/validation.ts:41-44 | The e-mail check accepts exactly the strings the pattern matches |
| Validation.ValidEmailHasOneAtAndNoSpace | src/utils/validation.ts:41-44 | An accepted e-mail has no white space and exactly one `@` |
| Validation.IsValidPassword | src/utils/validation.ts:47-49 | A password is accepted exactly when it has at least six characters |
| Validation.IsMissing | src/utils/validation.ts:56 | An absent field is missing. A string field is missing exactly when it is all white space. Any other value is missing exactly when it is falsy |
| Validation.MissingFields | src/utils/validation.ts:52-62 | A field is reported exactly when it was required and is missing; the report is no longer than the request |
| Validation.MissingFieldsSnoc | src/utils/validation.ts:55-59 | One more required field appends it to the report exactly when it is missing |
| Validation.ValidateRequiredFields | src/utils/validation.ts:52-62 | The loop reports the missing fields in request order; a field is reported exactly when required and missing |
| Validation.HandleApiError | src/utils/validation.ts:65-100 | 401, 403, 404 and 500 get fixed texts. 400 and unlisted statuses get the server's message, else their defaults. No response gives the network text. A request that never left gives its own message, else the unexpected-error text. The text is never empty |
| Validation.ServerMessageOnlyForUnlistedStatuses | src/utils/validation.ts:74-88 | For the statuses with a fixed text, the server's message makes no difference |
| CheckDigits.CpfRemainder | src/utils/validation.ts:158-159 | The CPF code's "ten times the sum modulo 11, with 10 read as 0" rule is the standard modulo-11 check digit |
| CheckDigits.Mod11Digit | src/utils/validation.ts:195 | The check digit is at most 9; it is 0 exactly when the remainder is below 2, and otherwise brings the sum to a multiple of 11 |
| CheckDigits.WeightedFromSnoc | src/utils/validation.ts:154-156 | A weighted sum splits off its last position |
| CheckDigits.WeightedSnoc | src/utils/validation.ts:154-156 | One more loop iteration adds one digit times its weight |
| CheckDigits.CpfWeightsFromLoop | src/utils/validation.ts:155 | The loop weights `11 - i` and `12 - i` are the CPF weight tables |
| CheckDigits.CpfSum | src/utils/validation.ts:154-156 | The CPF loop computes the weighted sum of its digits |
| CheckDigits.IsValidCpf | src/utils/validation.ts:142-172 | Accepts exactly the CPFs whose digits number 11, are not all equal, and carry both modulo-11 check digits |
| CheckDigits.CnpjWeightsFromCounter | src/utils/validation.ts:188-192 | A counter starting at `size - 7` and wrapping from below 2 to 9 walks the CNPJ weight tables |
| CheckDigits.CnpjSum | src/utils/validation.ts:190-193 | The CNPJ loop computes the weighted sum of its digits |
| CheckDigits.IsValidCnpj | src/utils/validation.ts:175-212 | Accepts exactly the CNPJs whose digits number 14, are not all equal, and carry both modulo-11 check digits |
| CheckDigitProperties.ValidityDependsOnDigitsOnly | src/utils/validation.ts:143 | Punctuation does not matter: validity depends only on the digits |
| CheckDigitProperties.WeightedOfRepeat | src/utils/validation.ts:154-156 | For one repeated digit, the weighted sum is that digit times the total of the weights |
| CheckDigitProperties.RepeatPrefix | src/utils/validation.ts:148 | A prefix of a repeat is a shorter repeat |
| CheckDigitProperties.ChecksumsOfRepeat | src/utils/validation.ts:148-169 | The check digits of a repeated digit depend only on the weight totals |
| CheckDigitProperties.SelfCheckingCpfTotals | src/utils/validation.ts:158-169 | For the CPF totals 54 and 65, every digit is its own check digit |
| CheckDigitProperties.SelfCheckingCnpjTotal | src/utils/validation.ts:195 | For the CNPJ total 58, only 0 is its own check digit |
| CheckDigitProperties.RepeatedDigitCpfPassesChecksums | src/utils/validation.ts:148 | Every repeated-digit CPF passes the checksums, so only the repeated-digit test rejects it |
| CheckDigitProperties.RepeatedDigitCnpjChecksums | src/utils/validation.ts:181 | Among repeated-digit CNPJs only all zeros passes the checksums, and none is valid |
| CheckDigitProperties.SampleCpfSum1 | src/utils/validation.ts:154-156 | The first CPF sum of 529982247 is 295 |
| CheckDigitProperties.SampleCpfSum2 | src/utils/validation.ts:163-165 | The second CPF sum of 5299822472 is 347 |
| CheckDigitProperties.SampleCnpjSum1 | src/utils/validation.ts:190-193 | The first CNPJ sum of 112223330001 is 102 |
| CheckDigitProperties.SampleCnpjSum2 | src/utils/validation.ts:203-206 | The second CNPJ sum of 1122233300018 is 120 |
| CheckDigitProperties.KnownCpfChecksums | src/utils/validation.ts:151-169 | 52998224725 carries matching check digits; changing its last digit breaks them |
| CheckDigitProperties.KnownCnpjChecksums | src/utils/validation.ts:184-209 | 11222333000181 carries matching check digits; changing its last digit breaks them |
| CheckDigitProperties.KnownCpfAccepted | src/utils/validation.ts:142-172 | 52998224725 is a valid CPF |
| CheckDigitProperties.KnownCnpjAccepted | src/utils/validation.ts:175-212 | 11222333000181 is a valid CNPJ |
| DocumentMask.SeparatorDropsOut | src/utils/validation.ts:123 | A non-digit separator inserted anywhere drops out again when the non-digits are removed |
| DocumentMask.FindMatch | src/utils/validation.ts:128-137 | The leftmost position where the pattern matches, or none exactly when it matches nowhere |
| DocumentMask.InsertAfterRun | src/utils/validation.ts:128-129 | The input changes exactly when it holds a run of k + 1 digits, and a non-digit separator leaves its digits unchanged |
| DocumentMask.HyphenInTail | src/utils/validation.ts:130 | The input changes exactly when it ends in four or five digits, and its digits stay as they were |
| DocumentMask.DotAfterFirstTwo | src/utils/validation.ts:134 | The input changes exactly when it starts with three digits, and its digits stay as they were |
| DocumentMask.DotAfterFirstFive | src/utils/validation.ts:135 | The input changes exactly when it starts with two digits, a dot and four digits, and its digits stay as they were |
| DocumentMask.SlashAfterDotRun | src/utils/validation.ts:136 | The input changes exactly when a dot is followed by four digits, and its digits stay as they were |
| DocumentMask.FormatCpfCnpj | src/utils/validation.ts:119-139 | Empty input gives ""; up to 11 digits take the CPF layout `000.000.000-00` (cut short for fewer digits); more take the CNPJ layout `00.000.000/0000-00` |
| DocumentMask.InsertAfterRunOnDigits | src/utils/validation.ts:128 | On digits alone, the separator goes after the first k digits when there are more than k |
| DocumentMask.InsertAfterRunPastBreak | src/utils/validation.ts:129 | Past an earlier separator, the next separator goes after the first run that follows it |
| DocumentMask.HyphenInTailPastBreak | src/utils/validation.ts:130 | A final group of four or five digits gets a hyphen after its third digit |
| DocumentMask.HyphenInTailShort | src/utils/validation.ts:130 | Fewer than four characters are left unchanged |
| DocumentMask.CpfChain | src/utils/validation.ts:125-130 | The three CPF replacements produce the layout `000.000.000-00`, cut short for fewer digits |
| DocumentMask.CnpjChain | src/utils/validation.ts:131-137 | The four CNPJ replacements produce the layout `00.000.000/0000-00` |
| DocumentMask.DigitsAcrossBreak | src/utils/validation.ts:123 | Keeping only the digits drops a separator between runs |
| DocumentMask.DigitsOfTwoGroups | src/utils/validation.ts:123 | One separator inserted into digits drops out again |
| DocumentMask.DigitsOfThreeGroups | src/utils/validation.ts:123 | Two separators inserted into digits drop out again |
| DocumentMask.DigitsOfFourGroups | src/utils/validation.ts:123 | Three separators inserted into digits drop out again |
| DocumentMask.DigitsOfFiveGroups | src/utils/validation.ts:123 | Four separators inserted into digits drop out again |
| DocumentMask.MasksKeepDigits | src/utils/validation.ts:125-137 | Both layouts keep exactly the digits they were given |
| DocumentMask.FormatKeepsDigits | src/utils/validation.ts:119-139 | The mask keeps exactly the input's digits, in order |
| DocumentMask.FormatKeepsValidity | src/utils/validation.ts:119-212 | Masking never changes whether a number is a valid CPF or CNPJ |
| DocumentMask.FullLayouts | src/utils/validation.ts:125-137 | Eleven digits give `ddd.ddd.ddd-dd`; fourteen give `dd.ddd.ddd/dddd-dd` |
| LibUtils.GetStatusColor | src/lib/utils.ts:24-37 | Blue, yellow and green exactly for the listed lower-cased statuses; gray for all others |
| LibUtils.StatusColorIgnoresCase | src/lib/utils.ts:25 | The colour does not depend on letter case |
| LibUtils.StatusColorOfUpperCase | src/lib/utils.ts:25-33 | Upper-case spellings, accents included, get the colours of their lower-case forms |
| LibUtils.LongerStatusIsGray | src/lib/utils.ts:34-35 | Every status longer than 11 characters is gray |
| LibUtils.FollowUpStatusIsGray | src/lib/utils.ts:31-35 | The follow-up status "Concluída - Acompanhamento das recomendações" is gray |
| LibUtils.TruncateText | src/lib/utils.ts:39-42 | A text within the limit is returned unchanged. A longer one becomes its first `maxLength` characters plus "..."; a negative limit counts from the end |
| LibUtils.TruncateIdempotent | src/lib/utils.ts:39-42 | For a limit of at least zero, truncating twice is the same as truncating once |
| LibUtils.ValidateRequired | src/lib/utils.ts:53-55 | Accepted exactly when some character is not white space |
| LibUtils.ValidatePassword | src/lib/utils.ts:49-51 | The same rule as the shared password check: at least six characters |
| LibUtils.ValidateEmail | src/lib/utils.ts:44-47 | Accepts exactly the strings the e-mail pattern matches |
| Text.DigitValue | src/utils/validation.ts:155 | `parseInt` of one digit is at most 9 |
| Text.OnlyDigits | src/utils/validation.ts:123 | `replace(/\D/g, '')` keeps only digits and never lengthens the string |
| Text.OnlyDigitsConcat | src/utils/validation.ts:123 | Removing non-digits distributes over concatenation |
| Text.OnlyDigitsOfDigits | src/utils/validation.ts:123 | A digit string is left unchanged |
| Text.OnlyDigitsOfNonDigit | src/utils/validation.ts:123 | A non-digit character disappears |
| Text.Trim | src/utils/validation.ts:56 | Trimming gives "" exactly for an all-white-space string; otherwise the result has no white space at either end, and it is never longer than the input |
| Text.TrimBothEmptyIffBlank | src/lib/utils.ts:54 | Trimming both ends leaves nothing exactly when every character is white space |
| Text.TrimStart | src/utils/validation.ts:56 | Leading white space is removed, and only that |
| Text.TrimEnd | src/utils/validation.ts:56 | Trailing white space is removed, and only that |
| Text.LowerChar | src/lib/utils.ts:25 | A–Z and the Latin-1 capitals U+00C0–U+00DE (except U+00D7) map to their lower-case letters, 32 code points up; every other character is unchanged |
| Text.Lower | src/lib/utils.ts:25 | Lower-casing works character by character and keeps the length |
| Text.LowerIdempotent | src/lib/utils.ts:25 | Lower-casing twice is the same as once |
| Text.Includes | src/pages/UsersPage.tsx:147 | `includes` is true exactly when the substring occurs at some position |
| Text.OccursPastFirst | src/pages/UsersPage.tsx:147 | When the substring does not start the string, it occurs exactly when it occurs in the rest |
| Text.NotIncludesWithoutFirstChar | src/pages/UsersPage.tsx:147 | A string without the substring's first character does not include it |

## Left out

- The HTTP transport is not part of this model: the base URL, the 15-second timeout, JSON bodies and the actual requests. Each call's outcome is a parameter.
- The request interceptor's error handler (`api.ts:24-26`) only passes the error on, and is not modelled.
- Console logging in the interceptors and handlers is not modelled. The 403, 5xx and timeout branches of the response interceptor only log, so they appear as "store unchanged".
- `window.location.href = '/login'` is modelled as a page reload: the in-memory state restarts and boots again. The browser navigation itself is not modelled.
- `localStorage` holds only the two session keys, as typed values. The JSON encoding of the user and a corrupt stored value, which would make `JSON.parse` throw, are not modelled.
- The order in which asynchronous handlers interleave is not modelled. Each handler is split at its `await`, and the awaited outcome is a parameter.
- `window.confirm` and `alert` are parameters (the confirmation) or left out (the alert text).
- Rendering (JSX, styles, icons, tables, modals) is out of scope. The screens are modelled as the choice of what to show.
- Route matching is exact string comparison. react-router's normalisation (trailing slashes, case, nested routes) is not modelled.
- The other pages (dashboards, payments, bank orders, document generator, norms and manuals) are not part of this model. Only their place in the route table is.
- The AuditsPage list loading, audit view and navigation handlers are not part of this model. The lists start as given.
- `formatCurrency`, `formatDate`, `validateNumber`, `validateDate`, `cn`, `debounce` and the `showError`/`showSuccess`/`showInfo` toasts are left out. They rely on `Intl`, `Date`, floating-point parsing or UI libraries.
- Text.LowerChar: only ASCII and Latin-1 upper-case letters are lower-cased. The full Unicode `toLowerCase` is not modelled.
- String lengths count characters, not UTF-16 code units. They differ only for characters outside the Basic Multilingual Plane.
- Validation.Lookup: only the record's own keys are modelled. A key absent from the record reads as `undefined`. In JavaScript, `data[field]` also finds inherited properties: a required field named `constructor` or `toString` that the record lacks is a truthy function, and the code never reports it missing. The model does report it (`Validation.IsMissing`, `Validation.MissingFields`).
- Validation.HandleApiError: a response whose `data` is missing, where the code would itself throw, is not modelled. A missing or empty `message` is the empty string.
- JavaScript numbers are modelled as unbounded integers. `maxLength` in `truncateText` is an integer, and fractional values are not modelled.

## Findings

| source | as written | input that shows it | evidently intended | confidence | as-written member | corrected member |
|---|---|---|---|---|---|---|
| src/App.tsx:46-70 | `App` calls `useAuth()` in the component that renders `AuthProvider`, so it reads the context's default `{}`; `loading` and `isAuthenticated` are both undefined | A signed-in user (stored token verified) opens `/login`: `App` still renders the login page instead of redirecting to `/` | `App` sees the provider's `loading` and `isAuthenticated`, so `/login` redirects a signed-in user | medium, not executed (the entry point that mounts `App` is not part of this model; a provider placed above `App` there would hide the problem) | App.AppContextAsWritten, App.LoginShownToSignedInUserAsWritten | App.AppContext, App.LoginPageOnlyWhenSignedOut |
