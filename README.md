# Admin dashboard client logic, modelled in Dafny

This project models the decision logic of a React admin dashboard written in TypeScript. The dashboard has three kinds of user:

- an operator who signs in with a mobile number and a password or a one-time code;
- users, who are managed in forms;
- fleet entries (cars) and units, which are listed in tables.

The model covers:

- the generic data table: search, stable sort by a column, pages, the sort cycle, page buttons and row selection;
- the session slice mirrored into `localStorage`, the route guard, the auth context and the UI slice;
- Iranian mobile-number normalisation, and the classification of HTTP errors into messages;
- URL joining and the `Authorization` header;
- the validators and outcome handlers of the add and edit user pages, the add and edit car pages, and the login, mobile, OTP and sign-up pages;
- the mappers from API records to table rows.

Modelling conventions:

- **Pure code → functions.** Mappers, validators, error classification, normalisation, and filter, sort and paginate are Dafny functions. Lemmas state their properties.
- **Stateful components, slices and storage → classes.** Their fields are the React state, the Redux state or the storage map. Each handler is a method whose `modifies` and `ensures` clauses give its whole new state.
- **Effects → recorded fields.** Navigation, toasts, query invalidations, `setSession` dispatches and remote calls are appended to sequence fields.
- **Awaited calls → parameters.** A remote call's result arrives as a parameter (`Call<T>`: a resolved value or a thrown `HttpError`), so each async handler is modelled once it has run to completion.
- **Conditionally rendered widgets → preconditions.** A handler whose widget is rendered only under a condition requires that condition. For example, "Edit" is shown only while viewing, and row checkboxes only when the table is `selectable`.

Files (one module each):

- **Shared helpers:**
  - `wrappers.dfy`: `Option`, `Result`.
  - `text.dfy`: ASCII digits, whitespace, `trim`, `toLowerCase`, `includes`, decimal printing.
  - `seqs.dfy`: filter and subsequence.
  - `storage.dfy`: the Web Storage object.
- **Session, guard and UI state:**
  - `session.dfy`: `sessionSlice.ts`.
  - `require_auth.dfy`: `RequireAuth.tsx`.
  - `auth_context.dfy`: `AuthContext.tsx`.
  - `ui_slice.dfy`: `uiSlice.ts`.
- **Strings and HTTP:**
  - `phone.dfy`: `phone.ts`.
  - `http.dfy`: `http.ts`.
- **Table and mappers:**
  - `data_table.dfy`: `DataTable.tsx`.
  - `users_data.dfy`, `cars_data.dfy` and `units_data.dfy`: the three data hooks.
- **Forms:**
  - `effects.dfy`: toasts, navigations and the shared `onError` reading.
  - `user_form.dfy`: the rules the two user pages share.
  - `add_user_page.dfy`, `edit_user_page.dfy`, `add_car_page.dfy`, `edit_car_page.dfy`.
- **Sign-in:**
  - `auth_flow.dfy`: the calls and outcomes of the sign-in pages.
  - `login_page.dfy`, `mobile_page.dfy`, `otp_page.dfy`, `signup_page.dfy`.

Where the project description and the code disagree, the model follows the code:

- `currentPage` is never clamped or reset when a search shrinks the results.
- `totalPages` is 0, not 1, when nothing matches.
- Selection is by object identity: `Row` is a class whose reference is its identity, not a key.

The same `formatLastLogin` appears in `useUsersData.ts` and `useCarsData.ts`. It is defined once, as `Users.FormatLastLogin`.

## Model

| member | source | states |
|---|---|---|
| Table.ToDisplay | src/shared/ui/DataTable.tsx:58 | `String(value)` as searched: a string is itself, a number is `IntToString` of it (the decimal digits of its value, `-` first when negative), `undefined` and `null` their names |
| Text.NatToString | src/shared/ui/DataTable.tsx:58 | `String(n)` for n ≥ 0: non-empty decimal digits, no leading zero, whose value is n (a round trip through `DecimalValue`) |
| Text.IntToString | src/shared/ui/DataTable.tsx:58 | `String(n)`: the digits of the absolute value of n without a leading zero, denoting that value, preceded by `-` exactly for negative n |
| Table.LessIsStrictTotalOrder | src/shared/ui/DataTable.tsx:71-77 | the `<` used by the sort comparator is irreflexive, transitive and total on distinct values |
| Table.StrLessTransitive | src/shared/ui/DataTable.tsx:71-77 | lexicographic comparison of strings is transitive |
| Table.StrLessTotal | src/shared/ui/DataTable.tsx:71-77 | of two different strings one is lexicographically smaller |
| Table.StrLessIrreflexive | src/shared/ui/DataTable.tsx:71-77 | no string is smaller than itself |
| Table.LessAsymmetric | src/shared/ui/DataTable.tsx:71-77 | `a < b` excludes `b < a` |
| Table.LessNegativelyTransitive | src/shared/ui/DataTable.tsx:71-77 | "not smaller" is transitive, the fact a stable sort's correctness rests on |
| Table.BeforeFacts | src/shared/ui/DataTable.tsx:67-78 | the comparator in either direction orders only rows with different keys, is asymmetric, and its "not before" relation is transitive |
| Table.Row.constructor | src/shared/ui/DataTable.tsx:27 | a record keeps exactly the fields it is built with |
| Table.Field | src/shared/ui/DataTable.tsx:68-69 | `item[key]` is the stored value, or `undefined` for a missing key |
| Table.GetValue | src/shared/ui/DataTable.tsx:119-124 | the column's `render` output when it has one, else the raw field |
| Table.FilteredData | src/shared/ui/DataTable.tsx:50-61 | an empty term returns `data` itself; otherwise a subsequence of `data` in which every record of `data` occurs as often as in `data` when a column matches, and not at all otherwise |
| Table.FilterDropsNonMatching | src/shared/ui/DataTable.tsx:53-60 | for a non-empty term, a record of `data` is kept if and only if some column matches |
| Table.Insert | src/shared/ui/DataTable.tsx:67-78 | one insertion step of the sort adds exactly the inserted row to the multiset |
| Table.SortRowsPermutes | src/shared/ui/DataTable.tsx:67 | the sorted copy is a permutation of `filteredData` |
| Table.SortedCons | src/shared/ui/DataTable.tsx:67-78 | a row that no later row must precede, put before a sorted list, keeps it sorted |
| Table.InsertNotBefore | src/shared/ui/DataTable.tsx:67-78 | insertion keeps a row that nothing must precede in that position |
| Table.InsertSorted | src/shared/ui/DataTable.tsx:67-78 | inserting into a sorted list gives a sorted list |
| Table.SortRowsSorted | src/shared/ui/DataTable.tsx:67-78 | the sorted copy is ordered by the comparator in the configured direction |
| Table.InsertKeep | src/shared/ui/DataTable.tsx:67-78 | insertion places a new row after every existing row with an equal key |
| Table.SortRowsStable | src/shared/ui/DataTable.tsx:67-78 | rows with equal keys keep their relative order |
| Table.SortedData | src/shared/ui/DataTable.tsx:64-79 | no sort config returns the filtered view; otherwise a permutation of it that is sorted and stable on equal keys |
| Table.Slice | src/shared/ui/DataTable.tsx:86 | `slice(start, end)` with its clipping at the end of the array |
| Table.PaginatedData | src/shared/ui/DataTable.tsx:82-87 | without pagination the sorted view; with it at most `pageSize` rows, namely `sorted[(p-1)*size .. p*size)` clipped to the array |
| Table.TotalPages | src/shared/ui/DataTable.tsx:89 | `ceil(length / pageSize)`: 0 exactly for no rows, otherwise the fewest pages holding all rows |
| Table.PagesPrefix | src/shared/ui/DataTable.tsx:82-89 | the first k pages concatenated are the first k·size rows |
| Table.AllPagesCoverSorted | src/shared/ui/DataTable.tsx:82-89 | all `totalPages` pages concatenated give back the whole sorted view |
| Table.PageBeyondLastIsEmpty | src/shared/ui/DataTable.tsx:82-89 | a `currentPage` past `totalPages` shows an empty page, because nothing clamps it |
| Table.PageButtons | src/shared/ui/DataTable.tsx:304-305 | the numbered buttons are 1..min(15, totalPages) |
| Table.PreviousPage | src/shared/ui/DataTable.tsx:297 | "previous" goes down by one and never below 1 |
| Table.NextPage | src/shared/ui/DataTable.tsx:322-323 | "next" goes up by one and never above `totalPages` |
| Table.TruncateTitle | src/shared/ui/DataTable.tsx:226-228 | titles longer than 8 characters become their first 8 followed by "..." |
| Table.NextSort | src/shared/ui/DataTable.tsx:91-98 | the active key goes from asc to desc and from desc to none; any other key starts at asc |
| Table.ThreeClicksClearSort | src/shared/ui/DataTable.tsx:91-98 | three clicks on a new key give asc, desc, then no sort |
| Table.ToggleRow | src/shared/ui/DataTable.tsx:110-113 | a selected row is removed: the result is a subsequence of the selection holding every other row as often as before and that row not at all; an unselected one is appended at the end |
| Table.ToggleRowTwice | src/shared/ui/DataTable.tsx:110-113 | selecting and then deselecting a row restores the selection |
| Table.SelectAllNext | src/shared/ui/DataTable.tsx:100-108 | equal lengths clear the selection, otherwise it becomes the current page |
| Table.SelectAllChecks | src/shared/ui/DataTable.tsx:196-198 | after select-all the header box is checked if and only if the lengths differed and the page is non-empty |
| Table.SelectAllComparesLengthsOnly | src/shared/ui/DataTable.tsx:101 | a selection of the page's length counts as "all selected" and is cleared, whichever rows it holds |
| Table.HeaderChecked | src/shared/ui/DataTable.tsx:196-198 | a checked header box means a non-empty page, and clicking it clears the selection |
| Table.DataTable.constructor | src/shared/ui/DataTable.tsx:41-47 | the initial state: empty search, page 1, no sort, empty selection |
| Table.DataTable.SetData | src/shared/ui/DataTable.tsx:28 | new `data` leaves all four state variables unchanged |
| Table.DataTable.SetSearchTerm | src/shared/ui/DataTable.tsx:178 | typing sets the term only; the page is not reset |
| Table.DataTable.ClickHeader | src/shared/ui/DataTable.tsx:219-221 | a sortable header applies the sort cycle, any other header changes nothing |
| Table.DataTable.SelectAll | src/shared/ui/DataTable.tsx:100-108 | the selection becomes the select-all result and the listener receives it |
| Table.DataTable.SelectRow | src/shared/ui/DataTable.tsx:110-117 | the selection becomes the toggled one and the listener receives exactly it |
| Table.DataTable.ClickRow | src/shared/ui/DataTable.tsx:251 | the row-click callback receives the record, and nothing else changes |
| Table.DataTable.PagerShown | src/shared/ui/DataTable.tsx:287 | the pager is shown only with pagination and more matching records than one page holds, and then has at least one numbered button |
| Table.MoreThanOnePage | src/shared/ui/DataTable.tsx:89 | two or more pages means more records than one page holds |
| Table.DataTable.GoPrevious | src/shared/ui/DataTable.tsx:297 | the page becomes the previous one, clamped at 1 |
| Table.DataTable.GoNext | src/shared/ui/DataTable.tsx:322-323 | the page becomes the next one, clamped at `totalPages` |
| Table.DataTable.GoToPage | src/shared/ui/DataTable.tsx:304-309 | a numbered button sets that page |
| Session.LoadInitialState | src/store/slices/sessionSlice.ts:9-24 | exactly the stored `auth_token` and `auth_mobile`, null when missing; both null when storage throws |
| Session.SetSessionState | src/store/slices/sessionSlice.ts:32-36 | the token is always replaced; the mobile only when the payload defines it, null included |
| Session.SetSessionStorage | src/store/slices/sessionSlice.ts:39-50 | only the two session keys are touched |
| Session.ClearSessionStorage | src/store/slices/sessionSlice.ts:60-62 | both keys are removed and nothing else changes |
| Session.SetSessionWritesToken | src/store/slices/sessionSlice.ts:40-44 | a truthy token is stored under `auth_token`; a null or empty one removes the key |
| Session.SetSessionWritesMobile | src/store/slices/sessionSlice.ts:46-50 | a truthy mobile is stored; an explicit null or "" removes it; an omitted mobile leaves the key as it was |
| Session.SetSessionKeepsMirror | src/store/slices/sessionSlice.ts:32-50 | if storage mirrored the state before `setSession`, it mirrors it after |
| Session.ClearSessionMirrors | src/store/slices/sessionSlice.ts:55-66 | after `clearSession` storage mirrors the empty session |
| Session.LoadInitialStateMirrors | src/store/slices/sessionSlice.ts:9-16 | the state loaded from storage mirrors that storage |
| Session.RehydrateAfterSetSession | src/store/slices/sessionSlice.ts:11-48 | after `setSession` with a non-empty token and mobile, a reload yields exactly that token and mobile |
| Session.ReloadKeepsTokenPresence | src/store/slices/sessionSlice.ts:9-16 | a reload from mirroring storage keeps whether a token is present |
| Session.OmittedMobileSurvives | src/store/slices/sessionSlice.ts:34-36 | a mobile set with a null token survives a later `setSession` that omits the mobile |
| Session.ClearSessionIdempotent | src/store/slices/sessionSlice.ts:55-66 | clearing twice stores the same as clearing once |
| Session.SessionStore.constructor | src/store/slices/sessionSlice.ts:26 | the store starts from `loadInitialState` on the storage |
| Session.SessionStore.SetSession | src/store/slices/sessionSlice.ts:32-54 | the state is updated in memory even when storage throws; accessible storage gets the mirror update |
| Session.SessionStore.ClearSession | src/store/slices/sessionSlice.ts:55-66 | both fields become null; accessible storage loses both keys |
| RequireAuth.Guard | src/features/auth/RequireAuth.tsx:6-13 | a falsy token gives a replacing redirect to "/" carrying the requested location; a truthy one renders the children unchanged |
| RequireAuth.GuardIgnoresMobile | src/features/auth/RequireAuth.tsx:7 | the decision does not depend on the mobile |
| RequireAuth.GuardStableAcrossReload | src/features/auth/RequireAuth.tsx:7-12 | reloading a mirrored session does not change the guard's decision |
| RequireAuth.ClearedSessionRedirects | src/features/auth/RequireAuth.tsx:9-10 | after `clearSession` the guard redirects |
| Phone.DigitsOnly | src/shared/lib/phone.ts:2 | the result is all ASCII digits, a subsequence of the input, and holds every ASCII digit as often as the input does and nothing else |
| Phone.NormalizeIranMobile | src/shared/lib/phone.ts:1-7 | the output is always ASCII digits only |
| Phone.NormalizeDigits | src/shared/lib/phone.ts:3-6 | the prefix rules keep a digit string a digit string |
| Phone.DigitsOnlyOfDigits | src/shared/lib/phone.ts:2 | stripping leaves a digit string unchanged |
| Phone.NormalizeIgnoresNonDigits | src/shared/lib/phone.ts:2 | only the digits of the input matter |
| Phone.NormalizeLeadingZero | src/shared/lib/phone.ts:6 | "0" + a national number is returned unchanged |
| Phone.NormalizeCountryCode | src/shared/lib/phone.ts:4 | "98" + n becomes "0" + n |
| Phone.NormalizePlusCountryCode | src/shared/lib/phone.ts:2-4 | "+98" + n becomes "0" + n |
| Phone.NormalizeInternationalPrefix | src/shared/lib/phone.ts:3 | "0098" + n becomes "0" + n |
| Phone.NormalizeBareNationalNumber | src/shared/lib/phone.ts:5 | ten digits starting "9" (second digit not "8") get a leading "0" |
| Phone.NormalizeTenDigitsStartingNinetyEight | src/shared/lib/phone.ts:4-5 | ten digits starting "98" are taken as a country code, lose two digits, and then fail the login pattern |
| Phone.PersianNumeralsAreStripped | src/shared/lib/phone.ts:2 | a number typed in Persian numerals normalises to "" |
| Phone.NormalizedPatternsAgree | src/shared/lib/phone.ts:1-7 | on normalised input the login pattern `0?9\d{9}` and the form pattern `09\d{9}` agree |
| Phone.NormalizeFixesCanonical | src/shared/lib/phone.ts:1-7 | a number already in `09\d{9}` form is unchanged |
| Http.ServerMessage | src/shared/api/http.ts:30-34 | no body gives none; a non-empty text body is the message; in an object body the first truthy of `message`, `error`, `detail`; whatever is returned is non-empty |
| Http.DefaultMessage | src/shared/api/http.ts:36-77 | the fallback for 402, 401, 403, 404, 429 and each status ≥ 500 is that class's own message; every other status, and only those, gets the bad-request message |
| Http.GetErrorInfo | src/shared/api/http.ts:15-78 | no response: the timeout message with code TIMEOUT for ECONNABORTED, else the offline message with the error's code; with a response: its status, the server message over the default, code `data.code`, except that for status 402 a falsy `data.code` becomes "402" |
| Http.GetErrorMessage | src/shared/api/http.ts:80-82 | the message of `getErrorInfo` |
| Http.ServerMessageWins | src/shared/api/http.ts:30-77 | a server message replaces the default for every status |
| Http.WithLeadingSlash | src/shared/api/http.ts:98 | the path with exactly one "/" added, and only when it lacks one |
| Http.JoinUrl | src/shared/api/http.ts:98 | the URL is the base followed by the slash-led path |
| Http.JoinUrlStable | src/shared/api/http.ts:127 | joining an already joined path again changes nothing |
| Http.HttpJsonBaseUrl | src/shared/api/http.ts:97 | a truthy override wins over the environment base URL |
| Http.HttpJsonHeaders | src/shared/api/http.ts:100-107 | the JSON defaults, or exactly the caller's headers because the later spread of `init` replaces the merged set |
| Http.StoredToken | src/shared/api/http.ts:131-132 | a token is found exactly when one of the two storages holds a non-empty one, and it is the value of one of them |
| Http.TokenHeaders | src/shared/api/http.ts:134-150 | caller headers are sent exactly as given; without them the two JSON headers are always present |
| Http.StoredTokenSources | src/shared/api/http.ts:131-132 | the token is taken from `localStorage` when it holds a non-empty one, else from `sessionStorage` |
| Http.TokenHeadersBearer | src/shared/api/http.ts:134-150 | without caller headers, `Authorization: Bearer <t>` is present exactly when a token is found, next to the JSON headers; caller headers replace everything |
| AuthContext.ToAuthUser | src/contexts/AuthContext.tsx:41-47 | id, name and mobile are copied; missing roles or permissions become [] |
| AuthContext.HasPermission | src/contexts/AuthContext.tsx:73-75 | true if and only if there is a user whose permissions contain p |
| AuthContext.MissingPermissionsGrantNothing | src/contexts/AuthContext.tsx:46 | a user delivered without permissions has none |
| AuthContext.UseAuth | src/contexts/AuthContext.tsx:84-88 | throws the "within AuthProvider" error exactly outside a provider, else returns the context |
| AuthContext.StartupToken | src/contexts/AuthContext.tsx:57-59 | the local token or else the session token; throws exactly when a storage read that happens throws |
| AuthContext.AuthProvider.constructor | src/contexts/AuthContext.tsx:23-24 | no user and loading |
| AuthContext.AuthProvider.Start | src/contexts/AuthContext.tsx:26-65 | without a token there is no fetch and loading ends; with one, one fetch; success stores the user; failure removes the token from both storages; loading ends either way |
| AuthContext.AuthProvider.Logout | src/contexts/AuthContext.tsx:67-71 | the user becomes null and `auth_token` is removed from both storages |
| UiSlice.UiStore.constructor | src/store/slices/uiSlice.ts:8-11 | theme blue and no global message |
| UiSlice.UiStore.SetTheme | src/store/slices/uiSlice.ts:17-19 | sets the theme only |
| UiSlice.UiStore.SetGlobalMessage | src/store/slices/uiSlice.ts:20-22 | sets the message only, null allowed |
| Users.StatusLabel | src/features/dashboard/hooks/useUsersData.ts:63 | "فعال" exactly for true, "غیرفعال" exactly for false |
| Users.DetermineRole | src/features/dashboard/hooks/useUsersData.ts:84-90 | admin exactly for id 1; operator exactly for the operator mobile with another id; otherwise user |
| Users.DiffHours | src/features/dashboard/hooks/useUsersData.ts:113-114 | the ceiling of the absolute difference in hours; 0 only for a zero difference |
| Users.FormatLastLogin | src/features/dashboard/hooks/useUsersData.ts:107-119 | "never" for a missing date; "just now" only for a zero difference; otherwise whole hours below 24, days below 168, then weeks, each with its suffix |
| Users.LastLoginIgnoresDirection | src/features/dashboard/hooks/useUsersData.ts:113 | a date in the future formats like one equally far in the past |
| Users.LastLoginBoundaries | src/features/dashboard/hooks/useCarsData.ts:66-74 | the 1 / 24 / 168-hour bucket edges with ceil then floor: 1 ms is 1 hour, 23 h + 1 ms is 1 day, 167 h is 6 days, 168 h − 1 ms is 1 week |
| Users.MapUser | src/features/dashboard/hooks/useUsersData.ts:56-70 | copies id, name, mobile, father name, national ID and timestamps; null or empty family gives "-"; status label, role, join date and last login as defined |
| Users.MapUsers | src/features/dashboard/hooks/useUsersData.ts:56 | same length and order, each record mapped |
| Users.UsersOrEmpty | src/features/dashboard/hooks/useUsersData.ts:75 | [] while the query has no data |
| Cars.MapCars | src/features/dashboard/hooks/useCarsData.ts:31-34 | same length and order, only id and name |
| Cars.MapCarsAppend | src/features/dashboard/hooks/useCarsData.ts:31-34 | the mapping is element-wise: it commutes with concatenation |
| Cars.CarsOrEmpty | src/features/dashboard/hooks/useCarsData.ts:39 | [] while there is no data |
| Units.MapUnits | src/features/dashboard/hooks/useUnitsData.ts:35-39 | same length and order, id and name copied, active label exactly for true status |
| Units.TimestampsIgnored | src/features/dashboard/hooks/useUnitsData.ts:9-15 | records differing only in `created_at`/`updated_at` map to the same row |
| Units.UnitsOrEmpty | src/features/dashboard/hooks/useUnitsData.ts:44 | [] while there is no data |
| Effects.OnErrorFeedback | src/features/dashboard/ui/user/AddUserPage.tsx:64-106 | generic toast exactly when there is no response data; otherwise the prefixed message toast exactly for a truthy message, and the server's field errors |
| Effects.NetworkFailureIsGeneric | src/features/dashboard/ui/user/AddUserPage.tsx:103-105 | a failure without a response only shows the generic toast |
| UserForm.FormData.With | src/features/dashboard/ui/user/AddUserPage.tsx:158 | the named field takes the value and every other field is unchanged |
| UserForm.IdentityErrors | src/features/dashboard/ui/user/AddUserPage.tsx:112-134 | name, family and father name are in error exactly when blank; national ID "required" when blank, else "10 digits" unless exactly 10 digits; mobile "required" when blank, else "format" unless `09\d{9}` |
| UserForm.AcceptedMobileIsNormalized | src/features/dashboard/ui/user/AddUserPage.tsx:130-134 | a mobile the form accepts is already in normalised form |
| UserForm.ClearFieldError | src/features/dashboard/ui/user/AddUserPage.tsx:159-161 | only that field's truthy error is removed |
| UserForm.CopyFirstMessage | src/features/dashboard/ui/user/AddUserPage.tsx:79-81 | one field gets the first server message of its array, others untouched |
| UserForm.ServerKeysDistinct | src/features/dashboard/ui/user/AddUserPage.tsx:79-99 | each form field reads its own key of the server's `errors` object (`name`, `family`, `nationalID`, `father_name`, `mobile`, `password`, `confirm_password`) |
| UserForm.MapServerErrors | src/features/dashboard/ui/user/AddUserPage.tsx:77-100 | each field gets an error exactly when the server reported a message for it, and then the first one |
| AddUser.ValidateForm | src/features/dashboard/ui/user/AddUserPage.tsx:109-148 | the identity rules; password "required" when blank, else "too short" under 4; confirmation error exactly when it differs |
| AddUser.NoErrorsIffValid | src/features/dashboard/ui/user/AddUserPage.tsx:146-147 | the form is valid if and only if no error key was produced |
| AddUser.RulesDetermineErrors | src/features/dashboard/ui/user/AddUserPage.tsx:109-148 | the rules fix the error record completely |
| AddUser.BlankPasswordIsRequired | src/features/dashboard/ui/user/AddUserPage.tsx:136-140 | a blank password is "required", never "too short" |
| AddUser.AddUserPage.constructor | src/features/dashboard/ui/user/AddUserPage.tsx:27-37 | empty form and no errors |
| AddUser.AddUserPage.Submit | src/features/dashboard/ui/user/AddUserPage.tsx:150-155 | shows the validation errors and creates only a valid form |
| AddUser.AddUserPage.InputChange | src/features/dashboard/ui/user/AddUserPage.tsx:157-162 | changes only that field and clears only its error |
| AddUser.AddUserPage.CreateSucceeded | src/features/dashboard/ui/user/AddUserPage.tsx:48-63 | no data: error toast, no navigation; otherwise invalidate users, success toast, go to the list |
| AddUser.AddUserPage.CreateFailed | src/features/dashboard/ui/user/AddUserPage.tsx:64-106 | with response data the message toast and the mapped field errors; without, only the generic toast |
| EditUser.FormFromUser | src/features/dashboard/ui/user/ViewEditUserPage.tsx:124-136 | null fields become "", both passwords "" |
| EditUser.ValidateForm | src/features/dashboard/ui/user/ViewEditUserPage.tsx:138-175 | the identity rules; password error only while editing with a non-empty password under 4; mismatch only while editing |
| EditUser.EditIsLaxerThanAdd | src/features/dashboard/ui/user/ViewEditUserPage.tsx:165-171 | every error of the edit form while editing is also an error of the add form |
| EditUser.NoPasswordErrorWithoutNewPassword | src/features/dashboard/ui/user/ViewEditUserPage.tsx:165-171 | an empty password is allowed, and no password rule applies outside edit mode |
| EditUser.PayloadOf | src/features/dashboard/ui/user/ViewEditUserPage.tsx:180-189 | all identity fields are sent; both passwords exactly when the password is non-empty |
| EditUser.UnchangedFormSendsNoPassword | src/features/dashboard/ui/user/ViewEditUserPage.tsx:124-136 | saving the loaded form unchanged sends no password |
| EditUser.EditUserPage.constructor | src/features/dashboard/ui/user/ViewEditUserPage.tsx:36-47 | viewing mode, empty form, no errors |
| EditUser.EditUserPage.UserLoaded | src/features/dashboard/ui/user/ViewEditUserPage.tsx:124-136 | a loaded user fills the form |
| EditUser.EditUserPage.StartEditing | src/features/dashboard/ui/user/ViewEditUserPage.tsx:276-278 | enters edit mode, nothing else changes |
| EditUser.EditUserPage.Cancel | src/features/dashboard/ui/user/ViewEditUserPage.tsx:206-220 | restores the form from the user, leaves edit mode, clears all errors |
| EditUser.EditUserPage.Submit | src/features/dashboard/ui/user/ViewEditUserPage.tsx:177-197 | shows the errors and sends the shaped payload only for a valid form |
| EditUser.EditUserPage.InputChange | src/features/dashboard/ui/user/ViewEditUserPage.tsx:199-204 | changes only that field and clears only its error |
| EditUser.EditUserPage.UpdateSucceeded | src/features/dashboard/ui/user/ViewEditUserPage.tsx:74-79 | invalidates the list and this user, leaves edit mode, success toast |
| EditUser.EditUserPage.UpdateFailed | src/features/dashboard/ui/user/ViewEditUserPage.tsx:80-120 | the same mapping as the add page, with this page's generic message |
| AddCar.ValidateForm | src/features/dashboard/ui/car/AddCarPage.tsx:77-86 | a name error exactly when the name is blank |
| AddCar.ClearNameError | src/features/dashboard/ui/car/AddCarPage.tsx:97-99 | a truthy name error is cleared |
| AddCar.ServerNameError | src/features/dashboard/ui/car/AddCarPage.tsx:65-68 | the first server message for `name`, if any |
| AddCar.OtherServerFieldsIgnored | src/features/dashboard/ui/car/AddCarPage.tsx:65-68 | messages for other fields never reach the form |
| AddCar.AddCarPage.constructor | src/features/dashboard/ui/car/AddCarPage.tsx:21-25 | empty name, no error |
| AddCar.AddCarPage.Submit | src/features/dashboard/ui/car/AddCarPage.tsx:88-93 | shows the error and creates only when the name is not blank |
| AddCar.AddCarPage.InputChange | src/features/dashboard/ui/car/AddCarPage.tsx:95-100 | sets the name and clears its error |
| AddCar.AddCarPage.CreateSucceeded | src/features/dashboard/ui/car/AddCarPage.tsx:36-51 | no data: error toast and no navigation; otherwise invalidate cars, toast, go to the list |
| AddCar.AddCarPage.CreateFailed | src/features/dashboard/ui/car/AddCarPage.tsx:52-74 | message toast and `name` error with response data, else only the generic toast |
| EditCar.FormFromCar | src/features/dashboard/ui/car/ViewEditCarPage.tsx:91-97 | the form name is the car's name |
| EditCar.EditCarPage.constructor | src/features/dashboard/ui/car/ViewEditCarPage.tsx:30-35 | viewing mode, empty name, no error |
| EditCar.EditCarPage.CarLoaded | src/features/dashboard/ui/car/ViewEditCarPage.tsx:91-97 | a loaded car fills the form |
| EditCar.EditCarPage.StartEditing | src/features/dashboard/ui/car/ViewEditCarPage.tsx:185-187 | enters edit mode |
| EditCar.EditCarPage.Validate | src/features/dashboard/ui/car/ViewEditCarPage.tsx:99-108 | a name error exactly when blank; valid exactly without errors |
| EditCar.EditCarPage.Submit | src/features/dashboard/ui/car/ViewEditCarPage.tsx:110-112 | nothing changes: no validation and no update request |
| EditCar.EditCarPage.InputChange | src/features/dashboard/ui/car/ViewEditCarPage.tsx:114-119 | sets the name and clears its error |
| EditCar.EditCarPage.Cancel | src/features/dashboard/ui/car/ViewEditCarPage.tsx:121-129 | restores the name, leaves edit mode, clears the error |
| Login.SubmitOutcome | src/features/auth/ui/LoginPageAdmin.tsx:39-121 | a call is made exactly for a valid normalised mobile and, in password mode, a non-blank password; an invalid mobile is refused first, a blank password next; otherwise the outcome is the OTP or the password branch on the normalised number; every path either shows an error or navigates |
| Login.OtpOutcome | src/features/auth/ui/LoginPageAdmin.tsx:70-79 | sends the code; a resolved send stores a null token with the mobile and goes to the code page; a 402 "otp" rejection goes there without a dispatch or error; any other rejection shows `getErrorMessage` only |
| Login.IsOtpRedirect | src/features/auth/ui/LoginPageAdmin.tsx:108-111 | the "code already sent" rejection is a 402 whose `getErrorInfo` carries status 402 and a code |
| Login.PasswordOutcome | src/features/auth/ui/LoginPageAdmin.tsx:88-100 | a truthy token is stored with the mobile and leads to the dashboard; otherwise `need_signup` leads to sign-up without a dispatch; otherwise the failure message; a rejection shows `getErrorMessage` only |
| Login.MobileCheckedBeforePassword | src/features/auth/ui/LoginPageAdmin.tsx:57-65 | an invalid mobile is reported even when the password is blank too |
| Login.BlankPasswordRefused | src/features/auth/ui/LoginPageAdmin.tsx:62-65 | a blank password is refused without a call |
| Login.OtpRedirectGoesToCodePage | src/features/auth/ui/LoginPageAdmin.tsx:108-114 | status 402 with redirect "otp" goes to the code page with no error and no dispatch |
| Login.PasswordModeIgnoresOtpRedirect | src/features/auth/ui/LoginPageAdmin.tsx:117 | in password mode every rejection shows `getErrorMessage` |
| Login.PasswordSignInPassesGuard | src/features/auth/ui/LoginPageAdmin.tsx:93-95 | a token in the password reply is stored with the normalised mobile, the page goes to the dashboard, and the guard there renders |
| Login.LoginPage.constructor | src/features/auth/ui/LoginPageAdmin.tsx:15-19 | password mode, empty fields, no error, not loading |
| Login.LoginPage.ModeChange | src/features/auth/ui/LoginPageAdmin.tsx:31-37 | sets the mode, clears the error, and clears the password only for OTP |
| Login.LoginPage.Record | src/features/auth/ui/LoginPageAdmin.tsx:77-117 | appends the outcome's call, dispatch and navigation, and shows its error |
| Login.LoginPage.Submit | src/features/auth/ui/LoginPageAdmin.tsx:39-121 | the page's records and error follow `SubmitOutcome`; loading is reset on every path that reached the call |
| MobileEntry.SubmitOutcome | src/features/auth/ui/MobilePage.tsx:19-39 | normalise first; an invalid number is refused without a call; after a resolved send, store a null token with the number and go to the code page; a rejected send shows `getErrorMessage` and does nothing else |
| MobileEntry.AgreesWithOtpLogin | src/features/auth/ui/MobilePage.tsx:19-39 | the page behaves as the login page in OTP mode, apart from the 402 redirect |
| MobileEntry.MobilePage.constructor | src/features/auth/ui/MobilePage.tsx:14-16 | empty number, no error, not loading |
| MobileEntry.MobilePage.Submit | src/features/auth/ui/MobilePage.tsx:19-39 | the records and error follow `SubmitOutcome`; loading is reset after the call |
| OtpCode.MissingMobileRedirect | src/features/auth/ui/OtpPage.tsx:23-25 | without a mobile, a replacing redirect to the phone page |
| OtpCode.MobileArgOf | src/features/auth/ui/OtpPage.tsx:46 | `mobile as string` is an omitted mobile when the state has none |
| OtpCode.VerifyOutcome | src/features/auth/ui/OtpPage.tsx:35-54 | verify exactly for a 4-6 digit code; store a returned token with the mobile; go to the dashboard after any resolved verify; show `getErrorMessage` on failure |
| OtpCode.TokenlessVerifyMeetsGuard | src/features/auth/ui/OtpPage.tsx:45-48 | a verify without a token still goes to the dashboard, where the guard of a signed-out session redirects |
| OtpCode.VerifiedTokenPassesGuard | src/features/auth/ui/OtpPage.tsx:45-47 | a returned token, once stored, lets the guard render |
| OtpCode.OtpPage.constructor | src/features/auth/ui/OtpPage.tsx:17-21 | the route-state mobile, empty code, no error |
| OtpCode.OtpPage.Mounted | src/features/auth/ui/OtpPage.tsx:23-25 | records the missing-mobile redirect, if any |
| OtpCode.OtpPage.Verify | src/features/auth/ui/OtpPage.tsx:35-54 | the records and error follow `VerifyOutcome` |
| OtpCode.OtpPage.Resend | src/features/auth/ui/OtpPage.tsx:56-64 | nothing without a mobile; otherwise resend, clearing the error or showing the failure |
| Signup.SubmitOutcome | src/features/auth/ui/SignupPage.tsx:23-39 | a call exactly for a non-empty name and a password of 6 or more (untrimmed), with the route-state mobile; success replaces the location with "/"; a rejection shows `getErrorMessage` and does nothing else |
| Signup.WhitespaceIsAccepted | src/features/auth/ui/SignupPage.tsx:26 | a space for a name and six spaces for a password pass |
| Signup.SignupPage.constructor | src/features/auth/ui/SignupPage.tsx:18-21 | empty fields, no error |
| Signup.SignupPage.Submit | src/features/auth/ui/SignupPage.tsx:23-39 | the records and error follow `SubmitOutcome` |

## Left out

- **Network transport.** Out of scope: `fetch`, `safeJson`/`JSON.parse`, react-query's caching, retries and pending flags, the thin wrappers in `src/features/auth/api.ts`, and `console` logging. A call's result is a parameter. `/login`'s reply is taken as the `{token?, need_signup?}` value the pages read.
- **Screens.** Out of scope: JSX, styling, the list pages, the layout and the router.
- **Range label.** The pager's "showing x to y of n" label is not modelled.
- **Disabled buttons.** Buttons disabled while a request runs (`isPending`, `loading`) are not modelled: a handler can be called at any time except where a precondition states the widget is absent.
- **Search over `render`.** A column's `render` is an abstract string-valued function. In the real app it returns a React element, which stringifies as "[object Object]".
- **Character semantics.** `toLowerCase` folds ASCII letters only, and `trim` removes ASCII and ECMAScript whitespace on `seq<char>`. Strings are sequences of code points, so lengths of text outside the basic plane differ from JavaScript's UTF-16 lengths.
- Table.Less: JavaScript's `<` across mixed types (a number against a string, `null`, `undefined`) is replaced here by a strict total order. It ranks `undefined` < `null` < numbers < strings and compares numbers by value and strings lexicographically. Number values are integers.
- Table.PaginatedData: requires `pageSize > 0`. With a zero or negative page size the source computes `Infinity`/`NaN` page counts, and that is not modelled.
- **Dates.** Dates are not modelled. `formatDate` (`Intl.DateTimeFormat`) is a parameter, and `new Date` parsing is replaced by the millisecond difference from now, which is also a parameter. An unparseable date gives `NaN` in `formatLastLogin`, which fails every bucket comparison and yields the weeks text with `NaN` in it rather than the "unknown" fallback (only a throwing `formatDate` reaches that); neither `NaN` nor the fallback is modelled.
- **Storage.** Web Storage is modelled as accessible (every call succeeds) or inaccessible (every call throws). Partial failures are not modelled, such as a quota error on one `setItem` only.
- UserForm.ClearFieldError: the source sets the field's error to `undefined` while keeping the key. The model removes the key; the two read the same wherever the code reads the record.
- UserForm.MapServerErrors: a server array that is present but empty yields an `undefined` message in the source. The model records no error for that field.
- **Unused car update mutation.** The update mutation of the car edit page (`ViewEditCarPage.tsx:52-88`) is never invoked, because `handleSubmit` does not call it. It is therefore not modelled; `EditCar.EditCarPage.Submit` states that nothing happens.
- **`loginWithPassword` reply.** How `loginWithPassword` extracts the token (`api.ts:45-51`) is not modelled; the login page takes its reply as input.
- **`getErrorMessage` on other errors.** Its argument is modelled as the `HttpErrorLike` shape; other thrown values are not modelled.
- **Imports outside the model.** `getBaseUrl` reads the environment; it is a parameter of `Http.HttpJsonBaseUrl`. The broken `httpTokenIndexJson` import of `useUnitsData.ts` is not part of this model.
