# canlog front end: the logic behind the pages

`canlog-frontend` is the browser side of a pet-food label database. Visitors
browse analysed canned foods by name and phosphorus density. Administrators
upload a label photo for analysis. A Google login through the backend
decides who is an administrator.

This project models, in Dafny, the logic under those pages:

- **Nutrition card** (`NutritionDisplay`). It formats absent-safe value
  cells and converts an as-fed mineral percentage into mg per 100 kcal, in
  idealised `real` arithmetic.
- **Listing page** (`HomePage`). It is a class holding the page's state.
  The committed search and phosphorus bounds follow a draft→commit pattern.
  `Reconcile` runs the effect: it either resets the page to 1 or starts
  exactly one fetch. Each fetch's `AbortController` is a token, and only
  the live token may write `data` or `loading`. The pager is clamped to
  `[1, totalPages]`.
- **API client** (`Api`, `Http`):
  - `BuildSearchParams` runs the guarded `URLSearchParams.set` calls of
    the list request. The specification function `ExpectedParams`
    describes its result, and lemmas state the result's contents and order;
  - how each call turns a response into a value or an error;
  - `getImageUrl`.
- **Session** (`AuthApi`, `AuthContext`):
  - the backend's session endpoints;
  - the provider's `user`/`isLoading`/`error` state and how `checkAuth`,
    the mount effect and `logout` change it, including the rule that an
    aborted check changes nothing;
  - the derived `isAuthenticated` and `isAdmin`.
- **Upload page** (`UploadPage`). It covers the admin gate, the
  `idle → uploading → analyzing → success | error` machine with its progress
  values, and the buttons each status offers.
- **Login callback pages** (`AuthErrorPage`, `AuthSuccessPage`): error-code
  resolution and message lookup, and the verify-once success page, with its
  view and its redirect condition.

### Modelling conventions

- **Records.** `null` and `undefined` are `Option.None`. The records of
  lib/types.ts and types/auth.ts are datatypes (`FoodTypes`, `AuthTypes`).
- **Responses.** A request is not performed. Each operation is given its
  `Http.Response`:
  - an ok body;
  - an ok status whose body read rejects: it does not parse (a
    SyntaxError), the signal fires after the headers (an AbortError), or the
    connection drops while the body streams (a TypeError);
  - a non-ok status with its error body;
  - an abort;
  - a network failure.
- **Async functions.** An `async` function settles as an
  `Http.Completion`: a returned value or a thrown one. A component whose
  state an `async` callback changes has that callback split at its `await`:
  `…Start` holds the synchronous prefix and `…Settle` the continuation.
- **Numbers.** Numbers are `real`. `parseFloat` is a parameter
  `string -> Option<real>`, in which `None` stands for NaN.
- **Outside values.** The two API origins are parameters. `API_BASE_URL`
  of lib/api.ts comes from lib/utils, which is not part of this model, so
  it is the parameter `apiBase`. The environment value read by
  lib/auth-api.ts is the parameter `env`.
- **React hooks.** `useAuth` (hooks/useAuth is not part of this model) is
  taken to return the provider's value.

## Model

| member | source | states |
|---|---|---|
| NutritionDisplay.FormatValue | components/nutrition-display.tsx:19-22 | "-" exactly for an absent value; otherwise the value to two decimals followed by the unit, "%" by default |
| NutritionDisplay.FormatMg | components/nutrition-display.tsx:24-27 | "-" exactly for an absent value; otherwise the value to one decimal followed by " mg" |
| NutritionDisplay.CalculateMgPer100kcal | components/nutrition-display.tsx:36-50 | absent exactly when the percentage or the calorie density is absent or the density is 0, so it never divides by zero; otherwise the unique r with r·calories = percentage·100000 |
| NutritionDisplay.MgPer100kcalMatchesDerivation | components/nutrition-display.tsx:29-35 | the simplified formula equals the documented two steps: grams per 100 kcal, then mg of mineral in those grams |
| NutritionDisplay.MgPer100kcalMonotone | components/nutrition-display.tsx:36-50 | for a positive calorie density, a non-negative percentage gives a non-negative density, and a larger percentage never gives a smaller one |
| NutritionDisplay.PhosphorusExample | components/nutrition-display.tsx:36-50 | 1.2 % at 85 kcal/100 g gives between 1411.76 and 1411.77 mg/100 kcal |
| NutritionDisplay.FormatMgPer100kcal | components/nutrition-display.tsx:52-59 | "-" exactly when the density cannot be computed; otherwise the density to one decimal with " mg" |
| NutritionDisplay.FormatMgPer100kcalIsFormatMg | components/nutrition-display.tsx:52-59 | a density cell is formatted exactly as formatMg formats the computed density |
| NutritionDisplay.ProgressValue | components/nutrition-display.tsx:132-144 | the bar is at most 100; it is 0 for an absent nutrient, and otherwise the value itself, or 100 when the value is larger |
| NutritionDisplay.FormatBadge | components/nutrition-display.tsx:112-120 | "每100g" with the default variant iff the format is "per_100g"; "百分比" with the secondary variant otherwise |
| NutritionDisplay.BasicNutrientRows | components/nutrition-display.tsx:61-92 | one row per basic nutrient, in order, with its caption, the cell formatValue(value) with the "%" unit, and the bar min(value ?? 0, 100); the cell is "-" exactly when the value is absent, and the bar is at most 100 |
| NutritionDisplay.MineralRows | components/nutrition-display.tsx:94-100 | one row per mineral, in order, whose cell is formatMgPer100kcal of that mineral and the record's calories |
| NutritionDisplay.MineralsDashWithoutCalories | components/nutrition-display.tsx:164-176 | with no calorie density or a zero one, every mineral cell is "-" |
| NutritionDisplay.CaloriesLineAsWritten | components/nutrition-display.tsx:158-162 | the line as written: nothing iff calories are absent, a bare "0" iff they are 0, otherwise the kcal line with the value |
| NutritionDisplay.ZeroCaloriesRendersStrayZero | components/nutrition-display.tsx:158-162 | the calorie line as written renders a bare "0" for 0 kcal/100 g |
| NutritionDisplay.CaloriesLineShown | components/nutrition-display.tsx:158-162 | corrected line: never bare text; shown, with the value, iff the density is present and non-zero |
| NutritionDisplay.CaloriesLineMatchesDensities | components/nutrition-display.tsx:158-176 | the corrected line is shown exactly when mineral densities can be computed, and it agrees with the code as written wherever the latter renders no bare text |
| NutritionDisplay.NutritionCard | components/nutrition-display.tsx:102-178 | the product name as title and the brand as subtitle, the format badge, the five basic rows and the five mineral rows; the corrected calorie line, which equals the line as written for every calorie value but 0; under a calorie line a mineral cell is "-" only for an absent mineral |
| Http.RejectionOf | lib/api.ts:37-46 | a rejected fetch or response.json() throws an Error, and it is named AbortError exactly for an abort |
| Http.MessageOr | contexts/AuthContext.tsx:39 | an Error's message, or the fallback for a thrown non-Error |
| Http.ExpectOk | lib/api.ts:42-46 | returns iff the response is ok, and then its body; a non-ok status throws new Error(failure); a rejection propagates its own error |
| Api.Lookup | lib/api.ts:18-35 | URLSearchParams.get: the value of the first pair with that name, present iff some pair has the name |
| Api.SetParam | lib/api.ts:18-35 | URLSearchParams.set of the URL Standard: the first pair with the name takes the value and later ones are removed, or the pair is appended; its meaning is stated by SetParamAppends and SetParamLookup |
| Api.SetParamAppends | lib/api.ts:18-35 | URLSearchParams.set of a name not yet present appends the pair |
| Api.SetParamLookup | lib/api.ts:18-35 | after set, get of that name gives the new value |
| Api.SetWhen | lib/api.ts:20-35 | one guarded set call on a list whose names rank lower: the pair is appended exactly when the guard holds |
| Api.ExpectedParams | lib/api.ts:20-35 | the reference list of the list request: one optional pair per field, in the order of the set calls, each present under the field's own guard |
| Api.BuildSearchParams | lib/api.ts:17-35 | the guarded set calls on a fresh URLSearchParams produce exactly ExpectedParams(params) |
| Api.ExpectedParamsLookup | lib/api.ts:20-35 | search and brandName appear only when non-empty; the phosphorus bounds appear whenever defined, 0 included; page and limit appear only when truthy; each carries its own value |
| Api.ExpectedParamsOrdered | lib/api.ts:17-35 | the names appear in the order search, brandName, min, max, page, limit, each at most once, with no signal among them |
| Api.GetCannedFoods | lib/api.ts:37-46 | returns iff the response is ok, and then the parsed body itself; a non-ok one throws "Failed to fetch canned foods"; an abort throws an AbortError; any other rejection propagates its own error |
| Api.GetCannedFood | lib/api.ts:49-57 | returns iff the response is ok, and then the parsed body itself; a non-ok one throws "Failed to fetch canned food"; a rejection propagates its own error |
| Api.GetBrands | lib/api.ts:59-68 | the body's brands from an ok response; a non-ok one throws "Failed to fetch brands" |
| Api.AnalyzeError | lib/api.ts:80-85 | an Error with "Unknown error" for a body that is not JSON; a TypeError for a null body, whose message cannot be read; otherwise an Error with the truthy message field (a non-string one as String(value)), or "Failed to analyze image" when the field is absent or falsy; the message is empty only for a truthy non-string field with empty text |
| Api.AnalyzeImage | lib/api.ts:70-88 | the body iff ok; a non-ok response throws AnalyzeError of its body; a rejection propagates its own error; every throw is an Error |
| Api.DeleteCannedFood | lib/api.ts:90-99 | succeeds for any ok status, whether or not its body would read; a non-ok one throws "Failed to delete canned food" |
| Api.GetImageUrl | lib/api.ts:101-104 | a path starting with "http" is returned unchanged; any other is prefixed by the API origin |
| Api.GetImageUrlIdempotent | lib/api.ts:101-104 | with an http origin every result is absolute, and resolving twice equals resolving once |
| JsStrings.Trim | app/page.tsx:100 | String.prototype.trim: leading, then trailing ECMAScript whitespace removed; its meaning is stated by the Trim lemmas below |
| JsStrings.TrimIsInnerSlice | app/page.tsx:99-101 | the trimmed search is a contiguous slice of the input with only whitespace cut from either side |
| JsStrings.TrimHasNoOuterWhitespace | app/page.tsx:99-101 | the trimmed search neither starts nor ends with whitespace |
| JsStrings.TrimIdempotent | app/page.tsx:99-101 | trimming twice is trimming once |
| JsStrings.TrimAllWhitespace | app/page.tsx:99-101 | a whitespace-only input trims to "" |
| JsStrings.TrimEmptyIffAllWhitespace | app/page.tsx:99-101 | the trimmed text is empty iff the input is whitespace only |
| JsStrings.StartsWith | lib/api.ts:102 | String.prototype.startsWith: the prefix is the first characters of the string |
| AuthApi.ApiBaseUrl | lib/auth-api.ts:3 | the environment value unless it is unset or empty; otherwise "http://localhost:3001" |
| AuthApi.GoogleLoginUrl | lib/auth-api.ts:5-7 | the base URL followed by "/api/auth/google" |
| AuthApi.GetCurrentUser | lib/auth-api.ts:9-34 | an ok response gives its user; 401, any other non-ok status, an abort and a network failure all give null; an ok response whose body read rejects (parse error, abort or dropped connection) is the only way to throw, with that reading's own error |
| AuthApi.Logout | lib/auth-api.ts:36-47 | the body iff ok; a non-ok status throws "登出失敗" |
| AuthContext.ContextValue | contexts/AuthContext.tsx:73-82 | isAuthenticated iff a user is set; isAdmin iff that user's role is admin; so isAdmin implies isAuthenticated |
| AuthContext.UseAuthContext | contexts/AuthContext.tsx:87-93 | throws "useAuthContext must be used within an AuthProvider" exactly when there is no provider value; otherwise returns it |
| AuthContext.AuthProvider.constructor | contexts/AuthContext.tsx:24-27 | no user, loading, no error, nothing mounted |
| AuthContext.AuthProvider.CheckAuthStart | contexts/AuthContext.tsx:29-31 | loading begins and the error is cleared |
| AuthContext.AuthProvider.CheckAuthSettle | contexts/AuthContext.tsx:32-45 | aborted: nothing changes; else a returned value becomes the user, a throw clears the user and records its message (or "驗證失敗"), and loading ends |
| AuthContext.AuthProvider.CheckAuth | contexts/AuthContext.tsx:29-46 | unaborted, it ends not loading, with the ok response's user, no user and the error message of a rejected body read, or no user and no error for every other answer |
| AuthContext.AuthProvider.Mount | contexts/AuthContext.tsx:65-67 | a fresh controller becomes live and a check starts |
| AuthContext.AuthProvider.Unmount | contexts/AuthContext.tsx:68-70 | the live controller is aborted |
| AuthContext.AuthProvider.SettleMountCheck | contexts/AuthContext.tsx:65-71 | a check whose controller was aborted changes no field; a live one ends loading and applies its answer |
| AuthContext.AuthProvider.RemountedCheck | contexts/AuthContext.tsx:65-71 | mount, unmount, mount: the first check, settling last, is ignored and the second answer alone decides the state: its user if ok, else none; its rejection's message if its body read rejects, else no error; not loading |
| AuthContext.AuthProvider.LogoutStart | contexts/AuthContext.tsx:52-54 | loading begins and the error is cleared |
| AuthContext.AuthProvider.LogoutSettle | contexts/AuthContext.tsx:55-62 | success clears the user; failure keeps the user and records the message (or "登出失敗"); loading ends either way |
| AuthContext.AuthProvider.Logout | contexts/AuthContext.tsx:52-63 | ok: no user, no error; non-ok: user kept, error "登出失敗"; a rejected body read or a network failure: user kept, error that rejection's message; an abort: user kept, the AbortError's text; loading ends in every case |
| UploadPage.Gate | app/upload/page.tsx:81-110 | spinner iff loading; the workspace iff loaded, authenticated and admin; the login wording iff not authenticated, the admin-only wording otherwise |
| UploadPage.GateOnSession | app/upload/page.tsx:82-103 | fed by the session, the workspace opens exactly for a loaded admin user, and the admin-only denial is shown exactly to a logged-in non-admin |
| UploadPage.Controls | app/upload/page.tsx:167-240 | no buttons without a preview; analyse and remove iff idle; re-upload iff success or error; view details iff success with a result, for that result's id |
| UploadPage.UploadPage.constructor | app/upload/page.tsx:22-27 | no file, no preview, idle, progress 0, no error, no result |
| UploadPage.UploadPage.OnDrop | app/upload/page.tsx:29-38 | an empty drop changes nothing; otherwise the first file and its object URL are selected, the status goes idle, error and result are cleared, and progress is kept |
| UploadPage.UploadPage.HandleAnalyzeStart | app/upload/page.tsx:51-59 | no file: nothing changes; otherwise uploading at 20, then analyzing at 50, and the file is sent |
| UploadPage.UploadPage.HandleAnalyzeSettle | app/upload/page.tsx:61-69 | success: progress 100 and the record kept; failure: the error status with the message (or "分析失敗，請重試"), progress, file and preview kept |
| UploadPage.UploadPage.HandleAnalyze | app/upload/page.tsx:51-70 | no file: no-op; ok: status sequence uploading/20, analyzing/50, success/100 with the record; non-ok: …, error/50 with analyzeImage's message; any other failure: error/50 with the message analyzeImage throws (or the fallback) |
| UploadPage.UploadPage.HandleReset | app/upload/page.tsx:72-79 | all six fields back to their initial values |
| UploadPage.UploadPage.FinishedControls | app/upload/page.tsx:228-239 | a success offers its record's page and re-upload, but not analyse; an error offers re-upload alone |
| AuthErrorPage.ErrorCode | app/auth/error/page.tsx:23 | the error parameter, else the message parameter, else "default", where an empty value falls through; never empty |
| AuthErrorPage.ErrorMessage | app/auth/error/page.tsx:24 | the table's message for a known code; an unknown code verbatim |
| AuthErrorPage.TableMessagesNonEmpty | app/auth/error/page.tsx:11-16 | every message in the table is non-empty |
| AuthErrorPage.ShownMessageNonEmpty | app/auth/error/page.tsx:11-24 | whatever the URL, the message shown is non-empty; with no usable code it is the generic one |
| AuthErrorPage.UnknownCodeVerbatim | app/auth/error/page.tsx:24 | a code is shown verbatim iff the table does not know it |
| AuthSuccessPage.View | app/auth/success/page.tsx:42-89 | spinner iff checking or loading; otherwise failure iff a non-empty error or no user, with the error text or the fixed fallback; otherwise success, which implies authenticated |
| AuthSuccessPage.ShouldRedirect | app/auth/success/page.tsx:33-40 | the redirect timer is armed exactly when the page has stopped checking and someone is logged in |
| AuthSuccessPage.RedirectOnlyWhenLoggedIn | app/auth/success/page.tsx:33-40 | when an error comes with no user, once loading has ended a redirect is armed only under the success view; two reachable states with both a user and an error are excluded: a failed logout, and a failed provider read followed by an ok page check |
| AuthSuccessPage.RedirectUnderFailureCard | app/auth/success/page.tsx:33-40 | with a user and a non-empty error once loading has ended, the failure card shows while the redirect is armed, since the redirect tests only isAuthenticated |
| AuthSuccessPage.AuthSuccessPage.constructor | app/auth/success/page.tsx:13-14 | checking, not yet verified, nothing started |
| AuthSuccessPage.AuthSuccessPage.VerifyEffect | app/auth/success/page.tsx:16-26 | the first run marks the ref and starts one check under a live controller; every later run does nothing, so at most one verification is ever started |
| AuthSuccessPage.AuthSuccessPage.EffectCleanup | app/auth/success/page.tsx:28-30 | the verification's controller is aborted |
| AuthSuccessPage.AuthSuccessPage.VerifySettle | app/auth/success/page.tsx:22-25 | checking ends only after checkAuth settles; an aborted check leaves the session as it was, and a live one applies its answer |
| AuthSuccessPage.AuthSuccessPage.Visit | app/auth/success/page.tsx:16-89 | with the page's check alone: the success view, with a redirect armed, iff the profile answer is ok; a rejected body read shows its own text; every other failure shows the fallback |
| AuthSuccessPage.AuthSuccessPage.VisitUnderProvider | app/auth/success/page.tsx:16-26 | with the provider's mount check (contexts/AuthContext.tsx:65-71) beside the page's, settling in either order: the later answer decides the user, the error of a rejected body read of either stays, success iff the later answer is ok and the earlier is no such rejection; between the two the view is the spinner, or already the page's own outcome, which a later failed answer overturns; a failed provider read followed by an ok page answer shows the failure card with the redirect armed |
| HomePage.RequestParams | app/page.tsx:64-72 | the effect's request carries the committed text and bounds, the current page, limit 12, the controller's signal, and no brand |
| HomePage.RequestQuery | app/page.tsx:27-72 | on the wire: search only when non-empty, each bound exactly when defined, always the page and limit 12, never a brand |
| HomePage.ParseBound | app/page.tsx:111-116 | an empty draft gives no bound, never 0; any other draft gives what parseFloat reads, with NaN giving no bound |
| HomePage.HomePage.constructor | app/page.tsx:22-44 | no data, loading, empty drafts and filters, page 1, the initial prevQuery, nothing run yet |
| HomePage.HomePage.IsFilterActive | app/page.tsx:41-42 | the filter is active exactly when a lower or an upper phosphorus bound is committed |
| HomePage.HomePage.Reconcile | app/page.tsx:48-96 | unchanged deps: nothing; a new identity on a page other than 1: prevQuery updated, page 1, no fetch; otherwise exactly one fetch for the current identity and page with limit 12 under a fresh live token, and loading begins; the previous controller is always aborted |
| HomePage.HomePage.Resolve | app/page.tsx:63-89 | an aborted fetch changes neither data nor loading; a live ok one sets the data; a live failure keeps the data; loading ends for a live fetch; a superseded fetch never writes |
| HomePage.HomePage.Unmount | app/page.tsx:93-95 | the live controller is aborted |
| HomePage.HomePage.EditSearchInput | app/page.tsx:149 | typing edits only the search draft |
| HomePage.HomePage.HandleSearch | app/page.tsx:99-101 | the committed search is the trimmed draft; it is empty iff the draft is whitespace only |
| HomePage.HomePage.HandleKeyDown | app/page.tsx:104-108 | Enter commits the trimmed draft; any other key leaves the committed search alone |
| HomePage.HomePage.ToggleFilter | app/page.tsx:163 | the filter panel's visibility flips |
| HomePage.HomePage.EditMinInput | app/page.tsx:184 | typing edits only the lower-bound draft |
| HomePage.HomePage.EditMaxInput | app/page.tsx:194 | typing edits only the upper-bound draft |
| HomePage.HomePage.HandleApplyFilter | app/page.tsx:111-116 | both drafts are committed through ParseBound; the filter is active iff one draft is non-empty and parses |
| HomePage.HomePage.HandleFilterKeyDown | app/page.tsx:127-131 | Enter applies the filter; any other key leaves the bounds alone |
| HomePage.HomePage.HandleClearFilter | app/page.tsx:119-124 | both drafts are "" and both bounds are undefined, so the filter is inactive |
| HomePage.HomePage.PaginationShown | app/page.tsx:262-325 | the pager is rendered exactly when loading is over and the loaded page has items and more than one page in all |
| HomePage.HomePage.PrevPage | app/page.tsx:330 | the page becomes max(1, p-1), and no other field changes |
| HomePage.HomePage.NextPage | app/page.tsx:343-346 | the page becomes min(totalPages, p+1), staying within [1, totalPages], and no other field changes |
| HomePage.HomePage.ReconcileAfterNewQuery | app/page.tsx:52-62 | a query committed on a later page: the first run resets to page 1 without fetching, and the second fetches page 1 of the new query |
| HomePage.HomePage.SupersededFetchIgnored | app/page.tsx:76-95 | a fetch superseded by a later effect run never changes the data, whatever it answers |

## Left out

- JSX, styling and layout of every page. The header, footer, user menu, providers, root layout and Next.js configuration are presentation or configuration.
- `fetch`, `FormData`, cookies and credentials. Each request is its abstract `Http.Response`.
- `window.location` in `login`. It is a navigation; its target is `AuthApi.GoogleLoginUrl`.
- Percent-encoding of the query string. The model is the name–value list of `URLSearchParams`; its text form is not modelled.
- `toFixed` and `Number.toString`. A cell keeps the number and the digit count it would print.
- Floating-point rounding of the density division. Arithmetic is over `real`.
- `parseFloat`. It is the parameter `parse`.
- NaN and Infinity as numbers. NaN is only the `None` of `parse`, so a NaN page or limit, and its falsiness, is not modelled.
- React scheduling: batching of state updates and StrictMode's double run. `Reconcile` runs the effect once per call, and the renderer calls it. A re-run of the success page's effect returns at once, so its first check stays aborted. Effect order is modelled only where it matters, in `VisitUnderProvider`: the success page's effect runs before the layout provider's, child before parent.
- Effect dependencies compared with `Object.is`. They are compared with value equality, so `-0` and `0` are not told apart.
- The success page's `setTimeout` and `router.push` redirect. Only the condition that arms it is modelled (`ShouldRedirect`).
- Button navigation to "/" and to a record's page.
- Acceptance by react-dropzone: the MIME list, the 10 MB limit and one file. It is library code; `OnDrop` receives the accepted files, and `MaxUploadBytes` records the limit.
- `URL.createObjectURL`. It is the parameter `objectUrl`.
- `console.error` logging.
- The dry-matter section of the nutrition card. It only prints precomputed values.
- The JavaScript prototype lookup of `errorMessages[code]` for codes such as "toString". The table is a finite map.
- hooks/useAuth and lib/utils are not part of this model, so `useAuth` is taken to return the provider's value, and `API_BASE_URL` is the parameter `apiBase`.
- NutritionDisplay.NutritionCard — corrected calorie line: the card uses `CaloriesLineShown`, so for 0 kcal/100 g it shows no line where the code as written renders a bare "0" (`CaloriesLineAsWritten`, see Findings).
- AuthSuccessPage.AuthSuccessPage.Visit models the page's own check alone, so its "success iff ok" assumes a single answer; the provider's mount check that runs beside it on every full load is modelled by `VisitUnderProvider`, for a visit with no earlier check in flight.
- Error bodies are classified into not JSON, `null`, and any other JSON value with its `message` field (`Http.ErrorBody`); `String(value)` of a non-string message and its truthiness are given with the body rather than computed.
- The detail page (app/canned-foods/[id]/page.tsx) is context only. Its calls go through `Api.GetCannedFood`, `Api.DeleteCannedFood` and `Api.GetImageUrl`.

## Findings

| source | as written | input that shows it | evidently intended | confidence | as-written member | corrected member |
|---|---|---|---|---|---|---|
| components/nutrition-display.tsx:158-162 | `calories && (…)` renders the number when `calories` is the falsy number 0 | a record with 0 kcal/100 g shows a stray "0" above the minerals | no calorie line when the density is 0 or absent | not executed | NutritionDisplay.CaloriesLineAsWritten, NutritionDisplay.ZeroCaloriesRendersStrayZero | NutritionDisplay.CaloriesLineShown |
