# finance-frontend: a Dafny model of the client logic

This project models the logic of the finance-frontend React client and proves
properties about it. The client is a personal-finance web app. With its HTTP
calls replaced by their outcomes, what is left is a set of small state
machines and list transforms:

- **Api** (`src/services/api.ts`). The request interceptor adds a Bearer
  header when a token is stored. The response interceptor drops the token and
  sends the browser to /login on a 401. Every server call is a `CallOutcome`
  parameter: `Ok(value)` or `Err(ApiError(message, response))`.
- **TransactionContext**. The in-memory ledger and its `loading`/`error`
  fields, kept by fetch, add, update and delete.
- **TransactionsPage**. The category filter and search, the add/edit form with
  its validation and sign rule, and the edit, cancel and delete handlers.
- **Stats**. The monthly income/expense series: group by month, sort by (year,
  month), one chart point per month. Also the category slices and the
  balance, savings-rate and advice rules.
- **ThemeContext**. The theme, the mode class on the document root,
  `isDarkMode`, the stored theme, the system-change listener and the header
  toggle.
- **AuthContext**. The session: user, loading, error and stored token through
  start, fetch, login, register, forgot/reset password, logout, update and
  clear. It also covers the route guard of `src/App.tsx`.
- **RegisterPage**. The ordered sign-up checks and the classification of a
  failed registration.
- **ForgotPasswordPage**. The idle/submitting/success/error machine.
- **HealthCheck**. The connection diagnosis.

Two further modules support these:

- **Js** holds the JavaScript built-ins the code relies on: `trim`,
  `length` in UTF-16 code units, `toLowerCase`, `includes`, and `Number()`
  and `Number.parseFloat` over decimal and `0x`/`0o`/`0b` literals.
- **Lists** holds order-preserving subsequences, which is what `filter`
  returns.

State the source updates in place is a Dafny `class` whose methods state the
whole new state:

- the ledger, page, theme, session and form state;
- the browser's token slot and location;
- request headers.

Pure expressions are functions with lemmas. Amounts are `real`. NaN and
`null`/`undefined` are `None`.

## Model

| member | source | states |
|---|---|---|
| Api.MessageOr | src/context/TransactionContext.tsx:47 | `err.response?.data?.message \|\| fallback`: the server message when present and non-empty, else the fallback; never empty when the fallback is not |
| Api.Rethrown | src/context/TransactionContext.tsx:61-63 | `throw new Error(message)` carries the chosen message and no response, so no server message can be read from it |
| Api.AuthorizationHeader | src/services/api.ts:14-17 | a header exists exactly when a non-empty token is stored, and it is `"Bearer " + token` |
| Api.AttachAuthorization | src/services/api.ts:12-21 | the same config is returned; its headers gain `Authorization` exactly when a token is stored, otherwise they are unchanged |
| Api.IsUnauthorized | src/services/api.ts:28 | an error without a response, such as a network failure, is never a 401 |
| Api.TokenAfter | src/services/api.ts:28-29 | a 401 removes the stored token; any other error keeps it |
| Api.LocationAfter | src/services/api.ts:28-30 | a 401 sets the location to /login; any other error keeps it |
| Api.RejectResponseError | src/services/api.ts:24-34 | every error is passed on unchanged as the rejection; token and location follow `TokenAfter`/`LocationAfter` |
| Api.TokenAfterCall | src/services/api.ts:24-34 | a successful call leaves the token alone; a failed one applies the interceptor |
| Api.LocationAfterCall | src/services/api.ts:24-34 | a successful call leaves the location alone; a failed one applies the interceptor |
| Api.Settle | src/services/api.ts:24-34 | settling a call changes token and location exactly as the response interceptor does |
| TransactionContext.ReplaceById | src/context/TransactionContext.tsx:73 | same length; each element with the id becomes the server's record, every other element is unchanged at its index |
| TransactionContext.RemoveById | src/context/TransactionContext.tsx:88 | an order-preserving subsequence keeping every copy of each transaction whose id differs and no transaction with the id |
| TransactionContext.RemoveAbsentIsIdentity | src/context/TransactionContext.tsx:88 | deleting an id no record carries leaves the list unchanged |
| TransactionContext.RemoveAfterReplace | src/context/TransactionContext.tsx:73-88 | deleting an id after updating it equals deleting it outright |
| TransactionContext.TransactionStore.constructor | src/context/TransactionContext.tsx:29-31 | empty list, not loading, no error |
| TransactionContext.TransactionStore.FetchTransactions | src/context/TransactionContext.tsx:40-52 | success replaces the list and clears the error; failure keeps the list, records the message or "Failed to fetch transactions", and does not throw; `loading` ends false |
| TransactionContext.TransactionStore.AddTransaction | src/context/TransactionContext.tsx:54-67 | success prepends the server's record and clears the error; failure keeps the list, sets the error and throws it; `loading` ends false |
| TransactionContext.TransactionStore.UpdateTransaction | src/context/TransactionContext.tsx:69-82 | success replaces by id (`ReplaceById`); failure keeps the list, sets the error and throws it; `loading` ends false |
| TransactionContext.TransactionStore.DeleteTransaction | src/context/TransactionContext.tsx:84-97 | success removes by id (`RemoveById`); failure keeps the list, sets the error and throws it; `loading` ends false |
| TransactionContext.TransactionStore.ClearError | src/context/TransactionContext.tsx:99-101 | only `error` changes, to null |
| TransactionsPage.WithoutAll | src/pages/Transactions.tsx:185 | the form's category choices: an order-preserving subsequence of the categories keeping every copy of each one except "All", and no "All" |
| TransactionsPage.FormChoices | src/pages/Transactions.tsx:184-185 | the select offers every category of the filter bar after "All", in order, and the reset form's "Food" is among them |
| TransactionsPage.FilterByCategory | src/pages/Transactions.tsx:32 | an order-preserving subsequence keeping every copy of each transaction that matches the filter and none that does not |
| TransactionsPage.FilterBySearch | src/pages/Transactions.tsx:33 | an order-preserving subsequence keeping every copy of each transaction whose lower-cased name includes the lower-cased search, and no other |
| TransactionsPage.FilteredTransactions | src/pages/Transactions.tsx:31-33 | an order-preserving subsequence of the ledger, no longer than it, keeping every copy of each transaction that passes both filters, and no other |
| TransactionsPage.FilterAllKeepsEverything | src/pages/Transactions.tsx:32 | with the filter "All" the category filter keeps the whole list |
| TransactionsPage.EmptySearchKeepsEverything | src/pages/Transactions.tsx:33 | an empty search keeps the whole list |
| TransactionsPage.DefaultForm | src/pages/Transactions.tsx:17-22 | the reset form, submitted as it is, reports the description and the amount as required and the category as chosen |
| TransactionsPage.AmountErrorAsWritten | src/pages/Transactions.tsx:41-42 | the amount check as written: an error exactly for the empty string or a NaN `Number()`, with "must be a number" overwriting "required" |
| TransactionsPage.AmountError | src/pages/Transactions.tsx:41-42 | the corrected amount check: "required" for a blank amount, "must be a number" when `Number()` gives NaN, which takes precedence |
| TransactionsPage.BlankAmountSavesNaN | src/pages/Transactions.tsx:41-51 | the amount " " passes the check as written and `parseFloat` reads it as NaN; the corrected check rejects it |
| TransactionsPage.AmountChecksAgreeOffWhitespace | src/pages/Transactions.tsx:41-42 | the two checks differ only on non-empty whitespace-only amounts |
| TransactionsPage.ValidAmountParses | src/pages/Transactions.tsx:41-51 | for an amount the check as written accepts, `parseFloat` gives NaN exactly when the amount is whitespace only, 0 for a `0x`/`0o`/`0b` literal, and otherwise the very number `Number()` accepted |
| TransactionsPage.Validation | src/pages/Transactions.tsx:39-43 | as written: a name error exactly for a blank name, the amount error of `AmountErrorAsWritten`, a category error exactly for an empty category |
| TransactionsPage.CorrectedValidation | src/pages/Transactions.tsx:39-43 | the corrected validation differs from `Validation` only in the amount check, `AmountError`, and passes only forms that `Validation` passes |
| TransactionsPage.ValidateForm | src/pages/Transactions.tsx:39-43 | the successive assignments into `errors` produce `Validation(form)` |
| TransactionsPage.SignedAmount | src/pages/Transactions.tsx:56-64 | the saved amount has the magnitude of the input; Income is at least 0, every other category at most 0 |
| TransactionsPage.Draft | src/pages/Transactions.tsx:51-67 | as written: name, date and category kept; the amount is NaN exactly for a whitespace-only amount, 0 for a `0x`/`0o`/`0b` literal, and otherwise the number the check accepted, with Income non-negative and every other category non-positive |
| TransactionsPage.CorrectedDraft | src/pages/Transactions.tsx:51-67 | the corrected payload always carries a number: the magnitude of the number the check accepted, signed by the category |
| TransactionsPage.HexAmountSavedAsZero | src/pages/Transactions.tsx:42-51 | the amount "0x10" passes the check as written as 16 and is saved as 0; the corrected payload carries 16 in magnitude |
| TransactionsPage.Saved | src/pages/Transactions.tsx:53-68 | after a successful save the edited id is replaced, or the new record prepended |
| TransactionsPage.LedgerPage.constructor | src/pages/Transactions.tsx:13-23 | filter "All", empty search, form hidden, not editing, default form, no errors |
| TransactionsPage.LedgerPage.Visible | src/pages/Transactions.tsx:31-33 | the rendered list is an order-preserving subsequence of the ledger keeping every copy of each transaction that passes the page's filter and search, and no other |
| TransactionsPage.LedgerPage.HandleAddTransaction | src/pages/Transactions.tsx:35-81 | as written: nothing is sent exactly when `Validation` reports an error, and then only `formErrors` changes, the ledger's whole state included; a valid form sends `Draft(form)` and settles as `Save` states; filter and search never change |
| TransactionsPage.LedgerPage.HandleAddTransactionCorrected | src/pages/Transactions.tsx:35-81 | the corrected handler: the same with `CorrectedValidation` and `CorrectedDraft`, so every payload it sends carries a number |
| TransactionsPage.LedgerPage.Save | src/pages/Transactions.tsx:50-80 | update when editing, else add. On success the ledger is `Saved`, its error cleared, the form reset and hidden and editing ended. On failure the page is unchanged and the ledger keeps its list and records the update or add message. Token and location pass through the interceptor; `loading` ends false |
| TransactionsPage.LedgerPage.HandleEdit | src/pages/Transactions.tsx:83-93 | editing mode for the transaction's id, the form filled from it with an amount `Number()` reads as the absolute amount, the form shown |
| TransactionsPage.LedgerPage.HandleCancelEdit | src/pages/Transactions.tsx:105-115 | editing ends, the form and errors reset, the form hidden |
| TransactionsPage.LedgerPage.HandleDelete | src/pages/Transactions.tsx:95-103 | unconfirmed, the ledger's whole state is unchanged. Confirmed, a success removes by id and clears the error, and a failure keeps the list and records the server message or "Failed to delete transaction". Token and location pass through the interceptor |
| TransactionsPage.LedgerPage.ToggleForm | src/pages/Transactions.tsx:122 | the form's visibility flips |
| Stats.IncomeOf | src/components/Stats.tsx:95-97 | a month without income rows has income 0 |
| Stats.ExpensesOf | src/components/Stats.tsx:98-101 | a month's expenses sum absolute totals, so they are never negative |
| Stats.AbsentMonthIsEmpty | src/components/Stats.tsx:86-93 | a month without rows has zero income and zero expenses |
| Stats.BucketFor | src/components/Stats.tsx:83-106 | a month's bucket carries its own key and non-negative expenses |
| Stats.BucketForStep | src/components/Stats.tsx:95-101 | one more row changes only its own month's bucket: income by its total, or expenses by its absolute total |
| Stats.FirstSeenKeys | src/components/Stats.tsx:86-109 | the months in order of first appearance, without repeats, and exactly the months of the rows |
| Stats.KeysStep | src/components/Stats.tsx:86-93 | one more row adds its month to the months seen, and appends it to the first-seen order exactly when it is new |
| Stats.BucketsOf | src/components/Stats.tsx:109 | `Object.values`: one bucket per key, in key order; distinct keys give buckets with distinct months, and every key's bucket is present |
| Stats.Before | src/components/Stats.tsx:110-113 | `a` sorts first exactly when the comparator as written is negative; the two months then differ and the comparator the other way round is positive |
| Stats.Insert | src/components/Stats.tsx:110-113 | inserting adds exactly the one element to the multiset and nothing else |
| Stats.InsertKeepsSorted | src/components/Stats.tsx:110-113 | inserting a bucket whose month is new keeps a strictly sorted list strictly sorted |
| Stats.SortByMonth | src/components/Stats.tsx:110-113 | a permutation, strictly ascending by (year, month) when the months are distinct |
| Stats.MonthBuckets | src/components/Stats.tsx:83-113 | exactly one bucket per distinct month, strictly ascending by (year, month), each holding that month's sums |
| Stats.MonthName | src/components/Stats.tsx:116 | `months[month - 1]`, defined exactly for months 1 to 12 |
| Stats.Point | src/components/Stats.tsx:115-120 | a chart point carries the bucket's income and expenses, savings equal to income less expenses, and the month's name |
| Stats.GroupByMonth | src/components/Stats.tsx:83-106 | the accumulator holds an entry exactly for each month of the rows, equal to that month's sums, created in first-seen order |
| Stats.FormatMonthlyData | src/components/Stats.tsx:76-124 | missing monthly data gives []; otherwise one point per distinct month, the j-th being the point of the j-th month in (year, month) order |
| Stats.PushPoints | src/components/Stats.tsx:114-121 | one point per sorted bucket, in order |
| Stats.FormatCategoryData | src/components/Stats.tsx:127-134 | missing data gives []; otherwise the same length and order, named by category, sized by the absolute total |
| Stats.TotalBalance | src/components/Stats.tsx:161 | income less absolute expenses, missing values counting as 0; never above the income |
| Stats.SavingsRate | src/components/Stats.tsx:175 | 0 without income; NaN when there is income but no expenses field, as `Math.abs(undefined)` is NaN; otherwise rate times income equals (income less absolute expenses) times 100 |
| Stats.ShowsInsights | src/components/Stats.tsx:243 | whenever the insight panel shows, the savings rate is a number and the praise agrees with the sign of the balance card |
| Stats.IsSaving | src/components/Stats.tsx:248 | an absent field makes the comparison false; with both fields present the user is praised exactly when the balance card is positive |
| Stats.IsHealthy | src/components/Stats.tsx:271 | the "healthy" verdict implies the "saving" verdict |
| Stats.HealthyImpliesSaving | src/components/Stats.tsx:248-273 | a "healthy" verdict comes with the "saving" verdict and a savings rate that is a positive number |
| Stats.HealthyIffRateAboveOneSixth | src/components/Stats.tsx:271-273 | with positive income, "healthy" holds exactly when the savings rate is a number above 100/6 percent |
| Stats.TopCategory | src/components/Stats.tsx:256-263 | shown exactly when there is a category; its name, absolute total and share of the absolute expenses in percent |
| ThemeContext.InitialTheme | src/context/ThemeContext.tsx:24-27 | the stored theme when it is a non-empty string, else "system" |
| ThemeContext.SystemClass | src/context/ThemeContext.tsx:42 | "dark" exactly when the system prefers dark, else "light" |
| ThemeContext.ResolveTheme | src/context/ThemeContext.tsx:41-48 | the system class for "system", the theme itself otherwise, so always light or dark for a valid theme |
| ThemeContext.WithModeClass | src/context/ThemeContext.tsx:35-46 | the new class is present, every non-mode class is kept, and for a mode class exactly one of "light"/"dark" remains |
| ThemeContext.NextTheme | src/components/Layout.tsx:163 | light to dark, dark to system, anything else to light |
| ThemeContext.ToggleCycle | src/components/Layout.tsx:163 | three presses return to a valid theme, and the two in between differ from it |
| ThemeContext.ThemeProvider.constructor | src/context/ThemeContext.tsx:24-29 | the initial theme, `isDarkMode` false, storage and root classes as found, no listener |
| ThemeContext.ThemeProvider.ApplyThemeEffects | src/context/ThemeContext.tsx:31-68 | the theme is stored, the root gets exactly the resolved mode class, `isDarkMode` holds exactly for dark, and the listener is registered exactly for "system" |
| ThemeContext.ThemeProvider.SetTheme | src/context/ThemeContext.tsx:31-49 | a different theme re-runs the effects; setting the same theme changes nothing |
| ThemeContext.ThemeProvider.OnSystemChange | src/context/ThemeContext.tsx:53-64 | while listening, the mode class and `isDarkMode` follow the new preference; otherwise nothing changes |
| ThemeContext.ThemeProvider.Toggle | src/components/Layout.tsx:163 | the next theme in the cycle is set and stored, exactly one mode class is on the root, matching `isDarkMode`, and the system listener is registered exactly when the new theme is "system" |
| AuthContext.TokenAfterFetch | src/context/AuthContext.tsx:51 | a failed profile fetch removes the token; a successful one keeps it |
| AuthContext.UserAfterFetch | src/context/AuthContext.tsx:47 | the profile on success, the old user on failure |
| AuthContext.ErrorAfterFetch | src/context/AuthContext.tsx:48-52 | cleared on success, "Session expired. Please login again." on failure |
| AuthContext.RegisterRethrowAsWritten | src/context/AuthContext.tsx:80-82 | as written, `register` throws an error with the chosen message and no response |
| AuthContext.RegisterRethrow | src/context/AuthContext.tsx:79-82 | the corrected rethrow keeps the call's response and message |
| AuthContext.AuthProvider.constructor | src/context/AuthContext.tsx:30-32 | no user, loading, no error |
| AuthContext.AuthProvider.FetchUser | src/context/AuthContext.tsx:43-56 | the request carries the header of the stored token; success sets the user and clears the error; failure removes the token and sets the session message without throwing; `loading` ends false |
| AuthContext.AuthProvider.Start | src/context/AuthContext.tsx:34-41 | the profile is fetched exactly when a token is stored; otherwise only `loading` drops |
| AuthContext.AuthProvider.SignIn | src/context/AuthContext.tsx:58-86 | on success the token is stored before the profile fetch, which carries it; only a failed post sets the error and throws |
| AuthContext.AuthProvider.Login | src/context/AuthContext.tsx:58-71 | success never throws, even when the profile fetch fails, and token and location follow that fetch; a failed post sets the server message or "Failed to login", throws a plain error with it, and passes token and location through the interceptor |
| AuthContext.AuthProvider.Register | src/context/AuthContext.tsx:73-86 | as written: as `Login` with "Failed to register", throwing `RegisterRethrowAsWritten` of the call's error, which has no response |
| AuthContext.AuthProvider.RegisterCorrected | src/context/AuthContext.tsx:73-86 | the corrected `register`: the same state, rethrowing the call's own error with its response |
| AuthContext.AuthProvider.Request | src/context/AuthContext.tsx:88-112 | one call; failure sets the server message or the fallback and throws it; `loading` ends false and the user is untouched |
| AuthContext.AuthProvider.ForgotPassword | src/context/AuthContext.tsx:88-99 | failure sets the server message or "Failed to process request" and throws it; success leaves token and location alone, failure passes them through the interceptor; the user is untouched and `loading` ends false |
| AuthContext.AuthProvider.ResetPassword | src/context/AuthContext.tsx:101-112 | failure sets the server message or "Failed to reset password" and throws it; success leaves token and location alone, failure passes them through the interceptor; the user is untouched and `loading` ends false |
| AuthContext.AuthProvider.Logout | src/context/AuthContext.tsx:114-117 | the token and the user are removed, nothing else changes |
| AuthContext.AuthProvider.UpdateUser | src/context/AuthContext.tsx:119-121 | only the user changes |
| AuthContext.AuthProvider.ClearError | src/context/AuthContext.tsx:123-125 | only the error changes, to null |
| AuthContext.RouteGuard | src/App.tsx:21-37 | a spinner exactly while loading, whoever the user; a redirect to /login exactly when not loading and signed out; the page otherwise |
| RegisterPage.ValidationError | src/pages/Register.tsx:42-61 | an empty field is reported first, then a mismatch, then a short password, then "Server is currently unavailable" when offline; registration proceeds exactly when all fields are filled, the passwords match and are at least 6 UTF-16 code units long, and the server is not offline |
| RegisterPage.ShortPasswordPrecedence | src/pages/Register.tsx:42-55 | a short password (under 6 UTF-16 code units) is reported exactly when the fields are filled and the passwords agree, ahead of the server status |
| RegisterPage.EmojiPasswordLength | src/pages/Register.tsx:52 | a password of three emoji is 6 code units long, so it passes the length check |
| RegisterPage.RegistrationErrorMessage | src/pages/Register.tsx:74-80 | the server message if present, else the connection text when the message mentions "Network", else the generic text |
| RegisterPage.AsWrittenShowsOnlyFixedTexts | src/pages/Register.tsx:74-80 | with the error `register` throws as written, only the two fixed texts can be shown |
| RegisterPage.AsWrittenWithoutServerMessage | src/pages/Register.tsx:76-80 | without a server message, the error thrown as written always shows the generic text |
| RegisterPage.ServerMessageLostAsWritten | src/pages/Register.tsx:74-75 | a 400 with "User already exists" shows the generic text as written, and the server's message with the corrected rethrow |
| RegisterPage.NetworkErrorLostAsWritten | src/pages/Register.tsx:76-77 | axios's "Network Error" shows the generic text as written, and the connection text with the corrected rethrow |
| RegisterPage.SubmitDisabled | src/pages/Register.tsx:188 | disabled exactly while loading or while the server is offline |
| RegisterPage.RegisterForm.constructor | src/pages/Register.tsx:11-17 | empty fields, no error, not loading, status "checking" |
| RegisterPage.RegisterForm.CheckServerStatus | src/pages/Register.tsx:23-35 | online exactly when the probe succeeds, offline otherwise |
| RegisterPage.RegisterForm.HandleSubmit | src/pages/Register.tsx:37-84 | as written: `register` is called exactly when `ValidationError` finds nothing. A failed check sets its message and leaves the provider's whole state unchanged. Success goes to /app with no error. Failure shows `RegistrationErrorMessage` of the error `register` throws as written, always one of the two fixed texts. The provider settles as `register` states; `loading` ends false |
| RegisterPage.RegisterForm.HandleSubmitCorrected | src/pages/Register.tsx:37-84 | the corrected handler: the same, through the corrected `register`, so a failure with a server message shows that message |
| ForgotPasswordPage.ErrorText | src/pages/ForgotPassword.tsx:31 | the thrown message unless it is empty, else "An error occurred. Please try again." |
| ForgotPasswordPage.ContextErrorTextIsContextMessage | src/pages/ForgotPassword.tsx:29-32 | an error the context throws always has a non-empty message: the server's or "Failed to process request" |
| ForgotPasswordPage.ShowsError | src/pages/ForgotPassword.tsx:49 | the error box shows exactly in the error state |
| ForgotPasswordPage.ShowsConfirmation | src/pages/ForgotPassword.tsx:74 | the confirmation replaces the form exactly in the success state |
| ForgotPasswordPage.SubmitDisabled | src/pages/ForgotPassword.tsx:131 | disabled exactly while submitting, when neither the confirmation nor the error box shows |
| ForgotPasswordPage.ForgotPasswordForm.constructor | src/pages/ForgotPassword.tsx:11-13 | empty email, idle, no error text |
| ForgotPasswordPage.ForgotPasswordForm.Submit | src/pages/ForgotPassword.tsx:19-26 | an empty email is an error with "Please enter your email address" and no request; otherwise the status is submitting |
| ForgotPasswordPage.ForgotPasswordForm.Resolve | src/pages/ForgotPassword.tsx:27-32 | success moves to "success"; failure moves to "error" with `ErrorText` of the thrown error. The provider keeps its user and stops loading, keeps its error on success and records the server message or "Failed to process request" on failure; token and location pass through the interceptor |
| ForgotPasswordPage.ForgotPasswordForm.HandleSubmit | src/pages/ForgotPassword.tsx:16-33 | a request is made exactly for a non-empty email, and none otherwise, leaving the provider untouched; success ends in "success"; failure ends in "error" with the server message or "Failed to process request". After a request the provider's user, loading, error, token and location are stated as `forgotPassword` leaves them |
| HealthCheck.IsHealthy | src/utils/healthCheck.ts:7-31 | healthy exactly on a 200 answer; never on an exception |
| HealthCheck.DiagnoseConnectionIssues | src/utils/healthCheck.ts:37-59 | server down gives the three server messages and no database probe; database down gives the two database messages; both up gives exactly the all-operational message; never empty |
| Js.Trim | src/pages/Transactions.tsx:40 | the trimmed string is empty exactly when the input is all whitespace |
| Js.Truthy | src/services/api.ts:14-15 | a missing value and the empty string are falsy; the token check, the server-message check and `if (editingTransaction)` all use this one notion |
| Js.Utf16Length | src/pages/Register.tsx:52 | `length` lies between the number of characters and twice it |
| Js.Utf16LengthOfBmp | src/pages/Register.tsx:52 | on the Basic Multilingual Plane `length` counts characters |
| Js.Utf16LengthOfAstral | src/pages/Register.tsx:52 | above U+FFFF every character counts two |
| Js.ToLowerCase | src/pages/Transactions.tsx:33 | same length, each character lower-cased |
| Js.IncludesIffOccurrence | src/pages/Transactions.tsx:33 | `includes` holds exactly when the substring occurs at some index |
| Js.IncludesEmpty | src/pages/Transactions.tsx:33 | every string includes the empty string |
| Js.ToNumber | src/pages/Transactions.tsx:42 | a blank string is 0 |
| Js.ParseFloat | src/pages/Transactions.tsx:51 | a blank string is NaN |
| Js.ParseFloatAgreesWithNumber | src/pages/Transactions.tsx:42-51 | once `Number()` accepts a non-blank string as a decimal literal, `parseFloat` reads the same number |
| Js.NonDecimalParsesAsZero | src/pages/Transactions.tsx:42-51 | for a `0x`/`0o`/`0b` literal, `Number()` reads its value and `parseFloat` reads 0 |
| Lists.SubsequenceTransitive | src/pages/Transactions.tsx:31-33 | a subsequence of a subsequence is a subsequence, so chained filters keep the order |
| Lists.SubsequenceElements | src/pages/Transactions.tsx:31-33 | a filtered list is no longer than its source and holds only its elements |

## Left out

- HTTP, axios, `fetch`, base URLs and timeouts are not modelled. Each server
  call is a `CallOutcome` parameter. The `loading = true` states in the middle
  of a call are not observable in the model; each method keeps the settled
  state.
- Async interleavings, stale closures, React re-rendering and effect
  scheduling are not modelled. Each handler runs to completion, and the
  theme effects run as `ApplyThemeEffects`, called by `SetTheme`.
- `localStorage`, `classList`, `matchMedia`, `window.location` and
  `window.confirm` are fields or parameters: the token slot, the root class
  set, the system preference, the location, and a `confirmed` flag.
- The `user`, `notes` and `createdAt` fields of a transaction are not
  modelled, nor the user's `preferences` and `createdAt`. No modelled logic
  reads them.
- Date formatting (`format(new Date(), …)`) is not modelled. The formatted
  text is a parameter.
- `toFixed`, `Math.round` and percentage labels are not modelled.
  `Stats.SavingsRate` and `Stats.TopCategory` give the exact value before
  rounding.
- The `fetchStats` effect of `Stats.tsx` is not modelled. Its token check,
  fetch and error text are I/O; the model starts from the `StatsData` it
  stores.
- Js.ToNumber: `Number()` is modelled on decimal literals with an optional
  sign and on `0x`/`0o`/`0b` integer literals. Exponents and `Infinity` read
  as NaN here.
- Js.ParseFloat: as for `ToNumber`, exponents and `Infinity` are not read.
- Js.ToLowerCase: only ASCII letters are lower-cased.
- TransactionsPage.LedgerPage.HandleEdit: number-to-string conversion is not
  modelled. `String(Math.abs(amount))` is a parameter, and the method's
  requires clause assumes that `Number()` reads it back as the absolute
  amount; this round trip is not proved.
- Stats.TopCategory: the page reads `expensesByCategory.length` without a
  guard and would crash when the field is missing. The model answers None.
- Stats.GroupByMonth: the source keys its accumulator by the string
  `${year}-${month}`. The model keys it by the `(year, month)` pair, which
  assumes distinct integer pairs give distinct strings.
- Stats.HealthyIffRateAboveOneSixth: the advice threshold of 1.2 times the
  expenses equals a savings rate above 16.7%. The advice text names 20%. This
  is stated as a lemma, and the threshold is kept as written.
- AuthContext.AuthProvider.Login: keeps the source's `throw new
  Error(message)`. No page in the model reads the login error.
- RegisterPage.RegisterForm.CheckServerStatus: `Register.tsx` imports
  `healthApi` from `src/services/api.ts`, which does not define it. The
  probe's result is a boolean parameter.
- RegisterPage.RegisterForm.HandleSubmit: `navigate("/app")` is recorded in
  the page's own `location` field. It is not the shared browser location.
- HealthCheck.IsHealthy: the two probes differ only in their path and their
  log message, so one function models both.
- The pages' JSX, the chart rendering and the remaining presentation files
  are not modelled. They hold no logic beyond the rules above.

## Findings

| source | as written | input that shows it | evidently intended | confidence | as-written member | corrected member |
|---|---|---|---|---|---|---|
| src/pages/Transactions.tsx:41-51 | `!amount` treats only the empty string as missing, and `Number(" ")` is 0, so a whitespace-only amount passes validation; `parseFloat(" ")` is NaN, which is then sent as the amount | amount `" "` | a blank amount reports "Amount is required", as a blank name does at line 40 | not executed | TransactionsPage.BlankAmountSavesNaN, TransactionsPage.AmountErrorAsWritten, TransactionsPage.Validation, TransactionsPage.Draft, TransactionsPage.LedgerPage.HandleAddTransaction | TransactionsPage.AmountError, TransactionsPage.CorrectedValidation, TransactionsPage.CorrectedDraft, TransactionsPage.LedgerPage.HandleAddTransactionCorrected |
| src/pages/Transactions.tsx:42-51 | `Number()` accepts `0x`/`0o`/`0b` integer literals, so such an amount passes validation, but `parseFloat` stops at the radix letter and reads 0, which is then sent as the amount | amount `"0x10"`, checked as 16 and sent as 0 | the amount sent is the number the check accepted | not executed | TransactionsPage.HexAmountSavedAsZero, Js.NonDecimalParsesAsZero, TransactionsPage.Draft | TransactionsPage.CorrectedDraft, TransactionsPage.LedgerPage.HandleAddTransactionCorrected |
| src/context/AuthContext.tsx:80-82 | `register` rethrows `new Error(message)`, which has no `response`, so the checks of `src/pages/Register.tsx` at lines 74-80 go wrong: the server-message branch never fires, and a network failure's message has become "Failed to register", so the "Network" branch never fires either | a 400 with message "User already exists", or axios's "Network Error" with no response | the page shows the server's message, or the connection text for a network failure | not executed | AuthContext.RegisterRethrowAsWritten, AuthContext.AuthProvider.Register, RegisterPage.RegisterForm.HandleSubmit, RegisterPage.AsWrittenShowsOnlyFixedTexts, RegisterPage.ServerMessageLostAsWritten, RegisterPage.NetworkErrorLostAsWritten | AuthContext.RegisterRethrow, AuthContext.AuthProvider.RegisterCorrected, RegisterPage.RegisterForm.HandleSubmitCorrected |
