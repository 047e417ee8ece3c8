# lucidwave-admin core, modelled in Dafny

This project models the logic inside the lucidwave-admin dashboard, a
Next.js/TypeScript admin front end, and proves properties of that model. It
covers:

- **Job-application store.** The optimistic status change, notes edit and
  delete of the Zustand store. Each one rewrites the list and the per-status
  counters first, then puts the prior snapshot back when the API call fails.
  The status filter is passed to the list query.
- **Upload-list stores** for receipts and invoices. `addFiles` drops names
  already in the list and `removeFile` removes by index. Each store has a send
  gate and the state updates after a success, a failure or an exception.
- **Invoice arithmetic.** The per-line amount, subtotal, tax and total. The form
  and the generated invoice agree on all three. The form's line-item edits, its
  submit validator, its initial defaults and its disabled button are included.
- **Generic data table.** The dot-path field lookup, exactly as its `for` loop
  with `break` runs. Also the choice of cell renderer, the per-row action
  filter, and the loading and empty body shapes.
- **Sidebar.** Route-prefix matching, which entries are highlighted, and the
  user shown in the footer.
- **Auth store.** User-record normalisation and token-field precedence. The
  session transitions of login, register, logout, refresh and checkAuth, and
  the settling of the queue of requests that wait for a token refresh.
- **Invitation-accept page.** The ordered client checks, the server-error text
  precedence and the three screens.
- **Currency table.** Symbol lookup, picker options, and the PDF amount format
  over integer cents.

Objects whose fields the source updates through `set`/`useState` are classes:
`ApplicationStore`, `ReceiptStore`, `InvoiceStore`, `InvoiceForm`,
`AuthStore`, `RefreshQueue` and `InvitePage`. Their methods `modify` the
object. The list, counter and record transforms they use are functions, and
lemmas state their properties.

Every HTTP call is a parameter: an answer datatype, or an outcome saying
whether the call succeeded or failed and with what message. Clock readings
(`Date.now()`, `new Date().toISOString()`, the default dates) are parameters
too. In the auth store, `localStorage` (`authToken`, `refreshToken`) and the
axios default `Authorization` header are plain fields
(`storedAuthToken`, `storedRefreshToken`, `authHeader`), because `refresh`
and `checkAuth` read back what `login` wrote. JavaScript's `||` on a possibly
missing string is `Option<string>` with `Truthy`/`OrElse`. `""` and a missing
value are both falsy.

The send gate of `sendReceipts`/`sendInvoices` leaves every form field and
file untouched and makes no send. The code still writes the gate's message
and `isLoading := false` (src/stores/receiptStore.ts:98-109), and the model
follows the code.

Files: `wrappers.dfy` (Option, truthiness), `strings.dfy` (split,
prefix, ASCII lower-casing, decimal digits), `applications.dfy`,
`uploads.dfy`, `invoices.dfy`, `datatable.dfy`, `sidebar.dfy`, `auth.dfy`,
`invite.dfy`, `currency.dfy`.

## Model

| member | source | states |
|---|---|---|
| Applications.FindById | src/stores/applicationStore.ts:95 | no result exactly when no record carries the id; otherwise a record of the list with that id |
| Applications.FindByIdFirst | src/stores/applicationStore.ts:95 | `find` returns the first record that carries the id |
| Applications.StatusParam | src/stores/applicationStore.ts:54 | the "all" filter sends no status parameter; any other filter sends its status |
| Applications.StatusUpdatedSpec | src/stores/applicationStore.ts:78-92 | length, order and ids kept; only records with the id change; each one gets the new status and exactly one history entry (status, time, notes) appended to its history (empty if missing); all its other fields kept |
| Applications.StatusUpdatedAbsent | src/stores/applicationStore.ts:78-92 | a status change for an id not in the list leaves the list as it is |
| Applications.NotesUpdatedSpec | src/stores/applicationStore.ts:127-134 | length kept; records with the id get exactly the new notes; every other record unchanged |
| Applications.RemovedMembers | src/stores/applicationStore.ts:154 | delete keeps exactly the records whose id differs; the length drops by the number of matches |
| Applications.RemovedConcat | src/stores/applicationStore.ts:154 | the delete filter distributes over concatenation, so the kept records stay in order |
| Applications.RemovedAbsent | src/stores/applicationStore.ts:154 | deleting an absent id leaves the list unchanged |
| Applications.MoveCountSpec | src/stores/applicationStore.ts:99-103 | new status counter c+1, old one max(0, c-1), all others unchanged; when old and new are equal the later key wins and the counter rises by one |
| Applications.MetaAfterStatusChangeSpec | src/stores/applicationStore.ts:94-109 | a null meta stays null; counters move only when the record is found and counters exist; total, page, limit and pages never change |
| Applications.MetaAfterDeleteSpec | src/stores/applicationStore.ts:156-174 | a null meta stays null; total drops by one; the deleted record's counter drops, clamped at 0; other counters kept |
| Applications.NumAfterStatusUpdate | src/stores/applicationStore.ts:78-92 | with a unique id, the per-status tallies of the list move from the old status to the new one |
| Applications.StatusChangeKeepsOffPageCounts | src/stores/applicationStore.ts:78-109 | on any page the counters cover, a change of a unique id to a different status keeps, per status, the number of records counted but not on the page (the clamp is never hit), and the counters still cover the page |
| Applications.StatusChangeKeepsCountsConsistent | src/stores/applicationStore.ts:94-109 | when the whole data set is loaded as one page, counters that agree with it still agree after a change to a different status |
| Applications.SameStatusOvercounts | src/stores/applicationStore.ts:99-103 | on any page, re-applying a record's own status leaves the page's tally as it was but raises the counter by one, so one record too many is counted off the page |
| Applications.NumAfterRemove | src/stores/applicationStore.ts:153-154 | deleting a unique id lowers exactly its status's tally by one |
| Applications.DeleteKeepsOffPageCounts | src/stores/applicationStore.ts:153-174 | on any page the counters cover, deleting a unique id keeps, per status, the records counted but not on the page, and keeps total minus the page length |
| Applications.DeleteKeepsCountsConsistent | src/stores/applicationStore.ts:153-174 | when the whole data set is loaded as one page, counters and total that agree with it still agree after deleting a unique id |
| Applications.DeleteMissingStillDecrements | src/stores/applicationStore.ts:165-174 | deleting an absent id keeps the list but still lowers total by one |
| Applications.ApplicationStore.constructor | src/stores/applicationStore.ts:40-45 | the initial state: empty list, null meta, not loading, no error, filter "all" |
| Applications.ApplicationStore.FetchApplications | src/stores/applicationStore.ts:47-67 | asks for 20 records of the page (1 by default) under the filter; stores data and meta, or keeps them and sets the server message or "Failed to load applications"; loading ends false |
| Applications.ApplicationStore.SetStatusFilter | src/stores/applicationStore.ts:69-72 | stores the filter and reloads page 1 with it |
| Applications.ApplicationStore.UpdateApplicationStatus | src/stores/applicationStore.ts:74-121 | on success the new list and meta are the optimistic transforms of the old ones; on failure list and meta are the snapshot and the error is set |
| Applications.ApplicationStore.UpdateApplicationNotes | src/stores/applicationStore.ts:123-147 | on success the notes transform; on failure the snapshot and "Failed to update notes" or the server message; meta untouched |
| Applications.ApplicationStore.DeleteApplication | src/stores/applicationStore.ts:149-186 | on success the filtered list and the adjusted meta; on failure the snapshot and the error |
| Applications.ApplicationStore.ClearError | src/stores/applicationStore.ts:188 | error cleared, everything else kept |
| Uploads.NewOnlyMembers | src/stores/receiptStore.ts:37-40 | the kept incoming files are exactly those whose name is not in the existing set |
| Uploads.NewOnlyConcat | src/stores/receiptStore.ts:38-40 | the filter distributes over concatenation, so incoming order is kept |
| Uploads.NewOnlyNone | src/stores/receiptStore.ts:38-40 | a batch whose names are all present adds nothing |
| Uploads.AddFilesSpec | src/stores/receiptStore.ts:35-45 | the old list unchanged in front, then the incoming files whose names are not among the old names |
| Uploads.BatchNotDeduplicated | src/stores/receiptStore.ts:37-40 | two same-named files in one batch are both added |
| Uploads.AddFilesTwice | src/stores/receiptStore.ts:35-45 | adding the same batch a second time changes nothing |
| Uploads.WithoutIndexInRange | src/stores/receiptStore.ts:47-51 | an in-range index removes exactly that position |
| Uploads.WithoutIndexOutOfRange | src/stores/receiptStore.ts:47-51 | a negative or too large index leaves the list unchanged |
| Uploads.WithoutIndexLength | src/stores/receiptStore.ts:47-51 | the length drops by one exactly when the index is in range |
| Uploads.ReceiptStore.constructor | src/stores/receiptStore.ts:25-33 | empty files and text fields, currency "PHP", not loading, empty message |
| Uploads.ReceiptStore.AddFiles | src/stores/receiptStore.ts:35-45 | files become the deduplicated append; nothing else changes |
| Uploads.ReceiptStore.RemoveFile | src/stores/receiptStore.ts:47-51 | files lose the index; nothing else changes |
| Uploads.ReceiptStore.SetReceiverName | src/stores/receiptStore.ts:53-55 | sets one field only |
| Uploads.ReceiptStore.SetReceivedAmount | src/stores/receiptStore.ts:57-59 | sets one field only |
| Uploads.ReceiptStore.SetReceiverEmail | src/stores/receiptStore.ts:61-63 | sets one field only |
| Uploads.ReceiptStore.SetCurrency | src/stores/receiptStore.ts:65-67 | sets one field only |
| Uploads.ReceiptStore.SetReceivedVia | src/stores/receiptStore.ts:69-71 | sets one field only |
| Uploads.ReceiptStore.ClearMessage | src/stores/receiptStore.ts:73-75 | empties the message only |
| Uploads.ReceiptStore.ResetForm | src/stores/receiptStore.ts:77-86 | files empty, text fields "", currency "PHP"; isLoading and message untouched |
| Uploads.ReceiptStore.SendReceipts | src/stores/receiptStore.ts:88-148 | no file or an empty name, amount, email or channel (currency unchecked): no send, form kept, gate message; otherwise the form is sent; success resets the form and shows the reply, failure keeps it and shows the reply, an exception keeps it with "An unexpected error occurred."; isLoading always ends false |
| Uploads.InvoiceStore.constructor | src/stores/invoiceStore.ts:17-21 | empty files and email, not loading, empty message |
| Uploads.InvoiceStore.AddFiles | src/stores/invoiceStore.ts:23-33 | files become the deduplicated append; nothing else changes |
| Uploads.InvoiceStore.RemoveFile | src/stores/invoiceStore.ts:35-39 | files lose the index; nothing else changes |
| Uploads.InvoiceStore.SetEmail | src/stores/invoiceStore.ts:41-43 | sets the email only |
| Uploads.InvoiceStore.ClearMessage | src/stores/invoiceStore.ts:45-47 | empties the message only |
| Uploads.InvoiceStore.ResetForm | src/stores/invoiceStore.ts:49-51 | clears only files and email |
| Uploads.InvoiceStore.SendInvoices | src/stores/invoiceStore.ts:53-89 | no file or empty email: no send and the gate message; success clears files and email; failure and exception keep them; isLoading always ends false |
| Invoices.ItemsWithAmountsSpec | src/services/pdfService.tsx:6-9 | each output line is its input line plus amount = quantity × rate; count and order kept |
| Invoices.SubtotalAgrees | src/services/pdfService.tsx:11 | the invoice subtotal, a sum of line amounts, equals the form's sum of quantity × rate |
| Invoices.ConvertSpec | src/services/pdfService.tsx:5-40 | subtotal, tax = subtotal × rate / 100 and total = subtotal + tax are the form's own figures; parties, number, tax rate, currency and notes copied |
| Invoices.ZeroTaxTotalIsSubtotal | src/services/pdfService.tsx:12-13 | with tax rate 0 the tax is 0 and the total is the subtotal |
| Invoices.FormSubtotalNonNegative | src/components/InvoiceForm.tsx:53-55 | non-negative quantities and rates give a non-negative subtotal |
| Invoices.SubtotalWithinTotal | src/services/pdfService.tsx:11-13 | with no negative numbers, 0 ≤ subtotal ≤ total |
| Invoices.FormSubtotalZero | src/components/InvoiceForm.tsx:53-55 | with no negative numbers the subtotal is zero exactly when every line's product is zero |
| Invoices.DisabledIffNothingCharged | src/components/InvoiceForm.tsx:392 | with no negative numbers the button is disabled exactly when every line charges nothing |
| Invoices.EveryInvalidSpec | src/components/InvoiceForm.tsx:103 | `every` holds exactly when no line has a description, a positive quantity and a positive rate |
| Invoices.ValidateSpec | src/components/InvoiceForm.tsx:94-109 | the form is passed on unchanged exactly when the four party fields are filled and some line is valid; party check first; addresses not checked |
| Invoices.AcceptedFormIsEnabled | src/components/InvoiceForm.tsx:103-106 | an accepted form with no negative numbers never has a disabled button |
| Invoices.WithoutItemMembers | src/components/InvoiceForm.tsx:78-83 | removeItem keeps exactly the lines with another id |
| Invoices.WithoutItemConcat | src/components/InvoiceForm.tsx:78-83 | removeItem keeps the remaining lines in order |
| Invoices.ItemsUpdatedSpec | src/components/InvoiceForm.tsx:85-92 | only the chosen field of lines with the id changes; other lines, fields, length and order kept |
| Invoices.DefaultFormSpec | src/components/InvoiceForm.tsx:24-40 | without initial data: one line {"1", "", 1, 0}, tax rate 0, currency "USD"; the button starts disabled and submit is refused |
| Invoices.InvoiceForm.constructor | src/components/InvoiceForm.tsx:24-40 | each truthy initial field, else its default; a given item list is kept even when empty |
| Invoices.InvoiceForm.AddItem | src/components/InvoiceForm.tsx:65-76 | exactly one line {newId, "", 1, 0} appended; all else kept |
| Invoices.InvoiceForm.RemoveItem | src/components/InvoiceForm.tsx:78-83 | items become the id filter; all else kept |
| Invoices.InvoiceForm.UpdateItem | src/components/InvoiceForm.tsx:85-92 | items become the field update; all else kept |
| Invoices.InvoiceForm.HandleSubmit | src/components/InvoiceForm.tsx:94-109 | passes the form on exactly when the parties are filled and some line is valid, otherwise one of the two alerts |
| DataTable.StepAllUndefined | src/components/ui/data-table.tsx:65-68 | following any path from `undefined` stays `undefined` |
| DataTable.BreakIsHarmless | src/components/ui/data-table.tsx:65-68 | stopping at the first `undefined` gives what applying every segment gives |
| DataTable.LookupPath | src/components/ui/data-table.tsx:57-69 | the loop yields null for "actions" and otherwise the segment-by-segment walk of the dot-split key |
| DataTable.SingleSegmentIsFieldAccess | src/components/ui/data-table.tsx:62-68 | a key without "." is plain field access |
| DataTable.SplitAround | src/components/ui/data-table.tsx:62 | "a.b" splits into "a" followed by the pieces of "b" |
| DataTable.NestedLookup | src/components/ui/data-table.tsx:62-68 | "outer.inner" reads a field of a field; a missing outer field gives `undefined` |
| DataTable.RenderCellValue | src/components/ui/data-table.tsx:57-103 | the cell is the renderer choice applied to the looked-up value |
| DataTable.RenderChoice | src/components/ui/data-table.tsx:71-102 | a custom render wins and gets value and row; booleans give a Yes/No badge, "http…" strings a link, other strings their text, null/undefined "" |
| DataTable.ActionsColumnIsBlank | src/components/ui/data-table.tsx:58-60 | the "actions" column without a renderer shows "" |
| DataTable.VisibleActionsMembers | src/components/ui/data-table.tsx:216 | an action is kept exactly when it has no `show` or `show(row)` holds |
| DataTable.VisibleActionsConcat | src/components/ui/data-table.tsx:216 | the filter keeps the original order |
| DataTable.TableBodySpec | src/components/ui/data-table.tsx:105-241 | loading: 5 placeholder rows; no data: one cell spanning columns + (actions? 1 : 0) with the message ("No data found" by default); else one row per record, one cell per column, an actions cell exactly when there are actions |
| Sidebar.MatchPathSegments | src/components/layout/app-sidebar.tsx:178-184 | matching is by whole segments: never for "" or "#"; otherwise the target is a prefix of the pathname ending at its end or at a "/" |
| Sidebar.ChildRouteMatchesParent | src/components/layout/app-sidebar.tsx:181 | a pathname matching "parent/child" also matches "parent" |
| Sidebar.MatchPathExamples | src/components/layout/app-sidebar.tsx:180-181 | "/users" matches "/users/invitations" but not "/usersX"; "#" matches nothing |
| Sidebar.NavItems | src/components/layout/app-sidebar.tsx:186-209 | one output entry per nav entry |
| Sidebar.MarkSubItemsSpec | src/components/layout/app-sidebar.tsx:189-192 | each sub-item is itself with isActive = matchPath(its url) |
| Sidebar.AnyActiveSpec | src/components/layout/app-sidebar.tsx:195 | `some` holds exactly when some sub-item is active |
| Sidebar.MarkItemSpec | src/components/layout/app-sidebar.tsx:187-207 | title, url and icon kept; a parent with sub-items is active exactly when its url or one of its sub-items' urls matches; a leaf's static isActive is replaced by matchPath(url) |
| Sidebar.NavItemsSpec | src/components/layout/app-sidebar.tsx:186-209 | entries stay in order, each marked as above |
| Sidebar.SettingsNeverActive | src/components/layout/app-sidebar.tsx:131-153 | the Settings entry, all "#", is never highlighted |
| Sidebar.CareersRoutes | src/components/layout/app-sidebar.tsx:100-114 | "/careers/applications" matches "/careers" and itself, not "/careers/jobs" or "/dashboard" |
| Sidebar.CareersHighlighted | src/components/layout/app-sidebar.tsx:100-114 | on "/careers/applications" Careers and its Applications item are active, Job Listings and Dashboard are not |
| Sidebar.CurrentUserSpec | src/components/layout/app-sidebar.tsx:212-223 | no user gives the guest record; a user keeps name, email and role, and a missing avatar becomes /avatars/<lower-cased first email letter>.jpg |
| Sidebar.FormattedUserAvatarKept | src/components/layout/app-sidebar.tsx:212-217 | a user from formatUserData already has an avatar and is shown unchanged |
| Auth.FormatUserDataName | src/stores/authStore.ts:8-12 | name, else username, else the email text before the first "@" when non-empty, else "User" |
| Auth.FormatUserDataDefaults | src/stores/authStore.ts:13-17 | email defaults to "user@example.com", role to "User", avatar to /avatars/<first email letter lower-cased, or "u">.jpg; every field is filled |
| Auth.TokenPrecedence | src/stores/authStore.ts:62-66 | the token is the first non-empty one of tokens.access_token, token, accessToken, access_token; none when all are empty or missing |
| Auth.LoginUserAgreesWithFormat | src/stores/authStore.ts:87-93 | login's own record fails without a user or an email, and equals formatUserData's when no fallback is needed |
| Auth.AuthStore.constructor | src/stores/authStore.ts:44-50 | signed out, not loading, no error |
| Auth.AuthStore.Login | src/stores/authStore.ts:52-110 | success exactly when the call answers with a token and a usable user: signed in with that user and token, refresh token or null, error cleared, token stored; otherwise it throws with the server message or "Login failed" and keeps the session fields; storage and header are untouched when the call fails or carries no token, but already hold the new token (and refresh token) when only the user record fails; isLoading ends false |
| Auth.AuthStore.Register | src/stores/authStore.ts:112-133 | only isLoading and error change; error is the server message or "Registration failed" on failure |
| Auth.AuthStore.Logout | src/stores/authStore.ts:135-148 | clears isAuthenticated, user, token, refreshToken, error, storage and header |
| Auth.AuthStore.Refresh | src/stores/authStore.ts:150-209 | no refresh token in store or storage: throws with no change; success: new token, old refresh token kept when none returned; failure: session cleared with "Session expired. Please login again." |
| Auth.AuthStore.LoadUser | src/stores/authStore.ts:227-239 | signed in with formatUserData of `data.user` or `data`, tokens read back from storage, error cleared |
| Auth.AuthStore.CheckAuth | src/stores/authStore.ts:211-251 | no stored token: the cleared state; a first load that answers signs in with the stored tokens and sets the header; a failed first load followed by a refresh that yields a token and a second load that answers signs in with the refreshed token stored and in the header; every other failed first load ends signed out with storage and header cleared and no error |
| Auth.AuthStore.ClearError | src/stores/authStore.ts:253-255 | clears the error only |
| Auth.SettleAll | src/stores/authStore.ts:270-278 | every waiter in order: all rejected with the error when there is one, otherwise all resolved with the token |
| Auth.RefreshQueue.constructor | src/stores/authStore.ts:265-268 | the queue starts empty |
| Auth.RefreshQueue.Enqueue | src/stores/authStore.ts:294 | a waiting request joins the end of the queue |
| Auth.RefreshQueue.ProcessQueue | src/stores/authStore.ts:270-280 | settles every queued waiter as above and leaves the queue empty |
| Invite.ServerErrorText | src/app/invite/page.tsx:71-75 | the server's message, else its error, else the fallback |
| Invite.FirstErrorSpec | src/app/invite/page.tsx:84-101 | passes exactly when the passwords match, have at least 8 characters and a token exists; mismatch, then length, then token decides the message |
| Invite.EightCharactersSuffice | src/app/invite/page.tsx:93 | 8 matching characters pass, 7 do not |
| Invite.InvitePage.constructor | src/app/invite/page.tsx:37-50 | loading, not validating or submitting, no error or invitation, empty form; the spinner shows |
| Invite.InvitePage.CurrentScreen | src/app/invite/page.tsx:132-149 | spinner exactly while loading or validating; the invalid screen exactly when idle with an error and no invitation |
| Invite.InvitePage.Mount | src/app/invite/page.tsx:52-80 | no token: "Invalid invitation link. No token provided." without validating; else the invitation, or the server error text with "Invalid or expired invitation token" as fallback; loading ends |
| Invite.InvitePage.HandleSubmit | src/app/invite/page.tsx:82-130 | the first failing check's message, no call, and the submitting flag untouched; else redirects with the returned tokens stored, or shows the server error text with "Failed to accept invitation. Please try again."; submitting ends false |
| Invite.InvitePage.SetForm | src/app/invite/page.tsx:223-281 | replaces the form only |
| Currency.Find | src/lib/currency-utils.ts:39 | a found entry is in the table with that code; no result means no entry has it |
| Currency.FindOwnCode | src/lib/currency-utils.ts:39 | in a table with distinct codes, each entry's code finds that entry |
| Currency.CodesDistinct | src/lib/currency-utils.ts:1-12 | the nine codes are distinct |
| Currency.GetCurrencySymbol | src/lib/currency-utils.ts:38-41 | the table symbol for a table code, "$" for any other string |
| Currency.InheritedNamesAreLong | src/lib/currency-utils.ts:39 | no inherited object member has a three-letter name, unlike the codes |
| Currency.GetCurrencySymbolAsWritten | src/lib/currency-utils.ts:38-41 | as written: the corrected symbol, except that inherited member names give no symbol |
| Currency.InheritedNameHasNoSymbol | src/lib/currency-utils.ts:39-40 | "toString" gives no symbol as written, "$" as intended |
| Currency.GetCurrencyOptions | src/lib/currency-utils.ts:43-49 | one option per table entry, in table order |
| Currency.OptionLabels | src/lib/currency-utils.ts:44-48 | an option's value is the code, its symbol the table symbol, and its label "<code> - <name> (<symbol>)" |
| Currency.OptionsAgreeWithSymbol | src/lib/currency-utils.ts:43-49 | each option's symbol is what getCurrencySymbol gives for its value |
| Currency.Fixed2RoundTrip | src/lib/currency-utils.ts:35 | the two-decimal text of an amount reads back to the same cents |
| Currency.FormatCurrencyForPDF | src/lib/currency-utils.ts:30-36 | the code, one space, then the amount with exactly two decimals, which reads back to the same cents |
| Currency.FormatDefaultsToUsd | src/lib/currency-utils.ts:30-36 | a missing code means "USD"; "USD 0.00" and " -0.05" as examples |

## Left out

- Applications.ApplicationStore.UpdateApplicationStatus, Applications.ApplicationStore.UpdateApplicationNotes, Applications.ApplicationStore.DeleteApplication, Applications.ApplicationStore.SetStatusFilter: each action runs as one atomic step, so interleaving with other actions is not modelled: a revert that overwrites an action finishing during the awaited call, and the un-awaited reload started by `setStatusFilter`.
- Applications.Consistent: it equates the server-wide counters with the loaded records, so the lemmas built on it assume the whole data set is one page; the OffPage lemmas state the same facts for any page.
- HTTP services (`getApplications`, `apiUpdateStatus`, `sendReceipts`, `sendInvoices`, `validateToken`, `acceptInvitation`, the auth endpoints): network calls, modelled as outcome parameters.
- The axios 401 interceptor with `isRefreshing` and request retries, and the `setTimeout` that installs the refresh function: they coordinate concurrent requests; only the queue settling of `processQueue` is modelled.
- `localStorage` "userData", `window.location`, `router.push` and `alert`: side effects with no state the modelled logic reads back (the redirect is a returned flag and an alert is a returned value).
- `Date.now()` ids, default dates, date-fns `format`, and `new Date` parsing: clock and date library; passed in as strings.
- `formatCurrency` and the Date branch of `renderCellValue`: they rely on `Intl.NumberFormat` and on `formatDateTime`, which is not part of this model.
- PDF generation, preview and download (`generateInvoicePDF`, the `download*` functions, the PDF component): foreign library and DOM work.
- The JSX markup of every component, and the per-field input handlers of the invoice form other than the item operations: layout only.
- Invoices: amounts are exact `real` numbers, so IEEE rounding of JavaScript numbers and the float `=== 0` test are not modelled; `parseFloat` on inputs is left out.
- Currency.FormatCurrencyForPDF: the amount is an exact whole number of cents, so `toFixed` rounding of arbitrary doubles is not modelled.
- DataTable.Step: only own fields of plain objects are seen; inherited (prototype) members, string and array properties, Date objects and non-integer numbers are not modelled.
- Sidebar.MatchPath: every url in the nav table is a string, so an absent target is not a separate case; the empty string stands for it.
- Auth.LoginUser: a user object with no email but with a name and an avatar is treated as a failed login, whereas the source would store `email: undefined`.
- Strings.LowerChar: lower-cases ASCII letters only; `toLowerCase` on other scripts is not modelled.
- Invite.FirstError: the length check counts characters, whereas JavaScript counts UTF-16 code units (different for characters outside the BMP).
- Applications.ApplicationStore.FetchApplications: the page and limit are forwarded as numbers; the paging semantics belong to the server.

## Findings

| source | as written | input that shows it | evidently intended | confidence | as-written member | corrected member |
|---|---|---|---|---|---|---|
| src/lib/currency-utils.ts:38-41 | `CURRENCIES[code]` also finds the members every object inherits, which are truthy and have no `symbol`, so the result is `undefined` | `getCurrencySymbol("toString")` | "$" for every string that is not a table code | not executed; follows from JavaScript property lookup | Currency.GetCurrencySymbolAsWritten, Currency.InheritedNameHasNoSymbol | Currency.GetCurrencySymbol |
