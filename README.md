# Maglo invoice bookkeeping in Dafny

This project models the client-side bookkeeping of Maglo, a Next.js invoicing
dashboard. It covers these parts:

- **The invoice store.** It holds the signed-in user and the ordered list of invoices.
  Creating, updating and deleting change the list only once the remote store has
  accepted the call. The store also offers a lookup by id and the four dashboard totals.
- **The invoice creation form.** This covers its line-item editing, the subtotal,
  VAT and total, the validator, and the record it submits.
- **The derived dashboard views.** These are the upcoming-payments card (countdown,
  badge, sort, top five), the VAT summary card, the working-capital chart (per-day
  income and expenses over 7, 30 or 90 days) and the invoice list's search and
  status filter.
- **The validators of the sign-up and sign-in forms.** The e-mail pattern
  `^[^\s@]+@[^\s@]+\.[^\s@]+$` is shared with the creation form.
- **The request gate and the cookie clean-up.** The gate redirects visitors with
  and without an Appwrite session. The clean-up expires session cookies and
  detects a corrupted authentication state.

Representation choices:

- **Numbers.** Money, quantities, rates and VAT percentages are exact `real`s.
- **Dates.** Dates are millisecond timestamps (`int`). A calendar day is
  `ms / 86400000`, and a day's month and year follow the proleptic Gregorian
  calendar.
- **Remote calls.** Every call to the hosted backend is a parameter.
  - `Store.Reply` is either the id the backend assigned or a rejection with its message.
  - An `Option<seq<Document>>` is what a reload listed.
  - An `Option<Account>` is the current session.
- **Clocks and randomness.** These are parameters too: `now`, `today`, the
  `Date.now()` item id and the random invoice number.
- **Parsed numbers.** `Number.parseFloat(s) || 0` is `Text.NumberOrZero`. It is
  a decimal scanner with an optional sign, digits and an optional fraction.
  Where a formula uses a parsed number, the formula takes the number as a `real`
  parameter. The form's methods apply `NumberOrZero` or `VatPercent` to the
  text field.
- **State-changing code.**
  - The store and the creation form are classes whose methods reassign their
    `seq`/`map` fields.
  - The chart's day loop and the cookie clean-up's nested loops are methods
    with `while` loops. They are proved equal to the functions `Series` and
    `CleanupWrites`.
  - Everything else is functions and lemmas over values.
- **Text.** A string is a sequence of Unicode characters. Where the code
  tests `length`, the model counts UTF-16 code units with `Text.Utf16Length`,
  so a character outside the Basic Multilingual Plane counts twice.
- **Cookie writes.** The cookie clean-up returns, in order, the strings it
  assigns to `document.cookie`.

Where the code and its description differ, the model follows the code:

- **Invoice address.** The `Invoice` interface in maglo/lib/context.tsx has no
  `clientAddress`, but the creation form sends one and the spread copies it into
  the stored invoice. The model keeps it as an optional field. A reload does not
  carry it over.
- **Sign-in avatar.** The user set by a successful sign-in has the fixed avatar
  "MN", not the initials of the fixed name.
- **Allowed hostnames.** The middleware's list starts with
  `"https://maglo-three.vercel.app/"`, which no hostname can equal. Only its
  second entry and the local hosts are ever gated.

## Model

| member | source | states |
|---|---|---|
| Store.InvoiceStore.constructor | maglo/lib/context.tsx:62-64 | The store starts with no user, no invoices and loading set. |
| Store.InvoiceStore.SetUser | maglo/lib/context.tsx:70-76 | Setting a user reloads that user's invoices from the listed documents, in order; a failed listing keeps the list; no user clears it. The invariant "no user ⇒ no invoices" is kept. |
| Store.InvoiceStore.CheckAuth | maglo/lib/context.tsx:78-92 | A session sets the user built from it and reloads, keeping the list when the reload fails; no session leaves no user and no invoices; loading ends either way. |
| Store.UserOf | maglo/lib/context.tsx:81-86 | A session's user keeps its id, name and e-mail and takes the name's initials as avatar. |
| Store.InvoiceStore.AddInvoice | maglo/lib/context.tsx:194-221 | Without a user it fails with "User not authenticated" and the list is unchanged. If the backend rejects the call, it fails with the message or "Failed to create invoice" and the list is unchanged. If the backend accepts, the list becomes the draft under the returned id, prepended to the old list, and that id is now found. |
| Store.InvoiceStore.UpdateInvoice | maglo/lib/context.tsx:223-248 | It has the same refusals as AddInvoice, with "Failed to update invoice". On success, the list is the old one with the patch merged into every invoice carrying the id. |
| Store.InvoiceStore.DeleteInvoice | maglo/lib/context.tsx:250-265 | It has the same refusals, with "Failed to delete invoice". On success, every invoice with the id is gone, the id is no longer found, and the rest keep their order. |
| Store.InvoiceStore.Logout | maglo/lib/context.tsx:151-160 | Once the backend deletes the session, there is no user and no invoices; a rejection changes nothing and reports the message or "Logout failed". |
| Store.ErrorText | maglo/lib/context.tsx:217-220 | The error message is the backend's message when non-empty, else the fallback; it is empty only when the fallback is. |
| Store.Fetched | maglo/lib/context.tsx:172-186 | A listing becomes one invoice per document, in the listed order. |
| Invoices.FromDocument | maglo/lib/context.tsx:172-186 | A fetched invoice copies the document's id, client name and e-mail, amount, VAT, VAT amount, total, due and issue dates, status and invoice number. A missing or empty avatar becomes the client's initials, a present one is kept. Missing items become the empty list, and there is no address. |
| Invoices.WithIdRoundTrip | maglo/lib/context.tsx:211-214 | Attaching the returned id to a draft keeps every draft field, and an invoice is exactly its id plus its draft. |
| Invoices.Merge | maglo/lib/context.tsx:241 | `{ ...inv, ...updates }`: each field the patch carries replaces the invoice's, the rest are kept; its laws are MergeLaws and MergeFullPatch. |
| Invoices.MergeLaws | maglo/lib/context.tsx:241 | Merging an empty patch changes nothing, merging twice is merging once, and a status patch changes only the status. |
| Invoices.MergeFullPatch | maglo/lib/context.tsx:241 | A patch carrying every field replaces the record, except the address a patch cannot carry. |
| Store.PaidOnly | maglo/lib/context.tsx:275-279 | The paid filter keeps exactly the paid invoices. |
| Store.Outstanding | maglo/lib/context.tsx:281-285 | The pending filter keeps exactly the unpaid and pending invoices. |
| Store.TotalInvoices | maglo/lib/context.tsx:271-273 | The sum of every invoice's total; FoldsStep and PaidPlusPendingIsTotal state how it splits. |
| Store.TotalPaid | maglo/lib/context.tsx:275-279 | The sum of the paid invoices' totals; FoldsStep states that only paid invoices count. |
| Store.PendingPayments | maglo/lib/context.tsx:281-285 | The sum of the unpaid and pending invoices' totals; PaidPlusPendingIsTotal states that it is the rest of the total. |
| Store.TotalVat | maglo/lib/context.tsx:287-291 | The sum of the paid invoices' VAT amounts; PaidToPendingLowersVat states its change with a status. |
| Store.FoldsStep | maglo/lib/context.tsx:271-291 | Each of the four totals counts the head invoice once, according to its status. |
| Store.PaidPlusPendingIsTotal | maglo/lib/context.tsx:271-285 | Total paid plus pending payments equals the total of all invoices. |
| Store.SetStatusTotals | maglo/lib/context.tsx:271-291 | Changing one invoice's status moves its total and VAT between the paid and pending sums; the grand total is unchanged. |
| Store.PaidToPendingLowersVat | maglo/lib/context.tsx:287-291 | Turning a paid invoice into a pending one lowers the VAT collected by its VAT amount and the paid total by its total. |
| Store.Find | maglo/lib/context.tsx:267-269 | The lookup is None exactly when no invoice has the id; otherwise it returns an invoice of the list with that id. |
| Store.FindFirst | maglo/lib/context.tsx:267-269 | The lookup returns the first invoice carrying the id. |
| Store.Without | maglo/lib/context.tsx:260 | The remaining invoices are exactly those whose id differs. |
| Store.WithoutKeepsOrder | maglo/lib/context.tsx:260 | The remaining invoices keep their relative order. |
| Store.WithoutAbsent | maglo/lib/context.tsx:260 | Deleting an absent id leaves the list unchanged. |
| Store.WithoutIdempotent | maglo/lib/context.tsx:260 | Deleting twice is deleting once. |
| Store.FindAfterWithout | maglo/lib/context.tsx:250-269 | After deletion, the lookup by that id finds nothing. |
| Store.Updated | maglo/lib/context.tsx:239-243 | An update keeps the length; invoices with the id get the patch merged in, all others are unchanged. |
| Store.UpdatedAbsent | maglo/lib/context.tsx:239-243 | Updating an absent id changes nothing. |
| Store.StatusUpdateTotals | maglo/lib/context.tsx:239-243 | A status-only update of an invoice with a unique id is that invoice with the new status, so SetStatusTotals gives its effect on the totals. |
| Store.AddThenDeleteRestores | maglo/lib/context.tsx:194-269 | Creating an invoice under a fresh id makes it findable, and deleting it restores the list. |
| CreateForm.CreateInvoiceForm.constructor | maglo/app/invoices/create/page.tsx:29-37 | The empty form has VAT "5", today as issue date, no due date, no items and no errors. |
| CreateForm.Subtotal | maglo/app/invoices/create/page.tsx:44-46 | The sum of the item amounts; SubtotalAppend and SubtotalIsLineTotal state its laws. |
| CreateForm.VatPercent | maglo/app/invoices/create/page.tsx:51 | The typed VAT parsed as a number, 0 when it does not parse; Text.NoDigitsIsZero and Text.ParseFormattedNat state both cases. |
| CreateForm.VatAmount | maglo/app/invoices/create/page.tsx:49-52 | The VAT percentage of the subtotal; TotalScalesSubtotal relates it to the total. |
| CreateForm.Total | maglo/app/invoices/create/page.tsx:55-58 | Subtotal plus VAT amount; TotalScalesSubtotal states it is the subtotal times (1 + VAT/100). |
| CreateForm.SubtotalAppend | maglo/app/invoices/create/page.tsx:44-46 | Appending an item adds its amount to the subtotal. |
| CreateForm.TotalScalesSubtotal | maglo/app/invoices/create/page.tsx:49-58 | The total is the subtotal times (1 + VAT/100). |
| CreateForm.SubtotalIsLineTotal | maglo/app/invoices/create/page.tsx:44-46 | When every amount is quantity × rate, the subtotal is the sum of quantity × rate. |
| CreateForm.NewItem | maglo/app/invoices/create/page.tsx:94-100 | The new item has a zero amount consistent with quantity × rate. |
| CreateForm.WithNewItem | maglo/app/invoices/create/page.tsx:91-102 | Adding an item appends exactly one blank item after the unchanged old items and leaves the subtotal unchanged. |
| CreateForm.CreateInvoiceForm.AddItem | maglo/app/invoices/create/page.tsx:91-102 | The items become WithNewItem of the old items, and every amount stays quantity × rate. |
| CreateForm.WithoutItem | maglo/app/invoices/create/page.tsx:105 | The remaining items are exactly those whose id differs. |
| CreateForm.WithoutItemKeepsOrder | maglo/app/invoices/create/page.tsx:105 | The remaining items keep their order. |
| CreateForm.WithoutItemSubtotal | maglo/app/invoices/create/page.tsx:105 | Removing items lowers the subtotal by exactly the removed amounts. |
| CreateForm.CreateInvoiceForm.RemoveItem | maglo/app/invoices/create/page.tsx:104-107 | The items become WithoutItem of the old items, with consistent amounts. |
| CreateForm.ChangedItem | maglo/app/invoices/create/page.tsx:112-125 | A name change touches only the name. A quantity or rate change sets that field to the parsed number and sets amount = quantity × rate. Any other field leaves the item as it was. The id is always kept. |
| CreateForm.WithChange | maglo/app/invoices/create/page.tsx:109-128 | Only items with the id change, each as ChangedItem says; the length and order are kept; consistent amounts stay consistent. |
| CreateForm.CreateInvoiceForm.ChangeItem | maglo/app/invoices/create/page.tsx:109-128 | The items become WithChange of the old items, with consistent amounts. |
| CreateForm.FormErrors | maglo/app/invoices/create/page.tsx:60-89 | There is one key per failing field, with its exact message: the client name blank after trimming ("Client name is required"); the e-mail empty (the "required" message winning) or not matching the pattern; no items, which takes precedence over a blank item name; the due date empty ("Due date is required"). |
| CreateForm.FormValidIff | maglo/app/invoices/create/page.tsx:60-89 | The form passes iff the name is not all white space, the e-mail is well formed, there is an item and no item name is all white space, and a due date is set. |
| CreateForm.CreateInvoiceForm.Validate | maglo/app/invoices/create/page.tsx:60-89 | It stores FormErrors in the form's errors and answers true iff there are none. |
| CreateForm.InvoiceNumber | maglo/app/invoices/create/page.tsx:144 | The invoice number is "MGL" followed only by digits. |
| CreateForm.InvoiceNumberRoundTrip | maglo/app/invoices/create/page.tsx:144 | The random number can be read back from the invoice number. |
| CreateForm.AddressField | maglo/app/invoices/create/page.tsx:149 | The address is absent iff it is all white space, otherwise it is the trimmed, non-empty text. |
| CreateForm.SubmittedDraft | maglo/app/invoices/create/page.tsx:141-160 | The record is Pending. Its amount is the subtotal, its VAT the parsed percentage, vatAmount = amount × vat / 100 and total = amount + vatAmount. Its avatar is the initials, its address AddressField, and it keeps the name, e-mail, dates, items and number. |
| CreateForm.SubmittedTotals | maglo/app/invoices/create/page.tsx:141-160 | The submitted amount is the sum of quantity × rate, and the total is that sum times (1 + vat/100). |
| CreateForm.CreateInvoiceForm.Submit | maglo/app/invoices/create/page.tsx:130-171 | An invalid form records its errors and never reaches the store. A valid form sends SubmittedDraft; it is prepended under the returned id on success, and the list is unchanged on failure. The user and the loading flag are untouched. |
| Dates.Countdown | maglo/components/due-date-tracker.tsx:14-20 | The countdown is the ceiling of (due − now) / 86400000: the whole number d with (d−1)·day < due − now ≤ d·day. |
| Dates.CountdownUnique | maglo/components/due-date-tracker.tsx:14-20 | That whole number is unique. |
| DueDates.Insert | maglo/components/due-date-tracker.tsx:22-24 | Inserting into a countdown-sorted list keeps it sorted, adds exactly that invoice, and puts it first or keeps the old first. |
| DueDates.SortByCountdown | maglo/components/due-date-tracker.tsx:22-24 | The sort gives non-decreasing countdowns and a permutation (same multiset) of its input. |
| DueDates.SortKeepsSorted | maglo/components/due-date-tracker.tsx:22-24 | An already-sorted list is returned unchanged, as a stable sort does. |
| DueDates.SortIsPermutation | maglo/components/due-date-tracker.tsx:22-24 | The sorted list holds exactly the unpaid invoices. |
| DueDates.BadgeFor | maglo/components/due-date-tracker.tsx:26-30 | The badge of a countdown; BadgeBoundaries and BadgeMonotone state its three ranges and their order. |
| DueDates.BadgeBoundaries | maglo/components/due-date-tracker.tsx:26-30 | Overdue iff the countdown is < 0, Due Soon iff 0..3, Upcoming iff > 3. |
| DueDates.BadgeMonotone | maglo/components/due-date-tracker.tsx:26-30 | A later countdown never gets a more urgent badge. |
| DueDates.FormatCountdown | maglo/components/due-date-tracker.tsx:32-37 | The text is "N days overdue" with N = −d, "Due today", "Due tomorrow", or "d days remaining". |
| DueDates.FormatCountdownInjective | maglo/components/due-date-tracker.tsx:32-37 | Different countdowns never get the same text. |
| DueDates.Tracker | maglo/components/due-date-tracker.tsx:12-99 | The empty state shows iff no invoice is unpaid or pending. Otherwise the card shows the pending count, min(5, count) rows taken from the front of the sorted list, and "view all" iff the count is > 5. |
| DueDates.TrackerShowsMostUrgent | maglo/components/due-date-tracker.tsx:22-64 | The rows run in countdown order, and no unlisted outstanding invoice is due sooner than the last row. |
| VatSummary.MonthlyInvoices | maglo/components/vat-summary.tsx:14-21 | The monthly invoices are exactly the paid invoices issued in the current month and year. |
| VatSummary.MonthlyVat | maglo/components/vat-summary.tsx:23 | The VAT amounts of the monthly invoices summed; MonthlyBounded bounds it by the all-time VAT. |
| VatSummary.MonthlyRevenue | maglo/components/vat-summary.tsx:24 | The totals of the monthly invoices summed; MonthlyBounded bounds it by the all-time paid total. |
| VatSummary.Summarize | maglo/components/vat-summary.tsx:23-82 | The monthly VAT and revenue are the sums over the monthly invoices, the count is their number; the VAT collected and total revenue are the store's folds; gross + VAT = total revenue. |
| VatSummary.MonthlyWithinPaid | maglo/components/vat-summary.tsx:14-21 | The monthly invoices are an ordered sub-list of the paid invoices. |
| VatSummary.MonthlyBounded | maglo/components/vat-summary.tsx:14-26 | With no negative amounts, the monthly VAT and revenue lie between 0 and the all-time figures. |
| VatSummary.OnlyPaidCount | maglo/components/vat-summary.tsx:14-21 | Dropping unpaid and pending invoices does not change the monthly invoices. |
| VatSummary.GrossIsPreVat | maglo/components/vat-summary.tsx:72-82 | When each total is amount + VAT, the gross revenue is the paid invoices' pre-VAT amounts. |
| VatSummary.SumsAddUp | maglo/components/vat-summary.tsx:72-82 | Summed totals are summed amounts plus summed VAT when each invoice's total is. |
| WorkingCapital.DaysIn | maglo/app/dashboard/working-capital-chart.tsx:8-16 | The window is 7, 30 or 90 days. |
| WorkingCapital.ExactlyOneSide | maglo/app/dashboard/working-capital-chart.tsx:27-46 | Every invoice counts as income or as an expense, never both. |
| WorkingCapital.PointFor | maglo/app/dashboard/working-capital-chart.tsx:26-52 | A day's point holds the day's paid totals as income and its unpaid/pending totals as expenses. |
| WorkingCapital.Series | maglo/app/dashboard/working-capital-chart.tsx:21-53 | The series has n points, point k is the day first + k, and the days strictly ascend. |
| WorkingCapital.ChartData | maglo/app/dashboard/working-capital-chart.tsx:15-56 | The loop yields exactly the series of the DaysIn(range) days ending today; its last point is today. |
| WorkingCapital.TotalsOf | maglo/app/dashboard/working-capital-chart.tsx:59-69 | Period income and expenses are the sums of the daily values, and net = income − expenses. |
| WorkingCapital.WindowStep | maglo/app/dashboard/working-capital-chart.tsx:21-46 | Widening the window by one day adds exactly that day's sum. |
| WorkingCapital.PeriodIsWindow | maglo/app/dashboard/working-capital-chart.tsx:21-62 | The period sum of a side is the sum over invoices of that side issued inside the window: each counts once, and those outside count nowhere. |
| WorkingCapital.SidesCover | maglo/app/dashboard/working-capital-chart.tsx:27-46 | Income plus expenses over the window is the total of all invoices issued in it. |
| WorkingCapital.IncomePlusExpenses | maglo/app/dashboard/working-capital-chart.tsx:21-62 | The chart's period income plus expenses accounts for every invoice issued in the window exactly once. |
| WorkingCapital.EmptyStateIff | maglo/app/dashboard/working-capital-chart.tsx:132 | The empty state shows iff the paid and the outstanding totals issued in the window each sum to 0. |
| InvoiceSearch.Filtered | maglo/app/invoices/page.tsx:20-27 | An invoice is listed iff the lower-cased term occurs in its lower-cased client name or invoice number, and the filter is "All" or its status. |
| InvoiceSearch.FilteredKeepsOrder | maglo/app/invoices/page.tsx:20 | The listed invoices are an ordered sub-list of the store's. |
| InvoiceSearch.NoFilterListsAll | maglo/app/invoices/page.tsx:18-24 | An empty term with "All" lists every invoice in order. |
| InvoiceSearch.FilterIdempotent | maglo/app/invoices/page.tsx:20-27 | Filtering the filtered list again changes nothing. |
| InvoiceSearch.SameListing | maglo/app/invoices/page.tsx:22-23 | Terms with the same lower-case form list the same invoices. |
| InvoiceSearch.SearchIgnoresCase | maglo/app/invoices/page.tsx:22-23 | For ASCII text, upper- or lower-casing the term does not change the listing. |
| InvoiceSearch.LowerOfUpper | maglo/app/invoices/page.tsx:22-23 | For ASCII text, lower-casing an upper-cased text is lower-casing the text. |
| InvoiceSearch.LowerIdempotent | maglo/app/invoices/page.tsx:22-23 | Lower-casing twice is lower-casing once. |
| InvoiceSearch.UnknownStatusListsNothing | maglo/app/invoices/page.tsx:24 | A filter that is neither "All" nor a status name lists nothing. |
| EmailRule.EmailPatternIff | maglo/components/auths/sign-up-form.tsx:40 | The pattern matches iff the text has no white space and exactly one '@', something before it, and a '.' strictly inside the part after it. |
| EmailRule.PatternIsWellFormed | maglo/components/auths/sign-up-form.tsx:40 | A match of the pattern's pieces satisfies that description. |
| EmailRule.WellFormedMatchesPattern | maglo/components/auths/sign-up-form.tsx:40 | A text meeting that description matches the pattern. |
| AuthChecks.EmailError | maglo/components/auths/sign-in-form.tsx:32-36 | There is no e-mail error iff the e-mail is well formed. An empty e-mail gives "Email is required", any other failure "Please enter a valid email". |
| AuthChecks.PasswordError | maglo/components/auths/sign-in-form.tsx:38-42 | There is no password error iff the length in UTF-16 code units is ≥ 6. An empty password gives "Password is required", lengths 1 to 5 the minimum-length message. |
| AuthChecks.Record | maglo/components/auths/sign-in-form.tsx:30-42 | Recording a message sets exactly that key and leaves every other key as it was. |
| AuthChecks.NoKeysIsEmpty | maglo/components/auths/sign-in-form.tsx:45 | No keys means the empty error record. |
| SignIn.SignInErrors | maglo/components/auths/sign-in-form.tsx:29-46 | There is at most one message per field: e-mail iff not well formed, password iff shorter than 6 code units, each with its exact message. |
| SignIn.SignInValidIff | maglo/components/auths/sign-in-form.tsx:29-46 | The form is valid iff the e-mail is well formed and the password has ≥ 6 UTF-16 code units. |
| SignIn.SignedInUser | maglo/components/auths/sign-in-form.tsx:61-66 | The user's e-mail is the one typed; the id, name and avatar are the fixed values. |
| SignIn.Submit | maglo/components/auths/sign-in-form.tsx:48-75 | An invalid form leaves the store's user and invoices alone; a valid one sets the fixed user and reloads, keeping the list when the reload fails; the loading flag is untouched. |
| SignUp.NameError | maglo/components/auths/sign-up-form.tsx:32-36 | There is no name error iff the untrimmed name is ≥ 2 UTF-16 code units long. An empty name gives "Full name is required", a one-unit name the length message. |
| SignUp.AstralCharIsLongEnough | maglo/components/auths/sign-up-form.tsx:34 | A single character outside the Basic Multilingual Plane counts as two code units and passes the length check. |
| SignUp.SignUpErrors | maglo/components/auths/sign-up-form.tsx:29-52 | Each of fullName, email and password has a message exactly when its check fails, and that message is the check's own. |
| SignUp.SignUpValidIff | maglo/components/auths/sign-up-form.tsx:29-52 | The form is valid iff the name has ≥ 2 UTF-16 code units, the e-mail is well formed and the password has ≥ 6. |
| SignUp.NewUser | maglo/components/auths/sign-up-form.tsx:67-72 | The new user has id "1", the typed name and e-mail, and the name's first two characters upper-cased as avatar. |
| SignUp.Submit | maglo/components/auths/sign-up-form.tsx:54-81 | An invalid form leaves the store alone; a valid one sets NewUser and reloads, keeping the list when the reload fails; the loading flag is untouched. |
| Middleware.ProjectId | maglo/middleware.ts:30 | The project id is the configured one when set and non-empty, else the default. |
| Middleware.HasSessionIff | maglo/middleware.ts:32-36 | There is a session iff some cookie name starts with "a_session_"; the two exact-name tests are subsumed. |
| Middleware.Decide | maglo/middleware.ts:5-49 | The gate only ever redirects to "/" or "/dashboard". |
| Middleware.UnknownHostPasses | maglo/middleware.ts:17-26 | A host that is neither local nor allowed always passes, whatever the path and cookies. |
| Middleware.GatedDecision | maglo/middleware.ts:40-48 | On a gated host, the request passes iff "public path" ≠ "has session". A session on "/" goes to "/dashboard"; no session elsewhere goes to "/". |
| Middleware.Matched | maglo/middleware.ts:51-61 | The matcher: "/" and the six app sections with everything below them; Route and ProtectedPagesNeedSession state what it lets through to the gate. |
| Middleware.Route | maglo/middleware.ts:51-61 | Paths outside the matcher pass; matched paths get the gate's decision. |
| Middleware.ProtectedPagesNeedSession | maglo/middleware.ts:40-61 | A matched page other than "/" on a gated host is redirected iff there is no session cookie, and then only to "/". |
| Cookies.CookieName | maglo/lib/cookie-cleanup.ts:16 | A cookie's name never contains '='. |
| Cookies.CookieNameIsFirstPiece | maglo/lib/cookie-cleanup.ts:16 | The name is the first '='-separated piece, trimmed. |
| Text.FirstPieceIsBefore | maglo/lib/cookie-cleanup.ts:16 | The first piece of a split is the text before the first separator. |
| Text.Split | maglo/lib/cookie-cleanup.ts:12 | Splitting gives at least one piece, no piece contains the separator, and joining the pieces back gives the input. |
| Cookies.CookieNames | maglo/lib/cookie-cleanup.ts:12-16 | Each segment gives exactly its own name, in order. |
| Cookies.SessionOnly | maglo/lib/cookie-cleanup.ts:19 | The selected names are exactly those starting with "a_session_". |
| Cookies.SessionNamesIff | maglo/lib/cookie-cleanup.ts:15-19 | A name is selected iff it starts with "a_session_" and is the name of some segment. |
| Cookies.DomainWrites | maglo/lib/cookie-cleanup.ts:30-33 | There is one write per domain, in order. |
| Cookies.WritesFor | maglo/lib/cookie-cleanup.ts:21-33 | Each session cookie gets four writes: one ending in ";" and then one per entry of '', hostname, '.' + hostname. |
| Cookies.Expire | maglo/lib/cookie-cleanup.ts:21-33 | The inner loop produces exactly WritesFor. |
| Cookies.AllWrites | maglo/lib/cookie-cleanup.ts:15-37 | There are four writes per selected name. |
| Cookies.WritesStep | maglo/lib/cookie-cleanup.ts:15-37 | Visiting one more segment adds its four writes if it is a session cookie and nothing otherwise. |
| Cookies.CleanupWrites | maglo/lib/cookie-cleanup.ts:8-37 | The four writes of each session cookie named in the cookie string, in order; Cleanup produces them and CleanupTouchesOnlySessionCookies states what they touch. |
| Cookies.Cleanup | maglo/lib/cookie-cleanup.ts:8-40 | The outer loop produces exactly the writes of CleanupWrites for the ';'-separated segments. |
| Cookies.AllWritesLayout | maglo/lib/cookie-cleanup.ts:21-33 | Write k belongs to name k/4: the first of the four has no domain, the others use the three domain entries. |
| Cookies.CleanupTouchesOnlySessionCookies | maglo/lib/cookie-cleanup.ts:15-33 | Every write expires a session cookie named in the cookie string, and there are exactly four per such cookie. |
| Cookies.Matching | maglo/lib/cookie-cleanup.ts:50-52 | Each segment is flagged exactly when, trimmed, it starts with "a_session_" + project id. |
| Cookies.SessionCount | maglo/lib/cookie-cleanup.ts:50-55 | The count never exceeds the number of segments. |
| Cookies.CountAboveOneIff | maglo/lib/cookie-cleanup.ts:45-55 | The state is corrupted iff two distinct trimmed segments start with "a_session_" + project id. |
| Cookies.HasCorruptedAuthState | maglo/lib/cookie-cleanup.ts:45-55 | More than one segment of the cookie string is a session cookie of the project; CorruptedIff states it. |
| Cookies.CorruptedIff | maglo/lib/cookie-cleanup.ts:45-55 | The state is corrupted iff two distinct ";"-separated segments of the cookie string, trimmed, start with "a_session_" + the project id. |
| Cookies.CountPositiveIff | maglo/lib/cookie-cleanup.ts:50-52 | The count is positive iff some trimmed segment starts with "a_session_" + project id. |
| Cookies.LegacyCookieCountsAsSecond | maglo/lib/cookie-cleanup.ts:50-52 | A project's "_legacy" session cookie next to its plain one makes the state corrupted. |
| Text.TrimEmptyIff | maglo/app/invoices/create/page.tsx:63 | A text is blank after trimming iff it is all white space. |
| Text.ContainsIff | maglo/app/invoices/page.tsx:22-23 | `includes` holds iff the term is the slice of the text at some offset. |
| Text.Initials | maglo/app/invoices/create/page.tsx:150 | The initials are the first min(2, length) characters, upper-cased. |
| Text.NatToStringRoundTrip | maglo/components/due-date-tracker.tsx:33-36 | Reading the formatted digits gives the number back. |
| Text.NatToStringInjective | maglo/components/due-date-tracker.tsx:33-36 | Different numbers are formatted differently. |
| Text.ParseFormattedNat | maglo/app/invoices/create/page.tsx:51 | A formatted whole number parses back to itself. |
| Text.ParseDigits | maglo/app/invoices/create/page.tsx:51 | A non-empty string of digits parses as its decimal value. |
| Text.ScanDigits | maglo/app/invoices/create/page.tsx:51 | Scanning a digit string yields its decimal value. |
| Text.ParseFloat | maglo/app/invoices/create/page.tsx:51 | `Number.parseFloat`: optional sign, digits and an optional fraction after leading white space; ParseFormattedNat and NoDigitsIsZero state what it reads. |
| Text.NumberOrZero | maglo/app/invoices/create/page.tsx:51 | `Number.parseFloat(s)`, or 0 when that is NaN; NoDigitsIsZero states that text without digits gives 0. |
| Text.NoDigitsIsZero | maglo/app/invoices/create/page.tsx:51 | Text without a digit does not parse, so the VAT field falls back to 0. |
| Text.Utf16Length | maglo/components/auths/sign-in-form.tsx:40 | `length` counts UTF-16 code units: between the number of characters and twice that, and 0 only for the empty string. |
| Text.BmpLength | maglo/components/auths/sign-in-form.tsx:40 | For text inside the Basic Multilingual Plane, `length` is the number of characters. |

## Left out

- Calls to the hosted backend (account, databases) are not modelled. Their outcomes are parameters, and login/signup session sequencing is reduced to "user set or none".
- The JSON encoding of `items` on its way to and from the backend is treated as the identity on the item list.
- Floating-point behaviour is not modelled: `toFixed`, `Math.round(x * 100) / 100`, `toLocaleString`, rounding of sums, NaN and −0.
- Text.ParseFloat: reads sign, digits and an optional fraction only; exponents, "Infinity" and hexadecimal forms are not modelled.
- Dates.SameMonth: months and days are taken in UTC; time zones, `toDateString` and date-string parsing are not modelled, and a timestamp stands for each stored date string.
- WorkingCapital.ChartData: compares calendar day numbers instead of `toDateString` texts, and does not model the rounding of each point to cents or the `dateStr` labels.
- WorkingCapital.TotalsOf: does not model the rounding of the period totals to cents.
- Text.ToLower: maps ASCII letters only; full Unicode case mapping is not modelled. The same holds for Text.ToUpper and Text.Initials.
- Text.Initials: takes the first two characters, whereas `substring(0, 2)` takes two UTF-16 code units and can split a character outside the Basic Multilingual Plane in half. The avatars of SignUp.NewUser, Store.UserOf, Invoices.FromDocument and CreateForm.SubmittedDraft inherit this.
- Invoices.Merge: a patch cannot carry `clientAddress` or an explicit `undefined` field.
- Store.InvoiceStore.SetUser: the reload runs at once, in sequence with the user change. Asynchronous interleaving and the stale-closure list updates are not modelled.
- Toasts, router pushes, `setTimeout`, the form's `isLoading` flag, `document.title` and console logging are not modelled, because they have no effect on the modelled state.
- The "Sign up failed" and "Sign in failed" catch branches are not modelled, because nothing in their try blocks can fail once the simulated delay is gone.
- Rendering is not modelled: the badge colours and icons, and the presentation-only components and pages.
