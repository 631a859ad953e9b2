# amplifibi bookkeeping core, modelled in Dafny

amplifibi is a small-business bookkeeping and invoicing web application for New Zealand
traders. Every signed-in user (a tenant) has a private chart of accounts and a journal of
double-entry transactions, customers, GST invoices and categories. The application also
derives reports, a dashboard summary and a "business health" score from that data.

This project models the logic of that core:

- **The store** (`ledger.dfy`). The class `Ledger.Db` holds users, accounts, categories,
  customers, journal entries and invoices as maps and sequences, plus an id counter. `Db.Valid()`
  is the store's invariant:
  - ids are keys;
  - every row belongs to a user;
  - e-mails are unique;
  - account codes are unique per tenant;
  - a customer's e-mail is unique per tenant;
  - every journal entry is one the transactions route accepts.

  The normal-balance rule `BalanceChange` and the accounting identity (assets + expenses −
  liabilities − equity − revenue, read through `Signed`) live here too.
- **The API routes**, each a module-level `method` taking the store `db: Db`; the state-changing
  ones declare `modifies db`:
  - `TransactionsRoute.Post`: validate a journal entry and post its two legs atomically.
  - `AccountsRoute.Post` and `CategoriesRoute.Post`.
  - `CustomersRoute.Post`, plus the list figures of the customers `GET`.
  - `InvoicesRoute.Post`: numbering and GST.
  - `SetupAccountsRoute.Post`: the idempotent default chart.
  - `ResetDataRoute.Post`.
  - `RegisterRoute.Post`: the user plus the 12-account starter chart.
  - `Reports.Generate`: period activity, profit and loss, balance sheet.
  - `DashboardSummary.Get`: per-type totals, net income, cash.
- **The pages**:
  - `InvoiceForm`: line items, GST preview and save validation of the invoice creation page.
  - `InvoiceActions`: which actions the invoice list offers, the overdue flag and status labels.
  - `QuickEntry`: the quick transaction form's choice of debit and credit accounts.
  - `CustomersPage`: avatar initials, save guards and when delete is offered.
  - `AccountsPage`: grouping accounts by type and the section label.
- **The scoring engine** (`scoring.dfy`):
  - the five component scorers, each as a list of rule steps folded by the `Apply` loop;
  - `getGrade`, the cash-flow trend and the weighted overall score;
  - insights with duplicates removed, recommendations, loan eligibility and benchmark
    comparison.

Money is `real`, so arithmetic is exact. Strings are `seq<char>`. A request field that is absent
or falsy in JavaScript is `None`, `""` or `0` according to its type. The checks of the
transactions, accounts, categories, customers and invoices routes become a `Rejection` function
whose result is an `ApiError` (401, 400 or 404 with its message). The register, setup-accounts,
reset-data, reports and summary routes make their few checks inline, in the method's own
`ensures`. A state-changing route's method promises:

- on rejection, the store is unchanged;
- on acceptance, the exact new state of the store.

Clock readings (`new Date()`, `Date.now()`) are parameters. The order in which the database
returns rows is a `listing` parameter that enumerates the queried rows.

In the scoring engine a JavaScript division by zero is modelled as it behaves: `Divide` returns
`PlusInfinity`, `MinusInfinity` or `NaN`, and every comparison with `NaN` is false. The engine
has no preconditions on its input. The keys of the accounts page's grouping are the five
`AccountType` values, not their strings: the database enum admits no other type.

## Model

| member | source | states |
|---|---|---|
| Ledger.ParseType | src/app/api/accounts/route.ts:53-58 | a string is accepted as a type only if it is one of the five type names, and it yields that type |
| Ledger.ParseTypeName | src/app/api/accounts/route.ts:53 | every one of the five names is accepted and yields its own type, so exactly the other strings are refused |
| Ledger.BalanceChangeRule | src/app/api/transactions/route.ts:184-195 | ASSET/EXPENSE: debit +amount, credit −amount; LIABILITY/EQUITY/REVENUE: debit −amount, credit +amount; any other string 0 |
| Ledger.BalanceChangeSigned | src/app/api/transactions/route.ts:182-195 | read with its normal sign, every debit leg adds the amount and every credit leg subtracts it, for all five types |
| Ledger.ApplyPosting | src/app/api/transactions/route.ts:197-213 | the two increments change balances only: every account keeps all its other fields, and no account is added or removed |
| Ledger.LegSigned | src/app/api/transactions/route.ts:197-213 | one leg moves its account's signed balance by +amount (debit) or −amount (credit) |
| Ledger.PostingMovesNet | src/app/api/transactions/route.ts:197-213 | for two distinct accounts the posting is the debit update followed by the credit update; the identity over any set of accounts moves by exactly the legs of its members |
| Ledger.PostingKeepsIdentity | src/app/api/transactions/route.ts:182-213 | a posting between two accounts of one tenant leaves the identity unchanged for the whole store and for that tenant, and the tenant's accounts stay the same set |
| Ledger.SameShapeKeeps | src/app/api/reset-data/route.ts:20-23 | changing balances only keeps the store invariant |
| Ledger.PostingConsistent | src/app/api/transactions/route.ts:137-216 | recording an accepted entry under a fresh id and applying both legs keeps the store invariant |
| Ledger.AppendEntryConsistent | src/app/api/transactions/route.ts:139-149 | appending an accepted entry under a fresh id keeps the invariant |
| Ledger.AddAccountsConsistent | src/app/api/auth/register/route.ts:113-120 | inserting a batch of fresh accounts of existing users, with codes unique within the batch and unused by their tenants, keeps the invariant |
| Ledger.AddAccountConsistent | src/app/api/accounts/route.ts:61-87 | adding one account with a fresh id and a code its tenant does not use yet keeps the invariant |
| Ledger.AscendingCodesDistinct | src/app/api/auth/register/route.ts:89-111 | a chart listed in strictly ascending code order has pairwise distinct codes |
| Ledger.DefaultBatch | src/app/api/setup-accounts/route.ts:60-71 | a built-in chart inserted for a tenant gives one row per chart line under consecutive fresh ids, each owned by the tenant, active and with balance 0 |
| Ledger.DefaultBatchRow | src/app/api/setup-accounts/route.ts:61-69 | row k of the batch carries chart line k's name, code, type and subtype |
| Ledger.DefaultBatchCodesUnique | src/app/api/setup-accounts/route.ts:24-58 | a chart with distinct codes gives a batch with distinct codes |
| Ledger.DefaultBatchForNewTenant | src/app/api/setup-accounts/route.ts:14-71 | for a tenant without accounts, the tenant's accounts afterwards are exactly the batch |
| Ledger.DefaultBatchFresh | src/app/api/auth/register/route.ts:113-120 | a batch under fresh ids meets the requirements for insertion into a valid store |
| Ledger.InstallChartConsistent | src/app/api/setup-accounts/route.ts:60-71 | installing a chart with distinct codes for a user without accounts keeps the invariant |
| Ledger.AddCategoriesConsistent | src/app/api/setup-accounts/route.ts:83-92 | inserting categories with fresh ids for existing users keeps the invariant |
| Ledger.AddUserConsistent | src/app/api/auth/register/route.ts:24-55 | adding a user with a fresh id and an unused e-mail keeps the invariant (e-mail unique) |
| Ledger.AddCustomerConsistent | src/app/api/customers/route.ts:125-158 | adding a customer whose non-empty e-mail its tenant does not use keeps the invariant |
| Ledger.AddInvoiceConsistent | src/app/api/invoices/route.ts:131-241 | appending an invoice for a customer of the same tenant keeps the invariant |
| Ledger.DropTransactionsConsistent | src/app/api/reset-data/route.ts:14-17 | keeping only some of the journal entries keeps the invariant |
| Ledger.Db.InsertChart | src/app/api/auth/register/route.ts:113-120 | `createMany` of a chart: the new store state is exactly the old one with the chart installed for the user |
| TransactionsRoute.RejectionSpec | src/app/api/transactions/route.ts:82-134 | accepted iff signed in, with date, description, amount > 0, two distinct accounts both the caller's, and any category the caller's; a missing field, a negative amount and the same account twice each give their own 400 message |
| TransactionsRoute.Post | src/app/api/transactions/route.ts:64-218 | rejected iff the checks fail, and then the store is unchanged; otherwise exactly one entry is appended, the accounts become ApplyPosting of the two legs, nothing else changes, and the invariant holds |
| TransactionsRoute.PostKeepsIdentity | src/app/api/transactions/route.ts:182-213 | every accepted posting keeps the accounting identity for the store and for each tenant, and leaves other tenants' accounts as they were |
| Reports.EffectMatchesPosting | src/app/api/reports/route.ts:80-94 | for the five types the report's effect rule equals the posting rule; for other strings it is credit-normal where the posting rule gives 0 |
| Reports.ApplyEffectFrame | src/app/api/reports/route.ts:80-94 | one leg adds its effect to its own account's activity (absent counts as 0) and changes no other account |
| Reports.ApplyTransactionFrame | src/app/api/reports/route.ts:74-98 | an entry changes the activity of its debit and credit accounts only, each by its leg |
| Reports.Zeroed | src/app/api/reports/route.ts:66-71 | every listed account starts with activity 0, and only listed accounts have an entry |
| Reports.ReplayIsSum | src/app/api/reports/route.ts:74-98 | after the loop an account's activity is its start value plus the sum of what each entry contributes to it |
| Reports.UntouchedStaysZero | src/app/api/reports/route.ts:66-98 | a listed account that no entry of the period touches ends with activity 0 |
| Reports.ListedActivity | src/app/api/reports/route.ts:65-98 | every listed account's period activity is the sum of the entries' contributions to it |
| Reports.ZeroAll | src/app/api/reports/route.ts:68-71 | the first `forEach` builds exactly the zeroed map |
| Reports.PeriodActivity | src/app/api/reports/route.ts:65-98 | the two loops compute the replay of the period's entries from zero, so each listed account's activity is the sum of its contributions |
| Reports.Section | src/app/api/reports/route.ts:104-136 | a section has no more lines than there are accounts, and each line passes its filter (`> 0` or `!== 0`) |
| Reports.SectionLines | src/app/api/reports/route.ts:101-136 | a section has a line for exactly the accounts of its type whose amount passes the filter, named after the account |
| Reports.NonZeroKeepsTotal | src/app/api/reports/route.ts:123-147 | dropping zero lines does not change a balance-sheet total: it equals the sum over all accounts of the type |
| Reports.PositiveTotal | src/app/api/reports/route.ts:104-115 | a P&L total is at least the unfiltered sum and never negative, and equals it when no amount is negative |
| Reports.ProfitAndLoss | src/app/api/reports/route.ts:100-116 | revenue total is the sum of \|activity\| over revenue accounts; expense total is at least the expense activity sum; netIncome = revenue − expenses; every line positive |
| Reports.BuildBalanceSheet | src/app/api/reports/route.ts:118-148 | (`SheetOf`) assets by balance, liabilities and equity by \|balance\|, zero lines dropped; equity gets one extra \|netIncome\| line iff netIncome ≠ 0; the totals are the type sums (plus \|netIncome\| for equity) |
| Reports.Rows | src/app/api/reports/route.ts:26-36 | the rows returned are the listed accounts, in the listing's order |
| Reports.InPeriod | src/app/api/reports/route.ts:39-46 | the entries processed are exactly the caller's journal entries dated within [start, end] |
| Reports.Generate | src/app/api/reports/route.ts:6-172 | 401 without a session; 400 without both dates; a signed-in request with both dates always succeeds. The report echoes the period. Its P&L is that of the replayed period activity of the caller's accounts. Its balance sheet is `SheetOf` the balances: the three sections' lines, the Retained Earnings line iff netIncome ≠ 0, and the totals |
| DashboardSummary.TypeTotalsPartition | src/app/api/dashboard/summary/route.ts:34-61 | the five type totals add up to the sum of all balances |
| DashboardSummary.SumByType | src/app/api/dashboard/summary/route.ts:34-61 | the reduce adds each balance to exactly its own type's total, so each field is its type's sum and the fields add up to the sum of all balances |
| DashboardSummary.SplitAssets | src/app/api/dashboard/summary/route.ts:65-70 | any split of the assets into two kinds splits the asset total the same way |
| DashboardSummary.CashWithinAssets | src/app/api/dashboard/summary/route.ts:65-70 | the asset total is the cash total plus the total of the other assets |
| DashboardSummary.CashAtMostAssets | src/app/api/dashboard/summary/route.ts:65-70 | with non-negative asset balances, totalCash ≤ totalAssets |
| DashboardSummary.Get | src/app/api/dashboard/summary/route.ts:6-88 | 401 without a session; otherwise the caller's active accounts in query order, the per-type totals, netIncome = revenue − expenses, totalCash over cash/bank assets, and the caller's entry count |
| AccountsRoute.RejectionSpec | src/app/api/accounts/route.ts:39-75 | accepted iff signed in, name and type present, type one of the five, and a non-empty code unused by the caller's accounts (other tenants' codes do not matter) |
| AccountsRoute.NewAccount | src/app/api/accounts/route.ts:77-87 | the new row is active, owned by the caller, with the given balance (0 when absent); an empty code or subtype becomes null |
| AccountsRoute.AcceptedKeepsCodesUnique | src/app/api/accounts/route.ts:60-87 | an accepted account keeps every tenant's non-null codes pairwise distinct |
| AccountsRoute.Post | src/app/api/accounts/route.ts:35-89 | rejected iff the checks fail, with the store unchanged; otherwise exactly the new account is added under a fresh id |
| CategoriesRoute.RejectionSpec | src/app/api/categories/route.ts:37-64 | accepted iff signed in, a name is given, and the caller has no category of that name |
| CategoriesRoute.NewCategory | src/app/api/categories/route.ts:66-74 | the new category is the caller's, not a system category, and description or colour is null exactly when absent |
| CategoriesRoute.AcceptedKeepsNamesUnique | src/app/api/categories/route.ts:51-74 | if a tenant's names were unique, they stay unique after an accepted creation |
| CategoriesRoute.Post | src/app/api/categories/route.ts:33-76 | rejected iff the checks fail, with the store unchanged; otherwise exactly the new category is added |
| CustomersRoute.RejectionSpec | src/app/api/customers/route.ts:90-140 | accepted iff signed in, a name is given, and a given e-mail is not used by the caller's customers; no e-mail means no e-mail check |
| CustomersRoute.NewCustomer | src/app/api/customers/route.ts:144-158 | the row keeps the given fields; country is never empty and defaults to New Zealand; payment terms are never 0 and default to 30 |
| CustomersRoute.NewCustomerDefaults | src/app/api/customers/route.ts:153-156 | an absent country becomes "New Zealand"; absent or zero payment terms become 30 |
| CustomersRoute.Post | src/app/api/customers/route.ts:85-169 | rejected iff the checks fail, with the store unchanged; otherwise exactly the new customer is added |
| CustomersRoute.InvoicedSplits | src/app/api/customers/route.ts:56-61 | totalInvoiced is totalOutstanding plus the totals of the invoices that are not SENT/VIEWED/OVERDUE |
| CustomersRoute.OutstandingAtMostInvoiced | src/app/api/customers/route.ts:58-61 | with non-negative totals, 0 ≤ totalOutstanding ≤ totalInvoiced |
| CustomersRoute.Page | src/app/api/customers/route.ts:48-52 | `skip`/`take`: at most `limit` rows, the slice from `offset`, empty past the end |
| CustomersRoute.HasMoreSpec | src/app/api/customers/route.ts:65-74 | hasMore (offset + limit < total) holds iff some row lies beyond the returned page |
| InvoicesRoute.PaddedDigits | src/app/api/invoices/route.ts:155 | the padded number has at least three characters, all digits, and denotes n |
| InvoicesRoute.NumberValueOf | src/app/api/invoices/route.ts:154 | for "INV-" + p with no hyphen in p, the parsed suffix is parseInt(p) |
| InvoicesRoute.NumberValueFormatted | src/app/api/invoices/route.ts:152-156 | every formatted number parses back to the number it came from |
| InvoicesRoute.FirstNumber | src/app/api/invoices/route.ts:152 | with no earlier invoice the number is INV-001 |
| InvoicesRoute.NextNumberSucc | src/app/api/invoices/route.ts:153-156 | the invoice after the one numbered n is numbered n + 1 |
| InvoicesRoute.FormattedInjective | src/app/api/invoices/route.ts:155 | different counters give different invoice numbers |
| InvoicesRoute.NextAfterNaN | src/app/api/invoices/route.ts:154-155 | a last number whose suffix does not parse is followed by INV-NaN |
| InvoicesRoute.NumberAfterLetter | prisma/demo-seed.ts:224 | after the demo data's INV-F001 comes INV-NaN |
| InvoicesRoute.NumberAfter999 | src/app/api/invoices/route.ts:155 | INV-999 is followed by INV-1000 |
| InvoicesRoute.LastOf | src/app/api/invoices/route.ts:146-150 | finds the caller's most recently created invoice, or none when the caller has none |
| InvoicesRoute.ProcessItem | src/app/api/invoices/route.ts:163-184 | the stored line keeps the description, quantity and price; its total is quantity × price, its rate the effective rate, and its tax the mode's GST on that total, 0 when exempt |
| InvoicesRoute.ProcessItems | src/app/api/invoices/route.ts:162-185 | one stored line per requested line, in order, each the `ProcessItem` of its request line |
| InvoicesRoute.FiguresSpec | src/app/api/invoices/route.ts:187-204 | exempt: no tax, subtotal = total = S; inclusive: tax = S/(1+r)·r, subtotal = S − tax, total = S; exclusive: tax = S·r, total = S + tax; always subtotal + tax = total |
| InvoicesRoute.TaxOnAdditive | src/app/api/invoices/route.ts:166-175 | the GST on a sum is the sum of the GSTs, in every mode |
| InvoicesRoute.TaxSumItems | src/app/api/invoices/route.ts:162-195 | the items' taxes add up to the GST on the items' subtotal |
| InvoicesRoute.ItemTaxesAddUp | src/app/api/invoices/route.ts:162-204 | in exact arithmetic the item taxes sum to the invoice's tax |
| InvoicesRoute.InclusiveExample | prisma/demo-seed.ts:231-260 | 40 × 100 and 1 × 1000 inclusive at 15% give, in cents, 521.74 + 130.43 = 652.17 tax and a 4347.83 subtotal on 5000 |
| InvoicesRoute.ExclusiveExample | prisma/demo-seed.ts:274-277 | 3000 exclusive at 15% gives 450 tax and 3450 in total |
| InvoicesRoute.ComputeTotals | src/app/api/invoices/route.ts:158-204 | the loop produces exactly the processed lines and the invoice figures of the items' subtotal |
| InvoicesRoute.RejectionSpec | src/app/api/invoices/route.ts:106-144 | accepted iff signed in, customer, issue date and at least one item given, and the customer is the caller's; a foreign customer gives 404 |
| InvoicesRoute.Post | src/app/api/invoices/route.ts:102-249 | rejected iff the checks fail, with the store unchanged; otherwise one invoice is appended with the next number, the mode's figures and subtotal + tax = total |
| ResetDataRoute.KeepOthers | src/app/api/reset-data/route.ts:15-17 | only other tenants' entries remain, each taken from the journal |
| ResetDataRoute.ZeroBalances | src/app/api/reset-data/route.ts:20-23 | the caller's accounts get balance 0 with every other field unchanged; other tenants' accounts are untouched |
| ResetDataRoute.ResetKeepsOthersJournal | src/app/api/reset-data/route.ts:15-17 | every other tenant's journal is exactly as before |
| ResetDataRoute.ResetZeroesNet | src/app/api/reset-data/route.ts:20-23 | afterwards the caller's accounting identity is 0 over the same set of accounts |
| ResetDataRoute.ResetIdempotent | src/app/api/reset-data/route.ts:15-23 | resetting twice is the same as resetting once |
| ResetDataRoute.Post | src/app/api/reset-data/route.ts:6-27 | 401 and no change without a session; otherwise the store becomes Reset(old, caller) and stays valid |
| SetupAccountsRoute.ChartCodesDistinct | src/app/api/setup-accounts/route.ts:24-58 | the default chart has 24 accounts with pairwise distinct codes |
| SetupAccountsRoute.CategoryBatch | src/app/api/setup-accounts/route.ts:73-92 | one category per default row under consecutive fresh ids, owned by the caller, not a system category |
| SetupAccountsRoute.SetupCreatesChart | src/app/api/setup-accounts/route.ts:14-71 | for a user with no accounts, the user's accounts afterwards are exactly the 24 chart rows, each active with balance 0, and every earlier account is unchanged |
| SetupAccountsRoute.ApplyIdempotent | src/app/api/setup-accounts/route.ts:14-21 | calling setup twice leaves the same state as calling it once |
| SetupAccountsRoute.AddDefaultCategoriesConsistent | src/app/api/setup-accounts/route.ts:83-92 | adding the default categories keeps the store invariant |
| SetupAccountsRoute.SetupWithConsistent | src/app/api/setup-accounts/route.ts:60-92 | installing any chart with distinct codes plus categories for a user without accounts keeps the invariant |
| SetupAccountsRoute.SetupConsistent | src/app/api/setup-accounts/route.ts:14-92 | the setup keeps the invariant |
| SetupAccountsRoute.InstallCategories | src/app/api/setup-accounts/route.ts:83-92 | the new state is the old one plus the category batch |
| SetupAccountsRoute.Post | src/app/api/setup-accounts/route.ts:6-98 | 401 and no change without a session; no change when the user has any account; otherwise 24 accounts and 6 categories are created |
| RegisterRoute.StarterChartCodesDistinct | src/app/api/auth/register/route.ts:89-111 | the starter chart has 12 accounts with pairwise distinct codes |
| RegisterRoute.NewUser | src/app/api/auth/register/route.ts:40-47 | the new user keeps name and e-mail, with tier FREE and status ACTIVE |
| RegisterRoute.RegisterWithCreatesChart | src/app/api/auth/register/route.ts:113-120 | the new user owns one account per chart row, each active, balance 0, without description; every earlier account is unchanged |
| RegisterRoute.RegisterCreatesChart | src/app/api/auth/register/route.ts:88-120 | a registered user owns exactly 12 accounts, each active with balance 0, and no earlier account changes |
| RegisterRoute.RegisterWithConsistent | src/app/api/auth/register/route.ts:39-58 | adding a user with an unused e-mail plus a chart with distinct codes keeps the invariant |
| RegisterRoute.RegisterConsistent | src/app/api/auth/register/route.ts:39-58 | registration keeps the invariant |
| RegisterRoute.InsertUser | src/app/api/auth/register/route.ts:40-55 | the new state is the old one plus the user |
| RegisterRoute.Post | src/app/api/auth/register/route.ts:5-66 | missing field, short password (fewer than 8 UTF-16 units) and taken e-mail each give their 400 with no change; otherwise the user and the 12 starter accounts are created |
| InvoiceForm.AddItem | src/app/dashboard/invoices/create/page.tsx:121-133 | exactly one line is appended, with no description, quantity 1, price 0, total 0; the earlier lines are unchanged |
| InvoiceForm.RemoveItem | src/app/dashboard/invoices/create/page.tsx:135-140 | the remaining lines are exactly those with a different id |
| InvoiceForm.RemoveAbsent | src/app/dashboard/invoices/create/page.tsx:135-140 | removing an id no line has changes nothing |
| InvoiceForm.RemoveAppend | src/app/dashboard/invoices/create/page.tsx:135-140 | removal keeps relative order: it distributes over concatenation |
| InvoiceForm.ApplyEdit | src/app/dashboard/invoices/create/page.tsx:146-152 | a quantity or price edit recomputes total = quantity × price; a description or id edit keeps the total; only an id edit changes the id |
| InvoiceForm.UpdateItem | src/app/dashboard/invoices/create/page.tsx:142-157 | lines with the given id get the edit, every other line is unchanged, the length is kept |
| InvoiceForm.UpdateKeepsPriced | src/app/dashboard/invoices/create/page.tsx:147-151 | edits other than a direct total edit keep every line's total = quantity × price |
| InvoiceForm.PreviewAddsUp | src/app/dashboard/invoices/create/page.tsx:163-204 | in all four flag combinations, exclusive subtotal + tax = total |
| InvoiceForm.FiguresAgree | src/app/dashboard/invoices/create/page.tsx:163-204 | for the same sum, flags and rate the page's figures are the route's figures |
| InvoiceForm.ToggleExempt | src/app/dashboard/invoices/create/page.tsx:369-373 | ticking exempt sets the rate to 0, clearing it sets 0.15; nothing else changes |
| InvoiceForm.NothingSubmitted | src/app/dashboard/invoices/create/page.tsx:230 | no line is posted iff every description is blank after trimming |
| InvoiceForm.CheckedSave | src/app/dashboard/invoices/create/page.tsx:206-230 | refused iff there is no customer or no line with a non-blank description; otherwise the body has at least one line |
| InvoiceForm.SaveSendsNoItems | src/app/dashboard/invoices/create/page.tsx:212-230 | as written, a single line described " " passes the page's check yet posts no items |
| InvoiceForm.PreviewCountsBlankLines | src/app/dashboard/invoices/create/page.tsx:159-230 | as written, a described 100 line plus an undescribed 50 line shows 150 while 100 is posted |
| InvoiceForm.SubtotalOfPriced | src/app/dashboard/invoices/create/page.tsx:159-161 | when every line is priced, the page's subtotal is the route's item subtotal |
| InvoiceForm.PostedPreviewMatchesRoute | src/app/dashboard/invoices/create/page.tsx:159-230 | with priced lines, the preview of the posted lines equals the subtotal, tax and total the route stores |
| InvoiceActions.Actions | src/app/dashboard/invoices/page.tsx:404-497 | View always first; Edit, Send & Record Sale, Mark as Sent and Delete iff DRAFT; Mark as Paid and Cancel iff neither PAID nor CANCELLED |
| InvoiceActions.ClosedOnlyViewed | src/app/dashboard/invoices/page.tsx:455-497 | a PAID or CANCELLED invoice offers only View; a DRAFT offers all seven actions |
| InvoiceActions.RequestedStatus | src/app/dashboard/invoices/page.tsx:463-480 | the two status-change entries ask for one of the six statuses |
| InvoiceActions.StatusChangeNarrows | src/app/dashboard/invoices/page.tsx:455-486 | after a status change the page offers, the invoice offers strictly fewer actions, all of them offered before |
| InvoiceActions.OverdueIsOpen | src/app/dashboard/invoices/page.tsx:230-232 | overdue iff due date < now and neither PAID nor CANCELLED; an overdue invoice can be paid or cancelled |
| InvoiceActions.StatusTextKnown | src/app/dashboard/invoices/page.tsx:218-225 | each of the six statuses is labelled with its capitalised name |
| InvoiceActions.StatusTextOther | src/app/dashboard/invoices/page.tsx:226 | any other string is shown unchanged |
| QuickEntry.RevenueFor | src/components/transactions/QuickTransactionForm.tsx:163-183 | the chosen credit account is a loaded REVENUE account, and there is none iff no REVENUE account is loaded |
| QuickEntry.RevenueWithCategory | src/components/transactions/QuickTransactionForm.tsx:165-177 | a "sales" category takes the first sales-named REVENUE account; otherwise a "service" category takes the first service-named one; when that account does not exist or the category mentions neither word, the first REVENUE account |
| QuickEntry.ExpenseFor | src/components/transactions/QuickTransactionForm.tsx:186-226 | the chosen debit account is a loaded EXPENSE account, and there is none iff no EXPENSE account is loaded |
| QuickEntry.ExpenseWithoutCategory | src/components/transactions/QuickTransactionForm.tsx:209-220 | without a category: the first general/expense-named expense account, else the first expense account; income takes the first revenue account |
| QuickEntry.SaveSpec | src/components/transactions/QuickTransactionForm.tsx:139-232 | nothing is sent without description, account and positive amount, or for a transfer without a different destination; income debits the chosen account, expense credits it, transfer debits destination and credits source |
| QuickEntry.CashAccounts | src/components/transactions/QuickTransactionForm.tsx:280-289 | an account is offered iff it is a loaded ASSET account whose lower-cased name contains cash, bank, checking or savings |
| QuickEntry.CashAccountsAppend | src/components/transactions/QuickTransactionForm.tsx:280-289 | the filter keeps input order: the offer for a concatenation is the offers of its parts, in turn |
| QuickEntry.CashAccountsCoverDashboard | src/components/transactions/QuickTransactionForm.tsx:280-289 | every account the dashboard counts as cash is offered by the form |
| QuickEntry.SentEntryAccepted | src/components/transactions/QuickTransactionForm.tsx:234-248 | an entry the form sends, built from the caller's accounts, passes the transactions route's checks |
| CustomersPage.Initials | src/app/dashboard/customers/page.tsx:269-276 | the initials have at most two characters |
| CustomersPage.HeadsOfWords | src/app/dashboard/customers/page.tsx:269-273 | the joined first characters are the first characters of the non-empty words, in order |
| CustomersPage.InitialsSpec | src/app/dashboard/customers/page.tsx:269-276 | the initials are the upper-cased first characters of the first two non-empty words (empty, one or two) |
| CustomersPage.StartSave | src/app/dashboard/customers/page.tsx:156-174 | nothing happens while saving; an empty name is refused; otherwise the form is sent, as PUT iff a customer is being edited |
| CustomersPage.SentCreatePassesNameCheck | src/app/dashboard/customers/page.tsx:164-174 | a create request the page sends never fails the route's name check, and a blank form with only a name is stored with New Zealand and 30 days |
| CustomersPage.DeleteOnlyWithoutInvoices | src/app/dashboard/customers/page.tsx:428 | delete is enabled iff no invoice refers to the customer |
| AccountsPage.GroupByType | src/app/accounts/page.tsx:173-179 | keys in first-appearance order; each group is the accounts of that type in order and non-empty; absent types have no accounts; group sizes sum to the number of accounts |
| AccountsPage.SectionsPartition | src/app/accounts/page.tsx:173-179 | every account lies in exactly one type's group |
| AccountsPage.Labels | src/app/accounts/page.tsx:225 | the headings read Asset, Liability, Equity, Revenue and Expense |
| Text.Utf16Length | src/app/api/auth/register/route.ts:17 | `length` counts UTF-16 units: between the number of characters and twice that, and equal to it when no character lies outside the basic plane |
| RegisterRoute.AstralPasswordLongEnough | src/app/api/auth/register/route.ts:17 | four characters outside the basic plane are 8 units, so such a password passes the length check |
| Text.Capitalize | src/app/accounts/page.tsx:225 | same length, first character kept, the rest lower-cased |
| Text.DecimalRoundTrip | src/app/api/invoices/route.ts:155 | the decimal digits of n parse back to n |
| Text.ParseIntDigits | src/app/api/invoices/route.ts:154 | parseInt of a digit string is the number it denotes |
| Text.ParseIntNoDigit | src/app/api/invoices/route.ts:154 | parseInt of a string starting with a non-digit letter is NaN |
| Seqs.KeepFirstSpec | src/lib/business-intelligence/scoring-engine.ts:487 | `filter((x, i, s) => s.indexOf(x) === i)` keeps every value once, in first-appearance order |
| Scoring.GradeCountsBands | src/lib/business-intelligence/scoring-engine.ts:441-450 | a score's grade rank is the number of band thresholds (50, 60, 70, 75, 80, 85, 95) it reaches |
| Scoring.GradeMonotone | src/lib/business-intelligence/scoring-engine.ts:441-450 | a higher score never gets a lower grade |
| Scoring.Clamp | src/lib/business-intelligence/scoring-engine.ts:216 | the result is in [0, 100] and is the point of that range nearest to the score |
| Scoring.ClampKeepsGrade | src/lib/business-intelligence/scoring-engine.ts:216-217 | grading the raw score, as the source does, gives the same grade as grading the clamped one |
| Scoring.Apply | src/lib/business-intelligence/scoring-engine.ts:163-221 | the loop's score is the clamped base plus the rule points; the grade is that of the raw and of the clamped score; factors and insights are the rules' own, in order |
| Scoring.TrendSpec | src/lib/business-intelligence/scoring-engine.ts:452-468 | fewer than four months is stable; otherwise improving iff the recent mean exceeds the earlier mean by more than 10% of \|earlier\|, declining iff it falls short by more (division by zero included) |
| Scoring.CurrentRatioRule | src/lib/business-intelligence/scoring-engine.ts:169-188 | between −20 and +25 points |
| Scoring.TrendRule | src/lib/business-intelligence/scoring-engine.ts:191-200 | between −15 and +15 points |
| Scoring.WorkingCapitalRule | src/lib/business-intelligence/scoring-engine.ts:203-212 | between −15 and +10 points, whatever the quotient (infinite or NaN included) |
| Scoring.GrossMarginRule | src/lib/business-intelligence/scoring-engine.ts:229-248 | between −25 and +20 points |
| Scoring.EbitdaMarginRule | src/lib/business-intelligence/scoring-engine.ts:251-265 | between −20 and +15 points |
| Scoring.GrowthRule | src/lib/business-intelligence/scoring-engine.ts:268-279 | between −15 and +10 points |
| Scoring.DebtRule | src/lib/business-intelligence/scoring-engine.ts:295-314 | between −20 and +20 points |
| Scoring.CoverageRule | src/lib/business-intelligence/scoring-engine.ts:317-332 | between −20 and +15 points |
| Scoring.CustomerRule | src/lib/business-intelligence/scoring-engine.ts:348-358 | between −15 and +15 points |
| Scoring.AgeRule | src/lib/business-intelligence/scoring-engine.ts:361-371 | between −5 and +10 points |
| Scoring.InvoicingRule | src/lib/business-intelligence/scoring-engine.ts:374-383 | between 0 and +10 points |
| Scoring.TermsRule | src/lib/business-intelligence/scoring-engine.ts:386-393 | between −10 and +5 points |
| Scoring.ReportingRule | src/lib/business-intelligence/scoring-engine.ts:412-418 | 0 points with invoices, −20 without |
| Scoring.StructureRule | src/lib/business-intelligence/scoring-engine.ts:421-423 | never changes the score |
| Scoring.GstRule | src/lib/business-intelligence/scoring-engine.ts:426-429 | never changes the score |
| Scoring.LiquidityScore | src/lib/business-intelligence/scoring-engine.ts:163-221 | 50 plus the rule points, always within [0, 100], so the clamp never bites; grade of the score; the rules' factors and insights |
| Scoring.ProfitabilityScore | src/lib/business-intelligence/scoring-engine.ts:223-287 | the raw score lies in [−10, 95]; the score is its clamp, in [0, 95] |
| Scoring.LeverageScore | src/lib/business-intelligence/scoring-engine.ts:289-340 | 50 plus the rule points, always within [10, 85] |
| Scoring.OperationalScore | src/lib/business-intelligence/scoring-engine.ts:342-401 | 50 plus the rule points, always within [20, 90] |
| Scoring.ComplianceScore | src/lib/business-intelligence/scoring-engine.ts:403-437 | 80 (B+) with invoices, 60 (C) without |
| Scoring.CurrentRatioMonotone | src/lib/business-intelligence/scoring-engine.ts:172-186 | a higher current ratio never earns fewer points |
| Scoring.WorkingCapitalMonotone | src/lib/business-intelligence/scoring-engine.ts:203-212 | with non-negative revenue, more working capital never earns fewer points |
| Scoring.LiquidityRisesWithAssets | src/lib/business-intelligence/scoring-engine.ts:163-212 | with non-negative revenue, more current assets never lower the liquidity points |
| Scoring.ProfitabilityFallsWithExpenses | src/lib/business-intelligence/scoring-engine.ts:229-248 | more expenses never raise the profitability points |
| Scoring.LeverageFallsWithLiabilities | src/lib/business-intelligence/scoring-engine.ts:295-332 | with non-negative liabilities, more liabilities never raise the leverage points |
| Scoring.OperationalRisesWithCustomers | src/lib/business-intelligence/scoring-engine.ts:348-358 | more customers never lower the operational points |
| Scoring.Overall | src/lib/business-intelligence/scoring-engine.ts:127-133 | the overall score is in [0, 100] and within 0.5 of the weighted sum |
| Scoring.OverallOfEqualScores | src/lib/business-intelligence/scoring-engine.ts:82-88 | the weights sum to 1: five equal component scores give that score overall |
| Scoring.GatheredHas | src/lib/business-intelligence/scoring-engine.ts:473-476 | the gathered insights are exactly the components' insights |
| Scoring.GenerateInsights | src/lib/business-intelligence/scoring-engine.ts:470-488 | every component insight and each triggered warning is present; nothing else; no duplicates; first-appearance order |
| Scoring.Recommendations | src/lib/business-intelligence/scoring-engine.ts:490-517 | the cash-flow advice iff liquidity < 60, the profitability advice iff profitability < 60, nothing else, all High priority |
| Scoring.LoanEligibility | src/lib/business-intelligence/scoring-engine.ts:519-530 | each flag iff its score and revenue/EBITDA/growth condition; amount is the lesser of 25% of revenue and 5 × EBITDA; confidence ≥ 0.3 and ≤ 1 for scores ≤ 100 |
| Scoring.EligibilityMonotone | src/lib/business-intelligence/scoring-engine.ts:519-530 | a higher overall score never loses a flag or confidence and leaves the amount unchanged |
| Scoring.BenchmarkComparison | src/lib/business-intelligence/scoring-engine.ts:532-541 | percentile lies in [10, 90] and equals the score when the score does; industry is the given code, and never empty |
| Scoring.BenchmarkMonotone | src/lib/business-intelligence/scoring-engine.ts:536-538 | a higher overall score never gives a lower percentile or peer band |
| Scoring.Calculate | src/lib/business-intelligence/scoring-engine.ts:118-159 | each component is its scorer's ladder run on the data (`Scored`: clamped score, grade, factors, insights). The overall score is the rounded weighted sum, with its grade. The insights are the pushed messages with duplicates removed, in first-appearance order. Recommendations, loan eligibility and benchmark are those of the components and the overall score |

## Left out

- Password hashing (bcrypt), sessions and NextAuth are not modelled. A session is `Option<Id>`, and an authenticated caller is a registered user.
- Logging, HTTP response shapes beyond status and message, and the 500 paths for database failures are not modelled.
- Concurrency is not modelled: every route is one atomic step on the store, so the races between a uniqueness lookup and the insert are out of scope.
- Dates are integers (milliseconds). Date parsing, `toISOString` and time zones are not modelled, and the clock is a parameter `now`.
- The order in which the database returns rows (`orderBy` on type/code, name or `createdAt`) is a `listing` parameter, or journal order. Sorting is not modelled.
- `Number(decimal)` conversions and IEEE-754 rounding are not modelled: money is exact `real`, and the cent figures of the demo data are shown through `Math.round(100 × x)`.
- Case mapping (`toLowerCase`, `toUpperCase`) covers ASCII letters only.
- A JSON field that is absent, `null` or falsy is one value (`None`, `""` or `0`). The model does not tell `undefined` from `null`.
- `InvoicesRoute.Post`: requires 1 + rate ≠ 0 in GST-inclusive mode, because the source would store `Infinity`/`NaN` there. The same precondition is on `InvoiceForm`'s figures.
- `Reports.ProfitAndLoss`: states the expense total only as at least the unfiltered expense sum. The exact lines are given by `Reports.Section` and `Reports.SectionLines`.
- `QuickEntry.ExpenseFor`: the four-step fallback is stated exactly only without a category (`ExpenseWithoutCategory`). With a category, the contract states the kind and membership of the result.
- `CustomersPage.Initials`: models `word[0]` of an empty word as contributing nothing to the join. Characters outside the basic plane are not treated as surrogate pairs.
- `CustomersRoute.Page`: offset and limit are naturals. The route `parseInt`s both query parameters, and a NaN or negative value is not modelled: Prisma either rejects it as a 500 or reads a negative `take` as counting from the end.
- Customer search (`contains` over name, e-mail and company), `_count` and the `count` query of `GET /api/customers` are not modelled. Only the totals, the page slice and `hasMore` are.
- Category names are unique per tenant only as far as the categories route preserves it. The setup route adds its defaults without looking at existing categories, so this is not part of the store invariant.
- The other routes are not part of this model:
  - `customers/[id]` PUT and DELETE;
  - invoice `record-sale`, `pay`, edit and delete;
  - transaction edit and delete;
  - account edit;
  - health score;
  - `setup-db`, except for the schema constraints it states.
- The invoice `status` sent by the page is not modelled: the invoices route ignores it and stores DRAFT.
- Scoring data access is not modelled: `fetchBusinessData`, `calculateMonthlyCashFlow`, `calculateRevenueGrowthRate`, `saveHealthScore` and `loadDefaultBenchmarks`. The engine takes `BusinessData` as given. `calculatedAt` is not modelled. `keyStrengths` is modelled as the constant list the engine returns.
- The scorers' messages are modelled as the strings the source pushes. UI rendering, colours and dialogs are not modelled.

## Findings

| source | as written | input that shows it | evidently intended | confidence | as-written member | corrected member |
|---|---|---|---|---|---|---|
| src/app/dashboard/invoices/create/page.tsx:159-230 | the preview sums every line, but the posted body keeps only lines with a non-blank description, so the total shown differs from the total stored | one line "Consulting" 1 × 100 and one undescribed line 1 × 50, GST inclusive: the page shows 150, the route stores 100 | preview the lines that are posted | medium, not executed | InvoiceForm.PreviewCountsBlankLines | InvoiceForm.PostedPreviewMatchesRoute |
| src/app/dashboard/invoices/create/page.tsx:212-230 | the item check tests `!item.description` without trimming, while the body filter trims, so a line of spaces passes the check and an empty item list is posted (the route then answers 400) | a single line with description " " | refuse the save when no description is non-blank after trimming | medium, not executed | InvoiceForm.SaveSendsNoItems | InvoiceForm.CheckedSave |
