# Barakah web dashboard: a verified model of its client-side rules

Barakah is a personal-finance dashboard for Muslim households. Its web client
is a thin Next.js front end. The backend computes the domain figures, and the
client fetches them, renders them, and applies a set of small rules of its own:

- the demo Zakat calculator (2.5% due at or above a Nisab of 5686.2);
- Hawl progress against a 354-day lunar year;
- the one-third advisory check on Wasiyyah (will) shares;
- savings-goal totals and clamped percentages;
- the net-worth history, newest first, with its deltas;
- analytics rates, shares and ordering;
- Waqf sums per purpose, and auto-categorize counts per category;
- the halal-screener classification and its list search;
- price-symbol normalisation;
- holding-form normalisation and account-type labels;
- password-change validation;
- request composition in the HTTP client;
- the authentication session.

This project states those rules in Dafny and proves what they promise.

Layout:

- There is one module per page or library file.
- `Common` holds what they share: option values, order-keeping filters, sums over sequences, ASCII trim and case mapping, decimal rendering of naturals, grouping into a dictionary, dictionary entries, and a sort that puts the largest first.
- Where the page code changes component state step by step, the model is a class. Its fields are that state, and each handler is a method whose contract gives the whole new state.
- The pure expressions are functions, with lemmas about them.
- Every server reply, and whether a request failed, is a parameter of the handler that receives it.

## Model

| member | source | states |
|---|---|---|
| Dashboard.ZakatDue | app/page.js:329-330 | 2.5% of wealth when wealth reaches the Nisab, exactly 0 below it |
| Dashboard.ZakatTab | app/page.js:327-340 | total wealth is the sum of asset values; the obligatory flag and the message both hold iff wealth >= 5686.2; the due amount follows the flag |
| Dashboard.ObligatoryIffSomethingDue | app/page.js:330-338 | something is due exactly when Zakat is obligatory; at wealth equal to the Nisab it is due |
| Dashboard.ZakatDueBounds | app/page.js:330 | with non-negative wealth the due amount lies between 0 and the wealth |
| Dashboard.ZakatDueMonotone | app/page.js:330 | more wealth never means less Zakat |
| Dashboard.TotalWealthAdd | app/page.js:328 | adding an asset, at either end, adds its value to the total |
| Dashboard.ZakatOfAssets | app/page.js:327-330 | non-negative asset values give non-negative wealth and a due amount within it; no assets means nothing due |
| Dashboard.FirstThree | app/page.js:182-191 | `slice(0, 3)`: at most three elements, the first ones, in order |
| Dashboard.AmountSign | app/page.js:194-195 | '+' exactly for income, '-' otherwise |
| Dashboard.TransactionRows | app/page.js:191-195 | one row per transaction, in order, each with its sign |
| Dashboard.OverviewTab | app/page.js:177-202 | at most three assets and three transactions, the first ones, in input order |
| Dashboard.Outcome | app/page.js:389 | not_found when not found, halal when found and halal, haram otherwise |
| Dashboard.CheckPath | app/page.js:382 | the check path is the symbol upper-cased as typed |
| Dashboard.DashboardPage.constructor | app/page.js:10-13 | nothing loaded yet, loading |
| Dashboard.DashboardPage.LoadData | app/page.js:34-61 | stats, assets and transactions are replaced in that order, a missing list becoming empty; a `null` assets or transactions body stops the load there, keeping the later data; a failed request keeps everything; loading ends either way |
| Dashboard.AssetsTab.constructor | app/page.js:205-206 | form closed and empty with type cash |
| Dashboard.AssetsTab.ToggleForm | app/page.js:242 | the Add Asset button flips the form's visibility and keeps its contents |
| Dashboard.AssetsTab.AddAsset | app/page.js:208-235 | posts the form as typed; unless the request is rejected the form resets to name '', type cash, value '' and closes, and a refresh follows |
| Hawl.SplitIsPartition | src/app/dashboard/hawl/page.tsx:29-30 | complete items are exactly those with hawlComplete, pending exactly the rest; the lengths add up, the multisets add up, both keep input order |
| Hawl.Progress | src/app/dashboard/hawl/page.tsx:76 | the progress percentage is never negative |
| Hawl.ProgressEnds | src/app/dashboard/hawl/page.tsx:76 | 0 when a full year or more remains, exactly 100 when none remains |
| Hawl.ProgressMonotone | src/app/dashboard/hawl/page.tsx:76 | fewer days remaining never means less progress |
| Hawl.ProgressRange | src/app/dashboard/hawl/page.tsx:76 | within a year the value lies in 0..100; a negative remainder gives more than 100 (no upper clamp) |
| Hawl.DueRows | src/app/dashboard/hawl/page.tsx:55-66 | one Zakat-due row per complete item, in order, and every item gets one |
| Hawl.BarRows | src/app/dashboard/hawl/page.tsx:75-96 | one progress row per pending item, in order, with its days and non-negative progress |
| Hawl.Render | src/app/dashboard/hawl/page.tsx:29-101 | the two counts are the numbers of complete and pending items and add up to the total; the sections are the complete items' Zakat-due rows and the pending items' progress rows, in input order; only complete items show Zakat due, only pending items get a bar, and every item appears in its section; the empty message appears iff there are no items |
| Wasiyyah.MissingSharesCountZero | src/app/dashboard/wasiyyah/page.tsx:26 | beneficiaries without a share add nothing to the total |
| Wasiyyah.TotalShareAdd | src/app/dashboard/wasiyyah/page.tsx:26 | one more beneficiary raises the total by that share, 0 when missing |
| Wasiyyah.FromReply | src/app/dashboard/wasiyyah/page.tsx:24-30 | an array becomes a record with empty lastUpdated and the summed share; a record is kept unchanged; a null body gives no data |
| Wasiyyah.Load | src/app/dashboard/wasiyyah/page.tsx:24-31 | a failed request leaves the data null |
| Wasiyyah.BarWidth | src/app/dashboard/wasiyyah/page.tsx:54 | `Math.min(total, 100)`: never above 100, the total itself up to 100 |
| Wasiyyah.Render | src/app/dashboard/wasiyyah/page.tsx:36-54 | missing data shows no beneficiaries and total 0; "within 1/3" iff total <= 33.3, and the bar colour follows the same test; the bar width is clamped |
| Wasiyyah.ArrayReplyShowsItsSum | src/app/dashboard/wasiyyah/page.tsx:24-49 | an array reply shows that array and the sum of its shares, compared with one third |
| Savings.CappedPercent | src/app/dashboard/savings/page.tsx:66-75 | at most 100; the exact ratio up to the target; 100 at or beyond it; non-negative for non-negative savings |
| Savings.GoalPercent | src/app/dashboard/savings/page.tsx:75 | 0 without a positive target, otherwise the capped ratio, never above 100 |
| Savings.OverallBar | src/app/dashboard/savings/page.tsx:51-69 | the overall bar is drawn iff the total target is positive, never wider than 100 |
| Savings.AllReachedFillsBar | src/app/dashboard/savings/page.tsx:51-69 | when every goal reached its target and some target is positive, the bar is full |
| Savings.TotalsAdd | src/app/dashboard/savings/page.tsx:51-52 | a further goal adds its amounts to both totals |
| Savings.GoalsOf | src/app/dashboard/savings/page.tsx:19 | `d?.goals \|\| d \|\| []` on the three reply shapes |
| Savings.SavingsPage.constructor | src/app/dashboard/savings/page.tsx:9-15 | empty page, form reset, no dialog |
| Savings.SavingsPage.Load | src/app/dashboard/savings/page.tsx:17-20 | a reply replaces the goals, a failure keeps them, nothing else changes |
| Savings.SavingsPage.OpenContribute | src/app/dashboard/savings/page.tsx:84 | opens the dialog for the goal with an empty amount |
| Savings.SavingsPage.HandleSave | src/app/dashboard/savings/page.tsx:25-32 | posts the form; on success the form closes, resets and Create becomes disabled; a failure keeps the form |
| Savings.SavingsPage.HandleContribute | src/app/dashboard/savings/page.tsx:34-42 | nothing happens without a selected goal; otherwise posts the amount, and success closes the dialog and clears it |
| Savings.SavingsPage.HandleDelete | src/app/dashboard/savings/page.tsx:44-47 | deletes and reloads only once confirmed |
| NetWorth.Newest | src/app/dashboard/net-worth/page.tsx:37 | `sorted[0] \|\| null` |
| NetWorth.Change | src/app/dashboard/net-worth/page.tsx:56-57 | defined iff there are two or more snapshots, as the head's net worth minus the second one's |
| NetWorth.Rows | src/app/dashboard/net-worth/page.tsx:145-148 | one row per snapshot; each delta is against the next, older, snapshot; the last row has none |
| NetWorth.FirstRowIsChange | src/app/dashboard/net-worth/page.tsx:139-148 | the first row's delta is the banner's change with the same arrow, and the table is shown exactly when that change exists |
| NetWorth.RowsTail | src/app/dashboard/net-worth/page.tsx:145-148 | the rows after the first are the rows of the older snapshots |
| NetWorth.DeltasTelescope | src/app/dashboard/net-worth/page.tsx:146-148 | the deltas add up to the newest minus the oldest net worth |
| NetWorth.NetWorthPage.constructor | src/app/dashboard/net-worth/page.tsx:16-20 | empty history, no current snapshot, loading |
| NetWorth.NetWorthPage.Load | src/app/dashboard/net-worth/page.tsx:28-41 | the history is the reply sorted newest first (a permutation, on a copy), a null body gives an empty history, the current snapshot is its head; a failure sets the fixed error |
| NetWorth.NetWorthPage.TakeSnapshot | src/app/dashboard/net-worth/page.tsx:44-53 | success asks for a reload, failure sets the fixed error |
| Analytics.ColourIndex | src/app/dashboard/analytics/page.tsx:244 | `i % 15` is always a valid palette index |
| Analytics.ColourCycle | src/app/dashboard/analytics/page.tsx:19-23 | the palette repeats every 15 slices and neighbours differ |
| Analytics.SavingsRate | src/app/dashboard/analytics/page.tsx:103-106 | net over income times 100 when income is positive, else 0 |
| Analytics.SavingsRateRange | src/app/dashboard/analytics/page.tsx:103-106 | spending within income gives a rate in 0..100 |
| Analytics.Share | src/app/dashboard/analytics/page.tsx:335-338 | value over expenses times 100 when expenses are positive, else 0 |
| Analytics.CategoryShare | src/app/dashboard/analytics/page.tsx:335-338 | 0 also when there is no summary |
| Analytics.ShareIsScaled | src/app/dashboard/analytics/page.tsx:335-338 | a share is the value scaled by 100 / total |
| Analytics.SharesSumTo100 | src/app/dashboard/analytics/page.tsx:332-338 | when the rows add up to the expenses, their shares add up to 100 |
| Analytics.ExpenseData | src/app/dashboard/analytics/page.tsx:71-73 | one entry per expense category with its amount, every category present, empty without a summary |
| Analytics.IncomeData | src/app/dashboard/analytics/page.tsx:74-76 | the same for the income categories |
| Analytics.RowsOf | src/app/dashboard/analytics/page.tsx:334-338 | one table row per entry, in order, with its share |
| Analytics.RowsOfDescending | src/app/dashboard/analytics/page.tsx:332-334 | rows of entries sorted largest first are sorted the same way |
| Analytics.RowsOfCoverMap | src/app/dashboard/analytics/page.tsx:71-73 | rows built from any reordering of the entries hold every category exactly with its amount |
| Analytics.TopCategories | src/app/dashboard/analytics/page.tsx:318-338 | rows ordered by amount, largest first, one per expense category with its amount and share; none without a summary |
| Analytics.OverviewOf | src/app/dashboard/analytics/page.tsx:78-82 | each bar is its figure, or 0 when missing |
| Analytics.NoData | src/app/dashboard/analytics/page.tsx:157 | the placeholder appears iff income, expenses and net are all 0 |
| Analytics.AnalyticsPage.constructor | src/app/dashboard/analytics/page.tsx:32-37 | the month is selected, nothing loaded yet |
| Analytics.AnalyticsPage.SyncSummary | src/app/dashboard/analytics/page.tsx:54-58 | the summary becomes the selected period's if loaded, else stays |
| Analytics.AnalyticsPage.SelectPeriod | src/app/dashboard/analytics/page.tsx:54-116 | the period changes; the summary follows it only when that period is loaded |
| Analytics.AnalyticsPage.Load | src/app/dashboard/analytics/page.tsx:39-58 | all three summaries are stored together or not at all; the shown summary then follows the period |
| Waqf.AmountOrZero | src/app/dashboard/waqf/page.tsx:24 | `i.amount \|\| 0` |
| Waqf.PurposeTotals | src/app/dashboard/waqf/page.tsx:28-31 | one key per purpose occurring among the items, each holding the sum of that purpose's amounts (missing as 0); the sums add up to the total |
| Waqf.AppendItem | src/app/dashboard/waqf/page.tsx:24-31 | one more contribution raises its own purpose's sum and the total by its amount, leaving the other sums |
| Waqf.AbsentPurposeSumsToZero | src/app/dashboard/waqf/page.tsx:28-31 | a purpose no item has sums to 0 |
| Waqf.OrZero | src/app/dashboard/waqf/page.tsx:29 | `acc[p] \|\| 0`: a missing entry and NaN both read as 0 |
| Waqf.PlusAmount | src/app/dashboard/waqf/page.tsx:29 | adding an absent amount gives NaN, and only that |
| Waqf.PurposesAsWritten | src/app/dashboard/waqf/page.tsx:28-31 | the fold as written has one key per occurring purpose |
| Waqf.AsWrittenAgreesWhenPresent | src/app/dashboard/waqf/page.tsx:28-31 | with no amount absent (a `null` amount adds 0) the fold as written gives the true sums |
| Waqf.MissingAmountLosesEarlierSum | src/app/dashboard/waqf/page.tsx:24-31 | a contribution without an amount turns its purpose's sum into NaN, and the next one restarts it from 0 |
| Waqf.PluralEnding | src/app/dashboard/waqf/page.tsx:40 | "s" iff the count is not 1 |
| Waqf.DisplayName | src/app/dashboard/waqf/page.tsx:61 | the organisation when non-empty, else the purpose |
| Waqf.StatusBadge | src/app/dashboard/waqf/page.tsx:69-71 | no badge for an empty status, the green one exactly for ACTIVE |
| Waqf.WaqfPage.constructor | src/app/dashboard/waqf/page.tsx:16-17 | no items, loading |
| Waqf.WaqfPage.Load | src/app/dashboard/waqf/page.tsx:19-21 | the reply replaces the list, a failure keeps it |
| Categorize.ChangeableAreTheChanging | src/app/dashboard/categorize/page.tsx:39 | exactly the suggestions with wouldChange, in order |
| Categorize.Category | src/app/dashboard/categorize/page.tsx:41 | the suggested category, 'other' when empty |
| Categorize.CountIsOccurrences | src/app/dashboard/categorize/page.tsx:40-44 | adding 1 per suggestion of a category counts its occurrences |
| Categorize.OnesCount | src/app/dashboard/categorize/page.tsx:40-44 | adding 1 per suggestion counts the suggestions |
| Categorize.CategoryCounts | src/app/dashboard/categorize/page.tsx:40-44 | one key per occurring category (empty as 'other') mapped to its occurrence count; the counts add up to the number of suggestions; empty iff there are none |
| Categorize.Distribution | src/app/dashboard/categorize/page.tsx:74-82 | one chip per category with its count, largest count first |
| Categorize.Listed | src/app/dashboard/categorize/page.tsx:90 | the first 50 suggestions, in order |
| Categorize.FooterIffTruncated | src/app/dashboard/categorize/page.tsx:90-117 | the footer appears iff there are more than 50, exactly when the list leaves some out |
| Categorize.ConfidenceBand | src/app/dashboard/categorize/page.tsx:109 | green at 80 or more, amber from 60, grey below |
| Categorize.ColouredIffApplicable | src/app/dashboard/categorize/page.tsx:109 | a confidence is coloured exactly when apply would act on it |
| Categorize.OldCategoryLabel | src/app/dashboard/categorize/page.tsx:98 | the current category, 'none' when empty |
| Categorize.CategorizePage.constructor | src/app/dashboard/categorize/page.tsx:17-20 | no suggestions, loading, nothing applied |
| Categorize.CategorizePage.Load | src/app/dashboard/categorize/page.tsx:22-24 | the reply replaces the suggestions, a failure keeps them |
| Categorize.CategorizePage.HandleApply | src/app/dashboard/categorize/page.tsx:26-35 | applies with confidence 60; success marks the page applied, asks for the review again and hides the button; failure changes nothing |
| Halal.OrEmpty | src/app/dashboard/halal/page.tsx:22-25 | `x \|\| ''` |
| Halal.Query | src/app/dashboard/halal/page.tsx:19 | the query sent is the trimmed symbol upper-cased: non-empty, no outer white space, no lower case |
| Halal.ResultOf | src/app/dashboard/halal/page.tsx:20-27 | UNKNOWN with the fixed not-found reason when not found, HALAL when found and halal, HARAM otherwise; missing texts become '' |
| Halal.FailureResult | src/app/dashboard/halal/page.tsx:28 | on failure: UNKNOWN, the symbol upper-cased, empty name and sector, the fixed reason |
| Halal.FilterList | src/app/dashboard/halal/page.tsx:70-75 | an empty search keeps the whole list; otherwise exactly the entries whose lower-cased symbol, name or sector contains the lower-cased query |
| Halal.FilterListIsSubsequence | src/app/dashboard/halal/page.tsx:71-75 | the result keeps the list's order and is the plain filter by the query |
| Halal.LowerOfUpper | src/app/dashboard/halal/page.tsx:70 | lower-casing undoes upper-casing |
| Halal.SearchIgnoresCase | src/app/dashboard/halal/page.tsx:70-75 | typing the query in upper case finds the same entries |
| Halal.HalalPage.constructor | src/app/dashboard/halal/page.tsx:8-13 | empty symbol, no result, no list |
| Halal.HalalPage.HandleCheck | src/app/dashboard/halal/page.tsx:15-30 | a blank symbol sends nothing and changes nothing; otherwise sends the normalised query and shows the classified reply or the failure card |
| Halal.HalalPage.LoadList | src/app/dashboard/halal/page.tsx:32-36 | a reply replaces the list (empty without stocks) and shows it; a failure keeps both |
| Investments.FindType | src/app/dashboard/investments/page.tsx:182 | `find`: none iff no entry has the value, else the first that has it |
| Investments.TypeLabel | src/app/dashboard/investments/page.tsx:182 | an unknown type is shown as stored |
| Investments.KnownTypesGetTheirLabel | src/app/dashboard/investments/page.tsx:38-45 | every type of the table is shown with its own label |
| Investments.GainArrow | src/app/dashboard/investments/page.tsx:166-167 | the red arrow shows exactly for a present, negative gain |
| Investments.HoldingBadge | src/app/dashboard/investments/page.tsx:215-218 | Halal for true, Review for false, no badge when unknown |
| Investments.HoldingRequestOf | src/app/dashboard/investments/page.tsx:99-105 | the symbol upper-cased, the other fields as typed, the average cost standing in for an empty current price |
| Investments.InvestmentsPage.constructor | src/app/dashboard/investments/page.tsx:51-62 | no portfolio, empty forms, nothing expanded, loading |
| Investments.InvestmentsPage.Load | src/app/dashboard/investments/page.tsx:68-75 | an answer replaces the portfolio with its body (`null` included) and leaves the error cleared; a failure keeps the portfolio and sets the fixed error; loading ends; the expanded account, forms and saving flags are unchanged |
| Investments.InvestmentsPage.ToggleExpand | src/app/dashboard/investments/page.tsx:168-176 | clicking an expanded account collapses it, any other becomes the only one expanded |
| Investments.InvestmentsPage.OpenAddHolding | src/app/dashboard/investments/page.tsx:248 | targets the account with an empty form |
| Investments.InvestmentsPage.HandleAddHolding | src/app/dashboard/investments/page.tsx:95-111 | without a target (or target 0) nothing happens; otherwise posts the normalised holding, and success closes and empties the form |
| Investments.InvestmentsPage.HandleAddAccount | src/app/dashboard/investments/page.tsx:78-87 | posts the form; success closes and resets it |
| Prices.Normalise | src/app/dashboard/prices/page.tsx:23-26 | crypto: trimmed, lower-cased; stock: trimmed, upper-cased; empty iff the symbol is blank |
| Prices.PricePath | src/app/dashboard/prices/page.tsx:23-26 | the crypto or stock lookup path for the query |
| Prices.TrimOfTrimmed | src/app/dashboard/prices/page.tsx:23-26 | a string without outer white space is its own trim |
| Prices.NormaliseIdempotent | src/app/dashboard/prices/page.tsx:23-26 | normalising twice is normalising once |
| Prices.LowerOfLowerCase | src/app/dashboard/prices/page.tsx:23 | lower case is kept by lower-casing |
| Prices.UpperOfUpperCase | src/app/dashboard/prices/page.tsx:26 | upper case is kept by upper-casing |
| Prices.PopularCryptoSearchedAsShown | src/app/dashboard/prices/page.tsx:33-52 | every popular crypto chip is looked up exactly as shown |
| Prices.PopularStocksSearchedAsShown | src/app/dashboard/prices/page.tsx:34-52 | every popular stock chip is looked up exactly as shown |
| Prices.PricesPage.constructor | src/app/dashboard/prices/page.tsx:9-14 | crypto tab, empty symbol, no results, no error |
| Prices.PricesPage.HandleSearch | src/app/dashboard/prices/page.tsx:18-31 | a blank symbol sends nothing and changes nothing; otherwise the error and both results are cleared, the normalised symbol is looked up, and exactly the current tab's result or the fixed error is set; at most one result is ever set |
| Prices.PricesPage.Fetch | src/app/dashboard/prices/page.tsx:20-30 | the lookup of a non-blank symbol, with the clearing and the per-tab result or error |
| Prices.PricesPage.SwitchTab | src/app/dashboard/prices/page.tsx:41-42 | selects the tab and clears symbol, both results and error |
| Prices.PricesPage.PickPopular | src/app/dashboard/prices/page.tsx:52 | fills in the symbol only |
| Profile.Merge | src/app/dashboard/profile/page.tsx:53 | every field the reply carries replaces the old one, the rest are kept |
| Profile.MergeLaws | src/app/dashboard/profile/page.tsx:53 | an empty reply changes nothing, and merging the same reply twice is merging it once |
| Profile.FailureText | src/app/dashboard/profile/page.tsx:56-81 | an Error's message, else the fallback text |
| Profile.PasswordProblem | src/app/dashboard/profile/page.tsx:64-71 | a mismatch first, then a new password shorter than 8; none exactly when both checks pass |
| Profile.HintForetellsMismatch | src/app/dashboard/profile/page.tsx:64-66 | the inline hint foretells the mismatch error; with the button enabled and no hint there is no mismatch |
| Profile.FormatDate | src/app/dashboard/profile/page.tsx:87-90 | the placeholder dash for a missing or zero timestamp, the date otherwise |
| Profile.ProfilePage.constructor | src/app/dashboard/profile/page.tsx:16-27 | no profile, empty forms, loading |
| Profile.ProfilePage.LoadProfile | src/app/dashboard/profile/page.tsx:32-41 | a reply becomes the profile and fills the name form; a failure keeps both |
| Profile.ProfilePage.HandleSaveName | src/app/dashboard/profile/page.tsx:45-60 | posts the form; success merges the reply over an existing profile (a null profile stays null) with the success message; failure shows the error's text |
| Profile.ProfilePage.HandleChangePassword | src/app/dashboard/profile/page.tsx:62-85 | a failed check shows its error and sends nothing; otherwise sends the passwords, and success clears all three fields with the success message |
| Api.BaseUrl | src/lib/api.ts:1 | the configured base URL when set and non-empty, else the production host |
| Api.RequestUrl | src/lib/api.ts:13 | the base URL followed by the endpoint |
| Api.BearerCredentials | src/lib/api.ts:11 | reads the token back out of a bearer Authorization value (section 2.1 of RFC 6750) |
| Api.BuildHeaders | src/lib/api.ts:4-11 | JSON content type unless the caller sets one; the caller's other headers kept; Authorization `Bearer <token>` iff a non-empty token is stored, replacing the caller's |
| Api.BearerRoundTrip | src/lib/api.ts:11 | the token stored is the token the server reads |
| Api.Classify | src/lib/api.ts:18-25 | a failure throws the body text, or "API error <status>" without one; an empty success body gives null; otherwise the body is parsed |
| Api.ErrorNamesStatus | src/lib/api.ts:20 | every thrown message is non-empty, and a bodiless failure's message determines its status |
| Api.Get | src/lib/api.ts:47-50 | the value set for a key, none iff the key is absent |
| Api.Set | src/lib/api.ts:48-61 | `URLSearchParams.set`: the key then holds exactly the value, other keys are unchanged, keys stay unique |
| Api.GetOfUnique | src/lib/api.ts:47-50 | with unique keys a key's value is the one at its position |
| Api.TransactionParams | src/lib/api.ts:46-49 | type and limit are set only when truthy (0 and '' omitted), and nothing else is set |
| Api.TransactionsPath | src/lib/api.ts:46-50 | the list path followed by exactly that query |
| Api.BudgetParams | src/lib/api.ts:58-61 | month and year are set only when truthy, and nothing else is set |
| Api.BudgetsPath | src/lib/api.ts:58-62 | the list path followed by exactly that query |
| Api.ApplyCategoriesPath | src/lib/api.ts:127-128 | the confidence given, or 60 when omitted, in the query |
| Api.ApplyDefaultIsSixty | src/lib/api.ts:127-128 | omitting the confidence asks for exactly minConfidence=60 |
| Auth.RestoredFrom | src/context/AuthContext.tsx:27-35 | a session is restored iff a non-empty token and a user are both stored, and then they are the stored ones |
| Auth.ReplyId | src/context/AuthContext.tsx:41 | `data.userId \|\| data.id` |
| Auth.StoredUserId | src/context/AuthContext.tsx:40 | the stored userId falls back from userId to id to the e-mail |
| Auth.LoginUser | src/context/AuthContext.tsx:41-43 | the user's id from the reply, the name falling back to the e-mail |
| Auth.SignedInStore | src/context/AuthContext.tsx:39-50 | login and signup write token, userId and user and touch no other key |
| Auth.SignedOutStore | src/context/AuthContext.tsx:56-58 | logout removes exactly token, userId and user |
| Auth.LoginSurvivesReload | src/context/AuthContext.tsx:27-44 | after a login with a non-empty token, restoring finds the same token and user |
| Auth.SignupReloadAddsState | src/context/AuthContext.tsx:27-53 | after a signup, restoring finds the user with the state it stored, unlike the user held in memory |
| Auth.LogoutSurvivesReload | src/context/AuthContext.tsx:27-61 | after logout, restoring finds no session |
| Auth.AuthSession.constructor | src/context/AuthContext.tsx:23-25 | nobody signed in, loading |
| Auth.AuthSession.Restore | src/context/AuthContext.tsx:27-35 | token and user are set only when both are stored; loading ends either way; the store is only read |
| Auth.AuthSession.Login | src/context/AuthContext.tsx:37-44 | a failed request changes nothing; otherwise the reply's token, the fallback user id and the user are stored, and the session holds the same token and user |
| Auth.AuthSession.Signup | src/context/AuthContext.tsx:46-53 | as login, with the name typed by the caller, and the stored record carrying the state |
| Auth.AuthSession.Logout | src/context/AuthContext.tsx:55-61 | the three keys are removed, nothing else in the store changes, token and user become null |
| Auth.UseAuth | src/context/AuthContext.tsx:70-73 | the context inside a provider, the fixed error outside one |
| Common.GroupTotals | src/app/dashboard/waqf/page.tsx:28-31 | adding each value to its key's dictionary entry gives one key per occurring key, holding its group's sum; the entries add up to the total |
| Common.GroupsMakeTotal | src/app/dashboard/waqf/page.tsx:24-31 | the group sums over the distinct keys add up to the sum of all values |
| Common.Entries | src/app/dashboard/analytics/page.tsx:72 | `Object.entries`: one entry per key with its value, names distinct |
| Common.SortedDescendingBy | src/app/dashboard/net-worth/page.tsx:33-35 | sorting a copy: largest first, a permutation of the input, which is left as it was |
| Common.FilterPartition | src/app/dashboard/hawl/page.tsx:29-30 | a filter and its complement split the sequence: lengths and multisets add up |

## Left out

- Rendering is not modelled: JSX markup, CSS classes, modals, spinners and the recharts components.
- Number and date formatting (`Intl.NumberFormat`, `toFixed`, `toLocaleString`, `toLocaleDateString`) is not modelled. Money, percentages and counts are exact reals.
- IEEE-754 rounding is not modelled, and neither is `parseFloat`. Posted numbers keep the text the user typed, which `parseFloat` would read.
- NaN is modelled only where it changes a result: in the Waqf per-purpose fold.
- Dates are integer timestamps. `new Date(...)` parsing is not modelled, so the net-worth sort compares the timestamps directly.
- `fetch`, `async`/`await`, `Promise.all` and `JSON.parse` are not modelled.
- Each server reply, and whether a request threw, is a parameter of the handler that gets it.
- Loading flags are modelled only at a handler's start and end; React's intermediate renders are not.
- Sort stability and tie order are not modelled. The model promises a descending permutation and nothing about equal keys.
- Dictionary key order is not modelled. Dafny maps have no order, while JavaScript lists integer-like keys first and then keys in insertion order. Sums over a dictionary are stated over its keys in order of first occurrence.
- Trimming and case mapping are ASCII only. Unicode white space, non-ASCII case mapping and UTF-16 string length are not modelled.
- The query string is not percent-encoded; URLSearchParams would encode reserved characters.
- `localStorage` is a map from keys to stored values. The user record is kept as a value rather than its JSON text, so `JSON.stringify` followed by `JSON.parse` is taken to give the record back.
- Auth.AuthSession.Restore requires that the stored user entry be such a record. A `user` entry holding text that `JSON.parse` rejects makes the source throw, and that case is not modelled.
- The posthog telemetry calls are not modelled. They send the Zakat and halal figures to an analytics library, and the model keeps only the figures themselves (`Dashboard.ZakatTab`, `Dashboard.Outcome`).
- Deleting with a `confirm` dialog is modelled only for savings goals. The investments delete handlers do the same and are left out.
- The display-only pages are not modelled: zakat, assets, transactions, bills, debts, budget, sadaqah, riba and shared.
- The static, marketing, routing, login and signup pages are not modelled.
- The providers files and next.config.ts are not modelled.
- A null review body after applying categories, and a null reply to a profile update, are not distinguished from a list or a record.
- Profile.ProfilePage.LoadProfile and Profile.ProfilePage.HandleSaveName call `api.getProfile` and `api.updateProfile`, which src/lib/api.ts does not define. The model assumes such wrappers exist. As written, the load throws a TypeError before any request and loading never ends, while the save fails with that TypeError's message.
- NetWorth.NetWorthPage.Load and NetWorth.NetWorthPage.TakeSnapshot assume `api.getNetWorthHistory` and `api.takeNetWorthSnapshot` wrappers, which src/lib/api.ts does not define. As written, the load throws a TypeError after clearing the error and loading never ends, while the snapshot takes its failure path.
- Investments.InvestmentsPage.Load, Investments.InvestmentsPage.HandleAddAccount and Investments.InvestmentsPage.HandleAddHolding assume `api.getPortfolioSummary`, `api.addInvestmentAccount` and `api.addHolding` wrappers, which src/lib/api.ts does not define. As written, the load throws a TypeError after clearing the error and loading never ends, while both adds take their failure path.
- Waqf.WaqfPage.Load and Categorize.CategorizePage.Load take the reply as a list. `apiFetch` answers `null` for an empty successful body (src/lib/api.ts:24), the pages store that `null`, and their render then throws. That state is not modelled.
- Hawl.Render takes the items as a list. A `null` reply stored by the load (src/app/dashboard/hawl/page.tsx:22) makes the page's filters throw, and that is not modelled.
- Waqf.PurposeTotals and Categorize.CategoryCounts accumulate into a JavaScript `{}`, which inherits from `Object.prototype`. A purpose or category named after an inherited member, such as `constructor` or `toString`, starts from that function rather than from 0, and a `__proto__` key is not stored as an entry. The model's maps start empty and hold every key alike.
- Analytics.ExpenseData: the chart and the top-categories table share one array in the source, and the table sorts it in place (src/app/dashboard/analytics/page.tsx:332) after the pie's legend and cell colours were mapped over it in entry order (lines 243-258). The pie's slices are therefore drawn in amount order while the legend keeps entry order, so a colour can label a different category in the two. The model sorts a copy and keeps the chart's list in entry order. The aliasing and that colour mismatch are not modelled.
- Analytics.TopCategories sorts a copy of the expense list, not the list the chart holds. See the Analytics.ExpenseData line above.
- Api.TransactionsPath: states the path through the query's `Get` values and key uniqueness. The serialised text of that query is not tied to one parameter order.
- Api.BudgetsPath: the same as Api.TransactionsPath.

## Findings

| source | as written | input that shows it | evidently intended | confidence | as-written member | corrected member |
|---|---|---|---|---|---|---|
| src/app/dashboard/waqf/page.tsx:28-31 | `acc[p] = (acc[p] \|\| 0) + i.amount` adds the raw amount. An item without an amount makes its purpose's sum NaN. NaN is falsy, so the next item of that purpose restarts from 0. | Contributions of 100, then none, then 50, all for "masjid": the per-purpose line shows 50 while the total (line 24) counts 150. | Treat a missing amount as 0, as the total on line 24 does. The per-purpose sums then add up to the total. | not executed | Waqf.MissingAmountLosesEarlierSum | Waqf.PurposeTotals |
