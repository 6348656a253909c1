# InsightFlow dashboard core, modelled in Dafny

InsightFlow is a Next.js business-intelligence dashboard. Each signed-in user sees the
dashboard of their role: CEO, CFO, inventory head, sales manager or CMO. The dashboards
show figures derived from business records, such as sums, grouped totals, moving averages,
at-risk stock, anomaly alerts and prioritised action items. Some panels call AI "flows".
Accounts are Firebase accounts, and the session lives in a React provider backed by
browser storage.

This project models the part of that application that has logic of its own:

- **Derived tables** (`placeholder_data.dfy`): appointments per role, the moving and
  exponential moving averages, the monopoly curve table, the per-country sales metrics
  with the radar normalisation, and the duopoly demand table.
- **Role dashboards** (`inventory_dashboard.dfy`, `ceo_dashboard.dfy`,
  `cfo_dashboard.dfy`, `sales_manager_dashboard.dfy`, `cmo_dashboard.dfy`): the per-product
  monthly sales history, the at-risk classification, the stock-value treemap, the
  totals and guarded ratios, the action items, and the submit/ask/scan handlers.
  The CEO dashboard's `inventoryTreemapData` is the same reduce as the inventory
  dashboard's `treemapData`. It is defined once, as `InventoryDashboard.TreemapData`.
- **Shared widgets**: the action centre's priority sort (`action_center.dfy`) and the
  association heatmap (`association_heatmap.dfy`).
- **Flows**: the two AI flows with a body of their own (`detect_expense_anomalies.dfy`,
  `product_demand_forecast.dfy`). Each answers an empty input itself and otherwise calls
  the prompt once.
- **Accounts and session**: Firebase error translation and the error paths of the
  account service (`auth.dfy`), and the session provider (`auth_provider.dfy`).
- **Forms**: the sign-up and sign-in forms (`signup_form.dfy`, `login_form.dfy`).
- **Layout**: the header title and the sidebar rules (`app_header.dfy`, `app_sidebar.dfy`).

`types.dfy` holds the shared records and enums. `strings.dfy`, `sorting.dfy` and
`grouping.dfy` hold the JavaScript library behaviour the code relies on: prefix and
substring tests, `join`, the default string order, the stable `Array.prototype.sort`,
and group-by-key sums.

Code that updates state step by step is modelled imperatively:

- The session provider, the three dashboard handlers, the forms and the account service
  are classes. Their methods change their fields, and a ghost log records every external
  call and every navigation.
- The loops that fill a record or an array are methods with loop invariants. Each is
  proved against a specification function.

External things are parameters:

- The AI prompt or flow call is a function parameter returning `Outcome` (a value or
  the thrown message).
- Each Firebase call's result is a parameter, and so are `JSON.parse`, `JSON.stringify`
  and the clock.
- Number-to-text formatting is a parameter `showNumber`/`showPercent`.

Money, prices, campaign figures and the chart series are `real`. An inventory item's stock and a sales transaction's quantity are `int`.

## Model

| member | source | states |
|---|---|---|
| Types.ParseRoleType | src/types/index.ts:4-7 | a role-type string is accepted exactly when it is `user` or `administrator` |
| Types.RoleTypeRoundTrip | src/types/index.ts:4-7 | each role type's value parses back to it, and a parsed value prints as the input |
| Types.SpecificRoleEnumeration | src/types/index.ts:9-15 | exactly five specific roles, each with its own display string (`Inventory Head`, ...) that parses back to it |
| Types.ParseSpecificRole | src/types/index.ts:9-15 | a parsed specific role prints as the input string |
| Types.ScenarioEnumeration | src/types/index.ts:159 | the market scenario accepts exactly `rational`, `price_war` and `brand_loyal`, each parsing back to itself |
| Types.ParsePricingInput | src/types/index.ts:178-183 | the pricing input is accepted iff market type and scenario are in their enums; the prices pass through |
| Types.InsightsOfType | src/types/index.ts:89-98 | filtering insights by type keeps exactly the insights of that type |
| Types.InsightsOfTypeAppend | src/types/index.ts:89-98 | the type filter preserves order: filtering a concatenation concatenates the filtered parts |
| Types.LeadLabel | src/components/role-dashboards/sales-manager-dashboard.tsx:42 | `customerName \|\| itemId`: a present, non-empty name, else the item id |
| Types.MessageOr | src/components/role-dashboards/ceo-dashboard.tsx:46 | `e.message \|\| fallback`: the message when non-empty, else the fallback |
| Types.GuardedRatio | src/components/role-dashboards/sales-manager-dashboard.tsx:31 | a ratio guarded by a positive denominator: times the denominator it gives the numerator, else 0 |
| PlaceholderData.GetAppointmentsForRole | src/lib/placeholder-data.ts:104-124 | each specific role gets its own list; no role gets the general list |
| PlaceholderData.GeneralAppointments | src/lib/placeholder-data.ts:117-122 | the general list has three entries `gen1`, `gen2`, `gen3` |
| PlaceholderData.GeneralAppointmentsWellFormed | src/lib/placeholder-data.ts:117-122 | the general entries have distinct ids and HH:MM times, and YYYY-MM-DD dates whenever the date source gives them |
| PlaceholderData.MovingAverage | src/lib/placeholder-data.ts:370-377 | the output keeps the input's length, is null below `size-1` and holds the window mean of the last `size` values elsewhere |
| PlaceholderData.MovingAverageBounded | src/lib/placeholder-data.ts:370-377 | every moving average lies within the bounds of the data it averages |
| PlaceholderData.ExponentialMovingAverage | src/lib/placeholder-data.ts:381-390 | empty input gives empty output; otherwise it is seeded with `data[0]` and follows `out[i] = a*data[i] + (1-a)*out[i-1]` |
| PlaceholderData.EmaBounded | src/lib/placeholder-data.ts:381-390 | with a smoothing factor in [0, 1] every smoothed value stays within the data's bounds |
| PlaceholderData.MonopolyData | src/lib/placeholder-data.ts:317-354 | 23 rows sorted by quantity: the 21 curve rows q = 0..1000 step 50, then the decision and price rows, which stay in push order at q = 380 |
| PlaceholderData.MonopolyDecisionPoint | src/lib/placeholder-data.ts:331-350 | MR = MC exactly at q = 380, where both are 48 and demand is 124, matching the two marker rows |
| PlaceholderData.CountryTransactionsCounted | src/lib/placeholder-data.ts:444-451 | only transactions from a target country, not cancelled and with a truthy total price are grouped |
| PlaceholderData.GroupByCountry | src/lib/placeholder-data.ts:444-451 | the `salesByCountry` record holds, per country, exactly its counted transactions in input order, and only non-empty groups |
| PlaceholderData.CountryMetrics | src/lib/placeholder-data.ts:455-462 | per country: revenue and quantity are sums, customers and orders are distinct counts (at least 1 when there are rows), avgPrice is revenue/quantity or 0 |
| PlaceholderData.UnsortedMetrics | src/lib/placeholder-data.ts:454-462 | one row per target country, in list order, with that country's metrics |
| PlaceholderData.RawMetrics | src/lib/placeholder-data.ts:454-463 | the five rows sorted by total revenue, highest first, as a permutation of the per-country rows |
| PlaceholderData.RawMetricsTieOrder | src/lib/placeholder-data.ts:463 | the sort is stable: rows with equal revenue keep target-country order |
| PlaceholderData.RawMetricsCountries | src/lib/placeholder-data.ts:454-463 | the sorted rows hold each target country exactly once with its own metrics |
| PlaceholderData.MaxValue | src/lib/placeholder-data.ts:471-475 | `Math.max` over the rows: an upper bound attained by some row |
| PlaceholderData.RadarEntryFor | src/lib/placeholder-data.ts:486-496 | one subject's entry has a key per country row (`United Kingdom` keyed `UK`), each value normalised by the subject's maximum |
| PlaceholderData.RadarData | src/lib/placeholder-data.ts:486-496 | five entries, one per subject in subject order |
| PlaceholderData.RowKeys | src/lib/placeholder-data.ts:490-491 | the five rows have five different legend keys, which are exactly the radar keys |
| PlaceholderData.LeaderScoresOne | src/lib/placeholder-data.ts:493 | with a positive maximum the leading country scores exactly 1; no score exceeds 1; with no positive maximum all scores are 0 |
| PlaceholderData.CountryConfigMatchesTargets | src/lib/placeholder-data.ts:498-504 | the legend entries are the target countries' keys, in target order |
| PlaceholderData.GetCountryMetricsData | src/lib/placeholder-data.ts:439-506 | the bar-chart form returns the sorted raw rows; otherwise five radar entries over those rows and the legend config |
| PlaceholderData.Clamp | src/lib/placeholder-data.ts:572-573 | `Math.max(0, x)` is non-negative, at least x, and x or 0 |
| PlaceholderData.RowFromDemands | src/lib/placeholder-data.ts:569-576 | both demands are clamped at 0; each revenue is the clamped demand times the respective price, non-negative for non-negative prices |
| PlaceholderData.GenerateDuopolyData | src/lib/placeholder-data.ts:524-578 | 11 rows, row i at our price 50 + 10i, each the scenario's row at the competitor price |
| PlaceholderData.RationalUndercut | src/lib/placeholder-data.ts:533-543 | under `rational`, undercutting zeroes the competitor's demand and revenue, overpricing zeroes ours, and equal prices split demand equally |
| InventoryDashboard.ProductSalesSpec | src/components/role-dashboards/inventory-dashboard.tsx:45 | every kept row is a row of the transactions with the stock code, a positive quantity and no cancellation, and every such row is kept |
| InventoryDashboard.ProductSalesAppend | src/components/role-dashboards/inventory-dashboard.tsx:44-45 | the forEach keeps transaction order: the kept rows of a concatenation are the kept rows of each part, in order |
| InventoryDashboard.MonthlySales | src/components/role-dashboards/inventory-dashboard.tsx:42-49 | the `monthlySales` record has one key per month of a kept row, each holding that month's total quantity |
| InventoryDashboard.HistoricalProductSalesData | src/components/role-dashboards/inventory-dashboard.tsx:41-54 | the series is a `MonthlyHistory`: strictly ascending by month, listing every kept row's month and no other, each with its month's total; it also preserves the total quantity |
| InventoryDashboard.MonthlyHistoryEmpty | src/components/role-dashboards/inventory-dashboard.tsx:41-54 | a monthly history is empty exactly when the product has no kept row |
| InventoryDashboard.AtRiskReasonOf | src/components/role-dashboards/inventory-dashboard.tsx:133-141 | stock < 50 is critical; otherwise stock < 100 with a high-demand id is high demand; anything else is not at risk |
| InventoryDashboard.Flagged | src/components/role-dashboards/inventory-dashboard.tsx:132-142 | the filtered list holds exactly the items with a reason, each tagged with its own reason |
| InventoryDashboard.AtRiskItemsSpec | src/components/role-dashboards/inventory-dashboard.tsx:132-143 | the at-risk list is a permutation of the flagged items and every critical item precedes every high-demand one |
| InventoryDashboard.InventoryActionItems | src/components/role-dashboards/inventory-dashboard.tsx:145-162 | min(2, at-risk count) High `Action Required` alerts for the first at-risk items, each titled with that item's reason and name and describing its stock, then exactly the market-basket item |
| InventoryDashboard.CriticalAlertFirst | src/components/role-dashboards/inventory-dashboard.tsx:143-153 | when any item is critically low, the first alert is for a critically low item |
| InventoryDashboard.CategoryName | src/components/role-dashboards/inventory-dashboard.tsx:119 | `category \|\| 'Uncategorized'` is never empty and keeps a non-empty category |
| InventoryDashboard.TreemapData | src/components/role-dashboards/inventory-dashboard.tsx:118-128 | one entry per category in first-seen order, each the category's total stock value; together they hold the total stock value |
| InventoryDashboard.FindEntry | src/components/role-dashboards/inventory-dashboard.tsx:120 | `acc.find` by name: the first entry with the name, or none |
| Types.FindFirst | src/components/role-dashboards/inventory-dashboard.tsx:79 | `find` by id (also the CFO dashboard's transaction lookup): the first element with the id, or none exactly when no element has it |
| InventoryDashboard.InventoryDashboard.OnForecastSubmit | src/components/role-dashboards/inventory-dashboard.tsx:74-111 | an unknown product sets the not-found error and calls nothing; otherwise the flow gets the first matching product's name and the product's `MonthlyHistory` once, the prompt is called exactly when the product has kept sales, and the result or the message (with its fallback) is stored; forecasting ends false |
| CeoDashboard.TotalProfitIsNet | src/components/role-dashboards/ceo-dashboard.tsx:58-60 | when each month's profit is revenue less expenses, total profit is total revenue less total expenses |
| CeoDashboard.FinancialDataWithMovingAverage | src/components/role-dashboards/ceo-dashboard.tsx:90-97 | keeps length and every record; the average is null exactly at the first two entries |
| CeoDashboard.AverageIsWindowMean | src/components/role-dashboards/ceo-dashboard.tsx:94-95 | entry i's average is the three-month mean of revenue ending at i, the same window mean as `movingAverage` |
| CeoDashboard.RenderSuggestedChart | src/components/role-dashboards/ceo-dashboard.tsx:117-130 | no chart without a response, without a suggestion or for `None`; each other suggestion selects its own chart |
| CeoDashboard.SuggestedChartsDistinct | src/components/role-dashboards/ceo-dashboard.tsx:120-127 | different suggestions never select the same chart |
| CeoDashboard.CeoDashboard.HandleAskQuestion | src/components/role-dashboards/ceo-dashboard.tsx:36-56 | an empty question changes nothing and calls nothing; otherwise the flow is called once, the answer or the message (with its fallback) is stored, and asking ends false |
| CeoDashboard.CeoActionItemsShownInOrder | src/components/role-dashboards/ceo-dashboard.tsx:99-103 | the fixed CEO items are already in priority order |
| CfoDashboard.NetProfitIsTotalProfit | src/components/role-dashboards/cfo-dashboard.tsx:57-59 | net profit equals the sum of monthly profits when each is revenue less expenses |
| CfoDashboard.GetSeverityBadge | src/components/role-dashboards/cfo-dashboard.tsx:69-76 | High gives destructive, Medium secondary, Low outline |
| CfoDashboard.SeverityBadgesDistinct | src/components/role-dashboards/cfo-dashboard.tsx:69-76 | the three severities get three different badges; only High shares the action centre's High badge |
| CfoDashboard.HighAnomalies | src/components/role-dashboards/cfo-dashboard.tsx:78 | keeps exactly the High anomalies |
| CfoDashboard.HighAnomaliesAppend | src/components/role-dashboards/cfo-dashboard.tsx:78 | the High filter keeps anomaly order |
| CfoDashboard.CfoActionItems | src/components/role-dashboards/cfo-dashboard.tsx:78-88 | empty before a scan; afterwards one High `Action Required` item per High anomaly, in order, keyed by its transaction id with the AI reason, titled with the vendor and amount of the first transaction with that id or `undefined` when there is none |
| CfoDashboard.EmptyStateMessage | src/components/role-dashboards/cfo-dashboard.tsx:102 | the no-anomalies message after a scan, the run-a-scan message before one |
| CfoDashboard.CfoCardEmptyState | src/components/role-dashboards/cfo-dashboard.tsx:98-104 | the card is empty exactly before a scan or when no anomaly is High, with the matching message |
| CfoDashboard.CfoDashboard.HandleAnomalyScan | src/components/role-dashboards/cfo-dashboard.tsx:31-54 | runs the anomaly flow on the expenses; the anomalies or the message (with its fallback) are stored, and scanning ends false |
| SalesManagerDashboard.ConversionRate | src/components/role-dashboards/sales-manager-dashboard.tsx:30 | deals per lead in percent when there are leads, else 0 |
| SalesManagerDashboard.ConversionRateIsPercentage | src/components/role-dashboards/sales-manager-dashboard.tsx:30 | with no more deals than leads the rate lies in [0, 100] |
| SalesManagerDashboard.AvgDealSize | src/components/role-dashboards/sales-manager-dashboard.tsx:31 | sales per deal when there are deals, else 0 |
| SalesManagerDashboard.ActiveLeads | src/components/role-dashboards/sales-manager-dashboard.tsx:79 | active leads plus deals make up the leads |
| SalesManagerDashboard.SalesTrend | src/components/role-dashboards/sales-manager-dashboard.tsx:60-61 | `+` prefix and green exactly when sales reach the target, otherwise no prefix and red |
| SalesManagerDashboard.TrendSignMatchesPercent | src/components/role-dashboards/sales-manager-dashboard.tsx:60 | the `+` prefix appears exactly when the percentage to target is non-negative |
| SalesManagerDashboard.SalesActionItems | src/components/role-dashboards/sales-manager-dashboard.tsx:33-46 | at most three High items, the first purchase-likelihood insights in order, keyed by item id and titled with the lead label |
| SalesManagerDashboard.SalesActionItemsSource | src/components/role-dashboards/sales-manager-dashboard.tsx:33-46 | every sales item comes from a purchase-likelihood insight |
| SalesManagerDashboard.TeamChartSpec | src/components/role-dashboards/sales-manager-dashboard.tsx:97 | the chart is a permutation of the first five reps, highest sales first, ties in original order |
| CmoDashboard.Cac | src/components/role-dashboards/cmo-dashboard.tsx:18 | spend per conversion when there are conversions, else 0 |
| CmoDashboard.LeadConversionDataSpec | src/components/role-dashboards/cmo-dashboard.tsx:20-22 | exactly the lead-conversion insights, in original order |
| CmoDashboard.HighValueLeads | src/components/role-dashboards/cmo-dashboard.tsx:27 | keeps exactly the insights predicted `High-Value Lead` |
| CmoDashboard.HighValueLeadsAppend | src/components/role-dashboards/cmo-dashboard.tsx:27 | the filter keeps lead order and multiplicity, so `slice(0, 2)` takes the first two high-value leads |
| CmoDashboard.CmoActionItems | src/components/role-dashboards/cmo-dashboard.tsx:26-43 | up to two High lead items for the first high-value leads, then exactly the Medium sentiment item |
| CmoDashboard.CmoActionItemsSpec | src/components/role-dashboards/cmo-dashboard.tsx:26-43 | one to three items, every lead item from a high-value lead-conversion insight |
| CmoDashboard.RoasChartData | src/components/role-dashboards/cmo-dashboard.tsx:134 | exactly the campaigns whose status is not `Active` |
| CmoDashboard.RoasChartDataAppend | src/components/role-dashboards/cmo-dashboard.tsx:134 | the chart's campaigns keep their order and multiplicity |
| ActionCenter.SortedItemsSpec | src/components/action-center.tsx:51-54 | the displayed list is a permutation of the items, High before Medium before Low, equal priorities in their original order |
| ActionCenter.GetPriorityStyles | src/components/action-center.tsx:25-48 | High gives the destructive border, Medium yellow, Low blue, anything else muted |
| ActionCenter.PriorityStylesDistinct | src/components/action-center.tsx:25-48 | the three priorities get three different borders, none of them the muted default |
| ActionCenter.BadgeVariant | src/components/action-center.tsx:75 | the badge is destructive exactly for High |
| ActionCenter.Render | src/components/action-center.tsx:50-89 | the sorted items, or the empty state exactly for an empty list, with the given or the default message |
| AssociationHeatmap.RuleItems | src/components/charts/association-heatmap.tsx:30-34 | the item set holds exactly the antecedents and consequents of the rules |
| AssociationHeatmap.BuildItems | src/components/charts/association-heatmap.tsx:30-36 | `items` is strictly ascending (so each item once) and holds exactly the rule items |
| AssociationHeatmap.BuildMatrix | src/components/charts/association-heatmap.tsx:38-42 | a key is present exactly when some rule has it, holding the last such rule's confidence |
| AssociationHeatmap.LastRuleWins | src/components/charts/association-heatmap.tsx:39-42 | a rule that no later rule shares its key with keeps its confidence in the matrix |
| AssociationHeatmap.UnusedKeyAbsent | src/components/charts/association-heatmap.tsx:39-42 | a key no rule has is absent |
| AssociationHeatmap.CellAt | src/components/charts/association-heatmap.tsx:69-73 | diagonal cells are blank; other cells read key `a_c`, 0 when absent |
| AssociationHeatmap.MultiItemRuleNeverShown | src/components/charts/association-heatmap.tsx:38-73 | a rule with more than one antecedent or consequent never matches the key of a cell whose item names hold no comma |
| AssociationHeatmap.BackgroundColor | src/components/charts/association-heatmap.tsx:18-22 | the background variable exactly for confidence 0 |
| AssociationHeatmap.TextColor | src/components/charts/association-heatmap.tsx:24-26 | primary-foreground exactly above 0.6, foreground otherwise |
| AssociationHeatmap.CellLabel | src/components/charts/association-heatmap.tsx:81 | the label is empty exactly when confidence is not positive |
| DetectExpenseAnomalies.DetectExpenseAnomalies | src/ai/flows/detect-expense-anomalies.ts:76-82 | an empty list gives no anomalies without a prompt call; otherwise exactly one call with the input, whose answer is returned |
| DetectExpenseAnomalies.SeverityEnumeration | src/ai/flows/detect-expense-anomalies.ts:32 | severity accepts exactly High, Medium and Low, each parsing back |
| DetectExpenseAnomalies.TransactionsBlockAppend | src/ai/flows/detect-expense-anomalies.ts:64-66 | the transaction block is one block per transaction, concatenated in input order |
| DetectExpenseAnomalies.TransactionLineShape | src/ai/flows/detect-expense-anomalies.ts:65 | each line starts with `- ID: ` and the transaction's id |
| ProductDemandForecast.ForecastProductDemand | src/ai/flows/product-demand-forecast.ts:97-110 | an empty history gives the canned result without a prompt call; otherwise exactly one call with the input, whose answer is returned |
| ProductDemandForecast.NoHistoryResultSpec | src/ai/flows/product-demand-forecast.ts:99-105 | the canned result echoes id and name, forecasts nothing, has confidence `N/A`, and its commentary names the product and its id |
| ProductDemandForecast.MarketTrendsBlock | src/ai/flows/product-demand-forecast.ts:70-75 | a present, non-empty trends text is included; otherwise the fixed no-trends sentence |
| Auth.GetErrorMessage | src/lib/auth.ts:150-171 | each of the eight codes gets its own message; any other or missing code gets the generic one |
| Auth.ErrorMessagesDistinct | src/lib/auth.ts:150-171 | a known code's message is not the generic one and identifies the code |
| Auth.TranslatedMessagesNonEmpty | src/lib/auth.ts:150-171 | every translated message is non-empty |
| Auth.SignOut | src/lib/auth.ts:84-90 | a failed sign-out always gives the fixed sign-out message |
| Auth.ResetPassword | src/lib/auth.ts:93-99 | a failed reset gives the translated message of its code |
| Auth.AuthService.SignUp | src/lib/auth.ts:17-52 | succeeds exactly when all three steps do, writing and returning the record with displayName = username, the given roles and the two clock readings; any failure writes nothing and gives its code's message |
| Auth.AuthService.SignIn | src/lib/auth.ts:55-81 | succeeds exactly for an existing record with all steps done, storing the record with one clock reading as its last login and returning it with the other; failures give their code's message, and a missing record gives the generic message |
| Auth.MissingProfileMessageLost | src/lib/auth.ts:63-64 | the message thrown for a missing record is replaced by the generic one in the catch |
| Auth.AuthService.SignInCorrected | src/lib/auth.ts:55-81 | sign-in with a missing record reporting its own message, otherwise as `SignIn` |
| AuthProvider.AuthProvider.LoadStoredUser | src/components/auth/auth-provider.tsx:28-42 | a stored user that parses is restored with its roles; one that does not is removed; loading ends false; the role invariant holds |
| AuthProvider.AuthProvider.Login | src/components/auth/auth-provider.tsx:54-60 | stores and sets the user and its roles, navigates to `/dashboard` |
| AuthProvider.AuthProvider.Logout | src/components/auth/auth-provider.tsx:62-68 | removes the stored user, clears user and roles, navigates to `/login` |
| AuthProvider.AuthProvider.Redirect | src/components/auth/auth-provider.tsx:44-52 | navigates exactly to the redirect target, changing nothing else |
| AuthProvider.RedirectTarget | src/components/auth/auth-provider.tsx:44-52 | none while loading; `/login` without a user away from it; `/dashboard` with a user on it; otherwise none |
| AuthProvider.Render | src/components/auth/auth-provider.tsx:70-99 | the loading screen, the redirecting screen or the children, under exactly the source's conditions |
| AuthProvider.GateMatchesRedirect | src/components/auth/auth-provider.tsx:44-99 | the redirecting screen shows exactly while a redirect to `/login` is due; protected pages render only for a signed-in user |
| AuthProvider.UseAuth | src/components/auth/auth-provider.tsx:103-108 | the context inside a provider; outside, the fixed error |
| SignupForm.ValidateForm | src/components/auth/signup-form.tsx:40-72 | no message exactly when all six checks pass; a message is one of the six |
| SignupForm.ValidateFormFirstFailure | src/components/auth/signup-form.tsx:40-72 | message i is shown exactly when check i fails and all earlier checks pass |
| SignupForm.ValidFormFacts | src/components/auth/signup-form.tsx:40-72 | a valid form has an email with `@`, a password of 6+ typed twice, a username of 3+, and a role for User accounts |
| SignupForm.RequestOf | src/components/auth/signup-form.tsx:85-91 | the request passes the fields, with the specific role only for User accounts |
| SignupForm.ValidRequestRoleConsistent | src/components/auth/signup-form.tsx:66-91 | a validated form's request carries a specific role exactly for User accounts, so the user record written for it is role-consistent |
| SignupForm.RoleTypeChanged | src/components/auth/signup-form.tsx:207-215 | switching to Administrator clears the role; switching to User keeps a chosen role or picks CEO |
| SignupForm.RoleChangePassesRoleCheck | src/components/auth/signup-form.tsx:207-215 | after any account-type change the role check passes |
| SignupForm.SignupForm.OnRoleTypeChange | src/components/auth/signup-form.tsx:207-215 | the fields become the role-changed fields; nothing else changes |
| SignupForm.SignupForm.HandleSubmit | src/components/auth/signup-form.tsx:74-100 | an invalid form shows its message and calls nothing; otherwise one sign-up call, a created user is logged in (provider user, roles and saved session set, navigation to `/dashboard`), a failure shows its message and leaves the provider unchanged, loading ends false; the provider's loading flag is never changed |
| LoginForm.LoginCheck | src/components/auth/login-form.tsx:37-45 | the missing-fields message iff a field is empty; the email message iff both are filled and the email lacks `@`; none otherwise |
| LoginForm.SignupCredentialsPassLoginCheck | src/components/auth/login-form.tsx:37-45 | credentials the sign-up form accepts always pass the sign-in checks |
| LoginForm.LoginForm.HandleSubmit | src/components/auth/login-form.tsx:33-57 | clears the error; a failed check shows its message and calls nothing; otherwise one sign-in call, a user is logged in (provider user, roles and saved session set, navigation to `/dashboard`), a failure shows its message and leaves the provider unchanged, loading ends false; the provider's loading flag is never changed |
| LoginForm.LoginForm.HandleForgotPassword | src/components/auth/login-form.tsx:59-72 | without an email asks for one and calls nothing; otherwise one reset call, success clears the error, failure shows its message |
| AppHeader.GetPageTitleIsFirstMatch | src/components/layout/app-header.tsx:9-19 | the title is the first-match lookup over the route table in its order |
| AppHeader.FirstMatchSpec | src/components/layout/app-header.tsx:10-17 | when a route's prefix is the first one the path starts with, that route's title is shown |
| AppHeader.NoMatchGivesDefault | src/components/layout/app-header.tsx:18 | no matching prefix gives `InsightFlow` |
| AppHeader.PageTitleCases | src/components/layout/app-header.tsx:9-19 | the title is one of eight fixed titles, every `/dashboard...` path gives Dashboard, and an unmatched path gives InsightFlow |
| AppSidebar.ActiveItems | src/components/layout/app-sidebar.tsx:97-100 | the active items are exactly those whose href is the path, plus the dashboard item under `/dashboard` |
| AppSidebar.ActiveItemUnique | src/components/layout/app-sidebar.tsx:97-100 | at most one item is active; the dashboard item is active under `/dashboard`; others only on their own path |
| AppSidebar.RoleDisplayName | src/components/layout/app-sidebar.tsx:74-77 | Administrator for administrators, else the specific role's name, else `User` |
| AppSidebar.RoleDisplayNameDistinct | src/components/layout/app-sidebar.tsx:74-77 | the label is never empty and tells non-administrator roles apart |
| AppSidebar.CurrentRoleIcon | src/components/layout/app-sidebar.tsx:79-84 | the administrator icon, else the specific role's icon, else the default |
| AppSidebar.RoleIconMatchesLabel | src/components/layout/app-sidebar.tsx:60-84 | two users get the same icon exactly when they get the same role label |
| AppSidebar.RoleSuffix | src/components/layout/app-sidebar.tsx:135 | the ` of UrbanCart` suffix appears exactly for User accounts |
| AppSidebar.AvatarInitial | src/components/layout/app-sidebar.tsx:119-125 | the upper-cased first character, empty exactly for an empty username |
| AppSidebar.AvatarInitialCaseInsensitive | src/components/layout/app-sidebar.tsx:119-125 | names differing only in the case of the first letter share the initial, which is never a lower-case letter |
| Sorting.SortSpec | src/components/action-center.tsx:51-54 | the stable sort returns a sorted permutation that keeps the order of equal keys |
| Strings.SortedElements | src/components/charts/association-heatmap.tsx:36 | `Array.from(set).sort()`: strictly ascending, exactly the set's elements |
| Grouping.PartitionTotal | src/components/role-dashboards/inventory-dashboard.tsx:118-128 | the per-key totals over the first-seen keys add up to the whole sum |

## Left out

- Rendering, JSX and every chart other than the heatmap. Genkit prompt definitions, Handlebars escaping and schema validation are also left out. The prompt call is an oracle parameter, and the six pass-through flows hold no logic.
- Firebase Auth and Firestore are not called. Each call's success or failure, each reading of the clock (two per `signUp` and two per `signIn`, which may differ), `JSON.parse` and `JSON.stringify` are parameters. `getCurrentUser` and `onAuthStateChanged` are not part of this model.
- The intermediate `true` of `isForecasting`, `isAsking`, `isScanning` and `isLoading` is left out. It is only visible while the call is awaited, and each handler is modelled as one sequential step. Interleaved or abandoned requests are not modelled.
- Toasts, `alert()`, `console.error` and the form library's field validation are left out.
- Floating-point arithmetic and formatting are left out: `toFixed`, `toLocaleString`, the heatmap lightness number, the linear regression, and the rounding of the first value pushed into the treemap. Numbers are exact `real`s, and text renderings of numbers are a parameter.
- InventoryDashboard.MonthKey: the month of an ISO timestamp is its first seven characters. Time zones and invalid dates (`parseISO`/`format`) are not modelled.
- InventoryDashboard.HistoricalProductSalesData: `localeCompare` on `yyyy-MM` keys is modelled as character order. The two agree on digit-and-dash strings.
- InventoryDashboard.AtRiskItemsSpec: the source comparator never returns 0, so the order inside each reason group depends on the JavaScript engine. The model is a stable partition, and only critical-before-high-demand is stated.
- InventoryDashboard.TreemapData: the source adds to the found entry object in place. The model updates the entry at the found index of the accumulator sequence, which has no aliases.
- Stock (`InventoryItem.stock`) and quantity (`SalesTransaction.quantity`) are `number` in the source but whole numbers (`int`) here. Fractional stock or quantities are not modelled; they enter sums as `quantity as real`.
- Strings are sequences of Unicode scalar values, while JavaScript's `.length` and default sort work on UTF-16 code units. The two agree only on text inside the Basic Multilingual Plane. Outside it, `SignupForm.ValidateForm`'s length checks (password, username) and `Strings.Less` (the heatmap's item order) can differ from the source: "😀😀😀" has length 6 in JavaScript and 3 here.
- AppSidebar.AvatarInitial: upper-casing is ASCII only. Unicode case mapping and surrogate pairs are not modelled.
- AuthProvider.AuthProvider.LoadStoredUser: `JSON.parse` is a parameter returning a user or nothing. A parse that succeeds with a value that is not a user record is not modelled.
- The mock datasets are parameters, not their literal contents. `getDateString` is a parameter `dateAt`.

## Findings

| source | as written | input that shows it | evidently intended | confidence | as-written member | corrected member |
|---|---|---|---|---|---|---|
| src/lib/auth.ts:63-64,78-80 | the `Error('User data not found. Please contact support.')` thrown inside `try` reaches the `catch`, which rethrows `getErrorMessage(error.code)`; the error has no code, so the user sees `An error occurred. Please try again.` | a successful Firebase sign-in whose uid has no user record | the missing-record message reaches the user | medium, not executed | Auth.MissingProfileMessageLost | Auth.AuthService.SignInCorrected |
