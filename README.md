# Hotspot admin console: verified model of its client-side rules

This project models the client-side rules of a React admin console for a Wi-Fi hotspot service.
Super administrators, business owners and staff use the console. They watch customer sessions,
routers and payments, confirm or reject payments, and manage their profile. The model covers what
the pages decide on their own, without the server:

- **History pages.** The super-admin history page (`SuperHistory`) and the owner's history page
  (`OwnerActivity`) both have:
  - a minute tick that recomputes each live session's remaining time;
  - search and date filters;
  - payment revenue by local date and by day/week/month/year window;
  - the hour-by-hour chart of remaining session time.

  The super-admin page also has a per-business chart and a per-business table. These group
  payments, sessions and routers by business.
- **Sessions and payments pages.** The remaining-hours label and the Extend/Terminate buttons.
  Pending-only payment actions, status colours, filter updates and removal of a rejected payment.
- **Small state machines.** Each is modelled as a class whose methods take the API outcomes as
  inputs:
  - the authentication context: token, user and local storage;
  - the login page;
  - the three-step profile modal of the settings page;
  - the reset-password page;
  - the owner dashboard's load;
  - the theme of the page frame.
- **Role decisions.** The route guard, the sidebar's visible links, the route taken after login,
  and the avatar letter and name in the top bar.

Time is an integer number of milliseconds, read as local wall-clock time. A fixed proleptic
Gregorian calendar (`Calendar.CivilFromDays`) turns days into dates, and the weekday counts from
1970-01-01, a Thursday. Amounts are whole francs. A JavaScript value that may be `null` or
`undefined` is an `Option`, and `||` on strings is `Common.Or`/`Common.OrElse`: a missing value
and `""` are both falsy. An awaited API call is an `ApiResult`: the value it resolved to, or the
error it threw.

Modules, one per file: `Common`, `Text`, `Calendar`, `Seqs`, `Records`, `Grouping`, `Ranking`,
`Revenue`, `Search`, `SessionTime`, `PhoneColour`, `Business`, `SuperHistoryPage`,
`OwnerActivityPage`, `SessionsPageModel`, `PaymentsPageModel`, `SettingsPageModel`,
`AuthContextModel`, `Roles`, `SidebarModel`, `NavbarModel`, `LayoutModel`, `ResetPasswordModel`,
`OwnerDashboardModel`.

## Model

| member | source | states |
|---|---|---|
| Calendar.DayNumber | src/pages/super/SuperHistory.jsx:336 | The day of an instant is the floor of its day count: the day starts at or before it and ends after it |
| Calendar.Weekday | src/pages/super/SuperHistory.jsx:340 | `getDay()` is in 0..6, and it is 0 (Sunday) exactly on the days 7k + 3 after 1970-01-01, a Thursday |
| Calendar.NextDayWeekday | src/pages/super/SuperHistory.jsx:340 | The day after is the next weekday, Saturday wrapping round to Sunday |
| Calendar.CivilFromDays | src/pages/super/SuperHistory.jsx:348-355 | The date of a day count has a month in 1..12 and a day of the month in 1..31 |
| Calendar.DateOf | src/pages/super/SuperHistory.jsx:348-355 | `getMonth() + 1` of an instant is in 1..12, and `getDate()` in 1..31 |
| Calendar.WeekStart | src/pages/super/SuperHistory.jsx:339-340 | The week start is a Sunday at most 7 days before now, at now's time of day: `setDate(getDate() - getDay())` keeps the clock time |
| Calendar.DateInputInstant | src/pages/super/SuperHistory.jsx:98-99 | `new Date('YYYY-MM-DD')` is the first millisecond of that day |
| SessionTime.Remaining | src/pages/super/SuperHistory.jsx:65 | Remaining time is never negative; it is zero exactly when now ≥ end time, and otherwise it is end time − now |
| SessionTime.Tick | src/pages/super/SuperHistory.jsx:60-73 | Same length and order. Ended sessions are unchanged. Every other session differs only in its remaining time, which becomes `max(0, end − now)`: never negative, and zero iff now ≥ end. The `ended` flag is never set (the same code is at OwnerActivity.jsx:60-74) |
| SessionTime.TickIdempotent | src/pages/super/SuperHistory.jsx:62-69 | Ticking twice at the same instant equals ticking once |
| SessionTime.TickMonotone | src/pages/super/SuperHistory.jsx:65 | A later tick never shows more remaining time than an earlier one |
| SessionTime.ExpiredSessionShowsZeroHours | src/pages/super/SuperHistory.jsx:64-68 | A session past its end time that the server has not ended stays `ended = false` and its cell shows 0 hours, not "Ended" (line 452) |
| SessionTime.HistoryRemainingCell | src/pages/super/SuperHistory.jsx:452 | "Ended" iff the session is ended; "undefinedh" iff it is live and has no remaining time yet; otherwise its remaining time |
| SessionTime.TickedCells | src/pages/super/SuperHistory.jsx:60-73 | After a tick no cell shows "undefinedh": a live session shows `max(0, end − now)` at that tick, an ended one "Ended" |
| SessionTime.RoundHours | src/pages/SessionsPage.jsx:82-84 | `Math.round` of a millisecond count in hours, half up, in integer arithmetic |
| SessionTime.CeilHours | src/pages/super/SuperHistory.jsx:135 | `Math.ceil` of a millisecond count in hours, in integer arithmetic |
| SessionTime.RoundHoursShift | src/pages/super/SuperHistory.jsx:138 | Rounding `hours − i` equals rounding `hours`, minus i |
| SessionTime.SessionsPageRemaining | src/pages/SessionsPage.jsx:78-85 | "Ended" iff the server flag says so. Otherwise the hours are within half an hour of the time left (rounded half up), and 0 once the end time has passed |
| SessionTime.HalfHourRoundsUp | src/pages/SessionsPage.jsx:82-84 | Exactly 30 minutes left shows 1h; one millisecond less shows 0h |
| SessionTime.ActionsOffered | src/pages/SessionsPage.jsx:88-103 | Extend/Terminate are offered iff the remaining cell shows hours, i.e. iff the session is not ended, at any time |
| SessionTime.ActiveSessions | src/pages/super/SuperHistory.jsx:128 | Keeps only sessions that are not ended |
| SessionTime.PointValue | src/pages/super/SuperHistory.jsx:138 | A point is `max(0, round(hours left) − hour)` |
| SessionTime.PointValuesNonIncreasing | src/pages/super/SuperHistory.jsx:137-140 | Every point has one entry per active phone. Each value is ≥ 0 and never grows from one hour to the next |
| SessionTime.MaxRemaining | src/pages/super/SuperHistory.jsx:132 | The largest time left among the active sessions, attained by one of them |
| SessionTime.PointAt | src/pages/super/SuperHistory.jsx:136-141 | The `forEach` loop builds exactly the point's map of values |
| SessionTime.NoActiveSessionsMeansAllEnded | src/pages/super/SuperHistory.jsx:128-129 | "No active sessions" iff every session is ended |
| SessionTime.SessionChartPoints | src/pages/super/SuperHistory.jsx:127-142 | No chart iff every session is ended. Otherwise ceil(max hours) + 1 points, point i holding every active session's value at hour i |
| PhoneColour.ToInt32 | src/pages/super/SuperHistory.jsx:148 | `<<` wraps to a signed 32-bit integer congruent to the input |
| PhoneColour.HashString | src/pages/super/SuperHistory.jsx:145-151 | The loop computes the absolute value of the 32-bit string hash |
| PhoneColour.ColourFromPhone | src/pages/super/SuperHistory.jsx:154-158 | Grey iff the phone is falsy; otherwise a hue in 0..359, the hash modulo 360 |
| Ranking.Insert | src/pages/super/SuperHistory.jsx:247 | Insertion keeps every element (multiset) and the total |
| Ranking.InsertSorted | src/pages/super/SuperHistory.jsx:247 | Inserting into a list sorted by descending total keeps it sorted |
| Ranking.SortDesc | src/pages/super/SuperHistory.jsx:247 | `sort((a, b) => b.total − a.total)` returns a permutation, sorted descending, with the same grand total |
| Text.IncludesAt | src/pages/super/SuperHistory.jsx:81 | `includes(q)` holds iff q occurs at some position |
| Seqs.FilterMultiplicity | src/pages/super/SuperHistory.jsx:277 | `.filter` keeps every copy of a value that passes and no copy of one that fails |
| Search.SuperFilterSessions | src/pages/super/SuperHistory.jsx:79-84 | A subsequence of the sessions, keeping exactly those whose phone, MAC or router name contains the lower-cased query |
| Search.SuperFilterRouters | src/pages/super/SuperHistory.jsx:85-90 | A subsequence, keeping exactly the routers whose name, IP or location contains the query |
| Search.SuperFilterPayments | src/pages/super/SuperHistory.jsx:91-101 | A subsequence, keeping exactly the payments that match the text, are at or after the start day and at or before the end day; an unset bound imposes nothing |
| Search.MissingFieldsNeverMatch | src/pages/super/SuperHistory.jsx:80-84 | A session with none of the three fields is dropped even for an empty query |
| Search.EmptyQueryKeepsPresentFields | src/pages/super/SuperHistory.jsx:77-84 | With an empty query a session with any of the three fields is kept |
| Search.EndDayOnlyMidnightIncluded | src/pages/super/SuperHistory.jsx:99 | On the end day itself only a payment at midnight passes the "inclusive" end bound |
| Search.OwnerFilterSessions | src/pages/owner/OwnerActivity.jsx:96-124 | The active tab chooses the predicate for the sessions list. The result is a subsequence keeping exactly the matches |
| Search.OwnerFilterRouters | src/pages/owner/OwnerActivity.jsx:96-124 | The same for the routers list |
| Search.OwnerFilterPayments | src/pages/owner/OwnerActivity.jsx:111-121 | The same for the payments list; on the payments tab a payment is kept iff its text matches and it was made at or after the chosen date |
| Search.OwnerDateFilterHasNoUpperBound | src/pages/owner/OwnerActivity.jsx:117-120 | A matching payment made any time after the chosen date is kept |
| Search.RoutersTabEmptiesPayments | src/pages/owner/OwnerActivity.jsx:222-224 | On the routers tab the payments list is run through the routers predicate and comes out empty |
| Search.PaymentsTabDateEmptiesSessions | src/pages/owner/OwnerActivity.jsx:222-224 | On the payments tab with a date chosen, every session fails the date test |
| Revenue.ApprovedExact | src/pages/super/SuperHistory.jsx:233 | `status === 'approved'`; every payment it accepts also passes the case-insensitive test |
| Revenue.ApprovedIgnoringCase | src/pages/super/SuperHistory.jsx:183 | `status?.toLowerCase() === 'approved'` holds iff the status has eight characters, each lower-casing to the matching letter of "approved" |
| Revenue.InDay | src/pages/super/SuperHistory.jsx:336 | Same `toDateString()` as now iff the payment falls between now's midnight and the next midnight |
| Revenue.InWeek | src/pages/super/SuperHistory.jsx:339-343 | At or after `getDay()` whole days before now, with no upper bound |
| Revenue.InMonth | src/pages/super/SuperHistory.jsx:347-351 | Same month and year as now; every payment of today counts in the month |
| Revenue.InYear | src/pages/super/SuperHistory.jsx:355 | Same year as now; every payment of this month counts in the year |
| Revenue.Windows | src/pages/super/SuperHistory.jsx:335-356 | The day, week, month and year sums of one list. With non-negative amounts 0 ≤ day ≤ month ≤ year ≤ total, and 0 ≤ week ≤ total (the same sums are at OwnerActivity.jsx:228-250) |
| Revenue.WindowSumsOrdered | src/pages/super/SuperHistory.jsx:335-356 | With non-negative amounts each narrower window sums to no more than the wider one, and none exceeds the total |
| Revenue.ApprovedTestsDiffer | src/pages/super/SuperHistory.jsx:183 | The case-insensitive test accepts all the exact test accepts (line 233), and also "Approved" |
| Revenue.FilterTotalAtMost | src/pages/super/SuperHistory.jsx:335-356 | With non-negative amounts, filtering never raises a sum |
| Revenue.WindowsNested | src/pages/super/SuperHistory.jsx:335-356 | Day ⊆ month ⊆ year as filtered lists: filtering this month's payments for today gives today's, and this year's for this month gives this month's |
| Revenue.TodayInWeek | src/pages/super/SuperHistory.jsx:335-344 | A payment made today counts in the week unless today is Sunday and it was made earlier in the day than now |
| Revenue.WeekHasNoUpperBound | src/pages/super/SuperHistory.jsx:342-344 | Anything dated from now on counts in the week |
| Revenue.DayCanExceedWeek | src/pages/super/SuperHistory.jsx:335-344 | A concrete Sunday payment counted today (500) but not this week (0) |
| Revenue.EntriesOf | src/pages/super/SuperHistory.jsx:197 | `Object.entries(...).map` yields one bar per key, in key order, with that key's sum |
| Revenue.DateBars | src/pages/super/SuperHistory.jsx:191-197 | One bar per local date in first-appearance order, each the sum of that date's payments; the bars add up to the payments' total |
| Revenue.BarsFollowListOrder | src/pages/super/SuperHistory.jsx:191-197 | Bars follow the list, not the calendar: a 3rd-of-the-month payment listed first is charted before the 2nd |
| Grouping.GroupBy | src/pages/super/SuperHistory.jsx:191-195 | The `forEach` that fills a dictionary: keys in first-appearance order, each with its sum and the tag of its first element |
| Grouping.GroupOne | src/pages/super/SuperHistory.jsx:192-195 | One member through the `forEach` turns the dictionary summarising a list into the one summarising the list with that member appended |
| Grouping.GroupSumsConserveTotal | src/pages/super/SuperHistory.jsx:191-197 | The per-key sums add up to the total of the list |
| Grouping.TotalOfMembers | src/pages/super/SuperHistory.jsx:294 | A key's collected list sums to that key's sum |
| Grouping.MembersPartition | src/pages/super/SuperHistory.jsx:280-312 | Over distinct keys covering a list, the per-key lists sum to the list's total and their lengths to its length |
| Business.ApprovedFiltered | src/pages/super/SuperHistory.jsx:233 | A subsequence of the filtered payments keeping exactly those whose status is exactly 'approved' (the same list at line 277) |
| Business.BusinessEntries | src/pages/super/SuperHistory.jsx:237-247 | One bar per business key, named after its first payment; the bars sum to the approved total |
| Business.BusinessChart | src/pages/super/SuperHistory.jsx:232-247 | The chart's bars are a permutation of the per-business entries, sorted by descending total, summing to the approved total; empty iff there is no approved payment |
| Business.AllKeys | src/pages/super/SuperHistory.jsx:280-330 | The keys met by the three loops, one per record |
| Business.RouterIds | src/pages/super/SuperHistory.jsx:314-330 | The router ids collected for a business are exactly those of its routers (`routers.size`, line 365) |
| Business.LookedUpName | src/pages/super/SuperHistory.jsx:316 | A router that opens a business it names itself takes that name |
| Business.AddPayment | src/pages/super/SuperHistory.jsx:280-295 | One payment turns the table of the payments before it into the table of those payments plus it |
| Business.AddPayments | src/pages/super/SuperHistory.jsx:280-295 | The payments loop builds the table of the approved payments |
| Business.AddSession | src/pages/super/SuperHistory.jsx:297-312 | One session extends the table to count it under its business, opening an entry named after it when the business is new |
| Business.AddSessions | src/pages/super/SuperHistory.jsx:297-312 | The sessions loop extends it with each business's session count |
| Business.AddRouter | src/pages/super/SuperHistory.jsx:314-330 | One router extends the table with its id under its business, opening an entry when the business is new |
| Business.AddRouters | src/pages/super/SuperHistory.jsx:314-330 | The routers loop extends it with each business's router ids |
| Business.FillTable | src/pages/super/SuperHistory.jsx:276-330 | Entries in first-appearance order over payments, then sessions, then routers; each entry holds its business's payments, session count and router ids, with the name of its first record |
| Business.RowsOf | src/pages/super/SuperHistory.jsx:334-368 | Each row, in the table's insertion order, carries its business's name, the window totals of its payments, its session count and its number of distinct routers |
| Business.BusinessTable | src/pages/super/SuperHistory.jsx:276-417 | One row per business, with the window totals of its payments, its session count and distinct router count. The count is the number of businesses. "No data" iff there are no approved payments, sessions or routers. The shown rows are the subsequence whose name contains the query |
| Business.NoRowsOnlyWhenNothing | src/pages/super/SuperHistory.jsx:411-417 | The table is empty iff payments, sessions and routers are all empty |
| Business.TablePartitions | src/pages/super/SuperHistory.jsx:280-312 | The businesses' payment sums add up to the approved total, and their session counts to the number of sessions |
| SuperHistoryPage.ChartCounts | src/pages/super/SuperHistory.jsx:182-189 | Approved in any letter case, on or after the start day, and before the end day or at its midnight exactly |
| SuperHistoryPage.ChartPayments | src/pages/super/SuperHistory.jsx:182-189 | A subsequence of the payments keeping exactly those the chart's test accepts |
| SuperHistoryPage.ChartCoversBusinessPayments | src/pages/super/SuperHistory.jsx:182-189 | Every payment in the business chart is also counted by the payments chart |
| SuperHistoryPage.RoutersChartOf | src/pages/super/SuperHistory.jsx:214-216 | One bar per router with its name; status 1 iff health is "ok" |
| SuperHistoryPage.SuperHistory.constructor | src/pages/super/SuperHistory.jsx:12-20 | Initial state: empty lists, loading, sessions tab, empty search and dates |
| SuperHistoryPage.SuperHistory.MinLoadingElapsed | src/pages/super/SuperHistory.jsx:24-30 | After the minimum delay the loader shows iff data is still loading (line 528) |
| SuperHistoryPage.SuperHistory.Load | src/pages/super/SuperHistory.jsx:35-57 | The lists become the fetched ones (`null` as []), or all [] on failure; loading ends either way |
| SuperHistoryPage.SuperHistory.TickSessions | src/pages/super/SuperHistory.jsx:60-73 | The sessions become their tick; nothing else changes |
| SuperHistoryPage.SuperHistory.SelectTab | src/pages/super/SuperHistory.jsx:113 | Only the tab changes |
| SuperHistoryPage.SuperHistory.SetSearch | src/pages/super/SuperHistory.jsx:569 | Only the query changes |
| SuperHistoryPage.SuperHistory.SetStartDay | src/pages/super/SuperHistory.jsx:487 | Only the start day changes |
| SuperHistoryPage.SuperHistory.SetEndDay | src/pages/super/SuperHistory.jsx:490 | Only the end day changes |
| SuperHistoryPage.SuperHistory.PaymentsChartView | src/pages/super/SuperHistory.jsx:178-199 | "No payments" iff the list is empty; "No approved payments" iff none passes the filters; otherwise the date bars of the counted payments, summing to their total |
| SuperHistoryPage.SuperHistory.BusinessChartView | src/pages/super/SuperHistory.jsx:232-247 | No bars iff no approved filtered payment. Otherwise: a permutation of the per-business bars, sorted by descending total, summing to the approved total |
| SuperHistoryPage.SuperHistory.SessionChartView | src/pages/super/SuperHistory.jsx:127-142 | The session chart of the page's sessions |
| SuperHistoryPage.SuperHistory.TableView | src/pages/super/SuperHistory.jsx:425-525 | Each tab shows its filtered list. On the business tab: one row per business in first-appearance order, with its name, window totals, session count and distinct router count. The count is the number of rows. "No data" iff all three lists are empty. The shown rows are the subsequence whose name matches the query |
| OwnerActivityPage.OwnerApproved | src/pages/owner/OwnerActivity.jsx:224-228 | A subsequence of the tab-filtered payments keeping exactly those whose status is exactly 'approved' |
| OwnerActivityPage.InactiveSessions | src/pages/owner/OwnerActivity.jsx:255 | Keeps only ended sessions |
| OwnerActivityPage.ActiveInactivePartition | src/pages/owner/OwnerActivity.jsx:254-255 | Active + inactive = number of sessions |
| OwnerActivityPage.OwnerActivity.constructor | src/pages/owner/OwnerActivity.jsx:20-27 | Initial state: empty lists, loading, sessions tab, empty search, no date |
| OwnerActivityPage.OwnerActivity.MinLoadingElapsed | src/pages/owner/OwnerActivity.jsx:30-33 | After the minimum delay the loader shows iff data is still loading |
| OwnerActivityPage.OwnerActivity.Load | src/pages/owner/OwnerActivity.jsx:36-58 | The fetched lists (`null` as []), or all [] on failure; loading ends |
| OwnerActivityPage.OwnerActivity.TickSessions | src/pages/owner/OwnerActivity.jsx:60-74 | The sessions become their tick; nothing else changes |
| OwnerActivityPage.OwnerActivity.SelectTab | src/pages/owner/OwnerActivity.jsx:82 | Only the tab changes |
| OwnerActivityPage.OwnerActivity.SetSearch | src/pages/owner/OwnerActivity.jsx:494 | Only the query changes |
| OwnerActivityPage.OwnerActivity.SetDate | src/pages/owner/OwnerActivity.jsx:271 | Only the date changes |
| OwnerActivityPage.OwnerActivity.SummaryView | src/pages/owner/OwnerActivity.jsx:221-255 | The four windows over the approved filtered payments. The active and inactive counts are taken over the unfiltered sessions and add up to their number |
| OwnerActivityPage.OwnerActivity.PaymentsChartView | src/pages/owner/OwnerActivity.jsx:184-196 | The date bars of the exactly-"approved" filtered payments, summing to their total |
| OwnerActivityPage.OwnerActivity.TableView | src/pages/owner/OwnerActivity.jsx:221-285 | Each tab shows its list filtered by that tab's predicate |
| OwnerActivityPage.OwnerActivity.SessionChartView | src/pages/owner/OwnerActivity.jsx:127-142 | The session chart of the page's sessions |
| OwnerActivityPage.CapitalisedApprovedNotCounted | src/pages/owner/OwnerActivity.jsx:228 | A payment with status "Approved" is never counted in revenue |
| SessionsPageModel.RowOf | src/pages/SessionsPage.jsx:77-103 | "Ended" and no buttons iff the server flag is set; a session past its end time but not ended shows 0h and both buttons |
| SessionsPageModel.SessionsPage.constructor | src/pages/SessionsPage.jsx:5-7 | Empty lists, loading |
| SessionsPageModel.SessionsPage.Init | src/pages/SessionsPage.jsx:9-25 | Routers become `r \|\| []`, then the sessions load and loading ends; a failure stops the sequence there |
| SessionsPageModel.SessionsPage.LoadSessions | src/pages/SessionsPage.jsx:14-17 | The list is replaced by the fetched one; a failure leaves it |
| SessionsPageModel.SessionsPage.Extend | src/pages/SessionsPage.jsx:30-33 | Asks for exactly 1 hour on that session, then reloads |
| SessionsPageModel.SessionsPage.Terminate | src/pages/SessionsPage.jsx:35-38 | Asks to terminate that session, then reloads |
| PaymentsPageModel.StatusColour | src/pages/PaymentsPage.jsx:119-125 | Green iff approved, red iff rejected, yellow otherwise |
| PaymentsPageModel.ActionsShown | src/pages/PaymentsPage.jsx:133 | Approve/Reject shown iff the status is "pending" (then yellow) |
| PaymentsPageModel.WithoutId | src/pages/PaymentsPage.jsx:59 | A subsequence keeping exactly the payments with another id |
| PaymentsPageModel.WithoutIdRemovesExactly | src/pages/PaymentsPage.jsx:59 | What is kept plus what has the id make up the list; removing twice equals removing once |
| PaymentsPageModel.PaymentsPage.constructor | src/pages/PaymentsPage.jsx:5-8 | Empty lists, empty filters, loading |
| PaymentsPageModel.PaymentsPage.Init | src/pages/PaymentsPage.jsx:13-33 | Routers become `r \|\| []`, then the payments load and loading ends; a failure stops there |
| PaymentsPageModel.PaymentsPage.LoadPayments | src/pages/PaymentsPage.jsx:18-24 | Sends the current filters; the list becomes the result |
| PaymentsPageModel.PaymentsPage.SetStatusFilter | src/pages/PaymentsPage.jsx:78 | Replaces only the status filter, then reloads with the new filters |
| PaymentsPageModel.PaymentsPage.SetPhoneFilter | src/pages/PaymentsPage.jsx:89 | Replaces only the phone filter, then reloads with the new filters |
| PaymentsPageModel.PaymentsPage.Confirm | src/pages/PaymentsPage.jsx:42-46 | No local edit; the list is reloaded |
| PaymentsPageModel.PaymentsPage.Reject | src/pages/PaymentsPage.jsx:51-60 | The API is called iff the prompt is confirmed; the list loses exactly that id only after a successful call, and is unchanged otherwise |
| AuthContextModel.AuthState.constructor | src/contexts/AuthContext.jsx:6-11 | Token and user are read from storage; not loading |
| AuthContextModel.AuthState.Logout | src/contexts/AuthContext.jsx:54-59 | Token and user cleared; both storage keys removed, the rest kept |
| AuthContextModel.AuthState.Mount | src/contexts/AuthContext.jsx:13-20 | Fetches the profile iff there is a token and no user; success stores the user; failure logs out |
| AuthContextModel.AuthState.Login | src/contexts/AuthContext.jsx:22-37 | Token is `token \|\| access`, stored before the profile fetch. Success sets and stores the user and returns both. A failed profile fetch leaves the token set and the user unchanged. Never loading afterwards |
| AuthContextModel.AuthState.Register | src/contexts/AuthContext.jsx:39-52 | Token and user from the response, both stored; never loading afterwards |
| AuthContextModel.LogoutLeavesNothingToRestore | src/contexts/AuthContext.jsx:54-59 | After logout the storage yields no token and no user to a fresh start (lines 6-10) |
| AuthContextModel.TokenRoundTrip | src/contexts/AuthContext.jsx:26-28 | A stored token is read back unchanged and the user entry is untouched |
| Roles.HomeOf | src/components/guards/RoleGuard.jsx:9-12 | A home route exists iff the role is one of the three known ones |
| Roles.Guard | src/components/guards/RoleGuard.jsx:5-15 | No user goes to /login. Otherwise the children iff the role is allowed; else the role's home, or / for an unknown role |
| Roles.DefaultRolesRedirectEveryone | src/components/guards/RoleGuard.jsx:5-8 | With the default empty list every signed-in user is redirected |
| Roles.GuardRedirectsOnlyWhenNeeded | src/components/guards/RoleGuard.jsx:7-14 | A signed-in user is never sent to /login; an allowed role renders the children |
| Roles.LoginPage.constructor | src/pages/auth/Login.jsx:7-9 | Empty form, not loading |
| Roles.LoginPage.Submit | src/pages/auth/Login.jsx:12-25 | At most one navigation, to the role's home; an unknown role goes nowhere; failure alerts and goes nowhere; never loading afterwards |
| SidebarModel.VisibleItems | src/components/layout/Sidebar.jsx:49-50 | A subsequence of the links, keeping exactly those without a role or whose role is the user's |
| SidebarModel.VisibleSplit | src/components/layout/Sidebar.jsx:6-15 | The shown links are the visible dashboard links followed by all five untagged ones |
| SidebarModel.OneDashboardPerKnownRole | src/components/layout/Sidebar.jsx:7-9 | Each known role sees exactly one dashboard link, its own, and six links in all |
| SidebarModel.NoDashboardOtherwise | src/components/layout/Sidebar.jsx:50 | No user or an unknown role sees no dashboard link and the five untagged ones |
| SidebarModel.HandleLogout | src/components/layout/Sidebar.jsx:21-27 | Only if confirmed: logout, then navigation to /; otherwise nothing changes |
| NavbarModel.Initial | src/components/layout/Navbar.jsx:7-9 | The upper-cased first character of the first truthy of name, username and email, else 'U'; never a lower-case letter |
| NavbarModel.DisplayName | src/components/layout/Navbar.jsx:38 | Name, else username, else "Utilisateur"; never empty, never the email |
| NavbarModel.InitialOfDisplayName | src/components/layout/Navbar.jsx:7-9 | The avatar letter starts the shown name, except for a user known only by email |
| NavbarModel.ThemeIcon | src/components/layout/Navbar.jsx:25 | Sun iff the theme is "dark" |
| LayoutModel.Toggle | src/components/layout/Layout.jsx:15 | Always "dark" or "light"; "light" iff the previous theme was "dark" |
| LayoutModel.ToggleTwice | src/components/layout/Layout.jsx:15 | Toggling twice is the identity on "dark" and "light"; any other value ends as "light" |
| LayoutModel.ToggleFlipsIcon | src/components/layout/Layout.jsx:15 | Every toggle changes the theme button's icon |
| LayoutModel.ThemeState.constructor | src/components/layout/Layout.jsx:7-13 | The stored theme, or "dark" when none; the effect writes it back |
| LayoutModel.ThemeState.ToggleTheme | src/components/layout/Layout.jsx:11-15 | The theme becomes its toggle, is stored, and flips the overlay |
| SettingsPageModel.SetField | src/pages/SettingsPage.jsx:37-38 | Replaces only the named form field |
| SettingsPageModel.SaveError | src/pages/SettingsPage.jsx:88 | The server's detail, else the error message, else the default text; never empty |
| SettingsPageModel.SettingsPage.constructor | src/pages/SettingsPage.jsx:8-25 | Modal closed, not saving, no messages, step edit, empty form and settings |
| SettingsPageModel.SettingsPage.SyncUser | src/pages/SettingsPage.jsx:27-35 | Copies `username \|\| ''` and `email \|\| ''` from the user, touching nothing else |
| SettingsPageModel.SettingsPage.HandleChange | src/pages/SettingsPage.jsx:37-41 | Updates only the named field and clears both messages; editing a field shown at the current step keeps the steps' gates |
| SettingsPageModel.SettingsPage.HandleSettingsChange | src/pages/SettingsPage.jsx:43-45 | Replaces only the named setting |
| SettingsPageModel.SettingsPage.OpenModal | src/pages/SettingsPage.jsx:155 | Opens the modal, nothing else |
| SettingsPageModel.SettingsPage.HandleFirstSave | src/pages/SettingsPage.jsx:47-53 | Empty username or email: error, step unchanged; otherwise step verify |
| SettingsPageModel.SettingsPage.HandleVerifyPassword | src/pages/SettingsPage.jsx:55-61 | Empty current password: error, step unchanged; otherwise step newpass |
| SettingsPageModel.SettingsPage.HandleFinalSave | src/pages/SettingsPage.jsx:63-92 | No token: "Session expirée", step verify, nothing sent. Otherwise the form is sent, an empty new password as undefined. A failure sets the error and step verify. Success closes the modal with step edit, stores the fetched profile and reloads. `saving` is false after every path. From a gated last step what is sent passed every check |
| SettingsPageModel.SettingsPage.CloseModal | src/pages/SettingsPage.jsx:95-101 | Closed, step edit, messages cleared, both passwords blanked, username and email kept |
| ResetPasswordModel.ResetError | src/pages/auth/ResetPassword.jsx:39 | The server's detail, else "Invalid or expired token" |
| ResetPasswordModel.ResetPassword.constructor | src/pages/auth/ResetPassword.jsx:6-13 | Empty password and error, not loading, link presumed valid |
| ResetPasswordModel.ResetPassword.Mount | src/pages/auth/ResetPassword.jsx:16-23 | The token is verified iff present; the link stays valid iff the token is present and verifies |
| ResetPasswordModel.ResetPassword.SetPassword | src/pages/auth/ResetPassword.jsx:65 | Only the password changes |
| ResetPasswordModel.ResetPassword.Submit | src/pages/auth/ResetPassword.jsx:25-43 | The error is cleared first. Fewer than 10 characters: the error and no call. Otherwise the call is made (a password of ≥ 10 characters); success goes to /login, failure sets the error; loading ends |
| OwnerDashboardModel.OwnerDashboard.constructor | src/pages/owner/OwnerDashboard.jsx:12-14 | No stats, no routers, loading |
| OwnerDashboardModel.OwnerDashboard.LoadData | src/pages/owner/OwnerDashboard.jsx:16-49 | Routers become `r \|\| []`. Stats are requested iff there is a router, and then are exactly the fetched ones. No routers or any error gives zero stats (and no routers). Loading ends |
| OwnerDashboardModel.OwnerDashboard.Cards | src/pages/owner/OwnerDashboard.jsx:86-89 | Four cards; all dashes iff there are no stats, otherwise the four figures in order |

## Left out

- The network client (`src/services/api.js`). Every API call is an input outcome, a value or a
  thrown error. `api.verifyResetToken` and `api.resetPassword` are opaque in the same way.
- The scheduling of timers: the 60 s tick, the 8 s session refresh and the minimum-loader delays.
  One tick is a function of `now`, and the end of a delay is a method.
- Floating point. Remaining time is kept in milliseconds, not as a fractional hour count, and
  `toFixed(2)` is not modelled. `Math.round` and `Math.ceil` of hours are integer divisions.
- Time zones, DST and locale formats (`toLocaleDateString`, `toDateString`). Instants are read
  as local wall-clock time, and the calendar is a fixed proleptic Gregorian one rather than an
  unspecified function with axioms.
- Malformed data: `Number(p.amount)` producing NaN, unparseable dates, and `JSON.parse` failures
  on stored users. Amounts are whole numbers and instants are valid.
- The ordering of integer-like keys in JavaScript objects. Dictionaries follow insertion order;
  a business id that looks like an integer would be listed earlier in the browser.
- A business id of `0`, which JavaScript treats as falsy (it becomes "unknown"). Ids are
  strings here, and only a missing or empty id is falsy.
- Case mapping beyond ASCII in `toLowerCase`/`toUpperCase`.
- Ranking.SortDesc: stable ordering of equal totals is not stated; only "permutation, sorted
  descending".
- A `null` sessions or payments response on the sessions and payments pages is not modelled.
  Those pages store it without `|| []`, and rendering would then fail.
- The payments page's filter effect also runs once on mount. The model reloads only when a
  filter changes.
- A token stored as the string "undefined" (written when a login response has neither `token`
  nor `access`) is modelled as an absent token.
- Business.LookedUpName: for a router whose business is a bare id, the name comes from the
  table as filled so far; the lookup's result is stated only for a new business that names
  itself.
- SessionTime.HistoryRemainingCell shows whole milliseconds in place of `toFixed(2)` hours.
- Strings are sequences of Unicode scalar values, while JavaScript strings are sequences of
  UTF-16 code units. They differ only outside the Basic Multilingual Plane (emoji, for instance).
  The members below are affected.
- ResetPasswordModel.ResetPassword.Submit: the length gate counts characters, not code units.
  A password of five emoji has `length` 10 in the browser and passes there, but the model refuses it.
- NavbarModel.Initial: the initial is the first character. `charAt(0)` would return the lone
  high surrogate of a name that starts with an emoji.
- PhoneColour.HashString: the hash adds one code per character. `charCodeAt` adds the two
  surrogate codes of a character outside the Basic Multilingual Plane.
- Markup, charts and styling, the random demonstration data on the owner dashboard, and the
  pages listed only as context (routers, pricing, register, forgot-password, the super and staff
  dashboards, the route table).
- The "Save your settings" button of the settings page, which has no handler.
