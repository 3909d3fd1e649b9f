# Eligibility and billing reconciliation dashboard — a Dafny model

The dashboard compares member counts and billed amounts from client files
with the counts loaded into the Facets claims system. It shows the result on
four pages and a sidebar. This project models the logic behind those pages:

- **Home page** (`home_sums.dfy`, `home_page.dfy`):
  - the month selector ("All Months" or one month);
  - per-client sums of received, loaded and billed counts over a client's
    line-of-business × month data;
  - the summary tiles, including the count of clients whose
    received-vs-loaded difference is over 2%;
  - the per-client table with its clamped percentages;
  - the badge colour, the "Balanced" badge and the percent-difference text.
- **Billing page** (`billing_page.dfy`):
  - the Facets vs self-billed totals;
  - the signed, two-decimal percent differences and the "Balanced" tag
    (both differences under 2);
  - the per-period difference trends and the "Auto Insights" note;
  - the members-billed and amount indicators;
  - the page's inline billing records.
- **File page** (`file_page.dfy`):
  - the four File/Facets count pairs and the balanced verdict;
  - the scorecard badges and the error text;
  - the mismatch breakdown bars and the balanced-vs-unmatched pie with its
    total;
  - the page's inline files.
- **Client page** (`client_page.dfy`):
  - the exact-equality balance test, the signed difference and the
    membership tile;
  - the "Yes" / "No (diff)" label, with the decimal text of the difference;
  - the pie data and the page's inline clients.
- **Sidebar** (`sidebar_links.dfy`, `routes.dfy`):
  - which route is active for a pathname;
  - which routes become links, with the lower-cased href;
  - the application's route table.

The record types of the two data contexts are in `client_data.dfy` and
`file_data.dfy`. Shared arithmetic is in `arith.dfy`: absolute values, an
order lemma for products, and the left-fold total used by every
`reduce((a, b) => a + b, 0)`.

Modelling choices:

- **Home-page sums.** A map of per-key totals is summed by a ghost `Sum`,
  which does not depend on the order of the keys. The home page's nested
  loops are methods over the map's key sets. Each is proved equal to `Sum`
  of the corresponding map.
  - `AllMonthsCoversEveryCell` shows that the "All Months" sum is the sum
    over every (line of business, month) cell.
  - `SumUnion`, `MonthSumAddLob` and `AllMonthsAddLob` show that the sums
    split over disjoint data.
- **Two kinds of percent difference.**
  - The home page's percentages are absolute. The table caps them at 100
    and shows "N/A" when the divisor is 0.
  - The billing page's percent differences are signed and uncapped. They
    divide by the Facets total with no guard against 0. So self-billing
    more than Facets always reads as balanced (`OverbillingIsBalanced`).
- **The "Auto Insights" note** compares the last member difference with the
  first as signed numbers. Apart from the all-zero test, it reads only the
  member trend. So `[100, -300]` reads as "reducing" (`SignedComparison`).
- **Unused aggregates.** The per-line-of-business aggregates
  (`lobLast12MonthsAggregate`, with `monthsCount` and `balancedCount`) are
  declared in the client data but read by no page.
- **Key order.** The home page visits keys with `Object.keys`. The model
  does not fix an order: each loop picks any key not yet visited. The sums
  are proved independent of the order.

## Model

| member | source | states |
|---|---|---|
| `HomeSums.SelectionOf` | src/app/dashboard/home/page.tsx:78 | The selection is "All Months" exactly when the selector's value is the string "All Months"; otherwise it names that month. |
| `HomeSums.SumUnion` | src/app/dashboard/home/page.tsx:79-86 | The sum over a union of maps with disjoint keys is the sum of their sums, so the accumulation does not depend on key order. |
| `HomeSums.LobTotalsInMonth` | src/app/dashboard/home/page.tsx:89-96 | A line of business contributes to a month's sum exactly when it has data for that month (the `if (mData)` guard). |
| `HomeSums.AllMonthsCoversEveryCell` | src/app/dashboard/home/page.tsx:78-86 | With "All Months", a client's totals are the sum over every (line of business, month) cell of its data. |
| `HomeSums.MonthSumAddLob` | src/app/dashboard/home/page.tsx:89-96 | Adding a new line of business adds its bucket for the selected month, if it has one, and nothing else. |
| `HomeSums.AllMonthsAddLob` | src/app/dashboard/home/page.tsx:78-86 | Adding a new line of business adds the sum of all its months to the all-months totals. |
| `HomePage.RawPercent` | src/app/dashboard/home/page.tsx:107 | `abs((a-b)/b·100)` is non-negative and times b equals 100·abs(a-b); it is over 2 exactly when 50·abs(a-b) > b, under 2 exactly when 50·abs(a-b) < b, and at most 100 exactly when abs(a-b) ≤ b. |
| `HomePage.DiffPercent` | src/app/dashboard/home/page.tsx:104-107 | The value the unbalanced test reads is non-negative and is 100 when nothing was loaded. |
| `HomePage.IsUnbalanced` | src/app/dashboard/home/page.tsx:108 | A client with nothing loaded is unbalanced; one whose received count equals a positive loaded count is not. |
| `HomePage.UnbalancedRule` | src/app/dashboard/home/page.tsx:104-110 | A client is counted unbalanced when nothing was loaded (difference 100), and otherwise exactly when 50·abs(received-loaded) > loaded. |
| `HomePage.ExactlyTwoPercentIsNotUnbalanced` | src/app/dashboard/home/page.tsx:108 | The test is strict: 102 received against 100 loaded is not counted, 103 against 100 is. |
| `HomePage.UnbalancedCountBound` | src/app/dashboard/home/page.tsx:68-69 | The unbalanced-client count never exceeds the number of clients. |
| `HomePage.SumMonths` | src/app/dashboard/home/page.tsx:80-85 | The inner loop over one line's months yields the sum of its month buckets. |
| `HomePage.SumAllMonths` | src/app/dashboard/home/page.tsx:79-86 | The nested loops yield the sum, over all lines of business, of each line's month sum. |
| `HomePage.SumInMonth` | src/app/dashboard/home/page.tsx:89-96 | The loop over lines of business yields the sum of the selected month's buckets of the lines that have one. |
| `HomePage.SumClient` | src/app/dashboard/home/page.tsx:72-97 | A client's received, loaded and billed sums are its totals for the selection. |
| `HomePage.TileData` | src/app/dashboard/home/page.tsx:64-120 | The tiles hold the totals over all clients, the number of clients, and the number of clients whose difference is over 2%; the latter is at most the former. |
| `HomePage.ClampedPercent` | src/app/dashboard/home/page.tsx:151-158 | Null exactly when the denominator is 0; otherwise within [0, 100], over 2 exactly when 50·abs(a-b) > b, equal to the raw percent when abs(a-b) ≤ b, and exactly 100 when abs(a-b) > b (`Math.min(…, 100)`). |
| `HomePage.TableData` | src/app/dashboard/home/page.tsx:123-170 | One row per client, in order, each holding the client's id, name, sums for the selection and its two clamped percentages. |
| `HomePage.RowPercents` | src/app/dashboard/home/page.tsx:151-158 | A row's percentage is null exactly when its loaded (or billed) sum is 0, and otherwise lies within [0, 100]. |
| `HomePage.TilesAgreeWithTable` | src/app/dashboard/home/page.tsx:99-110 | The tile totals are the sums of the table's columns, and the unbalanced count is the number of rows whose clamped received-vs-loaded percent is null or over 2. |
| `HomePage.GetBadgeColor` | src/app/dashboard/home/page.tsx:173-178 | Gray exactly for null, green exactly below 2, orange exactly within [2, 5], red exactly above 5. |
| `HomePage.RenderBalancedBadge` | src/app/dashboard/home/page.tsx:56-61 | The badge has the colour `GetBadgeColor` picks, labelled "N/A", "Yes", "Partial" or "No" on exactly the same four ranges. |
| `HomePage.BadgeVersusTile` | src/app/dashboard/home/page.tsx:56-61 | A "Yes" badge is never on a row the tile counts as unbalanced; a row the tile counts shows "N/A", "Partial" or "No"; exactly 2% shows "Partial" but is not counted. |
| `HomePage.BadgeBoundaries` | src/app/dashboard/home/page.tsx:173-178 | 1.999 is green, 2 and 5 are orange, 5.001 is red, null is gray. |
| `HomePage.SmallDifferenceIsGreen` | src/app/dashboard/home/page.tsx:104-110 | 6200 received against 6100 loaded is neither counted unbalanced nor badged other than green "Yes". |
| `HomePage.FormatPercentDiff` | src/app/dashboard/home/page.tsx:180-185 | "N/A" exactly for null; otherwise it shows the percent and received minus compared, with a "+" sign exactly when received ≥ compared. |
| `Arith.Total` | src/app/dashboard/billing/page.tsx:128-131 | The fold of an empty array is 0; every element is at most the total; the total is 0 exactly when every element is 0. |
| `Arith.TotalAppend` | src/app/dashboard/billing/page.tsx:128-131 | The total of a concatenation is the sum of the totals. |
| `BillingPage.PercentDiff` | src/app/dashboard/billing/page.tsx:133-141 | `(F-S)/F·100` is negative exactly when self-billed exceeds Facets, zero exactly when they agree, positive exactly when self-billed is less, never above 100, and 100 exactly when nothing was self-billed. |
| `BillingPage.Round2` | src/app/dashboard/billing/page.tsx:133-141 | `Number(x.toFixed(2))` is a whole number of hundredths with the sign of x (or zero). |
| `BillingPage.Round2Close` | src/app/dashboard/billing/page.tsx:136 | Rounding to two decimals moves a value by at most half a hundredth and keeps its sign. |
| `BillingPage.Round2Below2` | src/app/dashboard/billing/page.tsx:143 | `Number(x.toFixed(2)) < 2` exactly when x < 1.995. |
| `BillingPage.PercentBelowThreshold` | src/app/dashboard/billing/page.tsx:133-143 | A rounded percent difference is under 2 exactly when 20000·(F-S) < 399·F. |
| `BillingPage.IsBalanced` | src/app/dashboard/billing/page.tsx:143 | The "Balanced" tag is shown exactly when self-billed members and self-billed amount are each more than 98.005% of the Facets totals (20000·S > 19601·F). |
| `BillingPage.BalancedRule` | src/app/dashboard/billing/page.tsx:143 | The "Balanced" tag is shown exactly when both the member and the amount totals meet 20000·(F-S) < 399·F. |
| `BillingPage.OverbillingIsBalanced` | src/app/dashboard/billing/page.tsx:143 | Because the difference is signed, self-billing at least as much as Facets, in members and in amount, always reads as balanced. |
| `BillingPage.DiffTrend` | src/app/dashboard/billing/page.tsx:145-146 | One entry per Facets period, each the Facets value minus the self-billed value of the same period. |
| `BillingPage.MemberDiffTrend` | src/app/dashboard/billing/page.tsx:145 | One member difference per Facets period, all zero exactly when the member series agree period by period. |
| `BillingPage.AmountDiffTrend` | src/app/dashboard/billing/page.tsx:146 | One amount difference per Facets period, all zero exactly when the amount series agree period by period. |
| `BillingPage.ZeroTrendIffSame` | src/app/dashboard/billing/page.tsx:151 | A difference trend is all zeros exactly when the two series agree period by period. |
| `BillingPage.Notes` | src/app/dashboard/billing/page.tsx:150-155 | "Perfect alignment" exactly when both trends are all zero; "reducing" only with at least two member periods; "spike" only when the member trend is empty or its last entry is not below its first. |
| `BillingPage.NoteTextNamesNote` | src/app/dashboard/billing/page.tsx:152-155 | The three note texts are pairwise different, so the text shown determines the note. |
| `BillingPage.NotesOfView` | src/app/dashboard/billing/page.tsx:150-155 | The note is "Perfect alignment" exactly when both pairs of series agree; otherwise it is "reducing" exactly when there are at least two periods and the last member difference is below the first. |
| `BillingPage.SinglePeriodIsSpike` | src/app/dashboard/billing/page.tsx:153-155 | With one period or none and any nonzero difference, the note is the spike text. |
| `BillingPage.SignedComparison` | src/app/dashboard/billing/page.tsx:153 | The comparison is signed: member differences 100 then -300 read as "reducing". |
| `BillingPage.NarratorEndpoints` | src/app/dashboard/billing/page.tsx:150-155 | A decreasing trend is "reducing", an increasing one is a spike, all-zero and empty trends are perfect, and an empty member trend with a nonzero amount trend is a spike. |
| `BillingPage.MembersBilledPercent` | src/app/dashboard/billing/page.tsx:147 | The members-billed percentage is non-negative and at most 100 exactly when self-billed members do not exceed Facets members. |
| `BillingPage.MembersIndicator` | src/app/dashboard/billing/page.tsx:187-188 | The green check is shown exactly when self-billed members do not exceed Facets members. |
| `BillingPage.AmountIndicatorOf` | src/app/dashboard/billing/page.tsx:202-203 | The arrow points down exactly when the unrounded percent difference is positive, and the colour is green exactly when it is non-negative. |
| `BillingPage.AmountIndicatorCases` | src/app/dashboard/billing/page.tsx:202-203 | The arrow points up exactly when self ≥ Facets and the colour is green exactly when self ≤ Facets; equal amounts show a green up arrow. |
| `BillingPage.AmountIndicatorShownValue` | src/app/dashboard/billing/page.tsx:201-204 | Against the two-decimal value printed beside it: a down arrow never sits beside a negative value, a positive value always has a down arrow, red never sits beside a positive value and a negative value is always red. |
| `BillingPage.InlineRecordsWellFormed` | src/app/dashboard/billing/page.tsx:19-104 | Every view of every inline record has positive Facets totals and self-billed arrays no shorter than the Facets arrays, so the page's divisions and trends are defined for every selection. |
| `BillingPage.ClientCMonthlyIsPerfect` | src/app/dashboard/billing/page.tsx:63-81 | Client C's monthly series agree, so its note is "Perfect alignment". |
| `BillingPage.ClientAWeeklyIsReducing` | src/app/dashboard/billing/page.tsx:32-38 | Client A's weekly member differences are 100, -100, 50, 50, so its note is "reducing". |
| `BillingPage.ClientAMonthlyIsSpike` | src/app/dashboard/billing/page.tsx:25-31 | Client A's monthly member differences are 100, 200, 100, so its note is the spike text. |
| `BillingPage.MonthlyBalance` | src/app/dashboard/billing/page.tsx:19-104 | Client A's monthly totals (29200/28800 members, 583000/675000 amount) are balanced; Client D's (18300/17900 members) are not. |
| `FilePage.GroupedCounts` | src/app/dashboard/file/page.tsx:173-178 | Four rows in order: Total with fileCount/facetsCount, Active with activeFile/activeFacets, Termed with termedFile/termedFacets, Future with futureFile/futureFacets. |
| `FilePage.IsBalanced` | src/app/dashboard/file/page.tsx:180 | A balanced file has equal total and equal active counts; a file whose totals differ is never balanced. |
| `FilePage.BalancedIffAllPairsEqual` | src/app/dashboard/file/page.tsx:180 | A file is balanced exactly when each of its four File counts equals the matching Facets count. |
| `FilePage.ScorecardBadge` | src/app/dashboard/file/page.tsx:224-225 | The badge is a green "Balanced" exactly when the row's counts are equal, and a red "Mismatch" otherwise. |
| `FilePage.TileAgreesWithScorecard` | src/app/dashboard/file/page.tsx:205 | The "Balanced" tile says "Yes" exactly when all four scorecard badges say "Balanced". |
| `FilePage.BalancedTile` | src/app/dashboard/file/page.tsx:205 | "Yes" exactly when the file is balanced, "No" exactly when it is not. |
| `FilePage.ErrorText` | src/app/dashboard/file/page.tsx:216 | The error description when it is nonempty, "No errors reported." when it is empty. |
| `FilePage.UnmatchedCount` | src/app/dashboard/file/page.tsx:241 | Zero for no reasons; every reason's count is at most the unmatched count. |
| `FilePage.UnmatchedCountAppend` | src/app/dashboard/file/page.tsx:241 | The unmatched count of concatenated reason lists is the sum of their counts. |
| `FilePage.MismatchRows` | src/app/dashboard/file/page.tsx:236 | One bar per reason, in order, with the reason's category, its count as File and 0 as Facets. |
| `FilePage.MismatchRowsTotal` | src/app/dashboard/file/page.tsx:236-241 | The bars' File column adds up to the count shown on the pie's "Unmatched" slice. |
| `FilePage.ShowsMismatchSection` | src/app/dashboard/file/page.tsx:232 | When the section is hidden, the unmatched count is 0. |
| `FilePage.MismatchSectionShown` | src/app/dashboard/file/page.tsx:232 | A positive unmatched count implies the section is shown, and the section is shown exactly when there are bars. |
| `FilePage.PieSeries` | src/app/dashboard/file/page.tsx:137 | The series is the Facets count followed by the unmatched count. |
| `FilePage.PieTotal` | src/app/dashboard/file/page.tsx:151 | The pie's total label is the Facets count plus the unmatched count. |
| `FilePage.InlineFiles` | src/app/dashboard/file/page.tsx:31-92 | F001 is not balanced, shows the section and has 200 unmatched records and a pie total of 5200; F002 and F003 are balanced, show no section, and F002 shows the default error text. |
| `ClientPage.IsBalanced` | src/app/dashboard/client/page.tsx:149 | Balanced exactly when the membership tile shows twice the source count, and exactly when it shows twice the Facets count. |
| `ClientPage.Diff` | src/app/dashboard/client/page.tsx:149-150 | The difference is zero exactly when the client is balanced, positive exactly when source exceeds Facets, and Facets plus difference is source. |
| `ClientPage.MembershipCount` | src/app/dashboard/client/page.tsx:172 | The membership tile is at least each of the two counts. |
| `ClientPage.NatToStringRoundTrip` | src/app/dashboard/client/page.tsx:175 | The decimal digits of a count read back as that count. |
| `ClientPage.IntToString` | src/app/dashboard/client/page.tsx:175 | The text of `${diff}` starts with "-" exactly when the difference is negative. |
| `ClientPage.IntToStringRoundTrip` | src/app/dashboard/client/page.tsx:175 | The decimal text of a signed difference, with "-" for negatives, reads back as that difference. |
| `ClientPage.BalancedLabel` | src/app/dashboard/client/page.tsx:175 | "Yes" exactly when balanced; otherwise "No (" followed by the difference and ")". |
| `ClientPage.LabelShowsDiff` | src/app/dashboard/client/page.tsx:175 | An unbalanced label starts with "No (", ends with ")", and the text between reads back as the signed difference. |
| `ClientPage.PieData` | src/app/dashboard/client/page.tsx:204 | Two slices, "Balanced" with the Facets count and "Unbalanced" with the record's unbalanced figure. |
| `ClientPage.InlineClients` | src/app/dashboard/client/page.tsx:33-140 | Client A shows "Yes"; Client B shows "No (100)" and 12300 members; each record's unbalanced figure equals its difference. |
| `SidebarLinks.ActiveRoute` | src/components/sidebar/components/Links.tsx:26-31 | Only a present pathname that starts with the route's path can be active, and the route's own path always is. |
| `SidebarLinks.ActiveRouteRule` | src/components/sidebar/components/Links.tsx:26-31 | A pathname is active for a route exactly when it starts with the route's path and either ends there or continues with "/". |
| `SidebarLinks.ExactMatchIsActive` | src/components/sidebar/components/Links.tsx:28 | The route's own path is active. |
| `SidebarLinks.DescendantIsActive` | src/components/sidebar/components/Links.tsx:28 | Every path below the route's path is active. |
| `SidebarLinks.SiblingIsNotActive` | src/components/sidebar/components/Links.tsx:28 | A path that extends the route's last segment with something other than "/" is not active. |
| `SidebarLinks.HomepageIsNotHome` | src/components/sidebar/components/Links.tsx:28 | "/dashboard/homepage" does not activate "/dashboard/home". |
| `SidebarLinks.NotLongerIsInactive` | src/components/sidebar/components/Links.tsx:28 | A pathname no longer than a different route path never activates it. |
| `SidebarLinks.NoPathnameIsNeverActive` | src/components/sidebar/components/Links.tsx:28 | With no pathname, no route is active. |
| `SidebarLinks.Lower` | src/components/sidebar/components/Links.tsx:38 | `toLowerCase` keeps the length and lower-cases each character in place. |
| `SidebarLinks.LowerFixesLower` | src/components/sidebar/components/Links.tsx:38 | Lower-casing yields lower-case text, leaves lower-case text alone, and is idempotent. |
| `SidebarLinks.LowerAppend` | src/components/sidebar/components/Links.tsx:38 | Lower-casing a concatenation lower-cases each part. |
| `SidebarLinks.LinkFor` | src/components/sidebar/components/Links.tsx:34-84 | A link exactly for "/dashboard" routes, with the lower-cased layout plus path as href, active exactly when the pathname matches that href, and the route's name and icon. |
| `SidebarLinks.CreateLinks` | src/components/sidebar/components/Links.tsx:33-86 | One entry per route, in order, each the route's link or null. |
| `SidebarLinks.LinkCountIsDashboardCount` | src/components/sidebar/components/Links.tsx:35-36 | Whatever the pathname, the number of links equals the number of "/dashboard" routes. |
| `SidebarLinks.HrefShape` | src/components/sidebar/components/Links.tsx:38 | Every href is "/dashboard" followed by the lower-cased path, and is entirely lower case. |
| `RouteTable.FourDashboardLinks` | src/routes.tsx:21-91 | Of the ten routes, exactly the first four yield links, so the sidebar shows four links. |
| `RouteTable.DashboardHrefs` | src/routes.tsx:21-45 | The four links are Home Page, Client Insights, File Insights and Billing Insights, at "/dashboard/home", "/dashboard/client", "/dashboard/file" and "/dashboard/billing", each with an icon. |
| `RouteTable.HomePathMatchesOnlyHome` | src/routes.tsx:21-45 | A path at or below "/dashboard/home" activates the home route and none of the other three dashboard routes. |
| `RouteTable.OnlyHomeIsActive` | src/routes.tsx:21-91 | On such a path the home link is the only active entry in the sidebar. |

## Left out

- Rendering, hooks, colour-mode values, icons and the charts' look: not
  logic. The charts are modelled only through the data handed to them.
- Fetching the context data (`useEffect` with `fetch`), the selected-client
  state and the date shown on the client page: I/O and clocks. The pages
  are modelled as functions of the data and of the selected month or view.
- JavaScript numbers are modelled as unbounded integers and exact reals,
  not as IEEE doubles. `toFixed(2)` is modelled as rounding half away from
  zero on the exact value (`Round2`). Its exponent form for very large
  values and the binary rounding of decimal fractions are not captured.
- HomePage.FormatPercentDiff: the digits that `toFixed(1)` and
  `toLocaleString` print are not modelled. The result holds the percent,
  the sign and the difference as values.
- HomePage.SumClient: the `|| 0` and `|| {}` fallbacks for missing
  fields are not modelled. Counts are `nat` fields that are always present.
- BillingPage.PercentDiff, BillingPage.IsBalanced,
  BillingPage.MembersBilledPercent, BillingPage.MembersIndicator: the source
  divides by a Facets total that may be 0 and then shows `NaN` or
  `Infinity`; since `NaN <= 100` and `Infinity <= 100` are false, the
  members tile then shows the orange warning. These members require a
  positive total instead. `InlineRecordsWellFormed` shows that every view
  of the page's inline records has one.
- BillingPage.DiffTrend: it requires the self-billed series to be at least
  as long as the Facets series. The source would read `undefined` past the
  end and produce `NaN`.
- SidebarLinks.LowerChar: `toLowerCase` is modelled for ASCII letters only.
- `lobLast12MonthsAggregate` is carried in `Client` but no page reads it,
  so nothing is proved about it.
- Fields of the inline records that the model drops:
  - the file records' `clientId`, which is never read, and `fileType`,
    which is shown only in the Type tag (`src/app/dashboard/file/page.tsx:197`);
  - the client records' `billed` series (daily, weekly, monthly), `trend`
    and `mismatchBreakdown`, which only feed charts. `ClientSummary` keeps
    name, id, line of business, source, facets and unbalanced.
  - The billing records are kept whole: client, line of business, billing
    type and both views.
  - The file page's mismatch reasons carry only a category and a count. The
    model fills the context type's `exampleLine` and `description` with 0
    and "".
- The layout (`src/app/dashboard/layout.tsx`), the chart components under
  `src/components/charts/`, `Brand.tsx`, `SidebarCard.tsx` and the theme
  contain no reconciliation logic. They are not part of this model.
