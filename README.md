# Influencer CRM pages: a Dafny model

This project models the in-memory influencer-list logic of a Next.js/React
influencer-outreach CRM. The CRM is used by a diabetes-care practice to track
medical and wellness influencers. Four page components are modelled:

- **Contact dashboard** (`components/InfluencersDashboard.js`, module
  `ContactDashboard`). It holds records with string follower counts ("150K"). It has
  a search box and status filter, a statistics block computed when the list loads,
  and a "log contact" action that stamps the time of the last contact.
- **Influencer directory** (`app/influencers/page.tsx`, module
  `InfluencerDirectory`). It holds a local list seeded with demo records. It adds
  records from a form, deletes them after a confirmation, shows four statistics, and
  builds Instagram profile links from handles.
- **Outreach page** (`src/app/influencers/page.tsx`, module `OutreachPage`). It shows
  the list loaded from the database and lets the user set each record's
  collaboration status. Its outreach form saves a log entry and promotes a
  `pending` influencer to `contacted`. It also formats follower tiers and status
  badges.
- **Performance dashboard** (`src/app/influencers/dashboard/page.tsx`, module
  `PerformanceDashboard`). It computes summary metrics over the list. Its top five
  by engagement come from sorting the page's own list in place.

The shared modules are:

- `Schema`: the row types of `lib/supabase.ts` and the outcome of a query.
- `Seqs`: `filter`, sums, the order-preserving subsequence relation.
- `Text`: digit extraction, decimal numerals, `toFixed(1)`, lower case, substring,
  `trim`, first-occurrence removal, splitting at a separator.
- `Wrappers`: `Option`.

Each page's state is a class whose fields are the component's `useState` values.
Its methods are the event handlers and state transitions. The views derived from the
list are functions, with lemmas that state what they mean. The performance
dashboard keeps its list in an `array`, because `Array.prototype.sort` reorders the
state array in place. The in-place insertion sort is proved equal to a functional
stable sort, and sortedness, permutation and stability are proved about that sort.

Remote calls are not executed by the model. The outcome of each awaited query (the
rows, or what it threw) is a parameter of the method that awaits it. So are the
answer to `confirm()`, the value of `Date.now()` and the ISO timestamp of `new Date()`.

## Model

| member | source | states |
|---|---|---|
| Schema.ParseStatus | lib/supabase.ts:20 | a column string parses to a status exactly when it is that status's name |
| Schema.RowsOrEmpty | src/app/influencers/page.tsx:27 | `data \|\| []`: null data gives the empty list, otherwise the rows |
| Text.Digits | components/InfluencersDashboard.js:93 | `replace(/[^\d]/g, '')` keeps only digits, in order, as a subsequence of the input |
| Text.DigitsKeepsEveryDigit | components/InfluencersDashboard.js:93 | every digit occurs in the result as often as in the input, and no other character does |
| Text.DecimalValueOfNatToString | components/InfluencersDashboard.js:93 | `parseInt` of a decimal numeral gives back its number |
| Text.Fixed1Tenths | src/app/influencers/page.tsx:108-109 | the digits of `(n / unit).toFixed(1)`, read as one number, are the tenths of n/unit to within half a tenth |
| Text.ContainsIffOccurs | components/InfluencersDashboard.js:121-123 | `includes` holds exactly when the needle occurs at some offset |
| Text.TrimEmptyIffBlank | src/app/influencers/page.tsx:334 | `trim()` is empty exactly when every character is white space |
| Text.RemoveFirst | app/influencers/page.tsx:171 | `replace('@', '')` leaves a string without `@` as it is and otherwise drops exactly one character |
| Text.RemoveFirstAt | app/influencers/page.tsx:171 | the character removed is the first `@`; what precedes and follows it is kept |
| Text.PrefixBefore | app/influencers/page.tsx:224 | `split(',')[0]` is a prefix without a comma, followed in the input by a comma or by nothing |
| ContactDashboard.Search | components/InfluencersDashboard.js:119-126 | the view is an order-preserving subsequence of the list, never longer, and every record in it matches the term and the status |
| ContactDashboard.SearchKeepsEveryMatch | components/InfluencersDashboard.js:119-126 | each matching record occurs in the view as often as in the list; a record that does not match does not occur |
| ContactDashboard.SearchMembership | components/InfluencersDashboard.js:119-126 | a record is in the view if and only if it is in the list and matches |
| ContactDashboard.SearchWithoutFilters | components/InfluencersDashboard.js:120-124 | an empty term with status `'all'` gives the whole list, in order |
| ContactDashboard.SearchByStatus | components/InfluencersDashboard.js:124 | with a status other than `'all'`, every record shown has exactly that status |
| ContactDashboard.SearchIgnoresCase | components/InfluencersDashboard.js:120-123 | searching for a term and for its lower-cased form give the same view |
| ContactDashboard.MockData | components/InfluencersDashboard.js:29-84 | the demo list has three records with ids 1 to 3, two `active` and one `pending` |
| ContactDashboard.FollowerCount | components/InfluencersDashboard.js:93 | `parseInt` of the string's digits, 0 when there are none; its properties are the lemmas below |
| ContactDashboard.FollowerCountOfDigits | components/InfluencersDashboard.js:93 | a string made only of digits counts as the number it denotes |
| ContactDashboard.FollowerCountOfNumeral | components/InfluencersDashboard.js:93 | a numeral followed by a digitless suffix such as `K` counts as the numeral alone |
| ContactDashboard.FollowerCountOf150K | components/InfluencersDashboard.js:36 | "150K" counts as 150, not 150000 |
| ContactDashboard.FollowerCountWithoutDigits | components/InfluencersDashboard.js:93 | a string without digits counts as 0 (`\|\| 0`) |
| ContactDashboard.TotalReach | components/InfluencersDashboard.js:92-95 | the sum of the parsed follower counts; its bound is `TotalReachBounds` |
| ContactDashboard.TotalReachBounds | components/InfluencersDashboard.js:92-95 | the total reach is at least the parsed count of each record |
| ContactDashboard.CountStatus | components/InfluencersDashboard.js:90-91 | the number of records with exactly that status is at most the list length |
| ContactDashboard.CountStatusZero | components/InfluencersDashboard.js:90-91 | the count is 0 exactly when no record has that status |
| ContactDashboard.ReachLabel | components/InfluencersDashboard.js:101 | the label ends in `M` exactly when the total is strictly above 1,000,000, and in `K` otherwise |
| ContactDashboard.ReachLabelRounds | components/InfluencersDashboard.js:101 | the number in the label is the total to the nearest thousand, or to the nearest tenth of a million above 1,000,000 |
| ContactDashboard.ReachLabelAtOneMillion | components/InfluencersDashboard.js:101 | exactly 1,000,000 shows as "1000K" |
| ContactDashboard.ComputeStats | components/InfluencersDashboard.js:89-101 | the total is the list length; active and pending are the numbers of records with exactly those statuses, and together never exceed the total; the reach is the label of the summed counts |
| ContactDashboard.MockDataStats | components/InfluencersDashboard.js:29-101 | the demo records give 3 influencers, 2 active, 1 pending and a reach of "0K" |
| ContactDashboard.StampLastContact | components/InfluencersDashboard.js:142-146 | same length and order; records with the id get the new `last_contact` and nothing else changes; all other records are identical |
| ContactDashboard.StampKeepsStats | components/InfluencersDashboard.js:142-146 | stamping a contact leaves the statistics as computed at load time |
| ContactDashboard.StampIdempotent | components/InfluencersDashboard.js:142-146 | stamping twice with the same time equals stamping once |
| ContactDashboard.Dashboard.constructor | components/InfluencersDashboard.js:8-19 | the initial state: empty list, loading, empty term, filter `'all'`, zero stats |
| ContactDashboard.Dashboard.LoadInfluencers | components/InfluencersDashboard.js:22-110 | installs the demo records, sets their stats, ends loading, and the view reflects the list |
| ContactDashboard.Dashboard.Install | components/InfluencersDashboard.js:86-101 | the list is stored, its statistics computed, loading ends, and the view reflects the list; term and filter are kept |
| ContactDashboard.Dashboard.SetSearchTerm | components/InfluencersDashboard.js:171-178 | a new term recomputes the view; the list and stats are unchanged |
| ContactDashboard.Dashboard.SetFilterStatus | components/InfluencersDashboard.js:171-178 | a new status recomputes the view; the list and stats are unchanged |
| ContactDashboard.Dashboard.LogContact | components/InfluencersDashboard.js:136-146 | the list becomes the stamped list, and the view and stats stay consistent |
| InfluencerDirectory.EmptyForm | app/influencers/page.tsx:25-35 | the empty form: platform Instagram, follower count 0, empty strings, no id |
| InfluencerDirectory.DemoData | app/influencers/page.tsx:37-111 | the six demo records have ids 1 to 6, are all on Instagram and have positive follower counts |
| InfluencerDirectory.RemoveById | app/influencers/page.tsx:147 | delete keeps an order-preserving subsequence in which no record has the id |
| InfluencerDirectory.RemoveByIdKeepsOthers | app/influencers/page.tsx:147 | a record with another id, or none, survives as often as it occurred; one with the id does not survive |
| InfluencerDirectory.RemoveByIdMembership | app/influencers/page.tsx:147 | a record survives if and only if it was in the list and has another id or none |
| InfluencerDirectory.RemoveAbsentId | app/influencers/page.tsx:147 | deleting an id nobody has leaves the list unchanged |
| InfluencerDirectory.RemoveByIdIdempotent | app/influencers/page.tsx:147 | deleting the same id twice equals deleting it once |
| InfluencerDirectory.AddThenRemove | app/influencers/page.tsx:126-127 | deleting the fresh id of a just-added record gives back the earlier list |
| InfluencerDirectory.TotalReach | app/influencers/page.tsx:212 | the `reduce` sum of the follower counts; its properties are `TotalReachAfterAdd` and `TotalReachBounds` |
| InfluencerDirectory.TotalReachAfterAdd | app/influencers/page.tsx:212 | adding a record raises the reach sum by its follower count |
| InfluencerDirectory.TotalReachBounds | app/influencers/page.tsx:212 | with non-negative counts the sum is non-negative and at least each record's count |
| InfluencerDirectory.ReachLabel | app/influencers/page.tsx:212 | the label is a one-decimal number followed by `M`, with a minus sign exactly when the total is negative |
| InfluencerDirectory.ReachLabelRounds | app/influencers/page.tsx:212 | the digits of the label are the magnitude of the total in tenths of a million, to within half a tenth |
| InfluencerDirectory.SpecialtyCount | app/influencers/page.tsx:218 | the number of distinct niches is at most the list length and is 0 exactly for the empty list |
| InfluencerDirectory.CityOf | app/influencers/page.tsx:224 | the city is a prefix of the location without a comma, followed in the location by a comma or by nothing |
| InfluencerDirectory.CityOfKhajaguda | app/influencers/page.tsx:224 | "Khajaguda, Hyderabad" counts as the city "Khajaguda" |
| InfluencerDirectory.CityOfWithoutComma | app/influencers/page.tsx:224 | a location without a comma is its own city |
| InfluencerDirectory.CityCount | app/influencers/page.tsx:224 | the number of distinct cities is at most the list length and is 0 exactly for the empty list |
| InfluencerDirectory.InstagramUrl | app/influencers/page.tsx:171 | the link starts with "https://instagram.com/" and is the handle appended when the handle has no `@` |
| InfluencerDirectory.InstagramUrlOfAtHandle | app/influencers/page.tsx:171 | the handle `@name` links to the profile `name` |
| InfluencerDirectory.InstagramUrlKeepsLaterAt | app/influencers/page.tsx:171 | only the first `@` is removed; later ones stay in the link |
| InfluencerDirectory.DirectoryPage.constructor | app/influencers/page.tsx:20-35 | the initial state: empty list, empty form, form hidden, loading |
| InfluencerDirectory.DirectoryPage.FinishLoading | app/influencers/page.tsx:114-120 | the timer installs the demo records and ends loading, whatever the database holds |
| InfluencerDirectory.DirectoryPage.OpenAddForm | app/influencers/page.tsx:196 | the form is shown; nothing else changes |
| InfluencerDirectory.DirectoryPage.EditForm | app/influencers/page.tsx:301-366 | the inputs replace the form data; nothing else changes |
| InfluencerDirectory.DirectoryPage.HandleAddInfluencer | app/influencers/page.tsx:123-142 | exactly one record, the form plus the supplied id, is appended at the end; the form is reset and hidden |
| InfluencerDirectory.DirectoryPage.HandleDeleteInfluencer | app/influencers/page.tsx:145-149 | a declined confirmation leaves the list unchanged; a confirmed one removes every record with the id |
| InfluencerDirectory.DirectoryPage.ClickDelete | app/influencers/page.tsx:238 | a card without an id, or with id 0, deletes nothing |
| OutreachPage.FetchErrorText | src/app/influencers/page.tsx:29 | an `Error`'s message, or "Failed to fetch influencers" for any other thrown value |
| OutreachPage.SetStatus | src/app/influencers/page.tsx:60-62 | same length; records with the id get the new status, whatever their old one; all others are identical |
| OutreachPage.SetStatusLastWins | src/app/influencers/page.tsx:60-62 | two updates of one id equal the second alone: any status may replace any other |
| OutreachPage.SetStatusOfAbsentId | src/app/influencers/page.tsx:60-62 | an update for an absent id leaves the list unchanged |
| OutreachPage.SetStatusKeepsIds | src/app/influencers/page.tsx:60-62 | the update keeps every id, so unique ids stay unique |
| OutreachPage.FindById | src/app/influencers/page.tsx:86 | `find` returns nothing exactly when no record has the id, and otherwise the first record of the list with that id |
| OutreachPage.FindByUniqueId | src/app/influencers/page.tsx:86 | with unique ids, `find` returns the one record with the id |
| OutreachPage.PromoteIfPending | src/app/influencers/page.tsx:86-89 | same length; records with other ids are untouched, and a record with the id keeps its status or becomes `contacted` |
| OutreachPage.PromoteIfPendingUnique | src/app/influencers/page.tsx:86-89 | with unique ids, the influencer's `pending` becomes `contacted`; any other status and every other record are untouched |
| OutreachPage.PromoteIfPendingIdempotent | src/app/influencers/page.tsx:86-89 | saving a second log promotes no further |
| OutreachPage.FindAfterSetStatus | src/app/influencers/page.tsx:60-62 | after an update, `find` returns the updated version of the record it found before |
| OutreachPage.NewOutreachEntry | src/app/influencers/page.tsx:72-78 | a new log row is always `sent`, for the given influencer, method and message, dated now |
| OutreachPage.FormatFollowers | src/app/influencers/page.tsx:107-111 | `M` exactly from 1,000,000 up, `K` exactly from 1,000 up to below 1,000,000, and the plain decimal below 1,000 |
| OutreachPage.FormatFollowersRounds | src/app/influencers/page.tsx:108-109 | in the K and M tiers the label's digits are the count in tenths of the tier's unit, to within half a tenth |
| OutreachPage.FormatFollowersJustBelowMillion | src/app/influencers/page.tsx:109 | 999,999 stays in thousands and shows as "1000.0K" |
| OutreachPage.Color | src/app/influencers/page.tsx:96-103 | the badge classes of each status; that they differ is `ColorsDistinct` |
| OutreachPage.StatusColor | src/app/influencers/page.tsx:95-105 | each known status gets its own badge, and any other string gets the pending badge (for strings that are not inherited `Object.prototype` property names; see Left out) |
| OutreachPage.ColorsDistinct | src/app/influencers/page.tsx:96-103 | different statuses get different badges |
| OutreachPage.SubmittableIffVisible | src/app/influencers/page.tsx:334 | the form may be submitted exactly when the message has a non-white-space character |
| OutreachPage.Template | src/app/influencers/page.tsx:340-345 | the message template of each contact method, as text |
| OutreachPage.OutreachForm.constructor | src/app/influencers/page.tsx:329-330 | the form starts with method email and an empty message |
| OutreachPage.OutreachForm.SelectMethod | src/app/influencers/page.tsx:352-356 | choosing a method sets it and replaces the message with that method's template |
| OutreachPage.OutreachForm.SetMethod | src/app/influencers/page.tsx:354 | the method is set and the message is kept |
| OutreachPage.OutreachForm.SetContent | src/app/influencers/page.tsx:370 | typing replaces the message and keeps the method |
| OutreachPage.OutreachForm.HandleSubmit | src/app/influencers/page.tsx:332-338 | a submittable message is handed on untrimmed with the method and then cleared; a blank one is not submitted and stays |
| OutreachPage.InfluencersPage.constructor | src/app/influencers/page.tsx:7-11 | empty list, nothing selected, no logs, loading, no error |
| OutreachPage.InfluencersPage.CurrentScreen | src/app/influencers/page.tsx:113-139 | the list is shown exactly when loading has ended and the error text is unset or empty (falsy); the error screen shows the set, non-empty text |
| OutreachPage.InfluencersPage.FetchInfluencers | src/app/influencers/page.tsx:18-33 | rows replace the list and leave the error as it was; a failure keeps the list and sets the error text; loading ends; rows arriving while an error is shown leave that error screen in place |
| OutreachPage.InfluencersPage.FetchInfluencersClearingError | src/app/influencers/page.tsx:18-33 | as above, except that rows clear the error, so the list is shown |
| OutreachPage.InfluencersPage.Retry | src/app/influencers/page.tsx:130-135 | the "Retry Connection" button as evidently intended (see Findings: as written it runs `FetchInfluencers`, which keeps the error): from the error screen, rows lead to the list; a failure keeps the list, sets the new error text and shows it when it is not empty; loading ends and the selection and logs are kept |
| OutreachPage.RetryAsWritten | src/app/influencers/page.tsx:124-139 | a failed load followed by a successful retry still shows the error screen |
| OutreachPage.RetryCorrected | src/app/influencers/page.tsx:124-139 | with the corrected fetch, the same sequence shows the list |
| OutreachPage.InfluencersPage.FetchOutreachLogs | src/app/influencers/page.tsx:35-48 | rows replace the shown logs; a failure changes nothing |
| OutreachPage.InfluencersPage.SelectInfluencer | src/app/influencers/page.tsx:181-184 | the record is selected and its logs are loaded |
| OutreachPage.InfluencersPage.UpdateInfluencerStatus | src/app/influencers/page.tsx:50-66 | with no remote error the list becomes the updated list; with an error it is unchanged |
| OutreachPage.InfluencersPage.AddOutreachLog | src/app/influencers/page.tsx:68-93 | the `sent` row is inserted; on success the logs are refreshed and a pending influencer is promoted if that update succeeds; on failure nothing changes |
| OutreachPage.InfluencersPage.SubmitOutreach | src/app/influencers/page.tsx:275 | a blank message logs nothing and stays in the form; a submittable one is logged for the selected influencer and the form is cleared; a failed insert changes neither list; otherwise the logs are refreshed and the influencer promoted as in `AddOutreachLog`; selection, loading, error and the form's method are kept |
| PerformanceDashboard.TotalFollowersAppend | src/app/influencers/dashboard/page.tsx:48 | a record adds its follower count to the total, and a record without one adds nothing |
| PerformanceDashboard.TotalFollowersBounds | src/app/influencers/dashboard/page.tsx:48 | with non-negative counts the total is non-negative and at least each count |
| PerformanceDashboard.TotalFollowers | src/app/influencers/dashboard/page.tsx:48 | the `reduce` sum with a missing count as 0; its properties are `TotalFollowersAppend`, `TotalFollowersBounds` and `MetricsOfPermutation` |
| PerformanceDashboard.AvgEngagement | src/app/influencers/dashboard/page.tsx:49-51 | 0 for the empty list; otherwise the average times the length is the engagement sum |
| PerformanceDashboard.AvgEngagementBounds | src/app/influencers/dashboard/page.tsx:49-51 | rates between two bounds average between those bounds |
| PerformanceDashboard.ActiveCollaborations | src/app/influencers/dashboard/page.tsx:52-54 | the active count is at most the list length |
| PerformanceDashboard.ActiveCollaborationsAppend | src/app/influencers/dashboard/page.tsx:52-54 | a record adds one exactly when it is interested, negotiating or confirmed; pending, contacted and declined add nothing |
| PerformanceDashboard.ActiveCollaborationsNone | src/app/influencers/dashboard/page.tsx:52-54 | a list of pending, contacted and declined records has no active collaboration |
| PerformanceDashboard.PlatformStats | src/app/influencers/dashboard/page.tsx:57-60 | the `reduce` from an empty object; its contents are `PlatformStatsCounts` and `PlatformStatsSum` |
| PerformanceDashboard.CountPlatformsFold | src/app/influencers/dashboard/page.tsx:57-60 | the `reduce` adds each present platform as a key, with its number of records added to the starting count (for platform names that are not inherited `Object.prototype` property names; see Left out) |
| PerformanceDashboard.PlatformStatsCounts | src/app/influencers/dashboard/page.tsx:57-60 | the keys are exactly the platforms present, each mapped to its positive number of records (same proviso as `CountPlatformsFold`) |
| PerformanceDashboard.PlatformStatsSum | src/app/influencers/dashboard/page.tsx:57-60 | the counts add up to the list length (same proviso as `CountPlatformsFold`) |
| PerformanceDashboard.Insert | src/app/influencers/dashboard/page.tsx:64 | insertion adds exactly the one record: one longer, same multiset plus the record |
| PerformanceDashboard.SortByEngagement | src/app/influencers/dashboard/page.tsx:64 | the sort is a permutation: same length and same multiset |
| PerformanceDashboard.SortByEngagementSorted | src/app/influencers/dashboard/page.tsx:64 | the result is in non-increasing order of engagement, missing rates counting as 0 |
| PerformanceDashboard.SortByEngagementStable | src/app/influencers/dashboard/page.tsx:64 | the sort is stable: records of equal engagement keep their original order |
| PerformanceDashboard.SortByEngagementOfSorted | src/app/influencers/dashboard/page.tsx:64 | an already sorted list is left as it is |
| PerformanceDashboard.TopPerformers | src/app/influencers/dashboard/page.tsx:63-65 | `slice(0, 5)` of the sorted list has min(5, n) records; the rest is `TopPerformersSpec` |
| PerformanceDashboard.TopPerformersSpec | src/app/influencers/dashboard/page.tsx:63-65 | min(5, n) records of the list, in non-increasing order, none left out rated above one kept |
| PerformanceDashboard.MetricsOfPermutation | src/app/influencers/dashboard/page.tsx:47-60 | count, follower total, average, active count and platform counts do not depend on the order of the list |
| PerformanceDashboard.MetricsOf | src/app/influencers/dashboard/page.tsx:46-65 | the five metrics and the ranking of one render; their properties are `MetricsOfPermutation` and `MetricsAfterSort` |
| PerformanceDashboard.MetricsAfterSort | src/app/influencers/dashboard/page.tsx:46-65 | after the in-place sort, the next render shows the same metrics and the same top five |
| PerformanceDashboard.SortInPlace | src/app/influencers/dashboard/page.tsx:64 | the array ends up as the stable sort of its old contents |
| PerformanceDashboard.InsertInPlace | src/app/influencers/dashboard/page.tsx:64 | one insertion step: the prefix with the next record inserted, the rest untouched |
| PerformanceDashboard.Dashboard.constructor | src/app/influencers/dashboard/page.tsx:20-21 | an empty list, loading |
| PerformanceDashboard.Dashboard.FetchInfluencers | src/app/influencers/dashboard/page.tsx:29-44 | rows replace the list (`data \|\| []`); a failure keeps it; loading ends |
| PerformanceDashboard.Dashboard.Render | src/app/influencers/dashboard/page.tsx:46-65 | the metrics of the list as it stands, after which the list array is sorted in place |

## Left out

- Network I/O, the Supabase client, `useEffect` wiring and the interleaving of
  concurrent requests. Each awaited outcome is a parameter, and every handler runs
  to completion before the next.
- Server-side `order(...)` and `eq(...)` in the queries. The rows are taken as the
  database returns them.
- `lib/supabase.js`, the campaign pages, the root pages, layouts and Next.js
  configuration. These are remote wrappers and static markup.
- The `setTimeout` delay before the directory loads its demo records. Only the
  callback is modelled.
- `alert`, the `mailto:`/`tel:` links, `handleSendInvitation`'s message and
  `encodeURIComponent`, `window.open` itself, and the contact dashboard's modal.
- The performance dashboard's timeframe selector and its mock "recent activities".
  Neither depends on the list.
- OutreachPage.InfluencersPage.SelectInfluencer: the selected record is a copy. A
  later status update does not change it, just as the page's own copy is not updated.
- OutreachPage.InfluencersPage.UpdateInfluencerStatus: `updated_at` is sent to the
  database but is not changed in the local list, as in the source. The model does
  not track it.
- ContactDashboard.Dashboard.LogContact: the contact type only reaches the console,
  and the notes are unused, so neither is kept.
- Text.Fixed1Tenths: `toFixed` works on the double nearest to `n / unit`. For
  example, 1150/1000 is stored just below 1.15 and shows "1.1". The model rounds the
  exact quotient with ties upward and shows "1.2". So at an exact tie the model's
  tenth can be one above the program's. The bound proved is the model's half-open
  interval, and the program's answer at such a tie falls outside it.
- OutreachPage.FormatFollowersRounds: rests on the same exact rounding. At a tie
  such as 1150 the program shows "1.1K" and the model "1.2K".
- ContactDashboard.ReachLabelRounds: the same holds for the M tier. At 1,150,000
  the program shows "1.1M" and the model "1.2M". The K tier uses `Math.round` and is
  exact.
- InfluencerDirectory.ReachLabelRounds: the same holds. At 1,150,000 the program
  shows "1.1M" and the model "1.2M".
- OutreachPage.StatusColor: `colors[status]` also finds the properties every
  object inherits from `Object.prototype`. For "constructor", "toString" and the
  like it yields a function, which is truthy, so the pending badge is not used. For
  "__proto__" it yields `Object.prototype`. The model gives those strings the pending
  badge. Rows typed by the database schema hold only the six statuses.
- PerformanceDashboard.CountPlatformsFold: `acc[p] || 0` on a plain object finds
  inherited properties. For a platform named "constructor" or "toString" the first
  count becomes a string (the function's text followed by "1"). For "__proto__" no
  key is added at all. The model counts every name as a map key.
- PerformanceDashboard.PlatformStatsCounts: the same proviso. For those names the
  program's keys and counts differ from the model's.
- PerformanceDashboard.PlatformStatsSum: the same proviso. For those names the
  program's values are not all counts.
- InfluencerDirectory.DirectoryPage.HandleAddInfluencer: the browser's form
  validation is not modelled. The form's inputs are `required` and the contact
  input has `type="email"`. So the browser refuses a blank form, and also a follower
  count of 0, which the input shows as empty. The model appends whatever the form
  holds, `EmptyForm()` included.
- Text.DecimalValue: numbers are unbounded integers. `parseInt` of a numeral above
  2^53 (9007199254740992) is rounded to a double in the program and exact in the
  model.
- ContactDashboard.TotalReach: sums above 2^53 are rounded in the program and
  exact in the model.
- InfluencerDirectory.TotalReach: the same holds for sums above 2^53.
- PerformanceDashboard.TotalFollowers: the same holds for sums above 2^53.
- PerformanceDashboard.AvgEngagement: engagement rates and their average are exact
  rationals, not doubles, and their rendering with `toFixed` is not modelled.
- `toLocaleString` and the order of `Object.entries` over the platform map. They
  only affect rendering.
- OutreachPage.FormatFollowers: a `null` follower count passed to `formatFollowers`
  makes it throw, which the model does not represent. Counts are integers.
- The response-status badge colours of the outreach history. They come from a
  chain of `===` tests: `replied` is green, `sent` is blue, and every other status
  (`delivered`, `read`, `no_response`) is gray. They are display only.
- OutreachPage.Template: the templates' text is modelled. That each template is
  submittable (has a visible character) is not proved, because reasoning about
  characters of those long literals is too costly for the verifier.
- `toLowerCase` is modelled for ASCII letters only. Other Unicode case mappings are
  not modelled.
- The directory form's `parseInt(...) || 0` on the follower input. Any integer is
  accepted as the edited value.

## Findings

| source | as written | input that shows it | evidently intended | confidence | as-written member | corrected member |
|---|---|---|---|---|---|---|
| src/app/influencers/page.tsx:18-33 | `fetchInfluencers` sets `error` when a query fails but never clears it when a later query succeeds, and the error screen (lines 124-139) is shown whenever `error` is set | the first load throws `Error("timeout")`; "Retry Connection" then returns rows | a successful retry clears the error and shows the list | not executed | OutreachPage.RetryAsWritten | OutreachPage.RetryCorrected |
