# SmartUsine dashboard core, modelled in Dafny

SmartUsine is a React Native dashboard for a factory's machines. It fetches
telemetry records from a `/machines` endpoint and shows them in several views.
This project models the logic behind six of those views and proves what each
one shows.

- **Factory map** (`factory_map.dfy`, module `FactoryMap`).
  - A fixed table of eight areas on two floors.
  - The fetched records are grouped into the areas by area id and floor, both compared as text.
  - Each floor banner sums the machines and the failures of its floor's areas.
  - The floor view lists the areas of the selected floor.
  - An area card carries a failure badge.
- **Alert feed** (`alerts.dfy`, module `Alerts`).
  - Only "H"/"M" machines with at least one raised failure flag are eligible.
  - Each raised flag of an eligible machine becomes one alert. Its severity, message and colour are fixed per flag.
  - The alerts are sorted stably by severity.
  - The feed shows ten alerts per page and grows a page at a time ("load more").
  - The screen is a `class` holding the component's state (`alerts`, `isLoading`, `page`, `hasMore`). Each state update is a method.
- **Machine detail sheet** (`machine_details.dfy`, module `MachineDetails`).
  - Five machines to a page, with `Math.ceil` for the page count.
  - Previous and Next buttons, clamped and disabled at the ends. The pager is a `class` with the `currentPage` state.
  - The status badge and the five flag dots, each with its own colour rule.
- **RPM histogram** (`speed_histogram.dfy`, module `SpeedHistogram`).
  - The `forEach` grouping of rows by product id, modelled as a method with a loop invariant.
  - The rounded average per product, sorted ascending.
  - The factory RPM, which is an average of the averages.
  - The stats line and the bar chart's labels and values.
- **Failure pie** (`failure_pie_chart.dfy`, module `FailurePieChart`).
  - Five counters filled in one scan of the CSV rows.
  - Five slices in a fixed order and fixed colours.
- **Torque vs speed chart** (`torque_speed.dfy`, module `TorqueSpeed`).
  - The fixed range-to-torque table, sorted by the integer before each range's dash.
  - The labels and values projected from the sorted table.

Shared modules:

- `Machines`: the telemetry record and its five flags.
- `Seqs`: `Filter`, `Map`, `FlatMap`, JavaScript `slice`, `Option`, and `Distinct`, the first-occurrence order in which a JavaScript `Map` lists keys inserted while scanning a sequence.
- `Sorting`: a stable sort by integer key. It is proved sorted, a permutation and stable. A strictly sorted rearrangement is proved to be its only result.
- `Decimals`: `toString` of naturals and the digit prefix that `parseInt` reads.

Every component's text fields are `string`. A JSON field that is absent is
the empty string, and every test in the dashboard treats the two alike.
`parseFloat` is a parameter `parse: string -> Option<real>`, with `None`
standing for NaN.

## Model

| member | source | states |
|---|---|---|
| FactoryMap.GroupByArea | my-app/app/factoryMap.tsx:118-123 | one output area per table area, in table order, with all of the area's fields unchanged except `machines`, which becomes the records whose area and floor text equal the area's id and floor printed in decimal |
| FactoryMap.BucketIsMatchingRecords | my-app/app/factoryMap.tsx:119-121 | a record is in an area's bucket exactly when its area and floor match, and it appears there as often as in the fetched list |
| FactoryMap.BucketKeepsOrder | my-app/app/factoryMap.tsx:119-121 | grouping the concatenation of two batches gives the two buckets concatenated, so fetch order is kept |
| FactoryMap.LeadingZeroNeverMatches | my-app/app/factoryMap.tsx:120 | an area field written with a leading zero ("01") never matches any area, because the comparison is textual |
| FactoryMap.TableIdsDistinct | my-app/app/factoryMap.tsx:36-101 | the eight areas of the table have pairwise distinct ids, hence distinct (id, floor) pairs |
| FactoryMap.AtMostOneBucket | my-app/app/factoryMap.tsx:118-123 | with distinct area ids, as the table has, no record lands in two buckets |
| FactoryMap.InSomeAreaWitness | my-app/app/factoryMap.tsx:118-121 | a record that matches some area matches an area at a definite index of the table |
| FactoryMap.UnmatchedInNoBucket | my-app/app/factoryMap.tsx:118-123 | a record matching no area is in no bucket, so it is dropped from the map |
| FactoryMap.MatchImpliesInSome | my-app/app/factoryMap.tsx:118-121 | a record matching area `i` counts as matching some area |
| FactoryMap.GroupByAreaPrefix | my-app/app/factoryMap.tsx:118 | grouping into the first `k` areas gives the first `k` groups |
| FactoryMap.TotalMachinesSnoc | my-app/app/factoryMap.tsx:138 | adding one more area adds its bucket size to the machine total |
| FactoryMap.LastAreaDisjoint | my-app/app/factoryMap.tsx:118-121 | with distinct ids, a record cannot match both the last area and one of the earlier ones |
| FactoryMap.GroupedTotal | my-app/app/factoryMap.tsx:118-123 | with distinct area ids, the bucket sizes add up to the number of fetched records that match some area, and so never to more than were fetched |
| FactoryMap.FloorFailuresAtMostMachines | my-app/app/factoryMap.tsx:138-166 | a floor never shows more failures than machines |
| FactoryMap.FloorFailuresAreFailedRecords | my-app/app/factoryMap.tsx:144-148 | a floor's failure count is its machine count after grouping only the records whose `machineFailure` is "1" |
| FactoryMap.FloorCountIsFloorView | my-app/app/factoryMap.tsx:138-191 | the floor banner's machine count is the sum of the machine counts the floor view shows for that floor's areas |
| FactoryMap.TwoFloorsCoverAll | my-app/app/factoryMap.tsx:138-158 | when every area is on floor 1 or 2, the two banners add up to all grouped machines |
| FactoryMap.TableFloors | my-app/app/factoryMap.tsx:36-101 | every area of the table is on floor 1 or floor 2 |
| FactoryMap.FloorBannersCountMatchedRecords | my-app/app/factoryMap.tsx:138-158 | the two floor banners together count exactly the fetched records that match an area of the table |
| FactoryMap.FloorViewStep | my-app/app/factoryMap.tsx:190-191 | the floor filter over one more area keeps that area exactly when it is on the floor |
| FactoryMap.TableFloorsListed | my-app/app/factoryMap.tsx:36-101 | the table has eight areas, on floors 1,1,2,2,1,1,1,2 |
| FactoryMap.FirstHalfViews | my-app/app/factoryMap.tsx:190-191 | for a table laid out that way, floor 1 of the first four areas is areas 0 and 1, and floor 2 is areas 2 and 3 |
| FactoryMap.LayoutFloorOne | my-app/app/factoryMap.tsx:190-191 | for a table laid out that way, floor 1 shows areas 0, 1, 4, 5 and 6, in that order |
| FactoryMap.LayoutFloorTwo | my-app/app/factoryMap.tsx:190-191 | for a table laid out that way, floor 2 shows areas 2, 3 and 7, in that order |
| FactoryMap.FloorOneView | my-app/app/factoryMap.tsx:190-191 | floor 1 of the map shows the Main Production Floor, the Quality Control Lab, the Break Room, the Maintenance Workshop and the Restrooms, in that order |
| FactoryMap.FloorTwoView | my-app/app/factoryMap.tsx:190-191 | floor 2 of the map shows Conference Room A, the Executive Offices and the R&D Lab, in that order |
| FactoryMap.FailureCountPositive | my-app/app/factoryMap.tsx:200 | an area's failure count is positive exactly when one of its machines has `machineFailure` "1" |
| FactoryMap.ShowsFailureBadge | my-app/app/factoryMap.tsx:200-207 | the badge is shown exactly when some machine of the area has `machineFailure` equal to "1" |
| Alerts.AlertsForRaisedFlags | my-app/screens/AlertsScreen.tsx:65-121 | the checks of one machine push, in scan order, the alert of every raised flag and nothing else |
| Alerts.MachineAlertsAreRaisedFlags | my-app/screens/AlertsScreen.tsx:65-121 | one machine yields one alert per raised flag, in the order TWF, HDF, PWF, OSF, RNF |
| Alerts.AlertsForMembership | my-app/screens/AlertsScreen.tsx:67-120 | an alert comes from a run of flag checks exactly when it is the alert of a checked flag that is "1" |
| Alerts.EveryFlagListed | my-app/screens/AlertsScreen.tsx:67-120 | the checks cover all five flags |
| Alerts.MachineAlertsMembership | my-app/screens/AlertsScreen.tsx:65-121 | a machine's alerts are exactly the alerts of its raised flags |
| Alerts.FanOutMembership | my-app/screens/AlertsScreen.tsx:65-121 | the fan-out of a list holds exactly the alerts of the raised flags of its machines |
| Alerts.SomeFlagRaised | my-app/screens/AlertsScreen.tsx:56-60 | the filter's five-way disjunction is "some flag is raised" |
| Alerts.NoFlagNoAlerts | my-app/screens/AlertsScreen.tsx:53-121 | a machine with no flag equal to "1" yields no alert |
| Alerts.FanOutSnoc | my-app/screens/AlertsScreen.tsx:65-121 | one more machine appends its alerts after those already pushed |
| Alerts.GeneratedAlertsAppend | my-app/screens/AlertsScreen.tsx:53-121 | the alerts of two batches of machines are the first batch's followed by the second's |
| Alerts.GeneratedAlertsSingle | my-app/screens/AlertsScreen.tsx:53-121 | a single machine yields its flag alerts when eligible and nothing otherwise |
| Alerts.GeneratedAlertsSnoc | my-app/screens/AlertsScreen.tsx:53-121 | one more machine appends its alerts only if it is eligible |
| Alerts.FlagTestRedundant | my-app/screens/AlertsScreen.tsx:53-61 | the filter's flag test changes nothing: filtering on type alone gives the same alerts |
| Alerts.GeneratedAlertsMembership | my-app/screens/AlertsScreen.tsx:53-121 | an alert is generated exactly when it is the alert of a raised flag of an "H" or "M" machine; other types, "L" included, raise none |
| Alerts.AlertColorsMatchSeverity | my-app/screens/AlertsScreen.tsx:67-120 | every alert's border colour is its severity's colour, and its severity and message belong to a single flag |
| Alerts.LabelIgnoresFailure | my-app/screens/AlertsScreen.tsx:69 | the machine label does not depend on `machineFailure` |
| Alerts.DetailsIgnoreFailure | my-app/screens/AlertsScreen.tsx:72 | the alert details do not depend on `machineFailure` |
| Alerts.AlertsForIgnoreFailure | my-app/screens/AlertsScreen.tsx:67-120 | a machine's flag alerts do not depend on `machineFailure` |
| Alerts.FailureFieldIgnored | my-app/screens/AlertsScreen.tsx:53-121 | changing any machine's `machineFailure` changes no alert |
| Alerts.RankRange | my-app/screens/AlertsScreen.tsx:125 | every severity ranks 0, 1 or 2 |
| Alerts.BySeveritySorted | my-app/screens/AlertsScreen.tsx:124-127 | the HIGH, then MEDIUM, then LOW grouping is sorted by rank |
| Alerts.ClassOfRankGroup | my-app/screens/AlertsScreen.tsx:124-127 | the group of rank `j` contains alerts of rank `j` only |
| Alerts.BySeverityStable | my-app/screens/AlertsScreen.tsx:124-127 | within each severity, the grouping keeps the order in which the alerts were pushed |
| Alerts.SortIsBySeverity | my-app/screens/AlertsScreen.tsx:124-127 | the stable sort by severity rank is the HIGH/MEDIUM/LOW grouping, a permutation of the pushed alerts |
| Alerts.OfRankStep | my-app/screens/AlertsScreen.tsx:124-127 | the group of a rank over one more alert gains that alert exactly when it has the rank |
| Alerts.GatherBySeverity | my-app/screens/AlertsScreen.tsx:124-127 | one scan of the array collects the HIGH, MEDIUM and LOW alerts, each in array order |
| Alerts.WriteBack | my-app/screens/AlertsScreen.tsx:124 | the array afterwards holds the given sequence |
| Alerts.SortBySeverity | my-app/screens/AlertsScreen.tsx:124-127 | `newAlerts.sort` leaves the array stably sorted by severity rank |
| Alerts.PushIfRaised | my-app/screens/AlertsScreen.tsx:67-76 | one flag check appends that flag's alert exactly when the flag is "1" |
| Alerts.PushMachineAlerts | my-app/screens/AlertsScreen.tsx:65-121 | the checks of one machine append exactly its flag alerts |
| Alerts.GenerateAlerts | my-app/screens/AlertsScreen.tsx:53-127 | filter, fan-out and sort produce the severity-sorted alerts of the eligible machines |
| Alerts.VisibleAlerts | my-app/screens/AlertsScreen.tsx:168 | the feed shows the first `page * 10` alerts, or all of them when there are fewer |
| Alerts.VisibleGrows | my-app/screens/AlertsScreen.tsx:168 | a later page only appends to what an earlier page showed |
| Alerts.AllVisibleEventually | my-app/screens/AlertsScreen.tsx:168 | once `page * 10` reaches the number of alerts, all of them are shown |
| Alerts.AlertsScreen.constructor | my-app/screens/AlertsScreen.tsx:38-41 | the screen starts with no alerts, loading, on page 1, with `hasMore` set |
| Alerts.AlertsScreen.BeginFetch | my-app/screens/AlertsScreen.tsx:49 | a fetch only sets the loading flag |
| Alerts.AlertsScreen.FetchCompleted | my-app/screens/AlertsScreen.tsx:129-135 | a response replaces the alerts by the sorted alerts and sets `hasMore` to "more than ten"; a failed fetch keeps the old state; either way loading ends and the page is kept |
| Alerts.AlertsScreen.LoadMore | my-app/screens/AlertsScreen.tsx:138-142 | reaching the end moves to the next page only while `hasMore` holds, and changes nothing else |
| Alerts.AlertsScreen.View | my-app/screens/AlertsScreen.tsx:164-183 | the screen shows "Loading alerts..." while loading, "No alerts at this time." when there are none, and otherwise the visible alerts with the "Loading more" footer exactly when `hasMore` holds |
| Alerts.OfRankSingle | my-app/screens/AlertsScreen.tsx:124-127 | a single alert is in the group of its own rank only |
| Alerts.OfRankOfFour | my-app/screens/AlertsScreen.tsx:124-127 | the group of a rank over four alerts is the groups of each alert, concatenated |
| Alerts.ExampleHigh | my-app/screens/AlertsScreen.tsx:124-127 | in LOW, HIGH, MEDIUM, HIGH, the HIGH group is the two HIGH alerts in order |
| Alerts.ExampleMedium | my-app/screens/AlertsScreen.tsx:124-127 | in LOW, HIGH, MEDIUM, HIGH, the MEDIUM group is the one MEDIUM alert |
| Alerts.ExampleLow | my-app/screens/AlertsScreen.tsx:124-127 | in LOW, HIGH, MEDIUM, HIGH, the LOW group is the one LOW alert |
| Alerts.SortExample | my-app/screens/AlertsScreen.tsx:124-127 | LOW, HIGH1, MEDIUM, HIGH2 sort to HIGH1, HIGH2, MEDIUM, LOW |
| Alerts.GroupsExample | my-app/screens/AlertsScreen.tsx:124-127 | the grouping of LOW, HIGH1, MEDIUM, HIGH2 is HIGH1, HIGH2, MEDIUM, LOW |
| MachineDetails.TotalPages | my-app/components/MachineDetails.tsx:101 | the page count is the fewest pages of five that hold the list |
| MachineDetails.PageIsRun | my-app/components/MachineDetails.tsx:100 | page `p` is the run of at most five machines from position `5(p-1)`, cut short by the end of the list, or empty past it |
| MachineDetails.PageZeroEmpty | my-app/components/MachineDetails.tsx:100 | page 0 shows nothing |
| MachineDetails.PageNonEmptyIff | my-app/components/MachineDetails.tsx:100-101 | a page from 1 on shows something exactly when its number is at most the page count |
| MachineDetails.MachineOnPage | my-app/components/MachineDetails.tsx:100-101 | the machine at position `i` is item `i % 5` of page `i / 5 + 1`, which exists |
| MachineDetails.PagesUpToIsPrefix | my-app/components/MachineDetails.tsx:100 | the first `k` pages concatenate to the first `5k` machines |
| MachineDetails.PagesCoverList | my-app/components/MachineDetails.tsx:100-101 | paging through all pages shows the whole list once, in order |
| MachineDetails.PagesDisjoint | my-app/components/MachineDetails.tsx:100 | slot `i` of page `p` shows the machine at position `5(p-1)+i`, and every slot of a later page shows a machine at a later position, so two pages never show the same position |
| MachineDetails.LastPageSize | my-app/components/MachineDetails.tsx:100-101 | the last page of a non-empty list holds one to five machines, the remainder of the list |
| MachineDetails.TwelveMachines | my-app/components/MachineDetails.tsx:100-101 | twelve machines make three pages: the first holds machines 1-5 and the third holds machines 11-12 |
| MachineDetails.PressKeepsReachable | my-app/components/MachineDetails.tsx:119-133 | pressing either button keeps the page among the reachable pages |
| MachineDetails.PressMovesOnePage | my-app/components/MachineDetails.tsx:119-133 | on a non-empty list, an enabled button moves exactly one page |
| MachineDetails.EmptyListNext | my-app/components/MachineDetails.tsx:129-133 | with no machines, Next is enabled on page 1 and leads to "Page 0 of 0", and Previous leads back |
| MachineDetails.PressAllReachable | my-app/components/MachineDetails.tsx:119-133 | no run of presses leaves the reachable pages |
| MachineDetails.NextPresses | my-app/components/MachineDetails.tsx:129-133 | `k` presses of Next from page `p` end at the smaller of `p + k` and the last page |
| MachineDetails.MachinePager.constructor | my-app/components/MachineDetails.tsx:36 | the sheet opens on page 1 |
| MachineDetails.MachinePager.PressPrevious | my-app/components/MachineDetails.tsx:119-123 | Previous does nothing on page 1 and otherwise sets `max(1, page - 1)`, and the page stays reachable |
| MachineDetails.MachinePager.PressNext | my-app/components/MachineDetails.tsx:129-133 | Next does nothing on the last page and otherwise sets `min(totalPages, page + 1)`, and the page stays reachable |
| MachineDetails.StatusHealthyIff | my-app/components/MachineDetails.tsx:38-45 | the badge is green with a check mark exactly when `machineFailure` is "0" or missing |
| MachineDetails.Indicators | my-app/components/MachineDetails.tsx:78-82 | five dots labelled TWF, HDF, PWF, OSF, RNF, each green exactly when its flag is "0" |
| MachineDetails.RaisedOrMissingShowsRed | my-app/components/MachineDetails.tsx:144 | a raised or missing flag shows a red dot |
| MachineDetails.MissingFieldsDisagree | my-app/components/MachineDetails.tsx:94 | a record with missing fields shows a green badge but red dots |
| SpeedHistogram.Round | my-app/components/RotationalSpeedHistogram.tsx:57 | `Math.round` gives the integer within half of `x`, with halves going up |
| SpeedHistogram.RoundHalves | my-app/components/RotationalSpeedHistogram.tsx:57 | 2.5 rounds to 3, -2.5 to -2 and 2.49 to 2 |
| SpeedHistogram.TotalsSnoc | my-app/components/RotationalSpeedHistogram.tsx:35-52 | one more row adds to a product's count and total only when it is kept and carries that product's id |
| SpeedHistogram.IdsSnoc | my-app/components/RotationalSpeedHistogram.tsx:45-46 | a product id is listed once, at the first kept row that carries it |
| SpeedHistogram.RowCountIsFilter | my-app/components/RotationalSpeedHistogram.tsx:35-52 | a product's count is the number of its kept rows |
| SpeedHistogram.IdsHaveRows | my-app/components/RotationalSpeedHistogram.tsx:45-51 | a product is listed exactly when it has at least one kept row |
| SpeedHistogram.NoRowsNoTotal | my-app/components/RotationalSpeedHistogram.tsx:45-51 | a product with no kept row has total 0 |
| SpeedHistogram.FirstRowOfProduct | my-app/components/RotationalSpeedHistogram.tsx:45-46 | a product's first kept row gives the group `{total: speed, count: 1}` |
| SpeedHistogram.SkipKeepsSummary | my-app/components/RotationalSpeedHistogram.tsx:36-43 | a row without a product id or speed, or whose speed is NaN, leaves the map a summary of the rows seen |
| SpeedHistogram.NewKeepsSummary | my-app/components/RotationalSpeedHistogram.tsx:45-46 | adding a new product's entry keeps the map a summary of the rows seen |
| SpeedHistogram.ExistingKeepsSummary | my-app/components/RotationalSpeedHistogram.tsx:47-51 | bumping an existing product's total and count keeps the map a summary of the rows seen |
| SpeedHistogram.StepKeepsSummary | my-app/components/RotationalSpeedHistogram.tsx:35-52 | every `forEach` step keeps the map a summary of the rows seen |
| SpeedHistogram.AddRow | my-app/components/RotationalSpeedHistogram.tsx:36-51 | the body of the `forEach` performs the step: it skips, starts a new product or adds to an existing one |
| SpeedHistogram.AccumulateGroups | my-app/components/RotationalSpeedHistogram.tsx:33-52 | after the `forEach`, the map holds, for each product with a kept row, its speed total and row count, with keys in first-seen order |
| SpeedHistogram.GroupsGiveAverages | my-app/components/RotationalSpeedHistogram.tsx:54-58 | every listed group has at least one row, and its rounded mean is the product's average |
| SpeedHistogram.AveragesInKeyOrder | my-app/components/RotationalSpeedHistogram.tsx:54-58 | the `map` step turns each group, in key order, into its product id and rounded mean |
| SpeedHistogram.CalculateMachineAverages | my-app/components/RotationalSpeedHistogram.tsx:31-62 | the computed list is the per-product rounded averages sorted ascending |
| SpeedHistogram.UnsortedDistinct | my-app/components/RotationalSpeedHistogram.tsx:54-58 | before sorting, each product appears at most once |
| SpeedHistogram.AveragesSpec | my-app/components/RotationalSpeedHistogram.tsx:54-60 | the result is sorted by average, lists every product with a kept row exactly once with the rounded mean of its rows, and nothing else |
| SpeedHistogram.AverageUnchanged | my-app/components/RotationalSpeedHistogram.tsx:36-43 | a skipped row changes no product's average |
| SpeedHistogram.UnsortedUnchanged | my-app/components/RotationalSpeedHistogram.tsx:36-43 | a skipped row changes no entry of the unsorted averages |
| SpeedHistogram.SkippedRowIgnored | my-app/components/RotationalSpeedHistogram.tsx:36-43 | a row without a product id or speed, or whose speed does not parse, changes nothing in the chart |
| SpeedHistogram.SumBounds | my-app/components/RotationalSpeedHistogram.tsx:94 | the sum of `n` averages between `lo` and `hi` is between `lo * n` and `hi * n` |
| SpeedHistogram.RoundedMeanBetween | my-app/components/RotationalSpeedHistogram.tsx:95 | the rounded mean of values between `lo` and `hi` stays between them |
| SpeedHistogram.FactoryRpmBetween | my-app/components/RotationalSpeedHistogram.tsx:92-96 | the factory RPM lies between the slowest and the fastest machine's average |
| SpeedHistogram.TwoMachineRpm | my-app/components/RotationalSpeedHistogram.tsx:92-96 | two machines averaging 1000 and 2000 rpm give a factory RPM of 1500 |
| SpeedHistogram.ThreeThenOneIds | my-app/components/RotationalSpeedHistogram.tsx:35-52 | three kept rows of one product and then one of another give the two product ids, in that order |
| SpeedHistogram.ThreeThenOneTotals | my-app/components/RotationalSpeedHistogram.tsx:35-52 | the same four rows give the first product a count of 3 and three times its speed, the second a count of 1 and its speed, and any other id nothing |
| SpeedHistogram.ExampleAverages | my-app/components/RotationalSpeedHistogram.tsx:31-60 | three rows of product "A" at "1000" and one of "B" at "2000" give the averages A = 1000 and B = 2000, in that order |
| SpeedHistogram.ExampleFactoryRpm | my-app/components/RotationalSpeedHistogram.tsx:92-96 | those four rows give a factory RPM of 1500 |
| SpeedHistogram.AverageOfAverages | my-app/components/RotationalSpeedHistogram.tsx:92-96 | the factory RPM averages the machines, not the rows: those four rows list two products and give a factory RPM of 1500, while the mean of their four speeds is 1250 |
| SpeedHistogram.StatsOf | my-app/components/RotationalSpeedHistogram.tsx:117-121 | "Total Machines" is the number of products with a kept row and never exceeds "Total Records" |
| SpeedHistogram.SkippedRowCountsAsRecord | my-app/components/RotationalSpeedHistogram.tsx:75 | a skipped row adds one to "Total Records" and nothing to "Total Machines" |
| SpeedHistogram.ChartLabel | my-app/components/RotationalSpeedHistogram.tsx:99 | a bar's label is the last five characters of the product id, or all of a shorter one |
| SpeedHistogram.ChartValues | my-app/components/RotationalSpeedHistogram.tsx:102 | the bars are the averages in order, or a single 0 bar when there are none |
| FailurePieChart.Tally | my-app/components/FailureTypePieChart.tsx:50-56 | a counter never exceeds the number of rows |
| FailurePieChart.FailureCounts | my-app/components/FailureTypePieChart.tsx:41-59 | each counter is the number of rows whose column is exactly "1" |
| FailurePieChart.CountRow | my-app/components/FailureTypePieChart.tsx:51-55 | one row bumps each counter whose column is "1", independently |
| FailurePieChart.TallySnoc | my-app/components/FailureTypePieChart.tsx:50-56 | one more row adds one to each counter whose column is "1" in it |
| FailurePieChart.CountersDetermine | my-app/components/FailureTypePieChart.tsx:42-48 | the five counters determine the counts object |
| FailurePieChart.GetFailureCounts | my-app/components/FailureTypePieChart.tsx:41-59 | starting from zeroes and scanning once yields, per cause, the number of rows with that column "1" |
| FailurePieChart.TallyAppend | my-app/components/FailureTypePieChart.tsx:50-56 | counting two batches adds their counts |
| FailurePieChart.OnlyExactOneCounts | my-app/components/FailureTypePieChart.tsx:51-55 | a row whose columns are all other than "1" changes no counter |
| FailurePieChart.SumCanExceedRows | my-app/components/FailureTypePieChart.tsx:50-56 | a row failing in all five ways counts once per cause, so the slices can sum to more than the rows |
| FailurePieChart.SliceColorsDistinct | my-app/components/FailureTypePieChart.tsx:63-69 | each cause has its own slice colour |
| FailurePieChart.ChartData | my-app/components/FailureTypePieChart.tsx:63-69 | five slices, TWF to RNF, each sized by its counter, with its colour and a white 12-point legend |
| FailurePieChart.View | my-app/components/FailureTypePieChart.tsx:74-95 | "Loading data..." exactly when there are no rows; otherwise five slices sized by the counts |
| TorqueSpeed.BeforeDash | my-app/components/TorqueSpeedRelationship.tsx:21 | `split("-")[0]` is the longest dash-free prefix of the label |
| TorqueSpeed.BeforeDashOfRange | my-app/components/TorqueSpeedRelationship.tsx:21 | for a dash-free `a`, the text before the dash of "a-b" is `a` |
| TorqueSpeed.RangeStartOfDigits | my-app/components/TorqueSpeedRelationship.tsx:21 | a label made of digits, a dash and anything parses to the value of those digits |
| TorqueSpeed.RangeStartOf | my-app/components/TorqueSpeedRelationship.tsx:21 | a label printed from `n` followed by a dash parses back to `n` |
| TorqueSpeed.SortedEntriesSpec | my-app/components/TorqueSpeedRelationship.tsx:20-24 | the sorted entries rise by range start, are a permutation of the table and keep entries with equal starts in table order |
| TorqueSpeed.ChartAligned | my-app/components/TorqueSpeedRelationship.tsx:26-33 | the labels and the bars have the same length, and the `i`-th label is paired with the `i`-th bar exactly as in the table |
| TorqueSpeed.TableStarts | my-app/components/TorqueSpeedRelationship.tsx:12-17 | the six ranges start at 0, 501, 1001, 1501, 2001 and 2501 |
| TorqueSpeed.SixRising | my-app/components/TorqueSpeedRelationship.tsx:20-24 | six entries whose starts rise strictly are strictly ordered under the comparator |
| TorqueSpeed.OrderedStrict | my-app/components/TorqueSpeedRelationship.tsx:20-24 | the ranges in ascending order have strictly rising starts |
| TorqueSpeed.SameEntries | my-app/components/TorqueSpeedRelationship.tsx:11-18 | the ascending list holds exactly the table's entries |
| TorqueSpeed.SortedIsStrictOrder | my-app/components/TorqueSpeedRelationship.tsx:20-24 | entries that can be rearranged into strictly rising starts are sorted into exactly that order |
| TorqueSpeed.ChartOrder | my-app/components/TorqueSpeedRelationship.tsx:11-24 | every label of the table parses, and the table sorts to 0-500, 501-1000, 1001-1500, 1501-2000, 2001-2500, 2501-3000 with their torques |
| TorqueSpeed.ChartLabels | my-app/components/TorqueSpeedRelationship.tsx:11-33 | the chart's labels are the six ranges in ascending order, and its bars are their torques 0, 0, 47.46, 33.49, 17.50 and 10.575 |
| Decimals.DecimalRoundTrip | my-app/app/factoryMap.tsx:120 | reading back the decimal text of `n` gives `n` |
| Decimals.DecimalStringInjective | my-app/app/factoryMap.tsx:120 | distinct numbers print differently, so `area.id.toString()` identifies the area |
| Decimals.ParseDecimalString | my-app/components/TorqueSpeedRelationship.tsx:21 | `parseInt` of a printed natural gives it back |
| Sorting.SortBy | my-app/screens/AlertsScreen.tsx:124-127 | the result is sorted by the key and is a permutation of the input |
| Sorting.SortByStable | my-app/screens/AlertsScreen.tsx:124-127 | the sort keeps equal-key elements in input order |
| Sorting.SortedClassesDetermine | my-app/screens/AlertsScreen.tsx:124-127 | two sorted sequences with the same elements in the same order within each key are equal, so a stable sort has exactly one result |
| Sorting.SortByStrict | my-app/components/TorqueSpeedRelationship.tsx:20-24 | when the keys of a rearrangement rise strictly, the sort produces that rearrangement |

## Left out

- The network fetches, the JSON and CSV decoding (`response.json()`, `Papa.parse`), `console` logging and the error texts set in `catch` blocks are left out. They are I/O. A failed fetch in the alert feed is modelled only as a missing response.
- `parseFloat` is a parameter `parse` from text to an optional exact real. `None` stands for NaN. Finite speeds give finite exact means, so the `isNaN` filter after rounding (RotationalSpeedHistogram.tsx:59) never removes anything in the model.
- Floating-point rounding is not modelled. Totals and means are exact reals, and the torque values are exact decimals.
- `Number.parseInt` is modelled as reading a leading run of ASCII digits. Leading whitespace, a sign, and hex or exponent forms are not modelled. The labels in the table use none of them.
- A field missing from the JSON object is the empty string. The alert texts would print such a field as "undefined", which the model does not reproduce.
- `udi` and the other fields that no modelled view reads are carried but not interpreted.
- Styling, icons, `getAreaColor`, `"N/A"`/`"Unknown"` placeholders, modal opening and closing, and the floor buttons' highlighting are left out. The selected floor is an argument of the floor view.
- React's asynchronous state updates, re-renders, unmounting and races between overlapping fetches are left out. The state updates of one fetch are applied in program order.
- The JavaScript engine's sort algorithm is not modelled. Only its result is: `Array.prototype.sort` is stable, so the result is the unique stably sorted permutation. `Alerts.SortBySeverity` computes that result by gathering the alerts by severity and writing them back, not by the engine's comparisons.
- TorqueSpeed.SortedEntries: requires every label to have a number before its dash. With a label that does not parse, the comparator returns NaN and the order is left to the engine. The table's six labels all parse, as `TorqueSpeed.ChartOrder` proves.
- SpeedHistogram.ChartLabel: takes the last five Unicode characters of the product id, while `slice(-5)` takes the last five UTF-16 code units. The two differ only for ids holding characters outside the Basic Multilingual Plane, which the model's `char` cannot split.
- The alert card's rendering (`renderAlert`, including the severity badge's text) is left out with the rest of the styling; the model's feed ends at the list of alerts shown.
- `Object.entries` is taken to list the table's keys in the order they are written. None of them is an integer-like key, so that is the order the engine uses.
- In the alert feed, `hasMore` is set only when a fetch completes and never after a page is loaded, exactly as the code does. The model keeps that behaviour rather than a recomputed flag.
- A change of the `machines` prop while the detail sheet is open keeps the current page in the code. The model builds one pager per list.
- The other components of the repository (tool wear, temperature and type charts, login, menu cards, the machine status tab and the data services) are not part of this model.
