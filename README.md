# SpaceX launch dashboard: the data layer, in Dafny

The dashboard loads a table of launch records once. Each record has a launch
site, a payload mass in kilograms and an outcome class (1 = success,
0 = failure). Two charts are drawn from it:

- a success pie that is driven by a site dropdown;
- a payload/outcome scatter that is driven by the same dropdown and a payload
  range slider.

This project models the part of the dashboard that derives data from the
table. It is written as pure functions over an immutable `seq<Launch>`, with
lemmas about them. There are three pieces:

- **Dropdown options** (`SiteCatalog`): a fixed `("All Sites", "ALL")` entry,
  then one entry per distinct launch site. Each of these entries uses the
  site name as both label and value, and they are in Python's ascending
  string order.
- **Pie data** (`SuccessPie`). With `"ALL"`, the table is grouped by site and
  the class column is summed per group. This gives one wedge per site, in
  ascending site order in the frame passed to `px.pie`, and a site with no
  successes keeps a zero wedge.
  With a single site, the site's class column goes through `value_counts`
  and is renamed to "Success" and "Failure". An outcome that never occurs
  gets no wedge, and the more frequent outcome comes first in the frame
  passed to `px.pie`.
- **Scatter data** (`PayloadScatter`). It keeps the rows with
  `low <= payload <= high` (both ends inclusive) and then, unless `"ALL"` is
  chosen, the rows of the chosen site. It also chooses the chart title.

Supporting modules:

- `Frame` models pandas boolean-mask selection as an order-preserving filter.
- `TextOrder` models Python's `str` ordering and `sorted(...unique())`.
- `Launches` holds the record type, the column reductions (`sum`, the counts
  behind `value_counts`, `min` and `max`) and the site mask.
- `Scenarios` works a small two-site table through all three pieces.

Modelling choices:

- Python compares strings code point by code point, and a proper prefix sorts
  first. `TextOrder.Less` is that order, and it is proved to be a strict total
  order.
- `value_counts` sorts its results by count, largest first. For a tie, the
  model puts first the outcome of the site's first launch, which is the order
  in which pandas first meets the two values. pandas does not document its
  tie order, so this is the one behaviour chosen rather than read off the
  code.
- The source handles a payload range with `low > high`: the mask is then
  empty. The model handles it the same way and has no precondition on the
  range.
- `"ALL"` is a sentinel value. A site literally named `ALL` would be read as
  the aggregate choice, in the source and in the model alike.

## Model

| member | source | states |
|---|---|---|
| `SiteCatalog.SiteOptions` | spacex-dash-app.py:18-20 | The first option is exactly ("All Sites", "ALL"). Every later option has label equal to value, and the later values are strictly ascending in Python string order, so there are no duplicates. Each later value is a site of the table, and every site of the table appears among them. |
| `SiteCatalog.SiteOptionsAreSortedSites` | spacex-dash-app.py:18-20 | The options after the first are determined by the table: they equal any strictly ascending list holding exactly the table's sites, wrapped as (site, site). |
| `SiteCatalog.LaunchSites` | spacex-dash-app.py:19 | `sorted(df["Launch Site"].unique())` is strictly ascending and holds exactly the sites that occur in the table. |
| `SiteCatalog.TailValuesAreSites` | spacex-dash-app.py:18-20 | The values of the options after the first are strictly ascending and are exactly the sites of the table. |
| `TextOrder.SortedDistinct` | spacex-dash-app.py:19 | The sorted distinct values of a column are strictly ascending and have exactly the column's values as members. |
| `TextOrder.Insert` | spacex-dash-app.py:19 | Adding a value to a strictly ascending list keeps it strictly ascending and adds exactly that value to its members. |
| `TextOrder.StrictlySortedUnique` | spacex-dash-app.py:19 | Two strictly ascending lists with the same members are equal, so the sorted distinct list is unique. |
| `TextOrder.LessTotal` | spacex-dash-app.py:19 | Python string order relates any two different strings one way or the other. |
| `TextOrder.LessTransitive` | spacex-dash-app.py:19 | Python string order is transitive. |
| `TextOrder.LessIrreflexive` | spacex-dash-app.py:19 | No string is below itself. |
| `Launches.SiteColumn` | spacex-dash-app.py:19 | The "Launch Site" column holds, at each position, the site of the row at that position, and its values are exactly the sites of the table. |
| `Launches.MinPayload` | spacex-dash-app.py:11 | `min_payload` is the payload of some row and is at most every row's payload. |
| `Launches.MaxPayload` | spacex-dash-app.py:10 | `max_payload` is the payload of some row and is at least every row's payload. |
| `Launches.ClassSumCountsSuccesses` | spacex-dash-app.py:79 | Summing the 0/1 class column gives the number of successful launches. |
| `Launches.CountsPartition` | spacex-dash-app.py:92 | The counts of class 1 and class 0 add up to the number of rows. |
| `SuccessPie.SuccessesBySite` | spacex-dash-app.py:76-81 | The "ALL" wedges have one name per distinct site. The names are strictly ascending and are exactly the table's sites. Each wedge's value is the class sum of that site's rows, which is its number of successes. All values together add up to the table's number of successes. |
| `SuccessPie.SiteSlices` | spacex-dash-app.py:79 | One group row per listed site, in list order, each holding the site and the class sum of that site's rows. |
| `SuccessPie.AggregateTotal` | spacex-dash-app.py:78-81 | The per-site class sums add up to the number of class-1 rows in the whole table. |
| `SuccessPie.TotalSiteSlices` | spacex-dash-app.py:79 | For a strictly ascending list of sites, the group sums add up to the class sum over the rows at those sites. |
| `SuccessPie.ClassSumInCovering` | spacex-dash-app.py:79 | Summing the class column over a set of sites that covers every row gives the whole column's sum. |
| `SuccessPie.ClassSumInSplit` | spacex-dash-app.py:79 | The class sum over a set of sites equals the sum over one of its sites plus the sum over the rest. |
| `SuccessPie.SiteSumIsClassSumIn` | spacex-dash-app.py:79 | The class sum of a site's masked rows equals the class sum restricted to that site. |
| `SuccessPie.SiteSlicesCountSuccesses` | spacex-dash-app.py:79 | Each group's class sum is the group's number of successful launches. |
| `SuccessPie.RankedOutcomes` | spacex-dash-app.py:92-93 | Given the tallies, every wedge is "Success" or "Failure" with a positive value equal to its tally. An outcome has a wedge exactly when its tally is positive. Names are distinct, values do not increase, a tie puts first the outcome met first, and the wedges add up to both tallies. |
| `SuccessPie.OutcomeCounts` | spacex-dash-app.py:88-93 | For one site: "Success" has the count of the site's class-1 rows and "Failure" the count of its class-0 rows. A wedge exists exactly when its count is positive, and the larger count comes first. On a tie, the outcome of the site's first row comes first. The wedges add up to the site's number of rows, and they are empty exactly when the site has no rows. |
| `SuccessPie.UpdatePie` | spacex-dash-app.py:75-100 | With "ALL", the title is "Total Successful Launches by Site" and the wedges are the per-site success sums of `SuccessesBySite`, totalling the table's successes. With a site, the title is "Launch Outcomes for " + site and the wedges are the Success/Failure counts of `OutcomeCounts`, totalling the site's launches. |
| `SuccessPie.PieSitesFollowDropdown` | spacex-dash-app.py:79 | The frame passed to `px.pie` for "ALL" lists its sites in the dropdown's order, one per option after "All Sites". |
| `SuccessPie.DropdownSiteHasOutcomes` | spacex-dash-app.py:90-92 | Any site the dropdown offers has launches, so its outcome pie is non-empty and has a positive total. |
| `Frame.Filter` | spacex-dash-app.py:90 | A boolean mask keeps, as members, exactly the rows that satisfy it, as an order-preserving subsequence of the table, and the result is no longer than the table. How often each row is kept is stated by `Frame.FilterMultiplicity`. |
| `Frame.FilterMultiplicity` | spacex-dash-app.py:112 | A masked table holds each accepted row exactly as often as the table does, and each rejected row never. |
| `Frame.FilterFilter` | spacex-dash-app.py:111-116 | Applying the payload mask and then the site mask equals applying their conjunction once. |
| `Frame.FilterKeepsAll` | spacex-dash-app.py:111 | A mask that is true on every row keeps the table unchanged. |
| `PayloadScatter.ScatterPoints` | spacex-dash-app.py:109-116 | Every plotted row has low <= payload <= high, and when the site is not "ALL", the chosen site. Every table row that meets these conditions is plotted. Each row is plotted exactly as often as it occurs in the table, or never. The result is an order-preserving subsequence of the table. It is empty when low > high. |
| `PayloadScatter.ScatterTitle` | spacex-dash-app.py:124-125 | The title is the bare "Correlation between Payload and Success" exactly when the site is "ALL"; otherwise it is "Correlation between Payload and Success for " followed by the site name, so it ends with the site name. |
| `PayloadScatter.UpdateScatter` | spacex-dash-app.py:108-128 | The title is the bare "Correlation between Payload and Success" exactly when the site is "ALL"; otherwise the title is "Correlation between Payload and Success for " + site. Every point is a table row with low <= payload <= high and, unless "ALL" is chosen, the chosen site; every such table row is a point, as often as the table holds it and no more often; the points keep table order. |
| `PayloadScatter.InitialRangePlotsEverything` | spacex-dash-app.py:48-52 | With the slider at its initial [min_payload, max_payload], the payload mask drops nothing: "ALL" plots the whole table and a site plots all of its rows. |
| `Scenarios.DropdownOfSitesAB` | spacex-dash-app.py:18-20 | Any table whose sites are exactly "A" and "B" gets the dropdown "All Sites", "A", "B". |
| `Scenarios.TwoSiteDropdown` | spacex-dash-app.py:18-20 | On the two-site example the dropdown is "All Sites", "A", "B". |
| `Scenarios.TwoSiteAggregatePie` | spacex-dash-app.py:76-81 | On the two-site example the aggregate pie shows successes only: A = 2, B = 1. |
| `Scenarios.TwoSiteSitePies` | spacex-dash-app.py:88-93 | On the two-site example, "A" gives Success 2 then Failure 1, and "B" gives Failure 2 then Success 1. |
| `Scenarios.TwoSiteNarrowScatter` | spacex-dash-app.py:109-116 | On the two-site example, site "A" with the range [6000, 9000] plots the single launch at 7000 kg. |
| `Scenarios.TwoSiteEmptyScatter` | spacex-dash-app.py:109-116 | On the two-site example, site "A" with the range [2100, 6500] plots nothing, while "B" still has a launch in that range. |
| `Scenarios.TiedOutcomes` | spacex-dash-app.py:92 | With one failure then one success at a site, the tie keeps first-occurrence order: Failure 1, then Success 1. |

## Left out

- CSV loading (line 9) is file I/O. The table is a parameter of every function.
- The Dash app, its layout and the dropdown and slider widgets (lines 14-67) are not modelled. They hold no logic beyond the options list and the slider's initial value, and both of those are modelled.
- Callback registration and reactive wiring (lines 71-74 and 104-107) are not modelled. Each handler is a pure function of its inputs, so calling it twice with the same inputs gives the same result.
- The HTTP server (line 133) is not modelled.
- The Plotly figures are not modelled beyond what they are given: a title plus the wedges, or a title plus the plotted rows. This leaves out colour by "Booster Version Category", hover data and axis labels (lines 118-127). The "Booster Version" columns are not part of the record. Plotly's pie draws its sectors largest first by default, so the drawn order can differ from the frame order the model states.
- The slider marks (lines 54-58) are left out because they use float division and `int()` truncation, which is presentation only.
- Payloads are whole kilograms (`int`). The source reads a floating-point column, so fractional payloads and NaN values are not modelled. NaN sites or classes, which pandas drops from `groupby` and comparisons, are not modelled either.
- The class column is restricted to 0 and 1 by its type.
- Launches.MinPayload: requires a non-empty table, because pandas returns NaN for the minimum of an empty column and the model has no NaN.
- Launches.MaxPayload: requires a non-empty table, for the same reason.
- The tie order of `value_counts` between two equal counts is not documented by pandas. The model fixes it to first occurrence, as stated above.
