# SpaceX launch dashboard: chart data model

A Dafny model of the data selection behind the SpaceX Launch Records Dashboard
(`spacex_dash_app.py`). The dashboard loads a table of launches (launch site,
outcome `class` 0/1, payload mass, booster version category), sizes a payload
range slider from the table's payload bounds, and recomputes two charts when
the controls change:

- the **success pie chart** (`pie_chart_vis`): for "ALL", one slice per launch
  site holding that site's class total; for one site, a Success slice (the
  site's class total) and a Failure slice (its row count minus that total);
- the **payload scatter chart** (`scatter_plot_vis`): the rows whose payload
  lies in the slider's inclusive range, restricted to the selected site unless
  "ALL" is selected.

The table is a `seq<LaunchRecord>`; a pandas boolean mask is `LaunchTable.Filter`
(order-preserving), a groupby-sum over the class column is `PieChart.GroupSum`.
The one-site branch of the pie callback edits a local frame step by step, so it
is the method `PieChartVis`, proved against the specification function
`SiteOutcomes`; everything else is functions and lemmas.

Files: `wrappers.dfy` (Option, Result), `launch_table.dfy` (rows, masks, class
totals), `loader.dfy` (payload bounds), `slider_marks.dfy` (slider tick
labels), `pie_chart.dfy`, `scatter_chart.dfy`, `scenario.dfy` (a three-launch
table worked through both charts).

A site whose launches all failed still gives one grouped row at line 72,
with class total 0. Only a site with no rows leaves the grouped frame empty,
and then `site1_df['class'][0]` at line 73 raises. The model returns
`Failure(NoRowsForSite)` exactly in that case.

## Model

| member | source | states |
|---|---|---|
| `Loader.MaxPayload` | spacex_dash_app.py:11 | absent exactly for an empty table; otherwise the payload of some row and at least every row's payload |
| `Loader.MinPayload` | spacex_dash_app.py:12 | absent exactly for an empty table; otherwise the payload of some row and at most every row's payload |
| `Loader.PayloadBounds` | spacex_dash_app.py:11-12 | for a non-empty table the slider default `[min_payload, max_payload]` is ordered and contains every row's payload |
| `LaunchTable.Filter` | spacex_dash_app.py:93-94 | a mask keeps exactly the elements satisfying it and never lengthens the table |
| `LaunchTable.FilterIsSubsequence` | spacex_dash_app.py:93-94 | the rows a mask keeps appear in their original table order |
| `LaunchTable.FilterMultiplicity` | spacex_dash_app.py:93-94 | a mask keeps every qualifying row as many times as the table holds it, and no other row |
| `LaunchTable.FilterCommute` | spacex_dash_app.py:93-103 | applying two masks in either order selects the same rows in the same order |
| `LaunchTable.FilterKeepsAll` | spacex_dash_app.py:93-94 | a mask every row passes returns the table unchanged |
| `LaunchTable.SiteRows` | spacex_dash_app.py:70 | `site_df[site_df["Launch Site"] == selected_site]` holds exactly the table's rows at that site |
| `LaunchTable.AtSite` | spacex_dash_app.py:70 | the mask `["Launch Site"] == selected_site`, also used at line 103: true of a row exactly when its site is the selected one |
| `LaunchTable.OtherRows` | spacex_dash_app.py:64-67 | the rows of all other sites, what remains for the per-site aggregation after one site's group |
| `LaunchTable.SiteSplit` | spacex_dash_app.py:72 | one site's rows and the other rows split the row count and the class total of the table |
| `LaunchTable.ClassSum` | spacex_dash_app.py:71-73 | the total of the `class` column over a frame, the sum groupby and plotly compute |
| `LaunchTable.SiteRowsEmpty` | spacex_dash_app.py:70-73 | a site's row selection is empty exactly when the site does not occur in the table |
| `LaunchTable.ClassSumCountsOutcomes` | spacex_dash_app.py:71-73 | with 0/1 outcomes the class total is the number of successful rows and row count minus class total the number of failed rows |
| `LaunchTable.ClassSumBounds` | spacex_dash_app.py:71-73 | with 0/1 outcomes the class total lies between 0 and the row count |
| `PieChart.GroupSum` | spacex_dash_app.py:64-67 | one slice per distinct site in order of first appearance, valued at the site's class total; its properties are the four `GroupSum` lemmas below |
| `PieChart.GroupSumLabels` | spacex_dash_app.py:64-67 | the "ALL" pie has a slice for a launch site exactly when that site occurs in the table |
| `PieChart.GroupSumDistinct` | spacex_dash_app.py:64-67 | no launch site has two slices in the "ALL" pie |
| `PieChart.GroupSumValues` | spacex_dash_app.py:64-67 | each slice of the "ALL" pie is valued at the class total of its own site's rows |
| `PieChart.OtherRowsKeepSites` | spacex_dash_app.py:64-67 | removing one site's rows removes only that site and leaves every other site's rows unchanged |
| `PieChart.GroupSumTotal` | spacex_dash_app.py:64-67 | the "ALL" pie's slice values add up to the class total of the whole table |
| `PieChart.GroupSumOneSite` | spacex_dash_app.py:70-72 | grouping one site's rows gives no row for an absent site and otherwise one row holding the site's class total |
| `PieChart.SiteOutcomes` | spacex_dash_app.py:70-81 | fails exactly when the site has no rows; otherwise exactly two slices, labelled Success then Failure, Success valued at the site's class total and the two adding up to the site's row count |
| `PieChart.SiteOutcomesCount` | spacex_dash_app.py:70-77 | with 0/1 outcomes Success counts the site's successful launches and Failure its failed ones, both non-negative |
| `PieChart.PieChartVis` | spacex_dash_app.py:61-82 | "ALL" yields the per-site grouped slices; any other value yields the Success/Failure pie of `SiteOutcomes`, built by the source's frame edits, or its failure |
| `ScatterChart.InPayloadRange` | spacex_dash_app.py:93-94 | the mask `(payload >= lo) & (payload <= hi)`, inclusive at both ends |
| `ScatterChart.PayloadRows` | spacex_dash_app.py:93-94 | keeps exactly the rows with `lo <= payload <= hi`, inclusive at both ends, each as often as the table holds it, in table order |
| `ScatterChart.ScatterRows` | spacex_dash_app.py:95-109 | the chart's rows are an ordered subsequence of the in-range rows and of the table, holding each row in range and (unless "ALL") at the selected site exactly as often as the table does, and no other row |
| `ScatterChart.ScatterPoints` | spacex_dash_app.py:96-108 | one point per chart row, in row order, with x the payload mass, y the class and the booster category as colour key |
| `ScatterChart.EmptyRangeSelectsNothing` | spacex_dash_app.py:93-94 | an inverted range `lo > hi` gives an empty chart for any site |
| `ScatterChart.SiteScatterIsSiteRowsInRange` | spacex_dash_app.py:93-103 | for one site the chart equals that site's rows restricted to the payload range |
| `ScatterChart.SiteScatterNarrows` | spacex_dash_app.py:102-103 | a site's chart never has more points than the "ALL" chart, and is empty for a site not in the table |
| `ScatterChart.DefaultRangeShowsEveryRow` | spacex_dash_app.py:50 | for a non-empty table the "ALL" chart at the slider's default value shows every row, in order |
| `SliderMarks.PyRange` | spacex_dash_app.py:49 | `range(start, stop, step)` is the progression `start + i * step` while below `stop`, and stops only once the next step reaches `stop` |
| `SliderMarks.Decimal` | spacex_dash_app.py:49 | `f'{i}'` for `i >= 0` is a non-empty digit string without a leading zero, one digit long exactly for `i < 10` |
| `SliderMarks.ParseDecimalOfDecimal` | spacex_dash_app.py:49 | reading a tick label as a decimal number gives back the mark's position |
| `SliderMarks.DecimalInjective` | spacex_dash_app.py:49 | different positions get different labels |
| `SliderMarks.MarkKeys` | spacex_dash_app.py:49 | the keys the comprehension visits are non-negative |
| `SliderMarks.Marks` | spacex_dash_app.py:49 | the marks map has exactly eleven keys, the multiples of 1000 from 0 to 10000, each labelled by a canonical decimal string that reads back as its key |
| `SliderMarks.MarkKeysListed` | spacex_dash_app.py:49 | the comprehension visits 0, 1000, ..., 10000 in that order |
| `Scenario.ThreeLaunchesAllPie` | spacex_dash_app.py:64-67 | for two SiteA launches (one success) and one successful SiteB launch, the "ALL" pie is SiteA 1, SiteB 1 |
| `Scenario.ThreeLaunchesSitePie` | spacex_dash_app.py:70-81 | on the same table the SiteA pie is Success 1, Failure 1, and an absent site fails |
| `Scenario.ThreeLaunchesScatter` | spacex_dash_app.py:93-101 | on the same table the "ALL" scatter for [0, 5000] keeps the 4000 kg and 3000 kg launches and drops the 6000 kg one |

## Left out

- Reading `spacex_launch_dash.csv` (line 10): file I/O; the table is an input sequence.
- The Dash application, the page layout, the dropdown options, the callback decorators and the reactive runtime (lines 15-54, 58-59, 88-90): UI wiring; the dropdown value arrives as a string argument.
- Figure construction, colour assignment and rendering by plotly (`px.pie`, `px.scatter`): foreign library calls; only the data handed to them is modelled. Plotly's reordering of pie slices by size and its hiding of zero-valued slices happen at render time and are not modelled; slices keep the order in which sites first occur.
- Chart titles (lines 67, 81, 99, 107): Python string formatting of possibly fractional payloads.
- The `else: return None` branches (lines 83-84, 110-111): unreachable, since `== "ALL"` and `!= "ALL"` cover every value.
- `app.run_server()` (line 115): the server process.
- Payload masses are integers; the CSV may hold fractional values, but they are only compared, never computed with. Missing (NaN) values are not modelled; on an empty table pandas' NaN bounds become `None`.
- `SliderMarks.PyRange`: only a positive step is modelled, the only kind the dashboard uses.
- A site with no rows: where Python raises an `IndexError` for a site with no rows, the model returns `Failure(NoRowsForSite)`.
- Repeating a callback with the same inputs gives the same chart data because every operation is a function of its arguments; no separate lemma states it.
