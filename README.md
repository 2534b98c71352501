# LeadsCo dashboard: a Dafny model of its components

The LeadsCo dashboard shows a lead-tracking page. This project models the
logic behind five of its React components:

- **StatCard** (`stat_card.dfy`): the funnel card and the pie card. The
  funnel card draws a stacked bar whose segments share 100% of the width in
  proportion to the stage counts. Below the bar it lists the stages, and only
  the 'In conversation' stage gets the duration tooltip. The pie card's legend
  shows one currency figure per slice (`amount` if given, otherwise `value`)
  and the slice's percentage when it has one.
- **ChartCard** (`chart_card.dfy`): the trend card. It has three metrics and
  four date ranges. Whenever the metric or the range changes, the displayed
  series is replaced by a jittered copy of the metric's base fixture. The
  deal-size axis prints ticks as `$Nk`.
- **Sidebar** (`sidebar.dfy`): two fixed tables of navigation links. An
  entry is highlighted, and carries `aria-current="page"`, iff the active
  path equals its href. The path defaults to '/dashboard'.
- **MainAppLayout** (`main_app_layout.dfy`): the desktop sidebar, plus a
  mobile drawer governed by one boolean flag. The header's menu button, the
  drawer's backdrop, its close button and its links fire the flag's callbacks.
- **PageHeader** (`page_header.dfy`): a two-tab selector and a five-option
  date-range selector, both purely local state.

Supporting modules:

- `date_range_menu.dfy` holds the highlight rule that both date-range
  dropdowns share: an item is highlighted iff its value equals the selected
  option's value.
- `decimal.dfy` converts between naturals and decimal digit strings.
- `wrappers.dfy` holds `Option`.

Modelling choices:

- Funnel counts are JavaScript numbers, modelled as `real`. NaN and the two
  infinities are merged into one `NonFinite` value. That loses nothing,
  because a division by zero is always one of them, and adding a finite
  number to one or multiplying one by 100 leaves it non-finite.
- `Math.random()` is an oracle. A sequence of draws in [0, 1), one per call
  and in call order, is a parameter of every re-sample.
- React state becomes a class per component (`ChartCard.ChartState`,
  `MainAppLayout.Layout`, `PageHeader.HeaderState`) whose methods are the
  click handlers.
- The effect of ChartCard runs once after mount and after every change of
  the metric or the range. Mounting is the constructor followed by
  `ResampleEffect`. A click handler only calls the setter (`SelectFilter`,
  `SelectDateRange`) and reports whether a dependency of the effect changed;
  `ClickFilter` and `ClickDateRange` are the handler followed by the effect
  pass. Re-selecting the current metric or range changes no dependency, so it
  does not re-sample. Between a metric change and its effect the state holds
  the new metric with the previous metric's series, as the source renders it.

Notes on the source's intent:

- The funnel tooltip is attached by the stage's name ('In conversation'),
  as the code does, not by a per-stage text field.
- The width guard at StatCard.tsx:57 shows that a zero total is meant to
  give 0, not an invalid number. The offset loop lacks that guard (see
  Findings).

The card data is a tagged union (`FunnelData` | `PieData`) rather than
a `type` string beside an untyped array. This is the one reading of the
source's `type`/`data` pair in which the cast at StatCard.tsx:44/110 is sound.

## Model

| member | source | states |
|---|---|---|
| StatCard.SumValues | src/components/Dashboard/StatCard.tsx:45 | the left fold of the first n counts from 0: not negative when no count is, and 0 when those counts are all 0 |
| StatCard.TotalValue | src/components/Dashboard/StatCard.tsx:45 | `totalValue`, the sum of all counts: not negative when no count is, and 0 when every count is 0 |
| StatCard.ZeroTotalMeansNoCounts | src/components/Dashboard/StatCard.tsx:45 | with non-negative counts the total is 0 iff every count is 0, so the zero-total case is exactly the all-zero funnel |
| StatCard.PercentageWidthIsShare | src/components/Dashboard/StatCard.tsx:57 | with a positive total a width times the total is the count times 100; with a total that is not positive the width is 0; a non-negative count has a non-negative width |
| StatCard.JsDiv | src/components/Dashboard/StatCard.tsx:60 | a JavaScript division is finite iff the divisor is non-zero, and then multiplies back to the dividend |
| StatCard.AccumulatedWidthAsWritten | src/components/Dashboard/StatCard.tsx:58-61 | the offset loop as written computes `OffsetAsWritten`: the sum of `(value / totalValue) * 100` over the earlier stages, with no zero guard |
| StatCard.OffsetAsWrittenAgreesOnPositiveTotal | src/components/Dashboard/StatCard.tsx:57-61 | with a positive total the as-written offset equals the intended one; with a zero total it is NaN for every stage after the first |
| StatCard.ZeroTotalOffsetIsNotFinite | src/components/Dashboard/StatCard.tsx:57-61 | two stages with count 0: the width is 0, but the second offset as written is NaN, while the corrected offset is 0 |
| StatCard.AccumulatedWidth | src/components/Dashboard/StatCard.tsx:58-61 | the corrected loop returns the offset: it is the prefix count sum scaled to 100 when the total is positive, and 0 otherwise |
| StatCard.OffsetIsScaledPrefix | src/components/Dashboard/StatCard.tsx:45-61 | with a positive total, the offset of stage n is (sum of the first n counts) / total * 100 |
| StatCard.ZeroTotalOffsetsAreZero | src/components/Dashboard/StatCard.tsx:57-61 | with a total that is not positive, every corrected offset is 0 |
| StatCard.WidthsSumToHundred | src/components/Dashboard/StatCard.tsx:45-61 | with a positive total the widths add up to exactly 100 |
| StatCard.SegmentsAreContiguous | src/components/Dashboard/StatCard.tsx:56-69 | each segment starts where the previous one ends |
| StatCard.WidthAndOffsetInRange | src/components/Dashboard/StatCard.tsx:57-61 | with non-negative counts, every width and every offset lies in [0, 100] |
| StatCard.StageSegment | src/components/Dashboard/StatCard.tsx:56-71 | one stage's segment carries its name, colour, guarded width and corrected offset |
| StatCard.RenderFunnelBar | src/components/Dashboard/StatCard.tsx:55-73 | one segment per stage in order. The segments are contiguous and the first starts at 0. With a positive total the last ends at 100; with a zero total every segment is empty at 0 |
| StatCard.BarTiles | src/components/Dashboard/StatCard.tsx:56-72 | a bar made of the widths and offsets tiles [0, 100] when the total is positive, and collapses to 0 otherwise |
| StatCard.RenderFunnelRows | src/components/Dashboard/StatCard.tsx:74-104 | one row per stage with its count, budget and duration; a row has the tooltip iff its stage is named 'In conversation' |
| StatCard.LegendFigures | src/components/Dashboard/StatCard.tsx:151-155 | exactly one currency figure, first, which is `amount` when present and `value` otherwise; then a percentage figure iff `percentage` is present, independent of `amount`; nothing else |
| StatCard.RenderLegend | src/components/Dashboard/StatCard.tsx:144-158 | one legend row per slice, in order, with its name, its colour and the slice's figures as `LegendFigures` chooses them (one currency figure, amount over value, then the percentage if present) |
| StatCard.RenderContent | src/components/Dashboard/StatCard.tsx:169-171 | funnel data renders the bar and the list, pie data renders the legend, and never both |
| StatCard.FunnelFixtureLayout | src/components/Dashboard/StatsCardGrid.tsx:14-20 | on the dashboard's funnel fixture: the total is 390, the first segment is 200/390 of the bar, the bar ends at 100 and only the third row has the tooltip |
| ChartCard.RandomOffset | src/components/Dashboard/ChartCard.tsx:49-53 | `Math.floor(draw * 2k - k)`: the integer at most draw * 2k - k and more than it minus 1 |
| ChartCard.Jitter | src/components/Dashboard/ChartCard.tsx:49-53 | a jittered field is never negative; it is the base moved by the draw's offset whenever that is positive, and 0 otherwise |
| ChartCard.OffsetBounds | src/components/Dashboard/ChartCard.tsx:49-53 | a draw in [0, 1) moves a field by an offset in [-k, k - 1] |
| ChartCard.EveryOffsetReachable | src/components/Dashboard/ChartCard.tsx:49-53 | every offset in [-k, k - 1] is produced by some draw in [0, 1) |
| ChartCard.JitterBounds | src/components/Dashboard/ChartCard.tsx:49-53 | a jittered field lies in [max(0, base - k), max(0, base + k - 1)] |
| ChartCard.JitterConverted | src/components/Dashboard/ChartCard.tsx:49 | the conversion series keeps each sample's name and both-count shape |
| ChartCard.JitterLeads | src/components/Dashboard/ChartCard.tsx:51 | the lead series keeps each sample's name and shape |
| ChartCard.JitterDealSizes | src/components/Dashboard/ChartCard.tsx:53 | the deal-size series keeps each sample's name and shape |
| ChartCard.Resample | src/components/Dashboard/ChartCard.tsx:46-56 | a re-sample has the fixture's 6 samples with the metric's shape, the fixture's names in order, and no negative field, so the `[]` fallback is never used |
| ChartCard.ResampleWithinBounds | src/components/Dashboard/ChartCard.tsx:46-56 | every re-sampled field lies within the metric's magnitude (10, 15 or 5000) of its base value |
| ChartCard.SeriesWithinShape | src/components/Dashboard/ChartCard.tsx:46-56 | a series within bounds has the metric's shape throughout and no negative field |
| ChartCard.InitialDataWithin | src/components/Dashboard/ChartCard.tsx:13-20 | the un-jittered initial series is within the conversion metric's bounds |
| ChartCard.RenderFilterButtons | src/components/Dashboard/ChartCard.tsx:158-175 | three buttons for three distinct metrics; a button is active iff its metric is the active one |
| ChartCard.ChartState.constructor | src/components/Dashboard/ChartCard.tsx:42-44 | the initial state is the conversion metric, the un-jittered fixture and 'Last 6 months' |
| ChartCard.ChartState.ResampleEffect | src/components/Dashboard/ChartCard.tsx:46-56 | the effect replaces the series by the active metric's re-sample, and only the series changes |
| ChartCard.ChartState.SelectFilter | src/components/Dashboard/ChartCard.tsx:169 | the handler only sets the metric: the series and range are kept, so the series is still the previous metric's; the effect is due iff the metric changed, and the state is valid again at once otherwise |
| ChartCard.ChartState.SelectDateRange | src/components/Dashboard/ChartCard.tsx:148 | the handler only sets the range, keeping the state valid; the effect is due iff the range changed |
| ChartCard.ChartState.ClickFilter | src/components/Dashboard/ChartCard.tsx:46-56 | a metric click and the effect pass: the metric becomes the clicked one, the series is re-sampled iff the metric changed, the range is kept, and the state is valid |
| ChartCard.ChartState.ClickDateRange | src/components/Dashboard/ChartCard.tsx:46-56 | a range click and the effect pass: the range becomes the clicked one, the active metric is re-sampled iff the range changed, the metric is kept |
| ChartCard.ChartState.RenderDateMenu | src/components/Dashboard/ChartCard.tsx:145-153 | on every render, including the one between a metric click and its effect, exactly one range item is highlighted: the selected one |
| ChartCard.DealSizeTick | src/components/Dashboard/ChartCard.tsx:113 | a tick label starts with '$' and ends with 'k' |
| ChartCard.RoundedThousands | src/components/Dashboard/ChartCard.tsx:113 | the integer `(value / 1000).toFixed(0)` prints: 1000 times it lies within 500 of value, a tie going away from zero |
| ChartCard.ThousandsMagnitude | src/components/Dashboard/ChartCard.tsx:113 | the printed digits are the magnitude of the rounded thousands, the sign being printed apart |
| ChartCard.RoundsToNearestThousand | src/components/Dashboard/ChartCard.tsx:113 | the printed thousands are the nearest integer to value / 1000, ties away from zero, and exact for multiples of 1000 |
| ChartCard.DealSizeTickRoundTrip | src/components/Dashboard/ChartCard.tsx:113 | reading a tick label back gives the rounded thousands it shows |
| ChartCard.DealSizeTickOfThousands | src/components/Dashboard/ChartCard.tsx:113 | a multiple of 1000 reads back as value / 1000; 32000 prints "$32k" |
| Decimal.NatToString | src/components/Dashboard/ChartCard.tsx:113 | the printed magnitude is a non-empty digit string with no leading zero |
| Decimal.ParseNatToString | src/components/Dashboard/ChartCard.tsx:113 | parsing the printed digits gives back the number |
| DateRangeMenu.RenderMenu | src/components/Dashboard/ChartCard.tsx:145-153 | one item per option in order, keyed by its value, and highlighted iff its value equals the selected value |
| DateRangeMenu.NoneHighlighted | src/components/Dashboard/PageHeader.tsx:46-54 | a selection whose value is in no option highlights nothing |
| DateRangeMenu.ExactlyOneHighlighted | src/components/Dashboard/ChartCard.tsx:149 | with distinct values and a selection from the table, exactly one item is highlighted, and it is the selected option's |
| Sidebar.RenderNavLink | src/components/layout/Sidebar.tsx:51-67 | `aria-current` is "page" iff the link is active, and absent otherwise |
| Sidebar.RenderGroup | src/components/layout/Sidebar.tsx:82-84 | one link per table entry, in order, active iff the path equals its href |
| Sidebar.RenderSidebar | src/components/layout/Sidebar.tsx:50-95 | all 12 entries, main table then secondary table, each active iff its href equals the path, which defaults to '/dashboard' |
| Sidebar.AllHrefsDistinct | src/components/layout/Sidebar.tsx:25-42 | the twelve hrefs are pairwise distinct |
| Sidebar.AtMostOneActive | src/components/layout/Sidebar.tsx:82-93 | whatever the path, at most one entry is highlighted |
| Sidebar.KnownPathActivatesItsEntry | src/components/layout/Sidebar.tsx:83 | a path equal to an href highlights exactly that entry |
| Sidebar.DefaultPathActivatesDashboard | src/components/layout/Sidebar.tsx:50 | with no path, exactly the Dashboard entry is highlighted |
| Sidebar.UnknownPathActivatesNothing | src/components/layout/Sidebar.tsx:92 | a path equal to no href highlights nothing |
| MainAppLayout.Step | src/components/layout/MainAppLayout.tsx:16-22 | after a control fires the drawer is open iff it was closed and the control was not a drawer link (the toggle of 38, 50 and 65, the close of 56); any drawer control on an open drawer closes it |
| MainAppLayout.ToggleIsInvolutionCloseIdempotent | src/components/layout/MainAppLayout.tsx:16-22 | toggling twice restores the flag; closing is idempotent and always leaves it false |
| MainAppLayout.DrawerControlsClose | src/components/layout/MainAppLayout.tsx:35-56 | every control inside the drawer leaves it closed |
| MainAppLayout.OpenAfterRun | src/components/layout/MainAppLayout.tsx:14-22 | after any sequence of clicks on visible controls, the drawer is open iff the last click was the menu button and found it closed |
| MainAppLayout.Layout.constructor | src/components/layout/MainAppLayout.tsx:14 | the drawer starts closed |
| MainAppLayout.Layout.ToggleMobileSidebar | src/components/layout/MainAppLayout.tsx:16-18 | the flag is negated |
| MainAppLayout.Layout.CloseMobileSidebar | src/components/layout/MainAppLayout.tsx:20-22 | the flag is cleared |
| MainAppLayout.Layout.Fire | src/components/layout/MainAppLayout.tsx:35-65 | backdrop, close button and menu button toggle the flag, a drawer link clears it |
| MainAppLayout.Layout.Render | src/components/layout/MainAppLayout.tsx:26-59 | the drawer is rendered iff the flag is set; both sidebars get the same path and highlight the same entry; only the drawer's links carry the close handler |
| PageHeader.HeaderRangesDistinct | src/components/Dashboard/PageHeader.tsx:12-18 | the five range values are distinct |
| PageHeader.HeaderState.constructor | src/components/Dashboard/PageHeader.tsx:21-22 | the header starts on the 'leads' tab and the fourth range, 'Last 6 months' |
| PageHeader.HeaderState.SetActiveTab | src/components/Dashboard/PageHeader.tsx:26 | the tab becomes the chosen value; the range is kept |
| PageHeader.HeaderState.SelectDateRange | src/components/Dashboard/PageHeader.tsx:49 | the range becomes the clicked one; the tab is kept |
| PageHeader.HeaderState.RenderDateMenu | src/components/Dashboard/PageHeader.tsx:46-54 | exactly one range item is highlighted: the selected one |
| PageHeader.HeaderState.RenderTabs | src/components/Dashboard/PageHeader.tsx:26-34 | a tab trigger is active iff its value is the active tab |

## Left out

- Markup, CSS classes, icons and layout breakpoints are presentation and are not modelled. Only the structure they encode is: which elements exist, their order, keys and highlight flags.
- Recharts is not modelled: the chart kinds in `renderChart`, axes, gradients, the legend payload and the chart tooltips, including the pie tooltip's currency text. Recharts decides which tick values exist; the model only formats a given tick.
- `toLocaleString` (budget, amount and value figures) is locale-dependent. Figures are kept as numbers.
- Floating point is modelled as exact reals, apart from the NaN/infinity distinction that the offset finding needs.
- ChartCard.DealSizeTick: models integer tick values only, and not toFixed's exponent form for magnitudes of 1e21 and above.
- ChartCard.ChartState.SelectDateRange: compares ranges by their record. React compares the object reference, which is the same thing for entries of the fixed table.
- The `mainStat`, `mainStatLabel` and `footerNote` truthiness guards (StatCard.tsx:49-54, 173-189) only show or hide text and are not modelled.
- The header's date range and tab have no effect elsewhere, so nothing else is modelled for them.
- Header, TopHeader, ReasonsLostGrid and the Index page are not part of this model. They are static markup and callers; the header's menu button is modelled as the `HeaderMenuClick` control.
- React StrictMode's double effect run in development is not modelled.

## Findings

| source | as written | input that shows it | evidently intended | confidence | as-written member | corrected member |
|---|---|---|---|---|---|---|
| src/components/Dashboard/StatCard.tsx:60 | the offset adds `(value / totalValue) * 100` per earlier stage with no zero guard, so a zero total makes every offset after the first NaN | two funnel stages, both with count 0: width 0, second offset NaN | the offset is the sum of the guarded widths, so it is 0 when the total is 0 | not executed | StatCard.AccumulatedWidthAsWritten | StatCard.AccumulatedWidth |
