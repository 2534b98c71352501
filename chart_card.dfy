/**
 * The trend chart card (src/components/Dashboard/ChartCard.tsx): three
 * metrics and a date-range selection; whenever either changes, the displayed
 * series is replaced wholesale by a jittered copy of the active metric's base
 * fixture. `Math.random()` is an oracle: the sequence of values it returns,
 * one per call and in call order, is a parameter.
 */
module ChartCard {
  import opened Wrappers
  import DateRangeMenu
  import Decimal

  /** `FilterType`: the active metric. */
  datatype Filter = LeadsConverted | LeadsCame | TotalDealsSize

  /** One sample of a series; the three shapes belong to the three metrics. */
  datatype Sample =
    | WonLost(name: string, closedWon: int, closedLost: int)
    | LeadCount(name: string, leads: int)
    | DealSize(name: string, size: int)

  /** The metric a sample's shape belongs to. */
  function FilterOf(s: Sample): Filter {
    match s
    case WonLost(_, _, _) => LeadsConverted
    case LeadCount(_, _) => LeadsCame
    case DealSize(_, _) => TotalDealsSize
  }

  // ---------------------------------------------------------------------------
  // Fixtures (ChartCard.tsx:13-39)
  // ---------------------------------------------------------------------------

  const InitialChartData: seq<Sample> := [
    WonLost("Mar", 65, 58), WonLost("Apr", 40, 30), WonLost("May", 82, 45),
    WonLost("Jun", 65, 5), WonLost("Jul", 78, 40), WonLost("Aug", 30, 95)
  ]

  const LeadsCameData: seq<Sample> := [
    LeadCount("Mar", 120), LeadCount("Apr", 150), LeadCount("May", 130),
    LeadCount("Jun", 180), LeadCount("Jul", 160), LeadCount("Aug", 200)
  ]

  const TotalDealsSizeData: seq<Sample> := [
    DealSize("Mar", 35000), DealSize("Apr", 28000), DealSize("May", 42000),
    DealSize("Jun", 30000), DealSize("Jul", 45000), DealSize("Aug", 32000)
  ]

  const DateRanges: seq<DateRangeMenu.RangeOption> := [
    DateRangeMenu.RangeOption("Last 3 months", "last_3_months"),
    DateRangeMenu.RangeOption("Last 6 months", "last_6_months"),
    DateRangeMenu.RangeOption("Last 12 months", "last_12_months"),
    DateRangeMenu.RangeOption("Year to date", "ytd")
  ]

  /** The base fixture each metric re-samples. */
  function BaseFixture(f: Filter): seq<Sample> {
    match f
    case LeadsConverted => InitialChartData
    case LeadsCame => LeadsCameData
    case TotalDealsSize => TotalDealsSizeData
  }

  /** The jitter magnitude k of a metric: each field moves by `Math.floor(Math.random() * 2k - k)`. */
  function Magnitude(f: Filter): int {
    match f
    case LeadsConverted => 10
    case LeadsCame => 15
    case TotalDealsSize => 5000
  }

  /** How many times one re-sample calls `Math.random()`: once per numeric field. */
  function DrawsNeeded(f: Filter): nat {
    match f
    case LeadsConverted => 2 * |InitialChartData|
    case LeadsCame => |LeadsCameData|
    case TotalDealsSize => |TotalDealsSizeData|
  }

  /** What `Math.random()` promises: a value in [0, 1). */
  predicate ValidDraws(draws: seq<real>) {
    forall i :: 0 <= i < |draws| ==> 0.0 <= draws[i] < 1.0
  }

  // ---------------------------------------------------------------------------
  // Jitter (ChartCard.tsx:47-55)
  // ---------------------------------------------------------------------------

  function Max(a: int, b: int): int {
    if a >= b then a else b
  }

  /** `Math.floor(draw * 2k - k)`: the greatest integer not above draw * 2k - k. */
  function RandomOffset(draw: real, k: int): (offset: int)
    ensures offset as real <= draw * (2 * k) as real - k as real < offset as real + 1.0
  {
    (draw * (2 * k) as real - k as real).Floor
  }

  /** `Math.max(0, base + Math.floor(draw * 2k - k))`: one jittered field, never negative. */
  function Jitter(base: int, draw: real, k: int): (v: int)
    ensures v >= 0
    ensures v == 0 || v == base + RandomOffset(draw, k)
    ensures base + RandomOffset(draw, k) > 0 ==> v == base + RandomOffset(draw, k)
  {
    Max(0, base + RandomOffset(draw, k))
  }

  /** A draw in [0, 1) moves a field by an offset in [-k, k - 1]. */
  lemma OffsetBounds(draw: real, k: int)
    requires 0.0 <= draw < 1.0 && k > 0
    ensures -k <= RandomOffset(draw, k) <= k - 1
  {
    var m := (2 * k) as real;
    var y := draw * m;
    ScaledDrawBounds(draw, m, y);
    FloorWithin(y - k as real, -k, k);
  }

  lemma QuotientBelowOne(a: real, m: real)
    requires 0.0 <= a < m
    ensures 0.0 <= a / m < 1.0 && a / m * m == a
  {
    var q := a / m;
    assert q * m == a;
    assert (1.0 - q) * m == m - a;
  }

  lemma FloorWithin(x: real, lo: int, hi: int)
    requires lo as real <= x < hi as real
    ensures lo <= x.Floor < hi
  {
  }

  lemma ScaledDrawBounds(draw: real, m: real, y: real)
    requires 0.0 <= draw < 1.0 && m > 0.0 && y == draw * m
    ensures 0.0 <= y < m
  {
    assert (1.0 - draw) * m > 0.0;
  }

  /** Conversely every offset in [-k, k - 1] is produced by some draw. */
  lemma EveryOffsetReachable(k: int, offset: int)
    requires k > 0 && -k <= offset <= k - 1
    ensures exists draw: real :: 0.0 <= draw < 1.0 && RandomOffset(draw, k) == offset
  {
    var m := (2 * k) as real;
    var draw := (offset + k) as real / m;
    QuotientBelowOne((offset + k) as real, m);
    FloorWithin(draw * m - k as real, offset, offset + 1);
    assert RandomOffset(draw, k) == offset;
  }

  /** A field lies in [max(0, base - k), max(0, base + k - 1)]. */
  predicate FieldWithin(v: int, base: int, k: int) {
    Max(0, base - k) <= v <= Max(0, base + k - 1)
  }

  lemma JitterBounds(base: int, draw: real, k: int)
    requires 0.0 <= draw < 1.0 && k > 0
    ensures FieldWithin(Jitter(base, draw, k), base, k)
  {
    OffsetBounds(draw, k);
  }

  /** `initialChartData.map(...)`: both counts jittered by up to 10, closedWon's draw before closedLost's. */
  function JitterConverted(base: seq<Sample>, draws: seq<real>): (r: seq<Sample>)
    requires forall i :: 0 <= i < |base| ==> base[i].WonLost?
    requires |draws| == 2 * |base|
    ensures |r| == |base|
    ensures forall i :: 0 <= i < |r| ==> r[i].WonLost? && r[i].name == base[i].name
  {
    seq(|base|, i requires 0 <= i < |base| =>
      WonLost(base[i].name, Jitter(base[i].closedWon, draws[2 * i], 10), Jitter(base[i].closedLost, draws[2 * i + 1], 10)))
  }

  /** `leadsCameData.map(...)`: the lead count jittered by up to 15. */
  function JitterLeads(base: seq<Sample>, draws: seq<real>): (r: seq<Sample>)
    requires forall i :: 0 <= i < |base| ==> base[i].LeadCount?
    requires |draws| == |base|
    ensures |r| == |base|
    ensures forall i :: 0 <= i < |r| ==> r[i].LeadCount? && r[i].name == base[i].name
  {
    seq(|base|, i requires 0 <= i < |base| => LeadCount(base[i].name, Jitter(base[i].leads, draws[i], 15)))
  }

  /** `totalDealsSizeData.map(...)`: the deal size jittered by up to 5000. */
  function JitterDealSizes(base: seq<Sample>, draws: seq<real>): (r: seq<Sample>)
    requires forall i :: 0 <= i < |base| ==> base[i].DealSize?
    requires |draws| == |base|
    ensures |r| == |base|
    ensures forall i :: 0 <= i < |r| ==> r[i].DealSize? && r[i].name == base[i].name
  {
    seq(|base|, i requires 0 <= i < |base| => DealSize(base[i].name, Jitter(base[i].size, draws[i], 5000)))
  }

  predicate NonNegative(s: Sample) {
    match s
    case WonLost(_, w, l) => w >= 0 && l >= 0
    case LeadCount(_, c) => c >= 0
    case DealSize(_, z) => z >= 0
  }

  /**
   * The re-sampled series of a metric. It depends on the metric alone (the
   * date range is only a trigger), keeps the fixture's length, order and
   * names, has the metric's shape throughout, and is never empty, so the
   * effect's `[]` fallback is never taken.
   */
  function Resample(f: Filter, draws: seq<real>): (r: seq<Sample>)
    requires |draws| == DrawsNeeded(f)
    ensures |r| == |BaseFixture(f)| == 6
    ensures forall i :: 0 <= i < |r| ==> FilterOf(r[i]) == f && r[i].name == BaseFixture(f)[i].name
    ensures forall i :: 0 <= i < |r| ==> NonNegative(r[i])
  {
    match f
    case LeadsConverted => JitterConverted(InitialChartData, draws)
    case LeadsCame => JitterLeads(LeadsCameData, draws)
    case TotalDealsSize => JitterDealSizes(TotalDealsSizeData, draws)
  }

  /** A sample has the base sample's shape and name, and each field lies within k of the base field. */
  predicate SampleWithin(s: Sample, b: Sample, k: int) {
    match s
    case WonLost(n, w, l) => b.WonLost? && n == b.name && FieldWithin(w, b.closedWon, k) && FieldWithin(l, b.closedLost, k)
    case LeadCount(n, c) => b.LeadCount? && n == b.name && FieldWithin(c, b.leads, k)
    case DealSize(n, z) => b.DealSize? && n == b.name && FieldWithin(z, b.size, k)
  }

  /** A series that a re-sample of metric f can have produced. */
  predicate SeriesWithin(data: seq<Sample>, f: Filter) {
    |data| == |BaseFixture(f)| &&
    forall i :: 0 <= i < |data| ==> SampleWithin(data[i], BaseFixture(f)[i], Magnitude(f))
  }

  /** Every re-sampled field lies in [max(0, base - k), base + k - 1] for the metric's k. */
  lemma ResampleWithinBounds(f: Filter, draws: seq<real>)
    requires |draws| == DrawsNeeded(f) && ValidDraws(draws)
    ensures SeriesWithin(Resample(f, draws), f)
  {
    var r := Resample(f, draws);
    var base := BaseFixture(f);
    forall i | 0 <= i < |r|
      ensures SampleWithin(r[i], base[i], Magnitude(f))
    {
      match f
      case LeadsConverted =>
        JitterBounds(base[i].closedWon, draws[2 * i], 10);
        JitterBounds(base[i].closedLost, draws[2 * i + 1], 10);
      case LeadsCame =>
        JitterBounds(base[i].leads, draws[i], 15);
      case TotalDealsSize =>
        JitterBounds(base[i].size, draws[i], 5000);
    }
  }

  /** A series within bounds has the metric's shape and no negative field. */
  lemma SeriesWithinShape(data: seq<Sample>, f: Filter)
    requires SeriesWithin(data, f)
    ensures forall i :: 0 <= i < |data| ==> FilterOf(data[i]) == f && NonNegative(data[i])
  {
    forall i | 0 <= i < |data|
      ensures FilterOf(data[i]) == f && NonNegative(data[i])
    {
      assert SampleWithin(data[i], BaseFixture(f)[i], Magnitude(f));
    }
  }

  /** The un-jittered initial series is itself within the conversion metric's bounds. */
  lemma InitialDataWithin()
    ensures SeriesWithin(InitialChartData, LeadsConverted)
  {
  }

  // ---------------------------------------------------------------------------
  // The card's state (ChartCard.tsx:41-56, 145-175)
  // ---------------------------------------------------------------------------

  /** One metric button: its caption, and whether it is the active metric. */
  datatype FilterButton = FilterButton(filter: Filter, caption: string, active: bool)

  /** The buttons in the order 'Leads came', 'Leads Converted', 'Total deals size'. */
  const FilterOrder: seq<Filter> := [LeadsCame, LeadsConverted, TotalDealsSize]

  function FilterCaption(f: Filter): string {
    match f
    case LeadsCame => "Leads came"
    case LeadsConverted => "Leads Converted"
    case TotalDealsSize => "Total deals size"
  }

  /** The metric buttons: one per metric, and exactly the active metric's button is active. */
  function RenderFilterButtons(active: Filter): (buttons: seq<FilterButton>)
    ensures |buttons| == 3
    ensures forall i, j :: 0 <= i < j < 3 ==> buttons[i].filter != buttons[j].filter
    ensures forall i :: 0 <= i < 3 ==> (buttons[i].active <==> buttons[i].filter == active)
  {
    seq(3, i requires 0 <= i < 3 => FilterButton(FilterOrder[i], FilterCaption(FilterOrder[i]), active == FilterOrder[i]))
  }

  /** The component's three state fields. */
  class ChartState {
    var activeFilter: Filter
    var currentChartData: seq<Sample>
    var selectedDateRange: DateRangeMenu.RangeOption

    /** The selection is one of the options, and the series is one the active metric can show. */
    ghost predicate Valid()
      reads this
    {
      selectedDateRange in DateRanges && SeriesWithin(currentChartData, activeFilter)
    }

    /** The initial `useState` values: conversion metric, the un-jittered fixture, 'Last 6 months'. */
    constructor ()
      ensures Valid()
      ensures activeFilter == LeadsConverted && currentChartData == InitialChartData
      ensures selectedDateRange == DateRanges[1] && selectedDateRange.caption == "Last 6 months"
    {
      activeFilter := LeadsConverted;
      currentChartData := InitialChartData;
      selectedDateRange := DateRanges[1];
      InitialDataWithin();
    }

    /**
     * The effect (ChartCard.tsx:46-56), which React runs after the first
     * render and after every render that changed the filter or the range:
     * the series is replaced wholesale by a re-sample of the active metric.
     */
    method ResampleEffect(draws: seq<real>)
      requires selectedDateRange in DateRanges
      requires |draws| == DrawsNeeded(activeFilter) && ValidDraws(draws)
      modifies this`currentChartData
      ensures Valid()
      ensures currentChartData == Resample(activeFilter, draws)
    {
      var data: Option<seq<Sample>> := None;
      if activeFilter == LeadsConverted {
        data := Some(JitterConverted(InitialChartData, draws));
      } else if activeFilter == LeadsCame {
        data := Some(JitterLeads(LeadsCameData, draws));
      } else if activeFilter == TotalDealsSize {
        data := Some(JitterDealSizes(TotalDealsSizeData, draws));
      }
      currentChartData := data.GetOr([]);
      ResampleWithinBounds(activeFilter, draws);
    }

    /**
     * The metric button's click handler (ChartCard.tsx:169): `setActiveFilter`
     * alone. The series is untouched, so when the metric changed, the render
     * that follows still holds the previous metric's series (the cast in
     * `renderChart` does not reshape it) and `Valid()` is broken until the
     * effect has run. `effectDue` says whether a dependency of the effect
     * changed.
     */
    method SelectFilter(filter: Filter) returns (effectDue: bool)
      requires Valid()
      modifies this`activeFilter
      ensures activeFilter == filter
      ensures effectDue <==> old(activeFilter) != filter
      ensures selectedDateRange in DateRanges && SeriesWithin(currentChartData, old(activeFilter))
      ensures !effectDue ==> Valid()
    {
      effectDue := filter != activeFilter;
      activeFilter := filter;
    }

    /**
     * The date-range item's click handler (ChartCard.tsx:148): the selection
     * changes; the metric and the series do not, so the state stays valid.
     */
    method SelectDateRange(range: DateRangeMenu.RangeOption) returns (effectDue: bool)
      requires Valid()
      requires range in DateRanges
      modifies this`selectedDateRange
      ensures Valid()
      ensures selectedDateRange == range
      ensures effectDue <==> old(selectedDateRange) != range
    {
      effectDue := range != selectedDateRange;
      selectedDateRange := range;
    }

    /**
     * A click on a metric button followed by React's effect pass: the effect
     * re-samples only if the metric changed; clicking the active one leaves
     * the series as it is.
     */
    method ClickFilter(filter: Filter, draws: seq<real>)
      requires Valid()
      requires |draws| == DrawsNeeded(filter) && ValidDraws(draws)
      modifies this
      ensures Valid()
      ensures activeFilter == filter && selectedDateRange == old(selectedDateRange)
      ensures old(activeFilter) != filter ==> currentChartData == Resample(filter, draws)
      ensures old(activeFilter) == filter ==> currentChartData == old(currentChartData)
    {
      var effectDue := SelectFilter(filter);
      if effectDue {
        ResampleEffect(draws);
      }
    }

    /**
     * A click on a date-range item followed by React's effect pass: a new
     * range re-samples the fixture of the metric that is already active; the
     * metric and the shape do not change.
     */
    method ClickDateRange(range: DateRangeMenu.RangeOption, draws: seq<real>)
      requires Valid()
      requires range in DateRanges
      requires |draws| == DrawsNeeded(activeFilter) && ValidDraws(draws)
      modifies this
      ensures Valid()
      ensures selectedDateRange == range && activeFilter == old(activeFilter)
      ensures old(selectedDateRange) != range ==> currentChartData == Resample(activeFilter, draws)
      ensures old(selectedDateRange) == range ==> currentChartData == old(currentChartData)
    {
      var effectDue := SelectDateRange(range);
      if effectDue {
        ResampleEffect(draws);
      }
    }

    /** The date-range menu: exactly one item, the selected range's, is highlighted. */
    method RenderDateMenu() returns (items: seq<DateRangeMenu.MenuItem>)
      requires selectedDateRange in DateRanges
      ensures items == DateRangeMenu.RenderMenu(DateRanges, selectedDateRange)
      ensures DateRangeMenu.HighlightCount(items) == 1
      ensures forall i :: 0 <= i < |items| ==> (items[i].highlighted <==> DateRanges[i] == selectedDateRange)
    {
      items := DateRangeMenu.RenderMenu(DateRanges, selectedDateRange);
      DateRangeMenu.ExactlyOneHighlighted(DateRanges, selectedDateRange);
    }
  }

  // ---------------------------------------------------------------------------
  // The deal-size axis tick (ChartCard.tsx:113)
  // ---------------------------------------------------------------------------

  /**
   * The integer `(value / 1000).toFixed(0)` prints: the nearest integer to
   * value / 1000, a tie going to the larger magnitude (toFixed rounds the
   * magnitude and prints the sign separately).
   */
  function RoundedThousands(value: int): (n: int)
    ensures value >= 0 ==> -500 <= value - 1000 * n < 500
    ensures value < 0 ==> -500 < value - 1000 * n <= 500
  {
    if value >= 0 then (value + 500) / 1000 else -((-value + 500) / 1000)
  }

  /** The magnitude printed by toFixed(0). */
  function ThousandsMagnitude(value: int): (m: nat)
    ensures m == if value >= 0 then RoundedThousands(value) else -RoundedThousands(value)
  {
    if value >= 0 then (value + 500) / 1000 else (-value + 500) / 1000
  }

  /** `$${(value/1000).toFixed(0)}k`, e.g. 32000 gives "$32k". */
  function DealSizeTick(value: int): (tick: string)
    ensures |tick| >= 3 && tick[0] == '$' && tick[|tick| - 1] == 'k'
  {
    "$" + (if value < 0 then "-" else "") + Decimal.NatToString(ThousandsMagnitude(value)) + "k"
  }

  /** Reads a tick label back: "$", an optional "-", digits, "k". */
  function ParseDealSizeTick(tick: string): Option<int> {
    if |tick| >= 3 && tick[0] == '$' && tick[|tick| - 1] == 'k' then
      var body := tick[1..|tick| - 1];
      if body[0] == '-' then
        var digits := body[1..];
        if |digits| > 0 && Decimal.AllDigits(digits) then Some(0 - Decimal.ParseNat(digits) as int) else None
      else if Decimal.AllDigits(body) then Some(Decimal.ParseNat(body))
      else None
    else None
  }

  /** toFixed(0) rounds to the nearest thousand, ties away from zero. */
  lemma RoundsToNearestThousand(value: int)
    ensures value >= 0 ==> -500 <= value - 1000 * RoundedThousands(value) < 500
    ensures value < 0 ==> -500 < value - 1000 * RoundedThousands(value) <= 500
    ensures value % 1000 == 0 ==> RoundedThousands(value) == value / 1000
  {
  }

  /** The label determines the rounded value: reading a tick label back gives the thousands it shows. */
  lemma DealSizeTickRoundTrip(value: int)
    ensures ParseDealSizeTick(DealSizeTick(value)) == Some(RoundedThousands(value))
  {
    var digits := Decimal.NatToString(ThousandsMagnitude(value));
    var tick := DealSizeTick(value);
    Decimal.ParseNatToString(ThousandsMagnitude(value));
    if value < 0 {
      assert tick[1..|tick| - 1] == "-" + digits;
      assert ("-" + digits)[1..] == digits;
    } else {
      assert tick[1..|tick| - 1] == digits;
    }
  }

  /** For a multiple of 1000 the tick reads back as exactly value / 1000; 32000 gives "$32k". */
  lemma DealSizeTickOfThousands(m: int)
    ensures ParseDealSizeTick(DealSizeTick(1000 * m)) == Some(m)
    ensures DealSizeTick(32000) == "$32k"
  {
    DealSizeTickRoundTrip(1000 * m);
    RoundsToNearestThousand(1000 * m);
    assert Decimal.NatToString(32) == "32";
  }
}
