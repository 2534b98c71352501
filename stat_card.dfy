/**
 * The stat card of the dashboard (src/components/Dashboard/StatCard.tsx):
 * a funnel card, whose stacked bar partitions 100% of its width among the
 * stages in proportion to their counts, and a pie card, whose legend shows
 * one currency figure per slice and, when given, its percentage.
 */
module StatCard {
  import opened Wrappers

  /** One funnel stage (FunnelStageData). Counts and budgets are JavaScript numbers, modelled as reals. */
  datatype FunnelStage = FunnelStage(name: string, value: real, budget: real, time: string, color: string)

  /** One pie slice (PieSliceData); `percentage` and `amount` are optional. */
  datatype PieSlice = PieSlice(name: string, value: real, percentage: Option<real>, amount: Option<real>, color: string)

  /** The card's data, tagged by the card's `type` ('funnel' or 'pie'). */
  datatype CardData = FunnelData(stages: seq<FunnelStage>) | PieData(slices: seq<PieSlice>)

  predicate NonNegativeCounts(stages: seq<FunnelStage>) {
    forall i :: 0 <= i < |stages| ==> stages[i].value >= 0.0
  }

  // ---------------------------------------------------------------------------
  // JavaScript numbers, as far as the offset loop needs them
  // ---------------------------------------------------------------------------

  /**
   * A JavaScript number is either a finite value or one of NaN, +Infinity and
   * -Infinity; the last three are merged into NonFinite, which is closed under
   * the operations the funnel applies (division by zero, `* 100`, `+`).
   */
  datatype JsNumber = Finite(r: real) | NonFinite

  /** `a / b`: any division by zero gives NaN or an infinity. */
  function JsDiv(a: real, b: real): (q: JsNumber)
    ensures q.Finite? <==> b != 0.0
    ensures b != 0.0 ==> q.r * b == a
  {
    if b == 0.0 then NonFinite else Finite(a / b)
  }

  function JsMul(a: JsNumber, b: real): JsNumber {
    if a.Finite? then Finite(a.r * b) else NonFinite
  }

  function JsAdd(a: JsNumber, b: JsNumber): JsNumber {
    if a.Finite? && b.Finite? then Finite(a.r + b.r) else NonFinite
  }

  // ---------------------------------------------------------------------------
  // The funnel bar: total, widths and offsets (StatCard.tsx:45-69)
  // ---------------------------------------------------------------------------

  /** The sum of the first n stage counts, folded from the left as `reduce` does from 0. */
  function SumValues(stages: seq<FunnelStage>, n: nat): (sum: real)
    requires n <= |stages|
    ensures NonNegativeCounts(stages) ==> sum >= 0.0
    ensures (forall i :: 0 <= i < n ==> stages[i].value == 0.0) ==> sum == 0.0
  {
    if n == 0 then 0.0 else SumValues(stages, n - 1) + stages[n - 1].value
  }

  /** `totalValue`: the sum of all counts, never negative when the counts are not. */
  function TotalValue(stages: seq<FunnelStage>): (total: real)
    ensures NonNegativeCounts(stages) ==> total >= 0.0
    ensures (forall i :: 0 <= i < |stages| ==> stages[i].value == 0.0) ==> total == 0.0
  {
    SumValues(stages, |stages|)
  }

  /** With non-negative counts the total is 0 exactly when every count is 0. */
  lemma ZeroTotalMeansNoCounts(stages: seq<FunnelStage>)
    requires NonNegativeCounts(stages)
    ensures TotalValue(stages) == 0.0 <==> forall i :: 0 <= i < |stages| ==> stages[i].value == 0.0
  {
    if TotalValue(stages) == 0.0 {
      forall i | 0 <= i < |stages|
        ensures stages[i].value == 0.0
      {
        PrefixAtMostTotal(stages, i + 1);
        assert SumValues(stages, i + 1) == SumValues(stages, i) + stages[i].value;
      }
    }
  }

  /** `percentageWidth` of the stage at `index`: its share of 100, or 0 when the total is not positive. */
  function PercentageWidth(stages: seq<FunnelStage>, index: nat): real
    requires index < |stages|
  {
    var total := TotalValue(stages);
    if total > 0.0 then stages[index].value / total * 100.0 else 0.0
  }

  /**
   * A width is the stage's share of 100: times the total it gives the count
   * times 100. It is 0 when the total is not positive, and not negative for a
   * non-negative count.
   */
  lemma PercentageWidthIsShare(stages: seq<FunnelStage>, index: nat)
    requires index < |stages|
    ensures TotalValue(stages) > 0.0 ==> PercentageWidth(stages, index) * TotalValue(stages) == stages[index].value * 100.0
    ensures TotalValue(stages) <= 0.0 ==> PercentageWidth(stages, index) == 0.0
    ensures stages[index].value >= 0.0 ==> PercentageWidth(stages, index) >= 0.0
  {
    var total := TotalValue(stages);
    if total > 0.0 {
      var q := stages[index].value / total;
      assert q * total == stages[index].value;
    }
  }

  /** The evidently intended left offset: the sum of the widths of all earlier stages. */
  function Offset(stages: seq<FunnelStage>, index: nat): real
    requires index <= |stages|
  {
    if index == 0 then 0.0 else Offset(stages, index - 1) + PercentageWidth(stages, index - 1)
  }

  /**
   * The left offset as the source computes it: the sum over every earlier
   * stage of `(value / totalValue) * 100`, without the zero-total guard that
   * the width has.
   */
  function OffsetAsWritten(stages: seq<FunnelStage>, index: nat): JsNumber
    requires index <= |stages|
  {
    if index == 0 then Finite(0.0)
    else JsAdd(OffsetAsWritten(stages, index - 1), JsMul(JsDiv(stages[index - 1].value, TotalValue(stages)), 100.0))
  }

  /** The offset loop exactly as written (StatCard.tsx:58-61). */
  method AccumulatedWidthAsWritten(stages: seq<FunnelStage>, index: nat) returns (acc: JsNumber)
    requires index < |stages|
    ensures acc == OffsetAsWritten(stages, index)
  {
    var totalValue := TotalValue(stages);
    acc := Finite(0.0);
    var i := 0;
    while i < index
      invariant 0 <= i <= index
      invariant acc == OffsetAsWritten(stages, i)
    {
      acc := JsAdd(acc, JsMul(JsDiv(stages[i].value, totalValue), 100.0));
      i := i + 1;
    }
  }

  /**
   * The as-written offset agrees with the intended one whenever the total is
   * positive, and is NaN for every stage but the first when the total is 0.
   */
  lemma {:induction false} OffsetAsWrittenAgreesOnPositiveTotal(stages: seq<FunnelStage>, n: nat)
    requires n <= |stages|
    ensures TotalValue(stages) > 0.0 ==> OffsetAsWritten(stages, n) == Finite(Offset(stages, n))
    ensures TotalValue(stages) == 0.0 && n > 0 ==> OffsetAsWritten(stages, n) == NonFinite
  {
    if n > 0 {
      OffsetAsWrittenAgreesOnPositiveTotal(stages, n - 1);
    }
  }

  /** With all counts zero, the second stage's offset is NaN although its width is 0; the corrected offset is 0. */
  lemma ZeroTotalOffsetIsNotFinite()
    ensures var stages := [FunnelStage("Discovery", 0.0, 0.0, "", ""), FunnelStage("Qualified", 0.0, 0.0, "", "")];
      TotalValue(stages) == 0.0 && PercentageWidth(stages, 1) == 0.0 &&
      OffsetAsWritten(stages, 1) == NonFinite && Offset(stages, 1) == 0.0
  {
    var stages := [FunnelStage("Discovery", 0.0, 0.0, "", ""), FunnelStage("Qualified", 0.0, 0.0, "", "")];
    assert TotalValue(stages) == SumValues(stages, 2) == 0.0;
  }

  /**
   * The corrected offset loop: each step adds the guarded width of an earlier
   * stage, so the offset is 0, not NaN, when the total is 0.
   */
  method AccumulatedWidth(stages: seq<FunnelStage>, index: nat) returns (acc: real)
    requires index < |stages|
    ensures acc == Offset(stages, index)
    ensures TotalValue(stages) > 0.0 ==> acc == SumValues(stages, index) / TotalValue(stages) * 100.0
    ensures TotalValue(stages) <= 0.0 ==> acc == 0.0
  {
    var totalValue := TotalValue(stages);
    acc := 0.0;
    var i := 0;
    while i < index
      invariant 0 <= i <= index
      invariant acc == Offset(stages, i)
    {
      acc := acc + if totalValue > 0.0 then stages[i].value / totalValue * 100.0 else 0.0;
      i := i + 1;
    }
    OffsetIsScaledPrefix(stages, index);
    ZeroTotalOffsetsAreZero(stages, index);
  }

  /** With a positive total, an offset is the prefix sum of counts scaled to 100. */
  lemma {:induction false} OffsetIsScaledPrefix(stages: seq<FunnelStage>, n: nat)
    requires n <= |stages|
    ensures TotalValue(stages) > 0.0 ==> Offset(stages, n) == SumValues(stages, n) / TotalValue(stages) * 100.0
  {
    if n > 0 && TotalValue(stages) > 0.0 {
      OffsetIsScaledPrefix(stages, n - 1);
      var t := TotalValue(stages);
      var a := SumValues(stages, n - 1);
      var v := stages[n - 1].value;
      assert a / t * 100.0 + v / t * 100.0 == (a + v) / t * 100.0;
    }
  }

  /** With a total that is not positive every width is 0, and so is every offset. */
  lemma {:induction false} ZeroTotalOffsetsAreZero(stages: seq<FunnelStage>, n: nat)
    requires n <= |stages|
    ensures TotalValue(stages) <= 0.0 ==> forall i :: 0 <= i <= n ==> Offset(stages, i) == 0.0
  {
    if n > 0 {
      ZeroTotalOffsetsAreZero(stages, n - 1);
    }
  }

  /** When the total is positive the widths add up to exactly 100: the last segment ends at 100. */
  lemma WidthsSumToHundred(stages: seq<FunnelStage>)
    requires TotalValue(stages) > 0.0
    ensures Offset(stages, |stages|) == 100.0
  {
    OffsetIsScaledPrefix(stages, |stages|);
  }

  /** Segments are contiguous: each one starts where the previous one ends. */
  lemma SegmentsAreContiguous(stages: seq<FunnelStage>, i: nat)
    requires i + 1 < |stages|
    ensures Offset(stages, i) + PercentageWidth(stages, i) == Offset(stages, i + 1)
  {
  }

  /** A prefix of non-negative counts never exceeds the total. */
  lemma {:induction false} PrefixAtMostTotal(stages: seq<FunnelStage>, n: nat)
    requires NonNegativeCounts(stages)
    requires n <= |stages|
    ensures 0.0 <= SumValues(stages, n) <= TotalValue(stages)
    decreases |stages| - n
  {
    if n < |stages| {
      PrefixAtMostTotal(stages, n + 1);
      assert stages[n].value >= 0.0;
    }
  }

  lemma ShareAtMostHundred(a: real, t: real)
    requires 0.0 <= a <= t && t > 0.0
    ensures 0.0 <= a / t * 100.0 <= 100.0
  {
    var q := a / t;
    assert q * t == a;
    assert (1.0 - q) * t == t - a;
  }

  /** With non-negative counts every width lies in [0, 100] and every offset in [0, 100]. */
  lemma WidthAndOffsetInRange(stages: seq<FunnelStage>, i: nat)
    requires NonNegativeCounts(stages)
    requires i < |stages|
    ensures 0.0 <= PercentageWidth(stages, i) <= 100.0
    ensures 0.0 <= Offset(stages, i) <= 100.0
  {
    var t := TotalValue(stages);
    ZeroTotalOffsetsAreZero(stages, i);
    if t > 0.0 {
      var v := stages[i].value;
      PrefixAtMostTotal(stages, i);
      PrefixAtMostTotal(stages, i + 1);
      assert stages[i].value >= 0.0;
      ShareAtMostHundred(v, t);
      OffsetIsScaledPrefix(stages, i);
      ShareAtMostHundred(SumValues(stages, i), t);
    }
  }

  /** One segment of the stacked bar: keyed by the stage name, with width and left offset in percent. */
  datatype Segment = Segment(key: string, color: string, width: real, left: real)

  /** Each segment starts where the previous one ends. */
  predicate Contiguous(bar: seq<Segment>) {
    forall i :: 0 <= i < |bar| - 1 ==> bar[i].left + bar[i].width == bar[i + 1].left
  }

  /** Every segment has width 0 at offset 0: nothing is drawn. */
  predicate Collapsed(bar: seq<Segment>) {
    forall i :: 0 <= i < |bar| ==> bar[i].width == 0.0 && bar[i].left == 0.0
  }

  /**
   * The stacked bar: one segment per stage, in stage order, each placed at the
   * corrected offset. The segments tile [0, 100] when the total is positive.
   */
  method RenderFunnelBar(stages: seq<FunnelStage>) returns (bar: seq<Segment>)
    ensures |bar| == |stages|
    ensures forall i :: 0 <= i < |bar| ==> bar[i] == Segment(stages[i].name, stages[i].color, PercentageWidth(stages, i), Offset(stages, i))
    ensures Contiguous(bar)
    ensures |bar| > 0 ==> bar[0].left == 0.0
    ensures |bar| > 0 && TotalValue(stages) > 0.0 ==> bar[|bar| - 1].left + bar[|bar| - 1].width == 100.0
    ensures TotalValue(stages) <= 0.0 ==> Collapsed(bar)
  {
    var totalValue := TotalValue(stages);
    bar := [];
    var index := 0;
    while index < |stages|
      invariant 0 <= index <= |stages|
      invariant |bar| == index
      invariant forall i :: 0 <= i < index ==> bar[i] == Segment(stages[i].name, stages[i].color, PercentageWidth(stages, i), Offset(stages, i))
    {
      var segment := StageSegment(stages, index, totalValue);
      bar := bar + [segment];
      index := index + 1;
    }
    BarTiles(stages, bar);
  }

  /** The loop body of the bar: one stage's width and its accumulated offset. */
  method StageSegment(stages: seq<FunnelStage>, index: nat, totalValue: real) returns (segment: Segment)
    requires index < |stages| && totalValue == TotalValue(stages)
    ensures segment == Segment(stages[index].name, stages[index].color, PercentageWidth(stages, index), Offset(stages, index))
  {
    var percentageWidth := if totalValue > 0.0 then stages[index].value / totalValue * 100.0 else 0.0;
    var accumulatedWidth := AccumulatedWidth(stages, index);
    segment := Segment(stages[index].name, stages[index].color, percentageWidth, accumulatedWidth);
  }

  /** The facts about the bar that follow from its segments being the widths and offsets. */
  lemma BarTiles(stages: seq<FunnelStage>, bar: seq<Segment>)
    requires |bar| == |stages|
    requires forall i :: 0 <= i < |bar| ==> bar[i] == Segment(stages[i].name, stages[i].color, PercentageWidth(stages, i), Offset(stages, i))
    ensures Contiguous(bar)
    ensures |bar| > 0 && TotalValue(stages) > 0.0 ==> bar[|bar| - 1].left + bar[|bar| - 1].width == 100.0
    ensures TotalValue(stages) <= 0.0 ==> Collapsed(bar)
  {
    if |bar| > 0 && TotalValue(stages) > 0.0 {
      WidthsSumToHundred(stages);
    }
    ZeroTotalOffsetsAreZero(stages, |stages|);
  }

  // ---------------------------------------------------------------------------
  // The funnel list (StatCard.tsx:74-104)
  // ---------------------------------------------------------------------------

  /** The stage whose duration carries the explanatory tooltip. */
  const TooltipStageName := "In conversation"

  /** One list row: the raw count, the budget (shown as currency) and the duration label. */
  datatype FunnelRow = FunnelRow(name: string, count: real, budget: real, time: string, hasTimeTooltip: bool)

  /** The list below the bar, one row per stage in order; only 'In conversation' gets the tooltip. */
  function RenderFunnelRows(stages: seq<FunnelStage>): (rows: seq<FunnelRow>)
    ensures |rows| == |stages|
    ensures forall i :: 0 <= i < |rows| ==>
      rows[i].name == stages[i].name && rows[i].count == stages[i].value &&
      rows[i].budget == stages[i].budget && rows[i].time == stages[i].time
    ensures forall i :: 0 <= i < |rows| ==> (rows[i].hasTimeTooltip <==> stages[i].name == TooltipStageName)
  {
    seq(|stages|, i requires 0 <= i < |stages| =>
      FunnelRow(stages[i].name, stages[i].value, stages[i].budget, stages[i].time, stages[i].name == TooltipStageName))
  }

  // ---------------------------------------------------------------------------
  // The pie legend (StatCard.tsx:144-158)
  // ---------------------------------------------------------------------------

  /** A figure at the right of a legend row: a currency amount or a percentage. */
  datatype LegendFigure = Currency(amount: real) | Percent(p: real)

  function CountCurrency(figures: seq<LegendFigure>): nat {
    if figures == [] then 0 else (if figures[0].Currency? then 1 else 0) + CountCurrency(figures[1..])
  }

  /**
   * The figures of one legend row, left to right. `amount` takes precedence
   * over `value` (always present, so its guard only checks `amount`), so the
   * row shows exactly one currency figure; the percentage is shown whenever it
   * is present, whatever `amount` is.
   */
  function LegendFigures(entry: PieSlice): (figures: seq<LegendFigure>)
    ensures |figures| == (if entry.percentage.Some? then 2 else 1) && figures[0].Currency?
    ensures CountCurrency(figures) == 1
    ensures forall f :: f in figures && f.Currency? ==>
      f.amount == if entry.amount.Some? then entry.amount.value else entry.value
    ensures (exists f :: f in figures && f.Percent?) <==> entry.percentage.Some?
    ensures entry.percentage.Some? ==> Percent(entry.percentage.value) in figures
  {
    var amountFigure := if entry.amount.Some? then [Currency(entry.amount.value)] else [];
    var valueFigure := if entry.amount.None? then [Currency(entry.value)] else [];
    var percentFigure := if entry.percentage.Some? then [Percent(entry.percentage.value)] else [];
    assert CountCurrency(percentFigure) == 0;
    assert CountCurrency(valueFigure + percentFigure) == |valueFigure|;
    amountFigure + valueFigure + percentFigure
  }

  /** One legend row: colour swatch, name and figures. */
  datatype LegendRow = LegendRow(name: string, color: string, figures: seq<LegendFigure>)

  /** The legend: one row per slice, in array order. */
  function RenderLegend(slices: seq<PieSlice>): (rows: seq<LegendRow>)
    ensures |rows| == |slices|
    ensures forall i :: 0 <= i < |rows| ==>
      rows[i].name == slices[i].name && rows[i].color == slices[i].color && CountCurrency(rows[i].figures) == 1
    ensures forall i :: 0 <= i < |rows| ==> rows[i].figures == LegendFigures(slices[i])
  {
    seq(|slices|, i requires 0 <= i < |slices| => LegendRow(slices[i].name, slices[i].color, LegendFigures(slices[i])))
  }

  // ---------------------------------------------------------------------------
  // Dispatch on the card type (StatCard.tsx:169-171)
  // ---------------------------------------------------------------------------

  datatype CardBody =
    | FunnelBody(bar: seq<Segment>, rows: seq<FunnelRow>)
    | PieBody(legend: seq<LegendRow>)

  /** The card content: the funnel view for funnel data, the pie view for pie data. */
  method RenderContent(data: CardData) returns (body: CardBody)
    ensures body.FunnelBody? <==> data.FunnelData?
    ensures data.FunnelData? ==> |body.bar| == |data.stages| && body.rows == RenderFunnelRows(data.stages)
    ensures data.FunnelData? ==> forall i :: 0 <= i < |body.bar| ==>
      body.bar[i].width == PercentageWidth(data.stages, i) && body.bar[i].left == Offset(data.stages, i)
    ensures data.PieData? ==> body.legend == RenderLegend(data.slices)
  {
    match data
    case FunnelData(stages) =>
      var bar := RenderFunnelBar(stages);
      body := FunnelBody(bar, RenderFunnelRows(stages));
    case PieData(slices) =>
      body := PieBody(RenderLegend(slices));
  }

  // ---------------------------------------------------------------------------
  // The dashboard's funnel fixture (StatsCardGrid.tsx:14-20)
  // ---------------------------------------------------------------------------

  const FunnelCountStages: seq<FunnelStage> := [
    FunnelStage("Discovery", 200.0, 200.0, "2 days", "bg-red-400"),
    FunnelStage("Qualified", 100.0, 100.0, "2 days", "bg-yellow-400"),
    FunnelStage("In conversation", 50.0, 100.0, "average time on this stage", "bg-indigo-500"),
    FunnelStage("Negotiations", 20.0, 50.0, "8 days", "bg-green-400"),
    FunnelStage("Closed won", 20.0, 50.0, "10 days", "bg-purple-500")
  ]

  /** On the fixture the counts total 390, the first segment is 200/390 of the bar, and only the third row has the tooltip. */
  lemma FunnelFixtureLayout()
    ensures TotalValue(FunnelCountStages) == 390.0
    ensures PercentageWidth(FunnelCountStages, 0) == 200.0 / 390.0 * 100.0
    ensures Offset(FunnelCountStages, |FunnelCountStages|) == 100.0
    ensures forall i :: 0 <= i < |FunnelCountStages| ==>
      (RenderFunnelRows(FunnelCountStages)[i].hasTimeTooltip <==> i == 2)
  {
    assert SumValues(FunnelCountStages, 5) == 390.0;
    WidthsSumToHundred(FunnelCountStages);
  }
}
