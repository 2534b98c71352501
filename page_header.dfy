/**
 * The page header bar (src/components/Dashboard/PageHeader.tsx): a tab
 * selector and a date-range selector, two independent pieces of local state
 * that affect nothing else on the page.
 */
module PageHeader {
  import DateRangeMenu

  const DateRanges: seq<DateRangeMenu.RangeOption> := [
    DateRangeMenu.RangeOption("Today", "today"),
    DateRangeMenu.RangeOption("Last 7 days", "last_7_days"),
    DateRangeMenu.RangeOption("Last 30 days", "last_30_days"),
    DateRangeMenu.RangeOption("Last 6 months", "last_6_months"),
    DateRangeMenu.RangeOption("Last 12 months", "last_12_months")
  ]

  /** The values of the two tab triggers, in order: 'Sales', 'Leads'. */
  const TabValues: seq<string> := ["sales", "leads"]

  /** The five range values are distinct. */
  lemma HeaderRangesDistinct()
    ensures DateRangeMenu.ValuesDistinct(DateRanges)
  {
  }

  /** The component's two state fields. */
  class HeaderState {
    var activeTab: string
    var selectedDateRange: DateRangeMenu.RangeOption

    ghost predicate Valid()
      reads this
    {
      selectedDateRange in DateRanges
    }

    /** The initial `useState` values: the 'leads' tab and the fourth range, 'Last 6 months'. */
    constructor ()
      ensures Valid()
      ensures activeTab == "leads" && activeTab == TabValues[1]
      ensures selectedDateRange == DateRanges[3] && selectedDateRange.caption == "Last 6 months"
    {
      activeTab := "leads";
      selectedDateRange := DateRanges[3];
    }

    /** `onValueChange={setActiveTab}`: the tab changes, the range does not. */
    method SetActiveTab(value: string)
      requires Valid()
      modifies this
      ensures Valid()
      ensures activeTab == value && selectedDateRange == old(selectedDateRange)
    {
      activeTab := value;
    }

    /** A click on a range item: the selection becomes exactly that range, the tab does not change. */
    method SelectDateRange(range: DateRangeMenu.RangeOption)
      requires Valid() && range in DateRanges
      modifies this
      ensures Valid()
      ensures selectedDateRange == range && activeTab == old(activeTab)
    {
      selectedDateRange := range;
    }

    /** The range menu: exactly one item, the selected range's, is highlighted. */
    method RenderDateMenu() returns (items: seq<DateRangeMenu.MenuItem>)
      requires Valid()
      ensures items == DateRangeMenu.RenderMenu(DateRanges, selectedDateRange)
      ensures DateRangeMenu.HighlightCount(items) == 1
      ensures forall i :: 0 <= i < |items| ==> (items[i].highlighted <==> DateRanges[i] == selectedDateRange)
    {
      items := DateRangeMenu.RenderMenu(DateRanges, selectedDateRange);
      HeaderRangesDistinct();
      DateRangeMenu.ExactlyOneHighlighted(DateRanges, selectedDateRange);
    }

    /** The tab triggers' active flags: a trigger is active iff its value is the active tab. */
    method RenderTabs() returns (active: seq<bool>)
      ensures |active| == |TabValues|
      ensures forall i :: 0 <= i < |active| ==> (active[i] <==> TabValues[i] == activeTab)
      ensures activeTab in TabValues ==> exists i :: 0 <= i < |active| && active[i]
    {
      active := [TabValues[0] == activeTab, TabValues[1] == activeTab];
    }
  }
}
