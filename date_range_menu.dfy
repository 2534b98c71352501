/**
 * The date-range dropdown that both the chart card and the page header use
 * (ChartCard.tsx:145-153, PageHeader.tsx:46-54): one menu item per option, in
 * table order, and an item is highlighted iff its value equals the selected
 * option's value.
 */
module DateRangeMenu {

  /** One option of a date-range table: the caption shown (the source's `label`) and the value it is compared by. */
  datatype RangeOption = RangeOption(caption: string, value: string)

  /** One rendered menu item, keyed by the option's value. */
  datatype MenuItem = MenuItem(key: string, caption: string, highlighted: bool)

  predicate ValuesDistinct(table: seq<RangeOption>) {
    forall i, j :: 0 <= i < j < |table| ==> table[i].value != table[j].value
  }

  /** The menu for `table` while `selected` is the selected option. */
  function RenderMenu(table: seq<RangeOption>, selected: RangeOption): (items: seq<MenuItem>)
    ensures |items| == |table|
    ensures forall i :: 0 <= i < |items| ==> items[i].key == table[i].value && items[i].caption == table[i].caption
    ensures forall i :: 0 <= i < |items| ==> (items[i].highlighted <==> table[i].value == selected.value)
  {
    seq(|table|, i requires 0 <= i < |table| =>
      MenuItem(table[i].value, table[i].caption, selected.value == table[i].value))
  }

  /** How many items are highlighted. */
  function HighlightCount(items: seq<MenuItem>): nat {
    if items == [] then 0 else (if items[0].highlighted then 1 else 0) + HighlightCount(items[1..])
  }

  lemma {:induction false} NoneHighlighted(table: seq<RangeOption>, selected: RangeOption)
    requires forall i :: 0 <= i < |table| ==> table[i].value != selected.value
    ensures HighlightCount(RenderMenu(table, selected)) == 0
  {
    if table != [] {
      assert RenderMenu(table, selected)[1..] == RenderMenu(table[1..], selected);
      NoneHighlighted(table[1..], selected);
    }
  }

  /**
   * When the values of the table are distinct and the selection is one of its
   * options, exactly one menu item is highlighted: the selected one.
   */
  lemma {:induction false} ExactlyOneHighlighted(table: seq<RangeOption>, selected: RangeOption)
    requires ValuesDistinct(table)
    requires selected in table
    ensures HighlightCount(RenderMenu(table, selected)) == 1
    ensures forall i :: 0 <= i < |table| ==> (RenderMenu(table, selected)[i].highlighted <==> table[i] == selected)
  {
    var items := RenderMenu(table, selected);
    assert items[1..] == RenderMenu(table[1..], selected);
    if table[0] == selected {
      NoneHighlighted(table[1..], selected);
    } else {
      ExactlyOneHighlighted(table[1..], selected);
    }
    forall i | 0 <= i < |table| && table[i].value == selected.value
      ensures table[i] == selected
    {
      var k :| 0 <= k < |table| && table[k] == selected;
      assert k == i;
    }
  }
}
