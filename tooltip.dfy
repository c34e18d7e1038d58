/**
 * The hover labels of the charts: `CustomTooltip` on the channel bar chart and the
 * value formatter of the platform pie chart, both built on `formatNumber`.
 */
module Tooltip {
  import opened Wrappers
  import opened NumberFormat

  /** An item of the payload the chart library hands to a tooltip: a series name and the hovered count. */
  datatype PayloadItem = PayloadItem(name: string, value: nat)

  const COOKBOOKS := " cookbooks"

  /**
   * `CustomTooltip`: nothing (`null`) unless the tooltip is active and has a non-empty
   * payload; otherwise a label for the first payload item.  An absent payload is None.
   */
  function Label(active: bool, payload: Option<seq<PayloadItem>>): (shown: Option<string>)
    ensures shown.Some? <==> active && payload.Some? && |payload.value| > 0
  {
    if active && payload.Some? && |payload.value| > 0 then
      var item := payload.value[0];
      Some(item.name + ": " + FormatNumber(item.value) + COOKBOOKS)
    else
      None
  }

  /**
   * The pie chart's tooltip formatter: the count with thousands separators, which
   * reads back as the count, followed by " cookbooks".
   */
  function PieValueText(value: nat): (text: string)
    ensures |COOKBOOKS| <= |text|
    ensures text[..|text| - |COOKBOOKS|] == FormatNumber(value)
    ensures text[|text| - |COOKBOOKS|..] == COOKBOOKS
    ensures ParseFormatted(text[..|text| - |COOKBOOKS|]) == Some(value)
  {
    FormatNumberRoundTrip(value);
    var text := FormatNumber(value) + COOKBOOKS;
    assert text[..|text| - |COOKBOOKS|] == FormatNumber(value);
    text
  }

  /**
   * A shown label reads back as the first item's name, a colon and a space, the
   * item's count with thousands separators, and " cookbooks"; the rest of the
   * payload plays no part.
   */
  lemma LabelReadsBack(active: bool, payload: Option<seq<PayloadItem>>)
    requires active && payload.Some? && |payload.value| > 0
    ensures var text, item := Label(active, payload).value, payload.value[0];
      && |item.name| + 2 + |COOKBOOKS| <= |text|
      && text[..|item.name| + 2] == item.name + ": "
      && text[|text| - |COOKBOOKS|..] == COOKBOOKS
      && text[|item.name| + 2..|text| - |COOKBOOKS|] == FormatNumber(item.value)
      && ParseFormatted(text[|item.name| + 2..|text| - |COOKBOOKS|]) == Some(item.value)
      && Label(active, Some([item])) == Label(active, payload)
  {
    var item := payload.value[0];
    var text := Label(active, payload).value;
    var figure := FormatNumber(item.value);
    assert text == (item.name + ": ") + figure + COOKBOOKS;
    assert text[|item.name| + 2..|text| - |COOKBOOKS|] == figure;
    FormatNumberRoundTrip(item.value);
  }
}
