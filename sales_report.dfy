/**
 * The fetched sales report and the three fixed-shape lists the dashboard derives
 * from it for its charts: sales by channel (bar chart), sales by platform (pie
 * chart) and physical against digital sales (grouped bar chart).
 */
module SalesReport {

  /** `platforms.amazon`: units sold per storefront and their total. */
  datatype AmazonSales = AmazonSales(us: nat, ca: nat, uk: nat, total: nat)

  /** `platforms.shopify` and `platforms.clickfunnels`: physical and digital units and their total. */
  datatype StoreSales = StoreSales(physical: nat, digital: nat, total: nat)

  datatype Platforms = Platforms(amazon: AmazonSales, shopify: StoreSales, clickfunnels: StoreSales)

  /** The JSON document the dashboard loads. */
  datatype Report = Report(totalSales: nat, lastUpdated: string, platforms: Platforms)

  /**
   * The consistency the dashboard takes for granted but never checks: each platform's
   * total is the sum of its parts, and the grand total the sum of the platform totals.
   */
  predicate Consistent(r: Report)
  {
    var p := r.platforms;
    && p.amazon.total == p.amazon.us + p.amazon.ca + p.amazon.uk
    && p.shopify.total == p.shopify.physical + p.shopify.digital
    && p.clickfunnels.total == p.clickfunnels.physical + p.clickfunnels.digital
    && r.totalSales == p.amazon.total + p.shopify.total + p.clickfunnels.total
  }

  // ---------------------------------------------------------------------------
  // Chart rows
  // ---------------------------------------------------------------------------

  /** One bar or pie slice: a label, a count and a fill colour. */
  datatype ChartEntry = ChartEntry(name: string, value: nat, color: string)

  /** One group of the physical/digital chart: a Shopify bar and a ClickFunnels bar. */
  datatype ComparisonRow = ComparisonRow(name: string, shopify: nat, clickfunnels: nat)

  const AMAZON_COLOR := "#FF9900"
  const SHOPIFY_COLOR := "#96BF48"
  const SHOPIFY_DIGITAL_COLOR := "#5E8E3E"
  const CLICKFUNNELS_COLOR := "#3083DC"
  const CLICKFUNNELS_DIGITAL_COLOR := "#2563EB"

  /** The channels, in the order the bar chart shows them. */
  const CHANNEL_NAMES: seq<string> := [
    "Amazon US", "Amazon CA", "Amazon UK",
    "Shopify Physical", "Shopify Digital",
    "ClickFunnels Physical", "ClickFunnels Digital"
  ]

  const CHANNEL_COLORS: seq<string> := [
    AMAZON_COLOR, AMAZON_COLOR, AMAZON_COLOR,
    SHOPIFY_COLOR, SHOPIFY_DIGITAL_COLOR,
    CLICKFUNNELS_COLOR, CLICKFUNNELS_DIGITAL_COLOR
  ]

  /** The platforms, in the order the pie chart shows them. */
  const PLATFORM_NAMES: seq<string> := ["Amazon", "Shopify", "ClickFunnels"]

  const PLATFORM_COLORS: seq<string> := [AMAZON_COLOR, SHOPIFY_COLOR, CLICKFUNNELS_COLOR]

  /** `platformData`: one entry per sales channel. */
  function ChannelBreakdown(r: Report): (entries: seq<ChartEntry>)
    ensures |entries| == |CHANNEL_NAMES|
  {
    var p := r.platforms;
    [
      ChartEntry("Amazon US", p.amazon.us, AMAZON_COLOR),
      ChartEntry("Amazon CA", p.amazon.ca, AMAZON_COLOR),
      ChartEntry("Amazon UK", p.amazon.uk, AMAZON_COLOR),
      ChartEntry("Shopify Physical", p.shopify.physical, SHOPIFY_COLOR),
      ChartEntry("Shopify Digital", p.shopify.digital, SHOPIFY_DIGITAL_COLOR),
      ChartEntry("ClickFunnels Physical", p.clickfunnels.physical, CLICKFUNNELS_COLOR),
      ChartEntry("ClickFunnels Digital", p.clickfunnels.digital, CLICKFUNNELS_DIGITAL_COLOR)
    ]
  }

  /** `platformTotalData`: one pie slice per platform. */
  function PlatformTotals(r: Report): (entries: seq<ChartEntry>)
    ensures |entries| == |PLATFORM_NAMES|
  {
    var p := r.platforms;
    [
      ChartEntry("Amazon", p.amazon.total, AMAZON_COLOR),
      ChartEntry("Shopify", p.shopify.total, SHOPIFY_COLOR),
      ChartEntry("ClickFunnels", p.clickfunnels.total, CLICKFUNNELS_COLOR)
    ]
  }

  /** `physicalVsDigitalData`: a "Physical" row and a "Digital" row. */
  function PhysicalVsDigital(r: Report): (rows: seq<ComparisonRow>)
    ensures |rows| == 2
  {
    var p := r.platforms;
    [
      ComparisonRow("Physical", p.shopify.physical, p.clickfunnels.physical),
      ComparisonRow("Digital", p.shopify.digital, p.clickfunnels.digital)
    ]
  }

  // ---------------------------------------------------------------------------
  // Reading the chart rows back
  // ---------------------------------------------------------------------------

  function Sum(entries: seq<ChartEntry>): nat
  {
    if entries == [] then 0 else entries[0].value + Sum(entries[1..])
  }

  lemma SumStep(entries: seq<ChartEntry>, i: nat)
    requires i < |entries|
    ensures Sum(entries[i..]) == entries[i].value + Sum(entries[i + 1..])
  {
    assert entries[i..][1..] == entries[i + 1..];
  }

  // ---------------------------------------------------------------------------
  // Properties of the derivations
  // ---------------------------------------------------------------------------

  /**
   * The channel list has seven entries in the fixed order and brand colours whatever
   * the report holds, zeros included, and each entry carries its own report field.
   */
  lemma ChannelBreakdownShape(r: Report)
    ensures |ChannelBreakdown(r)| == 7
    ensures forall i :: 0 <= i < 7 ==>
      ChannelBreakdown(r)[i].name == CHANNEL_NAMES[i] && ChannelBreakdown(r)[i].color == CHANNEL_COLORS[i]
    ensures var p, e := r.platforms, ChannelBreakdown(r);
      && e[0].value == p.amazon.us && e[1].value == p.amazon.ca && e[2].value == p.amazon.uk
      && e[3].value == p.shopify.physical && e[4].value == p.shopify.digital
      && e[5].value == p.clickfunnels.physical && e[6].value == p.clickfunnels.digital
  {
  }

  /** The pie chart has three slices, Amazon, Shopify, ClickFunnels, carrying the platform totals. */
  lemma PlatformTotalsShape(r: Report)
    ensures |PlatformTotals(r)| == 3
    ensures forall i :: 0 <= i < 3 ==>
      PlatformTotals(r)[i].name == PLATFORM_NAMES[i] && PlatformTotals(r)[i].color == PLATFORM_COLORS[i]
    ensures var p, e := r.platforms, PlatformTotals(r);
      e[0].value == p.amazon.total && e[1].value == p.shopify.total && e[2].value == p.clickfunnels.total
  {
  }

  /**
   * The comparison chart is a pivot of the channel list: the Shopify and ClickFunnels
   * bars of the "Physical" and "Digital" rows are the channels labelled with the
   * platform's name followed by the row's name.
   */
  lemma ComparisonIsPivotOfChannels(r: Report)
    ensures var rows, e := PhysicalVsDigital(r), ChannelBreakdown(r);
      && rows[0].name == "Physical" && rows[1].name == "Digital"
      && (forall k :: 0 <= k < 2 ==>
            && e[3 + k].name == "Shopify " + rows[k].name && rows[k].shopify == e[3 + k].value
            && e[5 + k].name == "ClickFunnels " + rows[k].name && rows[k].clickfunnels == e[5 + k].value)
  {
    assert "Shopify " + "Physical" == "Shopify Physical";
    assert "Shopify " + "Digital" == "Shopify Digital";
    assert "ClickFunnels " + "Physical" == "ClickFunnels Physical";
    assert "ClickFunnels " + "Digital" == "ClickFunnels Digital";
  }

  /** In a consistent report each pie slice is the sum of the bars of that platform's channels. */
  lemma ChannelsAddUpToPlatformTotals(r: Report)
    requires Consistent(r)
    ensures var e, t := ChannelBreakdown(r), PlatformTotals(r);
      && t[0].value == e[0].value + e[1].value + e[2].value
      && t[1].value == e[3].value + e[4].value
      && t[2].value == e[5].value + e[6].value
  {
  }

  lemma ChannelsSumToPlatformSum(r: Report)
    ensures var e, p := ChannelBreakdown(r), r.platforms;
      Sum(e) == p.amazon.us + p.amazon.ca + p.amazon.uk + p.shopify.physical + p.shopify.digital
                + p.clickfunnels.physical + p.clickfunnels.digital
  {
    var e := ChannelBreakdown(r);
    SumStep(e, 6);
    SumStep(e, 5);
    SumStep(e, 4);
    SumStep(e, 3);
    SumStep(e, 2);
    SumStep(e, 1);
    SumStep(e, 0);
    assert e[0..] == e;
  }

  lemma PlatformTotalsSum(r: Report)
    ensures var p := r.platforms;
      Sum(PlatformTotals(r)) == p.amazon.total + p.shopify.total + p.clickfunnels.total
  {
    var t := PlatformTotals(r);
    SumStep(t, 2);
    SumStep(t, 1);
    SumStep(t, 0);
    assert t[0..] == t;
  }

  /** In a consistent report the bars, and the pie slices, both add up to the grand total. */
  lemma ChartsAddUpToTotalSales(r: Report)
    requires Consistent(r)
    ensures Sum(ChannelBreakdown(r)) == r.totalSales
    ensures Sum(PlatformTotals(r)) == r.totalSales
  {
    ChannelsSumToPlatformSum(r);
    PlatformTotalsSum(r);
  }

  /** In a consistent report each column of the comparison chart adds up to that platform's total. */
  lemma ComparisonColumnsAddUp(r: Report)
    requires Consistent(r)
    ensures var rows := PhysicalVsDigital(r);
      && rows[0].shopify + rows[1].shopify == PlatformTotals(r)[1].value
      && rows[0].clickfunnels + rows[1].clickfunnels == PlatformTotals(r)[2].value
  {
  }
}
