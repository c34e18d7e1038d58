/**
 * The `CookbookSalesDashboard` component: its three state cells (`loading`, `error`,
 * `data`), the one-shot settlement of the fetch that fills them, and the choice of
 * what to render from them.  The network request itself is not modelled: its outcome
 * arrives as a `FetchOutcome` value.
 */
module Dashboard {
  import opened Wrappers
  import opened NumberFormat
  import opened SalesReport

  // ---------------------------------------------------------------------------
  // State and what it shows
  // ---------------------------------------------------------------------------

  /** The values of the component's three `useState` cells. */
  datatype ViewState = ViewState(loading: bool, error: Option<string>, data: Option<Report>)

  /** On mount: loading, no error, no data. */
  const INITIAL := ViewState(true, None, None)

  /** `if (error)` tests truthiness: neither `null` nor the empty string counts as an error. */
  predicate HasError(error: Option<string>): (truthy: bool)
    ensures error == None ==> !truthy
    ensures error == Some("") ==> !truthy
    ensures error.Some? && |error.value| > 0 ==> truthy
  {
    error.Some? && error.value != ""
  }

  /** The four branches of the component's render. */
  datatype ViewKind = Loading | Failed(message: string) | NoData | Full(report: Report)

  /** The render branch: loading first, then an error, then missing data, else the dashboard. */
  function Select(s: ViewState): (kind: ViewKind)
    ensures kind.Full? <==> !s.loading && !HasError(s.error) && s.data.Some?
    ensures kind.Full? ==> kind.report == s.data.value
    ensures kind.Failed? ==> s.error == Some(kind.message)
  {
    if s.loading then Loading
    else if HasError(s.error) then Failed(s.error.value)
    else if s.data.None? then NoData
    else Full(s.data.value)
  }

  /**
   * Loading hides any error and any data, and an error hides the data: changing a
   * lower-priority cell never changes the branch chosen by a higher one.
   */
  lemma SelectionPriority(s: ViewState, error: Option<string>, data: Option<Report>)
    ensures s.loading ==> Select(s.(error := error, data := data)) == Loading
    ensures !s.loading && HasError(s.error) ==>
      Select(s.(data := data)) == Failed(s.error.value) && Select(s) != NoData
    ensures !s.loading && !HasError(s.error) && s.data.None? ==> Select(s) == NoData
    ensures Select(s) == Loading <==> s.loading
  {
  }

  /** What the component puts on the page. */
  datatype Screen =
    | Notice(text: string)
    | Page(headline: string, channels: seq<ChartEntry>, platforms: seq<ChartEntry>,
           comparison: seq<ComparisonRow>, platformFigures: seq<string>)

  const LOADING_TEXT := "Loading dashboard data..."
  const NO_DATA_TEXT := "No data available."
  const ERROR_PREFIX := "Error loading data: "

  const TOTAL_PREFIX := "Total Sales: "
  const TOTAL_SUFFIX := " Cookbooks"

  /**
   * The grand-total heading of the full dashboard: between its fixed words stands the
   * total with thousands separators, which reads back as the total.
   */
  function Headline(r: Report): (headline: string)
    ensures |TOTAL_PREFIX| + |TOTAL_SUFFIX| <= |headline|
    ensures headline[..|TOTAL_PREFIX|] == TOTAL_PREFIX
    ensures headline[|headline| - |TOTAL_SUFFIX|..] == TOTAL_SUFFIX
    ensures headline[|TOTAL_PREFIX|..|headline| - |TOTAL_SUFFIX|] == FormatNumber(r.totalSales)
    ensures ParseFormatted(headline[|TOTAL_PREFIX|..|headline| - |TOTAL_SUFFIX|]) == Some(r.totalSales)
  {
    var figure := FormatNumber(r.totalSales);
    FormatNumberRoundTrip(r.totalSales);
    FramedParts(TOTAL_PREFIX, figure, TOTAL_SUFFIX);
    TOTAL_PREFIX + figure + TOTAL_SUFFIX
  }

  /**
   * The figures of the three summary cards: each pie slice's total with thousands
   * separators, in the pie chart's order, reading back as that total.
   */
  function PlatformFigures(r: Report): (figures: seq<string>)
    ensures |figures| == |PlatformTotals(r)|
    ensures forall j :: 0 <= j < |figures| ==>
      figures[j] == FormatNumber(PlatformTotals(r)[j].value) &&
      ParseFormatted(figures[j]) == Some(PlatformTotals(r)[j].value)
  {
    var totals := PlatformTotals(r);
    assert forall j :: 0 <= j < |totals| ==> ParseFormatted(FormatNumber(totals[j].value)) == Some(totals[j].value) by {
      forall j | 0 <= j < |totals| {
        FormatNumberRoundTrip(totals[j].value);
      }
    }
    seq(|totals|, j requires 0 <= j < |totals| => FormatNumber(totals[j].value))
  }

  /** The component's render, as a function of its state. */
  function Render(s: ViewState): (screen: Screen)
    ensures screen.Page? <==> Select(s).Full?
  {
    match Select(s)
    case Loading => Notice(LOADING_TEXT)
    case Failed(message) => Notice(ERROR_PREFIX + message)
    case NoData => Notice(NO_DATA_TEXT)
    case Full(r) =>
      Page(Headline(r), ChannelBreakdown(r), PlatformTotals(r), PhysicalVsDigital(r), PlatformFigures(r))
  }

  /**
   * A rendered dashboard shows the report's grand total with thousands separators, its
   * three chart lists, and each platform total, with thousands separators, as a summary
   * figure that reads back as that total.
   */
  lemma RenderedPage(s: ViewState)
    requires Render(s).Page?
    ensures var r, page := s.data.value, Render(s);
      && page.headline == TOTAL_PREFIX + FormatNumber(r.totalSales) + TOTAL_SUFFIX
      && page.channels == ChannelBreakdown(r)
      && page.platforms == PlatformTotals(r)
      && page.comparison == PhysicalVsDigital(r)
      && |page.platformFigures| == 3
      && (forall j :: 0 <= j < 3 ==>
            && page.platformFigures[j] == FormatNumber(PlatformTotals(r)[j].value)
            && ParseFormatted(page.platformFigures[j]) == Some(PlatformTotals(r)[j].value))
  {
  }

  // ---------------------------------------------------------------------------
  // The fetch and its one-shot settlement
  // ---------------------------------------------------------------------------

  /** A response: its HTTP status and what `response.json()` yields (a report or a parse error). */
  datatype Response = Response(status: nat, body: Result<Report, string>)

  /** The fetch either rejects with a message or delivers a response. */
  datatype FetchOutcome = Rejected(message: string) | Received(response: Response)

  /** `response.ok`: a status in the range 200 to 299, that is, a 2xx status. */
  predicate IsOk(status: nat): (ok: bool)
    ensures ok <==> status / 100 == 2
  {
    200 <= status <= 299
  }

  const NOT_OK_PREFIX := "Network response was not ok: "

  /** The message thrown for a response that is not ok: the fixed words, then the status as `toString` writes it. */
  function NotOkMessage(status: nat): (message: string)
    ensures |NOT_OK_PREFIX| < |message| && message[..|NOT_OK_PREFIX|] == NOT_OK_PREFIX
    ensures var code := message[|NOT_OK_PREFIX|..]; IsCanonical(code) && ValueOf(code) == status
  {
    DecimalDigitsIsCanonical(status);
    var message := NOT_OK_PREFIX + DecimalDigits(status);
    assert message[|NOT_OK_PREFIX|..] == DecimalDigits(status);
    message
  }

  /** What reaches the second `.then`: the parsed report, or the message the `.catch` receives. */
  function Fetched(outcome: FetchOutcome): (result: Result<Report, string>)
    ensures outcome.Received? && !IsOk(outcome.response.status) ==>
      result == Failure(NotOkMessage(outcome.response.status))
    ensures outcome.Rejected? ==> result == Failure(outcome.message)
    ensures outcome.Received? && IsOk(outcome.response.status) ==> result == outcome.response.body
    ensures result.Success? <==>
      outcome.Received? && IsOk(outcome.response.status) && outcome.response.body.Success?
  {
    match outcome
    case Rejected(message) => Failure(message)
    case Received(response) =>
      if !IsOk(response.status) then Failure(NotOkMessage(response.status)) else response.body
  }

  /**
   * The failure continuation's updates: record the message as the error, stop loading;
   * a non-empty message then selects the error view whatever the data cell holds.
   */
  function AfterFailure(s: ViewState, message: string): (t: ViewState)
    ensures t.error == Some(message) && !t.loading && t.data == s.data
    ensures message != "" ==> Select(t) == Failed(message)
  {
    s.(error := Some(message), loading := false)
  }

  /**
   * The success continuation's updates: record the report as the data, stop loading;
   * the dashboard then shows that report unless an error is already recorded.
   */
  function AfterSuccess(s: ViewState, r: Report): (t: ViewState)
    ensures t.data == Some(r) && !t.loading && t.error == s.error
    ensures Select(t) == (if HasError(s.error) then Failed(s.error.value) else Full(r))
  {
    s.(data := Some(r), loading := false)
  }

  /**
   * The state the promise chain leaves behind.  `labelWrite` is the outcome of writing
   * `lastUpdated` into the page after a success: None when it works, Some(message) when
   * it throws, in which case the same `.catch` records the message as the error.
   */
  function Settled(s: ViewState, outcome: FetchOutcome, labelWrite: Option<string>): (t: ViewState)
    ensures !t.loading
  {
    match Fetched(outcome)
    case Failure(message) => AfterFailure(s, message)
    case Success(r) =>
      var loaded := AfterSuccess(s, r);
      if labelWrite.Some? then AfterFailure(loaded, labelWrite.value) else loaded
  }

  /** A failed fetch stores its message, leaves the data empty and never shows the dashboard. */
  lemma FailedFetchShowsError(outcome: FetchOutcome, labelWrite: Option<string>)
    requires Fetched(outcome).Failure?
    ensures var t := Settled(INITIAL, outcome, labelWrite);
      && t.error == Some(Fetched(outcome).error)
      && t.data.None?
      && !t.loading
      && !Select(t).Full?
      && (Fetched(outcome).error != "" ==> Select(t) == Failed(Fetched(outcome).error))
  {
  }

  /** A rejected fetch with a non-empty message ends on the error view showing that message. */
  lemma RejectedFetchShowsMessage(message: string, labelWrite: Option<string>)
    requires message != ""
    ensures Render(Settled(INITIAL, Rejected(message), labelWrite)) == Notice(ERROR_PREFIX + message)
  {
  }

  /** A response whose status is not 2xx ends on the error view naming that status. */
  lemma NotOkStatusShowsStatus(status: nat, body: Result<Report, string>, labelWrite: Option<string>)
    requires !IsOk(status)
    ensures Select(Settled(INITIAL, Received(Response(status, body)), labelWrite)) ==
      Failed(NOT_OK_PREFIX + DecimalDigits(status))
    ensures Render(Settled(INITIAL, Received(Response(status, body)), labelWrite)) ==
      Notice(ERROR_PREFIX + NOT_OK_PREFIX + DecimalDigits(status))
  {
    var message := NotOkMessage(status);
    assert message == NOT_OK_PREFIX + DecimalDigits(status);
    assert Select(Settled(INITIAL, Received(Response(status, body)), labelWrite)) == Failed(message);
    assert ERROR_PREFIX + message == ERROR_PREFIX + NOT_OK_PREFIX + DecimalDigits(status);
  }

  lemma DecimalDigitsOf500()
    ensures DecimalDigits(500) == "500"
  {
    assert DecimalDigits(5) == "5";
    assert DecimalDigits(50) == "50";
  }

  /** An HTTP 500 shows "Error loading data: Network response was not ok: 500". */
  lemma ServerErrorExample(body: Result<Report, string>)
    ensures Render(Settled(INITIAL, Received(Response(500, body)), None)) ==
      Notice(ERROR_PREFIX + NOT_OK_PREFIX + "500")
  {
    NotOkStatusShowsStatus(500, body, None);
    DecimalDigitsOf500();
  }

  /**
   * The full dashboard appears after a fetch exactly when the report arrived and was
   * parsed and no non-empty error was raised by the `lastUpdated` write; it then shows
   * the report that arrived.
   */
  lemma DashboardShownIffLoaded(outcome: FetchOutcome, labelWrite: Option<string>)
    ensures var t := Settled(INITIAL, outcome, labelWrite);
      && (Select(t).Full? <==> Fetched(outcome).Success? && !HasError(labelWrite))
      && (Select(t).Full? ==> Select(t).report == Fetched(outcome).value)
  {
  }

  /**
   * When the page has no element for the `lastUpdated` label, the report is stored but
   * the thrown message wins: the error view is shown instead of the dashboard.
   */
  lemma FailedLabelWriteHidesReport(status: nat, r: Report, message: string)
    requires IsOk(status) && message != ""
    ensures var t := Settled(INITIAL, Received(Response(status, Success(r))), Some(message));
      t.data == Some(r) && Select(t) == Failed(message)
  {
  }

  /** After a good fetch the heading shows the grand total with thousands separators. */
  lemma SuccessfulFetchShowsTotal(status: nat, r: Report)
    requires IsOk(status)
    ensures var screen := Render(Settled(INITIAL, Received(Response(status, Success(r))), None));
      && screen.Page?
      && screen.headline == TOTAL_PREFIX + FormatNumber(r.totalSales) + TOTAL_SUFFIX
      && |TOTAL_PREFIX| + |TOTAL_SUFFIX| <= |screen.headline|
      && ParseFormatted(screen.headline[|TOTAL_PREFIX|..|screen.headline| - |TOTAL_SUFFIX|]) == Some(r.totalSales)
  {
  }

  /** Once loading has stopped, whatever is rendered differs from the loading notice. */
  lemma StoppedLoadingLeavesNotice(s: ViewState)
    requires !s.loading
    ensures Render(s) != Notice(LOADING_TEXT)
  {
    match Select(s)
    case Failed(message) =>
      assert ("Error loading data: " + message)[0] != LOADING_TEXT[0];
    case NoData =>
      assert NO_DATA_TEXT[0] != LOADING_TEXT[0];
    case Full(_) =>
  }

  // ---------------------------------------------------------------------------
  // The component's state cells
  // ---------------------------------------------------------------------------

  /** The state cells of one mounted `CookbookSalesDashboard`. */
  class CookbookSalesDashboard {
    var loading: bool
    var error: Option<string>
    var data: Option<Report>

    function State(): ViewState
      reads this
    {
      ViewState(loading, error, data)
    }

    /** The cells' initial values: no data, loading, no error. */
    constructor ()
      ensures State() == INITIAL
    {
      loading, error, data := true, None, None;
    }

    /** The success continuation: store the report, stop loading; the error cell is untouched. */
    method OnSuccess(r: Report)
      modifies this
      ensures data == Some(r) && !loading && error == old(error)
      ensures State() == AfterSuccess(old(State()), r)
    {
      data := Some(r);
      loading := false;
    }

    /** The `.catch` continuation: store the message, stop loading; the data cell is untouched. */
    method OnFailure(message: string)
      modifies this
      ensures error == Some(message) && !loading && data == old(data)
      ensures State() == AfterFailure(old(State()), message)
    {
      error := Some(message);
      loading := false;
    }

    /** Runs the fetch's continuations on its outcome, in the order the promise chain does. */
    method Settle(outcome: FetchOutcome, labelWrite: Option<string>)
      modifies this
      ensures State() == Settled(old(State()), outcome, labelWrite)
      ensures !loading
    {
      match outcome
      case Rejected(message) =>
        OnFailure(message);
      case Received(response) =>
        if !IsOk(response.status) {
          OnFailure(NotOkMessage(response.status));
        } else {
          match response.body
          case Failure(message) =>
            OnFailure(message);
          case Success(r) =>
            OnSuccess(r);
            if labelWrite.Some? {
              OnFailure(labelWrite.value);
            }
        }
    }

    function View(): Screen
      reads this
    {
      Render(State())
    }
  }

  /**
   * One mount of the component: it first shows the loading notice, then, once the
   * fetch settles, what its outcome calls for.
   */
  method Mount(outcome: FetchOutcome, labelWrite: Option<string>) returns (first: Screen, last: Screen)
    ensures first == Notice(LOADING_TEXT)
    ensures last == Render(Settled(INITIAL, outcome, labelWrite))
    ensures last != first
  {
    var component := new CookbookSalesDashboard();
    first := component.View();
    component.Settle(outcome, labelWrite);
    last := component.View();
    StoppedLoadingLeavesNotice(component.State());
  }
}
