/** The component's state machine: how a fetch of the list items (its request
    URL and its outcome) replaces the state, and which view `render` shows
    for a state. */
module IssueDetails {
  import opened JsValues
  import opened ChartData
  import ChartOptions

  /** The properties the fetch and the view read. */
  datatype Props = Props(
    marketAccessIssueList: string,
    webUrl: string,
    chartSize: int,
    idFromUrl: Option<string>)

  /** The component state: fetched items, the loading flag and the error text. */
  datatype State = State(items: seq<Item>, loading: bool, error: Option<string>)

  /** The state the component is constructed with. */
  const InitialState: State := State([], true, None)

  /** What the HTTP request came to: a parsed body whose `value` may be
      absent, a response that is not ok, or an exception with its message. */
  datatype Outcome =
    | Ok(value: Option<seq<Item>>)
    | HttpError(status: nat, statusText: string)
    | Exception(message: string)

  /** The first, synchronous part of a fetch: either it settles the state at
      once and issues no request, or it marks the state loading and issues a
      GET for `url`. */
  datatype FetchStart = Settled(state: State) | Requested(state: State, url: string)

  /** `encodeURIComponent`, left uninterpreted. */
  type Encoder = string -> string

  const MissingListMessage: string := "List name not specified"
  const SelectClause: string := "/items?$select=Id,Title,Resolvability,Opportunity"
  const FilterClause: string := "&$filter=Id eq "
  const HttpErrorPrefix: string := "Failed to fetch list items: "

  /** The request URL without the optional filter. */
  function SelectUrl(webUrl: string, listName: string, encode: Encoder): string
  {
    webUrl + "/_api/web/lists/getbytitle('" + encode(listName) + "')" + SelectClause
  }

  /** The request URL: the filter on one id is appended exactly when the id
      taken from the page URL is truthy. */
  function ListItemsUrl(webUrl: string, listName: string, idFromUrl: Option<string>, encode: Encoder): (url: string)
    ensures var base := SelectUrl(webUrl, listName, encode);
      && |base| <= |url| && url[..|base|] == base
      && (TruthyText(idFromUrl) <==> |url| > |base|)
      && (TruthyText(idFromUrl) ==> url[|base|..] == FilterClause + idFromUrl.value)
  {
    var base := SelectUrl(webUrl, listName, encode);
    if TruthyText(idFromUrl) then base + FilterClause + idFromUrl.value else base
  }

  /** Start of `_fetchListItems`: a missing list name settles the state with
      an error; otherwise the state goes loading, keeping its items. */
  function BeginFetch(props: Props, s: State, encode: Encoder): (f: FetchStart)
    ensures f.Settled? <==> props.marketAccessIssueList == ""
    ensures f.Settled? ==> f.state == State([], false, Some(MissingListMessage))
    ensures f.Requested? ==> f.state.loading && f.state.error == None && f.state.items == s.items
    ensures f.Requested? ==> f.url == ListItemsUrl(props.webUrl, props.marketAccessIssueList, props.idFromUrl, encode)
  {
    if props.marketAccessIssueList == "" then
      Settled(State([], false, Some(MissingListMessage)))
    else
      Requested(
        s.(loading := true, error := None),
        ListItemsUrl(props.webUrl, props.marketAccessIssueList, props.idFromUrl, encode))
  }

  /** The message of the error thrown for a response that is not ok. */
  function HttpErrorMessage(status: nat, statusText: string): string
  {
    HttpErrorPrefix + NatToDecimal(status) + " " + statusText
  }

  /** The state once the request has come back. It depends on the outcome
      alone: whatever state it lands on is overwritten, which is how a late
      response from an earlier fetch can replace a newer one. */
  function CompleteFetch(s: State, outcome: Outcome): (r: State)
    ensures !r.loading
    ensures r.error.None? <==> outcome.Ok?
    ensures outcome.Ok? && outcome.value.Some? ==> r.items == outcome.value.value
    ensures !(outcome.Ok? && outcome.value.Some?) ==> r.items == []
    ensures outcome.HttpError? ==> r.error == Some(HttpErrorMessage(outcome.status, outcome.statusText))
    ensures outcome.Exception? ==> r.error == Some(outcome.message)
  {
    match outcome
    case Ok(value) => State(if value.Some? then value.value else [], false, None)
    case HttpError(status, statusText) => State([], false, Some(HttpErrorMessage(status, statusText)))
    case Exception(message) => State([], false, Some(message))
  }

  /** A whole fetch from state `s`; `outcome` is used only if a request is issued. */
  function Fetch(props: Props, s: State, encode: Encoder, outcome: Outcome): State
  {
    match BeginFetch(props, s, encode)
    case Settled(st) => st
    case Requested(st, _) => CompleteFetch(st, outcome)
  }

  /** Number of decimal digits at the head of a string. */
  function LeadingDigits(s: string): (k: nat)
    ensures k <= |s| && AllDigits(s[..k])
    ensures k < |s| ==> !IsDigit(s[k])
  {
    if |s| > 0 && IsDigit(s[0]) then
      var k := 1 + LeadingDigits(s[1..]);
      assert s[..k] == [s[0]] + s[1..][..k - 1];
      k
    else 0
  }

  /** Reads the status and status text back out of an HTTP error message. */
  function ParseHttpErrorMessage(message: string): Option<(nat, string)>
  {
    var p := |HttpErrorPrefix|;
    if |message| < p || message[..p] != HttpErrorPrefix then None
    else
      var rest := message[p..];
      var k := LeadingDigits(rest);
      if k == 0 || k == |rest| || rest[k] != ' ' then None
      else Some((ParseDecimal(rest[..k]), rest[k + 1..]))
  }

  lemma {:induction false} LeadingDigitsOfDecimal(digits: string, tail: string)
    requires AllDigits(digits)
    requires |tail| > 0 && !IsDigit(tail[0])
    ensures LeadingDigits(digits + tail) == |digits|
    decreases |digits|
  {
    if |digits| > 0 {
      assert (digits + tail)[1..] == digits[1..] + tail;
      LeadingDigitsOfDecimal(digits[1..], tail);
    } else {
      assert digits + tail == tail;
    }
  }

  /** The error message carries the status code and the status text, and both
      can be recovered from it. */
  lemma HttpErrorMessageRoundTrip(status: nat, statusText: string)
    ensures ParseHttpErrorMessage(HttpErrorMessage(status, statusText)) == Some((status, statusText))
  {
    var digits := NatToDecimal(status);
    var message := HttpErrorMessage(status, statusText);
    var rest := message[|HttpErrorPrefix|..];
    assert rest == digits + (" " + statusText);
    LeadingDigitsOfDecimal(digits, " " + statusText);
    assert rest[..|digits|] == digits;
    DecimalRoundTrip(status);
  }

  /** A table cell for a raw measure: the value when truthy, "-" otherwise. */
  datatype Cell = Dash | Value(raw: Raw)

  /** One table row: id, title (or "(No Title)"), and the two raw measures. */
  datatype Row = Row(id: int, title: string, resolvability: Cell, opportunity: Cell)

  /** The table body: a single "no items" row naming the list, or one row per item. */
  datatype Table = NoItems(listName: string) | Rows(rows: seq<Row>)

  /** The chart block: container width, inner width and the points. */
  datatype Chart = Chart(containerWidth: real, innerWidth: real, points: seq<ChartPoint>)

  datatype View =
    | LoadingView
    | ErrorView(message: string)
    | ContentView(table: Table, chart: Option<Chart>)

  function CellOf(raw: Raw): (c: Cell)
    ensures c.Value? <==> Truthy(raw)
    ensures c.Value? ==> c.raw == raw
  {
    if Truthy(raw) then Value(raw) else Dash
  }

  function RowOf(item: Item): (r: Row)
    ensures r.id == item.Id
    ensures TruthyText(item.Title) ==> r.title == item.Title.value
    ensures !TruthyText(item.Title) ==> r.title == "(No Title)"
    ensures r.resolvability == CellOf(item.Resolvability) && r.opportunity == CellOf(item.Opportunity)
  {
    Row(item.Id,
        if TruthyText(item.Title) then item.Title.value else "(No Title)",
        CellOf(item.Resolvability),
        CellOf(item.Opportunity))
  }

  /** The view `render` returns for a state. */
  function Render(props: Props, s: State, parseFloat: ParseFloat): (v: View)
    ensures s.loading ==> v == LoadingView
    ensures !s.loading && TruthyText(s.error) ==> v == ErrorView(s.error.value)
    ensures !s.loading && !TruthyText(s.error) ==> v.ContentView?
    ensures v.ContentView? ==>
              && (|s.items| == 0 <==> v.table.NoItems?)
              && (v.table.Rows? ==>
                    |v.table.rows| == |s.items| && forall k :: 0 <= k < |s.items| ==> v.table.rows[k] == RowOf(s.items[k]))
              && (v.chart.Some? <==> |PrepareChartData(s.items, parseFloat)| > 0)
              && (v.chart.Some? ==>
                    && v.chart.value.points == PrepareChartData(s.items, parseFloat)
                    && v.chart.value.containerWidth == ChartOptions.ChartSize(props.chartSize)
                    && v.chart.value.innerWidth + ChartOptions.Padding == v.chart.value.containerWidth)
  {
    if s.loading then LoadingView
    else if TruthyText(s.error) then ErrorView(s.error.value)
    else
      var points := PrepareChartData(s.items, parseFloat);
      var table :=
        if |s.items| == 0 then NoItems(props.marketAccessIssueList)
        else Rows(seq(|s.items|, k requires 0 <= k < |s.items| => RowOf(s.items[k])));
      var chart :=
        if |points| > 0 then
          Some(Chart(ChartOptions.ChartSize(props.chartSize), ChartOptions.InnerChartSize(props.chartSize), points))
        else None;
      ContentView(table, chart)
  }

  /** A fetch without a list name shows its error and issues no request. */
  lemma MissingListShowsError(props: Props, s: State, encode: Encoder, outcome: Outcome, parseFloat: ParseFloat)
    requires props.marketAccessIssueList == ""
    ensures BeginFetch(props, s, encode).Settled?
    ensures Render(props, Fetch(props, s, encode, outcome), parseFloat) == ErrorView(MissingListMessage)
  {
  }

  /** While a request is in flight the loading view is shown. */
  lemma RequestInFlightShowsLoading(props: Props, s: State, encode: Encoder, parseFloat: ParseFloat)
    requires props.marketAccessIssueList != ""
    ensures Render(props, BeginFetch(props, s, encode).state, parseFloat) == LoadingView
  {
  }

  /** A response that is not ok ends in the error view, whose message yields
      back the status and its text. */
  lemma HttpFailureShowsStatus(props: Props, s: State, encode: Encoder, status: nat, statusText: string, parseFloat: ParseFloat)
    requires props.marketAccessIssueList != ""
    ensures var v := Render(props, Fetch(props, s, encode, HttpError(status, statusText)), parseFloat);
      v.ErrorView? && ParseHttpErrorMessage(v.message) == Some((status, statusText))
  {
    HttpErrorMessageRoundTrip(status, statusText);
  }

  /** The items a successful response yields: `data.value`, or none when it is absent. */
  function FetchedItems(value: Option<seq<Item>>): seq<Item>
  {
    if value.Some? then value.value else []
  }

  /** A successful fetch lists every fetched item in the table, plottable or
      not (an absent `data.value` counts as no items, which shows the "no
      items" row), and shows the chart exactly when some item is plottable. */
  lemma SuccessShowsAllItems(props: Props, s: State, encode: Encoder, value: Option<seq<Item>>, parseFloat: ParseFloat)
    requires props.marketAccessIssueList != ""
    ensures Fetch(props, s, encode, Ok(value)).items == FetchedItems(value)
    ensures var v := Render(props, Fetch(props, s, encode, Ok(value)), parseFloat);
      && v.ContentView?
      && (|FetchedItems(value)| == 0 <==> v.table == NoItems(props.marketAccessIssueList))
      && (v.table.Rows? ==> |v.table.rows| == |FetchedItems(value)|)
      && (v.chart.Some? <==> exists j :: 0 <= j < |FetchedItems(value)| && Plottable(FetchedItems(value)[j], parseFloat))
  {
    ChartNonEmptyIffSomePlottable(FetchedItems(value), parseFloat);
  }

  /** The state the component is constructed with renders the loading view
      until the first fetch settles. */
  lemma InitialStateShowsLoading(props: Props, parseFloat: ParseFloat)
    ensures InitialState.items == [] && InitialState.error.None?
    ensures Render(props, InitialState, parseFloat) == LoadingView
  {
  }

  /** An exception whose message is empty leaves `error` falsy, so the view
      falls through to the empty table rather than the error view. */
  lemma EmptyExceptionMessageShowsEmptyTable(props: Props, s: State, encode: Encoder, parseFloat: ParseFloat)
    requires props.marketAccessIssueList != ""
    ensures Render(props, Fetch(props, s, encode, Exception("")), parseFloat)
      == ContentView(NoItems(props.marketAccessIssueList), None)
  {
  }
}
