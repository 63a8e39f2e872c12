/**
 * The pure helpers behind the experiment's models table: which metric columns
 * are spliced into the header row, how they are read back out for each row,
 * what a metric cell and the algorithm cell show, the current page number
 * computed from offset and limit, and the choice between the loading view and
 * the titled table.
 */
module ModelsTable {
  import opened Wrappers

  // ---------------------------------------------------------------------------
  // JavaScript values and array helpers
  // ---------------------------------------------------------------------------

  /** The JavaScript values a metric lookup can produce. */
  datatype JsValue = Undefined | Null | Bool(b: bool) | Num(x: real) | NaN | Str(s: string)

  /** JavaScript truthiness: `undefined`, `null`, `false`, `0`, `NaN` and `''` are falsy. */
  predicate Truthy(v: JsValue)
  {
    match v
    case Undefined => false
    case Null => false
    case Bool(b) => b
    case Num(x) => x != 0.0
    case NaN => false
    case Str(s) => s != ""
  }

  /** A relative index of `Array.prototype.slice`: negative counts from the end; clamped to the length. */
  function RelativeIndex(k: int, len: nat): (r: nat)
    ensures r <= len
    ensures 0 <= k <= len ==> r == k
  {
    if k < 0 then (if len + k < 0 then 0 else len + k)
    else if k > len then len
    else k
  }

  /** `s.slice(start, end)` in JavaScript. */
  function Slice<T>(s: seq<T>, start: int, end: int): (r: seq<T>)
    ensures |r| <= |s|
    ensures 0 <= start <= end <= |s| ==> r == s[start..end]
  {
    var from := RelativeIndex(start, |s|);
    var to := RelativeIndex(end, |s|);
    if from < to then s[from..to] else []
  }

  /** `s.indexOf(x)` in JavaScript: the first index holding `x`, or -1. */
  function IndexOf<T(==)>(s: seq<T>, x: T): (r: int)
    ensures -1 <= r < |s|
    ensures r == -1 <==> x !in s
    ensures r >= 0 ==> s[r] == x && x !in s[..r]
  {
    if |s| == 0 then -1
    else if s[0] == x then 0
    else
      var k := IndexOf(s[1..], x);
      if k == -1 then -1
      else
        assert s[..k + 1] == [s[0]] + s[1..][..k];
        k + 1
  }

  // ---------------------------------------------------------------------------
  // Table headers and metric columns
  // ---------------------------------------------------------------------------

  /** A column header; `property` is absent for the icon and delete columns. */
  datatype TableHeader = TableHeader(caption: string, property: Option<string>, width: string)

  /** The common columns: caret icon, name, status, algorithm, delete button. */
  const TableHeaders: seq<TableHeader> := [
    TableHeader("", None, "2%"),
    TableHeader("Model Name", Some("name"), "15%"),
    TableHeader("Status", Some("status"), "15%"),
    TableHeader("Algorithm", Some("algorithm"), "15%"),
    TableHeader("", None, "2%")
  ]

  const RegressionMetrics: seq<TableHeader> := [
    TableHeader("rmse", Some("rmse"), "12%"),
    TableHeader("r2", Some("r2"), "13%"),
    TableHeader("evariance", Some("evariance"), "13%"),
    TableHeader("mae", Some("mae"), "13%")
  ]

  const CategoricalMetrics: seq<TableHeader> := [
    TableHeader("Precision", Some("precision"), "17%"),
    TableHeader("Recall", Some("recall"), "17%"),
    TableHeader("F1", Some("f1"), "17%")
  ]

  /** Splices the metric columns in before the last header. */
  function AddMetricsToHeaders(headers: seq<TableHeader>, metrics: seq<TableHeader>): (r: seq<TableHeader>)
    ensures |r| == |headers| + |metrics|
    ensures |headers| > 0 ==> r == headers[..|headers| - 1] + metrics + [headers[|headers| - 1]]
    ensures |headers| == 0 ==> r == metrics
  {
    Slice(headers, 0, |headers| - 1) + metrics + Slice(headers, |headers| - 1, |headers|)
  }

  /** Reference choice of metric columns: regression ones for a numeric outcome type. */
  function MetricsFor(outcomeType: string, numberTypes: seq<string>): seq<TableHeader>
  {
    if outcomeType in numberTypes then RegressionMetrics else CategoricalMetrics
  }

  /**
   * The header row for an outcome type: the first four common columns, the
   * chosen metrics, then the delete column.
   */
  function GetNewHeadersBasedOnOutcome(outcomeType: string, numberTypes: seq<string>): (r: seq<TableHeader>)
    ensures r == TableHeaders[..4] + MetricsFor(outcomeType, numberTypes) + [TableHeaders[4]]
    ensures |r| == (if outcomeType in numberTypes then 9 else 8)
  {
    if IndexOf(numberTypes, outcomeType) != -1 then AddMetricsToHeaders(TableHeaders, RegressionMetrics)
    else AddMetricsToHeaders(TableHeaders, CategoricalMetrics)
  }

  /** Slicing the spliced headers back out returns exactly the metrics that went in. */
  lemma MetricsRoundTrip(headers: seq<TableHeader>, metrics: seq<TableHeader>)
    requires |headers| > 0
    ensures var h := AddMetricsToHeaders(headers, metrics);
      Slice(h, |headers| - 1, |h| - 1) == metrics
  {
  }

  // ---------------------------------------------------------------------------
  // Row cells
  // ---------------------------------------------------------------------------

  /** A rendered cell: its width and what it shows. */
  datatype Cell = Cell(width: string, content: JsValue)

  /** `evaluationMetrics[t.property]`: a missing property reads the key "undefined". */
  function Lookup(evaluationMetrics: map<string, JsValue>, header: TableHeader): JsValue
  {
    var key := if header.property.Some? then header.property.value else "undefined";
    if key in evaluationMetrics then evaluationMetrics[key] else Undefined
  }

  /** `evaluationMetrics[t.property] || '--'`: the value when truthy, otherwise the dash. */
  function MetricValue(evaluationMetrics: map<string, JsValue>, header: TableHeader): (r: JsValue)
    ensures Truthy(r)
    ensures r == Lookup(evaluationMetrics, header) || r == Str("--")
  {
    var v := Lookup(evaluationMetrics, header);
    if Truthy(v) then v else Str("--")
  }

  /** A truthy metric is shown as is; a falsy one (missing, 0, NaN, '') shows the dash. */
  lemma MetricFallback(evaluationMetrics: map<string, JsValue>, header: TableHeader)
    ensures Truthy(Lookup(evaluationMetrics, header)) ==>
      MetricValue(evaluationMetrics, header) == Lookup(evaluationMetrics, header)
    ensures !Truthy(Lookup(evaluationMetrics, header)) ==> MetricValue(evaluationMetrics, header) == Str("--")
    ensures Lookup(evaluationMetrics, header) == Num(0.0) ==> MetricValue(evaluationMetrics, header) == Str("--")
  {
  }

  /** The metric cells of one row: the columns between the common ones, sliced out of the header row. */
  function RenderMetrics(outcomeType: string, numberTypes: seq<string>, newHeaders: seq<TableHeader>,
                         evaluationMetrics: map<string, JsValue>): seq<Cell>
  {
    var len := |newHeaders| - 1;
    var commonHeadersLen := |TableHeaders| - 1;
    var metrics := if IndexOf(numberTypes, outcomeType) != -1 then Slice(newHeaders, commonHeadersLen, len)
                   else Slice(newHeaders, commonHeadersLen, len);
    seq(|metrics|, i requires 0 <= i < |metrics| => Cell(metrics[i].width, MetricValue(evaluationMetrics, metrics[i])))
  }

  /**
   * Each row shows one cell per metric column chosen for the outcome type, in
   * order, with that column's width and the metric's value or the dash.
   */
  lemma RenderedMetricsMatchOutcome(outcomeType: string, numberTypes: seq<string>,
                                    evaluationMetrics: map<string, JsValue>)
    ensures var cells := RenderMetrics(outcomeType, numberTypes,
                                       GetNewHeadersBasedOnOutcome(outcomeType, numberTypes), evaluationMetrics);
      var ms := MetricsFor(outcomeType, numberTypes);
      && |cells| == |ms|
      && forall i :: 0 <= i < |cells| ==> cells[i] == Cell(ms[i].width, MetricValue(evaluationMetrics, ms[i]))
  {
  }

  /** The statuses of a model still in the data-split step. */
  const SplitStatuses: seq<string> := ["SPLITTING", "DATA_READY", "EMPTY"]

  /** Whether a model (with a status, or without one) is still in the split step. */
  function InSplitStep(status: Option<string>): (r: bool)
    ensures r <==> status == Some("SPLITTING") || status == Some("DATA_READY") || status == Some("EMPTY")
  {
    status.Some? && IndexOf(SplitStatuses, status.value) != -1
  }

  /** What the algorithm column shows. */
  datatype AlgorithmContent = Dash | AlgorithmWithHyperParams(algorithmLabel: string)

  /** The algorithm cell is the dash exactly for a model in the split step. */
  function AlgorithmCell(status: Option<string>, algorithmLabel: string): (c: AlgorithmContent)
    ensures c == Dash <==> InSplitStep(status)
    ensures c != Dash ==> c.algorithmLabel == algorithmLabel
  {
    if !InSplitStep(status) then AlgorithmWithHyperParams(algorithmLabel) else Dash
  }

  // ---------------------------------------------------------------------------
  // Pagination and the view
  // ---------------------------------------------------------------------------

  /** A JavaScript page number: an integer, or Infinity/NaN after a division by zero. */
  datatype PageNumber = Page(n: int) | NotFinite

  /** `Math.ceil(x)`. */
  function Ceil(x: real): (r: int)
    ensures (r - 1) as real < x <= r as real
  {
    -((-x).Floor)
  }

  /** `offset === 0 ? 1 : Math.ceil((offset + 1) / limit)`. */
  function CurrentPage(offset: int, limit: int): PageNumber
  {
    if offset == 0 then Page(1)
    else if limit == 0 then NotFinite
    else Page(Ceil((offset + 1) as real / limit as real))
  }

  /** Multiplying `a < q` by a positive divisor. */
  lemma ScaleBounds(a: int, b: int, q: real, num: int, den: int)
    requires den > 0
    requires q == num as real / den as real
    requires a as real < q <= b as real
    ensures a * den < num <= b * den
  {
  }

  /**
   * For a non-negative offset and a positive limit the current page is a
   * positive number, and it is the page holding the item at the offset.
   */
  lemma CurrentPageHoldsOffset(offset: int, limit: int)
    requires offset >= 0 && limit > 0
    ensures CurrentPage(offset, limit).Page?
    ensures var n := CurrentPage(offset, limit).n;
      n >= 1 && (n - 1) * limit <= offset < n * limit
  {
    if offset != 0 {
      var q := (offset + 1) as real / limit as real;
      var n := Ceil(q);
      ScaleBounds(n - 1, n, q, offset + 1, limit);
      assert (n - 1) * limit < offset + 1;
      assert 0 < n * limit;
    }
  }

  /** The special case for offset 0 agrees with the general formula. */
  lemma FirstPageSpecialCaseAgrees(limit: int)
    requires limit > 0
    ensures Ceil((0 + 1) as real / limit as real) == 1
  {
  }

  /** lodash `isEmpty` on an experiment id: undefined or the empty string. */
  predicate IsEmpty(experimentId: Option<string>)
  {
    experimentId.None? || experimentId.value == ""
  }

  /** The slice of the experiment store the table reads. */
  datatype ExperimentState = ExperimentState(
    name: Option<string>, loading: bool, outcomeType: string,
    modelsTotalPages: int, modelsOffset: int, modelsLimit: int, modelsTotalCount: int)

  datatype ModelsTableProps = ModelsTableProps(
    experimentId: Option<string>, loading: bool, outcomeType: string,
    modelsTotalPages: int, modelsCurrentPage: PageNumber, modelsTotalCount: int)

  function MapStateToProps(state: ExperimentState): ModelsTableProps
  {
    ModelsTableProps(state.name, state.loading, state.outcomeType, state.modelsTotalPages,
                     CurrentPage(state.modelsOffset, state.modelsLimit), state.modelsTotalCount)
  }

  /** What the component shows: the loading spinner, or the table under a pagination title. */
  datatype ModelsTableView =
    | LoadingView
    | TableView(title: string, currentPage: PageNumber, totalPages: int, numberOfEntities: int)

  function Title(totalCount: int): string
  {
    if totalCount > 1 then "Models" else "Model"
  }

  function Render(props: ModelsTableProps): ModelsTableView
  {
    if props.loading || IsEmpty(props.experimentId) then LoadingView
    else TableView(Title(props.modelsTotalCount), props.modelsCurrentPage, props.modelsTotalPages,
                   props.modelsTotalCount)
  }

  /**
   * The loading view wins exactly when loading or without an experiment; the
   * table is titled in the plural exactly when there is more than one model,
   * and shows the page computed from the store's offset and limit.
   */
  lemma ViewOfState(state: ExperimentState)
    ensures var v := Render(MapStateToProps(state));
      && (v == LoadingView <==> state.loading || IsEmpty(state.name))
      && (v.TableView? ==> (v.title == "Models" <==> state.modelsTotalCount > 1))
      && (v.TableView? ==> v.title == "Models" || v.title == "Model")
      && (v.TableView? ==> v.currentPage == CurrentPage(state.modelsOffset, state.modelsLimit))
      && (v.TableView? ==> v.numberOfEntities == state.modelsTotalCount)
  {
  }
}
