/** The overview page of src/pages/DashboardView.tsx: the mount fetch of
    the metrics and chart, its mock fallback, and the values the four stat
    cards show. */
module DashboardView {
  import opened Wrappers
  import opened Text

  /** `metrics`; a field the backend leaves out is `None`. */
  datatype Metrics = Metrics(
    totalSent: Option<string>,
    deliveredRate: Option<string>,
    readRate: Option<string>,
    failedRate: Option<string>)

  datatype ChartPoint = ChartPoint(name: string, messages: int)

  /** The body of `GET /dashboard/metrics`; `chartData` is `None` when it
      is absent or null. */
  datatype DashboardResponse = DashboardResponse(metrics: Option<Metrics>, chartData: Option<seq<ChartPoint>>)

  const InitialChart: seq<ChartPoint> := [
    ChartPoint("Mon", 4000),
    ChartPoint("Tue", 3000),
    ChartPoint("Wed", 5000),
    ChartPoint("Thu", 2780),
    ChartPoint("Fri", 6890),
    ChartPoint("Sat", 8390),
    ChartPoint("Sun", 9490)
  ]

  /** The record shown when the request fails. */
  const MockMetrics := Metrics(Some("24,500"), Some("98.2%"), Some("85.4%"), Some("1.2%"))

  /** The four stat cards, in display order. */
  datatype Card = TotalSent | Delivered | ReadRate | Failed

  /** The metric a card reads. */
  function Metric(m: Metrics, card: Card): Option<string> {
    match card
    case TotalSent => m.totalSent
    case Delivered => m.deliveredRate
    case ReadRate => m.readRate
    case Failed => m.failedRate
  }

  function Fallback(card: Card): string {
    if card == TotalSent then "0" else "0%"
  }

  /** `metrics?.<field> || fallback`. */
  function StatValue(metrics: Option<Metrics>, card: Card): string {
    OrDefault(if metrics.Some? then Metric(metrics.value, card) else None, Fallback(card))
  }

  /** A card shows its metric when that is present and non-empty, and
      otherwise ("0" for Total Sent, "0%" for the rates) its fallback, so
      no card is ever blank; with no metrics at all every card falls back. */
  lemma StatValueFallsBack(metrics: Option<Metrics>, card: Card)
    ensures metrics.Some? && Metric(metrics.value, card).Some? && Metric(metrics.value, card).value != "" ==>
      StatValue(metrics, card) == Metric(metrics.value, card).value
    ensures metrics.None? || Metric(metrics.value, card).None? || Metric(metrics.value, card).value == "" ==>
      StatValue(metrics, card) == Fallback(card)
    ensures StatValue(metrics, card) != ""
    ensures StatValue(None, card) == (if card == TotalSent then "0" else "0%")
  {
    OrDefaultCases(if metrics.Some? then Metric(metrics.value, card) else None, Fallback(card));
  }

  /** After a failed request the cards show the mock figures. */
  lemma MockStatValues()
    ensures StatValue(Some(MockMetrics), TotalSent) == "24,500"
    ensures StatValue(Some(MockMetrics), Delivered) == "98.2%"
    ensures StatValue(Some(MockMetrics), ReadRate) == "85.4%"
    ensures StatValue(Some(MockMetrics), Failed) == "1.2%"
  {
  }

  class DashboardPage {
    var metrics: Option<Metrics>
    var chartData: seq<ChartPoint>
    /** The mount effect's request is outstanding exactly while set. */
    var loading: bool

    constructor ()
      ensures metrics == None && chartData == InitialChart && loading
    {
      metrics := None;
      chartData := InitialChart;
      loading := true;
    }

    /** `fetchData`'s answer. Success takes the response's metrics, and its
        chart whenever one is present, even an empty one; failure takes the
        mock metrics and keeps the chart. `loading` ends false. */
    method FetchResponse(outcome: Result<DashboardResponse, string>)
      requires loading
      modifies this
      ensures !loading
      ensures outcome.Ok? ==> metrics == outcome.value.metrics
      ensures outcome.Ok? && outcome.value.chartData.Some? ==> chartData == outcome.value.chartData.value
      ensures outcome.Ok? && outcome.value.chartData.None? ==> chartData == old(chartData)
      ensures outcome.Err? ==> metrics == Some(MockMetrics) && chartData == old(chartData)
    {
      match outcome {
        case Ok(data) =>
          metrics := data.metrics;
          if data.chartData.Some? {
            chartData := data.chartData.value;
          }
        case Err(_) =>
          metrics := Some(MockMetrics);
      }
      loading := false;
    }
  }
}
