/**
 * The chart widget (frontend/src/components/DashboardWidget.tsx): its effect resolves
 * `widget.statisticId` against the statistics store, and what it shows follows from its
 * three state variables in a fixed order (spinner, error, nothing, chart). Rendering
 * itself is not modelled; the chart's data and its kind are.
 */
module DashboardWidget {
  import opened Wrappers
  import Collections
  import StatisticsSlice

  type Statistic = StatisticsSlice.Statistic

  datatype WidgetProps = WidgetProps(widgetType: string, title: string, statisticId: string)

  const NotFound := "Estadística no encontrada"

  datatype ChartKind = LineChart | BarChart

  /** The data handed to the chart: one dataset named after the statistic. */
  datatype ChartData = ChartData(labels: seq<string>, datasetLabel: string, values: seq<real>)

  /** What the component returns. */
  datatype View = Spinner | Alert(message: string) | Nothing | Chart(kind: ChartKind, data: ChartData)

  /** `statistic.data.map(d => d.label)`. */
  function Labels(points: seq<StatisticsSlice.DataPoint>): (r: seq<string>)
    ensures |r| == |points|
    ensures forall i | 0 <= i < |points| :: r[i] == points[i].caption
  {
    if |points| == 0 then [] else [points[0].caption] + Labels(points[1..])
  }

  /** `statistic.data.map(d => d.value)`. */
  function Values(points: seq<StatisticsSlice.DataPoint>): (r: seq<real>)
    ensures |r| == |points|
    ensures forall i | 0 <= i < |points| :: r[i] == points[i].value
  {
    if |points| == 0 then [] else [points[0].value] + Values(points[1..])
  }

  /** `chartData`: labels and values are point-wise projections of the statistic's data. */
  function ChartDataOf(s: Statistic): (d: ChartData)
    ensures |d.labels| == |s.data| == |d.values|
    ensures forall i | 0 <= i < |s.data| ::
      d.labels[i] == s.data[i].caption && d.values[i] == s.data[i].value
    ensures d.datasetLabel == s.name
  {
    ChartData(Labels(s.data), s.name, Values(s.data))
  }

  /** `type === 'line'` draws a line chart; every other type a bar chart. */
  function ChartKindOf(widgetType: string): (k: ChartKind)
    ensures k == LineChart <==> widgetType == "line"
  {
    if widgetType == "line" then LineChart else BarChart
  }

  class WidgetState {
    var statistic: Option<Statistic>
    var loading: bool
    var error: Option<string>

    /** The `useState` initial values. */
    constructor ()
      ensures statistic == None && loading && error == None
    {
      statistic := None;
      loading := true;
      error := None;
    }

    /**
     * The effect, run whenever the statistics or the id change: the first statistic with
     * the widget's id is shown; with none, the "not found" error is set. Neither branch
     * clears what the other one set.
     */
    method Resolve(statistics: seq<Statistic>, widget: WidgetProps)
      modifies this
      ensures !loading
      ensures Collections.Has(statistics, StatisticsSlice.StatisticId, widget.statisticId) ==>
        statistic == Some(statistics[Collections.FirstIndex(statistics, StatisticsSlice.StatisticId, widget.statisticId)])
        && error == old(error)
      ensures !Collections.Has(statistics, StatisticsSlice.StatisticId, widget.statisticId) ==>
        error == Some(NotFound) && statistic == old(statistic)
      ensures old(error).Some? ==> error.Some?
    {
      var index := Collections.FindIndex(statistics, StatisticsSlice.StatisticId, widget.statisticId);
      if index != -1 {
        statistic := Some(statistics[index]);
        loading := false;
      } else {
        error := Some(NotFound);
        loading := false;
      }
    }

    /** What the component renders from its state: loading first, then the error. */
    function Render(widget: WidgetProps): (v: View)
      reads this
      ensures loading <==> v == Spinner
      ensures !loading && error.Some? && error.value != "" ==> v == Alert(error.value)
      ensures v.Chart? ==>
        statistic.Some? && v.kind == ChartKindOf(widget.widgetType) && v.data == ChartDataOf(statistic.value)
      ensures !loading && !(error.Some? && error.value != "") ==>
        && (statistic.None? ==> v == Nothing)
        && (statistic.Some? ==> v == Chart(ChartKindOf(widget.widgetType), ChartDataOf(statistic.value)))
    {
      if loading then Spinner
      else if error.Some? && error.value != "" then Alert(error.value)
      else if statistic.None? then Nothing
      else Chart(ChartKindOf(widget.widgetType), ChartDataOf(statistic.value))
    }
  }

  /**
   * Once a widget has failed to find its statistic it keeps showing the error, even
   * after the statistic appears in the store.
   */
  method NotFoundIsSticky(w: WidgetState, before: seq<Statistic>, after: seq<Statistic>, widget: WidgetProps)
    requires !Collections.Has(before, StatisticsSlice.StatisticId, widget.statisticId)
    modifies w
    ensures w.Render(widget) == Alert(NotFound)
  {
    w.Resolve(before, widget);
    w.Resolve(after, widget);
  }
}
