/**
 * The plugin protocol's messages as plain records (the generated protobuf
 * code is not part of this model). A nullable protobuf wrapper such as
 * `*wrapperspb.StringValue` is an `Option`.
 */
module Proto {
  import opened Wrappers

  /** A job's progress report. */
  datatype JobResult = JobResult(id: string, description: string, failureMessage: string, done: bool)

  /** A row of a plugin's result summary table. */
  datatype SummaryRow = SummaryRow(cells: seq<string>)

  /** A plugin's result summary table. */
  datatype ResultSummaryTable = ResultSummaryTable(headers: seq<string>, message: seq<SummaryRow>)

  /**
   * A user preference a plugin declares: a value that may be unset, an
   * optional list of suggested values, and whether it is pinned to the
   * resource's current value. The optimize command's own preference record
   * has the same fields and is modelled by this type as well.
   */
  datatype PreferenceItem = PreferenceItem(
    service: string, key: string, alias: string, isNumber: bool, value: Option<string>,
    possibleValues: seq<string>, pinned: bool, preventPinning: bool, unit: string)

  /** One line of a device's comparison: current, average, maximum and recommended values. */
  datatype Property = Property(key: string, current: string, average: string, max: string, recommended: string, hidden: bool)

  /** A resource (or part of one) with its costs; costs are integer-valued in this model. */
  datatype Device = Device(deviceId: string, resourceType: string, runtime: string,
                           currentCost: int, rightSizedCost: int, properties: seq<Property>)

  /** An item of the optimization list, as plugins send it. */
  datatype OptimizationItem = OptimizationItem(
    id: string, name: string, resourceType: string, region: string, platform: string,
    devices: seq<Device>, preferences: seq<PreferenceItem>, description: string,
    loading: bool, skipped: bool, skipReason: string, lazyLoadingEnabled: bool)

  /** A column a plugin declares for its overview and device tables. */
  datatype ChartColumn = ChartColumn(id: string, name: string, width: nat, sortable: bool)

  /** The columns of a plugin's tables. */
  datatype ChartDefinition = ChartDefinition(columns: seq<ChartColumn>)

  /**
   * A cell of a chart row: its text and the number it sorts by. Sort values
   * are integers here; `Unsorted` stands for the largest float, which the
   * overview uses for a row without a value in the sort column.
   */
  datatype SortValue = Unsorted | By(v: int)
  datatype ChartRowItem = ChartRowItem(value: string, sortValue: SortValue)

  /** A row of a plugin's table, by column id. */
  datatype ChartRow = ChartRow(rowId: string, values: map<string, ChartRowItem>)

  /** An item of a plugin with its own table layout. */
  datatype ChartOptimizationItem = ChartOptimizationItem(
    overviewChartRow: ChartRow, devicesChartRows: seq<ChartRow>, devicesProperties: map<string, seq<Property>>,
    preferences: seq<PreferenceItem>, description: string, loading: bool, skipped: bool, lazyLoadingEnabled: bool)
}
