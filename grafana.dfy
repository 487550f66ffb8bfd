/**
 * The panel document the provider emits (the grafana package's shapes, as far
 * as the provider fills them). Nil slices and maps are empty sequences and maps.
 */
module Grafana {
  import opened Wrappers
  import opened Framework

  datatype Datasource = Datasource(uid: string, dsType: string)

  /** One query of a panel; a Prometheus target leaves the CloudWatch fields
      at their zero values and the other way round. */
  datatype Target = Target(
    datasource: Datasource,
    refId: string,
    expr: string,
    interval: string,
    legendFormat: string,
    instant: bool,
    format: string,
    namespace: string,
    metricName: string,
    statistics: seq<string>,
    dimensions: map<string, string>,
    period: string,
    region: string,
    labelText: string)

  /** Color, text and position of a mapped value (ValueMappingResult). */
  datatype MappingResult = MappingResult(color: string, text: string, index: int)

  /** A field mapping, one variant per mapping type. */
  datatype FieldMapping =
    | ValueMapping(options: map<string, MappingResult>)
    | RangeMapping(rangeFrom: BigFloat, rangeTo: BigFloat, result: MappingResult)
    | RegexMapping(pattern: string, result: MappingResult)
    | SpecialMapping(matchValue: string, result: MappingResult)
  {
    /** The "type" tag the document carries. */
    function Type(): string {
      match this
      case ValueMapping(_) => "value"
      case RangeMapping(_, _, _) => "range"
      case RegexMapping(_, _) => "regex"
      case SpecialMapping(_, _) => "special"
    }
  }

  datatype ThresholdStep = ThresholdStep(color: string, value: Option<Float64>)

  datatype Thresholds = Thresholds(mode: string, steps: seq<ThresholdStep>)

  datatype FieldConfigColor = FieldConfigColor(mode: string, fixedColor: string, seriesBy: string)

  datatype LineStyle = LineStyle(fill: string)

  datatype Stacking = Stacking(mode: string)

  datatype ScaleDistribution = ScaleDistribution(scaleType: string, log: int)

  /** The timeseries-specific part of the field config: graph and axis settings. */
  datatype FieldConfigCustom = FieldConfigCustom(
    drawStyle: string,
    lineInterpolation: string,
    lineWidth: int,
    fillOpacity: int,
    gradientMode: string,
    lineStyle: LineStyle,
    spanNulls: bool,
    showPoints: string,
    pointSize: int,
    stacking: Stacking,
    axisLabel: string,
    axisPlacement: string,
    axisSoftMin: Option<int>,
    axisSoftMax: Option<int>,
    scaleDistribution: ScaleDistribution)

  /** The custom settings every field config starts with (Go zero values). */
  function ZeroCustom(): FieldConfigCustom {
    FieldConfigCustom("", "", 0, 0, "", LineStyle(""), false, "", 0, Stacking(""),
                      "", "", None, None, ScaleDistribution("", 0))
  }

  datatype FieldConfigDefaults = FieldConfigDefaults(
    unit: string,
    decimals: Option<int>,
    min: Option<Float64>,
    max: Option<Float64>,
    noValue: Option<Float64>,
    color: FieldConfigColor,
    thresholds: Thresholds,
    mappings: seq<FieldMapping>,
    custom: FieldConfigCustom)

  datatype FieldConfig = FieldConfig(defaults: FieldConfigDefaults)

  datatype TimeseriesLegendOptions = TimeseriesLegendOptions(
    calcs: seq<string>, displayMode: string, placement: string)

  datatype TimeseriesTooltipOptions = TimeseriesTooltipOptions(mode: string)

  datatype TimeseriesOptions = TimeseriesOptions(
    legend: TimeseriesLegendOptions, tooltip: TimeseriesTooltipOptions)

  datatype PanelType = TimeseriesType

  datatype CommonPanel = CommonPanel(
    ofType: PanelType, title: string, panelType: string, span: int, isNew: bool)

  datatype TimeseriesPanel = TimeseriesPanel(
    targets: seq<Target>, options: TimeseriesOptions, fieldConfig: FieldConfig)

  datatype Panel = Panel(common: CommonPanel, timeseries: TimeseriesPanel)

  /** Title and value font sizes of a panel, updated in place. */
  class TextSize {
    var titleSize: Option<int>
    var valueSize: Option<int>

    constructor (titleSize: Option<int>, valueSize: Option<int>)
      ensures this.titleSize == titleSize && this.valueSize == valueSize
    {
      this.titleSize := titleSize;
      this.valueSize := valueSize;
    }
  }

  /** How a panel reduces a series to one value, updated in place. */
  class ReduceOptions {
    var values: bool
    var fields: string
    var limit: Option<int>
    var calcs: seq<string>

    constructor (values: bool, fields: string, limit: Option<int>, calcs: seq<string>)
      ensures this.values == values && this.fields == fields
      ensures this.limit == limit && this.calcs == calcs
    {
      this.values := values;
      this.fields := fields;
      this.limit := limit;
      this.calcs := calcs;
    }
  }
}
