/**
 * The default records and the Terraform projections of internal/provider/utils.go:
 * what the provider is configured with and what a data source block carries.
 */
module Options {
  import opened Wrappers
  import opened Framework

  // Defaults: concrete values for every tunable setting; nil-able Go fields are Options.

  datatype FieldDefaults = FieldDefaults(
    unit: string,
    decimals: Option<int>,
    min: Option<Float64>,
    max: Option<Float64>,
    noValue: Option<Float64>,
    color: ColorDefaults,
    thresholds: ThresholdDefaults)

  datatype ColorDefaults = ColorDefaults(mode: string, fixedColor: string, seriesBy: string)

  datatype ThresholdDefaults = ThresholdDefaults(mode: string, steps: seq<ThresholdStepDefaults>)

  datatype ThresholdStepDefaults = ThresholdStepDefaults(color: string, value: Option<Float64>)

  datatype ReduceOptionDefaults = ReduceOptionDefaults(
    values: bool, fields: string, limit: Option<int>, calculation: string)

  datatype TextSizeDefaults = TextSizeDefaults(title: Option<int>, value: Option<int>)

  datatype AxisDefaults = AxisDefaults(
    axisLabel: string, placement: string, softMin: Option<int>, softMax: Option<int>,
    scale: ScaleDefaults)

  datatype ScaleDefaults = ScaleDefaults(scaleType: string, log: int)

  /** The provider's built-in field defaults: classic palette, absolute
      thresholds with one green step that has no value. */
  function NewFieldDefaults(): FieldDefaults {
    FieldDefaults(
      unit := "", decimals := None, min := None, max := None, noValue := None,
      color := ColorDefaults(mode := "palette-classic", fixedColor := "green", seriesBy := "last"),
      thresholds := ThresholdDefaults(mode := "absolute",
                                      steps := [ThresholdStepDefaults(color := "green", value := None)]))
  }

  // Terraform projections: every attribute may be null; nested blocks are lists.

  datatype AxisOptions = AxisOptions(
    axisLabel: TfValue<string>, placement: TfValue<string>,
    softMin: TfValue<int>, softMax: TfValue<int>, scale: seq<ScaleOptions>)

  datatype ScaleOptions = ScaleOptions(scaleType: TfValue<string>, log: TfValue<int>)

  datatype MappingOptions = MappingOptions(
    values: seq<ValueMappingOptions>, ranges: seq<RangeMappingOptions>,
    regexes: seq<RegexMappingOptions>, specials: seq<SpecialMappingOptions>)

  datatype ValueMappingOptions = ValueMappingOptions(
    value: TfValue<string>, displayText: TfValue<string>, color: TfValue<string>)

  datatype RangeMappingOptions = RangeMappingOptions(
    rangeFrom: TfValue<BigFloat>, rangeTo: TfValue<BigFloat>,
    displayText: TfValue<string>, color: TfValue<string>)

  datatype RegexMappingOptions = RegexMappingOptions(
    pattern: TfValue<string>, displayText: TfValue<string>, color: TfValue<string>)

  datatype SpecialMappingOptions = SpecialMappingOptions(
    matchValue: TfValue<string>, displayText: TfValue<string>, color: TfValue<string>)

  datatype FieldOptions = FieldOptions(
    unit: TfValue<string>,
    decimals: TfValue<int>,
    min: TfValue<Float64>,
    max: TfValue<Float64>,
    noValue: TfValue<Float64>,
    color: seq<ColorOptions>,
    mappings: seq<MappingOptions>,
    thresholds: seq<ThresholdOptions>)

  datatype ColorOptions = ColorOptions(
    mode: TfValue<string>, fixedColor: TfValue<string>, seriesBy: TfValue<string>)

  datatype ThresholdOptions = ThresholdOptions(mode: TfValue<string>, steps: seq<ThresholdStep>)

  datatype ThresholdStep = ThresholdStep(color: TfValue<string>, value: TfValue<Float64>)

  datatype ReduceOptions = ReduceOptions(
    values: TfValue<bool>, fields: TfValue<string>, limit: TfValue<int>,
    calculation: TfValue<string>)

  datatype TextSizeOptions = TextSizeOptions(title: TfValue<int>, value: TfValue<int>)

  /** One `targets` block: its Prometheus targets, then its CloudWatch targets. */
  datatype Target = Target(prometheus: seq<PrometheusTarget>, cloudWatch: seq<CloudWatchTarget>)

  datatype PrometheusTarget = PrometheusTarget(
    uid: TfValue<string>, expr: TfValue<string>, instant: TfValue<bool>,
    format: TfValue<string>, refId: TfValue<string>, minInterval: TfValue<string>,
    legendFormat: TfValue<string>)

  datatype CloudWatchTarget = CloudWatchTarget(
    uid: TfValue<string>, namespace: TfValue<string>, metricName: TfValue<string>,
    statistic: TfValue<string>, dimensions: seq<CloudWatchDimension>,
    matchExact: TfValue<bool>, region: TfValue<string>, refId: TfValue<string>,
    period: TfValue<string>, legendFormat: TfValue<string>)

  datatype CloudWatchDimension = CloudWatchDimension(name: TfValue<string>, value: TfValue<string>)
}
