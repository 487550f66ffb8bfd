/**
 * The timeseries data source (internal/provider/timeseries_data_source.go):
 * its defaults, its Terraform model, and the merge and assembly that Read
 * performs before the panel is serialized.
 */
module Timeseries {
  import opened Wrappers
  import opened Framework
  import opened Overlay
  import O = Options
  import G = Grafana
  import Targets
  import FieldConfig
  import Identifier

  // ---------------------------------------------------------------- defaults

  datatype TimeseriesDefaults = TimeseriesDefaults(
    legend: LegendDefault,
    tooltip: TooltipDefaults,
    field: O.FieldDefaults,
    axis: O.AxisDefaults,
    graph: GraphDefault)

  datatype GraphDefault = GraphDefault(
    drawStyle: string,
    lineInterpolation: string,
    lineWidth: int,
    fillOpacity: int,
    gradientMode: string,
    lineStyle: string,
    spanNulls: bool,
    showPoints: string,
    pointSize: int,
    stackSeries: string)

  datatype TooltipDefaults = TooltipDefaults(mode: string)

  datatype LegendDefault = LegendDefault(calculations: seq<string>, displayMode: string, placement: string)

  /** The zero value of TimeseriesDefaults: what a data source holds before
      Configure, and what a failed provider-data assertion leaves behind. */
  function ZeroTimeseriesDefaults(): TimeseriesDefaults {
    TimeseriesDefaults(
      legend := LegendDefault([], "", ""),
      tooltip := TooltipDefaults(""),
      field := O.FieldDefaults("", None, None, None, None, O.ColorDefaults("", "", ""),
                               O.ThresholdDefaults("", [])),
      axis := O.AxisDefaults("", "", None, None, O.ScaleDefaults("", 0)),
      graph := GraphDefault("", "", 0, 0, "", "", false, "", 0, ""))
  }

  // ------------------------------------------------------------------ model

  /** The data source's Terraform configuration and state. */
  datatype DataSourceModel = DataSourceModel(
    id: TfValue<string>,
    json: TfValue<seq<bv8>>,
    title: TfValue<string>,
    targets: seq<O.Target>,
    legend: seq<LegendOptions>,
    tooltip: seq<TooltipOptions>,
    field: seq<O.FieldOptions>,
    axis: seq<O.AxisOptions>,
    graph: seq<GraphOptions>)

  datatype LegendOptions = LegendOptions(
    calculations: seq<TfValue<string>>, displayMode: TfValue<string>, placement: TfValue<string>)

  datatype TooltipOptions = TooltipOptions(mode: TfValue<string>)

  datatype GraphOptions = GraphOptions(
    drawStyle: TfValue<string>,
    lineInterpolation: TfValue<string>,
    lineWidth: TfValue<int>,
    fillOpacity: TfValue<int>,
    gradientMode: TfValue<string>,
    lineStyle: TfValue<string>,
    spanNulls: TfValue<bool>,
    showPoints: TfValue<string>,
    pointSize: TfValue<int>,
    stackSeries: TfValue<string>)

  /** The provider-wide defaults, as far as this data source uses them. */
  datatype ProviderDefaults = ProviderDefaults(timeseries: TimeseriesDefaults)

  /** What the provider hands to Configure: nothing (not yet configured), its
      defaults, or a value of some other type. */
  datatype ProviderData = NoProviderData | DefaultsData(defaults: ProviderDefaults) | OtherData(typeName: string)

  datatype Diagnostic = Diagnostic(summary: string, detail: string)

  datatype ReadResult = ReadFailed(diagnostic: Diagnostic) | ReadOk(state: DataSourceModel)

  // ------------------------------------------------------------------ legend

  function CalculationValue(c: TfValue<string>): string { c.value }

  /** A legend block replaces the calculations only when it lists some. */
  function CalculationsOverride(l: LegendOptions): Option<seq<string>> {
    if |l.calculations| > 0 then Some(Map(l.calculations, CalculationValue)) else None
  }

  function DisplayModeOverride(l: LegendOptions): Option<string> { l.displayMode.Known() }

  function PlacementOverride(l: LegendOptions): Option<string> { l.placement.Known() }

  /** The legend options: the defaults overlaid by the legend blocks. */
  function LegendOf(d: LegendDefault, legends: seq<LegendOptions>): G.TimeseriesLegendOptions {
    G.TimeseriesLegendOptions(
      calcs := LastSome(d.calculations, Map(legends, CalculationsOverride)),
      displayMode := LastSome(d.displayMode, Map(legends, DisplayModeOverride)),
      placement := LastSome(d.placement, Map(legends, PlacementOverride)))
  }

  /** Copies a legend block's calculations, in order, into a fresh array. */
  method CopyCalculations(calcs: seq<TfValue<string>>) returns (r: seq<string>)
    ensures |r| == |calcs|
    ensures forall i :: 0 <= i < |calcs| ==> r[i] == calcs[i].value
  {
    var calculations := new string[|calcs|];
    for i := 0 to |calcs|
      invariant forall k :: 0 <= k < i ==> calculations[k] == calcs[k].value
    {
      calculations[i] := calcs[i].value;
    }
    r := calculations[..];
  }

  /** Merges the legend defaults with the legend blocks. */
  method MergeLegend(d: LegendDefault, legends: seq<LegendOptions>) returns (r: G.TimeseriesLegendOptions)
    ensures r == LegendOf(d, legends)
  {
    r := G.TimeseriesLegendOptions(calcs := d.calculations, displayMode := d.displayMode, placement := d.placement);
    for i := 0 to |legends|
      invariant r == LegendOf(d, legends[..i])
    {
      var legend := legends[i];
      LastSomeStep(d.calculations, legends, i, CalculationsOverride);
      LastSomeStep(d.displayMode, legends, i, DisplayModeOverride);
      LastSomeStep(d.placement, legends, i, PlacementOverride);
      if |legend.calculations| > 0 {
        var calculations := CopyCalculations(legend.calculations);
        MapAt(legend.calculations, CalculationValue);
        assert calculations == Map(legend.calculations, CalculationValue);
        r := r.(calcs := calculations);
      }
      if !legend.displayMode.isNull {
        r := r.(displayMode := legend.displayMode.value);
      }
      if !legend.placement.isNull {
        r := r.(placement := legend.placement.value);
      }
    }
    assert legends[..|legends|] == legends;
  }

  /** Legend calculations are replaced, in order, only by a block that lists
      some: with one legend block they are its calculations when it has any and
      the defaults otherwise; present display mode and placement override. */
  lemma LegendOneBlock(d: LegendDefault, l: LegendOptions)
    ensures var r := LegendOf(d, [l]);
            && |r.calcs| == (if |l.calculations| > 0 then |l.calculations| else |d.calculations|)
            && (|l.calculations| > 0 ==> forall i :: 0 <= i < |l.calculations| ==> r.calcs[i] == l.calculations[i].value)
            && (|l.calculations| == 0 ==> r.calcs == d.calculations)
            && r.displayMode == (if l.displayMode.isNull then d.displayMode else l.displayMode.value)
            && r.placement == (if l.placement.isNull then d.placement else l.placement.value)
  {
    LastSomeAtMostOne(d.calculations, [l], CalculationsOverride);
    LastSomeAtMostOne(d.displayMode, [l], DisplayModeOverride);
    LastSomeAtMostOne(d.placement, [l], PlacementOverride);
    MapAt(l.calculations, CalculationValue);
  }

  // ----------------------------------------------------------------- tooltip

  /** Merges the tooltip default with the tooltip blocks: every block writes
      its mode, present or not, so the last block decides. */
  method MergeTooltip(d: TooltipDefaults, tooltips: seq<TooltipOptions>) returns (r: G.TimeseriesTooltipOptions)
    ensures r.mode == if |tooltips| == 0 then d.mode else tooltips[|tooltips| - 1].mode.value
  {
    r := G.TimeseriesTooltipOptions(mode := d.mode);
    for i := 0 to |tooltips|
      invariant r.mode == if i == 0 then d.mode else tooltips[i - 1].mode.value
    {
      var tooltip := tooltips[i];
      r := r.(mode := tooltip.mode.value);
    }
  }

  // ------------------------------------------------------------ axis, scale

  function AxisLabelOverride(a: O.AxisOptions): Option<string> { a.axisLabel.Known() }

  function AxisPlacementOverride(a: O.AxisOptions): Option<string> { a.placement.Known() }

  function SoftMinOverride(a: O.AxisOptions): Option<Option<int>> {
    if a.softMin.isNull then None else Some(Some(a.softMin.value))
  }

  function SoftMaxOverride(a: O.AxisOptions): Option<Option<int>> {
    if a.softMax.isNull then None else Some(Some(a.softMax.value))
  }

  function ScalesOf(a: O.AxisOptions): seq<O.ScaleOptions> { a.scale }

  function ScaleTypeOverride(s: O.ScaleOptions): Option<string> { s.scaleType.Known() }

  function ScaleLogOverride(s: O.ScaleOptions): Option<int> { s.log.Known() }

  /** Scale distribution `s` overlaid by the scale blocks, in order. */
  function ScaleOverlay(s: G.ScaleDistribution, scales: seq<O.ScaleOptions>): G.ScaleDistribution {
    G.ScaleDistribution(scaleType := LastSome(s.scaleType, Map(scales, ScaleTypeOverride)),
                        log := LastSome(s.log, Map(scales, ScaleLogOverride)))
  }

  /** Custom settings `c` overlaid by the axis blocks (and their scale blocks):
      only the axis and scale settings change. */
  function WithAxes(c: G.FieldConfigCustom, axes: seq<O.AxisOptions>): G.FieldConfigCustom {
    c.(axisLabel := LastSome(c.axisLabel, Map(axes, AxisLabelOverride)),
       axisPlacement := LastSome(c.axisPlacement, Map(axes, AxisPlacementOverride)),
       axisSoftMin := LastSome(c.axisSoftMin, Map(axes, SoftMinOverride)),
       axisSoftMax := LastSome(c.axisSoftMax, Map(axes, SoftMaxOverride)),
       scaleDistribution := ScaleOverlay(c.scaleDistribution, Flatten(axes, ScalesOf)))
  }

  /** Overlays the scale blocks of one axis block. */
  method MergeScale(s: G.ScaleDistribution, scales: seq<O.ScaleOptions>) returns (r: G.ScaleDistribution)
    ensures r == ScaleOverlay(s, scales)
  {
    r := s;
    for i := 0 to |scales|
      invariant r == ScaleOverlay(s, scales[..i])
    {
      var scale := scales[i];
      LastSomeStep(s.scaleType, scales, i, ScaleTypeOverride);
      LastSomeStep(s.log, scales, i, ScaleLogOverride);
      if !scale.scaleType.isNull {
        r := r.(scaleType := scale.scaleType.value);
      }
      if !scale.log.isNull {
        r := r.(log := scale.log.value);
      }
    }
    assert scales[..|scales|] == scales;
  }

  /** Overlaying twice is overlaying with the concatenated blocks. */
  lemma ScaleOverlayAppend(s: G.ScaleDistribution, a: seq<O.ScaleOptions>, b: seq<O.ScaleOptions>)
    ensures ScaleOverlay(ScaleOverlay(s, a), b) == ScaleOverlay(s, a + b)
  {
    MapAppend(a, b, ScaleTypeOverride);
    MapAppend(a, b, ScaleLogOverride);
    LastSomeAppend(s.scaleType, Map(a, ScaleTypeOverride), Map(b, ScaleTypeOverride));
    LastSomeAppend(s.log, Map(a, ScaleLogOverride), Map(b, ScaleLogOverride));
  }

  /** Overlays the axis blocks on the custom settings. */
  method MergeAxes(c: G.FieldConfigCustom, axes: seq<O.AxisOptions>) returns (r: G.FieldConfigCustom)
    ensures r == WithAxes(c, axes)
  {
    r := c;
    for i := 0 to |axes|
      invariant r == WithAxes(c, axes[..i])
    {
      var axis := axes[i];
      LastSomeStep(c.axisLabel, axes, i, AxisLabelOverride);
      LastSomeStep(c.axisPlacement, axes, i, AxisPlacementOverride);
      LastSomeStep(c.axisSoftMin, axes, i, SoftMinOverride);
      LastSomeStep(c.axisSoftMax, axes, i, SoftMaxOverride);
      FlattenStep(axes, i, ScalesOf);
      ScaleOverlayAppend(c.scaleDistribution, Flatten(axes[..i], ScalesOf), axis.scale);
      if !axis.axisLabel.isNull {
        r := r.(axisLabel := axis.axisLabel.value);
      }
      if !axis.placement.isNull {
        r := r.(axisPlacement := axis.placement.value);
      }
      if !axis.softMin.isNull {
        var min := axis.softMin.value;
        r := r.(axisSoftMin := Some(min));
      }
      if !axis.softMax.isNull {
        var max := axis.softMax.value;
        r := r.(axisSoftMax := Some(max));
      }
      var scale := MergeScale(r.scaleDistribution, axis.scale);
      r := r.(scaleDistribution := scale);
    }
    assert axes[..|axes|] == axes;
  }

  /** With at most one scale block, a present scale type or log overrides its
      setting and an absent one leaves it. */
  lemma ScaleAtMostOne(s: G.ScaleDistribution, scales: seq<O.ScaleOptions>)
    requires |scales| <= 1
    ensures var r := ScaleOverlay(s, scales);
            var has := |scales| == 1;
            && r.scaleType == (if has && !scales[0].scaleType.isNull then scales[0].scaleType.value else s.scaleType)
            && r.log == (if has && !scales[0].log.isNull then scales[0].log.value else s.log)
  {
    LastSomeAtMostOne(s.scaleType, scales, ScaleTypeOverride);
    LastSomeAtMostOne(s.log, scales, ScaleLogOverride);
  }

  /** One axis block with at most one scale block (the schema's limit): each
      present option, nested scale type and log included, overrides its
      setting and each absent one leaves it; no graph setting changes. */
  lemma AxisOneBlock(c: G.FieldConfigCustom, a: O.AxisOptions)
    requires |a.scale| <= 1
    ensures var r := WithAxes(c, [a]);
            var hasScale := |a.scale| == 1;
            && r.axisLabel == (if a.axisLabel.isNull then c.axisLabel else a.axisLabel.value)
            && r.axisPlacement == (if a.placement.isNull then c.axisPlacement else a.placement.value)
            && r.axisSoftMin == (if a.softMin.isNull then c.axisSoftMin else Some(a.softMin.value))
            && r.axisSoftMax == (if a.softMax.isNull then c.axisSoftMax else Some(a.softMax.value))
            && r.scaleDistribution.scaleType
               == (if hasScale && !a.scale[0].scaleType.isNull then a.scale[0].scaleType.value
                   else c.scaleDistribution.scaleType)
            && r.scaleDistribution.log
               == (if hasScale && !a.scale[0].log.isNull then a.scale[0].log.value
                   else c.scaleDistribution.log)
            && GraphPart(r) == GraphPart(c)
  {
    FlattenStep([a], 0, ScalesOf);
    assert [a][..1] == [a] && [a][..0] == [];
    ScaleAtMostOne(c.scaleDistribution, a.scale);
    LastSomeAtMostOne(c.axisLabel, [a], AxisLabelOverride);
    LastSomeAtMostOne(c.axisPlacement, [a], AxisPlacementOverride);
    LastSomeAtMostOne(c.axisSoftMin, [a], SoftMinOverride);
    LastSomeAtMostOne(c.axisSoftMax, [a], SoftMaxOverride);
  }

  // ------------------------------------------------------------------- graph

  function DrawStyleOverride(g: GraphOptions): Option<string> { g.drawStyle.Known() }
  function LineInterpolationOverride(g: GraphOptions): Option<string> { g.lineInterpolation.Known() }
  function LineWidthOverride(g: GraphOptions): Option<int> { g.lineWidth.Known() }
  function FillOpacityOverride(g: GraphOptions): Option<int> { g.fillOpacity.Known() }
  function GradientModeOverride(g: GraphOptions): Option<string> { g.gradientMode.Known() }
  function LineStyleOverride(g: GraphOptions): Option<string> { g.lineStyle.Known() }
  function SpanNullsOverride(g: GraphOptions): Option<bool> { g.spanNulls.Known() }
  function ShowPointsOverride(g: GraphOptions): Option<string> { g.showPoints.Known() }
  function PointSizeOverride(g: GraphOptions): Option<int> { g.pointSize.Known() }
  function StackSeriesOverride(g: GraphOptions): Option<string> { g.stackSeries.Known() }

  /** Custom settings `c` overlaid by the graph blocks: only the ten graph settings change. */
  function WithGraphs(c: G.FieldConfigCustom, graphs: seq<GraphOptions>): G.FieldConfigCustom {
    c.(drawStyle := LastSome(c.drawStyle, Map(graphs, DrawStyleOverride)),
       lineInterpolation := LastSome(c.lineInterpolation, Map(graphs, LineInterpolationOverride)),
       lineWidth := LastSome(c.lineWidth, Map(graphs, LineWidthOverride)),
       fillOpacity := LastSome(c.fillOpacity, Map(graphs, FillOpacityOverride)),
       gradientMode := LastSome(c.gradientMode, Map(graphs, GradientModeOverride)),
       lineStyle := G.LineStyle(LastSome(c.lineStyle.fill, Map(graphs, LineStyleOverride))),
       spanNulls := LastSome(c.spanNulls, Map(graphs, SpanNullsOverride)),
       showPoints := LastSome(c.showPoints, Map(graphs, ShowPointsOverride)),
       pointSize := LastSome(c.pointSize, Map(graphs, PointSizeOverride)),
       stacking := G.Stacking(LastSome(c.stacking.mode, Map(graphs, StackSeriesOverride))))
  }

  /** The graph settings of a custom config. */
  function GraphPart(c: G.FieldConfigCustom): (string, string, int, int, string, G.LineStyle, bool, string, int, G.Stacking) {
    (c.drawStyle, c.lineInterpolation, c.lineWidth, c.fillOpacity, c.gradientMode,
     c.lineStyle, c.spanNulls, c.showPoints, c.pointSize, c.stacking)
  }

  /** The axis and scale settings of a custom config. */
  function AxisPart(c: G.FieldConfigCustom): (string, string, Option<int>, Option<int>, G.ScaleDistribution) {
    (c.axisLabel, c.axisPlacement, c.axisSoftMin, c.axisSoftMax, c.scaleDistribution)
  }

  /** One graph block applied to the custom settings: each present option
      replaces its setting. */
  function GraphStep(c: G.FieldConfigCustom, g: GraphOptions): G.FieldConfigCustom {
    c.(drawStyle := OrElse(g.drawStyle, c.drawStyle),
       lineInterpolation := OrElse(g.lineInterpolation, c.lineInterpolation),
       lineWidth := OrElse(g.lineWidth, c.lineWidth),
       fillOpacity := OrElse(g.fillOpacity, c.fillOpacity),
       gradientMode := OrElse(g.gradientMode, c.gradientMode),
       lineStyle := G.LineStyle(OrElse(g.lineStyle, c.lineStyle.fill)),
       spanNulls := OrElse(g.spanNulls, c.spanNulls),
       showPoints := OrElse(g.showPoints, c.showPoints),
       pointSize := OrElse(g.pointSize, c.pointSize),
       stacking := G.Stacking(OrElse(g.stackSeries, c.stacking.mode)))
  }

  /** The value of `v` when it is not null, `otherwise` when it is. */
  function OrElse<T>(v: TfValue<T>, otherwise: T): T {
    if v.isNull then otherwise else v.value
  }

  /** Overlaying one more graph block is one more graph step. */
  lemma WithGraphsStep(c: G.FieldConfigCustom, graphs: seq<GraphOptions>, i: nat)
    requires i < |graphs|
    ensures WithGraphs(c, graphs[..i + 1]) == GraphStep(WithGraphs(c, graphs[..i]), graphs[i])
  {
    LastSomeStep(c.drawStyle, graphs, i, DrawStyleOverride);
    LastSomeStep(c.lineInterpolation, graphs, i, LineInterpolationOverride);
    LastSomeStep(c.lineWidth, graphs, i, LineWidthOverride);
    LastSomeStep(c.fillOpacity, graphs, i, FillOpacityOverride);
    LastSomeStep(c.gradientMode, graphs, i, GradientModeOverride);
    LastSomeStep(c.lineStyle.fill, graphs, i, LineStyleOverride);
    LastSomeStep(c.spanNulls, graphs, i, SpanNullsOverride);
    LastSomeStep(c.showPoints, graphs, i, ShowPointsOverride);
    LastSomeStep(c.pointSize, graphs, i, PointSizeOverride);
    LastSomeStep(c.stacking.mode, graphs, i, StackSeriesOverride);
  }

  /** Applies a graph block's line settings. */
  method ApplyLineSettings(c: G.FieldConfigCustom, graph: GraphOptions) returns (r: G.FieldConfigCustom)
    ensures r == c.(drawStyle := OrElse(graph.drawStyle, c.drawStyle),
                    lineInterpolation := OrElse(graph.lineInterpolation, c.lineInterpolation),
                    lineWidth := OrElse(graph.lineWidth, c.lineWidth),
                    fillOpacity := OrElse(graph.fillOpacity, c.fillOpacity),
                    gradientMode := OrElse(graph.gradientMode, c.gradientMode))
  {
    r := c;
    if !graph.drawStyle.isNull {
      r := r.(drawStyle := graph.drawStyle.value);
    }
    if !graph.lineInterpolation.isNull {
      r := r.(lineInterpolation := graph.lineInterpolation.value);
    }
    if !graph.lineWidth.isNull {
      r := r.(lineWidth := graph.lineWidth.value);
    }
    if !graph.fillOpacity.isNull {
      r := r.(fillOpacity := graph.fillOpacity.value);
    }
    if !graph.gradientMode.isNull {
      r := r.(gradientMode := graph.gradientMode.value);
    }
  }

  /** Applies a graph block's style, null, point and stacking settings. */
  method ApplyPointSettings(c: G.FieldConfigCustom, graph: GraphOptions) returns (r: G.FieldConfigCustom)
    ensures r == c.(lineStyle := G.LineStyle(OrElse(graph.lineStyle, c.lineStyle.fill)),
                    spanNulls := OrElse(graph.spanNulls, c.spanNulls),
                    showPoints := OrElse(graph.showPoints, c.showPoints),
                    pointSize := OrElse(graph.pointSize, c.pointSize),
                    stacking := G.Stacking(OrElse(graph.stackSeries, c.stacking.mode)))
  {
    r := c;
    if !graph.lineStyle.isNull {
      r := r.(lineStyle := r.lineStyle.(fill := graph.lineStyle.value));
    }
    if !graph.spanNulls.isNull {
      r := r.(spanNulls := graph.spanNulls.value);
    }
    if !graph.showPoints.isNull {
      r := r.(showPoints := graph.showPoints.value);
    }
    if !graph.pointSize.isNull {
      r := r.(pointSize := graph.pointSize.value);
    }
    if !graph.stackSeries.isNull {
      r := r.(stacking := r.stacking.(mode := graph.stackSeries.value));
    }
  }

  /** Overlays the graph blocks on the custom settings. */
  method MergeGraphs(c: G.FieldConfigCustom, graphs: seq<GraphOptions>) returns (r: G.FieldConfigCustom)
    ensures r == WithGraphs(c, graphs)
  {
    r := c;
    for i := 0 to |graphs|
      invariant r == WithGraphs(c, graphs[..i])
    {
      WithGraphsStep(c, graphs, i);
      r := ApplyLineSettings(r, graphs[i]);
      r := ApplyPointSettings(r, graphs[i]);
    }
    assert graphs[..|graphs|] == graphs;
  }

  /** One graph block: each of the ten options overrides its setting iff
      present; no axis or scale setting changes. */
  lemma GraphOneBlock(c: G.FieldConfigCustom, g: GraphOptions)
    ensures var r := WithGraphs(c, [g]);
            && r.drawStyle == (if g.drawStyle.isNull then c.drawStyle else g.drawStyle.value)
            && r.lineInterpolation == (if g.lineInterpolation.isNull then c.lineInterpolation else g.lineInterpolation.value)
            && r.lineWidth == (if g.lineWidth.isNull then c.lineWidth else g.lineWidth.value)
            && r.fillOpacity == (if g.fillOpacity.isNull then c.fillOpacity else g.fillOpacity.value)
            && r.gradientMode == (if g.gradientMode.isNull then c.gradientMode else g.gradientMode.value)
            && r.lineStyle.fill == (if g.lineStyle.isNull then c.lineStyle.fill else g.lineStyle.value)
            && r.spanNulls == (if g.spanNulls.isNull then c.spanNulls else g.spanNulls.value)
            && r.showPoints == (if g.showPoints.isNull then c.showPoints else g.showPoints.value)
            && r.pointSize == (if g.pointSize.isNull then c.pointSize else g.pointSize.value)
            && r.stacking.mode == (if g.stackSeries.isNull then c.stacking.mode else g.stackSeries.value)
            && AxisPart(r) == AxisPart(c)
  {
    LastSomeAtMostOne(c.drawStyle, [g], DrawStyleOverride);
    LastSomeAtMostOne(c.lineInterpolation, [g], LineInterpolationOverride);
    LastSomeAtMostOne(c.lineWidth, [g], LineWidthOverride);
    LastSomeAtMostOne(c.fillOpacity, [g], FillOpacityOverride);
    LastSomeAtMostOne(c.gradientMode, [g], GradientModeOverride);
    LastSomeAtMostOne(c.lineStyle.fill, [g], LineStyleOverride);
    LastSomeAtMostOne(c.spanNulls, [g], SpanNullsOverride);
    LastSomeAtMostOne(c.showPoints, [g], ShowPointsOverride);
    LastSomeAtMostOne(c.pointSize, [g], PointSizeOverride);
    LastSomeAtMostOne(c.stacking.mode, [g], StackSeriesOverride);
  }

  /** Axis blocks and graph blocks write disjoint settings, so overlaying them
      in either order gives the same custom config. */
  lemma AxesAndGraphsCommute(c: G.FieldConfigCustom, axes: seq<O.AxisOptions>, graphs: seq<GraphOptions>)
    ensures GraphPart(WithAxes(c, axes)) == GraphPart(c)
    ensures AxisPart(WithGraphs(c, graphs)) == AxisPart(c)
    ensures WithGraphs(WithAxes(c, axes), graphs) == WithAxes(WithGraphs(c, graphs), axes)
  {
  }

  // ----------------------------------------------------------------- custom

  /** The custom settings Read seeds from the defaults, before any block. */
  function SeedCustom(d: TimeseriesDefaults): G.FieldConfigCustom {
    G.FieldConfigCustom(
      drawStyle := d.graph.drawStyle, lineInterpolation := d.graph.lineInterpolation,
      lineWidth := d.graph.lineWidth, fillOpacity := d.graph.fillOpacity,
      gradientMode := d.graph.gradientMode, lineStyle := G.LineStyle(d.graph.lineStyle),
      spanNulls := d.graph.spanNulls, showPoints := d.graph.showPoints, pointSize := d.graph.pointSize,
      stacking := G.Stacking(d.graph.stackSeries),
      axisLabel := d.axis.axisLabel, axisPlacement := d.axis.placement,
      axisSoftMin := d.axis.softMin, axisSoftMax := d.axis.softMax,
      scaleDistribution := G.ScaleDistribution(d.axis.scale.scaleType, d.axis.scale.log))
  }

  /** The custom config of the panel: seeded from the defaults, overlaid by
      the axis blocks, then by the graph blocks. */
  function CustomOf(d: TimeseriesDefaults, data: DataSourceModel): G.FieldConfigCustom {
    WithGraphs(WithAxes(SeedCustom(d), data.axis), data.graph)
  }

  /** With no axis or graph block the custom config is the defaults: graph
      defaults in the draw settings, line style in the line-style fill, stack
      series in the stacking mode, axis label, placement, soft bounds and
      scale in the axis settings. */
  lemma CustomWithoutBlocks(d: TimeseriesDefaults, data: DataSourceModel)
    requires data.axis == [] && data.graph == []
    ensures var c := CustomOf(d, data);
            && c.drawStyle == d.graph.drawStyle && c.lineInterpolation == d.graph.lineInterpolation
            && c.lineWidth == d.graph.lineWidth && c.fillOpacity == d.graph.fillOpacity
            && c.gradientMode == d.graph.gradientMode && c.lineStyle.fill == d.graph.lineStyle
            && c.spanNulls == d.graph.spanNulls && c.showPoints == d.graph.showPoints
            && c.pointSize == d.graph.pointSize && c.stacking.mode == d.graph.stackSeries
            && c.axisLabel == d.axis.axisLabel && c.axisPlacement == d.axis.placement
            && c.axisSoftMin == d.axis.softMin && c.axisSoftMax == d.axis.softMax
            && c.scaleDistribution.scaleType == d.axis.scale.scaleType
            && c.scaleDistribution.log == d.axis.scale.log
  {
  }

  // ------------------------------------------------------------------- panel

  /** The panel Read assembles from the defaults and the configuration. */
  function PanelOf(d: TimeseriesDefaults, data: DataSourceModel): G.Panel {
    G.Panel(
      common := G.CommonPanel(ofType := G.TimeseriesType, title := data.title.value,
                              panelType := "timeseries", span := 12, isNew := true),
      timeseries := G.TimeseriesPanel(
        targets := Targets.TargetsOf(data.targets),
        options := G.TimeseriesOptions(
          legend := LegendOf(d.legend, data.legend),
          tooltip := G.TimeseriesTooltipOptions(
            if |data.tooltip| == 0 then d.tooltip.mode else data.tooltip[|data.tooltip| - 1].mode.value)),
        fieldConfig := G.FieldConfig(
          FieldConfig.FieldConfigOf(d.field, data.field).(custom := CustomOf(d, data)))))
  }

  /** The timeseries data source: the defaults it was configured with. */
  class TimeseriesDataSource {
    var defaults: TimeseriesDefaults

    /** A data source not yet configured. */
    constructor ()
      ensures defaults == ZeroTimeseriesDefaults()
    {
      defaults := ZeroTimeseriesDefaults();
    }

    /** Stores the provider's timeseries defaults; without provider data it
        changes nothing, and with data of another type it reports an error
        and stores the zero defaults. */
    method Configure(providerData: ProviderData) returns (diagnostics: seq<Diagnostic>)
      modifies this
      ensures providerData.NoProviderData? ==> defaults == old(defaults) && diagnostics == []
      ensures providerData.DefaultsData? ==>
                defaults == providerData.defaults.timeseries && diagnostics == []
      ensures providerData.OtherData? ==>
                defaults == ZeroTimeseriesDefaults()
                && diagnostics == [Diagnostic("Unexpected Data Source Configure Type",
                                              "Expected Defaults, got: " + providerData.typeName
                                              + ". Please report this issue to the provider developers.")]
    {
      diagnostics := [];
      if providerData.NoProviderData? {
        return;
      }
      var providerDefaults := ProviderDefaults(ZeroTimeseriesDefaults());
      if providerData.DefaultsData? {
        providerDefaults := providerData.defaults;
      } else {
        diagnostics := diagnostics + [Diagnostic("Unexpected Data Source Configure Type",
                                                 "Expected Defaults, got: " + providerData.typeName
                                                 + ". Please report this issue to the provider developers.")];
      }
      defaults := providerDefaults.timeseries;
    }

    /** Builds the panel, serializes it with `marshal` and stores the JSON and
        its identifier in the state; a serialization error is reported instead.
        `marshal` and `checksum` stand for json.MarshalIndent and crc32.ChecksumIEEE. */
    method Read(data: DataSourceModel, marshal: G.Panel -> Result<seq<bv8>>,
                checksum: seq<bv8> -> Identifier.Uint32)
      returns (result: ReadResult)
      ensures marshal(PanelOf(defaults, data)).Failure? ==>
                result == ReadFailed(Diagnostic("Client Error",
                                                "Could not marshal json: " + marshal(PanelOf(defaults, data)).error))
      ensures marshal(PanelOf(defaults, data)).Success? ==>
                var jsonData := marshal(PanelOf(defaults, data)).value;
                result == ReadOk(data.(json := TfValue(false, jsonData),
                                       id := TfValue(false, Identifier.Itoa(Identifier.Hashcode(checksum(jsonData))))))
      ensures result.ReadOk? ==>
                Identifier.IsDecimal(result.state.id.value)
                && Identifier.ParseDecimal(result.state.id.value) == checksum(result.state.json.value)
    {
      var targets := Targets.CreateTargets(data.targets);
      var legendOptions := MergeLegend(defaults.legend, data.legend);
      var tooltipOptions := MergeTooltip(defaults.tooltip, data.tooltip);

      var fieldConfig := FieldConfig.CreateFieldConfig(defaults.field, data.field);
      var custom := G.FieldConfigCustom(
        drawStyle := defaults.graph.drawStyle, lineInterpolation := defaults.graph.lineInterpolation,
        lineWidth := defaults.graph.lineWidth, fillOpacity := defaults.graph.fillOpacity,
        gradientMode := defaults.graph.gradientMode, lineStyle := G.LineStyle(""),
        spanNulls := defaults.graph.spanNulls, showPoints := defaults.graph.showPoints,
        pointSize := defaults.graph.pointSize, stacking := G.Stacking(""),
        axisLabel := defaults.axis.axisLabel, axisPlacement := defaults.axis.placement,
        axisSoftMin := defaults.axis.softMin, axisSoftMax := defaults.axis.softMax,
        scaleDistribution := G.ScaleDistribution("", 0));
      custom := custom.(lineStyle := custom.lineStyle.(fill := defaults.graph.lineStyle));
      custom := custom.(stacking := custom.stacking.(mode := defaults.graph.stackSeries));
      custom := custom.(scaleDistribution := custom.scaleDistribution.(scaleType := defaults.axis.scale.scaleType));
      custom := custom.(scaleDistribution := custom.scaleDistribution.(log := defaults.axis.scale.log));
      assert custom == SeedCustom(defaults);
      custom := MergeAxes(custom, data.axis);
      custom := MergeGraphs(custom, data.graph);
      fieldConfig := fieldConfig.(custom := custom);

      var panel := G.Panel(
        common := G.CommonPanel(ofType := G.TimeseriesType, title := data.title.value,
                                panelType := "timeseries", span := 12, isNew := true),
        timeseries := G.TimeseriesPanel(
          targets := targets,
          options := G.TimeseriesOptions(legend := legendOptions, tooltip := tooltipOptions),
          fieldConfig := G.FieldConfig(defaults := fieldConfig)));
      assert panel == PanelOf(defaults, data);

      var jsonData := marshal(panel);
      if jsonData.Failure? {
        result := ReadFailed(Diagnostic("Client Error", "Could not marshal json: " + jsonData.error));
        return;
      }
      var id := Identifier.Itoa(Identifier.Hashcode(checksum(jsonData.value)));
      Identifier.IdentifierIsDecimal(checksum(jsonData.value));
      result := ReadOk(data.(json := TfValue(false, jsonData.value), id := TfValue(false, id)));
    }
  }

  /** The assembled panel is a timeseries panel of span 12, marked new, whose
      targets are the translated target blocks in order, whose legend and
      tooltip are the merged ones, and whose field config is the merged field
      config with the merged custom settings. */
  lemma PanelShape(d: TimeseriesDefaults, data: DataSourceModel)
    ensures var p := PanelOf(d, data);
            && p.common.panelType == "timeseries" && p.common.span == 12 && p.common.isNew
            && p.common.title == data.title.value
            && |p.timeseries.targets| == Targets.TargetCount(data.targets)
            && p.timeseries.targets == Targets.TargetsOf(data.targets)
            && p.timeseries.fieldConfig.defaults
               == FieldConfig.FieldConfigOf(d.field, data.field).(custom := CustomOf(d, data))
            && p.timeseries.options.legend == LegendOf(d.legend, data.legend)
            && p.timeseries.options.tooltip.mode
               == (if |data.tooltip| == 0 then d.tooltip.mode else data.tooltip[|data.tooltip| - 1].mode.value)
  {
    Targets.TargetsLength(data.targets);
  }
}
