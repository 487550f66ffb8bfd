/**
 * Translation of the `targets` blocks into the panel's query list
 * (createTargets, internal/provider/utils.go:666-714).
 */
module Targets {
  import opened Overlay
  import O = Options
  import G = Grafana

  /** The dimension map of a CloudWatch target: each dimension in turn writes
      its name's entry, so a repeated name keeps its last value. */
  function DimensionsOf(dims: seq<O.CloudWatchDimension>): map<string, string>
    decreases |dims|
  {
    if dims == [] then map[]
    else
      var last := dims[|dims| - 1];
      DimensionsOf(dims[..|dims| - 1])[last.name.value := last.value.value]
  }

  function FromPrometheus(t: O.PrometheusTarget): G.Target {
    G.Target(
      datasource := G.Datasource(uid := t.uid.value, dsType := "prometheus"),
      refId := t.refId.value, expr := t.expr.value, interval := t.minInterval.value,
      legendFormat := t.legendFormat.value, instant := t.instant.value, format := t.format.value,
      namespace := "", metricName := "", statistics := [], dimensions := map[],
      period := "", region := "", labelText := "")
  }

  function FromCloudWatch(t: O.CloudWatchTarget): G.Target {
    G.Target(
      datasource := G.Datasource(uid := t.uid.value, dsType := "cloudwatch"),
      refId := t.refId.value, expr := "", interval := "", legendFormat := "",
      instant := false, format := "",
      namespace := t.namespace.value, metricName := t.metricName.value,
      statistics := [t.statistic.value], dimensions := DimensionsOf(t.dimensions),
      period := t.period.value, region := t.region.value, labelText := t.legendFormat.value)
  }

  /** The targets one block contributes: its Prometheus targets, then its CloudWatch ones. */
  function GroupTargets(g: O.Target): seq<G.Target> {
    Map(g.prometheus, FromPrometheus) + Map(g.cloudWatch, FromCloudWatch)
  }

  /** The panel's target list: the blocks' contributions in block order. */
  function TargetsOf(groups: seq<O.Target>): seq<G.Target> {
    Flatten(groups, GroupTargets)
  }

  /** The number of targets written in the blocks. */
  function TargetCount(groups: seq<O.Target>): nat
    decreases |groups|
  {
    if groups == [] then 0
    else
      var last := groups[|groups| - 1];
      TargetCount(groups[..|groups| - 1]) + |last.prometheus| + |last.cloudWatch|
  }

  /** `out` is the document form of Prometheus target `t`. */
  predicate TranslatesPrometheus(out: G.Target, t: O.PrometheusTarget) {
    && out.datasource.dsType == "prometheus"
    && out.datasource.uid == t.uid.value
    && out.refId == t.refId.value
    && out.expr == t.expr.value
    && out.interval == t.minInterval.value
    && out.legendFormat == t.legendFormat.value
    && out.instant == t.instant.value
    && out.format == t.format.value
    && out.statistics == []
    && out.dimensions == map[]
  }

  /** `out` is the document form of CloudWatch target `t`: one statistic, the
      dimension map, and no trace of `matchExact`. */
  predicate TranslatesCloudWatch(out: G.Target, t: O.CloudWatchTarget) {
    && out.datasource.dsType == "cloudwatch"
    && out.datasource.uid == t.uid.value
    && out.refId == t.refId.value
    && out.namespace == t.namespace.value
    && out.metricName == t.metricName.value
    && out.statistics == [t.statistic.value]
    && out.dimensions == DimensionsOf(t.dimensions)
    && out.period == t.period.value
    && out.region == t.region.value
    && out.labelText == t.legendFormat.value
    && out.expr == ""
  }

  /** Builds a CloudWatch target's dimension map, one dimension at a time. */
  method BuildDimensions(dims: seq<O.CloudWatchDimension>) returns (dimensions: map<string, string>)
    ensures dimensions == DimensionsOf(dims)
  {
    dimensions := map[];
    for i := 0 to |dims|
      invariant dimensions == DimensionsOf(dims[..i])
    {
      assert dims[..i + 1][..i] == dims[..i];
      var dim := dims[i];
      dimensions := dimensions[dim.name.value := dim.value.value];
    }
    assert dims[..|dims|] == dims;
  }

  /** Appends the document form of each Prometheus target of one block. */
  method AppendPrometheus(targets: seq<G.Target>, prometheus: seq<O.PrometheusTarget>)
    returns (result: seq<G.Target>)
    ensures result == targets + Map(prometheus, FromPrometheus)
  {
    result := targets;
    for k := 0 to |prometheus|
      invariant result == targets + Map(prometheus[..k], FromPrometheus)
    {
      var target := prometheus[k];
      var t := G.Target(
        datasource := G.Datasource(uid := target.uid.value, dsType := "prometheus"),
        refId := target.refId.value, expr := target.expr.value,
        interval := target.minInterval.value, legendFormat := target.legendFormat.value,
        instant := target.instant.value, format := target.format.value,
        namespace := "", metricName := "", statistics := [], dimensions := map[],
        period := "", region := "", labelText := "");
      assert t == FromPrometheus(target);
      MapStep(prometheus, k, FromPrometheus);
      result := result + [t];
    }
    assert prometheus[..|prometheus|] == prometheus;
  }

  /** Appends the document form of each CloudWatch target of one block. */
  method AppendCloudWatch(targets: seq<G.Target>, cloudWatch: seq<O.CloudWatchTarget>)
    returns (result: seq<G.Target>)
    ensures result == targets + Map(cloudWatch, FromCloudWatch)
  {
    result := targets;
    for k := 0 to |cloudWatch|
      invariant result == targets + Map(cloudWatch[..k], FromCloudWatch)
    {
      var target := cloudWatch[k];
      var dimensions := BuildDimensions(target.dimensions);
      var t := G.Target(
        datasource := G.Datasource(uid := target.uid.value, dsType := "cloudwatch"),
        refId := target.refId.value, expr := "", interval := "", legendFormat := "",
        instant := false, format := "",
        namespace := target.namespace.value, metricName := target.metricName.value,
        statistics := [target.statistic.value], dimensions := dimensions,
        period := target.period.value, region := target.region.value,
        labelText := target.legendFormat.value);
      assert t == FromCloudWatch(target);
      MapStep(cloudWatch, k, FromCloudWatch);
      result := result + [t];
    }
    assert cloudWatch[..|cloudWatch|] == cloudWatch;
  }

  /** Flattens the target blocks into the panel's target list. */
  method CreateTargets(dataTargets: seq<O.Target>) returns (targets: seq<G.Target>)
    ensures targets == TargetsOf(dataTargets)
  {
    targets := [];
    for i := 0 to |dataTargets|
      invariant targets == TargetsOf(dataTargets[..i])
    {
      var group := dataTargets[i];
      FlattenStep(dataTargets, i, GroupTargets);
      targets := AppendPrometheus(targets, group.prometheus);
      targets := AppendCloudWatch(targets, group.cloudWatch);
    }
    assert dataTargets[..|dataTargets|] == dataTargets;
  }

  /** A name is in the dimension map iff some dimension has it, and it is
      sent to the value of the last dimension with that name. */
  lemma {:induction false} DimensionsLastWins(dims: seq<O.CloudWatchDimension>, name: string)
    ensures name in DimensionsOf(dims) <==> exists i :: 0 <= i < |dims| && dims[i].name.value == name
    ensures forall j :: 0 <= j < |dims| && dims[j].name.value == name
                        && (forall k :: j < k < |dims| ==> dims[k].name.value != name)
                        ==> name in DimensionsOf(dims) && DimensionsOf(dims)[name] == dims[j].value.value
  {
    if dims != [] {
      var pre := dims[..|dims| - 1];
      DimensionsLastWins(pre, name);
      assert forall i :: 0 <= i < |pre| ==> pre[i] == dims[i];
      if dims[|dims| - 1].name.value != name {
        assert (exists i :: 0 <= i < |dims| && dims[i].name.value == name)
               ==> exists i :: 0 <= i < |pre| && pre[i].name.value == name;
      }
    }
  }

  /** The target list has one entry per target written. */
  lemma {:induction false} TargetsLength(groups: seq<O.Target>)
    ensures |TargetsOf(groups)| == TargetCount(groups)
  {
    if groups != [] {
      var last := groups[|groups| - 1];
      TargetsLength(groups[..|groups| - 1]);
      MapAt(last.prometheus, FromPrometheus);
      MapAt(last.cloudWatch, FromCloudWatch);
    }
  }

  /** The target list splits around block `g`'s contribution. */
  lemma TargetsSplit(groups: seq<O.Target>, g: nat)
    requires g < |groups|
    ensures TargetsOf(groups)
            == TargetsOf(groups[..g]) + GroupTargets(groups[g]) + TargetsOf(groups[g + 1..])
  {
    var group := groups[g];
    assert groups == groups[..g] + [group] + groups[g + 1..];
    FlattenAppend(groups[..g] + [group], groups[g + 1..], GroupTargets);
    FlattenAppend(groups[..g], [group], GroupTargets);
    assert Flatten([group], GroupTargets) == GroupTargets(group) by {
      assert [group][..0] == [];
    }
  }

  /** Where block `g`'s targets begin and end in the target list. */
  lemma GroupSlice(groups: seq<O.Target>, g: nat)
    requires g < |groups|
    ensures var offset := TargetCount(groups[..g]);
            var group := groups[g];
            && offset + |group.prometheus| + |group.cloudWatch| <= |TargetsOf(groups)|
            && TargetsOf(groups)[offset..offset + |group.prometheus| + |group.cloudWatch|]
               == Map(group.prometheus, FromPrometheus) + Map(group.cloudWatch, FromCloudWatch)
  {
    var group := groups[g];
    TargetsSplit(groups, g);
    TargetsLength(groups[..g]);
    MapAt(group.prometheus, FromPrometheus);
    MapAt(group.cloudWatch, FromCloudWatch);
  }

  /** The `p`-th target block `g` contributes follows the targets of the earlier blocks. */
  lemma TargetAt(groups: seq<O.Target>, g: nat, p: nat)
    requires g < |groups| && p < |GroupTargets(groups[g])|
    ensures TargetCount(groups[..g]) + p < |TargetsOf(groups)|
    ensures TargetsOf(groups)[TargetCount(groups[..g]) + p] == GroupTargets(groups[g])[p]
  {
    var before, after := TargetsOf(groups[..g]), TargetsOf(groups[g + 1..]);
    TargetsSplit(groups, g);
    TargetsLength(groups[..g]);
    assert TargetsOf(groups)[|before| + p] == (GroupTargets(groups[g]) + after)[p];
  }

  /** The `j`-th Prometheus target of block `g`, translated, follows the targets of the earlier blocks. */
  lemma PrometheusAt(groups: seq<O.Target>, g: nat, j: nat)
    requires g < |groups| && j < |groups[g].prometheus|
    ensures TargetCount(groups[..g]) + j < |TargetsOf(groups)|
    ensures TranslatesPrometheus(TargetsOf(groups)[TargetCount(groups[..g]) + j], groups[g].prometheus[j])
  {
    var group := groups[g];
    MapAt(group.prometheus, FromPrometheus);
    MapAt(group.cloudWatch, FromCloudWatch);
    assert GroupTargets(group)[j] == FromPrometheus(group.prometheus[j]);
    TargetAt(groups, g, j);
  }

  /** The `j`-th CloudWatch target of block `g`, translated, follows the block's Prometheus targets. */
  lemma CloudWatchAt(groups: seq<O.Target>, g: nat, j: nat)
    requires g < |groups| && j < |groups[g].cloudWatch|
    ensures TargetCount(groups[..g]) + |groups[g].prometheus| + j < |TargetsOf(groups)|
    ensures TranslatesCloudWatch(
              TargetsOf(groups)[TargetCount(groups[..g]) + |groups[g].prometheus| + j],
              groups[g].cloudWatch[j])
  {
    var group := groups[g];
    MapAt(group.prometheus, FromPrometheus);
    MapAt(group.cloudWatch, FromCloudWatch);
    assert GroupTargets(group)[|group.prometheus| + j] == FromCloudWatch(group.cloudWatch[j]);
    TargetAt(groups, g, |group.prometheus| + j);
  }

  /** Every translated target is a Prometheus or a CloudWatch query. */
  lemma {:induction false} TargetsDatasourceTypes(groups: seq<O.Target>)
    ensures forall t :: t in TargetsOf(groups) ==>
              t.datasource.dsType == "prometheus" || t.datasource.dsType == "cloudwatch"
  {
    if groups != [] {
      var last := groups[|groups| - 1];
      TargetsDatasourceTypes(groups[..|groups| - 1]);
      MapAt(last.prometheus, FromPrometheus);
      MapAt(last.cloudWatch, FromCloudWatch);
    }
  }
}
