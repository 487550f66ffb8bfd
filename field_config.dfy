/**
 * The field-config merge (createFieldConfig, internal/provider/utils.go:716-894):
 * the field defaults overlaid by the `field` blocks, with the value, range,
 * regex and special mappings translated into the document's mapping list.
 */
module FieldConfig {
  import opened Wrappers
  import opened Framework
  import opened Overlay
  import O = Options
  import G = Grafana

  // ---------------------------------------------------------------- mappings

  function ValueResult(v: O.ValueMappingOptions, index: int): G.MappingResult {
    G.MappingResult(color := v.color.value, text := v.displayText.value, index := index)
  }

  /** The options of a block's "value" mapping: the i-th value item writes the
      entry of its literal with index i, so a repeated literal keeps its last
      item and the index still counts every item. */
  function ValuesMapOf(values: seq<O.ValueMappingOptions>): map<string, G.MappingResult>
    decreases |values|
  {
    if values == [] then map[]
    else
      var last := values[|values| - 1];
      ValuesMapOf(values[..|values| - 1])[last.value.value := ValueResult(last, |values| - 1)]
  }

  /** A range item as a mapping: both bounds are taken from its `from`. */
  function RangeAt(r: O.RangeMappingOptions, index: int): G.FieldMapping {
    G.RangeMapping(rangeFrom := r.rangeFrom.value, rangeTo := r.rangeFrom.value,
                   result := G.MappingResult(r.color.value, r.displayText.value, index))
  }

  function RegexAt(r: O.RegexMappingOptions, index: int): G.FieldMapping {
    G.RegexMapping(pattern := r.pattern.value,
                   result := G.MappingResult(r.color.value, r.displayText.value, index))
  }

  function SpecialAt(s: O.SpecialMappingOptions, index: int): G.FieldMapping {
    G.SpecialMapping(matchValue := s.matchValue.value,
                     result := G.MappingResult(s.color.value, s.displayText.value, index))
  }

  /** The range items as mappings, numbered from `start`. */
  function RangesFrom(ranges: seq<O.RangeMappingOptions>, start: int): (r: seq<G.FieldMapping>)
    ensures |r| == |ranges|
  {
    seq(|ranges|, i requires 0 <= i < |ranges| => RangeAt(ranges[i], start + i))
  }

  /** The regex items as mappings, numbered from `start`. */
  function RegexesFrom(regexes: seq<O.RegexMappingOptions>, start: int): (r: seq<G.FieldMapping>)
    ensures |r| == |regexes|
  {
    seq(|regexes|, i requires 0 <= i < |regexes| => RegexAt(regexes[i], start + i))
  }

  /** The special items as mappings, numbered from `start`. */
  function SpecialsFrom(specials: seq<O.SpecialMappingOptions>, start: int): (r: seq<G.FieldMapping>)
    ensures |r| == |specials|
  {
    seq(|specials|, i requires 0 <= i < |specials| => SpecialAt(specials[i], start + i))
  }

  /** The "value" mapping of a block, present only when its map has an entry. */
  function ValueMappings(values: seq<O.ValueMappingOptions>): seq<G.FieldMapping> {
    var valuesMap := ValuesMapOf(values);
    if |valuesMap| > 0 then [G.ValueMapping(valuesMap)] else []
  }

  /** The mappings of one `mappings` block. Its items are numbered from 0 in
      the order values, ranges, regexes, specials; the value items become one
      "value" mapping (only if there are any), every other item its own mapping. */
  function MappingsOf(m: O.MappingOptions): seq<G.FieldMapping> {
    var nv, nr, nx := |m.values|, |m.ranges|, |m.regexes|;
    ValueMappings(m.values)
    + RangesFrom(m.ranges, nv) + RegexesFrom(m.regexes, nv + nr) + SpecialsFrom(m.specials, nv + nr + nx)
  }

  /** The mappings of a field block: each `mappings` block's, numbered afresh, in order. */
  function FieldMappingsOf(blocks: seq<O.MappingOptions>): seq<G.FieldMapping> {
    Flatten(blocks, MappingsOf)
  }

  /** Builds the value map of one block with the running index. */
  method BuildValuesMap(values: seq<O.ValueMappingOptions>)
    returns (valuesMap: map<string, G.MappingResult>, idx: int)
    ensures valuesMap == ValuesMapOf(values) && idx == |values|
  {
    idx := 0;
    valuesMap := map[];
    for k := 0 to |values|
      invariant idx == k
      invariant valuesMap == ValuesMapOf(values[..k])
    {
      var value := values[k];
      assert values[..k + 1][..k] == values[..k];
      var v := G.MappingResult(color := value.color.value, text := value.displayText.value, index := idx);
      valuesMap := valuesMap[value.value.value := v];
      idx := idx + 1;
    }
    assert values[..|values|] == values;
  }

  /** Appends the range mappings of a block, numbering on from `idx`. */
  method AppendRanges(mappings: seq<G.FieldMapping>, ranges: seq<O.RangeMappingOptions>, idx: int)
    returns (result: seq<G.FieldMapping>, next: int)
    ensures result == mappings + RangesFrom(ranges, idx) && next == idx + |ranges|
  {
    result, next := mappings, idx;
    for k := 0 to |ranges|
      invariant next == idx + k
      invariant result == mappings + RangesFrom(ranges[..k], idx)
    {
      var range := ranges[k];
      var m := G.RangeMapping(rangeFrom := range.rangeFrom.value, rangeTo := range.rangeFrom.value,
                              result := G.MappingResult(range.color.value, range.displayText.value, next));
      next := next + 1;
      assert RangesFrom(ranges[..k + 1], idx) == RangesFrom(ranges[..k], idx) + [m];
      result := result + [m];
    }
    assert ranges[..|ranges|] == ranges;
  }

  /** Appends the regex mappings of a block, numbering on from `idx`. */
  method AppendRegexes(mappings: seq<G.FieldMapping>, regexes: seq<O.RegexMappingOptions>, idx: int)
    returns (result: seq<G.FieldMapping>, next: int)
    ensures result == mappings + RegexesFrom(regexes, idx) && next == idx + |regexes|
  {
    result, next := mappings, idx;
    for k := 0 to |regexes|
      invariant next == idx + k
      invariant result == mappings + RegexesFrom(regexes[..k], idx)
    {
      var regex := regexes[k];
      var m := G.RegexMapping(pattern := regex.pattern.value,
                              result := G.MappingResult(regex.color.value, regex.displayText.value, next));
      next := next + 1;
      assert RegexesFrom(regexes[..k + 1], idx) == RegexesFrom(regexes[..k], idx) + [m];
      result := result + [m];
    }
    assert regexes[..|regexes|] == regexes;
  }

  /** Appends the special mappings of a block, numbering on from `idx`. */
  method AppendSpecials(mappings: seq<G.FieldMapping>, specials: seq<O.SpecialMappingOptions>, idx: int)
    returns (result: seq<G.FieldMapping>, next: int)
    ensures result == mappings + SpecialsFrom(specials, idx) && next == idx + |specials|
  {
    result, next := mappings, idx;
    for k := 0 to |specials|
      invariant next == idx + k
      invariant result == mappings + SpecialsFrom(specials[..k], idx)
    {
      var special := specials[k];
      var m := G.SpecialMapping(matchValue := special.matchValue.value,
                                result := G.MappingResult(special.color.value, special.displayText.value, next));
      next := next + 1;
      assert SpecialsFrom(specials[..k + 1], idx) == SpecialsFrom(specials[..k], idx) + [m];
      result := result + [m];
    }
    assert specials[..|specials|] == specials;
  }

  /** Appends the mappings of one `mappings` block, numbering its items from 0. */
  method AppendMappingBlock(mappings: seq<G.FieldMapping>, mapping: O.MappingOptions)
    returns (result: seq<G.FieldMapping>)
    ensures result == mappings + MappingsOf(mapping)
  {
    var valuesMap, idx := BuildValuesMap(mapping.values);
    result := mappings;
    if |valuesMap| > 0 {
      result := result + [G.ValueMapping(valuesMap)];
    }
    result, idx := AppendRanges(result, mapping.ranges, idx);
    result, idx := AppendRegexes(result, mapping.regexes, idx);
    result, idx := AppendSpecials(result, mapping.specials, idx);
  }

  /** Builds the mapping list of one field block. */
  method BuildFieldMappings(blocks: seq<O.MappingOptions>) returns (mappings: seq<G.FieldMapping>)
    ensures mappings == FieldMappingsOf(blocks)
  {
    mappings := [];
    for i := 0 to |blocks|
      invariant mappings == FieldMappingsOf(blocks[..i])
    {
      FlattenStep(blocks, i, MappingsOf);
      mappings := AppendMappingBlock(mappings, blocks[i]);
    }
    assert blocks[..|blocks|] == blocks;
  }

  /** A literal is a key of the value map iff some value item has it; its
      entry is that of the last such item, indexed by the item's position. */
  lemma {:induction false} ValuesMapLastWins(values: seq<O.ValueMappingOptions>, key: string)
    ensures key in ValuesMapOf(values) <==> exists i :: 0 <= i < |values| && values[i].value.value == key
    ensures key in ValuesMapOf(values) ==> 0 <= ValuesMapOf(values)[key].index < |values|
    ensures forall j :: 0 <= j < |values| && values[j].value.value == key
                        && (forall k :: j < k < |values| ==> values[k].value.value != key)
                        ==> key in ValuesMapOf(values) && ValuesMapOf(values)[key] == ValueResult(values[j], j)
  {
    if values != [] {
      var pre := values[..|values| - 1];
      ValuesMapLastWins(pre, key);
      assert forall i :: 0 <= i < |pre| ==> pre[i] == values[i];
      if values[|values| - 1].value.value != key {
        assert (exists i :: 0 <= i < |values| && values[i].value.value == key)
               ==> exists i :: 0 <= i < |pre| && pre[i].value.value == key;
      }
    }
  }

  /** The "value" mapping is emitted exactly when the block has a value item. */
  lemma {:induction false} ValuesMapNonEmpty(values: seq<O.ValueMappingOptions>)
    ensures |ValuesMapOf(values)| > 0 <==> |values| > 0
  {
    if values != [] {
      var key := values[|values| - 1].value.value;
      ValuesMapLastWins(values, key);
      assert key in ValuesMapOf(values);
    }
  }

  /** Where each item of a block lands in its mapping list. */
  lemma MappingsLayout(m: O.MappingOptions)
    ensures var ms := MappingsOf(m);
            var hv := |ValueMappings(m.values)|;
            var nv, nr, nx := |m.values|, |m.ranges|, |m.regexes|;
            && hv <= 1 && |ms| == hv + nr + nx + |m.specials|
            && (hv == 1 ==> ms[0] == G.ValueMapping(ValuesMapOf(m.values)))
            && (forall p :: hv <= p < hv + nr ==> ms[p] == RangeAt(m.ranges[p - hv], nv + p - hv))
            && (forall p :: hv + nr <= p < hv + nr + nx ==> ms[p] == RegexAt(m.regexes[p - hv - nr], nv + p - hv))
            && (forall p :: hv + nr + nx <= p < |ms| ==> ms[p] == SpecialAt(m.specials[p - hv - nr - nx], nv + p - hv))
  {
  }

  /** The numbering of one block: after the optional "value" mapping, whose
      entries carry indices below the number of value items, the range, regex
      and special mappings follow in that order, numbered consecutively from
      the number of value items; a range mapping's `to` equals its `from`. */
  lemma MappingIndicesContiguous(m: O.MappingOptions)
    ensures var ms := MappingsOf(m);
            var hv := if |m.values| > 0 then 1 else 0;
            && |ms| == hv + |m.ranges| + |m.regexes| + |m.specials|
            && (hv == 1 ==> ms[0].ValueMapping?
                            && forall key :: key in ms[0].options ==> 0 <= ms[0].options[key].index < |m.values|)
            && (forall p :: hv <= p < |ms| ==> !ms[p].ValueMapping? && ms[p].result.index == |m.values| + p - hv)
            && (forall p :: hv <= p < hv + |m.ranges| ==>
                  ms[p].Type() == "range" && ms[p].rangeTo == ms[p].rangeFrom == m.ranges[p - hv].rangeFrom.value)
            && (forall p :: hv + |m.ranges| <= p < hv + |m.ranges| + |m.regexes| ==> ms[p].Type() == "regex")
            && (forall p :: hv + |m.ranges| + |m.regexes| <= p < |ms| ==> ms[p].Type() == "special")
  {
    ValuesMapNonEmpty(m.values);
    MappingsLayout(m);
    forall key | key in ValuesMapOf(m.values)
      ensures 0 <= ValuesMapOf(m.values)[key].index < |m.values|
    {
      ValuesMapLastWins(m.values, key);
    }
  }

  // -------------------------------------------------------------- thresholds

  function StepOf(s: O.ThresholdStep): G.ThresholdStep {
    G.ThresholdStep(color := s.color.value, value := s.value.Known())
  }

  function StepFromDefault(s: O.ThresholdStepDefaults): G.ThresholdStep {
    G.ThresholdStep(color := s.color, value := s.value)
  }

  function ThresholdModeOverride(t: O.ThresholdOptions): Option<string> { t.mode.Known() }

  /** A thresholds block replaces the whole step list, and only when it has steps. */
  function StepsOverride(t: O.ThresholdOptions): Option<seq<G.ThresholdStep>> {
    if |t.steps| > 0 then Some(Map(t.steps, StepOf)) else None
  }

  /** Thresholds `th` overlaid by the thresholds blocks, in order. */
  function ThresholdsOverlay(th: G.Thresholds, blocks: seq<O.ThresholdOptions>): G.Thresholds {
    G.Thresholds(mode := LastSome(th.mode, Map(blocks, ThresholdModeOverride)),
                 steps := LastSome(th.steps, Map(blocks, StepsOverride)))
  }

  /** Copies the default steps into a fresh step array. */
  method CopyDefaultSteps(steps: seq<O.ThresholdStepDefaults>) returns (r: seq<G.ThresholdStep>)
    ensures |r| == |steps|
    ensures forall i :: 0 <= i < |steps| ==> r[i].color == steps[i].color && r[i].value == steps[i].value
  {
    var thresholdStep := new G.ThresholdStep[|steps|];
    for i := 0 to |steps|
      invariant forall k :: 0 <= k < i ==>
                  thresholdStep[k].color == steps[k].color && thresholdStep[k].value == steps[k].value
    {
      var step := steps[i];
      thresholdStep[i] := G.ThresholdStep(color := step.color, value := step.value);
    }
    r := thresholdStep[..];
  }

  /** Converts a block's steps: each keeps its color and carries its value only if present. */
  method ConvertSteps(steps: seq<O.ThresholdStep>) returns (r: seq<G.ThresholdStep>)
    ensures |r| == |steps|
    ensures forall i :: 0 <= i < |steps| ==>
              r[i].color == steps[i].color.value
              && r[i].value == (if steps[i].value.isNull then None else Some(steps[i].value.value))
  {
    var converted := new G.ThresholdStep[|steps|];
    for i := 0 to |steps|
      invariant forall k :: 0 <= k < i ==>
                  converted[k].color == steps[k].color.value
                  && converted[k].value == (if steps[k].value.isNull then None else Some(steps[k].value.value))
    {
      var step := steps[i];
      var s := G.ThresholdStep(color := step.color.value, value := None);
      if !step.value.isNull {
        var value := step.value.value;
        s := s.(value := Some(value));
      }
      converted[i] := s;
    }
    r := converted[..];
  }

  /** Overlays the thresholds blocks of one field block. */
  method OverlayThresholds(th: G.Thresholds, blocks: seq<O.ThresholdOptions>) returns (r: G.Thresholds)
    ensures r == ThresholdsOverlay(th, blocks)
  {
    r := th;
    for i := 0 to |blocks|
      invariant r == ThresholdsOverlay(th, blocks[..i])
    {
      var threshold := blocks[i];
      var steps := ConvertSteps(threshold.steps);
      LastSomeStep(th.mode, blocks, i, ThresholdModeOverride);
      LastSomeStep(th.steps, blocks, i, StepsOverride);
      if !threshold.mode.isNull {
        r := r.(mode := threshold.mode.value);
      }
      if |steps| > 0 {
        MapAt(threshold.steps, StepOf);
        assert steps == Map(threshold.steps, StepOf);
        r := r.(steps := steps);
      }
    }
    assert blocks[..|blocks|] == blocks;
  }

  // ------------------------------------------------------------------- color

  function ColorModeOverride(c: O.ColorOptions): Option<string> { c.mode.Known() }
  function FixedColorOverride(c: O.ColorOptions): Option<string> { c.fixedColor.Known() }
  function SeriesByOverride(c: O.ColorOptions): Option<string> { c.seriesBy.Known() }

  /** Color settings `c` overlaid by the color blocks, in order. */
  function ColorOverlay(c: G.FieldConfigColor, colors: seq<O.ColorOptions>): G.FieldConfigColor {
    G.FieldConfigColor(mode := LastSome(c.mode, Map(colors, ColorModeOverride)),
                       fixedColor := LastSome(c.fixedColor, Map(colors, FixedColorOverride)),
                       seriesBy := LastSome(c.seriesBy, Map(colors, SeriesByOverride)))
  }

  /** Overlays the color blocks of one field block. */
  method OverlayColor(c: G.FieldConfigColor, colors: seq<O.ColorOptions>) returns (r: G.FieldConfigColor)
    ensures r == ColorOverlay(c, colors)
  {
    r := c;
    for i := 0 to |colors|
      invariant r == ColorOverlay(c, colors[..i])
    {
      var color := colors[i];
      LastSomeStep(c.mode, colors, i, ColorModeOverride);
      LastSomeStep(c.fixedColor, colors, i, FixedColorOverride);
      LastSomeStep(c.seriesBy, colors, i, SeriesByOverride);
      if !color.mode.isNull {
        r := r.(mode := color.mode.value);
      }
      if !color.fixedColor.isNull {
        r := r.(fixedColor := color.fixedColor.value);
      }
      if !color.seriesBy.isNull {
        r := r.(seriesBy := color.seriesBy.value);
      }
    }
    assert colors[..|colors|] == colors;
  }

  /** Overlaying twice is overlaying with the concatenated blocks. */
  lemma ColorOverlayAppend(c: G.FieldConfigColor, a: seq<O.ColorOptions>, b: seq<O.ColorOptions>)
    ensures ColorOverlay(ColorOverlay(c, a), b) == ColorOverlay(c, a + b)
  {
    MapAppend(a, b, ColorModeOverride);
    MapAppend(a, b, FixedColorOverride);
    MapAppend(a, b, SeriesByOverride);
    LastSomeAppend(c.mode, Map(a, ColorModeOverride), Map(b, ColorModeOverride));
    LastSomeAppend(c.fixedColor, Map(a, FixedColorOverride), Map(b, FixedColorOverride));
    LastSomeAppend(c.seriesBy, Map(a, SeriesByOverride), Map(b, SeriesByOverride));
  }

  /** Overlaying twice is overlaying with the concatenated blocks. */
  lemma ThresholdsOverlayAppend(th: G.Thresholds, a: seq<O.ThresholdOptions>, b: seq<O.ThresholdOptions>)
    ensures ThresholdsOverlay(ThresholdsOverlay(th, a), b) == ThresholdsOverlay(th, a + b)
  {
    MapAppend(a, b, ThresholdModeOverride);
    MapAppend(a, b, StepsOverride);
    LastSomeAppend(th.mode, Map(a, ThresholdModeOverride), Map(b, ThresholdModeOverride));
    LastSomeAppend(th.steps, Map(a, StepsOverride), Map(b, StepsOverride));
  }

  // ------------------------------------------------------------- field config

  function UnitOverride(f: O.FieldOptions): Option<string> { f.unit.Known() }

  function DecimalsOverride(f: O.FieldOptions): Option<Option<int>> {
    if f.decimals.isNull then None else Some(Some(f.decimals.value))
  }

  function MinOverride(f: O.FieldOptions): Option<Option<Float64>> {
    if f.min.isNull then None else Some(Some(f.min.value))
  }

  function MaxOverride(f: O.FieldOptions): Option<Option<Float64>> {
    if f.max.isNull then None else Some(Some(f.max.value))
  }

  function NoValueOverride(f: O.FieldOptions): Option<Option<Float64>> {
    if f.noValue.isNull then None else Some(Some(f.noValue.value))
  }

  /** A field block replaces the mapping list only when it produces mappings. */
  function MappingsOverride(f: O.FieldOptions): Option<seq<G.FieldMapping>> {
    var ms := FieldMappingsOf(f.mappings);
    if |ms| > 0 then Some(ms) else None
  }

  function ColorsOf(f: O.FieldOptions): seq<O.ColorOptions> { f.color }

  function ThresholdsOf(f: O.FieldOptions): seq<O.ThresholdOptions> { f.thresholds }

  /** The field config before any block: the defaults, except that the
      default no-value is never copied and there are no mappings. */
  function SeedConfig(d: O.FieldDefaults): G.FieldConfigDefaults {
    G.FieldConfigDefaults(
      unit := d.unit, decimals := d.decimals, min := d.min, max := d.max, noValue := None,
      color := G.FieldConfigColor(d.color.mode, d.color.fixedColor, d.color.seriesBy),
      thresholds := G.Thresholds(d.thresholds.mode, Map(d.thresholds.steps, StepFromDefault)),
      mappings := [], custom := G.ZeroCustom())
  }

  /** The effective field config: every setting is the last present override
      of it across the field blocks (and their nested color and thresholds
      blocks, in order), or its seeded default when none is present. */
  function FieldConfigOf(d: O.FieldDefaults, fieldOptions: seq<O.FieldOptions>): G.FieldConfigDefaults {
    var seed := SeedConfig(d);
    seed.(
      unit := LastSome(seed.unit, Map(fieldOptions, UnitOverride)),
      decimals := LastSome(seed.decimals, Map(fieldOptions, DecimalsOverride)),
      min := LastSome(seed.min, Map(fieldOptions, MinOverride)),
      max := LastSome(seed.max, Map(fieldOptions, MaxOverride)),
      noValue := LastSome(seed.noValue, Map(fieldOptions, NoValueOverride)),
      color := ColorOverlay(seed.color, Flatten(fieldOptions, ColorsOf)),
      thresholds := ThresholdsOverlay(seed.thresholds, Flatten(fieldOptions, ThresholdsOf)),
      mappings := LastSome(seed.mappings, Map(fieldOptions, MappingsOverride)))
  }

  /** The setting an override leaves: the override when present, else the prior setting. */
  function Overridden<T>(o: Option<T>, prior: T): T {
    if o.Some? then o.value else prior
  }

  /** Applies a field block's unit, decimals, min, max and no-value. */
  method ApplyFieldSettings(c: G.FieldConfigDefaults, field: O.FieldOptions) returns (r: G.FieldConfigDefaults)
    ensures r == c.(unit := Overridden(UnitOverride(field), c.unit),
                    decimals := Overridden(DecimalsOverride(field), c.decimals),
                    min := Overridden(MinOverride(field), c.min),
                    max := Overridden(MaxOverride(field), c.max),
                    noValue := Overridden(NoValueOverride(field), c.noValue))
  {
    r := c;
    if !field.unit.isNull {
      r := r.(unit := field.unit.value);
    }
    if !field.decimals.isNull {
      var decimals := field.decimals.value;
      r := r.(decimals := Some(decimals));
    }
    if !field.min.isNull {
      r := r.(min := Some(field.min.value));
    }
    if !field.max.isNull {
      r := r.(max := Some(field.max.value));
    }
    if !field.noValue.isNull {
      r := r.(noValue := Some(field.noValue.value));
    }
  }

  /** Merges the field defaults with the field blocks. */
  method CreateFieldConfig(defaults: O.FieldDefaults, fieldOptions: seq<O.FieldOptions>)
    returns (fieldConfig: G.FieldConfigDefaults)
    ensures fieldConfig == FieldConfigOf(defaults, fieldOptions)
  {
    var thresholdStep := CopyDefaultSteps(defaults.thresholds.steps);
    MapAt(defaults.thresholds.steps, StepFromDefault);
    fieldConfig := G.FieldConfigDefaults(
      unit := defaults.unit, decimals := defaults.decimals, min := defaults.min, max := defaults.max,
      noValue := None,
      color := G.FieldConfigColor(defaults.color.mode, defaults.color.fixedColor, defaults.color.seriesBy),
      thresholds := G.Thresholds(defaults.thresholds.mode, thresholdStep),
      mappings := [], custom := G.ZeroCustom());
    ghost var seed := SeedConfig(defaults);
    assert fieldConfig == seed;

    for i := 0 to |fieldOptions|
      invariant fieldConfig == FieldConfigOf(defaults, fieldOptions[..i])
    {
      var field := fieldOptions[i];
      LastSomeStep(seed.unit, fieldOptions, i, UnitOverride);
      LastSomeStep(seed.decimals, fieldOptions, i, DecimalsOverride);
      LastSomeStep(seed.min, fieldOptions, i, MinOverride);
      LastSomeStep(seed.max, fieldOptions, i, MaxOverride);
      LastSomeStep(seed.noValue, fieldOptions, i, NoValueOverride);
      LastSomeStep(seed.mappings, fieldOptions, i, MappingsOverride);
      FlattenStep(fieldOptions, i, ColorsOf);
      FlattenStep(fieldOptions, i, ThresholdsOf);
      ColorOverlayAppend(seed.color, Flatten(fieldOptions[..i], ColorsOf), field.color);
      ThresholdsOverlayAppend(seed.thresholds, Flatten(fieldOptions[..i], ThresholdsOf), field.thresholds);

      fieldConfig := ApplyFieldSettings(fieldConfig, field);

      var color := OverlayColor(fieldConfig.color, field.color);
      fieldConfig := fieldConfig.(color := color);

      var mappings := BuildFieldMappings(field.mappings);
      if |mappings| > 0 {
        fieldConfig := fieldConfig.(mappings := mappings);
      }

      var thresholds := OverlayThresholds(fieldConfig.thresholds, field.thresholds);
      fieldConfig := fieldConfig.(thresholds := thresholds);
    }
    assert fieldOptions[..|fieldOptions|] == fieldOptions;
  }

  // -------------------------------------------------------------------- laws

  /** With no field block the config is the defaults: same unit, decimals,
      min, max, color and threshold mode and steps; no-value and mappings unset. */
  lemma FieldConfigNoBlocks(d: O.FieldDefaults)
    ensures var r := FieldConfigOf(d, []);
            && r.unit == d.unit && r.decimals == d.decimals && r.min == d.min && r.max == d.max
            && r.noValue == None && r.mappings == []
            && r.color.mode == d.color.mode && r.color.fixedColor == d.color.fixedColor
            && r.color.seriesBy == d.color.seriesBy
            && r.thresholds.mode == d.thresholds.mode
            && |r.thresholds.steps| == |d.thresholds.steps|
            && forall i :: 0 <= i < |d.thresholds.steps| ==>
                 r.thresholds.steps[i].color == d.thresholds.steps[i].color
                 && r.thresholds.steps[i].value == d.thresholds.steps[i].value
  {
    MapAt(d.thresholds.steps, StepFromDefault);
  }

  /** A field with no field block and the provider's built-in defaults gets
      the classic palette (fixed colour green, series by last value) and
      absolute thresholds with a single green base step that has no value. */
  lemma BuiltInFieldConfig()
    ensures var r := FieldConfigOf(O.NewFieldDefaults(), []);
            && r.unit == "" && r.decimals == None && r.min == None && r.max == None
            && r.noValue == None && r.mappings == []
            && r.color == G.FieldConfigColor("palette-classic", "green", "last")
            && r.thresholds == G.Thresholds("absolute", [G.ThresholdStep("green", None)])
  {
    FieldConfigNoBlocks(O.NewFieldDefaults());
  }

  /** Under at most one color block each present option overrides its color setting. */
  lemma ColorAtMostOne(c: G.FieldConfigColor, colors: seq<O.ColorOptions>)
    requires |colors| <= 1
    ensures var r := ColorOverlay(c, colors);
            var has := |colors| == 1;
            && r.mode == (if has && !colors[0].mode.isNull then colors[0].mode.value else c.mode)
            && r.fixedColor == (if has && !colors[0].fixedColor.isNull then colors[0].fixedColor.value else c.fixedColor)
            && r.seriesBy == (if has && !colors[0].seriesBy.isNull then colors[0].seriesBy.value else c.seriesBy)
  {
    LastSomeAtMostOne(c.mode, colors, ColorModeOverride);
    LastSomeAtMostOne(c.fixedColor, colors, FixedColorOverride);
    LastSomeAtMostOne(c.seriesBy, colors, SeriesByOverride);
  }

  /** Under at most one thresholds block a present mode overrides and a non-empty
      step list replaces the steps wholesale. */
  lemma ThresholdsAtMostOne(th: G.Thresholds, blocks: seq<O.ThresholdOptions>)
    requires |blocks| <= 1
    ensures var r := ThresholdsOverlay(th, blocks);
            var has := |blocks| == 1;
            && r.mode == (if has && !blocks[0].mode.isNull then blocks[0].mode.value else th.mode)
            && r.steps == (if has && |blocks[0].steps| > 0 then Map(blocks[0].steps, StepOf) else th.steps)
  {
    LastSomeAtMostOne(th.mode, blocks, ThresholdModeOverride);
    LastSomeAtMostOne(th.steps, blocks, StepsOverride);
  }

  /** One field block: each present top-level option (unit, decimals, min,
      max, no-value) overrides its setting and each absent one leaves the
      default; no-value is unset unless the block sets it; the mappings are
      the block's own. */
  lemma FieldConfigOneBlock(d: O.FieldDefaults, fo: O.FieldOptions)
    ensures var r := FieldConfigOf(d, [fo]);
            && r.unit == (if fo.unit.isNull then d.unit else fo.unit.value)
            && r.decimals == (if fo.decimals.isNull then d.decimals else Some(fo.decimals.value))
            && r.min == (if fo.min.isNull then d.min else Some(fo.min.value))
            && r.max == (if fo.max.isNull then d.max else Some(fo.max.value))
            && r.noValue == (if fo.noValue.isNull then None else Some(fo.noValue.value))
            && r.mappings == FieldMappingsOf(fo.mappings)
  {
    var seed := SeedConfig(d);
    LastSomeAtMostOne(seed.unit, [fo], UnitOverride);
    LastSomeAtMostOne(seed.decimals, [fo], DecimalsOverride);
    LastSomeAtMostOne(seed.min, [fo], MinOverride);
    LastSomeAtMostOne(seed.max, [fo], MaxOverride);
    LastSomeAtMostOne(seed.noValue, [fo], NoValueOverride);
    LastSomeAtMostOne(seed.mappings, [fo], MappingsOverride);
  }

  /** One field block with at most one color and one thresholds block (the
      schema's limit): each present color option and threshold mode overrides
      the default, and a non-empty step list replaces the default steps wholesale. */
  lemma FieldConfigOneBlockNested(d: O.FieldDefaults, fo: O.FieldOptions)
    requires |fo.color| <= 1 && |fo.thresholds| <= 1
    ensures var r := FieldConfigOf(d, [fo]);
            var hasColor := |fo.color| == 1;
            var hasThresholds := |fo.thresholds| == 1;
            && r.color.mode == (if hasColor && !fo.color[0].mode.isNull
                                then fo.color[0].mode.value else d.color.mode)
            && r.color.fixedColor == (if hasColor && !fo.color[0].fixedColor.isNull
                                      then fo.color[0].fixedColor.value else d.color.fixedColor)
            && r.color.seriesBy == (if hasColor && !fo.color[0].seriesBy.isNull
                                    then fo.color[0].seriesBy.value else d.color.seriesBy)
            && r.thresholds.mode == (if hasThresholds && !fo.thresholds[0].mode.isNull
                                     then fo.thresholds[0].mode.value else d.thresholds.mode)
            && r.thresholds.steps == (if hasThresholds && |fo.thresholds[0].steps| > 0
                                      then Map(fo.thresholds[0].steps, StepOf)
                                      else SeedConfig(d).thresholds.steps)
  {
    var seed := SeedConfig(d);
    assert [fo][..0] == [];
    assert Flatten([fo], ColorsOf) == fo.color;
    assert Flatten([fo], ThresholdsOf) == fo.thresholds;
    ColorAtMostOne(seed.color, fo.color);
    ThresholdsAtMostOne(seed.thresholds, fo.thresholds);
  }

  /** Steps are all or nothing: with no thresholds block that has steps the
      steps are kept, otherwise they are exactly the converted steps of the
      last thresholds block that has any. */
  lemma StepsOverlayAllOrNothing(th: G.Thresholds, blocks: seq<O.ThresholdOptions>)
    ensures var steps := ThresholdsOverlay(th, blocks).steps;
            && ((forall i :: 0 <= i < |blocks| ==> |blocks[i].steps| == 0) ==> steps == th.steps)
            && ((exists i :: 0 <= i < |blocks| && |blocks[i].steps| > 0)
                ==> exists j :: 0 <= j < |blocks| && |blocks[j].steps| > 0
                                && steps == Map(blocks[j].steps, StepOf)
                                && forall k :: j < k < |blocks| ==> |blocks[k].steps| == 0)
  {
    if forall i :: 0 <= i < |blocks| ==> |blocks[i].steps| == 0 {
      StepsKept(th, blocks);
    }
    StepsFromLastBlock(th, blocks);
  }

  /** With no thresholds block that has steps, the steps are kept. */
  lemma StepsKept(th: G.Thresholds, blocks: seq<O.ThresholdOptions>)
    requires forall i :: 0 <= i < |blocks| ==> |blocks[i].steps| == 0
    ensures ThresholdsOverlay(th, blocks).steps == th.steps
  {
    var os := Map(blocks, StepsOverride);
    MapAt(blocks, StepsOverride);
    assert forall i :: 0 <= i < |os| ==> os[i] == None;
    LastSomeAllAbsent(th.steps, os);
  }

  /** With a thresholds block that has steps, the steps are exactly the
      converted steps of the last such block. */
  lemma StepsFromLastBlock(th: G.Thresholds, blocks: seq<O.ThresholdOptions>)
    ensures (exists i :: 0 <= i < |blocks| && |blocks[i].steps| > 0)
            ==> exists j :: 0 <= j < |blocks| && |blocks[j].steps| > 0
                            && ThresholdsOverlay(th, blocks).steps == Map(blocks[j].steps, StepOf)
                            && forall k :: j < k < |blocks| ==> |blocks[k].steps| == 0
  {
    if i :| 0 <= i < |blocks| && |blocks[i].steps| > 0 {
      var os := Map(blocks, StepsOverride);
      MapAt(blocks, StepsOverride);
      assert os[i].Some?;
      LastSomeWitness(th.steps, os);
      var j :| 0 <= j < |os| && os[j] == Some(LastSome(th.steps, os))
               && forall k :: j < k < |os| ==> os[k] == None;
      assert |blocks[j].steps| > 0;
      assert forall k :: j < k < |blocks| ==> os[k] == None ==> |blocks[k].steps| == 0;
    }
  }

  /** The merged step list is the default one when no thresholds block of any
      field block has steps, and otherwise exactly the converted steps of the
      last thresholds block that has any: never a mix of the two. */
  lemma StepsAllOrNothing(d: O.FieldDefaults, fieldOptions: seq<O.FieldOptions>)
    ensures var blocks := Flatten(fieldOptions, ThresholdsOf);
            var steps := FieldConfigOf(d, fieldOptions).thresholds.steps;
            && ((forall i :: 0 <= i < |blocks| ==> |blocks[i].steps| == 0)
                ==> steps == SeedConfig(d).thresholds.steps)
            && ((exists i :: 0 <= i < |blocks| && |blocks[i].steps| > 0)
                ==> exists j :: 0 <= j < |blocks| && |blocks[j].steps| > 0
                                && steps == Map(blocks[j].steps, StepOf)
                                && forall k :: j < k < |blocks| ==> |blocks[k].steps| == 0)
  {
    FieldConfigThresholds(d, fieldOptions);
    StepsOverlayAllOrNothing(SeedConfig(d).thresholds, Flatten(fieldOptions, ThresholdsOf));
  }

  /** The merged thresholds are the seeded ones overlaid by every thresholds block, in order. */
  lemma FieldConfigThresholds(d: O.FieldDefaults, fieldOptions: seq<O.FieldOptions>)
    ensures FieldConfigOf(d, fieldOptions).thresholds
            == ThresholdsOverlay(SeedConfig(d).thresholds, Flatten(fieldOptions, ThresholdsOf))
  {
  }
}
