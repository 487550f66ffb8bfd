# gdashboard provider core, modelled in Dafny

This project models the part of the Terraform provider `gdashboard` that
turns Terraform configuration into a Grafana panel document. The provider
keeps layered defaults: built-in defaults, then the provider-wide
`defaults` block, then the data source's own blocks. Every rule in that
merge is either "a present attribute overwrites the setting" or "a non-empty
list replaces the setting wholesale". The model covers:

- **Target translation** (`createTargets`). Target blocks become Grafana
  targets. Within each block the Prometheus targets come first, then the
  CloudWatch ones. A CloudWatch target gets a one-element statistics list
  and a dimension map in which the last dimension with a given name wins.
  `match_exact` is not copied.
- **Field-config merge** (`createFieldConfig`). The field defaults are
  overlaid by the field blocks:
  - unit, decimals, min, max, no-value and the colour options;
  - the threshold mode, with the step list replaced only by a non-empty list;
  - the value, range, regex and special mappings, numbered by a running index.
- **The in-place updaters** `updateTextSize` and `updateReduceOptions`.
- **`hashcode`**, which folds a CRC-32 checksum into a non-negative `int`, and
  the decimal identifier `strconv.Itoa` makes of it.
- **The timeseries data source**:
  - `Configure` stores the provider's timeseries defaults;
  - `Read` merges the legend, tooltip, axis (with its scale) and graph blocks
    over those defaults, assembles the panel (type `timeseries`, span 12, new)
    and stores the serialized panel and its identifier in the state.

Modules:

| file | module | content |
|---|---|---|
| wrappers.dfy | Wrappers | `Option`, `Result` |
| overlay.dfy | Overlay | `LastSome` (the last present override wins), `Map`, `Flatten`, and their laws |
| framework.dfy | Framework | Terraform attribute values (`TfValue`: a null flag and a value); opaque float representations |
| options.dfy | Options | the defaults records, `NewFieldDefaults`, and the Terraform option records |
| grafana.dfy | Grafana | the parts of the Grafana panel document the core writes; `TextSize` and `ReduceOptions` are classes because the updaters change them in place |
| targets.dfy | Targets | `createTargets` |
| field_config.dfy | FieldConfig | `createFieldConfig` |
| updaters.dfy | Updaters | `updateTextSize`, `updateReduceOptions` |
| identifier.dfy | Identifier | `hashcode`, `strconv.Itoa` |
| timeseries.dfy | Timeseries | the timeseries defaults and model, `Configure`, `Read` |

Each loop of the Go code is a Dafny `method` with a `for` loop. Where Go
fills a slice it allocated with `make`, the method fills an `array`. Each
method is proved equal to a declarative function. That function states the
merge as "the last present override wins" (`Overlay.LastSome`) over the
stream of blocks. The lemmas then state, in terms of that function, what
the source promises.

Behaviours of the source that the model keeps as written:

- The range mapping's `to` is filled from the block's `from`.
- The default no-value setting is never copied into the field config.
- The mapping index restarts at 0 in every mapping block.
- A repeated value literal overwrites its map entry, but the index still
  advances past it.
- Every tooltip block overwrites the tooltip mode, even with a null value.
  A null mode is written as the value the null attribute carries.
- `Configure` with provider data of another type reports "Unexpected Data
  Source Configure Type" and still stores the zero-valued defaults.

## Model

| member | source | states |
|---|---|---|
| Targets.BuildDimensions | internal/provider/utils.go:688-692 | the dimension map the loop builds is `DimensionsOf`, the map written one dimension at a time |
| Targets.DimensionsLastWins | internal/provider/utils.go:688-692 | a name is a key of the dimension map iff some dimension has that name, and it maps to the value of the last such dimension |
| Targets.AppendPrometheus | internal/provider/utils.go:670-685 | appends the translation of each Prometheus target of a block, in order, after the targets so far |
| Targets.AppendCloudWatch | internal/provider/utils.go:687-710 | appends the translation of each CloudWatch target of a block, in order, after the targets so far |
| Targets.CreateTargets | internal/provider/utils.go:666-714 | the result is `TargetsOf`: the blocks' contributions in block order, each block's Prometheus targets before its CloudWatch ones |
| Targets.TargetsLength | internal/provider/utils.go:666-714 | the result has one entry per Prometheus or CloudWatch target written, summed over the blocks |
| Targets.TargetsSplit | internal/provider/utils.go:669-711 | the target list is the earlier blocks' targets, then block `g`'s, then the later blocks' |
| Targets.GroupSlice | internal/provider/utils.go:669-711 | block `g`'s targets occupy the slice starting at the count of targets in the earlier blocks |
| Targets.TargetAt | internal/provider/utils.go:669-711 | the `p`-th target block `g` contributes sits right after the targets of the earlier blocks |
| Targets.PrometheusAt | internal/provider/utils.go:670-685 | the `j`-th Prometheus target of block `g` sits at that block's offset plus `j`: datasource type "prometheus" and UID, ref id, expr, interval, legend format, instant and format copied |
| Targets.CloudWatchAt | internal/provider/utils.go:687-710 | the `j`-th CloudWatch target of block `g` sits after that block's Prometheus targets: datasource type "cloudwatch", statistics `[statistic]`, the last-wins dimension map, and UID, ref id, namespace, metric, period, region and label copied |
| Targets.TargetsDatasourceTypes | internal/provider/utils.go:671-707 | every output target's datasource type is "prometheus" or "cloudwatch" |
| FieldConfig.BuildValuesMap | internal/provider/utils.go:787-799 | the loop builds `ValuesMapOf(values)` and leaves the index at the number of value items |
| FieldConfig.ValuesMapLastWins | internal/provider/utils.go:790-799 | a literal is a key iff some value item has it; its entry is the last such item's colour and text, with that item's position as index, and every index is below the number of items |
| FieldConfig.ValuesMapNonEmpty | internal/provider/utils.go:801-808 | the value map is non-empty (so the "value" mapping is emitted) iff the block has a value item |
| FieldConfig.AppendRanges | internal/provider/utils.go:810-826 | appends one range mapping per range item, in order, numbered on from the running index, which advances by the number of items |
| FieldConfig.AppendRegexes | internal/provider/utils.go:828-843 | appends one regex mapping per regex item, in order, numbered on from the running index, which advances by the number of items |
| FieldConfig.AppendSpecials | internal/provider/utils.go:845-860 | appends one special mapping per special item, in order, numbered on from the running index, which advances by the number of items |
| FieldConfig.AppendMappingBlock | internal/provider/utils.go:786-860 | appends one block's mappings, `MappingsOf(block)`, after the mappings so far |
| FieldConfig.MappingsLayout | internal/provider/utils.go:786-860 | in a block's mapping list, the optional "value" mapping comes first, then the range, regex and special mappings, each item at its own position with index its position among all of the block's items |
| FieldConfig.MappingIndicesContiguous | internal/provider/utils.go:786-860 | within a block, the optional "value" mapping is followed by the range, regex and special mappings in that order, indexed consecutively from the number of value items; a range's `to` equals its `from` |
| FieldConfig.BuildFieldMappings | internal/provider/utils.go:784-861 | the mapping list is every mapping block's mappings, concatenated in order |
| FieldConfig.CopyDefaultSteps | internal/provider/utils.go:723-730 | the default steps are copied one for one, with colour and value kept |
| FieldConfig.ConvertSteps | internal/provider/utils.go:868-885 | one output step per input step, with its colour and with a value only when the input's value is not null |
| FieldConfig.OverlayThresholds | internal/provider/utils.go:867-890 | the loop gives `ThresholdsOverlay`: the last present mode wins, and the step list is that of the last block with a non-empty list |
| FieldConfig.ThresholdsOverlayAppend | internal/provider/utils.go:867-890 | overlaying thresholds blocks in two batches is overlaying them all at once |
| FieldConfig.ThresholdsAtMostOne | internal/provider/utils.go:867-890 | with at most one thresholds block, a present mode overrides, and a non-empty step list replaces the steps wholesale |
| FieldConfig.StepsOverlayAllOrNothing | internal/provider/utils.go:867-890 | the steps are the prior ones when no block has steps, and otherwise exactly the converted steps of the last block that has any |
| FieldConfig.StepsKept | internal/provider/utils.go:887-889 | with no thresholds block that has steps, the steps are kept |
| FieldConfig.StepsFromLastBlock | internal/provider/utils.go:867-890 | with some thresholds block that has steps, the steps are exactly the converted steps of the last such block |
| FieldConfig.FieldConfigThresholds | internal/provider/utils.go:722-894 | unfolding step used by `StepsAllOrNothing`: it restates the thresholds clause of `FieldConfigOf` (the seed overlaid by every field block's thresholds blocks, in order); it is not a separate property |
| FieldConfig.StepsAllOrNothing | internal/provider/utils.go:723-890 | the merged steps are never a mix: the default steps, or the converted steps of the last thresholds block (over all field blocks) that has any |
| FieldConfig.OverlayColor | internal/provider/utils.go:770-782 | the loop gives `ColorOverlay`: each colour setting is the last present option or stays |
| FieldConfig.ColorOverlayAppend | internal/provider/utils.go:770-782 | overlaying colour blocks in two batches is overlaying them all at once |
| FieldConfig.ColorAtMostOne | internal/provider/utils.go:770-782 | with at most one colour block, each present option overrides its colour setting and each absent one leaves it |
| FieldConfig.CreateFieldConfig | internal/provider/utils.go:722-894 | the result is `FieldConfigOf(defaults, fieldOptions)`: defaults seeded (no-value unset, no mappings), then every field block overlaid in order |
| FieldConfig.ApplyFieldSettings | internal/provider/utils.go:749-768 | unit, decimals, min, max and no-value each take the field block's value when present and are left otherwise |
| FieldConfig.FieldConfigNoBlocks | internal/provider/utils.go:722-746 | with no field block, unit, decimals, min, max, colour and threshold mode and steps are the defaults, and no-value and mappings are unset |
| FieldConfig.BuiltInFieldConfig | internal/provider/utils.go:24-45 | the built-in defaults alone give the classic palette (fixed colour green, series by last) and absolute thresholds with one green base step without a value |
| FieldConfig.FieldConfigOneBlock | internal/provider/utils.go:748-865 | one field block: a present unit, decimals, min, max or no-value overrides its setting and an absent one leaves the default (no-value stays unset); the mappings are the block's own |
| FieldConfig.FieldConfigOneBlockNested | internal/provider/utils.go:770-890 | one field block with at most one colour and one thresholds block: present colour options and threshold mode override, and a non-empty step list replaces the default steps |
| Updaters.UpdateTextSize | internal/provider/utils.go:897-909 | each size becomes the last present option for it, or keeps its old value; nothing else changes |
| Updaters.TextSizeLastWins | internal/provider/utils.go:897-909 | the title size is the title of the last option that sets one |
| Updaters.UpdateReduceOptions | internal/provider/utils.go:911-930 | values, fields, limit and calculations each become the last present option, or keep their old value |
| Updaters.ReduceCalcsSingleton | internal/provider/utils.go:926-928 | the calculations stay when no option names one, and otherwise are the one-element list of the last option's calculation |
| Updaters.ReduceCalcsKept | internal/provider/utils.go:926-928 | with no option naming a calculation, the calculations are kept |
| Updaters.ReduceCalcsFromLast | internal/provider/utils.go:926-928 | with an option naming a calculation, the calculations are the one-element list of the last such option's calculation |
| Identifier.Fold | internal/provider/utils.go:933-943 | the result is never negative; it is the input when that is non-negative, its negation when negative, and 0 for the minimum int |
| Identifier.Hashcode | internal/provider/utils.go:933-943 | the hashcode of a CRC-32 checksum is the checksum itself, hence non-negative |
| Identifier.DecimalDigitsRoundTrip | internal/provider/timeseries_data_source.go:435 | the decimal digits of `n` have no leading zero and denote `n` |
| Identifier.IdentifierIsDecimal | internal/provider/timeseries_data_source.go:435 | the identifier is an unsigned decimal string that denotes the checksum |
| Timeseries.CopyCalculations | internal/provider/timeseries_data_source.go:290-297 | the calculations are copied in order, one for one |
| Timeseries.MergeLegend | internal/provider/timeseries_data_source.go:279-306 | the legend is `LegendOf`: the defaults, with the calculations replaced by each block that lists some and display mode and placement overridden when present |
| Timeseries.LegendOneBlock | internal/provider/timeseries_data_source.go:289-306 | with one legend block, the calculations are its own (in order) when it lists any and the defaults otherwise; display mode and placement override iff present |
| Timeseries.MergeTooltip | internal/provider/timeseries_data_source.go:285-310 | the tooltip mode is the default with no tooltip block, and otherwise the last block's mode |
| Timeseries.MergeScale | internal/provider/timeseries_data_source.go:355-363 | scale type and log each become the last present scale option, or stay |
| Timeseries.ScaleOverlayAppend | internal/provider/timeseries_data_source.go:355-363 | overlaying scale blocks in two batches is overlaying them all at once |
| Timeseries.ScaleAtMostOne | internal/provider/timeseries_data_source.go:355-363 | with at most one scale block, a present scale type or log overrides its setting and an absent one leaves it |
| Timeseries.MergeAxes | internal/provider/timeseries_data_source.go:336-364 | the custom settings become `WithAxes`: axis label, placement and soft bounds from the last present axis option, and the scale from all axes' scale blocks |
| Timeseries.AxisOneBlock | internal/provider/timeseries_data_source.go:336-364 | one axis block with at most one scale block: each present option, nested scale type and log included, overrides its setting, each absent one leaves it, and no graph setting changes |
| Timeseries.WithGraphsStep | internal/provider/timeseries_data_source.go:366-406 | one more graph block is one more `GraphStep`: each present option replaces its setting |
| Timeseries.ApplyLineSettings | internal/provider/timeseries_data_source.go:367-385 | draw style, interpolation, line width, fill opacity and gradient mode each take the block's value when present |
| Timeseries.ApplyPointSettings | internal/provider/timeseries_data_source.go:387-405 | line style fill, span nulls, show points, point size and stacking mode each take the block's value when present |
| Timeseries.MergeGraphs | internal/provider/timeseries_data_source.go:366-406 | the custom settings become `WithGraphs`: each of the ten graph settings is the last present option, or stays |
| Timeseries.GraphOneBlock | internal/provider/timeseries_data_source.go:366-406 | with one graph block, each of the ten options overrides its setting iff present, and no axis or scale setting changes |
| Timeseries.AxesAndGraphsCommute | internal/provider/timeseries_data_source.go:336-406 | axis blocks leave the graph settings unchanged and graph blocks leave the axis settings unchanged, so the two overlays commute |
| Timeseries.CustomWithoutBlocks | internal/provider/timeseries_data_source.go:314-334 | with no axis or graph block the custom settings are the defaults: graph defaults in the draw settings, line style in the fill, stack series in the stacking mode, and axis label, placement, soft bounds, scale type and log |
| Timeseries.PanelShape | internal/provider/timeseries_data_source.go:277-426 | the panel is of type "timeseries", span 12, new, with the data source's title, `createTargets` of the target blocks (one per target written), the merged legend, the last tooltip block's mode (or the default), and the whole field config equal to `createFieldConfig`'s result with the merged custom settings |
| Timeseries.TimeseriesDataSource.constructor | internal/provider/timeseries_data_source.go:20-27 | a new data source holds the zero-valued defaults |
| Timeseries.TimeseriesDataSource.Configure | internal/provider/timeseries_data_source.go:249-265 | without provider data nothing changes; with the provider's defaults their timeseries part is stored; with data of another type an error is reported and the zero defaults are stored |
| Timeseries.TimeseriesDataSource.Read | internal/provider/timeseries_data_source.go:277-435 | the panel marshalled is `PanelOf(defaults, data)`; a marshalling error yields "Client Error" / "Could not marshal json: …"; otherwise the state gets the JSON and the id `Itoa(hashcode(checksum(json)))`, an unsigned decimal string that denotes the checksum |

## Left out

- The schema builders, attribute helpers, `GetSchema` and `Metadata` are declarative framework data. Their enumeration validators are not modelled. Their one-block limits appear only as preconditions of the one-block lemmas; the merge functions themselves accept any number of blocks.
- JSON serialization (`json.MarshalIndent`) is the `marshal` parameter of `Read`. The state's JSON is the serialized bytes, where the source stores them as a string.
- The CRC-32 checksum (`crc32.ChecksumIEEE`) is the `checksum` parameter of `Read`; only the fold in `hashcode` is modelled.
- Terraform plumbing is not modelled: reading the configuration, writing the state, and the diagnostics a failed read or write of them produces.
- Float values (min, max, no-value, threshold values, range bounds) are opaque values that are only copied. No floating-point arithmetic is modelled.
- Aliasing through Go addresses is not modelled. Go keeps the address of the loop variable's min, max and no-value in the field-block loop; the schema allows at most one field block, so this cannot be observed.
- Terraform's unknown values are not modelled; an attribute value is null or known.
- A null attribute's value is left unconstrained by the model, where the framework sets it to the zero value of its type. Attributes the source reads without a null check (the target fields, the mapping items, the tooltip mode) therefore carry whatever value the null attribute has in the model.
- Nil Go slices and maps are modelled as empty sequences and maps. Examples are the legend calculations when the defaults list none, and a Prometheus target's dimensions. The JSON encoding may write a nil slice or map differently from an empty one; serialization is outside the model.
- `NewReduceOptionDefaults` (internal/provider/utils.go:70-76) is not modelled. Its record type is, but no operation of this core uses the built-in reduce defaults; the panels that seed reduce options from them are not part of this model.
- Go's `int` is taken to be 64 bits wide. Conversions from `int64` are therefore identities, and the checksum always fits.
- `Configure` reports the Go type name of unexpected provider data; the model receives that name as a string.
- The Grafana panel fields the core does not write are not modelled (identifier, grid position, editable flag and the others).
- The provider's `Defaults` record is represented only by its timeseries part.
- internal/provider/row_data_source_test.go is not part of this model: it drives the provider through Terraform itself, and the row data source is not in the core.
