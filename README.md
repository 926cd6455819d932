# BiaPy configuration checks and widget visibility, in Dafny

This project models two pieces of BiaPy-GUI and proves properties about them.

The first piece is `check_configuration(cfg, check_data_paths)` from
`biapy_check_configuration.py`, with its helper `check_value`. The function
checks a BiaPy experiment configuration, a yacs `CfgNode`. It runs as
follows:

- It collects a first batch of default overrides (the list `opts`):
  - 3D overlap and padding;
  - channel weights for `Dv2`;
  - unset resolutions.
- It checks the rules that do not depend on those defaults.
- It merges the first batch into `cfg`.
- It checks the general, workflow, data, shape and model rules.
- It collects a second batch:
  - the lower-cased chunk format;
  - the dropout and `Z_DOWN` defaults.
- It merges the second batch.
- It checks the remaining rules.

The first error raised ends the call. The merges done before it stay in
`cfg`.

The model has these parts:

- `Configuration` has a datatype per configuration section.
- `Configuration.Merge` is `merge_from_list` written as a record update.
- The class `Configuration.CfgNode` holds the configuration that
  `check_configuration` updates in place.
- `CheckRules` and `Validation` hold the rules as functions and the whole
  call as `Validation.Validate`.
- `Checker.CheckConfiguration` is the imperative method. It keeps the
  source's loops and its two `merge_from_list` calls, and is proved equal
  to `Validate`.
- `RunProperties`, `RuleProperties`, `FinalRuleProperties`, `Defaults` and
  `Rerun` prove what an accepted configuration looks like.
  - It is well shaped: every split has one overlap, padding and
    resolution per axis, the model has more than two levels, and the
    dropout and `Z_DOWN` lists fit them. A transformer has a head count
    that divides its embedding size and a patch with equal spatial extents.
  - It meets every rule read after the second merge. Each group of those
    rules is proved to pass exactly when a condition stated without the
    order of its raises holds: known activation, optimizer, loss and
    scheduler settings, an architecture on the workflow's list, augmentation
    ranges in bounds, and the close-point settings.
  - Each merge changes only its own keys.
  - Each loop passes exactly when every element is well formed.
  - Running the check a second time on its own output changes nothing. The
    exception is one multiresunet case, which the second run rejects.
  - A DETECTION configuration with `DET_WATERSHED` set is never accepted.
    Lines 196-199 raise when the first property group is not empty, and
    index into it when it is.

The second piece is `Widget_conditions` from `widget_conditions.py`.

- `conditions` is the visibility table. For each widget it names the combo
  boxes whose current text decides whether the widget is shown, and the
  texts that allow it.
- `combobox_hide_visible_action` applies the table after a combo box
  changes. It also sets widgets conditionally and copies texts.

The model has these parts:

- `WidgetConditions` is the table as a function from widgets to
  requirements. Widgets are grouped by settings section. Texts are a
  `Choice` enumeration.
- A key that the dictionary display writes twice takes its later value.
  `TableEntries` models the display's evaluation on both items of each
  repeated key and proves what the surviving entries decide. For the
  distance-channel mask it also gives an input on which the overwrite hides
  an option the first item would show.
- `Visibility` has the window as the class `Ui`, and the action as a method
  proved against the function `HideVisibleAction`.
- `VisibilityProperties` proves what the action does. The widgets reached
  are shown exactly when their entry holds. The first undeclared widget
  raises. A rule that fires sets its target unless a later one overrides it.
  Copied widgets receive the updated widget's text. A name the window
  lacks raises when the action reads or sets it.

Outside effects become parameters:

- `pathExists` stands for `os.path.exists`.
- `checkDataPaths` is the flag of the same name.
- The window's widget texts and visibilities are two maps held by `Ui`.

## Model

| member | source | states |
|---|---|---|
| Checker.CheckConfiguration | biapy_check_configuration.py:7-516 | the call returns the warnings or the first error that `Validate` gives, and leaves `cfg` as the merges before that point made it |
| Checker.FirstPassImpl | biapy_check_configuration.py:14-123 | the verdict of the rules before the first merge, and, when they pass, the first batch of `opts` in source order |
| Checker.PostProcessingPass | biapy_check_configuration.py:53-123 | once the foreground rule passed, the watershed, detection-filter, property-group and post-processing checks give the first-pass verdict |
| Checker.CheckWatershed | biapy_check_configuration.py:53-72 | the detection-watershed checks raise exactly as the watershed rules say |
| Checker.CheckFirstDilation | biapy_check_configuration.py:56-62 | the loop over structuring elements raises at the first non-list, unset or wrongly sized element |
| Checker.CheckDetectionFilters | biapy_check_configuration.py:74-79 | the DETECTION loop raises at the first property group other than a lone `circularity` |
| Checker.CheckPropertyGroups | biapy_check_configuration.py:81-106 | the nested loops over property groups and their entries raise at the first error, in source order |
| Checker.SecondPassChecksImpl | biapy_check_configuration.py:130-345 | the rules after the first merge, up to the feature-map count, give the modelled verdict |
| Checker.SecondBatchImpl | biapy_check_configuration.py:254-379 | the second batch of `opts`: chunk format, dropout and Z_DOWN defaults, or the error raised while computing them |
| Checker.FinalPassImpl | biapy_check_configuration.py:384-516 | the rules after the second merge give the modelled verdict |
| Checker.CheckUNetLevels | biapy_check_configuration.py:424-432 | the loop over U-Net levels raises at the first level whose patch extents are not divisible by 2^(level+1) |
| Checker.AllDivisible | biapy_check_configuration.py:430 | the `all([False for ...])` test holds exactly when the comprehension is empty |
| Validation.Validate | biapy_check_configuration.py:7-516 | definition of the whole call; characterised by `RunProperties.AcceptedRun`, `RunProperties.RunAccepted` and `Rerun.RevalidateIsNoOp`, and run by `Checker.CheckConfiguration` |
| Validation.FirstPassRules | biapy_check_configuration.py:40-123 | definition: the rules before the first merge, in source order; characterised by `Rerun.FirstPassReadsOnly`, run by `Checker.FirstPassImpl` |
| Validation.FirstBatch | biapy_check_configuration.py:14-51 | definition: the first batch in the order lines 14-51 extend it; characterised by `Defaults.FirstBatchPairs` and `RunProperties.FirstBatchKeys` |
| Validation.SecondPassChecks | biapy_check_configuration.py:130-345 | definition: the rules after the first merge, in source order; characterised by `RunProperties.SecondPassChecksParts` and `Rerun.SecondPassReadsOnly` |
| Validation.SecondBatch | biapy_check_configuration.py:254-379 | definition: the chunk format, dropout and Z_DOWN pairs; characterised by `Defaults.SecondBatchPairs` and `RunProperties.SecondBatchKeys` |
| Validation.SecondPass | biapy_check_configuration.py:130-379 | definition: the second-pass rules, then the second batch; characterised by `RunProperties.AcceptedRun` and `RunProperties.SecondPassShapes`, run by `Checker.SecondPassChecksImpl` and `Checker.SecondBatchImpl` |
| Validation.FinalPass | biapy_check_configuration.py:384-516 | definition: the rules after the second merge, in source order; characterised by `FinalRuleProperties.FinalPassParts`, `FinalRuleProperties.FinalPassIff` and `RunProperties.FinalPassAccepted`, run by `Checker.FinalPassImpl`, and passed by an accepted result again (`Rerun.RerunStart`) |
| Configuration.CfgNode.constructor | biapy_check_configuration.py:7 | the node holds the configuration it is given |
| Configuration.CfgNode.MergeFromList | biapy_check_configuration.py:126-128 | `merge_from_list` replaces the node's configuration by the pairs applied in order |
| Configuration.Apply | biapy_check_configuration.py:381-382 | definition: one pair sets one field; characterised by `Configuration.GetApply` and `Configuration.ApplyCurrent` |
| Configuration.Merge | biapy_check_configuration.py:126-128 | definition: the pairs applied left to right; characterised by `Configuration.MergeLatest` |
| Configuration.GetApply | biapy_check_configuration.py:381-382 | applying one pair sets its own key and no other |
| Configuration.ApplyCurrent | biapy_check_configuration.py:381-382 | writing back the value a key already has leaves the configuration unchanged |
| Configuration.MergeLatest | biapy_check_configuration.py:381-382 | after a merge, each key holds the value of its last pair in `opts`, or its old value when no pair names it |
| Configuration.ReplaceTrainGeometry | biapy_check_configuration.py:16-28 | replacing the train geometry changes nothing outside the first-batch keys |
| Configuration.ReplaceValGeometry | biapy_check_configuration.py:16-28 | replacing the validation geometry changes nothing outside the first-batch keys |
| Configuration.ReplaceTestGeometry | biapy_check_configuration.py:16-28 | replacing the test geometry changes nothing outside the first-batch keys |
| Configuration.ApplyGeometryOrWeights | biapy_check_configuration.py:14-51 | one first-batch pair changes nothing outside the first-batch keys |
| Configuration.MergeGeometryOrWeightsKeepsRest | biapy_check_configuration.py:126-128 | merging first-batch pairs changes nothing outside the first-batch keys |
| Configuration.ApplyModelOrChunking | biapy_check_configuration.py:258-369 | one second-batch pair changes nothing outside chunk format, dropout values and Z_DOWN |
| Configuration.MergeModelOrChunkingKeepsRest | biapy_check_configuration.py:381-382 | merging second-batch pairs changes nothing outside chunk format, dropout values and Z_DOWN |
| RangeCheck.CheckValueIff | biapy_check_configuration.py:519-528 | `check_value` holds exactly when the scalar, or every element of the list, lies in the closed range |
| RangeCheck.CheckValue | biapy_check_configuration.py:519-528 | definition; characterised by `CheckValueIff` |
| RangeCheck.ItemsWithin | biapy_check_configuration.py:521-525 | definition of the list loop; characterised by `RangeCheck.ItemsWithinIff` and `FinalRuleProperties.ItemsIn` |
| RangeCheck.ItemsWithinIff | biapy_check_configuration.py:521-525 | the list loop returns true exactly when no element lies outside the range |
| RangeCheck.DefaultRangeBounds | biapy_check_configuration.py:519 | the default range (0, 1) accepts both bounds and exactly the scalars between them |
| Text.RemoveAllLength | biapy_check_configuration.py:35 | `replace(t, '')` shortens the string by the length of `t` times the number of occurrences removed |
| Text.RemoveAll | biapy_check_configuration.py:35 | definition: a left-to-right pass dropping every non-overlapping occurrence; characterised by `RemoveAllLength` |
| Text.ContainsIffOccurs | biapy_check_configuration.py:32-35 | `t in s` holds exactly when the left-to-right `replace` scan finds an occurrence |
| Text.Contains | biapy_check_configuration.py:32-35 | definition; characterised by `ContainsIffOccurs` |
| Text.Lower | biapy_check_configuration.py:151 | `lower()` keeps the length and maps each character on its own |
| Text.LowerIdempotent | biapy_check_configuration.py:257-258 | lower-casing twice is lower-casing once, so the chunk format written back is what the rule compares |
| RuleProperties.ChannelsProvidedCount | biapy_check_configuration.py:31-35 | the channel count is the string length, with every `Dv2` counted as one channel when present |
| RuleProperties.InstanceChannelCounts | biapy_check_configuration.py:31-35 | the eight accepted DATA_CHANNELS settings have 2, 3, 3, 3, 1, 2, 2 and 2 channels |
| RuleProperties.FirstDilationIff | biapy_check_configuration.py:56-62 | the structuring-element loop passes exactly when every element is a list, holds no -1, and has one entry per spatial axis |
| RuleProperties.DetectionFiltersIff | biapy_check_configuration.py:74-79 | the DETECTION loop passes exactly when every property group is empty or a lone `circularity` |
| RuleProperties.PropertyEntriesIff | biapy_check_configuration.py:100-106 | the inner loop passes exactly when every entry has a known property and sign, and every circularity value is in [0, 1] |
| RuleProperties.PropertyGroupIff | biapy_check_configuration.py:81-106 | one group passes exactly when it is well formed |
| RuleProperties.PropertyGroupsIff | biapy_check_configuration.py:81-106 | the loop passes exactly when every group from the start is well formed |
| RuleProperties.ConsecutiveBroadcasts | biapy_check_configuration.py:69 | the element-wise comparison fails to broadcast exactly when there are several classes whose minimum is neither 1 nor their count |
| RuleProperties.ConsecutiveAccepted | biapy_check_configuration.py:69 | every list the consecutiveness test admits, as written, passes it |
| RuleProperties.SingleClassBelowOneRejected | biapy_check_configuration.py:69 | a single class below 1 fails the test |
| RuleProperties.ConsecutiveFromOne | biapy_check_configuration.py:69 | several classes with minimum 1 pass only as 1, 2, ..., n |
| RuleProperties.ConsecutiveBroadcastFromLast | biapy_check_configuration.py:69 | several classes with another minimum pass only when every class equals the count |
| RuleProperties.ConsecutiveOnlyAsWritten | biapy_check_configuration.py:69 | only the admitted lists pass the test |
| RuleProperties.ConsecutiveTest | biapy_check_configuration.py:69 | both directions: when the comparison raises, and exactly which lists pass |
| RuleProperties.DonutsIff | biapy_check_configuration.py:63-72 | the donut checks pass exactly when the class list is non-empty, within N_CLASSES in length and values, consecutive as written, and the patch has one value per axis |
| RuleProperties.UNetLevelsIff | biapy_check_configuration.py:424-432 | the level loop passes exactly when every level's patch extents are non-zero multiples of 2^(level+1) |
| RuleProperties.UNetLevelStep | biapy_check_configuration.py:425-430 | one level of the loop passes exactly when that level divides and the rest pass |
| RuleProperties.WarningsIff | biapy_check_configuration.py:141-283 | each warning is printed exactly when its condition holds, at most once, in the order of lines 142, 279 and 283 |
| FinalRuleProperties.ActivationIff | biapy_check_configuration.py:384-389 | the activation and upsampling checks pass exactly when both names, lower-cased, are known ones |
| FinalRuleProperties.ArchitectureIff | biapy_check_configuration.py:390-414 | the architecture checks pass exactly when the architecture is on its workflow's list (`ArchitectureAllowed`: the U-Net family or unetr for segmentation, the U-Net family without multiresunet for detection and denoising, the U-Net family or the four super-resolution networks for 2D super-resolution, the U-Net family for 3D super-resolution, those or the transformers for self-supervision, simple_cnn, vit or an efficientnet for classification) and 3D super-resolution upsamples `pre` or `post` |
| FinalRuleProperties.CubicPatchIff | biapy_check_configuration.py:420 | the patch test holds exactly when every extent but the channel one equals the first |
| FinalRuleProperties.TransformerAccepted | biapy_check_configuration.py:415-421 | for unetr, vit and mae the checks pass exactly when mae is used only for self-supervision, VIT_NUM_HEADS is non-zero and divides VIT_EMBED_DIM, and every spatial extent of the patch equals the first; any other architecture passes |
| FinalRuleProperties.TrainIff | biapy_check_configuration.py:434-451 | the training checks pass exactly when the optimizer and loss are known and the scheduler is absent, or known with a minimum learning rate (unless onecycle), a set patience below TRAIN.PATIENCE (reduceonplateau) and set decay epochs (warmupcosine) |
| FinalRuleProperties.ItemsIn | biapy_check_configuration.py:521-525 | `check_value` on a list is the closed-range test of every element |
| FinalRuleProperties.TransformationsIff | biapy_check_configuration.py:455-496 | the transformation checks pass exactly when the probability is in [0, 1], every enabled transformation's ranges lie within the bounds `check_value` is given, elastic uses a known mode, and every enabled intensity transformation has a 2D or 3D mode in 3D problems |
| FinalRuleProperties.GridMaskIff | biapy_check_configuration.py:497-506 | the grid-mask checks pass exactly when the grid mask is off, or its ratio and rotation are in [0, 1] and GRID_D_RANGE has at least two distances in [0, 1], the first below the second |
| FinalRuleProperties.AugmentationIff | biapy_check_configuration.py:453-506 | the augmentation checks pass exactly when the augmentor is off, or both the transformation and the grid-mask conditions of `TransformationsIff` and `GridMaskIff` hold |
| FinalRuleProperties.ClosePointsIff | biapy_check_configuration.py:509-516 | the close-point checks pass exactly when removal is off, or the test resolution has one entry per axis and is not of length one, and the first radius exists and is not -1 |
| FinalRuleProperties.FinalPassParts | biapy_check_configuration.py:384-516 | the final rules pass exactly when every group passes, the U-Net level loop counting only for the U-Net family |
| FinalRuleProperties.FinalPassIff | biapy_check_configuration.py:384-516 | the final rules pass exactly when `FinalRulesHold`: the conjunction of the acceptance conditions of the group lemmas above and every U-Net level dividing the patch |
| CheckRules.Repeat | biapy_check_configuration.py:358-369 | `(x,)*n` has max(n, 0) elements, all equal to `x` |
| CheckRules.FalseForInvalidZDown | biapy_check_configuration.py:373 | the comprehension yields only `False`, so `any` of it never holds |
| CheckRules.FalseForIndivisible | biapy_check_configuration.py:430 | the comprehension yields only `False`, and is empty exactly when every size is a non-zero multiple of the divisor |
| CheckRules.Inner | biapy_check_configuration.py:427 | `p[1:-1]` has two elements fewer than `p`, none when `p` has at most one, and its k-th element is `p[k+1]` |
| CheckRules.ButLast | biapy_check_configuration.py:429 | `p[:-1]` has one element fewer than `p`, none when `p` is empty, and its k-th element is `p[k]` |
| CheckRules.Range | biapy_check_configuration.py:69 | `range(lo, hi)` counts up from `lo` to just below `hi` |
| CheckRules.ChannelsProvided | biapy_check_configuration.py:31-35 | definition; characterised by `RuleProperties.ChannelsProvidedCount` and `RuleProperties.InstanceChannelCounts` |
| CheckRules.ElementwiseEqual | biapy_check_configuration.py:69 | definition of NumPy's comparison; characterised by `RuleProperties.ConsecutiveBroadcasts` and `RuleProperties.ConsecutiveTest` |
| CheckRules.HasDuplicates | biapy_check_configuration.py:98 | definition; characterised by `RuleProperties.PropertyGroupIff` |
| CheckRules.ByChunksRules | biapy_check_configuration.py:254-261 | on success the chunking rules add at most one pair, and only for the chunk format |
| CheckRules.DropoutDefaults | biapy_check_configuration.py:348-362 | on success the dropout rules add at most one pair, and only for the dropout values |
| CheckRules.ZDownDefaults | biapy_check_configuration.py:364-379 | on success the Z_DOWN rules add at most one pair, and only for Z_DOWN |
| CheckRules.DimensionDefaults | biapy_check_configuration.py:16-28 | definition: the 3D overlap and padding defaults; characterised by `Defaults.DimensionPairs` |
| CheckRules.ChannelWeightDefaults | biapy_check_configuration.py:30-38 | definition: the `Dv2` channel-weight default; characterised by `Defaults.WeightPairs` |
| CheckRules.ResolutionDefaults | biapy_check_configuration.py:46-51 | definition: the unset-resolution defaults; characterised by `Defaults.ResolutionPairs` |
| CheckRules.ForegroundRule | biapy_check_configuration.py:40-44 | definition; run by `Checker.FirstPassImpl`, and read only through the fields `Rerun.FirstPassReadsOnly` names |
| CheckRules.FirstDilationRules | biapy_check_configuration.py:56-62 | definition; characterised by `RuleProperties.FirstDilationIff`, run by `Checker.CheckFirstDilation` |
| CheckRules.DonutsRules | biapy_check_configuration.py:64-72 | definition; characterised by `RuleProperties.DonutsIff` |
| CheckRules.WatershedRules | biapy_check_configuration.py:53-72 | definition; run by `Checker.CheckWatershed` |
| CheckRules.DetectionFiltersFrom | biapy_check_configuration.py:74-79 | definition; characterised by `RuleProperties.DetectionFiltersIff` |
| CheckRules.PropertyEntriesFrom | biapy_check_configuration.py:100-106 | definition; characterised by `RuleProperties.PropertyEntriesIff` |
| CheckRules.PropertyGroup | biapy_check_configuration.py:81-106 | definition; characterised by `RuleProperties.PropertyGroupIff` |
| CheckRules.PropertyGroupsFrom | biapy_check_configuration.py:81-106 | definition; characterised by `RuleProperties.PropertyGroupsIff` |
| CheckRules.PostProcessingRules | biapy_check_configuration.py:108-123 | definition; run by `Checker.PostProcessingPass` |
| CheckRules.GeneralRules | biapy_check_configuration.py:130-150 | definition; characterised by `RunProperties.GeneralAccepted` and `Rerun.GeneralRulesReadOnly` |
| CheckRules.SemanticRules | biapy_check_configuration.py:153-158 | definition; characterised by `Rerun.SegmentationRulesReadOnly` |
| CheckRules.InstanceRules | biapy_check_configuration.py:161-186 | definition; characterised by `RunProperties.InstanceWeightsAccepted` and `Rerun.InstanceRulesReadOnly` |
| CheckRules.DetectionRules | biapy_check_configuration.py:189-201 | definition; characterised by `RunProperties.WatershedDetectionRejected` and `Rerun.DetectionRulesReadOnly` |
| CheckRules.SuperResolutionRules | biapy_check_configuration.py:204-207 | definition; characterised by `Rerun.OtherWorkflowRulesReadOnly` |
| CheckRules.SelfSupervisedRules | biapy_check_configuration.py:210-220 | definition; characterised by `Rerun.OtherWorkflowRulesReadOnly` |
| CheckRules.DenoisingRules | biapy_check_configuration.py:222-226 | definition; characterised by `Rerun.OtherWorkflowRulesReadOnly` |
| CheckRules.ClassificationRules | biapy_check_configuration.py:229-231 | definition; characterised by `Rerun.OtherWorkflowRulesReadOnly` |
| CheckRules.WorkflowRules | biapy_check_configuration.py:152-231 | definition: the subtree PROBLEM.TYPE selects; characterised by `Rerun.WorkflowRulesFromParts` |
| CheckRules.PreprocessingRule | biapy_check_configuration.py:234-236 | definition; characterised by `Rerun.DataRulesReadOnly` |
| CheckRules.DataPathRules | biapy_check_configuration.py:239-253 | definition; characterised by `Rerun.DataRulesReadOnly` |
| CheckRules.TrainDataRules | biapy_check_configuration.py:262-272 | definition; characterised by `Rerun.DataRulesReadOnly` |
| CheckRules.CrossValRules | biapy_check_configuration.py:273-283 | definition; characterised by `Rerun.DataRulesReadOnly` |
| CheckRules.ShapeRules | biapy_check_configuration.py:284-326 | definition; characterised by `RunProperties.ShapeAccepted` and `RunProperties.SplitShapeAccepted` |
| CheckRules.SplitShapeRules | biapy_check_configuration.py:291-314 | definition; characterised by `RunProperties.SplitShapeAccepted` |
| CheckRules.NormalizationRules | biapy_check_configuration.py:327-333 | definition; characterised by `Rerun.DataRulesReadOnly` |
| CheckRules.ModelRules | biapy_check_configuration.py:336-345 | definition; characterised by `RunProperties.ModelAccepted` and `Rerun.ModelAndChunkingReadOnly` |
| CheckRules.ActivationRules | biapy_check_configuration.py:384-389 | definition; characterised by `FinalRuleProperties.ActivationIff`, run by `Checker.FinalPassImpl` |
| CheckRules.ArchitectureRules | biapy_check_configuration.py:390-414 | definition; characterised by `FinalRuleProperties.ArchitectureIff`, run by `Checker.FinalPassImpl` |
| CheckRules.TransformerRules | biapy_check_configuration.py:415-421 | definition; characterised by `FinalRuleProperties.TransformerAccepted`, run by `Checker.FinalPassImpl` |
| CheckRules.CubicPatch | biapy_check_configuration.py:420 | definition; characterised by `FinalRuleProperties.CubicPatchIff` |
| CheckRules.UNetLevelsFrom | biapy_check_configuration.py:424-432 | definition; characterised by `RuleProperties.UNetLevelsIff` and `RuleProperties.UNetLevelStep` |
| CheckRules.LevelSizes | biapy_check_configuration.py:426-429 | definition: the extents one level checks; characterised through `RuleProperties.LevelDivides` by `RuleProperties.UNetLevelsIff` |
| CheckRules.TrainRules | biapy_check_configuration.py:434-451 | definition; characterised by `FinalRuleProperties.TrainIff`, run by `Checker.FinalPassImpl` |
| CheckRules.AugmentationRules | biapy_check_configuration.py:453-506 | definition: nothing unless the augmentor is enabled, then the transformations, then the grid mask; characterised by `FinalRuleProperties.AugmentationIff`, run by `Checker.FinalPassImpl` |
| CheckRules.TransformationRules | biapy_check_configuration.py:455-496 | definition; characterised by `FinalRuleProperties.TransformationsIff` |
| CheckRules.GridMaskRules | biapy_check_configuration.py:497-506 | definition; characterised by `FinalRuleProperties.GridMaskIff` |
| CheckRules.BadMode | biapy_check_configuration.py:467-477 | definition; characterised by `FinalRuleProperties.AugmentationIff` (an enabled intensity transformation needs a 2D or 3D mode only in 3D) |
| CheckRules.ClosePointsRules | biapy_check_configuration.py:509-516 | definition; characterised by `FinalRuleProperties.ClosePointsIff`, run by `Checker.FinalPassImpl` |
| CheckRules.Warnings | biapy_check_configuration.py:141-283 | definition; characterised by `RuleProperties.WarningsIff` |
| Defaults.DimensionPairs | biapy_check_configuration.py:16-28 | the 3D defaults name each overlap and padding key at most once, with its lifted value |
| Defaults.WeightPairs | biapy_check_configuration.py:30-38 | the channel-weight default names only the channel-weight key |
| Defaults.ResolutionPairs | biapy_check_configuration.py:46-51 | the resolution defaults name each resolution key at most once, and only when it holds the unset sentinel |
| Defaults.FirstBatchPairs | biapy_check_configuration.py:14-51 | the pairs of the first batch for any key are exactly that key's default |
| Defaults.FirstMergeEffect | biapy_check_configuration.py:126-128 | after the first merge every key holds its first-batch default if one fired, else its old value |
| Defaults.SecondBatchPairs | biapy_check_configuration.py:254-379 | the second batch's pairs for a key are those of the chunk, dropout or Z_DOWN rule, and none for other keys |
| Defaults.ChunkFormatLatest | biapy_check_configuration.py:257-258 | the chunk format ends up lower-cased when chunking is on |
| Defaults.DropoutLatest | biapy_check_configuration.py:348-362 | the dropout values end up as the default they were filled with, or unchanged |
| Defaults.ZDownLatest | biapy_check_configuration.py:364-369 | Z_DOWN ends up as the default it was filled with, or unchanged |
| Defaults.SecondMergeEffect | biapy_check_configuration.py:381-382 | after the second merge every key holds its second-batch value |
| Defaults.DropoutAccepted | biapy_check_configuration.py:348-362 | the dropout rules pass exactly when the values are all zero, or are a single in-range value for transformers, or match the feature-map count for the others |
| Defaults.DropoutRangeBeforeLength | biapy_check_configuration.py:355-362 | outside transformers, a dropout list of the wrong length raises the range error when a value is out of range, and the length error otherwise |
| Defaults.ZDownAccepted | biapy_check_configuration.py:364-379 | the Z_DOWN rules pass exactly when Z_DOWN is all zero, or is all ones for 3D super-resolution, has length 4 for multiresunet, and is one shorter than the feature maps |
| Defaults.ZDownNeverRejectedAsInvalid | biapy_check_configuration.py:373-374 | the "1 or 2" test never raises |
| RunProperties.AcceptedRun | biapy_check_configuration.py:7-516 | an accepted call passed every phase, and its result is the twice-merged configuration with its warnings |
| RunProperties.RunAccepted | biapy_check_configuration.py:7-516 | conversely, passing every phase makes the call accept |
| RunProperties.SecondPassChecksParts | biapy_check_configuration.py:130-345 | passing the second-pass rules means passing each of its rule groups |
| RunProperties.GeneralAccepted | biapy_check_configuration.py:130-133 | accepted configurations are 2D or 3D and of a known workflow |
| RunProperties.InstanceWeightsAccepted | biapy_check_configuration.py:164-167 | an accepted instance-segmentation configuration has one weight per channel |
| RunProperties.ChunkingAccepted | biapy_check_configuration.py:254-261 | chunked inference is accepted only from H5 or Zarr |
| RunProperties.SplitShapeAccepted | biapy_check_configuration.py:284-326 | a split that passes the shape rules has overlaps in [0, 1] and one overlap and one padding per axis |
| RunProperties.ShapeAccepted | biapy_check_configuration.py:284-326 | every split is well shaped, and the patch has one more value than the axes |
| RunProperties.ModelAccepted | biapy_check_configuration.py:345 | accepted models have more than two feature-map levels |
| RunProperties.SecondPassShapes | biapy_check_configuration.py:130-345 | the second-pass rules leave the configuration in the shape the second merge completes |
| RunProperties.SecondBatchKeys | biapy_check_configuration.py:258-369 | the second batch names only chunk format, dropout values and Z_DOWN |
| RunProperties.SecondMergeShapes | biapy_check_configuration.py:381-382 | the second merge gives such a configuration the lengths and ranges of a well-shaped one |
| RunProperties.AcceptedIsWellShaped | biapy_check_configuration.py:7-516 | an accepted configuration ends up well shaped: one entry per axis in every tuple, overlaps in [0, 1], a channel axis on the patch, one Z_DOWN entry per level, dropout that fits the architecture, one weight per instance channel, a supported chunk format and, for a transformer, a head count dividing the embedding size and a cubic patch |
| RunProperties.FinalPassTransformer | biapy_check_configuration.py:415-421 | a configuration the final rules pass meets the transformer constraints |
| RunProperties.FinalPassAccepted | biapy_check_configuration.py:384-516 | every accepted configuration satisfies `FinalRulesHold`: known activation, upsampling, optimizer, loss and scheduler settings, an architecture its workflow allows, the transformer constraints, a patch every U-Net level halves, augmentation ranges in bounds and the close-point settings |
| RunProperties.FirstBatchKeys | biapy_check_configuration.py:14-51 | the first batch names only overlaps, paddings, resolutions and channel weights |
| RunProperties.FirstMergeFrame | biapy_check_configuration.py:126-128 | the first merge leaves every other key alone |
| RunProperties.WatershedDetectionRejected | biapy_check_configuration.py:192-199 | a DETECTION configuration with DET_WATERSHED fails the detection rules |
| RunProperties.DetectionWatershedNeverAccepted | biapy_check_configuration.py:192-199 | such a configuration is never accepted, whatever else it holds |
| Rerun.MergeSettled | biapy_check_configuration.py:381-382 | merging pairs that hold the current values changes nothing |
| Rerun.NoFirstDefaults | biapy_check_configuration.py:14-51 | no first-batch default fires when no key holds its sentinel |
| Rerun.WellShapedHasNoSentinels | biapy_check_configuration.py:14-51 | a well-shaped configuration holds none of those sentinels |
| Rerun.FirstPassReadsOnly | biapy_check_configuration.py:40-123 | the first-pass rules read only dimension, workflow, post-processing, the 2D-as-3D flag, the foreground fraction and N_CLASSES |
| Rerun.GeneralRulesReadOnly | biapy_check_configuration.py:130-150 | the general rules give the same verdict on configurations that agree outside the second batch |
| Rerun.SegmentationRulesReadOnly | biapy_check_configuration.py:152-201 | so do the semantic, instance and detection rules |
| Rerun.InstanceRulesReadOnly | biapy_check_configuration.py:161-186 | so do the instance-segmentation rules |
| Rerun.DetectionRulesReadOnly | biapy_check_configuration.py:189-201 | so do the detection rules |
| Rerun.OtherWorkflowRulesReadOnly | biapy_check_configuration.py:204-231 | so do the super-resolution, self-supervised, denoising and classification rules |
| Rerun.WorkflowRulesFromParts | biapy_check_configuration.py:152-231 | the workflow verdict depends only on the workflow and its subtree's verdict |
| Rerun.ModelAndChunkingReadOnly | biapy_check_configuration.py:254-345 | the chunking and model rules give the same verdict on such configurations |
| Rerun.DataRulesReadOnly | biapy_check_configuration.py:233-333 | so do the pre-processing, data-path, training-data, cross-validation, shape and normalization rules |
| Rerun.SecondPassReadsOnly | biapy_check_configuration.py:130-345 | the whole second pass gives the same verdict on such configurations |
| Rerun.ChunksSettled | biapy_check_configuration.py:254-261 | after the second merge, the chunk rule would write back only the value already there |
| Rerun.DropoutSettled | biapy_check_configuration.py:348-362 | after the second merge, the dropout rule would write back only the value already there |
| Rerun.ZDownAfterMerge | biapy_check_configuration.py:364-369 | the second merge keeps workflow, architecture and feature maps, and sets Z_DOWN to its filled value |
| Rerun.ZDownSettled | biapy_check_configuration.py:364-379 | outside the multiresunet refill case, the Z_DOWN rule then adds nothing |
| Rerun.ZDownRefillRejected | biapy_check_configuration.py:376-377 | in that case the filled Z_DOWN is rejected at line 377 |
| Rerun.SecondBatchSettled | biapy_check_configuration.py:254-379 | outside that case, the second batch of the merged configuration only writes back current values |
| Rerun.SecondMergeFrame | biapy_check_configuration.py:381-382 | the second merge keeps everything the second-pass rules read |
| Rerun.AcceptedFrames | biapy_check_configuration.py:7-516 | an accepted call's intermediate configuration agrees with the input outside the first batch, and with the result outside the second |
| Rerun.RerunStart | biapy_check_configuration.py:7-516 | the result of an accepted call passes the first pass with no defaults, and passes the other rule groups |
| Rerun.RevalidateIsNoOp | biapy_check_configuration.py:7-516 | outside the multiresunet refill case, checking an accepted result again gives the same result |
| Rerun.MultiResUNetRevalidateFails | biapy_check_configuration.py:376-377 | in that case checking the result again raises at line 377 |
| Visibility.ComboboxHideVisibleAction | widget_conditions.py:1876-1942 | the method leaves the window's texts and visibilities, and returns the outcome, that `HideVisibleAction` gives |
| Visibility.ShowHideLoop | widget_conditions.py:1916-1929 | the loop changes only visibilities, stopping at the first undeclared widget, as `ShowHide` says |
| Visibility.EntryHolds | widget_conditions.py:1917-1927 | the inner loop decides `visible` exactly when every requirement holds |
| Visibility.SetRulesLoop | widget_conditions.py:1932-1936 | the conditional sets leave the texts, and return the outcome, that `ApplySetRules` gives |
| Visibility.CopyValueLoop | widget_conditions.py:1938-1942 | the copies leave the texts, and return the outcome, that `CopyValue` gives |
| Visibility.ApplySetRules | widget_conditions.py:1933-1936 | the window keeps its set of widgets, and the only error is a firing target the window lacks; characterised by `SetRulesOutcome`, `LaterRuleWins` and `UnfiredTargetKept` |
| Visibility.CopyValue | widget_conditions.py:1940-1942 | the window keeps its set of widgets, and the only error is a listed widget the window lacks; characterised by `CopyValueOutcome` and `CopyValueSets` |
| Visibility.ConditionalSets | widget_conditions.py:1932-1936 | nothing happens unless both `updated_widget` and the rules are given; the window keeps its widgets and the only error is a missing attribute |
| Visibility.Copies | widget_conditions.py:1939-1942 | nothing happens unless both `updated_widget` and `widgets_to_set` are given; the window keeps its widgets and the only error is a missing attribute |
| Visibility.Declared | widget_conditions.py:1919-1920 | a name the table does not write has no entry, and a widget the table names has the table's entry |
| Visibility.Holds | widget_conditions.py:1924-1925 | definition: the controller's current text is one of the allowed ones; characterised by `Visibility.EntryHolds` |
| Visibility.AllHold | widget_conditions.py:1923-1927 | definition; characterised by `Visibility.EntryHolds` and `VisibilityProperties.ShowHideDecides` |
| Visibility.Fires | widget_conditions.py:1935 | definition; characterised by `VisibilityProperties.SetRulesOutcome` and `VisibilityProperties.LaterRuleWins` |
| Visibility.ShowHide | widget_conditions.py:1916-1929 | definition; characterised by `ShowHideOutcome`, `ShowHideFrame` and `ShowHideDecides` |
| Visibility.HideVisibleAction | widget_conditions.py:1911-1942 | definition; characterised by `ActionErrors`, `ActionAttributes`, `ActionVisibility` and `ActionTexts` |
| Visibility.Ui.constructor | widget_conditions.py:1924 | the window starts with the texts and visibilities given |
| Visibility.Ui.SetVisible | widget_conditions.py:1929 | `setVisible` changes that widget's visibility and nothing else |
| Visibility.Ui.SetCurrentText | widget_conditions.py:1936 | `setCurrentText` changes that widget's text and nothing else |
| VisibilityProperties.FirstUndeclared | widget_conditions.py:1919-1920 | the position of the first widget without an entry: every widget before it has one |
| VisibilityProperties.ShowHideOutcome | widget_conditions.py:1916-1920 | the loop raises for the first undeclared widget, and passes when there is none |
| VisibilityProperties.ShowHideFrame | widget_conditions.py:1916-1929 | only widgets reached before the raise change visibility |
| VisibilityProperties.ShowHideDecides | widget_conditions.py:1916-1929 | each widget reached is visible exactly when its entry holds on the texts before the call |
| VisibilityProperties.OtherNameNotDeclared | widget_conditions.py:1919-1920 | a name the table does not write, listed after declared widgets only, raises "not declared" |
| VisibilityProperties.SetRulesOutcome | widget_conditions.py:1933-1936 | the conditional sets pass exactly when the window has the target of every rule that fires, and otherwise raise at such a target |
| VisibilityProperties.LaterRuleWins | widget_conditions.py:1933-1936 | when the sets pass, a rule that fires sets its target unless a later firing rule sets the same target |
| VisibilityProperties.UnfiredTargetKept | widget_conditions.py:1933-1936 | a widget no firing rule targets keeps its text, whether the sets pass or raise |
| VisibilityProperties.CopyValueOutcome | widget_conditions.py:1940-1942 | the copies pass exactly when the window has every listed widget, and otherwise raise at one it lacks |
| VisibilityProperties.CopyValueSets | widget_conditions.py:1940-1942 | when the copies pass, listed widgets receive the value; a widget not listed keeps its text in any case |
| VisibilityProperties.ActionErrors | widget_conditions.py:1911-1920 | the call raises for missing `updated_widget` exactly when conditional sets are given without it, otherwise for the first undeclared widget, and neither raise sets a text |
| VisibilityProperties.ActionAttributes | widget_conditions.py:1931-1942 | once the loop passed, the call passes exactly when the window has the updated widget, every firing target and every widget to set, and otherwise raises at a name it lacks |
| VisibilityProperties.ActionVisibility | widget_conditions.py:1916-1929 | within the whole call, reached widgets are shown exactly when their entry holds, and the others keep their visibility |
| VisibilityProperties.ActionTexts | widget_conditions.py:1931-1942 | the window keeps its widgets, only rule targets and listed widgets change text, and when the call passes the listed ones receive the updated widget's text after the conditional sets |
| TableEntries.Display | widget_conditions.py:15-1874 | the dictionary display has exactly the keys its items name |
| TableEntries.LaterItemWins | widget_conditions.py:15-1874 | an item whose key no later item repeats gives that key its value |
| TableEntries.RepeatedKey | widget_conditions.py:15-1874 | a key written twice keeps only the second value |
| WidgetConditions.ConditionOf | widget_conditions.py:15-1874 | definition: the table's last-wins value for each key; characterised by the `Entry`, `Displayed` and `Follows` lemmas below |
| TableEntries.DistanceChannelMaskItems | widget_conditions.py:1279-1294 | definition: the two items of the distance-channel mask as written (the second at lines 1419-1428); characterised by `DistanceChannelMaskDisplayed` |
| TableEntries.ClosePointsRadiusLabelItems | widget_conditions.py:1345-1351 | definition: the two items of the radius label as written (the second at lines 1519-1525); characterised by `ClosePointsRadiusLabelDisplayed` |
| TableEntries.ClosePointsRadiusInputItems | widget_conditions.py:1352-1358 | definition: the two items of the radius input as written (the second at lines 1526-1532); characterised by `ClosePointsRadiusInputDisplayed` |
| TableEntries.MaeDecoderHiddenSizeItems | widget_conditions.py:1811-1817 | definition: the two items of the decoder hidden size as written (the second at lines 1860-1866); characterised by `MaeDecoderHiddenSizeDisplayed` |
| TableEntries.SingleRequirement | widget_conditions.py:1923-1927 | an entry with one requirement holds exactly when its controller shows an allowed text |
| TableEntries.ClosePointsRadiusLabelEntry | widget_conditions.py:1519-1525 | the radius label's entry is the later one: the close-points switch must show "Yes" |
| TableEntries.ClosePointsRadiusLabelDisplayed | widget_conditions.py:1345-1351 | the table's entry for the radius label is what its two written items evaluate to |
| TableEntries.ClosePointsRadiusLabelFollowsSwitch | widget_conditions.py:1519-1525 | the radius label is shown exactly when the close-points switch shows "Yes", whatever the instance channels |
| TableEntries.ClosePointsRadiusInputEntry | widget_conditions.py:1526-1532 | the radius input's entry is the later one |
| TableEntries.ClosePointsRadiusInputDisplayed | widget_conditions.py:1352-1358 | the table's entry for the radius input is what its two written items evaluate to |
| TableEntries.ClosePointsRadiusInputFollowsSwitch | widget_conditions.py:1526-1532 | the radius input is shown exactly when the close-points switch shows "Yes" |
| TableEntries.DistanceChannelMaskEntry | widget_conditions.py:1419-1428 | the distance-channel mask's entry is the later one, with four channel settings and no threshold-type requirement |
| TableEntries.DistanceChannelMaskDisplayed | widget_conditions.py:1279-1294 | the table's entry for that option is what its two written items evaluate to: the first (five channel settings and a threshold type of "manual" or "auto") and the second of lines 1419-1428 |
| TableEntries.DistanceChannelMaskOverwriteHides | widget_conditions.py:1279-1294 | what the overwrite changes: with the channels at "Distance map with background (experimental)" and the threshold type at "manual", the first item holds but the table's entry does not, so the option stays hidden |
| TableEntries.DistanceChannelMaskFollowsChannels | widget_conditions.py:1419-1428 | the option is shown exactly when the instance channels are one of the four distance-map settings |
| TableEntries.MaeDecoderHiddenSizeEntry | widget_conditions.py:1860-1866 | the decoder hidden size is shown for the MAE architecture |
| TableEntries.MaeDecoderHiddenSizeDisplayed | widget_conditions.py:1811-1817 | its two identical items evaluate to the table's entry |

## Left out

- `main.py` and the rest of the GUI are not part of this model. Only the table and the action are modelled.
- `frames_to_hide_if_empty` (widget_conditions.py:1944-1953) is not modelled. The action takes no such argument.
- Qt signals are not modelled. Setting a combo box's text in the real window can call the action again; here `setCurrentText` only changes the text.
- `Visibility.Ui.SetCurrentText`: does not model `QComboBox` refusing a text that is not one of its items.
- The window is assumed to have every widget the table names (`Covers`), so reading a controller's text never fails. A name the table does not write may be missing from the window; `getattr` of a missing name raises `NoAttribute`.
- A name the table does not write is `Other(s)`. The model does not check that `s` differs from the spelling of every widget the table names.
- Every widget of the window has a text here. A Qt widget without `currentText`, such as a label passed as `updated_widget`, would raise an `AttributeError` at line 1933 or 1940; that is not modelled.
- Only the table's values are modelled. The order of its keys, which for a repeated key is the first occurrence's place, plays no part in the action.
- `Configuration.CfgNode.MergeFromList`: yacs type coercion and its checks on unknown keys are not modelled. A merge is a plain update of the named fields.
- Filesystem access: `os.path.exists` is the parameter `pathExists`.
- Printing: the warnings are returned only when the call passes, although the source prints them as it goes.
- Floating-point values are Dafny reals, so rounding is not modelled. Line 235 compares the sum exactly.
- `Text.Lower`: lower-cases ASCII letters only. Python's `lower()` also folds other Unicode letters.
- Line 69 compares arrays with NumPy broadcasting. The model keeps that as written, so some non-consecutive lists also pass (`RuleProperties.ConsecutiveTest` says which). NumPy 1.25 or later is assumed: a comparison that cannot broadcast raises `ValueError` (`CheckRules.ElementwiseEqual`). Older NumPy returns `False` instead, and `all(False)` then raises `TypeError`.
- Line 385 formats an undefined name `activation`, so the failed assertion surfaces as a `NameError`. The model raises `NameError` there.
- Line 1913 compares `updated_widget` with `None` twice and can never raise, so it has no counterpart.
- Python exceptions other than those the modelled code raises are not modelled. Examples: a configuration attribute missing from `cfg`, or a wrong type where no `isinstance` check is made.
