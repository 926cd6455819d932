/** `check_configuration` as the source runs it: the configuration object
    is updated in place by two `merge_from_list` calls, `opts` is a local
    list extended block by block and emptied after the first merge, and the
    loops over structuring elements, property groups and U-Net levels are
    loops. Each piece is proved equal to its counterpart in `Validation`. */
module Checker {
  import opened Outcomes
  import opened Text
  import opened Configuration
  import opened CheckRules
  import opened Validation

  /** The loop at lines 56-62. */
  method CheckFirstDilation(xs: seq<Structure>, dim: nat) returns (v: Verdict)
    ensures v == FirstDilationRules(xs, dim)
  {
    var i := 0;
    while i < |xs|
      invariant 0 <= i <= |xs|
      invariant FirstDilationRules(xs[i..], dim) == FirstDilationRules(xs, dim)
    {
      var x := xs[i];
      if x.AsTuple? {
        return Raise(ValueError, "TEST.POST_PROCESSING.DET_WATERSHED_FIRST_DILATION", 58);
      }
      if -1 in x.items {
        return Raise(ValueError, "TEST.POST_PROCESSING.DET_WATERSHED_FIRST_DILATION", 60);
      }
      if |x.items| != dim {
        return Raise(ValueError, "TEST.POST_PROCESSING.DET_WATERSHED_FIRST_DILATION", 62);
      }
      assert xs[i..][1..] == xs[i + 1..];
      i := i + 1;
    }
    return Pass;
  }

  /** The DETECTION loop at lines 75-79. */
  method CheckDetectionFilters(props: seq<seq<string>>) returns (v: Verdict)
    ensures v == DetectionFiltersFrom(props, 0)
  {
    var i := 0;
    while i < |props|
      invariant 0 <= i <= |props|
      invariant DetectionFiltersFrom(props, i) == DetectionFiltersFrom(props, 0)
    {
      if |props[i]| > 1 {
        return Raise(ValueError, "TEST.POST_PROCESSING.REMOVE_BY_PROPERTIES", 77);
      }
      if |props[i]| == 1 && props[i][0] != "circularity" {
        return Raise(ValueError, "TEST.POST_PROCESSING.REMOVE_BY_PROPERTIES", 79);
      }
      i := i + 1;
    }
    return Pass;
  }

  /** The nested loops at lines 81-106. */
  method CheckPropertyGroups(pp: PostProcessing, ptype: string) returns (v: Verdict)
    ensures v == PropertyGroupsFrom(pp, ptype, 0)
  {
    var i := 0;
    while i < |pp.removeByProperties|
      invariant 0 <= i <= |pp.removeByProperties|
      invariant PropertyGroupsFrom(pp, ptype, i) == PropertyGroupsFrom(pp, ptype, 0)
    {
      var names := pp.removeByProperties[i];
      if |names| == 0 {
        return Raise(ValueError, "TEST.POST_PROCESSING.REMOVE_BY_PROPERTIES", 85);
      }
      if i >= |pp.removeByPropertiesValues| {
        return Raise(IndexError, "TEST.POST_PROCESSING.REMOVE_BY_PROPERTIES_VALUES", 83);
      }
      var values := pp.removeByPropertiesValues[i];
      if |values| == 0 {
        return Raise(ValueError, "TEST.POST_PROCESSING.REMOVE_BY_PROPERTIES", 85);
      }
      if i >= |pp.removeByPropertiesSign| {
        return Raise(IndexError, "TEST.POST_PROCESSING.REMOVE_BY_PROPERTIES_SIGN", 84);
      }
      var signs := pp.removeByPropertiesSign[i];
      if |signs| == 0 {
        return Raise(ValueError, "TEST.POST_PROCESSING.REMOVE_BY_PROPERTIES", 85);
      }
      if !(|names| == |values| == |signs|) {
        return Raise(ValueError, "TEST.POST_PROCESSING.REMOVE_BY_PROPERTIES", 91);
      }
      if |names| > 0 && ptype !in ["INSTANCE_SEG", "DETECTION"] {
        return Raise(ValueError, "TEST.POST_PROCESSING.REMOVE_BY_PROPERTIES", 95);
      }
      if HasDuplicates(names) {
        return Raise(ValueError, "TEST.POST_PROCESSING.REMOVE_BY_PROPERTIES", 99);
      }
      var j := 0;
      while j < |names|
        invariant 0 <= j <= |names|
        invariant PropertyEntriesFrom(names, values, signs, j) == PropertyEntriesFrom(names, values, signs, 0)
      {
        if names[j] !in PropertyNames {
          return Raise(ValueError, "TEST.POST_PROCESSING.REMOVE_BY_PROPERTIES", 102);
        }
        if signs[j] !in PropertySigns {
          return Raise(ValueError, "TEST.POST_PROCESSING.REMOVE_BY_PROPERTIES_SIGN", 104);
        }
        if names[j] == "circularity" && !(0.0 <= values[j] <= 1.0) {
          return Raise(ValueError, "TEST.POST_PROCESSING.REMOVE_BY_PROPERTIES_VALUES", 106);
        }
        j := j + 1;
      }
      i := i + 1;
    }
    return Pass;
  }

  /** The list comprehension of line 430: every extent is a non-zero
      multiple of `d`. */
  method AllDivisible(sizes: seq<int>, d: int) returns (b: bool)
    requires d > 0
    ensures b == AllTrue(FalseForIndivisible(sizes, d))
  {
    var k := 0;
    b := true;
    while k < |sizes|
      invariant 0 <= k <= |sizes|
      invariant b <==> forall m :: 0 <= m < k ==> sizes[m] % d == 0 && sizes[m] != 0
    {
      if sizes[k] % d != 0 || sizes[k] == 0 {
        b := false;
      }
      k := k + 1;
    }
    var r := FalseForIndivisible(sizes, d);
    assert AllTrue(r) <==> |r| == 0 by {
      if |r| > 0 {
        assert !r[0];
      }
    }
  }

  /** The loop at lines 425-432. */
  method CheckUNetLevels(c: Config) returns (v: Verdict)
    ensures v == UNetLevelsFrom(c, 0)
  {
    var i := 0;
    var scale := 2;
    while i + 1 < |c.model.featureMaps|
      invariant scale == Pow2(i + 1)
      invariant UNetLevelsFrom(c, i) == UNetLevelsFrom(c, 0)
      decreases |c.model.featureMaps| - i
    {
      if i >= |c.model.zDown| {
        return Raise(IndexError, "MODEL.Z_DOWN", 426);
      }
      var sizes := LevelSizes(c, i);
      var divisible := AllDivisible(sizes, scale);
      if !divisible {
        return Raise(ValueError, "DATA.PATCH_SIZE", 431);
      }
      i := i + 1;
      scale := 2 * scale;
    }
    return Pass;
  }

  /** Lines 53-72. */
  method CheckWatershed(c: Config, dim: nat) returns (v: Verdict)
    ensures v == WatershedRules(c, dim)
  {
    var pp := c.test.postProcessing;
    if pp.detWatershed && c.problem.ptype != "DETECTION" {
      return Raise(ValueError, "TEST.POST_PROCESSING.DET_WATERSHED", 54);
    }
    v := Pass;
    if pp.detWatershed {
      v := CheckFirstDilation(pp.detWatershedFirstDilation, dim);
      if v.Fail? {
        return;
      }
      if pp.detWatershedDonutsClasses != [-1] {
        v := DonutsRules(pp.detWatershedDonutsClasses, c.model.nClasses, pp.detWatershedDonutsPatch, dim);
      }
    }
  }

  /** Lines 12-123: the verdict, and the first batch of `opts` gathered
      while the rules ran. */
  method FirstPassImpl(c: Config) returns (v: Verdict, opts: seq<Override>)
    ensures v == FirstPassRules(c)
    ensures v.Pass? ==> opts == FirstBatch(c)
  {
    var dim := DimCount(c.problem.ndim);
    opts := DimensionDefaults(c);
    opts := opts + ChannelWeightDefaults(c);
    v := ForegroundRule(c);
    if v.Fail? {
      return;
    }
    opts := opts + ResolutionDefaults(c, dim);
    v := PostProcessingPass(c, dim);
  }

  /** Lines 53-123, reached once the foreground rule of lines 40-44 passed. */
  method PostProcessingPass(c: Config, dim: int) returns (v: Verdict)
    requires dim == DimCount(c.problem.ndim) && ForegroundRule(c).Pass?
    ensures v == FirstPassRules(c)
  {
    var pp := c.test.postProcessing;
    v := CheckWatershed(c, dim);
    if v.Fail? {
      return;
    }
    if c.problem.ptype == "DETECTION" {
      v := CheckDetectionFilters(pp.removeByProperties);
      if v.Fail? {
        return;
      }
    }
    v := CheckPropertyGroups(pp, c.problem.ptype);
    if v.Fail? {
      return;
    }
    v := PostProcessingRules(c);
  }

  /** Lines 130-345. */
  method SecondPassChecksImpl(c: Config, checkDataPaths: bool, pathExists: string -> bool) returns (v: Verdict)
    ensures v == SecondPassChecks(c, checkDataPaths, pathExists)
  {
    var dim := DimCount(c.problem.ndim);
    var arch := Lower(c.model.architecture);
    v := GeneralRules(c);
    if v.Fail? { return; }
    v := WorkflowRules(c, dim, arch, ChannelsProvided(c.problem.instanceSeg.dataChannels));
    if v.Fail? { return; }
    v := PreprocessingRule(c);
    if v.Fail? { return; }
    v := DataPathRules(c, checkDataPaths, pathExists);
    if v.Fail? { return; }
    v := ChunkingVerdict(c);
    if v.Fail? { return; }
    v := TrainDataRules(c);
    if v.Fail? { return; }
    v := CrossValRules(c);
    if v.Fail? { return; }
    v := ShapeRules(c, dim);
    if v.Fail? { return; }
    v := NormalizationRules(c, pathExists);
    if v.Fail? { return; }
    v := ModelRules(c, arch);
  }

  /** Lines 254-258 and 348-379: the second batch of `opts`, extended in
      source order. */
  method SecondBatchImpl(c: Config) returns (r: Result<seq<Override>, Error>)
    ensures r == SecondBatch(c)
  {
    var arch := Lower(c.model.architecture);
    var opts: seq<Override> := [];
    var chunks := ByChunksRules(c);
    if chunks.Failure? { return Failure(chunks.error); }
    opts := opts + chunks.value;
    var dropout := DropoutDefaults(c, arch);
    if dropout.Failure? { return Failure(dropout.error); }
    opts := opts + dropout.value;
    var zDown := ZDownDefaults(c, arch);
    if zDown.Failure? { return Failure(zDown.error); }
    opts := opts + zDown.value;
    assert opts == chunks.value + dropout.value + zDown.value;
    return Success(opts);
  }

  /** Lines 384-516. */
  method FinalPassImpl(c: Config) returns (v: Verdict)
    ensures v == FinalPass(c)
  {
    var dim := DimCount(c.problem.ndim);
    var arch := Lower(c.model.architecture);
    v := ActivationRules(c);
    if v.Fail? { return; }
    v := ArchitectureRules(c, arch);
    if v.Fail? { return; }
    v := TransformerRules(c, arch);
    if v.Fail? { return; }
    if arch in UNetFamily {
      v := CheckUNetLevels(c);
      if v.Fail? { return; }
    }
    v := TrainRules(c);
    if v.Fail? { return; }
    v := AugmentationRules(c);
    if v.Fail? { return; }
    v := ClosePointsRules(c, dim);
  }

  /** `check_configuration(cfg, check_data_paths)`. The configuration is
      updated in place; the result is the warnings printed or the error
      raised, and on an error the configuration keeps the merges done
      before it. */
  method CheckConfiguration(cfg: CfgNode, checkDataPaths: bool, pathExists: string -> bool)
    returns (r: Result<seq<Warning>, Error>)
    modifies cfg
    ensures r == Validate(old(cfg.value), checkDataPaths, pathExists).outcome
    ensures cfg.value == Validate(old(cfg.value), checkDataPaths, pathExists).state
  {
    ghost var c0 := cfg.value;
    var v, opts := FirstPassImpl(cfg.value);
    if v.Fail? {
      return Failure(v.error);
    }
    if |opts| > 0 {
      cfg.MergeFromList(opts);
      opts := [];
    }
    ghost var c1 := cfg.value;
    assert c1 == Merge(c0, FirstBatch(c0));
    v := SecondPassChecksImpl(cfg.value, checkDataPaths, pathExists);
    if v.Fail? {
      return Failure(v.error);
    }
    var second := SecondBatchImpl(cfg.value);
    if second.Failure? {
      return Failure(second.error);
    }
    assert SecondPass(c1, checkDataPaths, pathExists) == second;
    opts := second.value;
    if |opts| > 0 {
      cfg.MergeFromList(opts);
    }
    assert cfg.value == Merge(c1, second.value);
    v := FinalPassImpl(cfg.value);
    if v.Fail? {
      return Failure(v.error);
    }
    return Success(Warnings(cfg.value));
  }
}
