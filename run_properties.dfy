/** Properties of a whole call of `check_configuration`: what an accepted
    configuration looks like afterwards, what a second call on it does, and a
    combination of settings that can never be accepted. */
module RunProperties {
  import opened Outcomes
  import opened Text
  import opened RangeCheck
  import opened Configuration
  import opened CheckRules
  import opened Validation
  import opened Defaults
  import opened FinalRuleProperties

  // ---------------------------------------------------------------------------
  // Taking an accepted call apart, and putting one together.

  /** An accepted call passed every stage, and its state is the result of
      both merges. */
  lemma {:induction false} AcceptedRun(c: Config, checkDataPaths: bool, pathExists: string -> bool)
    returns (c1: Config, batch: seq<Override>)
    requires Validate(c, checkDataPaths, pathExists).outcome.Success?
    ensures FirstPassRules(c) == Pass && c1 == Merge(c, FirstBatch(c))
    ensures SecondPassChecks(c1, checkDataPaths, pathExists) == Pass && SecondBatch(c1) == Success(batch)
    ensures FinalPass(Merge(c1, batch)) == Pass
    ensures Validate(c, checkDataPaths, pathExists) == RunResult(Merge(c1, batch), Success(Warnings(Merge(c1, batch))))
  {
    c1 := Merge(c, FirstBatch(c));
    batch := SecondPass(c1, checkDataPaths, pathExists).value;
  }

  /** A call whose three stages pass is accepted with the warnings of its
      final state. */
  lemma {:induction false} RunAccepted(c: Config, checkDataPaths: bool, pathExists: string -> bool, batch: seq<Override>)
    requires FirstPassRules(c) == Pass
    requires SecondPassChecks(Merge(c, FirstBatch(c)), checkDataPaths, pathExists) == Pass
    requires SecondBatch(Merge(c, FirstBatch(c))) == Success(batch)
    requires FinalPass(Merge(Merge(c, FirstBatch(c)), batch)) == Pass
    ensures var s := Merge(Merge(c, FirstBatch(c)), batch);
      Validate(c, checkDataPaths, pathExists) == RunResult(s, Success(Warnings(s)))
  {
  }

  // ---------------------------------------------------------------------------
  // What the passed stages guarantee.

  lemma {:induction false} SecondPassChecksParts(c: Config, checkDataPaths: bool, pathExists: string -> bool)
    requires SecondPassChecks(c, checkDataPaths, pathExists) == Pass
    ensures var arch := Lower(c.model.architecture);
      && GeneralRules(c) == Pass
      && WorkflowRules(c, DimCount(c.problem.ndim), arch, ChannelsProvided(c.problem.instanceSeg.dataChannels)) == Pass
      && ChunkingVerdict(c) == Pass
      && ShapeRules(c, DimCount(c.problem.ndim)) == Pass
      && ModelRules(c, arch) == Pass
  {
  }

  /** Tuple lengths and overlap ranges a configuration has once lines
      284-326 accept it. */
  predicate SplitShaped(g: Geometry, dim: nat) {
    && |g.resolution| == dim && |g.overlap| == dim && |g.padding| == dim
    && AllWithinUnit(g.overlap)
  }

  lemma {:induction false} SplitShapeAccepted(g: Geometry, dim: nat, split: string, line: int)
    requires SplitShapeRules(g, dim, split, line) == Pass
    requires |g.resolution| == dim
    ensures SplitShaped(g, dim)
  {
  }

  lemma {:induction false} ShapeAccepted(c: Config, dim: nat)
    requires ShapeRules(c, dim) == Pass
    ensures SplitShaped(c.data.train.geometry, dim) && SplitShaped(c.data.val.geometry, dim)
    ensures SplitShaped(c.data.test.geometry, dim) && |c.data.patchSize| == dim + 1
  {
    SplitShapeAccepted(c.data.train.geometry, dim, "TRAIN", 292);
    SplitShapeAccepted(c.data.val.geometry, dim, "VAL", 300);
    SplitShapeAccepted(c.data.test.geometry, dim, "TEST", 308);
  }

  /** An INSTANCE_SEG configuration that lines 160-185 accept has one weight
      per channel. */
  lemma {:induction false} InstanceWeightsAccepted(c: Config, dim: nat, arch: string)
    requires c.problem.ptype == "INSTANCE_SEG"
    requires WorkflowRules(c, dim, arch, ChannelsProvided(c.problem.instanceSeg.dataChannels)) == Pass
    ensures |c.problem.instanceSeg.dataChannelWeights| == ChannelsProvided(c.problem.instanceSeg.dataChannels)
  {
    assert InstanceRules(c, ChannelsProvided(c.problem.instanceSeg.dataChannels)) == Pass;
  }

  /** The shape of a configuration `check_configuration` accepts: the
      lengths and ranges the second merge leaves, and a transformer model that
      lines 415-421 accept. */
  predicate WellShaped(s: Config) {
    ShapedAfterSecondMerge(s) && TransformerShaped(s, Lower(s.model.architecture))
  }

  /** What the lengths and ranges lines 284-379 check look like once the
      second batch is merged. */
  predicate ShapedAfterSecondMerge(s: Config) {
    var dim := DimCount(s.problem.ndim);
    var arch := Lower(s.model.architecture);
    var m := s.model;
    && s.problem.ndim in ["2D", "3D"] && s.problem.ptype in ProblemTypes
    && SplitShaped(s.data.train.geometry, dim) && SplitShaped(s.data.val.geometry, dim)
    && SplitShaped(s.data.test.geometry, dim) && |s.data.patchSize| == dim + 1
    && |m.featureMaps| > 2 && |m.zDown| == |m.featureMaps| - 1
    && (SuperResolution3D(s) ==> forall k :: 0 <= k < |m.zDown| ==> m.zDown[k] == 1)
    && (arch in TransformerFamily ==> |m.dropoutValues| == 1 && CheckValue(Scalar(m.dropoutValues[0])))
    && (arch !in TransformerFamily ==> |m.dropoutValues| == |m.featureMaps|)
    && (s.problem.ptype == "INSTANCE_SEG" ==>
          |s.problem.instanceSeg.dataChannelWeights| == ChannelsProvided(s.problem.instanceSeg.dataChannels))
    && (s.test.byChunks.enable ==> s.test.byChunks.format in ["h5", "zarr"])
  }

  /** The configuration after the first merge is well shaped apart from the
      second-batch keys. */
  predicate ShapedBeforeSecondMerge(c: Config) {
    var dim := DimCount(c.problem.ndim);
    && c.problem.ndim in ["2D", "3D"] && c.problem.ptype in ProblemTypes
    && SplitShaped(c.data.train.geometry, dim) && SplitShaped(c.data.val.geometry, dim)
    && SplitShaped(c.data.test.geometry, dim) && |c.data.patchSize| == dim + 1
    && |c.model.featureMaps| > 2
    && (c.problem.ptype == "INSTANCE_SEG" ==>
          |c.problem.instanceSeg.dataChannelWeights| == ChannelsProvided(c.problem.instanceSeg.dataChannels))
    && (c.test.byChunks.enable ==> Lower(c.test.byChunks.format) in ["h5", "zarr"])
  }

  lemma {:induction false} SecondPassShapes(c: Config, checkDataPaths: bool, pathExists: string -> bool)
    requires SecondPassChecks(c, checkDataPaths, pathExists) == Pass
    ensures ShapedBeforeSecondMerge(c)
  {
    var dim := DimCount(c.problem.ndim);
    var arch := Lower(c.model.architecture);
    SecondPassChecksParts(c, checkDataPaths, pathExists);
    GeneralAccepted(c);
    ShapeAccepted(c, dim);
    if c.problem.ptype == "INSTANCE_SEG" {
      InstanceWeightsAccepted(c, dim, arch);
    }
    ChunkingAccepted(c);
    ModelAccepted(c, arch);
  }

  /** Lines 130-139 accept only known dimensions and workflows. */
  lemma {:induction false} GeneralAccepted(c: Config)
    requires GeneralRules(c) == Pass
    ensures c.problem.ndim in ["2D", "3D"] && c.problem.ptype in ProblemTypes
  {
  }

  /** Lines 254-261 accept chunked inference only from H5 or Zarr files. */
  lemma {:induction false} ChunkingAccepted(c: Config)
    requires ChunkingVerdict(c) == Pass
    ensures c.test.byChunks.enable ==> Lower(c.test.byChunks.format) in ["h5", "zarr"]
  {
    assert ByChunksRules(c).Success?;
  }

  /** Lines 383-432 accept only models with more than two levels. */
  lemma {:induction false} ModelAccepted(c: Config, arch: string)
    requires ModelRules(c, arch) == Pass
    ensures |c.model.featureMaps| > 2
  {
  }

  /** The second batch keeps every key outside it. */
  lemma {:induction false} SecondBatchKeys(c: Config)
    requires SecondBatch(c).Success?
    ensures forall i :: 0 <= i < |SecondBatch(c).value| ==> SecondBatch(c).value[i].IsModelOrChunking()
  {
    var arch := Lower(c.model.architecture);
    var a, b, d := ByChunksRules(c).value, DropoutDefaults(c, arch).value, ZDownDefaults(c, arch).value;
    assert SecondBatch(c).value == a + b + d;
    forall i | 0 <= i < |a + b + d| ensures (a + b + d)[i].IsModelOrChunking() {
      if i < |a| {
        assert (a + b + d)[i] == a[i];
      } else if i < |a| + |b| {
        assert (a + b + d)[i] == b[i - |a|];
      } else {
        assert (a + b + d)[i] == d[i - |a| - |b|];
      }
    }
  }

  /** The dropout and Z_DOWN the second merge leaves have the lengths and
      ranges lines 348-379 demand. */
  lemma {:induction false} SecondMergeShapes(c: Config)
    requires ShapedBeforeSecondMerge(c) && SecondBatch(c).Success?
    ensures ShapedAfterSecondMerge(Merge(c, SecondBatch(c).value))
  {
    var s := Merge(c, SecondBatch(c).value);
    var arch := Lower(c.model.architecture);
    SecondBatchKeys(c);
    MergeModelOrChunkingKeepsRest(c, SecondBatch(c).value);
    SecondMergeEffect(c, ByChunksFormatKey);
    SecondMergeEffect(c, DropoutValuesKey);
    SecondMergeEffect(c, ZDownKey);
    DropoutAccepted(c, arch);
    ZDownAccepted(c, arch);
    assert s.model.architecture == c.model.architecture && s.model.featureMaps == c.model.featureMaps;
    assert s.model.dropoutValues == FilledDropout(c, arch);
    assert s.model.zDown == FilledZDown(c);
  }

  /** Lines 284-421: every configuration `check_configuration` accepts leaves
      it with tuples of one entry per spatial axis, overlaps in [0, 1], a patch
      with a channel axis, one Z_DOWN entry per downsampling level, dropout
      that fits the architecture, one weight per instance channel, a
      supported lower-case chunk format, and, for a transformer, the head
      count and patch lines 415-421 demand. */
  lemma {:induction false} AcceptedIsWellShaped(c: Config, checkDataPaths: bool, pathExists: string -> bool)
    requires Validate(c, checkDataPaths, pathExists).outcome.Success?
    ensures WellShaped(Validate(c, checkDataPaths, pathExists).state)
  {
    var c1, batch := AcceptedRun(c, checkDataPaths, pathExists);
    SecondPassShapes(c1, checkDataPaths, pathExists);
    SecondMergeShapes(c1);
    FinalPassTransformer(Merge(c1, batch));
  }

  /** A configuration the final rules pass is shaped as lines 415-421 demand. */
  lemma {:induction false} FinalPassTransformer(s: Config)
    requires FinalPass(s) == Pass
    ensures TransformerShaped(s, Lower(s.model.architecture))
  {
    FinalPassIff(s);
  }

  /** Lines 384-516 hold of every accepted configuration. */
  lemma {:induction false} FinalPassAccepted(c: Config, checkDataPaths: bool, pathExists: string -> bool)
    requires Validate(c, checkDataPaths, pathExists).outcome.Success?
    ensures FinalRulesHold(Validate(c, checkDataPaths, pathExists).state)
  {
    var c1, batch := AcceptedRun(c, checkDataPaths, pathExists);
    FinalPassIff(Merge(c1, batch));
  }

  /** A list in which no pair names `k`. */
  lemma {:induction false} NoPairsFor(opts: seq<Override>, k: Key)
    requires PairsFor(opts, k) == []
    ensures forall i :: 0 <= i < |opts| ==> KeyOf(opts[i]) != k
    decreases |opts|
  {
    if opts != [] {
      NoPairsFor(opts[1..], k);
      forall i | 0 < i < |opts| ensures KeyOf(opts[i]) != k {
        assert opts[i] == opts[1..][i - 1];
      }
    }
  }

  /** A list that names none of the second-batch keys names only
      first-batch keys. */
  lemma {:induction false} OnlyGeometryOrWeights(opts: seq<Override>)
    requires PairsFor(opts, ByChunksFormatKey) == [] && PairsFor(opts, DropoutValuesKey) == []
    requires PairsFor(opts, ZDownKey) == []
    ensures forall i :: 0 <= i < |opts| ==> opts[i].IsGeometryOrWeights()
  {
    NoPairsFor(opts, ByChunksFormatKey);
    NoPairsFor(opts, DropoutValuesKey);
    NoPairsFor(opts, ZDownKey);
  }

  /** Lines 14-51 name only overlaps, paddings, resolutions and the channel
      weights. */
  lemma {:induction false} FirstBatchKeys(c: Config)
    ensures forall i :: 0 <= i < |FirstBatch(c)| ==> FirstBatch(c)[i].IsGeometryOrWeights()
  {
    FirstBatchPairs(c, ByChunksFormatKey);
    FirstBatchPairs(c, DropoutValuesKey);
    FirstBatchPairs(c, ZDownKey);
    OnlyGeometryOrWeights(FirstBatch(c));
  }

  /** Line 127 changes only the keys of the first batch. */
  lemma {:induction false} FirstMergeFrame(c: Config)
    ensures AgreeOutsideFirstBatch(c, Merge(c, FirstBatch(c)))
  {
    FirstBatchKeys(c);
    MergeGeometryOrWeightsKeepsRest(c, FirstBatch(c));
  }

  /** Lines 188-198: in DETECTION, DET_WATERSHED leads to a raise whatever
      else is set: too few classes (191), a structuring element of the wrong
      dimension (194), or the malformed REMOVE_BY_PROPERTIES index that
      follows (196-198). */
  lemma {:induction false} WatershedDetectionRejected(c: Config, dim: nat)
    requires c.problem.ptype == "DETECTION" && c.test.postProcessing.detWatershed
    ensures DetectionRules(c, dim).Fail?
  {
  }

  /** A DETECTION configuration with DET_WATERSHED set is never accepted. */
  lemma {:induction false} DetectionWatershedNeverAccepted(c: Config, checkDataPaths: bool, pathExists: string -> bool)
    requires c.problem.ptype == "DETECTION" && c.test.postProcessing.detWatershed
    ensures Validate(c, checkDataPaths, pathExists).outcome.Failure?
  {
    if FirstPassRules(c) == Pass {
      var c1 := Merge(c, FirstBatch(c));
      var dim := DimCount(c1.problem.ndim);
      FirstMergeFrame(c);
      WatershedDetectionRejected(c1, dim);
      assert WorkflowRules(c1, dim, Lower(c1.model.architecture), ChannelsProvided(c1.problem.instanceSeg.dataChannels)).Fail?;
    }
  }
}
