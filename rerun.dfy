/** What a second call of `check_configuration` does on the configuration a
    first, accepted call left behind. Every default fires only on its own
    sentinel value, and the defaults it writes are no sentinel, so the second
    call accepts again and changes nothing, with one exception: a multiresunet
    whose Z_DOWN was all zeros receives one entry per downsampling level
    (lines 365-369), and unless there are exactly four levels the second call
    rejects that value at line 377. */
module Rerun {
  import opened Outcomes
  import opened Text
  import opened RangeCheck
  import opened Configuration
  import opened CheckRules
  import opened Validation
  import opened Defaults
  import opened RunProperties

  // ---------------------------------------------------------------------------
  // Writing back what is already there.

  /** Every pair of `opts` holds the value its key already has in `c`. */
  predicate Settled(c: Config, opts: seq<Override>) {
    forall i :: 0 <= i < |opts| ==> opts[i] == Get(c, KeyOf(opts[i]))
  }

  /** Merging pairs that hold the current values changes nothing. */
  lemma {:induction false} MergeSettled(c: Config, opts: seq<Override>)
    requires Settled(c, opts)
    ensures Merge(c, opts) == c
    decreases |opts|
  {
    if opts != [] {
      ApplyCurrent(c, KeyOf(opts[0]));
      assert Settled(c, opts[1..]) by {
        forall i | 0 <= i < |opts[1..]| ensures opts[1..][i] == Get(c, KeyOf(opts[1..][i])) {
          assert opts[1..][i] == opts[i + 1];
        }
      }
      MergeSettled(c, opts[1..]);
    }
  }

  // ---------------------------------------------------------------------------
  // The first batch.

  /** No first-batch default fires when no key holds its sentinel. */
  lemma {:induction false} NoFirstDefaults(c: Config)
    requires forall k :: !FirstDefaultApplies(c, k)
    ensures FirstBatch(c) == []
  {
    if FirstBatch(c) != [] {
      var k := KeyOf(FirstBatch(c)[0]);
      FirstBatchPairs(c, k);
      assert false;
    }
  }

  /** An accepted configuration holds none of the first-batch sentinels:
      its overlaps and paddings have one entry per axis and its resolutions
      at least two. */
  lemma {:induction false} WellShapedHasNoSentinels(s: Config)
    requires WellShaped(s)
    ensures forall k :: !FirstDefaultApplies(s, k)
  {
  }

  /** Lines 40-123 read only these keys. */
  lemma {:induction false} FirstPassReadsOnly(c: Config, d: Config)
    requires c.problem.ndim == d.problem.ndim && c.problem.ptype == d.problem.ptype
    requires c.test.postProcessing == d.test.postProcessing
    requires c.test.analize2dImgsAs3dStack == d.test.analize2dImgsAs3dStack
    requires c.data.train.minimumForegroundPer == d.data.train.minimumForegroundPer
    requires c.model.nClasses == d.model.nClasses
    ensures FirstPassRules(c) == FirstPassRules(d)
  {
    var dim := DimCount(c.problem.ndim);
    assert ForegroundRule(c) == ForegroundRule(d);
    assert WatershedRules(c, dim) == WatershedRules(d, dim);
    assert PostProcessingRules(c) == PostProcessingRules(d);
  }

  // ---------------------------------------------------------------------------
  // The second pass.

  /** `c` and `d` differ at most in dropout, Z_DOWN and the case of the
      chunk format. */
  predicate AgreeForSecondPass(c: Config, d: Config) {
    AgreeOutsideSecondBatch(c, d) && Lower(c.test.byChunks.format) == Lower(d.test.byChunks.format)
  }

  lemma {:induction false} GeneralRulesReadOnly(c: Config, d: Config)
    requires AgreeForSecondPass(c, d)
    ensures GeneralRules(c) == GeneralRules(d)
  {
  }

  lemma {:induction false} SegmentationRulesReadOnly(c: Config, d: Config, dim: nat, n: nat)
    requires AgreeForSecondPass(c, d)
    ensures SemanticRules(c) == SemanticRules(d) && InstanceRules(c, n) == InstanceRules(d, n)
    ensures DetectionRules(c, dim) == DetectionRules(d, dim)
  {
    InstanceRulesReadOnly(c, d, n);
    DetectionRulesReadOnly(c, d, dim);
  }

  lemma {:induction false} InstanceRulesReadOnly(c: Config, d: Config, n: nat)
    requires AgreeForSecondPass(c, d)
    ensures InstanceRules(c, n) == InstanceRules(d, n)
  {
  }

  lemma {:induction false} DetectionRulesReadOnly(c: Config, d: Config, dim: nat)
    requires AgreeForSecondPass(c, d)
    ensures DetectionRules(c, dim) == DetectionRules(d, dim)
  {
  }

  lemma {:induction false} OtherWorkflowRulesReadOnly(c: Config, d: Config, arch: string)
    requires AgreeForSecondPass(c, d)
    ensures SuperResolutionRules(c) == SuperResolutionRules(d)
    ensures SelfSupervisedRules(c, arch) == SelfSupervisedRules(d, arch)
    ensures DenoisingRules(c) == DenoisingRules(d) && ClassificationRules(c) == ClassificationRules(d)
  {
  }

  /** Lines 152-231 are a function of the PROBLEM.TYPE and of the rules of
      each workflow. */
  lemma {:induction false} WorkflowRulesFromParts(c: Config, d: Config, dim: nat, arch: string, n: nat)
    requires c.problem.ptype == d.problem.ptype
    requires SemanticRules(c) == SemanticRules(d) && InstanceRules(c, n) == InstanceRules(d, n)
    requires DetectionRules(c, dim) == DetectionRules(d, dim)
    requires SuperResolutionRules(c) == SuperResolutionRules(d)
    requires SelfSupervisedRules(c, arch) == SelfSupervisedRules(d, arch)
    requires DenoisingRules(c) == DenoisingRules(d) && ClassificationRules(c) == ClassificationRules(d)
    ensures WorkflowRules(c, dim, arch, n) == WorkflowRules(d, dim, arch, n)
  {
  }

  lemma {:induction false} ModelAndChunkingReadOnly(c: Config, d: Config, arch: string)
    requires AgreeForSecondPass(c, d)
    ensures ChunkingVerdict(c) == ChunkingVerdict(d) && ModelRules(c, arch) == ModelRules(d, arch)
  {
  }

  lemma {:induction false} DataRulesReadOnly(c: Config, d: Config, dim: nat, checkDataPaths: bool, pathExists: string -> bool)
    requires AgreeForSecondPass(c, d)
    ensures PreprocessingRule(c) == PreprocessingRule(d)
    ensures DataPathRules(c, checkDataPaths, pathExists) == DataPathRules(d, checkDataPaths, pathExists)
    ensures TrainDataRules(c) == TrainDataRules(d) && CrossValRules(c) == CrossValRules(d)
    ensures ShapeRules(c, dim) == ShapeRules(d, dim)
    ensures NormalizationRules(c, pathExists) == NormalizationRules(d, pathExists)
  {
    assert c.data == d.data && c.paths == d.paths && c.problem == d.problem && c.train == d.train;
  }

  /** Lines 130-345 do not read dropout or Z_DOWN, and read the chunk format
      only lower-cased. */
  lemma {:induction false} SecondPassReadsOnly(c: Config, d: Config, checkDataPaths: bool, pathExists: string -> bool)
    requires AgreeForSecondPass(c, d)
    ensures SecondPassChecks(c, checkDataPaths, pathExists) == SecondPassChecks(d, checkDataPaths, pathExists)
  {
    var dim := DimCount(c.problem.ndim);
    var arch := Lower(c.model.architecture);
    GeneralRulesReadOnly(c, d);
    var n := ChannelsProvided(c.problem.instanceSeg.dataChannels);
    SegmentationRulesReadOnly(c, d, dim, n);
    OtherWorkflowRulesReadOnly(c, d, arch);
    WorkflowRulesFromParts(c, d, dim, arch, n);
    ModelAndChunkingReadOnly(c, d, arch);
    DataRulesReadOnly(c, d, dim, checkDataPaths, pathExists);
  }

  /** Multiresunet with an all-zero Z_DOWN and other than five feature maps:
      the default Z_DOWN of lines 365-369 has the wrong length for line 376. */
  predicate MultiResUNetRefill(c: Config) {
    Lower(c.model.architecture) == "multiresunet" && AllZeroInts(c.model.zDown) && |c.model.featureMaps| != 5
  }

  /** The chunk format the second merge wrote is accepted again and
      written back unchanged. */
  lemma {:induction false} ChunksSettled(c: Config)
    requires SecondBatch(c).Success?
    ensures var s := Merge(c, SecondBatch(c).value);
      ByChunksRules(s).Success? && Settled(s, ByChunksRules(s).value)
  {
    var s := Merge(c, SecondBatch(c).value);
    SecondBatchKeys(c);
    MergeModelOrChunkingKeepsRest(c, SecondBatch(c).value);
    SecondMergeEffect(c, ByChunksFormatKey);
    LowerIdempotent(c.test.byChunks.format);
    assert s.test.byChunks.enable == c.test.byChunks.enable;
    assert s.test.byChunks.enable ==> s.test.byChunks.format == Lower(c.test.byChunks.format);
  }

  /** The dropout the second merge wrote is accepted again and written back
      unchanged. */
  lemma {:induction false} DropoutSettled(c: Config)
    requires SecondBatch(c).Success?
    ensures var s := Merge(c, SecondBatch(c).value);
      var arch := Lower(s.model.architecture);
      DropoutDefaults(s, arch).Success? && Settled(s, DropoutDefaults(s, arch).value)
  {
    var s := Merge(c, SecondBatch(c).value);
    var arch := Lower(c.model.architecture);
    SecondBatchKeys(c);
    MergeModelOrChunkingKeepsRest(c, SecondBatch(c).value);
    SecondMergeEffect(c, DropoutValuesKey);
    DropoutAccepted(c, arch);
    assert s.model.architecture == c.model.architecture && s.model.featureMaps == c.model.featureMaps;
    assert s.model.dropoutValues == FilledDropout(c, arch);
  }

  /** The Z_DOWN the second merge left: the default of lines 365-369, or
      the accepted value itself. */
  lemma {:induction false} ZDownAfterMerge(c: Config)
    requires SecondBatch(c).Success?
    ensures var s := Merge(c, SecondBatch(c).value);
      && s.problem == c.problem && s.model.architecture == c.model.architecture
      && s.model.featureMaps == c.model.featureMaps && s.model.zDown == FilledZDown(c)
  {
    SecondBatchKeys(c);
    MergeModelOrChunkingKeepsRest(c, SecondBatch(c).value);
    SecondMergeEffect(c, ZDownKey);
  }

  /** Outside the multiresunet case, the Z_DOWN the second merge wrote is
      accepted again and left alone. */
  lemma {:induction false} ZDownSettled(c: Config)
    requires SecondBatch(c).Success? && |c.model.featureMaps| > 2 && !MultiResUNetRefill(c)
    ensures var s := Merge(c, SecondBatch(c).value);
      ZDownDefaults(s, Lower(s.model.architecture)) == Success([])
  {
    var s := Merge(c, SecondBatch(c).value);
    var arch := Lower(c.model.architecture);
    ZDownAfterMerge(c);
    ZDownAccepted(c, arch);
    assert SuperResolution3D(s) == SuperResolution3D(c);
    if AllZeroInts(c.model.zDown) {
      assert s.model.zDown[0] != 0;
      assert !AnyTrue(FalseForInvalidZDown(s.model.zDown));
    }
  }

  /** The multiresunet case: the written Z_DOWN is rejected at line 377. */
  lemma {:induction false} ZDownRefillRejected(c: Config)
    requires SecondBatch(c).Success? && |c.model.featureMaps| > 2 && MultiResUNetRefill(c)
    ensures var s := Merge(c, SecondBatch(c).value);
      ZDownDefaults(s, Lower(s.model.architecture)) == Reject(ValueError, "MODEL.Z_DOWN", 377)
  {
    var s := Merge(c, SecondBatch(c).value);
    ZDownAfterMerge(c);
    assert SuperResolution3D(s) == SuperResolution3D(c);
    assert s.model.zDown[0] != 0;
    assert !AnyTrue(FalseForInvalidZDown(s.model.zDown));
  }

  lemma {:induction false} SettledAppend(c: Config, a: seq<Override>, b: seq<Override>)
    requires Settled(c, a) && Settled(c, b)
    ensures Settled(c, a + b)
  {
    forall i | 0 <= i < |a + b| ensures (a + b)[i] == Get(c, KeyOf((a + b)[i])) {
      if i < |a| {
        assert (a + b)[i] == a[i];
      } else {
        assert (a + b)[i] == b[i - |a|];
      }
    }
  }

  /** Outside the multiresunet case, a second second batch writes back only
      values the configuration already has. */
  lemma {:induction false} SecondBatchSettled(c: Config)
    requires SecondBatch(c).Success? && |c.model.featureMaps| > 2 && !MultiResUNetRefill(c)
    ensures var s := Merge(c, SecondBatch(c).value);
      SecondBatch(s).Success? && Settled(s, SecondBatch(s).value)
  {
    var s := Merge(c, SecondBatch(c).value);
    var arch := Lower(s.model.architecture);
    ChunksSettled(c);
    DropoutSettled(c);
    ZDownSettled(c);
    SettledAppend(s, ByChunksRules(s).value, DropoutDefaults(s, arch).value);
    assert SecondBatch(s).value == ByChunksRules(s).value + DropoutDefaults(s, arch).value + [];
  }

  // ---------------------------------------------------------------------------
  // The second call.

  /** An accepted first call, taken apart: the configuration after its
      first merge, and the frames of its two merges. */
  lemma {:induction false} AcceptedFrames(c: Config, checkDataPaths: bool, pathExists: string -> bool)
    returns (c1: Config)
    requires Validate(c, checkDataPaths, pathExists).outcome.Success?
    ensures var s := Validate(c, checkDataPaths, pathExists).state;
      && AgreeOutsideFirstBatch(c, c1) && FirstPassRules(c) == Pass
      && SecondPassChecks(c1, checkDataPaths, pathExists) == Pass
      && SecondBatch(c1).Success? && s == Merge(c1, SecondBatch(c1).value)
      && AgreeForSecondPass(c1, s) && WellShaped(s) && |c1.model.featureMaps| > 2
      && Validate(c, checkDataPaths, pathExists).outcome == Success(Warnings(s)) && FinalPass(s) == Pass
  {
    var batch;
    c1, batch := AcceptedRun(c, checkDataPaths, pathExists);
    SecondPassShapes(c1, checkDataPaths, pathExists);
    SecondMergeShapes(c1);
    FinalPassTransformer(Merge(c1, batch));
    FirstMergeFrame(c);
    SecondMergeFrame(c1);
  }

  /** The second merge changes only second-batch keys, and the chunk format
      only to its lower-case spelling. */
  lemma {:induction false} SecondMergeFrame(c: Config)
    requires SecondBatch(c).Success?
    ensures AgreeForSecondPass(c, Merge(c, SecondBatch(c).value))
  {
    SecondBatchKeys(c);
    MergeModelOrChunkingKeepsRest(c, SecondBatch(c).value);
    SecondMergeEffect(c, ByChunksFormatKey);
    LowerIdempotent(c.test.byChunks.format);
  }

  /** What the second call sees of an accepted first call: its first and
      second passes accept, its first batch is empty, and its final state is
      the first call's. */
  lemma {:induction false} RerunStart(c: Config, checkDataPaths: bool, pathExists: string -> bool)
    returns (c1: Config)
    requires Validate(c, checkDataPaths, pathExists).outcome.Success?
    ensures var s := Validate(c, checkDataPaths, pathExists).state;
      && c1.model == c.model && SecondBatch(c1).Success? && s == Merge(c1, SecondBatch(c1).value)
      && |c1.model.featureMaps| > 2
      && Validate(c, checkDataPaths, pathExists).outcome == Success(Warnings(s))
      && FirstPassRules(s) == Pass && FirstBatch(s) == [] && Merge(s, []) == s
      && SecondPassChecks(s, checkDataPaths, pathExists) == Pass && FinalPass(s) == Pass
  {
    var s := Validate(c, checkDataPaths, pathExists).state;
    c1 := AcceptedFrames(c, checkDataPaths, pathExists);
    FirstPassReadsOnly(c, s);
    WellShapedHasNoSentinels(s);
    NoFirstDefaults(s);
    SecondPassReadsOnly(c1, s, checkDataPaths, pathExists);
  }

  /** Lines 12-516, called twice: an accepted configuration is a fixed point
      of `check_configuration`, unless it is the multiresunet case. */
  lemma {:induction false} RevalidateIsNoOp(c: Config, checkDataPaths: bool, pathExists: string -> bool)
    requires Validate(c, checkDataPaths, pathExists).outcome.Success? && !MultiResUNetRefill(c)
    ensures var r := Validate(c, checkDataPaths, pathExists);
      Validate(r.state, checkDataPaths, pathExists) == r
  {
    var s := Validate(c, checkDataPaths, pathExists).state;
    var c1 := RerunStart(c, checkDataPaths, pathExists);
    SecondBatchSettled(c1);
    MergeSettled(s, SecondBatch(s).value);
    RunAccepted(s, checkDataPaths, pathExists, SecondBatch(s).value);
  }

  /** Lines 365-377, called twice: in the multiresunet case the second call
      rejects the Z_DOWN the first call wrote, and changes nothing. */
  lemma {:induction false} MultiResUNetRevalidateFails(c: Config, checkDataPaths: bool, pathExists: string -> bool)
    requires Validate(c, checkDataPaths, pathExists).outcome.Success? && MultiResUNetRefill(c)
    ensures var s := Validate(c, checkDataPaths, pathExists).state;
      Validate(s, checkDataPaths, pathExists) == RunResult(s, Reject(ValueError, "MODEL.Z_DOWN", 377))
  {
    var s := Validate(c, checkDataPaths, pathExists).state;
    var c1 := RerunStart(c, checkDataPaths, pathExists);
    ChunksSettled(c1);
    DropoutSettled(c1);
    ZDownRefillRejected(c1);
    assert SecondBatch(s) == Reject(ValueError, "MODEL.Z_DOWN", 377);
  }
}
