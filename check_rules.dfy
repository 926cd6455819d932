/** The rules of `check_configuration`, one function per block of the source,
    each returning the verdict of that block: `Pass`, or the first error it
    raises. Errors name their kind, the dotted key they are about and the
    line of the `raise` (or `assert`) that produces them. */
module CheckRules {
  import opened Outcomes
  import opened Text
  import opened RangeCheck
  import opened Configuration

  datatype ErrorKind = ValueError | AssertionError | IndexError | ZeroDivisionError | NameError

  datatype Error = Error(kind: ErrorKind, field: string, line: int)

  type Verdict = Outcome<Error>

  /** The non-fatal messages the checker prints. */
  datatype Warning =
    | FullImageStatsDisabled    // line 142
    | ValInMemoryIgnored        // line 279
    | TestInMemoryDisabled      // line 283

  function Raise(kind: ErrorKind, field: string, line: int): Verdict {
    Fail(Error(kind, field, line))
  }

  function Reject<T>(kind: ErrorKind, field: string, line: int): Result<T, Error> {
    Failure(Error(kind, field, line))
  }

  /** `dim_count` (line 12): anything other than '2D' counts as three dimensions. */
  function DimCount(ndim: string): nat {
    if ndim == "2D" then 2 else 3
  }

  /** `channels_provided` (lines 31-35): 'Dv2' stands for one channel. */
  function ChannelsProvided(channels: string): nat {
    if !Contains(channels, "Dv2") then |channels| else |RemoveAll(channels, "Dv2")| + 1
  }

  function Repeat<T>(x: T, n: int): (r: seq<T>)
    ensures |r| == if n < 0 then 0 else n
    ensures forall i :: 0 <= i < |r| ==> r[i] == x
  {
    if n <= 0 then [] else [x] + Repeat(x, n - 1)
  }

  predicate AllZero(xs: seq<real>) {
    forall i :: 0 <= i < |xs| ==> xs[i] == 0.0
  }

  predicate AllZeroInts(xs: seq<int>) {
    forall i :: 0 <= i < |xs| ==> xs[i] == 0
  }

  predicate AllWithinUnit(xs: seq<real>) {
    forall i :: 0 <= i < |xs| ==> CheckValue(Scalar(xs[i]))
  }

  /** Python's `any(bs)` and `all(bs)`. */
  predicate AnyTrue(bs: seq<bool>) {
    exists i :: 0 <= i < |bs| && bs[i]
  }

  predicate AllTrue(bs: seq<bool>) {
    forall i :: 0 <= i < |bs| ==> bs[i]
  }

  /** `[False for x in zs if x != 1 and x != 2]` (line 373). */
  function FalseForInvalidZDown(zs: seq<int>): (r: seq<bool>)
    ensures forall i :: 0 <= i < |r| ==> !r[i]
  {
    if zs == [] then []
    else (if zs[0] != 1 && zs[0] != 2 then [false] else []) + FalseForInvalidZDown(zs[1..])
  }

  /** `[False for x in sizes if x % d != 0 or x == 0]` (line 430). */
  function FalseForIndivisible(sizes: seq<int>, d: int): (r: seq<bool>)
    requires d > 0
    ensures forall i :: 0 <= i < |r| ==> !r[i]
    ensures |r| == 0 <==> forall i :: 0 <= i < |sizes| ==> sizes[i] % d == 0 && sizes[i] != 0
  {
    if sizes == [] then []
    else
      var rest := FalseForIndivisible(sizes[1..], d);
      assert forall i :: 1 <= i < |sizes| ==> sizes[i] == sizes[1..][i - 1];
      (if sizes[0] % d != 0 || sizes[0] == 0 then [false] else []) + rest
  }

  function Pow2(n: nat): (r: nat)
    ensures r > 0
  {
    if n == 0 then 1 else 2 * Pow2(n - 1)
  }

  /** Python's `p[:-1]`. */
  function ButLast<T>(p: seq<T>): (r: seq<T>)
    ensures |r| == if |p| == 0 then 0 else |p| - 1
    ensures forall k :: 0 <= k < |r| ==> r[k] == p[k]
  {
    if |p| == 0 then [] else p[..|p| - 1]
  }

  /** Python's `p[1:-1]`. */
  function Inner<T>(p: seq<T>): (r: seq<T>)
    ensures |r| == if |p| <= 1 then 0 else |p| - 2
    ensures forall k :: 0 <= k < |r| ==> r[k] == p[k + 1]
  {
    if |p| <= 1 then [] else p[1..|p| - 1]
  }

  function Max(xs: seq<int>): int
    requires |xs| > 0
  {
    if |xs| == 1 then xs[0] else var m := Max(xs[1..]); if xs[0] > m then xs[0] else m
  }

  function Min(xs: seq<int>): int
    requires |xs| > 0
  {
    if |xs| == 1 then xs[0] else var m := Min(xs[1..]); if xs[0] < m then xs[0] else m
  }

  /** NumPy's `a == b` for one-dimensional integer arrays: elementwise when the
      lengths agree, broadcast when one side has a single element, and an
      error ("operands could not be broadcast") otherwise. */
  function ElementwiseEqual(a: seq<int>, b: seq<int>): Result<seq<bool>, Error> {
    if |a| == |b| then Success(seq(|a|, k requires 0 <= k < |a| => a[k] == b[k]))
    else if |a| == 1 then Success(seq(|b|, k requires 0 <= k < |b| => a[0] == b[k]))
    else if |b| == 1 then Success(seq(|a|, k requires 0 <= k < |a| => a[k] == b[0]))
    else Reject(ValueError, "TEST.POST_PROCESSING.DET_WATERSHED_DONUTS_CLASSES", 69)
  }

  /** Python's `range(lo, hi)`. */
  function Range(lo: int, hi: int): (r: seq<int>)
    ensures |r| == if hi <= lo then 0 else hi - lo
    ensures forall k :: 0 <= k < |r| ==> r[k] == lo + k
    decreases hi - lo
  {
    if hi <= lo then [] else [lo] + Range(lo + 1, hi)
  }

  // ---------------------------------------------------------------------------
  // Lines 14-51: defaults gathered into the first batch of `opts`.

  /** One conditional `opts.extend([key, value])`: the pair when `b` holds. */
  function Optional(b: bool, o: Override): seq<Override> {
    if b then [o] else []
  }

  function DimensionDefaults(c: Config): seq<Override> {
    var g, gv, gt := c.data.train.geometry, c.data.val.geometry, c.data.test.geometry;
    if c.problem.ndim == "3D" then
      Optional(g.overlap == [0.0, 0.0], TrainOverlap([0.0, 0.0, 0.0]))
      + Optional(g.padding == [0, 0], TrainPadding([0, 0, 0]))
      + Optional(gv.overlap == [0.0, 0.0], ValOverlap([0.0, 0.0, 0.0]))
      + Optional(gv.padding == [0, 0], ValPadding([0, 0, 0]))
      + Optional(gt.overlap == [0.0, 0.0], TestOverlap([0.0, 0.0, 0.0]))
      + Optional(gt.padding == [0, 0], TestPadding([0, 0, 0]))
    else []
  }

  function ChannelWeightDefaults(c: Config): seq<Override> {
    var n := ChannelsProvided(c.problem.instanceSeg.dataChannels);
    var w := c.problem.instanceSeg.dataChannelWeights;
    Optional(c.problem.ptype == "INSTANCE_SEG" && |w| != n && w == [1.0, 1.0], ChannelWeights(Repeat(1.0, n)))
  }

  /** A resolution of exactly `(-1,)` is the "unset" sentinel. */
  predicate UnsetResolution(r: seq<real>) {
    |r| == 1 && r[0] == -1.0
  }

  function ResolutionDefaults(c: Config, dim: nat): seq<Override> {
    Optional(UnsetResolution(c.data.train.geometry.resolution), TrainResolution(Repeat(1.0, dim)))
    + Optional(UnsetResolution(c.data.val.geometry.resolution), ValResolution(Repeat(1.0, dim)))
    + Optional(UnsetResolution(c.data.test.geometry.resolution), TestResolution(Repeat(1.0, dim)))
  }

  // ---------------------------------------------------------------------------
  // Lines 40-123: rules that read the configuration before the first merge.

  function ForegroundRule(c: Config): Verdict {
    if c.data.train.minimumForegroundPer != -1.0 then
      if !CheckValue(Scalar(c.data.train.minimumForegroundPer)) then
        Raise(ValueError, "DATA.TRAIN.MINIMUM_FOREGROUND_PER", 42)
      else if c.problem.ptype !in ["SEMANTIC_SEG", "INSTANCE_SEG", "DETECTION"] then
        Raise(ValueError, "DATA.TRAIN.MINIMUM_FOREGROUND_PER", 44)
      else Pass
    else Pass
  }

  /** The loop at lines 56-62 over the structuring elements. */
  function FirstDilationRules(xs: seq<Structure>, dim: nat): Verdict
    decreases |xs|
  {
    if xs == [] then Pass
    else if xs[0].AsTuple? then Raise(ValueError, "TEST.POST_PROCESSING.DET_WATERSHED_FIRST_DILATION", 58)
    else if -1 in xs[0].items then Raise(ValueError, "TEST.POST_PROCESSING.DET_WATERSHED_FIRST_DILATION", 60)
    else if |xs[0].items| != dim then Raise(ValueError, "TEST.POST_PROCESSING.DET_WATERSHED_FIRST_DILATION", 62)
    else FirstDilationRules(xs[1..], dim)
  }

  /** Lines 64-72, on a DONUTS_CLASSES list other than `[-1]`. */
  function DonutsRules(classes: seq<int>, nClasses: int, patch: seq<int>, dim: nat): Verdict {
    if |classes| > nClasses then Raise(ValueError, "TEST.POST_PROCESSING.DET_WATERSHED_DONUTS_CLASSES", 65)
    else if classes == [] then Raise(ValueError, "TEST.POST_PROCESSING.DET_WATERSHED_DONUTS_CLASSES", 66)  // np.max of an empty array
    else if Max(classes) > nClasses then Raise(ValueError, "TEST.POST_PROCESSING.DET_WATERSHED_DONUTS_CLASSES", 67)
    else match ElementwiseEqual(classes, Range(Min(classes), |classes| + 1))
      case Failure(e) => Fail(e)
      case Success(eq) =>
        if !AllTrue(eq) then Raise(ValueError, "TEST.POST_PROCESSING.DET_WATERSHED_DONUTS_CLASSES", 70)
        else if |patch| != dim then Raise(ValueError, "TEST.POST_PROCESSING.DET_WATERSHED_DONUTS_PATCH", 72)
        else Pass
  }

  function WatershedRules(c: Config, dim: nat): Verdict {
    var pp := c.test.postProcessing;
    if pp.detWatershed && c.problem.ptype != "DETECTION" then
      Raise(ValueError, "TEST.POST_PROCESSING.DET_WATERSHED", 54)
    else if !pp.detWatershed then Pass
    else
      var v := FirstDilationRules(pp.detWatershedFirstDilation, dim);
      if v.Fail? then v
      else if pp.detWatershedDonutsClasses != [-1] then
        DonutsRules(pp.detWatershedDonutsClasses, c.model.nClasses, pp.detWatershedDonutsPatch, dim)
      else Pass
  }

  /** The DETECTION loop at lines 75-79, from group `i` on. */
  function DetectionFiltersFrom(props: seq<seq<string>>, i: nat): Verdict
    decreases |props| - i
  {
    if i >= |props| then Pass
    else if |props[i]| > 1 then Raise(ValueError, "TEST.POST_PROCESSING.REMOVE_BY_PROPERTIES", 77)
    else if |props[i]| == 1 && props[i][0] != "circularity" then Raise(ValueError, "TEST.POST_PROCESSING.REMOVE_BY_PROPERTIES", 79)
    else DetectionFiltersFrom(props, i + 1)
  }

  const PropertyNames: seq<string> := ["circularity", "npixels", "area", "diameter"]
  const PropertySigns: seq<string> := ["gt", "ge", "lt", "le"]

  /** Some name occurs twice (the `collections.Counter` test at line 98). */
  predicate HasDuplicates(names: seq<string>) {
    exists j, k :: 0 <= j < k < |names| && names[j] == names[k]
  }

  /** The inner loop at lines 100-106, from entry `j` on. */
  function PropertyEntriesFrom(names: seq<string>, values: seq<real>, signs: seq<string>, j: nat): Verdict
    requires |names| == |values| == |signs|
    decreases |names| - j
  {
    if j >= |names| then Pass
    else if names[j] !in PropertyNames then Raise(ValueError, "TEST.POST_PROCESSING.REMOVE_BY_PROPERTIES", 102)
    else if signs[j] !in PropertySigns then Raise(ValueError, "TEST.POST_PROCESSING.REMOVE_BY_PROPERTIES_SIGN", 104)
    else if names[j] == "circularity" && !CheckValue(Scalar(values[j])) then
      Raise(ValueError, "TEST.POST_PROCESSING.REMOVE_BY_PROPERTIES_VALUES", 106)
    else PropertyEntriesFrom(names, values, signs, j + 1)
  }

  /** One iteration (group `i`) of the loop at lines 81-106. VALUES[i] and
      SIGN[i] are indexed only once PROPERTIES[i] is known to be non-empty. */
  function PropertyGroup(pp: PostProcessing, ptype: string, i: nat): Verdict
    requires i < |pp.removeByProperties|
  {
    var names := pp.removeByProperties[i];
    if |names| == 0 then Raise(ValueError, "TEST.POST_PROCESSING.REMOVE_BY_PROPERTIES", 85)
    else if i >= |pp.removeByPropertiesValues| then Raise(IndexError, "TEST.POST_PROCESSING.REMOVE_BY_PROPERTIES_VALUES", 83)
    else if |pp.removeByPropertiesValues[i]| == 0 then Raise(ValueError, "TEST.POST_PROCESSING.REMOVE_BY_PROPERTIES", 85)
    else if i >= |pp.removeByPropertiesSign| then Raise(IndexError, "TEST.POST_PROCESSING.REMOVE_BY_PROPERTIES_SIGN", 84)
    else if |pp.removeByPropertiesSign[i]| == 0 then Raise(ValueError, "TEST.POST_PROCESSING.REMOVE_BY_PROPERTIES", 85)
    else if !(|names| == |pp.removeByPropertiesValues[i]| == |pp.removeByPropertiesSign[i]|) then
      Raise(ValueError, "TEST.POST_PROCESSING.REMOVE_BY_PROPERTIES", 91)
    else if |names| > 0 && ptype !in ["INSTANCE_SEG", "DETECTION"] then
      Raise(ValueError, "TEST.POST_PROCESSING.REMOVE_BY_PROPERTIES", 95)
    else if HasDuplicates(names) then Raise(ValueError, "TEST.POST_PROCESSING.REMOVE_BY_PROPERTIES", 99)
    else PropertyEntriesFrom(names, pp.removeByPropertiesValues[i], pp.removeByPropertiesSign[i], 0)
  }

  /** The loop at lines 81-106, from group `i` on. */
  function PropertyGroupsFrom(pp: PostProcessing, ptype: string, i: nat): Verdict
    decreases |pp.removeByProperties| - i
  {
    if i >= |pp.removeByProperties| then Pass
    else
      var v := PropertyGroup(pp, ptype, i);
      if v.Fail? then v else PropertyGroupsFrom(pp, ptype, i + 1)
  }

  function PostProcessingRules(c: Config): Verdict {
    var pp := c.test.postProcessing;
    var t := c.problem.ptype;
    if t != "INSTANCE_SEG" && pp.voronoiOnMask then Raise(ValueError, "TEST.POST_PROCESSING.VORONOI_ON_MASK", 110)
    else if pp.detWatershed && t != "DETECTION" then Raise(ValueError, "TEST.POST_PROCESSING.DET_WATERSHED", 112)
    else if c.problem.ndim == "2D" && (pp.yzFiltering || pp.zFiltering) && !c.test.analize2dImgsAs3dStack then
      Raise(ValueError, "TEST.POST_PROCESSING.YZ_FILTERING", 117)
    else if (pp.yzFiltering || pp.zFiltering) && t !in ["SEMANTIC_SEG", "INSTANCE_SEG", "DETECTION"] then
      Raise(ValueError, "TEST.POST_PROCESSING.YZ_FILTERING", 122)
    else Pass
  }

  // ---------------------------------------------------------------------------
  // Lines 130-379: rules read after the first merge; the second batch of `opts`.

  const ProblemTypes: seq<string> :=
    ["SEMANTIC_SEG", "INSTANCE_SEG", "CLASSIFICATION", "DETECTION", "DENOISING", "SUPER_RESOLUTION", "SELF_SUPERVISED"]

  function GeneralRules(c: Config): Verdict {
    var ndim := c.problem.ndim;
    var t := c.problem.ptype;
    var st := c.test.stats;
    if ndim !in ["2D", "3D"] then Raise(AssertionError, "PROBLEM.NDIM", 131)
    else if t !in ProblemTypes then Raise(AssertionError, "PROBLEM.TYPE", 132)
    else if ndim == "2D" && !st.perPatch && !st.fullImg then Raise(ValueError, "TEST.STATS.PER_PATCH", 136)
    else if ndim == "3D" && !st.perPatch && !st.mergePatches && t != "CLASSIFICATION" then
      Raise(ValueError, "TEST.STATS.PER_PATCH", 140)
    else if c.loss.ltype != "CE" && t !in ["SEMANTIC_SEG", "DETECTION"] then Raise(ValueError, "LOSS.TYPE", 146)
    else if c.test.enable && c.test.analize2dImgsAs3dStack && ndim == "3D" then
      Raise(ValueError, "TEST.ANALIZE_2D_IMGS_AS_3D_STACK", 149)
    else Pass
  }

  function SemanticRules(c: Config): Verdict {
    if c.model.nClasses < 2 then Raise(ValueError, "MODEL.N_CLASSES", 155)
    else if c.loss.ltype == "MASKED_BCE" && c.model.nClasses > 2 then Raise(ValueError, "LOSS.TYPE", 158)
    else Pass
  }

  const InstanceChannels: seq<string> := ["BC", "BCM", "BCD", "BCDv2", "Dv2", "BDv2", "BP", "BD"]

  function InstanceRules(c: Config, channelsProvided: nat): Verdict {
    var seg := c.problem.instanceSeg;
    var pp := c.test.postProcessing;
    if seg.dataChannels !in InstanceChannels then Raise(AssertionError, "PROBLEM.INSTANCE_SEG.DATA_CHANNELS", 162)
    else if |seg.dataChannelWeights| != channelsProvided then
      Raise(ValueError, "PROBLEM.INSTANCE_SEG.DATA_CHANNEL_WEIGHTS", 165)
    else if pp.voronoiOnMask && seg.dataChannels !in ["BC", "BCM", "BCD", "BCDv2"] then
      Raise(ValueError, "PROBLEM.INSTANCE_SEG.DATA_CHANNELS", 170)
    else if pp.voronoiOnMask && !CheckValue(Scalar(pp.voronoiTh)) then
      Raise(ValueError, "TEST.POST_PROCESSING.VORONOI_TH", 173)
    else if seg.dataChannels !in ["BC", "BCM", "BCD", "BP"] && seg.erodeAndDilateForeground then
      Raise(ValueError, "PROBLEM.INSTANCE_SEG.ERODE_AND_DILATE_FOREGROUND", 175)
    else if exists k :: 0 <= k < |seg.seedMorphSequence| && seg.seedMorphSequence[k] != "dilate" && seg.seedMorphSequence[k] != "erode" then
      Raise(ValueError, "PROBLEM.INSTANCE_SEG.SEED_MORPH_SEQUENCE", 178)
    else if |seg.seedMorphSequence| != |seg.seedMorphRadius| then
      Raise(ValueError, "PROBLEM.INSTANCE_SEG.SEED_MORPH_SEQUENCE", 181)
    else if seg.dataContourMode !in ["thick", "inner", "outer", "subpixel", "dense"] then
      Raise(ValueError, "PROBLEM.INSTANCE_SEG.DATA_CONTOUR_MODE", 183)
    else if seg.dataContourMode == "dense" && seg.dataChannels == "BCM" then
      Raise(ValueError, "PROBLEM.INSTANCE_SEG.DATA_CONTOUR_MODE", 185)
    else Pass
  }

  /** Lines 190-201. With DET_WATERSHED on, the block cannot pass: an empty
      REMOVE_BY_PROPERTIES fails at the `[0]` of line 196, a non-empty first
      group is rejected by line 197, and an empty one fails at the `[0][0]`
      of line 198. */
  function DetectionRules(c: Config, dim: nat): Verdict {
    var pp := c.test.postProcessing;
    if c.model.nClasses < 2 then Raise(ValueError, "MODEL.N_CLASSES", 191)
    else if pp.detWatershed then
      if exists k :: 0 <= k < |pp.detWatershedFirstDilation| && |pp.detWatershedFirstDilation[k].items| != dim then
        Raise(ValueError, "TEST.POST_PROCESSING.DET_WATERSHED_FIRST_DILATION", 194)
      else if |pp.removeByProperties| == 0 then Raise(IndexError, "TEST.POST_PROCESSING.REMOVE_BY_PROPERTIES", 196)
      else if |pp.removeByProperties[0]| != 0 then Raise(ValueError, "TEST.POST_PROCESSING.REMOVE_BY_PROPERTIES", 197)
      else Raise(IndexError, "TEST.POST_PROCESSING.REMOVE_BY_PROPERTIES", 198)
    else if c.test.detPointCreationFunction !in ["peak_local_max", "blob_log"] then
      Raise(ValueError, "TEST.DET_POINT_CREATION_FUNCTION", 201)
    else Pass
  }

  function SuperResolutionRules(c: Config): Verdict {
    if c.problem.upscaling == 1 then Raise(ValueError, "PROBLEM.SUPER_RESOLUTION.UPSCALING", 206)
    else if c.problem.upscaling !in [2, 4] then Raise(AssertionError, "PROBLEM.SUPER_RESOLUTION.UPSCALING", 207)
    else Pass
  }

  function SelfSupervisedRules(c: Config, arch: string): Verdict {
    if c.problem.pretextTask == "crappify" then
      if c.problem.resizingFactor !in [2, 4, 6] then Raise(ValueError, "PROBLEM.SELF_SUPERVISED.RESIZING_FACTOR", 213)
      else if !CheckValue(Scalar(c.problem.noise)) then Raise(ValueError, "PROBLEM.SELF_SUPERVISED.NOISE", 215)
      else Pass
    else if c.problem.pretextTask == "masking" then
      if arch != "mae" then Raise(ValueError, "MODEL.ARCHITECTURE", 218) else Pass
    else Raise(ValueError, "PROBLEM.SELF_SUPERVISED.PRETEXT_TASK", 220)
  }

  function DenoisingRules(c: Config): Verdict {
    if c.data.test.loadGt then Raise(ValueError, "DATA.TEST.LOAD_GT", 224)
    else if !CheckValue(Scalar(c.problem.n2vPercPix)) then Raise(ValueError, "PROBLEM.DENOISING.N2V_PERC_PIX", 226)
    else Pass
  }

  function ClassificationRules(c: Config): Verdict {
    if c.test.byChunks.enable then Raise(ValueError, "TEST.BY_CHUNKS.ENABLE", 231) else Pass
  }

  /** Lines 152-231: the verdict of the workflow PROBLEM.TYPE names, given
      the verdict of each workflow's rules. */
  function WorkflowVerdict(t: string, semantic: Verdict, instance: Verdict, detection: Verdict,
                           superResolution: Verdict, selfSupervised: Verdict, denoising: Verdict,
                           classification: Verdict): Verdict {
    if t == "SEMANTIC_SEG" then semantic
    else if t == "INSTANCE_SEG" then instance
    else if t == "DETECTION" then detection
    else if t == "SUPER_RESOLUTION" then superResolution
    else if t == "SELF_SUPERVISED" then selfSupervised
    else if t == "DENOISING" then denoising
    else if t == "CLASSIFICATION" then classification
    else Pass
  }

  /** Lines 152-231: the subtree selected by PROBLEM.TYPE. */
  function WorkflowRules(c: Config, dim: nat, arch: string, channelsProvided: nat): Verdict {
    WorkflowVerdict(c.problem.ptype, SemanticRules(c), InstanceRules(c, channelsProvided), DetectionRules(c, dim),
                    SuperResolutionRules(c), SelfSupervisedRules(c, arch), DenoisingRules(c), ClassificationRules(c))
  }

  /** Line 235; the sum is compared exactly. */
  function PreprocessingRule(c: Config): Verdict {
    if c.data.extractRandomPatch && c.data.probabilityMap && c.data.wForeground + c.data.wBackground != 1.0 then
      Raise(ValueError, "DATA.W_FOREGROUND", 236)
    else Pass
  }

  const UnsupervisedTypes: seq<string> := ["DENOISING", "CLASSIFICATION", "SELF_SUPERVISED"]

  /** Lines 239-253; `pathExists` stands for `os.path.exists`. */
  function DataPathRules(c: Config, checkDataPaths: bool, pathExists: string -> bool): Verdict {
    var t := c.problem.ptype;
    var d := c.data;
    if c.train.enable && checkDataPaths && !pathExists(d.train.path) then Raise(ValueError, "DATA.TRAIN.PATH", 241)
    else if c.train.enable && checkDataPaths && !pathExists(d.train.gtPath) && t !in UnsupervisedTypes then
      Raise(ValueError, "DATA.TRAIN.GT_PATH", 243)
    else if c.train.enable && checkDataPaths && !d.val.fromTrain && !d.val.inMemory && !pathExists(d.val.path) then
      Raise(ValueError, "DATA.VAL.PATH", 246)
    else if c.train.enable && checkDataPaths && !d.val.fromTrain && !d.val.inMemory && !pathExists(d.val.gtPath) && t !in UnsupervisedTypes then
      Raise(ValueError, "DATA.VAL.GT_PATH", 248)
    else if c.test.enable && !d.test.useValAsTest && checkDataPaths && !pathExists(d.test.path) then
      Raise(ValueError, "DATA.TEST.PATH", 251)
    else if c.test.enable && !d.test.useValAsTest && checkDataPaths && d.test.loadGt && !pathExists(d.test.gtPath)
      && t !in ["CLASSIFICATION", "SELF_SUPERVISED"] then
      Raise(ValueError, "DATA.TEST.GT_PATH", 253)
    else Pass
  }

  /** Lines 254-261; the lower-cased format goes into the second batch. */
  function ByChunksRules(c: Config): (r: Result<seq<Override>, Error>)
    ensures r.Success? ==> |r.value| <= 1 && forall i :: 0 <= i < |r.value| ==> KeyOf(r.value[i]) == ByChunksFormatKey
  {
    var bc := c.test.byChunks;
    if !bc.enable then Success([])
    else if c.problem.ndim == "2D" then Reject(ValueError, "TEST.BY_CHUNKS.ENABLE", 256)
    else if Lower(bc.format) !in ["h5", "zarr"] then Reject(AssertionError, "TEST.BY_CHUNKS.FORMAT", 257)
    else if bc.workflowProcessEnable && bc.workflowProcessType !in ["chunk_by_chunk", "entire_pred"] then
      Reject(AssertionError, "TEST.BY_CHUNKS.WORKFLOW_PROCESS.TYPE", 260)
    else Success([ByChunksFormat(Lower(bc.format))])
  }

  function TrainDataRules(c: Config): Verdict {
    var d := c.data;
    if c.train.enable && d.extractRandomPatch && d.probabilityMap && c.problem.ptype != "SEMANTIC_SEG" then
      Raise(ValueError, "DATA.PROBABILITY_MAP", 265)
    else if c.train.enable && d.val.fromTrain && !d.val.crossVal && d.val.splitTrain <= 0.0 then
      Raise(ValueError, "DATA.VAL.SPLIT_TRAIN", 268)
    else if c.train.enable && d.val.fromTrain && !d.train.inMemory then Raise(ValueError, "DATA.VAL.FROM_TRAIN", 271)
    else Pass
  }

  function CrossValRules(c: Config): Verdict {
    var d := c.data;
    if d.val.crossVal && !d.val.fromTrain then Raise(ValueError, "DATA.VAL.CROSS_VAL", 275)
    else if d.val.crossVal && d.val.crossValNFold < d.val.crossValFold then Raise(ValueError, "DATA.VAL.CROSS_VAL_NFOLD", 277)
    else if d.test.useValAsTest && !d.val.crossVal then Raise(ValueError, "DATA.TEST.USE_VAL_AS_TEST", 281)
    else Pass
  }

  /** The warnings printed at lines 142, 279 and 283, in that order. */
  function Warnings(c: Config): seq<Warning> {
    (if c.problem.ndim == "3D" && c.test.stats.fullImg then [FullImageStatsDisabled] else [])
    + (if c.data.val.crossVal && !c.data.val.inMemory then [ValInMemoryIgnored] else [])
    + (if c.data.test.useValAsTest && !c.train.enable && c.data.test.inMemory then [TestInMemoryDisabled] else [])
  }

  /** The tuple lengths and overlap ranges of one split (lines 291-314): the
      three raises sit at `line`, `line + 3` and `line + 5`. */
  function SplitShapeRules(g: Geometry, dim: nat, split: string, line: int): Verdict {
    if |g.overlap| != dim then Raise(ValueError, "DATA." + split + ".OVERLAP", line)
    else if exists k :: 0 <= k < |g.overlap| && !CheckValue(Scalar(g.overlap[k])) then
      Raise(ValueError, "DATA." + split + ".OVERLAP", line + 3)
    else if |g.padding| != dim then Raise(ValueError, "DATA." + split + ".PADDING", line + 5)
    else Pass
  }

  function ShapeRules(c: Config, dim: nat): Verdict {
    var d := c.data;
    if |d.train.geometry.resolution| != dim then Raise(ValueError, "DATA.TRAIN.RESOLUTION", 285)
    else if |d.val.geometry.resolution| != dim then Raise(ValueError, "DATA.VAL.RESOLUTION", 287)
    else if |d.test.geometry.resolution| != dim then Raise(ValueError, "DATA.TEST.RESOLUTION", 289)
    else
      var tr := SplitShapeRules(d.train.geometry, dim, "TRAIN", 292);
      var va := SplitShapeRules(d.val.geometry, dim, "VAL", 300);
      var te := SplitShapeRules(d.test.geometry, dim, "TEST", 308);
      if tr.Fail? then tr
      else if va.Fail? then va
      else if te.Fail? then te
      else if |d.patchSize| != dim + 1 then Raise(ValueError, "DATA.PATCH_SIZE", 316)
      // Lines 318-326 repeat the resolution test with "or length 1"; after
      // lines 284-289 they cannot fire.
      else if |d.train.geometry.resolution| != 1 && |d.train.geometry.resolution| != dim then
        Raise(ValueError, "DATA.TRAIN.RESOLUTION", 319)
      else if |d.val.geometry.resolution| != 1 && |d.val.geometry.resolution| != dim then
        Raise(ValueError, "DATA.VAL.RESOLUTION", 322)
      else if |d.test.geometry.resolution| != 1 && |d.test.geometry.resolution| != dim then
        Raise(ValueError, "DATA.TEST.RESOLUTION", 325)
      else Pass
  }

  /** Lines 327-333; the existence test of line 330 runs whatever `check_data_paths` says. */
  function NormalizationRules(c: Config, pathExists: string -> bool): Verdict {
    var n := c.data.normalization;
    if n.ntype !in ["div", "custom"] then Raise(AssertionError, "DATA.NORMALIZATION.TYPE", 327)
    else if n.ntype == "custom" && n.customMean == -1.0 && n.customStd == -1.0
      && (!pathExists(c.paths.meanInfoFile) || !pathExists(c.paths.stdInfoFile)) && !c.data.train.inMemory then
      Raise(ValueError, "DATA.TRAIN.IN_MEMORY", 332)
    else Pass
  }

  const Architectures: seq<string> :=
    ["unet", "resunet", "resunet++", "attention_unet", "multiresunet", "seunet", "simple_cnn", "efficientnet_b0",
     "efficientnet_b1", "efficientnet_b2", "efficientnet_b3", "efficientnet_b4", "efficientnet_b5", "efficientnet_b6",
     "efficientnet_b7", "unetr", "edsr", "rcan", "dfcan", "wdsr", "vit", "mae"]

  /** The U-Net-like architectures of lines 342 and 424. */
  const UNetFamily: seq<string> := ["unet", "resunet", "resunet++", "seunet", "attention_unet", "multiresunet"]

  const TransformerFamily: seq<string> := ["vit", "unetr", "mae"]

  function ModelRules(c: Config, arch: string): Verdict {
    if arch !in Architectures then Raise(AssertionError, "MODEL.ARCHITECTURE", 336)
    else if arch !in ["unet", "resunet", "resunet++", "seunet", "attention_unet", "multiresunet", "unetr", "vit", "mae"]
      && c.problem.ndim == "3D" && c.problem.ptype != "CLASSIFICATION" then
      Raise(ValueError, "MODEL.ARCHITECTURE", 341)
    else if c.model.nClasses > 2 && c.problem.ptype != "CLASSIFICATION" && arch !in UNetFamily then
      Raise(ValueError, "MODEL.N_CLASSES", 343)
    else if |c.model.featureMaps| <= 2 then Raise(AssertionError, "MODEL.FEATURE_MAPS", 345)
    else Pass
  }

  /** Lines 348-362: adjust MODEL.DROPOUT_VALUES to the architecture. */
  function DropoutDefaults(c: Config, arch: string): (r: Result<seq<Override>, Error>)
    ensures r.Success? ==> |r.value| <= 1 && forall i :: 0 <= i < |r.value| ==> KeyOf(r.value[i]) == DropoutValuesKey
  {
    var d := c.model.dropoutValues;
    var levels := |c.model.featureMaps|;
    if arch in TransformerFamily then
      if AllZero(d) then Success([DropoutValues([0.0])])
      else if |d| != 1 then Reject(ValueError, "MODEL.DROPOUT_VALUES", 352)
      else if !CheckValue(Scalar(d[0])) then Reject(ValueError, "MODEL.DROPOUT_VALUES", 354)
      else Success([])
    else if levels != |d| then
      if AllZero(d) then Success([DropoutValues(Repeat(0.0, levels))])
      else if !AllWithinUnit(d) then Reject(ValueError, "MODEL.DROPOUT_VALUES", 360)
      else Reject(ValueError, "MODEL.DROPOUT_VALUES", 362)
    else Success([])
  }

  predicate SuperResolution3D(c: Config) {
    c.problem.ptype == "SUPER_RESOLUTION" && c.problem.ndim == "3D"
  }

  /** Lines 365-379: adjust MODEL.Z_DOWN to the feature maps. The test at
      line 373 asks `any` of a list of `False`, so it never raises. */
  function ZDownDefaults(c: Config, arch: string): (r: Result<seq<Override>, Error>)
    ensures r.Success? ==> |r.value| <= 1 && forall i :: 0 <= i < |r.value| ==> KeyOf(r.value[i]) == ZDownKey
  {
    var z := c.model.zDown;
    var levels := |c.model.featureMaps|;
    if AllZeroInts(z) then
      Success([ZDown(Repeat(if SuperResolution3D(c) then 1 else 2, levels - 1))])
    else if SuperResolution3D(c) && exists k :: 0 <= k < |z| && z[k] != 1 then
      Reject(ValueError, "MODEL.Z_DOWN", 372)
    else if AnyTrue(FalseForInvalidZDown(z)) then Reject(ValueError, "MODEL.Z_DOWN", 374)
    else if arch == "multiresunet" && |z| != 4 then Reject(ValueError, "MODEL.Z_DOWN", 377)
    else if levels - 1 != |z| then Reject(ValueError, "MODEL.Z_DOWN", 379)
    else Success([])
  }

  // ---------------------------------------------------------------------------
  // Lines 384-516: rules read after the second merge.

  const Activations: seq<string> :=
    ["relu", "tanh", "leaky_relu", "elu", "gelu", "silu", "sigmoid", "softmax", "linear", "none"]

  /** Lines 384-389. A failing assertion at 384 builds its message from the
      undefined name `activation`, so what is raised is a NameError. */
  function ActivationRules(c: Config): Verdict {
    if Lower(c.model.lastActivation) !in Activations then Raise(NameError, "MODEL.LAST_ACTIVATION", 385)
    else if Lower(c.model.upsampleLayer) !in ["upsampling", "convtranspose"] then
      Raise(ValueError, "MODEL.UPSAMPLE_LAYER", 388)
    else Pass
  }

  /** Lines 390-414: which architectures each workflow may use. */
  function ArchitectureRules(c: Config, arch: string): Verdict {
    var t := c.problem.ptype;
    var ndim := c.problem.ndim;
    if t == "SEMANTIC_SEG" && arch !in ["unet", "resunet", "resunet++", "attention_unet", "multiresunet", "seunet", "unetr"] then
      Raise(ValueError, "MODEL.ARCHITECTURE", 392)
    else if t == "INSTANCE_SEG" && arch !in ["unet", "resunet", "resunet++", "seunet", "attention_unet", "unetr", "multiresunet"] then
      Raise(ValueError, "MODEL.ARCHITECTURE", 395)
    else if t in ["DETECTION", "DENOISING"] && arch !in ["unet", "resunet", "resunet++", "seunet", "attention_unet"] then
      Raise(ValueError, "MODEL.ARCHITECTURE", 398)
    else if t == "SUPER_RESOLUTION" && ndim == "2D"
      && arch !in ["edsr", "rcan", "dfcan", "wdsr", "unet", "resunet", "resunet++", "seunet", "attention_unet", "multiresunet"] then
      Raise(ValueError, "MODEL.ARCHITECTURE", 402)
    else if t == "SUPER_RESOLUTION" && ndim == "3D" && arch !in UNetFamily then
      Raise(ValueError, "MODEL.ARCHITECTURE", 405)
    else if t == "SUPER_RESOLUTION" && ndim == "3D" && c.model.unetSrUpsamplePosition !in ["pre", "post"] then
      Raise(AssertionError, "MODEL.UNET_SR_UPSAMPLE_POSITION", 406)
    else if t == "SELF_SUPERVISED" && arch !in ["unet", "resunet", "resunet++", "attention_unet", "multiresunet", "seunet",
      "unetr", "edsr", "rcan", "dfcan", "wdsr", "vit", "mae"] then
      Raise(ValueError, "MODEL.ARCHITECTURE", 410)
    else if t == "CLASSIFICATION" && arch !in ["simple_cnn", "vit"] && !Contains(arch, "efficientnet") then
      Raise(ValueError, "MODEL.ARCHITECTURE", 414)
    else Pass
  }

  /** Every spatial extent of the patch equals the first one (line 420). */
  predicate CubicPatch(p: seq<int>) {
    forall k :: 0 <= k < |ButLast(p)| ==> ButLast(p)[k] == p[0]
  }

  /** Lines 415-421, for the transformer-based architectures. */
  function TransformerRules(c: Config, arch: string): Verdict {
    if arch !in ["unetr", "vit", "mae"] then Pass
    else if arch == "mae" && c.problem.ptype != "SELF_SUPERVISED" then Raise(ValueError, "MODEL.ARCHITECTURE", 417)
    else if c.model.vitNumHeads == 0 then Raise(ZeroDivisionError, "MODEL.VIT_NUM_HEADS", 418)
    else if c.model.vitEmbedDim % c.model.vitNumHeads != 0 then Raise(ValueError, "MODEL.VIT_EMBED_DIM", 419)
    else if !CubicPatch(c.data.patchSize) then Raise(ValueError, "DATA.PATCH_SIZE", 421)
    else Pass
  }

  /** The patch extents checked at U-Net level `i` (lines 426-429): the z axis
      is skipped when that level does not downsample in z, or in 3D
      super-resolution. */
  function LevelSizes(c: Config, i: nat): seq<int>
    requires i < |c.model.zDown|
  {
    if c.model.zDown[i] == 1 || SuperResolution3D(c) then Inner(c.data.patchSize) else ButLast(c.data.patchSize)
  }

  /** The loop at lines 425-432, from level `i` on. */
  function UNetLevelsFrom(c: Config, i: nat): Verdict
    decreases |c.model.featureMaps| - i
  {
    if i + 1 >= |c.model.featureMaps| then Pass
    else if i >= |c.model.zDown| then Raise(IndexError, "MODEL.Z_DOWN", 426)
    else if !AllTrue(FalseForIndivisible(LevelSizes(c, i), Pow2(i + 1))) then Raise(ValueError, "DATA.PATCH_SIZE", 431)
    else UNetLevelsFrom(c, i + 1)
  }

  function TrainRules(c: Config): Verdict {
    var s := c.train.lrScheduler;
    if c.train.optimizer !in ["SGD", "ADAM", "ADAMW"] then Raise(AssertionError, "TRAIN.OPTIMIZER", 435)
    else if c.loss.ltype !in ["CE", "W_CE_DICE", "MASKED_BCE"] then Raise(AssertionError, "LOSS.TYPE", 436)
    else if s.name == "" then Pass
    else if s.name !in ["reduceonplateau", "warmupcosine", "onecycle"] then Raise(ValueError, "TRAIN.LR_SCHEDULER.NAME", 439)
    else if s.minLr == -1.0 && s.name != "onecycle" then Raise(ValueError, "TRAIN.LR_SCHEDULER.MIN_LR", 441)
    else if s.name == "reduceonplateau" && s.reduceOnPlateauPatience == -1 then
      Raise(ValueError, "TRAIN.LR_SCHEDULER.REDUCEONPLATEAU_PATIENCE", 445)
    else if s.name == "reduceonplateau" && s.reduceOnPlateauPatience >= c.train.patience then
      Raise(ValueError, "TRAIN.LR_SCHEDULER.REDUCEONPLATEAU_PATIENCE", 447)
    else if s.name == "warmupcosine" && s.warmupCosineDecayEpochs == -1 then
      Raise(ValueError, "TRAIN.LR_SCHEDULER.WARMUP_COSINE_DECAY_EPOCHS", 451)
    else Pass
  }

  /** A mode given as '2D'/'3D' is only checked in 3D problems (lines 467-477). */
  predicate BadMode(on: bool, mode: string, ndim: string) {
    on && mode !in ["2D", "3D"] && ndim == "3D"
  }

  /** Lines 453-506: an enabled augmentor has its transformations checked,
      then its grid mask. */
  function AugmentationRules(c: Config): Verdict {
    if !c.augmentor.enable then Pass
    else match TransformationRules(c)
      case Fail(e) => Fail(e)
      case Pass => GridMaskRules(c)
  }

  /** Lines 455-496: the probability and each enabled transformation. */
  function TransformationRules(c: Config): Verdict {
    var a := c.augmentor;
    var ndim := c.problem.ndim;
    if !CheckValue(Scalar(a.daProb)) then Raise(ValueError, "AUGMENTOR.DA_PROB", 456)
    else if a.randomRot && !CheckValue(Items(a.randomRotRange), -360.0, 360.0) then Raise(ValueError, "AUGMENTOR.RANDOM_ROT_RANGE", 459)
    else if a.shear && !CheckValue(Items(a.shearRange), -360.0, 360.0) then Raise(ValueError, "AUGMENTOR.SHEAR_RANGE", 462)
    else if a.elastic && a.eMode !in ["constant", "nearest", "reflect", "wrap"] then Raise(ValueError, "AUGMENTOR.E_MODE", 465)
    else if BadMode(a.brightness, a.brightnessMode, ndim) then Raise(ValueError, "AUGMENTOR.BRIGHTNESS_MODE", 468)
    else if BadMode(a.contrast, a.contrastMode, ndim) then Raise(ValueError, "AUGMENTOR.CONTRAST_MODE", 471)
    else if BadMode(a.brightnessEm, a.brightnessEmMode, ndim) then Raise(ValueError, "AUGMENTOR.BRIGHTNESS_EM_MODE", 474)
    else if BadMode(a.contrastEm, a.contrastEmMode, ndim) then Raise(ValueError, "AUGMENTOR.CONTRAST_EM_MODE", 477)
    else if a.dropout && !CheckValue(Items(a.dropRange)) then Raise(ValueError, "AUGMENTOR.DROP_RANGE", 480)
    else if a.cutout && !CheckValue(Items(a.coutSize)) then Raise(ValueError, "AUGMENTOR.COUT_SIZE", 483)
    else if a.cutblur && !CheckValue(Items(a.cblurSize)) then Raise(ValueError, "AUGMENTOR.CBLUR_SIZE", 486)
    else if a.cutblur && !CheckValue(Items(a.cblurDownRange), 1.0, 8.0) then Raise(ValueError, "AUGMENTOR.CBLUR_DOWN_RANGE", 488)
    else if a.cutmix && !CheckValue(Items(a.cmixSize)) then Raise(ValueError, "AUGMENTOR.CMIX_SIZE", 491)
    else if a.cutnoise && !CheckValue(Items(a.cnoiseScale)) then Raise(ValueError, "AUGMENTOR.CNOISE_SCALE", 494)
    else if a.cutnoise && !CheckValue(Items(a.cnoiseSize)) then Raise(ValueError, "AUGMENTOR.CNOISE_SIZE", 496)
    else Pass
  }

  /** Lines 497-506. A GRID_D_RANGE shorter than two raises IndexError at
      line 500. */
  function GridMaskRules(c: Config): Verdict {
    var a := c.augmentor;
    if !a.gridmask then Pass
    else if !CheckValue(Scalar(a.gridRatio)) then Raise(ValueError, "AUGMENTOR.GRID_RATIO", 499)
    else if |a.gridDRange| < 2 then Raise(IndexError, "AUGMENTOR.GRID_D_RANGE", 500)
    else if a.gridDRange[0] >= a.gridDRange[1] then Raise(ValueError, "AUGMENTOR.GRID_D_RANGE", 501)
    else if !CheckValue(Items(a.gridDRange)) then Raise(ValueError, "AUGMENTOR.GRID_D_RANGE", 504)
    else if !CheckValue(Scalar(a.gridRotate)) then Raise(ValueError, "AUGMENTOR.GRID_ROTATE", 506)
    else Pass
  }

  function ClosePointsRules(c: Config, dim: nat): Verdict {
    var pp := c.test.postProcessing;
    var r := c.data.test.geometry.resolution;
    if !pp.removeClosePoints then Pass
    else if |r| == 1 then Raise(ValueError, "DATA.TEST.RESOLUTION", 511)
    else if |r| != dim then Raise(ValueError, "DATA.TEST.RESOLUTION", 513)
    else if |pp.removeClosePointsRadius| == 0 then Raise(IndexError, "TEST.POST_PROCESSING.REMOVE_CLOSE_POINTS_RADIUS", 515)
    else if pp.removeClosePointsRadius[0] == -1.0 then Raise(ValueError, "TEST.POST_PROCESSING.REMOVE_CLOSE_POINTS_RADIUS", 516)
    else Pass
  }
}
