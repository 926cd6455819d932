/** The experiment configuration that `check_configuration` reads and
    normalizes: one record per namespace (PROBLEM, DATA, MODEL, TRAIN, LOSS,
    TEST, AUGMENTOR, PATHS), holding only the keys the checker touches.
    Names of workflows, architectures and modes stay strings, because the
    checker compares raw strings and rejects unknown ones only where it says so. */
module Configuration {

  datatype InstanceSeg = InstanceSeg(
    dataChannels: string,                 // PROBLEM.INSTANCE_SEG.DATA_CHANNELS
    dataChannelWeights: seq<real>,        // PROBLEM.INSTANCE_SEG.DATA_CHANNEL_WEIGHTS
    erodeAndDilateForeground: bool,
    seedMorphSequence: seq<string>,
    seedMorphRadius: seq<int>,
    dataContourMode: string)

  datatype Problem = Problem(
    ndim: string,                         // PROBLEM.NDIM
    ptype: string,                        // PROBLEM.TYPE
    instanceSeg: InstanceSeg,
    upscaling: int,                       // PROBLEM.SUPER_RESOLUTION.UPSCALING
    pretextTask: string,                  // PROBLEM.SELF_SUPERVISED.PRETEXT_TASK
    resizingFactor: int,                  // PROBLEM.SELF_SUPERVISED.RESIZING_FACTOR
    noise: real,                          // PROBLEM.SELF_SUPERVISED.NOISE
    n2vPercPix: real)                     // PROBLEM.DENOISING.N2V_PERC_PIX

  /** The tiling geometry every data split carries. */
  datatype Geometry = Geometry(overlap: seq<real>, padding: seq<int>, resolution: seq<real>)

  datatype TrainData = TrainData(
    geometry: Geometry,
    minimumForegroundPer: real,
    path: string,
    gtPath: string,
    inMemory: bool)

  datatype ValData = ValData(
    geometry: Geometry,
    path: string,
    gtPath: string,
    inMemory: bool,
    fromTrain: bool,
    crossVal: bool,
    crossValNFold: int,
    crossValFold: int,
    splitTrain: real)

  datatype TestData = TestData(
    geometry: Geometry,
    path: string,
    gtPath: string,
    inMemory: bool,
    loadGt: bool,
    useValAsTest: bool)

  datatype Normalization = Normalization(ntype: string, customMean: real, customStd: real)

  datatype Data = Data(
    train: TrainData,
    val: ValData,
    test: TestData,
    patchSize: seq<int>,                  // DATA.PATCH_SIZE, channels last
    extractRandomPatch: bool,
    probabilityMap: bool,
    wForeground: real,
    wBackground: real,
    normalization: Normalization)

  datatype Model = Model(
    architecture: string,
    nClasses: int,
    featureMaps: seq<int>,
    dropoutValues: seq<real>,
    zDown: seq<int>,
    lastActivation: string,
    upsampleLayer: string,
    unetSrUpsamplePosition: string,
    vitEmbedDim: int,
    vitNumHeads: int)

  datatype LrScheduler = LrScheduler(
    name: string,
    minLr: real,
    reduceOnPlateauPatience: int,
    warmupCosineDecayEpochs: int)

  datatype Train = Train(enable: bool, optimizer: string, patience: int, lrScheduler: LrScheduler)

  datatype Loss = Loss(ltype: string)

  datatype Stats = Stats(perPatch: bool, mergePatches: bool, fullImg: bool)

  datatype ByChunks = ByChunks(
    enable: bool,
    format: string,
    workflowProcessEnable: bool,
    workflowProcessType: string)

  /** One structuring element of DET_WATERSHED_FIRST_DILATION: the checker
      insists on a list and rejects any other sequence type. */
  datatype Structure = AsList(items: seq<int>) | AsTuple(items: seq<int>)

  datatype PostProcessing = PostProcessing(
    detWatershed: bool,
    detWatershedFirstDilation: seq<Structure>,
    detWatershedDonutsClasses: seq<int>,
    detWatershedDonutsPatch: seq<int>,
    removeByProperties: seq<seq<string>>,
    removeByPropertiesValues: seq<seq<real>>,
    removeByPropertiesSign: seq<seq<string>>,
    voronoiOnMask: bool,
    voronoiTh: real,
    yzFiltering: bool,
    zFiltering: bool,
    removeClosePoints: bool,
    removeClosePointsRadius: seq<real>)

  datatype Test = Test(
    enable: bool,
    analize2dImgsAs3dStack: bool,
    stats: Stats,
    detPointCreationFunction: string,
    byChunks: ByChunks,
    postProcessing: PostProcessing)

  datatype Augmentor = Augmentor(
    enable: bool,
    daProb: real,
    randomRot: bool, randomRotRange: seq<real>,
    shear: bool, shearRange: seq<real>,
    elastic: bool, eMode: string,
    brightness: bool, brightnessMode: string,
    contrast: bool, contrastMode: string,
    brightnessEm: bool, brightnessEmMode: string,
    contrastEm: bool, contrastEmMode: string,
    dropout: bool, dropRange: seq<real>,
    cutout: bool, coutSize: seq<real>,
    cutblur: bool, cblurSize: seq<real>, cblurDownRange: seq<real>,
    cutmix: bool, cmixSize: seq<real>,
    cutnoise: bool, cnoiseScale: seq<real>, cnoiseSize: seq<real>,
    gridmask: bool, gridRatio: real, gridDRange: seq<real>, gridRotate: real)

  datatype Paths = Paths(meanInfoFile: string, stdInfoFile: string)

  datatype Config = Config(
    problem: Problem,
    data: Data,
    model: Model,
    train: Train,
    loss: Loss,
    test: Test,
    augmentor: Augmentor,
    paths: Paths)

  /** One key/value pair of the `opts` list the checker hands to
      `merge_from_list`; each constructor is one dotted key. */
  datatype Override =
    | TrainOverlap(reals: seq<real>)      // DATA.TRAIN.OVERLAP
    | TrainPadding(ints: seq<int>)        // DATA.TRAIN.PADDING
    | ValOverlap(reals: seq<real>)        // DATA.VAL.OVERLAP
    | ValPadding(ints: seq<int>)          // DATA.VAL.PADDING
    | TestOverlap(reals: seq<real>)       // DATA.TEST.OVERLAP
    | TestPadding(ints: seq<int>)         // DATA.TEST.PADDING
    | ChannelWeights(reals: seq<real>)    // PROBLEM.INSTANCE_SEG.DATA_CHANNEL_WEIGHTS
    | TrainResolution(reals: seq<real>)   // DATA.TRAIN.RESOLUTION
    | ValResolution(reals: seq<real>)     // DATA.VAL.RESOLUTION
    | TestResolution(reals: seq<real>)    // DATA.TEST.RESOLUTION
    | ByChunksFormat(text: string)        // TEST.BY_CHUNKS.FORMAT
    | DropoutValues(reals: seq<real>)     // MODEL.DROPOUT_VALUES
    | ZDown(ints: seq<int>)               // MODEL.Z_DOWN
  {
    /** Keys written by the second batch (before the merge at line 382). */
    predicate IsModelOrChunking() {
      ByChunksFormat? || DropoutValues? || ZDown?
    }

    /** Keys written by the first batch (before the merge at line 127). */
    predicate IsGeometryOrWeights() {
      !IsModelOrChunking()
    }
  }

  function Apply(c: Config, o: Override): Config {
    match o
    case TrainOverlap(v) => c.(data := c.data.(train := c.data.train.(geometry := c.data.train.geometry.(overlap := v))))
    case TrainPadding(v) => c.(data := c.data.(train := c.data.train.(geometry := c.data.train.geometry.(padding := v))))
    case ValOverlap(v) => c.(data := c.data.(val := c.data.val.(geometry := c.data.val.geometry.(overlap := v))))
    case ValPadding(v) => c.(data := c.data.(val := c.data.val.(geometry := c.data.val.geometry.(padding := v))))
    case TestOverlap(v) => c.(data := c.data.(test := c.data.test.(geometry := c.data.test.geometry.(overlap := v))))
    case TestPadding(v) => c.(data := c.data.(test := c.data.test.(geometry := c.data.test.geometry.(padding := v))))
    case ChannelWeights(v) => c.(problem := c.problem.(instanceSeg := c.problem.instanceSeg.(dataChannelWeights := v)))
    case TrainResolution(v) => c.(data := c.data.(train := c.data.train.(geometry := c.data.train.geometry.(resolution := v))))
    case ValResolution(v) => c.(data := c.data.(val := c.data.val.(geometry := c.data.val.geometry.(resolution := v))))
    case TestResolution(v) => c.(data := c.data.(test := c.data.test.(geometry := c.data.test.geometry.(resolution := v))))
    case ByChunksFormat(v) => c.(test := c.test.(byChunks := c.test.byChunks.(format := v)))
    case DropoutValues(v) => c.(model := c.model.(dropoutValues := v))
    case ZDown(v) => c.(model := c.model.(zDown := v))
  }

  /** `cfg.merge_from_list(opts)` as a record update: the pairs are applied
      left to right, so a later pair for the same key wins. */
  function Merge(c: Config, opts: seq<Override>): Config
    decreases |opts|
  {
    if opts == [] then c else Merge(Apply(c, opts[0]), opts[1..])
  }

  lemma {:induction false} MergeAppend(c: Config, a: seq<Override>, b: seq<Override>)
    ensures Merge(c, a + b) == Merge(Merge(c, a), b)
    decreases |a|
  {
    if a == [] {
      assert a + b == b;
    } else {
      assert (a + b)[1..] == a[1..] + b;
      MergeAppend(Apply(c, a[0]), a[1..], b);
    }
  }

  /** The dotted keys an `Override` can name. */
  datatype Key =
    | TrainOverlapKey | TrainPaddingKey | ValOverlapKey | ValPaddingKey | TestOverlapKey | TestPaddingKey
    | ChannelWeightsKey | TrainResolutionKey | ValResolutionKey | TestResolutionKey
    | ByChunksFormatKey | DropoutValuesKey | ZDownKey

  function KeyOf(o: Override): Key {
    match o
    case TrainOverlap(_) => TrainOverlapKey
    case TrainPadding(_) => TrainPaddingKey
    case ValOverlap(_) => ValOverlapKey
    case ValPadding(_) => ValPaddingKey
    case TestOverlap(_) => TestOverlapKey
    case TestPadding(_) => TestPaddingKey
    case ChannelWeights(_) => ChannelWeightsKey
    case TrainResolution(_) => TrainResolutionKey
    case ValResolution(_) => ValResolutionKey
    case TestResolution(_) => TestResolutionKey
    case ByChunksFormat(_) => ByChunksFormatKey
    case DropoutValues(_) => DropoutValuesKey
    case ZDown(_) => ZDownKey
  }

  /** The current value of key `k`, as the pair that would set it. */
  function Get(c: Config, k: Key): (o: Override)
    ensures KeyOf(o) == k
  {
    match k
    case TrainOverlapKey => TrainOverlap(c.data.train.geometry.overlap)
    case TrainPaddingKey => TrainPadding(c.data.train.geometry.padding)
    case ValOverlapKey => ValOverlap(c.data.val.geometry.overlap)
    case ValPaddingKey => ValPadding(c.data.val.geometry.padding)
    case TestOverlapKey => TestOverlap(c.data.test.geometry.overlap)
    case TestPaddingKey => TestPadding(c.data.test.geometry.padding)
    case ChannelWeightsKey => ChannelWeights(c.problem.instanceSeg.dataChannelWeights)
    case TrainResolutionKey => TrainResolution(c.data.train.geometry.resolution)
    case ValResolutionKey => ValResolution(c.data.val.geometry.resolution)
    case TestResolutionKey => TestResolution(c.data.test.geometry.resolution)
    case ByChunksFormatKey => ByChunksFormat(c.test.byChunks.format)
    case DropoutValuesKey => DropoutValues(c.model.dropoutValues)
    case ZDownKey => ZDown(c.model.zDown)
  }

  /** Applying a pair sets its own key and no other. */
  lemma {:induction false} GetApply(c: Config, o: Override, k: Key)
    ensures Get(Apply(c, o), k) == if KeyOf(o) == k then o else Get(c, k)
  {
    match o
    case TrainOverlap(_) =>
    case TrainPadding(_) =>
    case ValOverlap(_) =>
    case ValPadding(_) =>
    case TestOverlap(_) =>
    case TestPadding(_) =>
    case ChannelWeights(_) =>
    case TrainResolution(_) =>
    case ValResolution(_) =>
    case TestResolution(_) =>
    case ByChunksFormat(_) =>
    case DropoutValues(_) =>
    case ZDown(_) =>
  }

  /** Writing back the value a key already has changes nothing. */
  lemma {:induction false} ApplyCurrent(c: Config, k: Key)
    ensures Apply(c, Get(c, k)) == c
  {
    match k
    case TrainOverlapKey =>
    case TrainPaddingKey =>
    case ValOverlapKey =>
    case ValPaddingKey =>
    case TestOverlapKey =>
    case TestPaddingKey =>
    case ChannelWeightsKey =>
    case TrainResolutionKey =>
    case ValResolutionKey =>
    case TestResolutionKey =>
    case ByChunksFormatKey =>
    case DropoutValuesKey =>
    case ZDownKey =>
  }

  /** The pairs of `opts` that name key `k`, in order. */
  function PairsFor(opts: seq<Override>, k: Key): (r: seq<Override>)
    ensures forall i :: 0 <= i < |r| ==> KeyOf(r[i]) == k
    ensures |r| <= |opts|
    decreases |opts|
  {
    if opts == [] then []
    else (if KeyOf(opts[0]) == k then [opts[0]] else []) + PairsFor(opts[1..], k)
  }

  lemma {:induction false} PairsForAppend(a: seq<Override>, b: seq<Override>, k: Key)
    ensures PairsFor(a + b, k) == PairsFor(a, k) + PairsFor(b, k)
    decreases |a|
  {
    if a == [] {
      assert a + b == b;
    } else {
      assert (a + b)[1..] == a[1..] + b;
      PairsForAppend(a[1..], b, k);
    }
  }

  /** The value key `k` ends up with: its last pair in `opts`, or `d`. */
  function Latest(opts: seq<Override>, k: Key, d: Override): Override {
    var ps := PairsFor(opts, k);
    if ps == [] then d else ps[|ps| - 1]
  }

  /** `merge_from_list` gives every key the value of its last pair, and
      leaves keys without a pair as they were. */
  lemma {:induction false} MergeLatest(c: Config, opts: seq<Override>, k: Key)
    ensures Get(Merge(c, opts), k) == Latest(opts, k, Get(c, k))
    decreases |opts|
  {
    if opts != [] {
      var c1 := Apply(c, opts[0]);
      MergeLatest(c1, opts[1..], k);
      GetApply(c, opts[0], k);
      assert PairsFor(opts, k) == (if KeyOf(opts[0]) == k then [opts[0]] else []) + PairsFor(opts[1..], k);
    }
  }

  /** `c` and `d` differ at most in the keys of the first batch: the
      overlap, padding and resolution of each split and the channel weights. */
  predicate AgreeOutsideFirstBatch(c: Config, d: Config) {
    && c.model == d.model && c.train == d.train && c.loss == d.loss && c.test == d.test
    && c.augmentor == d.augmentor && c.paths == d.paths
    && c.problem.ndim == d.problem.ndim && c.problem.ptype == d.problem.ptype
    && c.problem.upscaling == d.problem.upscaling && c.problem.pretextTask == d.problem.pretextTask
    && c.problem.resizingFactor == d.problem.resizingFactor && c.problem.noise == d.problem.noise
    && c.problem.n2vPercPix == d.problem.n2vPercPix
    && c.problem.instanceSeg.dataChannels == d.problem.instanceSeg.dataChannels
    && c.problem.instanceSeg.erodeAndDilateForeground == d.problem.instanceSeg.erodeAndDilateForeground
    && c.problem.instanceSeg.seedMorphSequence == d.problem.instanceSeg.seedMorphSequence
    && c.problem.instanceSeg.seedMorphRadius == d.problem.instanceSeg.seedMorphRadius
    && c.problem.instanceSeg.dataContourMode == d.problem.instanceSeg.dataContourMode
    && c.data.patchSize == d.data.patchSize && c.data.extractRandomPatch == d.data.extractRandomPatch
    && c.data.probabilityMap == d.data.probabilityMap && c.data.wForeground == d.data.wForeground
    && c.data.wBackground == d.data.wBackground && c.data.normalization == d.data.normalization
    && c.data.train.(geometry := d.data.train.geometry) == d.data.train
    && c.data.val.(geometry := d.data.val.geometry) == d.data.val
    && c.data.test.(geometry := d.data.test.geometry) == d.data.test
  }

  /** `c` and `d` differ at most in the keys of the second batch:
      MODEL.DROPOUT_VALUES, MODEL.Z_DOWN and TEST.BY_CHUNKS.FORMAT. */
  predicate AgreeOutsideSecondBatch(c: Config, d: Config) {
    && c.problem == d.problem && c.data == d.data && c.train == d.train && c.loss == d.loss
    && c.augmentor == d.augmentor && c.paths == d.paths
    && c.model.(dropoutValues := d.model.dropoutValues, zDown := d.model.zDown) == d.model
    && c.test.(byChunks := c.test.byChunks.(format := d.test.byChunks.format)) == d.test
  }

  lemma {:induction false} ReplaceTrainGeometry(c: Config, g: Geometry)
    ensures AgreeOutsideFirstBatch(c, c.(data := c.data.(train := c.data.train.(geometry := g))))
  {
  }

  lemma {:induction false} ReplaceValGeometry(c: Config, g: Geometry)
    ensures AgreeOutsideFirstBatch(c, c.(data := c.data.(val := c.data.val.(geometry := g))))
  {
  }

  lemma {:induction false} ReplaceTestGeometry(c: Config, g: Geometry)
    ensures AgreeOutsideFirstBatch(c, c.(data := c.data.(test := c.data.test.(geometry := g))))
  {
  }

  lemma {:induction false} ApplyGeometryOrWeights(c: Config, o: Override)
    requires o.IsGeometryOrWeights()
    ensures AgreeOutsideFirstBatch(c, Apply(c, o))
  {
    var g := c.data.train.geometry;
    var gv := c.data.val.geometry;
    var gt := c.data.test.geometry;
    match o
    case TrainOverlap(v) => ReplaceTrainGeometry(c, g.(overlap := v));
    case TrainPadding(v) => ReplaceTrainGeometry(c, g.(padding := v));
    case TrainResolution(v) => ReplaceTrainGeometry(c, g.(resolution := v));
    case ValOverlap(v) => ReplaceValGeometry(c, gv.(overlap := v));
    case ValPadding(v) => ReplaceValGeometry(c, gv.(padding := v));
    case ValResolution(v) => ReplaceValGeometry(c, gv.(resolution := v));
    case TestOverlap(v) => ReplaceTestGeometry(c, gt.(overlap := v));
    case TestPadding(v) => ReplaceTestGeometry(c, gt.(padding := v));
    case TestResolution(v) => ReplaceTestGeometry(c, gt.(resolution := v));
    case ChannelWeights(_) =>
  }

  lemma {:induction false} AgreeOutsideFirstBatchTransitive(a: Config, b: Config, c: Config)
    requires AgreeOutsideFirstBatch(a, b) && AgreeOutsideFirstBatch(b, c)
    ensures AgreeOutsideFirstBatch(a, c)
  {
    assert a.data.train.(geometry := c.data.train.geometry) == b.data.train.(geometry := c.data.train.geometry);
    assert a.data.val.(geometry := c.data.val.geometry) == b.data.val.(geometry := c.data.val.geometry);
    assert a.data.test.(geometry := c.data.test.geometry) == b.data.test.(geometry := c.data.test.geometry);
  }

  /** The first batch of overrides leaves everything but its own keys alone. */
  lemma {:induction false} MergeGeometryOrWeightsKeepsRest(c: Config, opts: seq<Override>)
    requires forall i :: 0 <= i < |opts| ==> opts[i].IsGeometryOrWeights()
    ensures AgreeOutsideFirstBatch(c, Merge(c, opts))
    decreases |opts|
  {
    if opts != [] {
      var c1 := Apply(c, opts[0]);
      ApplyGeometryOrWeights(c, opts[0]);
      MergeGeometryOrWeightsKeepsRest(c1, opts[1..]);
      AgreeOutsideFirstBatchTransitive(c, c1, Merge(c1, opts[1..]));
    }
  }

  lemma {:induction false} ApplyModelOrChunking(c: Config, o: Override)
    requires o.IsModelOrChunking()
    ensures AgreeOutsideSecondBatch(c, Apply(c, o))
  {
  }

  lemma {:induction false} AgreeOutsideSecondBatchTransitive(a: Config, b: Config, c: Config)
    requires AgreeOutsideSecondBatch(a, b) && AgreeOutsideSecondBatch(b, c)
    ensures AgreeOutsideSecondBatch(a, c)
  {
  }

  /** The second batch of overrides leaves everything but its own keys alone. */
  lemma {:induction false} MergeModelOrChunkingKeepsRest(c: Config, opts: seq<Override>)
    requires forall i :: 0 <= i < |opts| ==> opts[i].IsModelOrChunking()
    ensures AgreeOutsideSecondBatch(c, Merge(c, opts))
    decreases |opts|
  {
    if opts != [] {
      var c1 := Apply(c, opts[0]);
      ApplyModelOrChunking(c, opts[0]);
      MergeModelOrChunkingKeepsRest(c1, opts[1..]);
      AgreeOutsideSecondBatchTransitive(c, c1, Merge(c1, opts[1..]));
    }
  }

  /** The configuration object that `check_configuration` mutates in place. */
  class CfgNode {
    var value: Config

    constructor (c: Config)
      ensures value == c
    {
      value := c;
    }

    method MergeFromList(opts: seq<Override>)
      modifies this
      ensures value == Merge(old(value), opts)
    {
      var i := 0;
      while i < |opts|
        invariant 0 <= i <= |opts|
        invariant Merge(value, opts[i..]) == Merge(old(value), opts)
      {
        assert opts[i..][1..] == opts[i + 1..];
        value := Apply(value, opts[i]);
        i := i + 1;
      }
    }
  }
}
