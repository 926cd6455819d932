/** What the two merges of `check_configuration` do to each key, stated per
    key rather than as the `opts` lists the checker builds. */
module Defaults {
  import opened Outcomes
  import opened Text
  import opened RangeCheck
  import opened Configuration
  import opened CheckRules
  import opened Validation

  /** Lines 16-28: in 3D an overlap of exactly (0, 0) becomes (0, 0, 0). */
  function LiftedOverlap(ndim: string, o: seq<real>): seq<real> {
    if ndim == "3D" && o == [0.0, 0.0] then [0.0, 0.0, 0.0] else o
  }

  /** Lines 16-28: in 3D a padding of exactly (0, 0) becomes (0, 0, 0). */
  function LiftedPadding(ndim: string, p: seq<int>): seq<int> {
    if ndim == "3D" && p == [0, 0] then [0, 0, 0] else p
  }

  /** Lines 46-51: the resolution sentinel (-1,) becomes one 1 per axis. */
  function FilledResolution(r: seq<real>, dim: nat): seq<real> {
    if UnsetResolution(r) then Repeat(1.0, dim) else r
  }

  /** Lines 36-38: in INSTANCE_SEG, weights of exactly (1, 1) that do not
      match the channel count become one 1 per channel. */
  function FilledWeights(c: Config): seq<real> {
    var n := ChannelsProvided(c.problem.instanceSeg.dataChannels);
    var w := c.problem.instanceSeg.dataChannelWeights;
    if c.problem.ptype == "INSTANCE_SEG" && |w| != n && w == [1.0, 1.0] then Repeat(1.0, n) else w
  }

  /** The value every key has after the first merge (line 127). */
  function AfterFirstMerge(c: Config, k: Key): Override {
    var ndim := c.problem.ndim;
    var dim := DimCount(ndim);
    var d := c.data;
    match k
    case TrainOverlapKey => TrainOverlap(LiftedOverlap(ndim, d.train.geometry.overlap))
    case TrainPaddingKey => TrainPadding(LiftedPadding(ndim, d.train.geometry.padding))
    case ValOverlapKey => ValOverlap(LiftedOverlap(ndim, d.val.geometry.overlap))
    case ValPaddingKey => ValPadding(LiftedPadding(ndim, d.val.geometry.padding))
    case TestOverlapKey => TestOverlap(LiftedOverlap(ndim, d.test.geometry.overlap))
    case TestPaddingKey => TestPadding(LiftedPadding(ndim, d.test.geometry.padding))
    case ChannelWeightsKey => ChannelWeights(FilledWeights(c))
    case TrainResolutionKey => TrainResolution(FilledResolution(d.train.geometry.resolution, dim))
    case ValResolutionKey => ValResolution(FilledResolution(d.val.geometry.resolution, dim))
    case TestResolutionKey => TestResolution(FilledResolution(d.test.geometry.resolution, dim))
    case _ => Get(c, k)
  }

  /** Key `k` holds the sentinel its first-batch default replaces. */
  predicate FirstDefaultApplies(c: Config, k: Key) {
    var ndim := c.problem.ndim;
    var d := c.data;
    var n := ChannelsProvided(c.problem.instanceSeg.dataChannels);
    var w := c.problem.instanceSeg.dataChannelWeights;
    match k
    case TrainOverlapKey => ndim == "3D" && d.train.geometry.overlap == [0.0, 0.0]
    case TrainPaddingKey => ndim == "3D" && d.train.geometry.padding == [0, 0]
    case ValOverlapKey => ndim == "3D" && d.val.geometry.overlap == [0.0, 0.0]
    case ValPaddingKey => ndim == "3D" && d.val.geometry.padding == [0, 0]
    case TestOverlapKey => ndim == "3D" && d.test.geometry.overlap == [0.0, 0.0]
    case TestPaddingKey => ndim == "3D" && d.test.geometry.padding == [0, 0]
    case ChannelWeightsKey => c.problem.ptype == "INSTANCE_SEG" && |w| != n && w == [1.0, 1.0]
    case TrainResolutionKey => UnsetResolution(d.train.geometry.resolution)
    case ValResolutionKey => UnsetResolution(d.val.geometry.resolution)
    case TestResolutionKey => UnsetResolution(d.test.geometry.resolution)
    case _ => false
  }

  /** The pairs key `k` gets from the first batch: one, holding its
      default, when it holds its sentinel. */
  function FirstBatchPairsFor(c: Config, k: Key): seq<Override> {
    if FirstDefaultApplies(c, k) then [AfterFirstMerge(c, k)] else []
  }

  lemma {:induction false} OptionalPair(b: bool, o: Override, k: Key)
    ensures PairsFor(Optional(b, o), k) == Optional(b && KeyOf(o) == k, o)
  {
    if b {
      assert [o][1..] == [];
    }
  }

  lemma {:induction false} OptionalPairs3(b1: bool, o1: Override, b2: bool, o2: Override, b3: bool, o3: Override, k: Key)
    ensures PairsFor(Optional(b1, o1) + Optional(b2, o2) + Optional(b3, o3), k)
      == Optional(b1 && KeyOf(o1) == k, o1) + Optional(b2 && KeyOf(o2) == k, o2) + Optional(b3 && KeyOf(o3) == k, o3)
  {
    PairsForAppend(Optional(b1, o1) + Optional(b2, o2), Optional(b3, o3), k);
    PairsForAppend(Optional(b1, o1), Optional(b2, o2), k);
    OptionalPair(b1, o1, k);
    OptionalPair(b2, o2, k);
    OptionalPair(b3, o3, k);
  }

  lemma {:induction false} OptionalPairs6(b1: bool, o1: Override, b2: bool, o2: Override, b3: bool, o3: Override,
                                          b4: bool, o4: Override, b5: bool, o5: Override, b6: bool, o6: Override, k: Key)
    ensures PairsFor(Optional(b1, o1) + Optional(b2, o2) + Optional(b3, o3) + Optional(b4, o4) + Optional(b5, o5) + Optional(b6, o6), k)
      == Optional(b1 && KeyOf(o1) == k, o1) + Optional(b2 && KeyOf(o2) == k, o2) + Optional(b3 && KeyOf(o3) == k, o3)
       + Optional(b4 && KeyOf(o4) == k, o4) + Optional(b5 && KeyOf(o5) == k, o5) + Optional(b6 && KeyOf(o6) == k, o6)
  {
    var a := Optional(b1, o1) + Optional(b2, o2) + Optional(b3, o3);
    OptionalPairs3(b1, o1, b2, o2, b3, o3, k);
    PairsForAppend(a + Optional(b4, o4) + Optional(b5, o5), Optional(b6, o6), k);
    PairsForAppend(a + Optional(b4, o4), Optional(b5, o5), k);
    PairsForAppend(a, Optional(b4, o4), k);
    OptionalPair(b4, o4, k);
    OptionalPair(b5, o5, k);
    OptionalPair(b6, o6, k);
  }

  lemma {:induction false} SplitPairs(b1: bool, b2: bool, b3: bool, b4: bool, b5: bool, b6: bool, k: Key)
    ensures PairsFor(Optional(b1, TrainOverlap([0.0, 0.0, 0.0])) + Optional(b2, TrainPadding([0, 0, 0]))
        + Optional(b3, ValOverlap([0.0, 0.0, 0.0])) + Optional(b4, ValPadding([0, 0, 0]))
        + Optional(b5, TestOverlap([0.0, 0.0, 0.0])) + Optional(b6, TestPadding([0, 0, 0])), k)
      == Optional(b1 && k == TrainOverlapKey, TrainOverlap([0.0, 0.0, 0.0]))
        + Optional(b2 && k == TrainPaddingKey, TrainPadding([0, 0, 0]))
        + Optional(b3 && k == ValOverlapKey, ValOverlap([0.0, 0.0, 0.0]))
        + Optional(b4 && k == ValPaddingKey, ValPadding([0, 0, 0]))
        + Optional(b5 && k == TestOverlapKey, TestOverlap([0.0, 0.0, 0.0]))
        + Optional(b6 && k == TestPaddingKey, TestPadding([0, 0, 0]))
  {
    OptionalPairs6(b1, TrainOverlap([0.0, 0.0, 0.0]), b2, TrainPadding([0, 0, 0]),
      b3, ValOverlap([0.0, 0.0, 0.0]), b4, ValPadding([0, 0, 0]),
      b5, TestOverlap([0.0, 0.0, 0.0]), b6, TestPadding([0, 0, 0]), k);
  }

  /** The pairs of lines 16-28 for key `k`, one per spatial split. */
  lemma {:induction false} DimensionPairsSix(c: Config, k: Key)
    ensures var g, gv, gt := c.data.train.geometry, c.data.val.geometry, c.data.test.geometry;
      var is3D := c.problem.ndim == "3D";
      PairsFor(DimensionDefaults(c), k) ==
        Optional(is3D && g.overlap == [0.0, 0.0] && k == TrainOverlapKey, TrainOverlap([0.0, 0.0, 0.0]))
        + Optional(is3D && g.padding == [0, 0] && k == TrainPaddingKey, TrainPadding([0, 0, 0]))
        + Optional(is3D && gv.overlap == [0.0, 0.0] && k == ValOverlapKey, ValOverlap([0.0, 0.0, 0.0]))
        + Optional(is3D && gv.padding == [0, 0] && k == ValPaddingKey, ValPadding([0, 0, 0]))
        + Optional(is3D && gt.overlap == [0.0, 0.0] && k == TestOverlapKey, TestOverlap([0.0, 0.0, 0.0]))
        + Optional(is3D && gt.padding == [0, 0] && k == TestPaddingKey, TestPadding([0, 0, 0]))
  {
    var g, gv, gt := c.data.train.geometry, c.data.val.geometry, c.data.test.geometry;
    var is3D := c.problem.ndim == "3D";
    var b1, b2, b3 := g.overlap == [0.0, 0.0], g.padding == [0, 0], gv.overlap == [0.0, 0.0];
    var b4, b5, b6 := gv.padding == [0, 0], gt.overlap == [0.0, 0.0], gt.padding == [0, 0];
    if is3D {
      SplitPairs(b1, b2, b3, b4, b5, b6, k);
    } else {
      SplitPairs(false, false, false, false, false, false, k);
    }
  }

  lemma {:induction false} DimensionPairsTrain(c: Config, k: Key)
    requires k == TrainOverlapKey || k == TrainPaddingKey
    ensures PairsFor(DimensionDefaults(c), k) == FirstBatchPairsFor(c, k)
  {
    DimensionPairsSix(c, k);
  }

  lemma {:induction false} DimensionPairsVal(c: Config, k: Key)
    requires k == ValOverlapKey || k == ValPaddingKey
    ensures PairsFor(DimensionDefaults(c), k) == FirstBatchPairsFor(c, k)
  {
    DimensionPairsSix(c, k);
  }

  lemma {:induction false} DimensionPairsTest(c: Config, k: Key)
    requires k == TestOverlapKey || k == TestPaddingKey
    ensures PairsFor(DimensionDefaults(c), k) == FirstBatchPairsFor(c, k)
  {
    DimensionPairsSix(c, k);
  }

  lemma {:induction false} DimensionPairsOther(c: Config, k: Key)
    requires !(k.TrainOverlapKey? || k.TrainPaddingKey? || k.ValOverlapKey? || k.ValPaddingKey? || k.TestOverlapKey? || k.TestPaddingKey?)
    ensures PairsFor(DimensionDefaults(c), k) == []
  {
    DimensionPairsSix(c, k);
  }

  lemma {:induction false} DimensionPairs(c: Config, k: Key)
    ensures PairsFor(DimensionDefaults(c), k)
      == if k.TrainOverlapKey? || k.TrainPaddingKey? || k.ValOverlapKey? || k.ValPaddingKey? || k.TestOverlapKey? || k.TestPaddingKey?
         then FirstBatchPairsFor(c, k) else []
  {
    if k == TrainOverlapKey || k == TrainPaddingKey {
      DimensionPairsTrain(c, k);
    } else if k == ValOverlapKey || k == ValPaddingKey {
      DimensionPairsVal(c, k);
    } else if k == TestOverlapKey || k == TestPaddingKey {
      DimensionPairsTest(c, k);
    } else {
      DimensionPairsOther(c, k);
    }
  }

  lemma {:induction false} WeightPairs(c: Config, k: Key)
    ensures PairsFor(ChannelWeightDefaults(c), k) == if k == ChannelWeightsKey then FirstBatchPairsFor(c, k) else []
  {
    var n := ChannelsProvided(c.problem.instanceSeg.dataChannels);
    var w := c.problem.instanceSeg.dataChannelWeights;
    OptionalPair(c.problem.ptype == "INSTANCE_SEG" && |w| != n && w == [1.0, 1.0], ChannelWeights(Repeat(1.0, n)), k);
  }

  lemma {:induction false} ResolutionPairs(c: Config, k: Key)
    ensures PairsFor(ResolutionDefaults(c, DimCount(c.problem.ndim)), k)
      == if k.TrainResolutionKey? || k.ValResolutionKey? || k.TestResolutionKey? then FirstBatchPairsFor(c, k) else []
  {
    var dim := DimCount(c.problem.ndim);
    var g := c.data.train.geometry;
    var gv := c.data.val.geometry;
    var gt := c.data.test.geometry;
    assert ResolutionDefaults(c, dim)
      == Optional(UnsetResolution(g.resolution), TrainResolution(Repeat(1.0, dim)))
       + Optional(UnsetResolution(gv.resolution), ValResolution(Repeat(1.0, dim)))
       + Optional(UnsetResolution(gt.resolution), TestResolution(Repeat(1.0, dim)));
    OptionalPairs3(UnsetResolution(g.resolution), TrainResolution(Repeat(1.0, dim)),
      UnsetResolution(gv.resolution), ValResolution(Repeat(1.0, dim)),
      UnsetResolution(gt.resolution), TestResolution(Repeat(1.0, dim)), k);
    if k.TrainResolutionKey? {
      assert KeyOf(ValResolution(Repeat(1.0, dim))) != k && KeyOf(TestResolution(Repeat(1.0, dim))) != k;
    } else if k.ValResolutionKey? {
      assert KeyOf(TrainResolution(Repeat(1.0, dim))) != k && KeyOf(TestResolution(Repeat(1.0, dim))) != k;
    } else if k.TestResolutionKey? {
      assert KeyOf(TrainResolution(Repeat(1.0, dim))) != k && KeyOf(ValResolution(Repeat(1.0, dim))) != k;
    }
  }

  /** The first batch names every key at most once, with its default. */
  lemma {:induction false} FirstBatchPairs(c: Config, k: Key)
    ensures PairsFor(FirstBatch(c), k) == FirstBatchPairsFor(c, k)
  {
    var dims := DimensionDefaults(c);
    var w := ChannelWeightDefaults(c);
    var res := ResolutionDefaults(c, DimCount(c.problem.ndim));
    PairsForAppend(dims + w, res, k);
    PairsForAppend(dims, w, k);
    DimensionPairs(c, k);
    WeightPairs(c, k);
    ResolutionPairs(c, k);
  }

  /** Lines 14-51 and the merge at line 127: each first-batch key gets its
      default exactly when it holds its sentinel, and no other key changes. */
  lemma {:induction false} FirstMergeEffect(c: Config, k: Key)
    ensures Get(Merge(c, FirstBatch(c)), k) == AfterFirstMerge(c, k)
  {
    MergeLatest(c, FirstBatch(c), k);
    FirstBatchPairs(c, k);
  }

  /** Lines 348-362 on a configuration they accept: transformer dropout of
      all zeros becomes (0.,), and any other architecture's all-zero dropout
      of the wrong length becomes one zero per feature-map level. */
  function FilledDropout(c: Config, arch: string): seq<real> {
    var d := c.model.dropoutValues;
    var levels := |c.model.featureMaps|;
    if arch in TransformerFamily && AllZero(d) then [0.0]
    else if arch !in TransformerFamily && levels != |d| then Repeat(0.0, levels)
    else d
  }

  /** Lines 365-370: an all-zero Z_DOWN becomes one entry per downsampling
      level, 1 in 3D super-resolution and 2 otherwise. */
  function FilledZDown(c: Config): seq<int> {
    var z := c.model.zDown;
    if AllZeroInts(z) then Repeat(if SuperResolution3D(c) then 1 else 2, |c.model.featureMaps| - 1) else z
  }

  /** The value every key has after the second merge (line 382). */
  function AfterSecondMerge(c: Config, k: Key): Override {
    var arch := Lower(c.model.architecture);
    match k
    case ByChunksFormatKey =>
      if c.test.byChunks.enable then ByChunksFormat(Lower(c.test.byChunks.format)) else Get(c, k)
    case DropoutValuesKey => DropoutValues(FilledDropout(c, arch))
    case ZDownKey => ZDown(FilledZDown(c))
    case _ => Get(c, k)
  }

  /** A list that names only `key` contributes pairs to that key alone. */
  lemma {:induction false} PairsForOneKey(a: seq<Override>, key: Key, k: Key)
    requires forall i :: 0 <= i < |a| ==> KeyOf(a[i]) == key
    ensures PairsFor(a, k) == if k == key then a else []
    decreases |a|
  {
    if a != [] {
      PairsForOneKey(a[1..], key, k);
      assert a == [a[0]] + a[1..];
    }
  }

  lemma {:induction false} ThreeBlockPairs(a: seq<Override>, b: seq<Override>, d: seq<Override>, k: Key)
    requires forall i :: 0 <= i < |a| ==> KeyOf(a[i]) == ByChunksFormatKey
    requires forall i :: 0 <= i < |b| ==> KeyOf(b[i]) == DropoutValuesKey
    requires forall i :: 0 <= i < |d| ==> KeyOf(d[i]) == ZDownKey
    ensures PairsFor(a + b + d, k) ==
      if k == ByChunksFormatKey then a else if k == DropoutValuesKey then b else if k == ZDownKey then d else []
  {
    PairsForAppend(a + b, d, k);
    PairsForAppend(a, b, k);
    PairsForOneKey(a, ByChunksFormatKey, k);
    PairsForOneKey(b, DropoutValuesKey, k);
    PairsForOneKey(d, ZDownKey, k);
  }

  /** The pairs the second batch holds for key `k`: those of the block
      that writes `k`. */
  lemma {:induction false} SecondBatchPairs(c: Config, k: Key)
    requires SecondBatch(c).Success?
    ensures var arch := Lower(c.model.architecture);
      PairsFor(SecondBatch(c).value, k) ==
        if k == ByChunksFormatKey then ByChunksRules(c).value
        else if k == DropoutValuesKey then DropoutDefaults(c, arch).value
        else if k == ZDownKey then ZDownDefaults(c, arch).value
        else []
  {
    var arch := Lower(c.model.architecture);
    ThreeBlockPairs(ByChunksRules(c).value, DropoutDefaults(c, arch).value, ZDownDefaults(c, arch).value, k);
  }

  /** Lines 254-261: the accepted chunk format is written back lower-cased. */
  lemma {:induction false} ChunkFormatLatest(c: Config)
    requires ByChunksRules(c).Success?
    ensures Latest(ByChunksRules(c).value, ByChunksFormatKey, Get(c, ByChunksFormatKey))
      == AfterSecondMerge(c, ByChunksFormatKey)
  {
  }

  lemma {:induction false} DropoutLatest(c: Config)
    requires DropoutDefaults(c, Lower(c.model.architecture)).Success?
    ensures Latest(DropoutDefaults(c, Lower(c.model.architecture)).value, DropoutValuesKey, Get(c, DropoutValuesKey))
      == AfterSecondMerge(c, DropoutValuesKey)
  {
  }

  lemma {:induction false} ZDownLatest(c: Config)
    requires ZDownDefaults(c, Lower(c.model.architecture)).Success?
    ensures Latest(ZDownDefaults(c, Lower(c.model.architecture)).value, ZDownKey, Get(c, ZDownKey))
      == AfterSecondMerge(c, ZDownKey)
  {
  }

  /** Lines 254-379 and the merge at line 382: the chunk format is lower-cased
      when chunking is on, dropout and Z_DOWN receive their defaults, and no
      other key changes. */
  lemma {:induction false} SecondMergeEffect(c: Config, k: Key)
    requires SecondBatch(c).Success?
    ensures Get(Merge(c, SecondBatch(c).value), k) == AfterSecondMerge(c, k)
  {
    MergeLatest(c, SecondBatch(c).value, k);
    SecondBatchPairs(c, k);
    if k == ByChunksFormatKey {
      ChunkFormatLatest(c);
    } else if k == DropoutValuesKey {
      DropoutLatest(c);
    } else if k == ZDownKey {
      ZDownLatest(c);
    }
  }

  /** Lines 348-362 accept exactly: for vit, unetr and mae all zeros or a
      single value in [0, 1]; for the others a length that matches the
      feature maps, or all zeros. */
  lemma {:induction false} DropoutAccepted(c: Config, arch: string)
    ensures var d := c.model.dropoutValues;
      DropoutDefaults(c, arch).Success? <==>
        if arch in TransformerFamily then AllZero(d) || (|d| == 1 && CheckValue(Scalar(d[0])))
        else |c.model.featureMaps| == |d| || AllZero(d)
  {
  }

  /** Outside the transformers, a rejected dropout list is reported as out
      of range (line 360) exactly when some value is; otherwise it is
      reported as the wrong length (line 362). */
  lemma {:induction false} DropoutRangeBeforeLength(c: Config, arch: string)
    requires arch !in TransformerFamily && DropoutDefaults(c, arch).Failure?
    ensures DropoutDefaults(c, arch).error.line == 360 <==> !AllWithinUnit(c.model.dropoutValues)
    ensures DropoutDefaults(c, arch).error.line == 362 <==> AllWithinUnit(c.model.dropoutValues)
  {
  }

  /** Lines 365-379 accept exactly: an all-zero Z_DOWN, or one whose every
      entry is 1 in 3D super-resolution, of length 4 for multiresunet, and of
      length one less than the feature maps. */
  lemma {:induction false} ZDownAccepted(c: Config, arch: string)
    ensures var z := c.model.zDown;
      ZDownDefaults(c, arch).Success? <==>
        || AllZeroInts(z)
        || (&& (SuperResolution3D(c) ==> forall k :: 0 <= k < |z| ==> z[k] == 1)
            && (arch == "multiresunet" ==> |z| == 4)
            && |c.model.featureMaps| - 1 == |z|)
  {
  }

  /** The "1 or 2" test of line 373 never raises. */
  lemma {:induction false} ZDownNeverRejectedAsInvalid(c: Config, arch: string)
    ensures ZDownDefaults(c, arch).Failure? ==> ZDownDefaults(c, arch).error.line != 374
  {
    var z := c.model.zDown;
    var bs := FalseForInvalidZDown(z);
    assert !AnyTrue(bs);
  }
}
