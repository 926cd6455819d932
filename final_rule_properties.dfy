/** What each group of rules read after the second merge (lines 384-516)
    accepts, stated without the order in which the checker raises. */
module FinalRuleProperties {
  import opened Outcomes
  import opened Text
  import opened RangeCheck
  import opened Configuration
  import opened CheckRules
  import opened Validation
  import opened RuleProperties

  /** Every element of `xs` lies in [lo, hi]. */
  predicate AllIn(xs: seq<real>, lo: real, hi: real) {
    forall i :: 0 <= i < |xs| ==> lo <= xs[i] <= hi
  }

  // ---------------------------------------------------------------------------
  // Lines 384-389.

  predicate ActivationAllowed(c: Config) {
    && Lower(c.model.lastActivation) in Activations
    && Lower(c.model.upsampleLayer) in ["upsampling", "convtranspose"]
  }

  /** The model's last activation and upsampling layer are known ones, in any
      letter case. */
  lemma {:induction false} ActivationIff(c: Config)
    ensures ActivationRules(c) == Pass <==> ActivationAllowed(c)
  {
  }

  // ---------------------------------------------------------------------------
  // Lines 390-414.

  /** The architectures each workflow may use; a workflow without a list
      takes any of them. */
  predicate ArchitectureAllowed(ptype: string, ndim: string, arch: string) {
    if ptype in ["SEMANTIC_SEG", "INSTANCE_SEG"] then arch in UNetFamily || arch == "unetr"
    else if ptype in ["DETECTION", "DENOISING"] then arch in UNetFamily && arch != "multiresunet"
    else if ptype == "SUPER_RESOLUTION" && ndim == "2D" then arch in UNetFamily || arch in ["edsr", "rcan", "dfcan", "wdsr"]
    else if ptype == "SUPER_RESOLUTION" && ndim == "3D" then arch in UNetFamily
    else if ptype == "SELF_SUPERVISED" then arch in UNetFamily || arch in ["edsr", "rcan", "dfcan", "wdsr"] || arch in TransformerFamily
    else if ptype == "CLASSIFICATION" then arch in ["simple_cnn", "vit"] || Contains(arch, "efficientnet")
    else true
  }

  /** The architecture is one its workflow allows, and 3D super-resolution
      upsamples before or after the U-Net. */
  lemma {:induction false} ArchitectureIff(c: Config, arch: string)
    ensures ArchitectureRules(c, arch) == Pass <==>
      ArchitectureAllowed(c.problem.ptype, c.problem.ndim, arch)
      && (SuperResolution3D(c) ==> c.model.unetSrUpsamplePosition in ["pre", "post"])
  {
  }

  // ---------------------------------------------------------------------------
  // Lines 415-421.

  /** A transformer model: `mae` only for self-supervision, a head count that
      divides the embedding size, and the same extent on every spatial axis. */
  predicate TransformerShaped(c: Config, arch: string) {
    arch in TransformerFamily ==>
      && (arch == "mae" ==> c.problem.ptype == "SELF_SUPERVISED")
      && c.model.vitNumHeads != 0 && c.model.vitEmbedDim % c.model.vitNumHeads == 0
      && forall k :: 0 <= k < |c.data.patchSize| - 1 ==> c.data.patchSize[k] == c.data.patchSize[0]
  }

  /** `all(i == p[0] for i in p[:-1])`: every extent but the channel one
      equals the first. */
  lemma {:induction false} CubicPatchIff(p: seq<int>)
    ensures CubicPatch(p) <==> forall k :: 0 <= k < |p| - 1 ==> p[k] == p[0]
  {
    var b := ButLast(p);
    if CubicPatch(p) {
      forall k | 0 <= k < |p| - 1 ensures p[k] == p[0] {
        assert b[k] == p[k];
      }
    }
  }

  lemma {:induction false} TransformerAccepted(c: Config, arch: string)
    ensures TransformerRules(c, arch) == Pass <==> TransformerShaped(c, arch)
  {
    CubicPatchIff(c.data.patchSize);
  }

  // ---------------------------------------------------------------------------
  // Lines 434-451.

  /** A known optimizer and loss, and a learning-rate scheduler that is either
      absent or known and given the settings it needs. */
  predicate TrainingAllowed(c: Config) {
    var s := c.train.lrScheduler;
    && c.train.optimizer in ["SGD", "ADAM", "ADAMW"]
    && c.loss.ltype in ["CE", "W_CE_DICE", "MASKED_BCE"]
    && (s.name != "" ==>
          && s.name in ["reduceonplateau", "warmupcosine", "onecycle"]
          && (s.name != "onecycle" ==> s.minLr != -1.0)
          && (s.name == "reduceonplateau" ==>
                s.reduceOnPlateauPatience != -1 && s.reduceOnPlateauPatience < c.train.patience)
          && (s.name == "warmupcosine" ==> s.warmupCosineDecayEpochs != -1))
  }

  lemma {:induction false} TrainIff(c: Config)
    ensures TrainRules(c) == Pass <==> TrainingAllowed(c)
  {
  }

  // ---------------------------------------------------------------------------
  // Lines 453-506.

  /** Nothing is asked of a disabled augmentor; an enabled one has its
      transformations and its grid mask in range. */
  predicate AugmentationInRange(c: Config) {
    c.augmentor.enable ==> TransformationsInRange(c) && GridMaskInRange(c)
  }

  /** The probability lies in [0, 1], the ranges of every enabled
      transformation inside the bounds `check_value` is given, elastic uses a
      known mode, and, in 3D, every enabled intensity transformation has a 2D
      or 3D mode. */
  predicate TransformationsInRange(c: Config) {
    var a := c.augmentor;
    && 0.0 <= a.daProb <= 1.0
    && (a.randomRot ==> AllIn(a.randomRotRange, -360.0, 360.0))
    && (a.shear ==> AllIn(a.shearRange, -360.0, 360.0))
    && (a.elastic ==> a.eMode in ["constant", "nearest", "reflect", "wrap"])
    && (c.problem.ndim == "3D" ==>
          && (a.brightness ==> a.brightnessMode in ["2D", "3D"])
          && (a.contrast ==> a.contrastMode in ["2D", "3D"])
          && (a.brightnessEm ==> a.brightnessEmMode in ["2D", "3D"])
          && (a.contrastEm ==> a.contrastEmMode in ["2D", "3D"]))
    && (a.dropout ==> AllIn(a.dropRange, 0.0, 1.0))
    && (a.cutout ==> AllIn(a.coutSize, 0.0, 1.0))
    && (a.cutblur ==> AllIn(a.cblurSize, 0.0, 1.0) && AllIn(a.cblurDownRange, 1.0, 8.0))
    && (a.cutmix ==> AllIn(a.cmixSize, 0.0, 1.0))
    && (a.cutnoise ==> AllIn(a.cnoiseScale, 0.0, 1.0) && AllIn(a.cnoiseSize, 0.0, 1.0))
  }

  /** A grid mask has a ratio and a rotation in [0, 1], and an increasing
      pair of distances in [0, 1]. */
  predicate GridMaskInRange(c: Config) {
    var a := c.augmentor;
    a.gridmask ==>
      && 0.0 <= a.gridRatio <= 1.0
      && |a.gridDRange| >= 2 && a.gridDRange[0] < a.gridDRange[1]
      && AllIn(a.gridDRange, 0.0, 1.0)
      && 0.0 <= a.gridRotate <= 1.0
  }

  /** `check_value` on a list is the range test of every element. */
  lemma {:induction false} ItemsIn(xs: seq<real>, lo: real, hi: real)
    ensures CheckValue(Items(xs), lo, hi) == AllIn(xs, lo, hi)
  {
    ItemsWithinIff(xs, lo, hi);
  }

  lemma {:induction false} TransformationsIff(c: Config)
    ensures TransformationRules(c) == Pass <==> TransformationsInRange(c)
  {
    var a := c.augmentor;
    ItemsIn(a.randomRotRange, -360.0, 360.0);
    ItemsIn(a.shearRange, -360.0, 360.0);
    ItemsIn(a.dropRange, 0.0, 1.0);
    ItemsIn(a.coutSize, 0.0, 1.0);
    ItemsIn(a.cblurSize, 0.0, 1.0);
    ItemsIn(a.cblurDownRange, 1.0, 8.0);
    ItemsIn(a.cmixSize, 0.0, 1.0);
    ItemsIn(a.cnoiseScale, 0.0, 1.0);
    ItemsIn(a.cnoiseSize, 0.0, 1.0);
  }

  lemma {:induction false} GridMaskIff(c: Config)
    ensures GridMaskRules(c) == Pass <==> GridMaskInRange(c)
  {
    ItemsIn(c.augmentor.gridDRange, 0.0, 1.0);
  }

  lemma {:induction false} AugmentationIff(c: Config)
    ensures AugmentationRules(c) == Pass <==> AugmentationInRange(c)
  {
    TransformationsIff(c);
    GridMaskIff(c);
  }

  // ---------------------------------------------------------------------------
  // Lines 509-516.

  /** Removing close points needs a test resolution of one entry per axis but
      not of length one, and a first radius other than the -1 sentinel. */
  predicate ClosePointsGiven(c: Config, dim: nat) {
    var r := c.data.test.geometry.resolution;
    var radius := c.test.postProcessing.removeClosePointsRadius;
    c.test.postProcessing.removeClosePoints ==>
      |r| != 1 && |r| == dim && |radius| > 0 && radius[0] != -1.0
  }

  lemma {:induction false} ClosePointsIff(c: Config, dim: nat)
    ensures ClosePointsRules(c, dim) == Pass <==> ClosePointsGiven(c, dim)
  {
  }

  // ---------------------------------------------------------------------------
  // Lines 384-516 together.

  /** The rules after the second merge pass exactly when every group of them
      does; the order in which they raise decides only which error is seen. */
  lemma {:induction false} FinalPassParts(s: Config)
    ensures var arch := Lower(s.model.architecture);
      FinalPass(s) == Pass <==>
        && ActivationRules(s) == Pass && ArchitectureRules(s, arch) == Pass
        && TransformerRules(s, arch) == Pass
        && (arch in UNetFamily ==> UNetLevelsFrom(s, 0) == Pass)
        && TrainRules(s) == Pass && AugmentationRules(s) == Pass
        && ClosePointsRules(s, DimCount(s.problem.ndim)) == Pass
  {
  }

  /** A known activation and upsampling layer, an architecture its workflow
      allows, the transformer constraints, a patch every U-Net level can
      halve, a known optimizer, loss and scheduler with its settings,
      augmentation ranges in bounds and the settings close-point removal
      needs. */
  predicate FinalRulesHold(s: Config) {
    var arch := Lower(s.model.architecture);
    && ActivationAllowed(s)
    && ArchitectureAllowed(s.problem.ptype, s.problem.ndim, arch)
    && (SuperResolution3D(s) ==> s.model.unetSrUpsamplePosition in ["pre", "post"])
    && TransformerShaped(s, arch)
    && (arch in UNetFamily ==> forall l :: 0 <= l && l + 1 < |s.model.featureMaps| ==> LevelDivides(s, l))
    && TrainingAllowed(s)
    && AugmentationInRange(s)
    && ClosePointsGiven(s, DimCount(s.problem.ndim))
  }

  lemma {:induction false} FinalPassIff(s: Config)
    ensures FinalPass(s) == Pass <==> FinalRulesHold(s)
  {
    var arch := Lower(s.model.architecture);
    FinalPassParts(s);
    ActivationIff(s);
    ArchitectureIff(s, arch);
    TransformerAccepted(s, arch);
    UNetLevelsIff(s, 0);
    TrainIff(s);
    AugmentationIff(s);
    ClosePointsIff(s, DimCount(s.problem.ndim));
  }
}
