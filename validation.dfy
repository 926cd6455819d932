/** `check_configuration` as a function of the configuration it is given:
    the rules before the first merge (lines 12-123), the first merge
    (lines 126-128), the rules that produce the second batch (lines 130-379),
    the second merge (lines 381-382) and the final rules (lines 384-516). */
module Validation {
  import opened Outcomes
  import opened Text
  import opened Configuration
  import opened CheckRules

  /** What one call leaves behind: the configuration as far as it was
      updated, and either the warnings printed or the error raised. */
  datatype RunResult = RunResult(state: Config, outcome: Result<seq<Warning>, Error>)

  /** The rules of lines 40-123, in source order. */
  function FirstPassRules(c: Config): Verdict {
    var dim := DimCount(c.problem.ndim);
    var pp := c.test.postProcessing;
    var f := ForegroundRule(c);
    var w := WatershedRules(c, dim);
    var d := if c.problem.ptype == "DETECTION" then DetectionFiltersFrom(pp.removeByProperties, 0) else Pass;
    var g := PropertyGroupsFrom(pp, c.problem.ptype, 0);
    if f.Fail? then f
    else if w.Fail? then w
    else if d.Fail? then d
    else if g.Fail? then g
    else PostProcessingRules(c)
  }

  /** The first batch of `opts`, in the order lines 14-51 extend it. */
  function FirstBatch(c: Config): seq<Override> {
    DimensionDefaults(c) + ChannelWeightDefaults(c) + ResolutionDefaults(c, DimCount(c.problem.ndim))
  }

  /** The verdict of lines 254-261 alone. */
  function ChunkingVerdict(c: Config): Verdict {
    match ByChunksRules(c)
    case Failure(e) => Fail(e)
    case Success(_) => Pass
  }

  /** The rules of lines 130-345, in source order. */
  function SecondPassChecks(c: Config, checkDataPaths: bool, pathExists: string -> bool): Verdict {
    var dim := DimCount(c.problem.ndim);
    var arch := Lower(c.model.architecture);
    var g := GeneralRules(c);
    var w := WorkflowRules(c, dim, arch, ChannelsProvided(c.problem.instanceSeg.dataChannels));
    var p := PreprocessingRule(c);
    var d := DataPathRules(c, checkDataPaths, pathExists);
    var b := ChunkingVerdict(c);
    var t := TrainDataRules(c);
    var x := CrossValRules(c);
    var s := ShapeRules(c, dim);
    var n := NormalizationRules(c, pathExists);
    var m := ModelRules(c, arch);
    if g.Fail? then g
    else if w.Fail? then w
    else if p.Fail? then p
    else if d.Fail? then d
    else if b.Fail? then b
    else if t.Fail? then t
    else if x.Fail? then x
    else if s.Fail? then s
    else if n.Fail? then n
    else m
  }

  /** The second batch of `opts` (lines 258, 348-379): the lower-cased
      chunk format, the dropout default and the Z_DOWN default, or the
      error raised while computing them. */
  function SecondBatch(c: Config): Result<seq<Override>, Error> {
    var arch := Lower(c.model.architecture);
    var chunks :- ByChunksRules(c);
    var dropout :- DropoutDefaults(c, arch);
    var zDown :- ZDownDefaults(c, arch);
    Success(chunks + dropout + zDown)
  }

  /** Lines 130-379 on the configuration after the first merge: the error
      raised, or the second batch of `opts`. */
  function SecondPass(c: Config, checkDataPaths: bool, pathExists: string -> bool): Result<seq<Override>, Error> {
    match SecondPassChecks(c, checkDataPaths, pathExists)
    case Fail(e) => Failure(e)
    case Pass => SecondBatch(c)
  }

  /** Lines 384-516 on the configuration after the second merge. */
  function FinalPass(c: Config): Verdict {
    var dim := DimCount(c.problem.ndim);
    var arch := Lower(c.model.architecture);
    var a := ActivationRules(c);
    var m := ArchitectureRules(c, arch);
    var t := TransformerRules(c, arch);
    var u := if arch in UNetFamily then UNetLevelsFrom(c, 0) else Pass;
    var tr := TrainRules(c);
    var au := AugmentationRules(c);
    if a.Fail? then a
    else if m.Fail? then m
    else if t.Fail? then t
    else if u.Fail? then u
    else if tr.Fail? then tr
    else if au.Fail? then au
    else ClosePointsRules(c, dim)
  }

  /** The whole call. A raise leaves the configuration as the last merge
      before it made it. */
  function Validate(c: Config, checkDataPaths: bool, pathExists: string -> bool): RunResult {
    match FirstPassRules(c)
    case Fail(e) => RunResult(c, Failure(e))
    case Pass =>
      var c1 := Merge(c, FirstBatch(c));
      match SecondPass(c1, checkDataPaths, pathExists)
      case Failure(e) => RunResult(c1, Failure(e))
      case Success(batch) =>
        var c2 := Merge(c1, batch);
        match FinalPass(c2)
        case Fail(e) => RunResult(c2, Failure(e))
        case Pass => RunResult(c2, Success(Warnings(c2)))
  }
}
