/** `Model_Diffusers.__call__` as a composition of phases over the session:
    argument checks and the reload of a missing pipeline, the LoRA slots,
    the flash LoRA, FreeU, textual inversion and the main sampler, the
    control image, the detail-fix and hires pipelines, and the generation
    loop. Each phase returns the state it leaves behind together with its
    value or the error it raises. */
module Call {
  import opened Basics
  import opened Tables
  import opened Detectors
  import opened Session
  import opened Request

  /** The arguments of one call that the orchestration looks at. */
  datatype CallRequest = CallRequest(
    prompt: string, negativePrompt: string, geometry: Geometry,
    numImages: int, numSteps: int, guidanceScale: real, clipSkip: bool, seed: int, sampler: string,
    loras: seq<Option<string>>, loraScales: seq<real>, textualInversion: seq<Embedding>, freeU: bool,
    detailA: bool, detailAParams: map<string, Param>, detailB: bool, detailBParams: map<string, Param>,
    hasImage: bool, preprocessorName: string, t2iPreprocessor: bool,
    upscaler: Option<string>, hiresSteps: int, hiresPrompt: string, hiresNegativePrompt: string, hiresSampler: string,
    loopGeneration: int, saveImages: bool, generatorInCpu: bool, hiresBefore: bool, hiresAfter: bool,
    retainDetailfix: bool, retainHires: bool)

  /** What the outside world answers during a call: the model hub and file
      system for a reload, the LoRA files that cannot be merged, the
      answers about the embedding files, whether a CUDA generator
      can be created, and each iteration's draws and denoising outcomes. */
  datatype CallEnv = CallEnv(
    load: LoadEnv, incompatibleLoras: set<string>, embeddingFiles: EmbedFiles,
    cudaGeneratorFails: bool, iterations: seq<IterationInput>)

  /** The state a phase leaves, with its value or its error. */
  datatype Stage<+T> = Stage(state: Session, result: Result<T, Error>)

  /** The arguments are those of a call: five LoRA slots, and enough random
      draws for every iteration that will run. */
  predicate WellFormed(r: CallRequest, env: CallEnv) {
    && |r.loras| == 5 && |r.loraScales| == 5
    && |env.iterations| >= Max0(r.loopGeneration)
    && forall k | 0 <= k < |env.iterations| :: |env.iterations[k].draws| >= r.numImages
  }

  /* ---------------------------------------------------------------- */
  /* Checks and reload                                                 */
  /* ---------------------------------------------------------------- */

  /** The arguments are checked; a missing pipeline is reloaded with the
      recorded base, task and VAE, half precision and a forced reload. */
  function PreparePipe(s: Session, r: CallRequest, env: CallEnv): Stage<Geometry> {
    match Validate(s.taskName, r.hasImage, r.geometry)
    case Err(e) => Stage(s, Err(e))
    case Ok(g) =>
      var l := if s.pipe.None? then LoadPipe(s, LoadRequest(s.baseModelId, s.taskName, s.vaeModel, Float16, true, true), env.load)
               else Step(s, Pass);
      if l.outcome.Fail? then Stage(l.state, Err(l.outcome.error))
      else if l.state.pipe.None? then Stage(l.state, Err(NoPipeline))
      else Stage(l.state, Ok(g))
  }

  /** A call that reaches the pipeline check has one; the reload happens
      exactly when none was loaded. */
  lemma PreparePipeEffects(s: Session, r: CallRequest, env: CallEnv)
    ensures var p := PreparePipe(s, r, env);
      && (s.taskName != "txt2img" && !r.hasImage ==> p == Stage(s, Err(MissingImage)))
      && (p.result.Ok? ==> p.state.pipe.Some?)
      && (s.pipe.Some? ==> p.state == s)
      && (p.result.Ok? ==> p.result.value == Validate(s.taskName, r.hasImage, r.geometry).value)
  {
  }

  /* ---------------------------------------------------------------- */
  /* Samplers                                                          */
  /* ---------------------------------------------------------------- */

  /** `get_scheduler`: the name is looked up first, then the recorded base
      scheduler is read. */
  function SchedulerFor(s: Session, name: string): (r: Result<Scheduler, Error>)
    ensures r.Ok? <==> name in SCHEDULER_CONFIG_MAP && s.defaultScheduler.Some?
    ensures r.Ok? ==> r.value == Scheduler(SCHEDULER_CONFIG_MAP[name].0, s.defaultScheduler.value, SCHEDULER_CONFIG_MAP[name].1)
    ensures name !in SCHEDULER_CONFIG_MAP ==> r == Err(UnknownScheduler(name))
    ensures name in SCHEDULER_CONFIG_MAP && s.defaultScheduler.None? ==> r == Err(NoDefaultScheduler)
  {
    match s.defaultScheduler
    case None => if name in SCHEDULER_CONFIG_MAP then Err(NoDefaultScheduler) else Err(UnknownScheduler(name))
    case Some(b) =>
      match GetScheduler(name, b)
      case Err(_) => Err(UnknownScheduler(name))
      case Ok(x) => Ok(x)
  }

  /** The main sampler: any failure empties the cache and is reported as a
      sampler error. */
  function MainScheduler(s: Session, sampler: string): Stage<()> {
    match SchedulerFor(s, sampler)
    case Err(_) => Stage(Emit(s, [Release]), Err(SamplerError))
    case Ok(x) => Stage(Emit(s, [SetScheduler(x)]), Ok(()))
  }

  /* ---------------------------------------------------------------- */
  /* LoRA, flash LoRA, FreeU, embeddings, sampler                      */
  /* ---------------------------------------------------------------- */

  function ConfigurePipe(s: Session, r: CallRequest, env: CallEnv): Stage<()>
    requires |r.loras| == |r.loraScales| && |s.loraMemory| == |s.loraScaleMemory|
  {
    ConfigureAdapters(ReconcileLoras(s, r.loras, r.loraScales, env.incompatibleLoras), r, env)
  }

  /** Flash LoRA, FreeU, textual inversion and the main sampler. */
  function ConfigureAdapters(s: Session, r: CallRequest, env: CallEnv): Stage<()> {
    match FlashStep(s, r.sampler, env.incompatibleLoras)
    case Err(e) => Stage(s, Err(e))
    case Ok(s1) =>
      var s2 := FreeUStep(s1, r.freeU);
      MainScheduler(EmbedStep(s2, r.textualInversion, env.embeddingFiles), r.sampler)
  }

  /* ---------------------------------------------------------------- */
  /* Control image                                                     */
  /* ---------------------------------------------------------------- */

  /** The inpaint task builds its own mask and control image; every other
      task but txt2img goes through `get_image_preprocess`. txt2img has no
      control image; `Resized` stands in for it and is never framed. */
  function PrepareControl(s: Session, r: CallRequest): Stage<ControlImage> {
    if s.taskName == "inpaint" then Stage(s, Ok(InpaintControl))
    else if s.taskName != "txt2img" then
      var p := ImagePreprocess(s, r.hasImage, r.preprocessorName, r.t2iPreprocessor);
      Stage(p.0, p.1)
    else Stage(s, Ok(Resized))
  }

  /* ---------------------------------------------------------------- */
  /* Detail-fix and hires pipelines                                    */
  /* ---------------------------------------------------------------- */

  datatype AuxChoice = AuxChoice(state: Session, stored: Option<AuxPipe>, active: AuxPipe)

  /** The auxiliary-pipeline cache: a stored pipeline is reused when asked
      to retain it; otherwise a new one is built from the active pipeline,
      and stored only when asked to retain it. */
  function SelectAux(s: Session, stored: Option<AuxPipe>, retain: bool, category: string): AuxChoice
    requires s.pipe.Some?
  {
    if stored.Some? && retain then AuxChoice(s, stored, stored.value)
    else
      var built := AuxPipe(category, s.pipe.value.serial, s.nextSerial);
      AuxChoice(Emit(s, [BuildAux(built)]).(nextSerial := s.nextSerial + 1), if retain then Some(built) else None, built)
  }

  lemma SelectAuxRetention(s: Session, stored: Option<AuxPipe>, retain: bool, category: string)
    requires s.pipe.Some?
    ensures var c := SelectAux(s, stored, retain, category);
      && (retain && stored.Some? ==> c.state == s && c.active == stored.value && c.stored == stored)
      && (!retain ==> c.stored == None)
      && (retain ==> c.stored == Some(c.active))
      && (!(retain && stored.Some?) ==>
            && c.active == AuxPipe(category, s.pipe.value.serial, s.nextSerial)
            && c.state == s.(nextSerial := s.nextSerial + 1, log := s.log + [BuildAux(c.active)]))
  {
  }

  /** A lookup that raises KeyError on a missing key. */
  function Lookup(params: map<string, Param>, key: string): (r: Result<Param, Error>)
    ensures r.Ok? <==> key in params
    ensures r.Ok? ==> r.value == params[key]
    ensures r.Err? ==> r.error == MissingKey(key)
  {
    if key in params then Ok(params[key]) else Err(MissingKey(key))
  }

  /** A sampler override on an auxiliary pipeline; a value that is not a
      string is not a sampler name and is reported like an unknown one. */
  function OverrideSampler(s: Session, aux: AuxPipe, value: Result<Param, Error>): Stage<()> {
    match value
    case Err(e) => Stage(s, Err(e))
    case Ok(v) =>
      match SchedulerFor(s, ParamText(v))
      case Err(e) => Stage(s, Err(e))
      case Ok(x) => Stage(Emit(s, [SetAuxScheduler(aux.serial, x)]), Ok(()))
  }

  const SAME_SAMPLER_PARAM := PStr(SAME_SAMPLER)

  /** What the detail-fix passes share: their pipeline and the parameter
      dictionaries with "inpaint_only" and "sampler" taken out. */
  datatype DetailPlan = DetailPlan(aux: AuxPipe, paramsA: map<string, Param>, paramsB: map<string, Param>)

  /** The detail-fix pipeline: inpainting when either pass asks for
      "inpaint_only", img2img otherwise, cached by the retention rule. */
  function DetailfixPipeline(s: Session, r: CallRequest): AuxChoice
    requires s.pipe.Some?
  {
    var inpaintOnly := IsTrue(GetParam(r.detailAParams, "inpaint_only", PBool(false)))
                       || IsTrue(GetParam(r.detailBParams, "inpaint_only", PBool(false)));
    var c := SelectAux(s, s.detailfixPipe, r.retainDetailfix, if inpaintOnly then "detailfix" else "detailfix_img2img");
    c.(state := c.state.(detailfixPipe := c.stored))
  }

  /** The two sampler overrides. Pass B's override looks the sampler up in
      pass A's dictionary, from which it has already been removed. */
  function DetailfixSamplers(s: Session, aux: AuxPipe, a1: map<string, Param>, b1: map<string, Param>): Stage<()> {
    var sa := if GetParam(a1, "sampler", SAME_SAMPLER_PARAM) != SAME_SAMPLER_PARAM
              then OverrideSampler(s, aux, Lookup(a1, "sampler")) else Stage(s, Ok(()));
    if sa.result.Err? then sa
    else if GetParam(b1, "sampler", SAME_SAMPLER_PARAM) != SAME_SAMPLER_PARAM
    then OverrideSampler(sa.state, aux, Lookup(a1 - {"sampler"}, "sampler"))
    else sa
  }

  function PrepareDetailfix(s: Session, r: CallRequest): Stage<Option<DetailPlan>> {
    if !(r.detailA || r.detailB) then Stage(s, Ok(None))
    else if s.pipe.None? then Stage(s, Err(NoPipeline))
    else
      var c := DetailfixPipeline(s, r);
      var a1 := r.detailAParams - {"inpaint_only"};
      var b1 := r.detailBParams - {"inpaint_only"};
      var o := DetailfixSamplers(c.state, c.active, a1, b1);
      if o.result.Err? then Stage(o.state, Err(o.result.error))
      else Stage(o.state, Ok(Some(DetailPlan(c.active, a1 - {"sampler"}, b1 - {"sampler"}))))
  }

  /** A sampler override on pass B always raises KeyError("sampler") once
      pass A's own override, if there is one, succeeded: B looks the sampler
      up in A's dictionary, which no longer holds it. When A names an
      unknown sampler, A's own override raises first. */
  lemma DetailfixBSamplerAlwaysFails(s: Session, r: CallRequest)
    requires r.detailA || r.detailB
    requires s.pipe.Some?
    requires "sampler" in r.detailBParams && r.detailBParams["sampler"] != SAME_SAMPLER_PARAM
    ensures var a := GetParam(r.detailAParams, "sampler", SAME_SAMPLER_PARAM);
      && (a == SAME_SAMPLER_PARAM || (ParamText(a) in SCHEDULER_CONFIG_MAP && s.defaultScheduler.Some?) ==>
            PrepareDetailfix(s, r).result == Err(MissingKey("sampler")))
      && (a != SAME_SAMPLER_PARAM && ParamText(a) !in SCHEDULER_CONFIG_MAP ==>
            PrepareDetailfix(s, r).result == Err(UnknownScheduler(ParamText(a))))
  {
    var a1 := r.detailAParams - {"inpaint_only"};
    var b1 := r.detailBParams - {"inpaint_only"};
    assert b1["sampler"] == r.detailBParams["sampler"];
    assert GetParam(a1, "sampler", SAME_SAMPLER_PARAM) == GetParam(r.detailAParams, "sampler", SAME_SAMPLER_PARAM);
    var c := DetailfixPipeline(s, r);
    assert c.state.defaultScheduler == s.defaultScheduler;
  }

  /** Without overrides the detail-fix phase only selects the pipeline, and
      the pipeline's kind follows "inpaint_only". */
  lemma DetailfixPipelineKind(s: Session, r: CallRequest)
    requires r.detailA || r.detailB
    requires s.pipe.Some?
    requires "sampler" !in r.detailAParams && "sampler" !in r.detailBParams
    ensures var p := PrepareDetailfix(s, r);
      var inpaintOnly := IsTrue(GetParam(r.detailAParams, "inpaint_only", PBool(false)))
                         || IsTrue(GetParam(r.detailBParams, "inpaint_only", PBool(false)));
      && p.result.Ok? && p.result.value.Some?
      && (p.state.detailfixPipe.None? || p.state.detailfixPipe == s.detailfixPipe
          || p.result.value.value.aux.category == (if inpaintOnly then "detailfix" else "detailfix_img2img"))
      && (!(r.retainDetailfix && s.detailfixPipe.Some?) ==>
            p.result.value.value.aux.category == (if inpaintOnly then "detailfix" else "detailfix_img2img")
            && p.result.value.value.aux.base == s.pipe.value.serial)
      && "inpaint_only" !in p.result.value.value.paramsA && "sampler" !in p.result.value.value.paramsA
      && "inpaint_only" !in p.result.value.value.paramsB && "sampler" !in p.result.value.value.paramsB
  {
  }

  /** A detail-fix pass's settings; a pass with prompts of its own computes
      its own embeddings (which consults the textual-inversion cache). */
  function DetailPassSettings(s: Session, r: CallRequest, env: CallEnv, enabled: bool, params: map<string, Param>): (Session, Option<DetailSettings>) {
    if !enabled then (s, None)
    else
      var d := DetailSettingsFor(params, r.prompt, r.negativePrompt);
      (if NeedsOwnEmbeds(d.prompts) then EmbedStep(s, r.textualInversion, env.embeddingFiles) else s, Some(d))
  }

  datatype HiresPlan = HiresPlan(aux: AuxPipe, prompts: ValidPrompts)

  /** The hires pipeline, prepared only with more than one hires step and an
      upscaler: its prompts and embeddings, the pipeline cache, and the
      hires sampler unless it is "Use same sampler". */
  function PrepareHires(s: Session, r: CallRequest, env: CallEnv): Stage<Option<HiresPlan>> {
    if !(r.hiresSteps > 1 && r.upscaler.Some?) then Stage(s, Ok(None))
    else
      var v := ProcessPromptsValid(Some(r.hiresPrompt), Some(r.hiresNegativePrompt), r.prompt, r.negativePrompt);
      HiresStage(if NeedsOwnEmbeds(v) then EmbedStep(s, r.textualInversion, env.embeddingFiles) else s, r, v)
  }

  /** The hires pipeline and its sampler, once its prompts are known. */
  function HiresStage(s: Session, r: CallRequest, v: ValidPrompts): Stage<Option<HiresPlan>> {
    if s.pipe.None? then Stage(s, Err(NoPipeline))
    else
      var c := HiresPipeline(s, r);
      var o := if r.hiresSampler != SAME_SAMPLER then OverrideSampler(c.state, c.active, Ok(PStr(r.hiresSampler)))
               else Stage(c.state, Ok(()));
      if o.result.Err? then Stage(o.state, Err(o.result.error))
      else Stage(o.state, Ok(Some(HiresPlan(c.active, v))))
  }

  /** The hires pipeline, cached by the retention rule. */
  function HiresPipeline(s: Session, r: CallRequest): AuxChoice
    requires s.pipe.Some?
  {
    var c := SelectAux(s, s.hiresPipe, r.retainHires, "hires");
    c.(state := c.state.(hiresPipe := c.stored))
  }

  /** The hires phase runs exactly when both conditions hold, and an
      unknown hires sampler is a ValueError. */
  lemma PrepareHiresEffects(s: Session, r: CallRequest, env: CallEnv)
    requires s.pipe.Some?
    ensures var h := PrepareHires(s, r, env);
      && (!(r.hiresSteps > 1 && r.upscaler.Some?) <==> h == Stage(s, Ok(None)))
      && ((r.hiresSteps > 1 && r.upscaler.Some? && r.hiresSampler != SAME_SAMPLER && r.hiresSampler !in SCHEDULER_CONFIG_MAP)
            ==> h.result == Err(UnknownScheduler(r.hiresSampler)))
  {
    if r.hiresSteps > 1 && r.upscaler.Some? {
      var v := ProcessPromptsValid(Some(r.hiresPrompt), Some(r.hiresNegativePrompt), r.prompt, r.negativePrompt);
      var s1 := if NeedsOwnEmbeds(v) then EmbedStep(s, r.textualInversion, env.embeddingFiles) else s;
      EmbedStepRecords(s, r.textualInversion, env.embeddingFiles);
      assert s1.pipe == s.pipe;
      var c := HiresPipeline(s1, r);
      if r.hiresSampler != SAME_SAMPLER {
        assert SchedulerFor(c.state, r.hiresSampler).Err? <== r.hiresSampler !in SCHEDULER_CONFIG_MAP;
      }
    }
  }

  /** The hires pipeline is cached by the same rule as the detail-fix
      pipeline. */
  lemma PrepareHiresCaching(s: Session, r: CallRequest, env: CallEnv)
    requires s.pipe.Some?
    ensures var h := PrepareHires(s, r, env);
      && (h.result.Ok? && h.result.value.Some? && r.retainHires ==> h.state.hiresPipe == Some(h.result.value.value.aux))
      && (r.hiresSteps > 1 && r.upscaler.Some? && !r.retainHires ==> h.state.hiresPipe == None)
  {
    if r.hiresSteps > 1 && r.upscaler.Some? {
      var v := ProcessPromptsValid(Some(r.hiresPrompt), Some(r.hiresNegativePrompt), r.prompt, r.negativePrompt);
      var s1 := if NeedsOwnEmbeds(v) then EmbedStep(s, r.textualInversion, env.embeddingFiles) else s;
      EmbedStepRecords(s, r.textualInversion, env.embeddingFiles);
      assert s1.pipe == s.pipe;
      HiresStageCaching(s1, r, v);
    }
  }

  lemma HiresStageCaching(s: Session, r: CallRequest, v: ValidPrompts)
    requires s.pipe.Some?
    ensures var h := HiresStage(s, r, v);
      && (h.result.Ok? && h.result.value.Some? && r.retainHires ==> h.state.hiresPipe == Some(h.result.value.value.aux))
      && (!r.retainHires ==> h.state.hiresPipe == None)
  {
    var c := HiresPipeline(s, r);
    SelectAuxRetention(s, s.hiresPipe, r.retainHires, "hires");
    assert c.state.hiresPipe == c.stored;
    if r.hiresSampler != SAME_SAMPLER {
      var o := OverrideSampler(c.state, c.active, Ok(PStr(r.hiresSampler)));
      assert o.state.hiresPipe == c.stored;
    }
  }

  /* ---------------------------------------------------------------- */
  /* The generation loop                                               */
  /* ---------------------------------------------------------------- */

  function ContextFor(s: Session, r: CallRequest, env: CallEnv, g: Geometry, control: ControlImage,
                      detail: Option<DetailPlan>, hires: Option<HiresPlan>): LoopContext {
    LoopContext(
      s.taskName, r.seed, r.numImages, r.generatorInCpu || !s.cuda, env.cudaGeneratorFails,
      control, if s.defaultScheduler.Some? then s.defaultScheduler.value else 0,
      r.detailA, r.detailB, if detail.Some? then detail.value.aux.serial else 0,
      r.upscaler.Some?, hires.Some?, r.hiresBefore, r.hiresAfter, r.saveImages,
      Metadata(r.prompt, r.negativePrompt, s.baseModelId, s.vaeModel, r.numSteps, r.guidanceScale, r.sampler,
               0, g.width, g.height, r.clipSkip))
  }

  /** The loop so far: its operations, the last iteration's images, and the
      error that stopped it. */
  datatype LoopState = LoopState(ops: seq<Op>, last: Option<Frames>, error: Option<Error>)

  /** What each iteration of the loop would do, in order. */
  function Outcomes(ctx: LoopContext, its: seq<IterationInput>): (r: seq<IterationOut>)
    requires forall k | 0 <= k < |its| :: |its[k].draws| >= ctx.numImages
    ensures |r| == |its|
    ensures forall k | 0 <= k < |its| :: r[k] == Iteration(k, ctx, its[k])
  {
    seq(|its|, k requires 0 <= k < |its| => Iteration(k, ctx, its[k]))
  }

  /** The loop over the iterations' outcomes: operations accumulate, and
      the first error stops the loop. */
  function RunLoop(outs: seq<IterationOut>): LoopState
    decreases |outs|
  {
    if outs == [] then LoopState([], None, None)
    else
      var prev := RunLoop(outs[..|outs| - 1]);
      if prev.error.Some? then prev
      else
        var out := outs[|outs| - 1];
        match out.result
        case Err(e) => LoopState(prev.ops + out.ops, prev.last, Some(e))
        case Ok(f) => LoopState(prev.ops + out.ops, Some(f), None)
  }

  /** `return images, image_list`: the last iteration's, or an error. */
  function LoopResult(l: LoopState): Result<Frames, Error> {
    if l.error.Some? then Err(l.error.value)
    else if l.last.None? then Err(NoIterations)
    else Ok(l.last.value)
  }

  /** Each iteration either reports a value or stops the loop: a loop that
      ran to the end reports the last iteration, a loop that stopped reports
      the error of an iteration that failed, and a loop of no iterations is
      an error. */
  lemma {:induction false} RunLoopLast(outs: seq<IterationOut>)
    ensures var l := RunLoop(outs);
      && (outs == [] ==> LoopResult(l) == Err(NoIterations))
      && (l.error.None? && outs != [] ==> l.last == Some(outs[|outs| - 1].result.value))
      && (l.error.None? ==> forall k | 0 <= k < |outs| :: outs[k].result.Ok?)
      && (l.error.Some? ==> exists k | 0 <= k < |outs| :: outs[k].result == Err(l.error.value))
    decreases |outs|
  {
    if outs != [] {
      var init := outs[..|outs| - 1];
      assert forall k | 0 <= k < |init| :: init[k] == outs[k];
      RunLoopLast(init);
      var prev := RunLoop(init);
      var l := RunLoop(outs);
      if prev.error.Some? {
        var k :| 0 <= k < |init| && init[k].result == Err(prev.error.value);
        assert outs[k].result == Err(l.error.value);
      } else if l.error.Some? {
        assert outs[|outs| - 1].result == Err(l.error.value);
      }
    }
  }

  /* ---------------------------------------------------------------- */
  /* The whole call                                                    */
  /* ---------------------------------------------------------------- */

  datatype CallResult = CallResult(images: seq<Image>, paths: seq<ImagePath>)

  /** The phases after the sampler is set: control image, detail-fix,
      per-pass settings, hires, and the loop. */
  function Generate(s: Session, r: CallRequest, env: CallEnv, g: Geometry): Stage<CallResult>
    requires WellFormed(r, env)
  {
    var c := PrepareControl(s, r);
    if c.result.Err? then Stage(c.state, Err(c.result.error))
    else GenerateDetailed(c.state, r, env, g, c.result.value)
  }

  function GenerateDetailed(s: Session, r: CallRequest, env: CallEnv, g: Geometry, control: ControlImage): Stage<CallResult>
    requires WellFormed(r, env)
  {
    var d := PrepareDetailfix(s, r);
    if d.result.Err? then Stage(d.state, Err(d.result.error))
    else
      var pa := DetailPassSettings(d.state, r, env, r.detailA, if d.result.value.Some? then d.result.value.value.paramsA else map[]);
      var pb := DetailPassSettings(pa.0, r, env, r.detailB, if d.result.value.Some? then d.result.value.value.paramsB else map[]);
      GenerateHires(pb.0, r, env, g, control, d.result.value)
  }

  function GenerateHires(s: Session, r: CallRequest, env: CallEnv, g: Geometry, control: ControlImage,
                         detail: Option<DetailPlan>): Stage<CallResult>
    requires WellFormed(r, env)
  {
    var h := PrepareHires(s, r, env);
    if h.result.Err? then Stage(h.state, Err(h.result.error))
    else
      var ctx := ContextFor(h.state, r, env, g, control, detail, h.result.value);
      var l := RunLoop(Outcomes(ctx, env.iterations[..Max0(r.loopGeneration)]));
      var s1 := Emit(h.state, l.ops);
      match LoopResult(l)
      case Err(e) => Stage(s1, Err(e))
      case Ok(f) => Stage(s1, Ok(CallResult(f.images, f.paths)))
  }

  /** `__call__`: whatever it raises, it only appends to the log. */
  function CallSpec(s: Session, r: CallRequest, env: CallEnv): (out: Stage<CallResult>)
    requires Valid(s) && Coherent(s) && WellFormed(r, env)
    ensures s.log <= out.state.log
  {
    var p := PreparePipe(s, r, env);
    assert Valid(p.state) && Coherent(p.state) && s.log <= p.state.log by {
      if s.pipe.None? {
        LoadPipePreservesInvariants(s, LoadRequest(s.baseModelId, s.taskName, s.vaeModel, Float16, true, true), env.load);
      }
    }
    if p.result.Err? then Stage(p.state, Err(p.result.error))
    else
      var s0 := p.state;
      ConfigureAndGenerateInvariants(s0, r, env, p.result.value);
      var k := ConfigurePipe(s0, r, env);
      if k.result.Err? then Stage(k.state, Err(k.result.error))
      else Generate(k.state, r, env, p.result.value)
  }

  /* ---------------------------------------------------------------- */
  /* Properties of a call                                              */
  /* ---------------------------------------------------------------- */

  /** The phases after the control image leave the pipelines, the model
      identity and the LoRA, flash and FreeU records alone, and only append
      to the log. */
  ghost predicate Untouched(s: Session, t: Session) {
    && t.cuda == s.cuda && t.baseModelId == s.baseModelId && t.taskName == s.taskName
    && t.vaeModel == s.vaeModel && t.className == s.className && t.pipe == s.pipe
    && t.defaultScheduler == s.defaultScheduler && t.modelMemory == s.modelMemory
    && t.loraMemory == s.loraMemory && t.loraScaleMemory == s.loraScaleMemory
    && t.flashConfig == s.flashConfig && t.freeU == s.freeU
    && s.log <= t.log
  }

  lemma UntouchedTransitive(s: Session, t: Session, u: Session)
    requires Untouched(s, t) && Untouched(t, u)
    ensures Untouched(s, u)
  {
  }

  lemma EmbedStepUntouched(s: Session, entries: seq<Embedding>, files: EmbedFiles)
    ensures Untouched(s, EmbedStep(s, entries, files))
  {
    EmbedStepRecords(s, entries, files);
  }

  /** Preparing the control image changes no task, model identity, LoRA,
      flash or FreeU record; the pipeline and the remembered pipelines
      change only by the SD lineart ControlNet swap of a task that
      preprocesses its image, and the session invariants are kept. */
  lemma PrepareControlFrame(s: Session, r: CallRequest)
    ensures var t := PrepareControl(s, r).state;
      && Untouched(s, t.(pipe := s.pipe, modelMemory := s.modelMemory))
      && (t.pipe != s.pipe || t.modelMemory != s.modelMemory ==>
            && s.taskName != "inpaint" && s.taskName != "txt2img" && r.hasImage && s.pipe.Some?
            && LineartSwapId(s, r.preprocessorName).Some?
            && t.pipe == WithControlNet(s, LineartSwapId(s, r.preprocessorName).value).pipe
            && t.modelMemory == WithControlNet(s, LineartSwapId(s, r.preprocessorName).value).modelMemory)
      && (Valid(s) && Coherent(s) ==> Valid(t) && Coherent(t))
  {
    if s.taskName != "inpaint" && s.taskName != "txt2img" {
      ImagePreprocessEffects(s, r.hasImage, r.preprocessorName, r.t2iPreprocessor);
    }
  }

  lemma OverrideSamplerUntouched(s: Session, aux: AuxPipe, value: Result<Param, Error>)
    ensures Untouched(s, OverrideSampler(s, aux, value).state)
  {
  }

  lemma DetailfixSamplersUntouched(s: Session, aux: AuxPipe, a1: map<string, Param>, b1: map<string, Param>)
    ensures Untouched(s, DetailfixSamplers(s, aux, a1, b1).state)
  {
    var sa := if GetParam(a1, "sampler", SAME_SAMPLER_PARAM) != SAME_SAMPLER_PARAM
              then OverrideSampler(s, aux, Lookup(a1, "sampler")) else Stage(s, Ok(()));
    OverrideSamplerUntouched(s, aux, Lookup(a1, "sampler"));
    OverrideSamplerUntouched(sa.state, aux, Lookup(a1 - {"sampler"}, "sampler"));
    UntouchedTransitive(s, sa.state, OverrideSampler(sa.state, aux, Lookup(a1 - {"sampler"}, "sampler")).state);
  }

  lemma SelectAuxUntouched(s: Session, stored: Option<AuxPipe>, retain: bool, category: string)
    requires s.pipe.Some?
    ensures Untouched(s, SelectAux(s, stored, retain, category).state)
  {
  }

  lemma DetailfixPipelineUntouched(s: Session, r: CallRequest)
    requires s.pipe.Some?
    ensures Untouched(s, DetailfixPipeline(s, r).state)
  {
    var inpaintOnly := IsTrue(GetParam(r.detailAParams, "inpaint_only", PBool(false)))
                       || IsTrue(GetParam(r.detailBParams, "inpaint_only", PBool(false)));
    SelectAuxUntouched(s, s.detailfixPipe, r.retainDetailfix, if inpaintOnly then "detailfix" else "detailfix_img2img");
  }

  lemma PrepareDetailfixUntouched(s: Session, r: CallRequest)
    ensures Untouched(s, PrepareDetailfix(s, r).state)
  {
    if (r.detailA || r.detailB) && s.pipe.Some? {
      var c := DetailfixPipeline(s, r);
      DetailfixPipelineUntouched(s, r);
      DetailfixSamplersUntouched(c.state, c.active, r.detailAParams - {"inpaint_only"}, r.detailBParams - {"inpaint_only"});
      UntouchedTransitive(s, c.state, DetailfixSamplers(c.state, c.active, r.detailAParams - {"inpaint_only"}, r.detailBParams - {"inpaint_only"}).state);
    }
  }

  lemma DetailPassSettingsUntouched(s: Session, r: CallRequest, env: CallEnv, enabled: bool, params: map<string, Param>)
    ensures Untouched(s, DetailPassSettings(s, r, env, enabled, params).0)
  {
    EmbedStepUntouched(s, r.textualInversion, env.embeddingFiles);
  }

  lemma HiresStageUntouched(s: Session, r: CallRequest, v: ValidPrompts)
    ensures Untouched(s, HiresStage(s, r, v).state)
  {
    if s.pipe.Some? {
      var c := HiresPipeline(s, r);
      assert Untouched(s, c.state);
      OverrideSamplerUntouched(c.state, c.active, Ok(PStr(r.hiresSampler)));
      UntouchedTransitive(s, c.state, OverrideSampler(c.state, c.active, Ok(PStr(r.hiresSampler))).state);
    }
  }

  lemma PrepareHiresUntouched(s: Session, r: CallRequest, env: CallEnv)
    ensures Untouched(s, PrepareHires(s, r, env).state)
  {
    if r.hiresSteps > 1 && r.upscaler.Some? {
      var v := ProcessPromptsValid(Some(r.hiresPrompt), Some(r.hiresNegativePrompt), r.prompt, r.negativePrompt);
      var s1 := if NeedsOwnEmbeds(v) then EmbedStep(s, r.textualInversion, env.embeddingFiles) else s;
      EmbedStepUntouched(s, r.textualInversion, env.embeddingFiles);
      HiresStageUntouched(s1, r, v);
      UntouchedTransitive(s, s1, HiresStage(s1, r, v).state);
    }
  }

  lemma GenerateHiresUntouched(s: Session, r: CallRequest, env: CallEnv, g: Geometry, control: ControlImage,
                                detail: Option<DetailPlan>)
    requires WellFormed(r, env)
    ensures Untouched(s, GenerateHires(s, r, env, g, control, detail).state)
  {
    var h := PrepareHires(s, r, env);
    PrepareHiresUntouched(s, r, env);
    if h.result.Ok? {
      var ctx := ContextFor(h.state, r, env, g, control, detail, h.result.value);
      var l := RunLoop(Outcomes(ctx, env.iterations[..Max0(r.loopGeneration)]));
      UntouchedTransitive(s, h.state, Emit(h.state, l.ops));
    }
  }

  lemma GenerateDetailedUntouched(s: Session, r: CallRequest, env: CallEnv, g: Geometry, control: ControlImage)
    requires WellFormed(r, env)
    ensures Untouched(s, GenerateDetailed(s, r, env, g, control).state)
  {
    var d := PrepareDetailfix(s, r);
    PrepareDetailfixUntouched(s, r);
    if d.result.Ok? {
      var pa := DetailPassSettings(d.state, r, env, r.detailA, if d.result.value.Some? then d.result.value.value.paramsA else map[]);
      DetailPassSettingsUntouched(d.state, r, env, r.detailA, if d.result.value.Some? then d.result.value.value.paramsA else map[]);
      UntouchedTransitive(s, d.state, pa.0);
      var pb := DetailPassSettings(pa.0, r, env, r.detailB, if d.result.value.Some? then d.result.value.value.paramsB else map[]);
      DetailPassSettingsUntouched(pa.0, r, env, r.detailB, if d.result.value.Some? then d.result.value.value.paramsB else map[]);
      UntouchedTransitive(s, pa.0, pb.0);
      GenerateHiresUntouched(pb.0, r, env, g, control, d.result.value);
      UntouchedTransitive(s, pb.0, GenerateHires(pb.0, r, env, g, control, d.result.value).state);
    }
  }

  /** After the control image, generation leaves the pipelines and the
      adapter records as the preparation left them; over the whole phase
      only the lineart swap touches the pipelines. */
  lemma GenerateUntouched(s: Session, r: CallRequest, env: CallEnv, g: Geometry)
    requires WellFormed(r, env)
    ensures Untouched(PrepareControl(s, r).state, Generate(s, r, env, g).state)
    ensures var t := Generate(s, r, env, g).state;
      Untouched(s, t.(pipe := s.pipe, modelMemory := s.modelMemory))
  {
    var c := PrepareControl(s, r);
    PrepareControlFrame(s, r);
    if c.result.Ok? {
      GenerateDetailedUntouched(c.state, r, env, g, c.result.value);
    }
  }

  /** Once the flash step passes, the flash record and the FreeU flag follow
      the request, and a non-empty textual-inversion list replaces the
      recorded one; nothing else but the log changes. */
  lemma ConfigureAdaptersRecords(s: Session, r: CallRequest, env: CallEnv)
    ensures var k := ConfigureAdapters(s, r, env);
      && k.state == s.(flashConfig := k.state.flashConfig, freeU := k.state.freeU,
                       embedLoaded := k.state.embedLoaded, log := k.state.log)
      && s.log <= k.state.log
      && (k.result.Err? ==> k.result.error == SamplerError || k.result.error == UnknownFlashFamily(s.className))
      && (FlashStep(s, r.sampler, env.incompatibleLoras).Ok? ==>
            && k.state.flashConfig == FlashTarget(s.className, r.sampler)
            && k.state.freeU == r.freeU
            && k.state.embedLoaded == (if r.textualInversion == [] then s.embedLoaded else r.textualInversion))
  {
    FlashStepTracksSampler(s, r.sampler, env.incompatibleLoras);
    var f := FlashStep(s, r.sampler, env.incompatibleLoras);
    if f.Ok? {
      var s2 := FreeUStep(f.value, r.freeU);
      FreeUStepTracksFlag(f.value, r.freeU);
      EmbedStepRecords(s2, r.textualInversion, env.embeddingFiles);
    }
  }

  /** The call records the requested LoRA slots whether or not each merge
      succeeded, and the adapters follow the request once the flash step
      passes. */
  lemma ConfigurePipeRecords(s: Session, r: CallRequest, env: CallEnv)
    requires |r.loras| == |r.loraScales| && |s.loraMemory| == |s.loraScaleMemory|
    ensures var k := ConfigurePipe(s, r, env);
      && k.state.loraMemory == r.loras && k.state.loraScaleMemory == r.loraScales
      && k.state.pipe == s.pipe && k.state.modelMemory == s.modelMemory && k.state.className == s.className
      && k.state.defaultScheduler == s.defaultScheduler && k.state.taskName == s.taskName
      && k.state.cuda == s.cuda && s.log <= k.state.log
      && (k.result.Err? ==> k.result.error == SamplerError || k.result.error == UnknownFlashFamily(s.className))
      && (FlashStep(ReconcileLoras(s, r.loras, r.loraScales, env.incompatibleLoras), r.sampler, env.incompatibleLoras).Ok? ==>
            && k.state.flashConfig == FlashTarget(s.className, r.sampler)
            && k.state.freeU == r.freeU
            && k.state.embedLoaded == (if r.textualInversion == [] then s.embedLoaded else r.textualInversion))
  {
    var s1 := ReconcileLoras(s, r.loras, r.loraScales, env.incompatibleLoras);
    ReconcileLorasRecords(s, r.loras, r.loraScales, env.incompatibleLoras);
    ConfigureAdaptersRecords(s1, r, env);
  }

  /** A call without a needed reference image fails before anything changes. */
  lemma CallMissingImage(s: Session, r: CallRequest, env: CallEnv)
    requires Valid(s) && Coherent(s) && WellFormed(r, env)
    requires s.taskName != "txt2img" && !r.hasImage
    ensures CallSpec(s, r, env) == Stage(s, Err(MissingImage))
  {
  }

  /** Every call keeps the session invariants, whatever it raises. */
  lemma CallPreservesInvariants(s: Session, r: CallRequest, env: CallEnv)
    requires Valid(s) && Coherent(s) && WellFormed(r, env)
    ensures Valid(CallSpec(s, r, env).state) && Coherent(CallSpec(s, r, env).state)
    ensures s.log <= CallSpec(s, r, env).state.log
  {
    var p := PreparePipe(s, r, env);
    if s.pipe.None? {
      LoadPipePreservesInvariants(s, LoadRequest(s.baseModelId, s.taskName, s.vaeModel, Float16, true, true), env.load);
    }
    assert Valid(p.state) && Coherent(p.state) && s.log <= p.state.log;
    if p.result.Ok? {
      ConfigureAndGenerateInvariants(p.state, r, env, p.result.value);
    }
  }

  /** The phases after the pipeline is prepared keep the invariants and
      only append to the log. */
  lemma ConfigureAndGenerateInvariants(s: Session, r: CallRequest, env: CallEnv, g: Geometry)
    requires Valid(s) && Coherent(s) && WellFormed(r, env)
    ensures var k := ConfigurePipe(s, r, env);
      var t := if k.result.Err? then k.state else Generate(k.state, r, env, g).state;
      Valid(t) && Coherent(t) && s.log <= t.log
  {
    var k := ConfigurePipe(s, r, env);
    ConfigurePipeRecords(s, r, env);
    assert Valid(k.state) && Coherent(k.state);
    if k.result.Ok? {
      PrepareControlFrame(k.state, r);
      GenerateUntouched(k.state, r, env, g);
    }
  }

  /** A call with a pipeline loaded and the same adapters as the previous
      call merges no LoRA: the reconciliation and the flash step add nothing
      to the log. */
  lemma CallSameAdaptersNoMerge(s: Session, r: CallRequest, env: CallEnv)
    requires |r.loras| == |r.loraScales| && |s.loraMemory| == |s.loraScaleMemory|
    requires s.loraMemory == r.loras && s.loraScaleMemory == r.loraScales
    requires s.flashConfig == FlashTarget(s.className, r.sampler)
    requires r.sampler !in FLASH_SAMPLERS || s.flashConfig.Some?
    ensures ReconcileLoras(s, r.loras, r.loraScales, env.incompatibleLoras) == s
    ensures FlashStep(s, r.sampler, env.incompatibleLoras) == Ok(s)
  {
    FlashStepTracksSampler(s, r.sampler, env.incompatibleLoras);
  }
}
