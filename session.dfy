/** The state `Model_Diffusers` keeps between calls, the log of external
    operations it performs, and the state transitions of `load_pipe`, of
    the LoRA, flash-LoRA, FreeU and textual-inversion bookkeeping of
    `__call__`, and of `get_image_preprocess`, as pure functions from the
    old state to the new one. */
module Session {
  import opened Basics
  import opened Tables
  import opened Detectors

  datatype Precision = Float16 | Float32 | BFloat16

  /** What `checkpoint_model_type` reports for a `.safetensors` file. */
  datatype CheckpointType = Sd15Checkpoint | SdxlCheckpoint | OtherCheckpoint(name: string)

  /** The kind of pipeline object `self.pipe` holds. */
  datatype Flavour =
    | Loaded(family: string)                // as read from the checkpoint or repository
    | Rewired(family: string)               // plain pipeline re-assembled from the loaded parts
    | Img2Img(family: string)               // image-to-image pipeline derived from the plain one
    | ControlNetInpaint(controlnet: string)
    | XLInpaint
    | ControlNet(controlnet: string)
    | XLControlNet(controlnet: string)
    | XLAdapter(adapter: string)

  /** A pipeline object: `serial` is its identity, `parts` the identity of
      the loaded weights (VAE, text encoders, UNet, scheduler) it borrows. */
  datatype Pipe = Pipe(serial: nat, parts: nat, flavour: Flavour)

  /** A detail-fix or hires pipeline built from the main pipeline. */
  datatype AuxPipe = AuxPipe(category: string, base: nat, serial: nat)

  datatype Encoder = TextEncoder | TextEncoder2

  /** A textual-inversion entry: the token and the embedding file. */
  datatype Embedding = Embedding(token: string, path: string)

  /** A generator seeded for one image, on the GPU or on the CPU. */
  datatype Generator = Generator(seed: int, onCuda: bool)

  /** Which detail-fix pass, A or B. */
  datatype DetailPass = PassA | PassB

  /** The external effects, in the order they are requested. */
  datatype Op =
    | Release                                     // empty the CUDA cache, collect garbage
    | LoadSingleFile(path: string, family: string, precision: Precision)
    | LoadRepository(repo: string, family: string, precision: Precision, fp16Variant: bool)
    | LoadVae(vae: string, fromFile: bool)
    | LoadControlNet(id: string)
    | LoadAdapter(id: string)
    | Assemble(pipe: Pipe)
    | SwapControlNet(id: string)                  // replace the controlnet of the active pipeline
    | MergeLora(lora: string, scale: real, applied: bool)
    | LoadEmbedding(token: string, path: string, encoder: Encoder)
    | EnableFreeU(sdValues: bool)
    | DisableFreeU
    | SetScheduler(scheduler: Scheduler)
    | BuildAux(aux: AuxPipe)
    | SetAuxScheduler(auxSerial: nat, scheduler: Scheduler)
    | Denoise(generators: seq<Generator>)
    | Upscale(refine: bool, generator: Generator)
    | DetailFix(pass: DetailPass, auxSerial: nat)
    | SaveImage(seed: int)

  /** The errors the core raises, by cause. */
  datatype Error =
    | UnsupportedModelType(modelType: string)     // ValueError for an unknown checkpoint type
    | MissingPipelineClass                        // a repository manifest without "_class_name"
    | NoPipeline                                  // an attribute of a pipeline that was never loaded
    | UnknownTask(task: string)                   // KeyError on CONTROLNET_MODEL_IDS
    | MissingImage                                // ValueError: the task needs a reference image
    | NoReferenceImage                            // ValueError in get_image_preprocess
    | ControlPlanError(plan: PlanError)
    | UnknownDetector(name: string)               // ValueError in Preprocessor.load
    | NoDetectorModel                             // TypeError: the preprocessor's model is still None
    | UnknownFlashFamily(className: string)       // KeyError on FLASH_LORA
    | SamplerError                                // RuntimeError "Error in sampler"
    | NoDefaultScheduler                          // the base scheduler was never recorded
    | UnknownScheduler(name: string)              // ValueError in get_scheduler
    | MissingKey(key: string)                     // KeyError on a detail-fix parameter
    | StepsOrStrengthTooLow                       // ValueError after a degenerate denoising
    | GenerationFailed(message: string)           // any other denoising failure, as ValueError
    | RetryFailed(message: string)                // the DDIM retry failed; re-raised as is
    | NoSeeds                                     // IndexError on an empty generator list
    | NoImages                                    // IndexError on an empty image list
    | NoIterations                                // `images` is unbound when no iteration ran

  datatype Session = Session(
    cuda: bool,
    baseModelId: string,
    taskName: string,
    vaeModel: Option<string>,
    precision: Precision,
    className: string,
    pipe: Option<Pipe>,
    defaultScheduler: Option<nat>,
    modelMemory: map<string, Pipe>,
    loraMemory: seq<Option<string>>,
    loraScaleMemory: seq<real>,
    flashConfig: Option<string>,
    embedLoaded: seq<Embedding>,
    freeU: bool,
    detailfixPipe: Option<AuxPipe>,
    hiresPipe: Option<AuxPipe>,
    detector: DetectorSlot,
    nextSerial: nat,
    log: seq<Op>)

  const NO_LORAS: seq<Option<string>> := [None, None, None, None, None]
  const UNIT_SCALES: seq<real> := [1.0, 1.0, 1.0, 1.0, 1.0]

  /** Without CUDA every model is kept in full precision. */
  function EffectivePrecision(cuda: bool, requested: Precision): Precision {
    if cuda then requested else Float32
  }

  /** The state before the first `load_pipe`. */
  function Initial(cuda: bool, precision: Precision): Session {
    Session(cuda, "", "", None, EffectivePrecision(cuda, precision), "", None, None, map[],
            NO_LORAS, UNIT_SCALES, None, [], false, None, None, EMPTY_SLOT, 0, [])
  }

  /** Facts every reachable state keeps: five LoRA slots; an active pipeline
      belongs to one of the two families and has a recorded base scheduler;
      every remembered task pipeline borrows the active pipeline's weights. */
  ghost predicate Valid(s: Session) {
    && |s.loraMemory| == 5 && |s.loraScaleMemory| == 5
    && (s.pipe.Some? ==> (s.className == SD_CLASS || s.className == SDXL_CLASS) && s.defaultScheduler.Some?)
    && (forall t | t in s.modelMemory :: s.pipe.Some? && s.modelMemory[t].parts == s.pipe.value.parts)
  }

  /** The active pipeline is the one remembered for the active task. */
  ghost predicate Coherent(s: Session) {
    s.taskName in s.modelMemory ==> s.pipe == Some(s.modelMemory[s.taskName])
  }

  lemma InitialValid(cuda: bool, precision: Precision)
    ensures Valid(Initial(cuda, precision)) && Coherent(Initial(cuda, precision))
  {
  }

  function Emit(s: Session, ops: seq<Op>): Session {
    s.(log := s.log + ops)
  }

  /* ---------------------------------------------------------------- */
  /* load_pipe                                                         */
  /* ---------------------------------------------------------------- */

  datatype LoadRequest = LoadRequest(
    baseModelId: string,
    taskName: string,
    vaeModel: Option<string>,
    precision: Precision,
    reload: bool,
    retainInMemory: bool)

  /** What the file system and the model hub answer: whether the base id and
      the VAE id are local files, the type of a `.safetensors` checkpoint,
      the `_class_name` of a repository manifest, and whether the repository
      has an fp16 variant. */
  datatype LoadEnv = LoadEnv(
    baseIsFile: bool,
    checkpointType: CheckpointType,
    manifestClass: Option<string>,
    fp16Variant: bool,
    vaeIsFile: bool)

  datatype Step = Step(state: Session, outcome: Outcome<Error>)

  /** The early return: same base, task and VAE, a loaded pipeline, no
      forced reload, and the same precision or no GPU. */
  predicate FastPath(s: Session, a: LoadRequest) {
    && a.baseModelId == s.baseModelId && a.taskName == s.taskName
    && s.vaeModel == a.vaeModel && s.pipe.Some? && !a.reload
    && (s.precision == a.precision || !s.cuda)
  }

  /** `unload_model`: set when nothing is loaded, and for a local checkpoint
      also when the precision changes on a GPU. */
  predicate UnloadModel(s: Session, a: LoadRequest, env: LoadEnv) {
    if env.baseIsFile then s.pipe.None? || (a.precision != s.precision && s.cuda)
    else s.pipe.None?
  }

  /** The loaded base weights can be reused for the requested task. */
  predicate KeepsBase(s: Session, a: LoadRequest, unload: bool) {
    s.baseModelId == a.baseModelId && s.pipe.Some? && !a.reload && s.vaeModel == a.vaeModel && !unload
  }

  /** Unload the previous model and every cache that belongs to it. */
  function Teardown(s: Session): Session {
    Emit(s.(pipe := None, modelMemory := map[], loraMemory := NO_LORAS, loraScaleMemory := UNIT_SCALES,
            flashConfig := None, embedLoaded := [], freeU := false), [Release])
  }

  /** A freshly loaded base pipeline: its own weights. */
  function NewBase(s: Session, family: string, ops: seq<Op>): Session {
    var p := Pipe(s.nextSerial, s.nextSerial, Loaded(family));
    Emit(s, ops).(pipe := Some(p), nextSerial := s.nextSerial + 1)
  }

  /** A pipeline assembled from the active pipeline's weights. */
  function Derive(s: Session, f: Flavour): Session
    requires s.pipe.Some?
  {
    var p := Pipe(s.nextSerial, s.pipe.value.parts, f);
    Emit(s, [Assemble(p)]).(pipe := Some(p), nextSerial := s.nextSerial + 1)
  }

  datatype BaseLoad = BaseLoad(state: Session, className: string)

  /** Read the base weights from a local checkpoint or from a repository;
      the class name is the family the file or the manifest declares. */
  function LoadCheckpoint(s: Session, a: LoadRequest, env: LoadEnv): Result<BaseLoad, Error> {
    if env.baseIsFile then
      var kind := if EndsWith(a.baseModelId, ".safetensors") then env.checkpointType else Sd15Checkpoint;
      match kind
      case SdxlCheckpoint =>
        Ok(BaseLoad(NewBase(s, SDXL_CLASS, [LoadVae(SDXL_VAE, false), LoadSingleFile(a.baseModelId, SDXL_CLASS, s.precision)]), SDXL_CLASS))
      case Sd15Checkpoint =>
        Ok(BaseLoad(NewBase(s, SD_CLASS, [LoadSingleFile(a.baseModelId, SD_CLASS, s.precision)]), SD_CLASS))
      case OtherCheckpoint(n) => Err(UnsupportedModelType(n))
    else
      match env.manifestClass
      case None => Err(MissingPipelineClass)
      case Some(c) =>
        if c == SD_CLASS then
          Ok(BaseLoad(NewBase(s, c, [LoadRepository(a.baseModelId, c, s.precision, false)]), c))
        else if c == SDXL_CLASS then
          var ops := if env.fp16Variant then [LoadVae(SDXL_VAE, false), LoadRepository(a.baseModelId, c, Float16, true)]
                     else [LoadVae(SDXL_VAE, false), LoadVae(SDXL_VAE, false), LoadRepository(a.baseModelId, c, Float16, false)];
          Ok(BaseLoad(NewBase(s, c, ops), c))
        else
          Ok(BaseLoad(s, c))
  }

  /** Load a new base model into a torn-down state: weights, identity, the
      requested VAE, and the base scheduler that later samplers derive from. */
  function ReloadBase(s: Session, a: LoadRequest, env: LoadEnv): Step {
    match LoadCheckpoint(s, a, env)
    case Err(e) => Step(s, Fail(e))
    case Ok(b) =>
      var s1 := b.state.(baseModelId := a.baseModelId, className := b.className);
      var s2 := if a.vaeModel.Some? then Emit(s1, [LoadVae(a.vaeModel.value, env.vaeIsFile)]) else s1;
      if s2.pipe.None? then
        Step(if a.vaeModel.None? then s2.(vaeModel := None) else s2, Fail(NoPipeline))
      else
        Step(s2.(vaeModel := a.vaeModel, defaultScheduler := Some(s2.pipe.value.parts)), Pass)
  }

  /** The inpaint pipeline: a ControlNet inpaint pipeline for SD 1.5, the
      SDXL inpaint pipeline for SDXL. */
  function InpaintStage(s: Session, task: string, cls: string, id: string): Session
    requires s.pipe.Some?
  {
    if task != "inpaint" then s
    else if cls == SD_CLASS then Derive(Emit(s, [LoadControlNet(id)]), ControlNetInpaint(id))
    else if cls == SDXL_CLASS then Derive(s, XLInpaint)
    else s
  }

  /** The control pipeline: a ControlNet pipeline (with the UniPC sampler)
      for SD 1.5; for SDXL a ControlNet pipeline for the ControlNet tasks and
      a T2I-adapter pipeline for the others. */
  function ControlStage(s: Session, task: string, cls: string, id: string): Session
    requires s.pipe.Some?
  {
    if task in ["txt2img", "inpaint", "img2img"] then s
    else if cls == SD_CLASS then
      var d := Derive(Emit(s, [LoadControlNet(id)]), ControlNet(id));
      Emit(d, [SetScheduler(Scheduler(UniPCMultistep, d.pipe.value.parts, map[]))])
    else if cls == SDXL_CLASS then
      if task in XL_CONTROLNET_TASKS then Derive(Emit(s, [LoadControlNet(id)]), XLControlNet(id))
      else Derive(Emit(s, [LoadAdapter(id)]), XLAdapter(id))
    else s
  }

  /** The plain pipeline re-assembled from the parts, and for img2img the
      image-to-image pipeline derived from it. */
  function PlainStage(s: Session, task: string, cls: string): Session
    requires s.pipe.Some?
  {
    if task !in ["txt2img", "img2img"] then s
    else
      var r := if cls == SD_CLASS || cls == SDXL_CLASS then Derive(s, Rewired(cls)) else s;
      if task == "img2img" then Derive(r, Img2Img(cls)) else r
  }

  /** The pipeline for `task`, assembled from the active pipeline; `id` is
      the ControlNet or adapter repository. */
  function BuildVariant(s: Session, task: string, cls: string, id: string): Session
    requires s.pipe.Some?
  {
    var s1 := InpaintStage(s, task, cls, id);
    InpaintStageSameWeights(s, task, cls, id);
    var s2 := ControlStage(s1, task, cls, id);
    PlainStage(s2, task, cls)
  }

  /** `t` differs from `s` only in a pipeline over the same weights, the
      serial counter and operations appended to the log, none of which reads
      base weights. */
  ghost predicate SameWeights(s: Session, t: Session) {
    && s.pipe.Some? && t.pipe.Some? && t.pipe.value.parts == s.pipe.value.parts
    && t == s.(pipe := t.pipe, nextSerial := t.nextSerial, log := t.log)
    && s.log <= t.log
    && (forall k | |s.log| <= k < |t.log| :: !LoadsBase(t.log[k]))
  }

  lemma SameWeightsTransitive(s: Session, t: Session, u: Session)
    requires SameWeights(s, t) && SameWeights(t, u)
    ensures SameWeights(s, u)
  {
    forall k | |s.log| <= k < |u.log| ensures !LoadsBase(u.log[k]) {
      if k < |t.log| {
        assert u.log[k] == t.log[k];
      }
    }
  }

  lemma DeriveSameWeights(s: Session, f: Flavour)
    requires s.pipe.Some?
    ensures SameWeights(s, Derive(s, f))
  {
  }

  lemma EmitSameWeights(s: Session, ops: seq<Op>)
    requires s.pipe.Some?
    requires forall k | 0 <= k < |ops| :: !LoadsBase(ops[k])
    ensures SameWeights(s, Emit(s, ops))
  {
    var t := Emit(s, ops);
    forall k | |s.log| <= k < |t.log| ensures !LoadsBase(t.log[k]) {
      assert t.log[k] == ops[k - |s.log|];
    }
  }

  lemma SameWeightsReflexive(s: Session)
    requires s.pipe.Some?
    ensures SameWeights(s, s)
  {
  }

  /** Emit some operations, then derive a pipeline. */
  lemma EmitDeriveSameWeights(s: Session, ops: seq<Op>, f: Flavour)
    requires s.pipe.Some?
    requires forall k | 0 <= k < |ops| :: !LoadsBase(ops[k])
    ensures SameWeights(s, Derive(Emit(s, ops), f))
  {
    EmitSameWeights(s, ops);
    DeriveSameWeights(Emit(s, ops), f);
    SameWeightsTransitive(s, Emit(s, ops), Derive(Emit(s, ops), f));
  }

  lemma InpaintStageSameWeights(s: Session, task: string, cls: string, id: string)
    requires s.pipe.Some?
    ensures SameWeights(s, InpaintStage(s, task, cls, id))
  {
    if task != "inpaint" {
      SameWeightsReflexive(s);
    } else if cls == SD_CLASS {
      EmitDeriveSameWeights(s, [LoadControlNet(id)], ControlNetInpaint(id));
    } else if cls == SDXL_CLASS {
      DeriveSameWeights(s, XLInpaint);
    } else {
      SameWeightsReflexive(s);
    }
  }

  lemma ControlStageSameWeights(s: Session, task: string, cls: string, id: string)
    requires s.pipe.Some?
    ensures SameWeights(s, ControlStage(s, task, cls, id))
  {
    if task in ["txt2img", "inpaint", "img2img"] {
      SameWeightsReflexive(s);
    } else if cls == SD_CLASS {
      var d := Derive(Emit(s, [LoadControlNet(id)]), ControlNet(id));
      EmitDeriveSameWeights(s, [LoadControlNet(id)], ControlNet(id));
      EmitSameWeights(d, [SetScheduler(Scheduler(UniPCMultistep, d.pipe.value.parts, map[]))]);
      SameWeightsTransitive(s, d, ControlStage(s, task, cls, id));
    } else if cls == SDXL_CLASS {
      if task in XL_CONTROLNET_TASKS {
        EmitDeriveSameWeights(s, [LoadControlNet(id)], XLControlNet(id));
      } else {
        EmitDeriveSameWeights(s, [LoadAdapter(id)], XLAdapter(id));
      }
    } else {
      SameWeightsReflexive(s);
    }
  }

  lemma PlainStageSameWeights(s: Session, task: string, cls: string)
    requires s.pipe.Some?
    ensures SameWeights(s, PlainStage(s, task, cls))
  {
    if task !in ["txt2img", "img2img"] {
      SameWeightsReflexive(s);
    } else {
      var r := if cls == SD_CLASS || cls == SDXL_CLASS then Derive(s, Rewired(cls)) else s;
      if cls == SD_CLASS || cls == SDXL_CLASS {
        DeriveSameWeights(s, Rewired(cls));
      } else {
        SameWeightsReflexive(s);
      }
      if task == "img2img" {
        DeriveSameWeights(r, Img2Img(cls));
        SameWeightsTransitive(s, r, Derive(r, Img2Img(cls)));
      }
    }
  }

  /** Select the task pipeline: the remembered one, or a new one built from
      the loaded base and remembered when asked to. */
  function AttachTask(s: Session, a: LoadRequest, cls: string): Step {
    if a.taskName in s.modelMemory then
      Step(s.(pipe := Some(s.modelMemory[a.taskName]), baseModelId := a.baseModelId, taskName := a.taskName,
              vaeModel := a.vaeModel, className := cls), Pass)
    else if a.taskName !in CONTROLNET_MODEL_IDS then Step(s, Fail(UnknownTask(a.taskName)))
    else if s.pipe.None? then Step(s, Fail(NoPipeline))
    else
      var built := BuildVariant(s, a.taskName, cls, ChooseModelId(CONTROLNET_MODEL_IDS[a.taskName], cls));
      var s1 := Emit(built, [Release]).(baseModelId := a.baseModelId, taskName := a.taskName,
                                        vaeModel := a.vaeModel, className := cls);
      if a.retainInMemory && a.taskName !in s1.modelMemory then
        Step(s1.(modelMemory := s1.modelMemory[a.taskName := s1.pipe.value]), Pass)
      else
        Step(s1, Pass)
  }

  /** `load_pipe`: it only appends to the log, and it leaves the device,
      the detector cache and the retained auxiliary pipelines alone. */
  function LoadPipe(s: Session, a: LoadRequest, env: LoadEnv): (r: Step)
    ensures Extends(s, r.state)
  {
    if FastPath(s, a) then Step(s, Pass)
    else
      var unload := UnloadModel(s, a, env);
      var s1 := s.(precision := EffectivePrecision(s.cuda, a.precision));
      if KeepsBase(s1, a, unload) then
        AttachTaskFrame(s1, a, s1.className);
        AttachTask(s1, a, s1.className)
      else
        var t := ReloadBase(Teardown(s1), a, env);
        ReloadBaseFrame(Teardown(s1), a, env);
        if t.outcome.Fail? then t
        else
          AttachTaskFrame(t.state, a, t.state.className);
          AttachTask(t.state, a, t.state.className)
  }

  /** Loading only ever appends to the operation log. */
  predicate Extends(s: Session, t: Session) {
    s.log <= t.log && t.cuda == s.cuda && t.detector == s.detector
    && t.detailfixPipe == s.detailfixPipe && t.hiresPipe == s.hiresPipe
  }

  /** A base-weight read. */
  predicate LoadsBase(op: Op) {
    op.LoadSingleFile? || op.LoadRepository?
  }

  /** Building a variant only assembles pipelines over the same weights:
      it leaves every field but the pipeline, the serial and the log alone,
      and it reads no base weights. */
  lemma BuildVariantFrame(s: Session, task: string, cls: string, id: string)
    requires s.pipe.Some?
    ensures SameWeights(s, BuildVariant(s, task, cls, id))
  {
    var s1 := InpaintStage(s, task, cls, id);
    InpaintStageSameWeights(s, task, cls, id);
    var s2 := ControlStage(s1, task, cls, id);
    ControlStageSameWeights(s1, task, cls, id);
    PlainStageSameWeights(s2, task, cls);
    SameWeightsTransitive(s, s1, s2);
    SameWeightsTransitive(s, s2, PlainStage(s2, task, cls));
  }

  lemma AttachTaskFrame(s: Session, a: LoadRequest, cls: string)
    ensures var r := AttachTask(s, a, cls);
      && Extends(s, r.state)
      && r.state.loraMemory == s.loraMemory && r.state.loraScaleMemory == s.loraScaleMemory
      && r.state.flashConfig == s.flashConfig && r.state.embedLoaded == s.embedLoaded
      && r.state.freeU == s.freeU && r.state.precision == s.precision
      && r.state.defaultScheduler == s.defaultScheduler
      && r.state.modelMemory.Keys <= s.modelMemory.Keys + {a.taskName}
      && (forall k | |s.log| <= k < |r.state.log| :: !LoadsBase(r.state.log[k]))
      && (r.outcome.Pass? ==>
            r.state.pipe.Some? && r.state.baseModelId == a.baseModelId && r.state.taskName == a.taskName
            && r.state.vaeModel == a.vaeModel && r.state.className == cls)
      && (r.outcome.Fail? ==> r.state == s)
  {
    if a.taskName !in s.modelMemory && a.taskName in CONTROLNET_MODEL_IDS && s.pipe.Some? {
      BuildVariantFrame(s, a.taskName, cls, ChooseModelId(CONTROLNET_MODEL_IDS[a.taskName], cls));
    }
  }

  /** Reading the base weights only sets the pipeline, the serial and the
      log; a loaded pipeline owns its weights and its class is a known family. */
  lemma LoadCheckpointFrame(s: Session, a: LoadRequest, env: LoadEnv)
    requires s.pipe.None?
    ensures var r := LoadCheckpoint(s, a, env);
      r.Ok? ==>
        && r.value.state == s.(pipe := r.value.state.pipe, nextSerial := r.value.state.nextSerial, log := r.value.state.log)
        && s.log <= r.value.state.log
        && (r.value.state.pipe.Some? ==>
              r.value.state.pipe.value.parts == r.value.state.pipe.value.serial
              && (r.value.className == SD_CLASS || r.value.className == SDXL_CLASS))
  {
    if env.baseIsFile {
      var kind := if EndsWith(a.baseModelId, ".safetensors") then env.checkpointType else Sd15Checkpoint;
      match kind
      case SdxlCheckpoint =>
        NewBaseFrame(s, SDXL_CLASS, [LoadVae(SDXL_VAE, false), LoadSingleFile(a.baseModelId, SDXL_CLASS, s.precision)]);
      case Sd15Checkpoint =>
        NewBaseFrame(s, SD_CLASS, [LoadSingleFile(a.baseModelId, SD_CLASS, s.precision)]);
      case OtherCheckpoint(n) =>
    } else if env.manifestClass.Some? {
      var c := env.manifestClass.value;
      if c == SD_CLASS {
        NewBaseFrame(s, c, [LoadRepository(a.baseModelId, c, s.precision, false)]);
      } else if c == SDXL_CLASS {
        var ops := if env.fp16Variant then [LoadVae(SDXL_VAE, false), LoadRepository(a.baseModelId, c, Float16, true)]
                   else [LoadVae(SDXL_VAE, false), LoadVae(SDXL_VAE, false), LoadRepository(a.baseModelId, c, Float16, false)];
        NewBaseFrame(s, c, ops);
      }
    }
  }

  lemma NewBaseFrame(s: Session, family: string, ops: seq<Op>)
    ensures var t := NewBase(s, family, ops);
      && t == s.(pipe := t.pipe, nextSerial := t.nextSerial, log := t.log)
      && s.log <= t.log
      && t.pipe.Some? && t.pipe.value.parts == t.pipe.value.serial
  {
  }

  lemma ReloadBaseFrame(s: Session, a: LoadRequest, env: LoadEnv)
    requires s.pipe.None?
    ensures var r := ReloadBase(s, a, env);
      && Extends(s, r.state)
      && r.state.modelMemory == s.modelMemory
      && r.state.loraMemory == s.loraMemory && r.state.loraScaleMemory == s.loraScaleMemory
      && r.state.flashConfig == s.flashConfig && r.state.embedLoaded == s.embedLoaded
      && r.state.freeU == s.freeU && r.state.precision == s.precision && r.state.taskName == s.taskName
      && (r.outcome.Pass? ==>
            r.state.pipe.Some? && r.state.pipe.value.parts == r.state.pipe.value.serial
            && r.state.baseModelId == a.baseModelId && r.state.vaeModel == a.vaeModel
            && (r.state.className == SD_CLASS || r.state.className == SDXL_CLASS)
            && r.state.defaultScheduler == Some(r.state.pipe.value.parts))
      && (r.outcome.Fail? ==> r.state.pipe.None?)
  {
    LoadCheckpointFrame(s, a, env);
  }

  /** The early return changes nothing at all. */
  lemma LoadPipeFastPath(s: Session, a: LoadRequest, env: LoadEnv)
    requires FastPath(s, a)
    ensures LoadPipe(s, a, env) == Step(s, Pass)
  {
  }

  /** After a successful load the state records the request, so asking for
      the same thing again (without `reload`) takes the early return. */
  lemma LoadPipeIdempotent(s: Session, a: LoadRequest, env: LoadEnv)
    requires LoadPipe(s, a, env).outcome.Pass?
    requires !a.reload
    ensures LoadPipe(LoadPipe(s, a, env).state, a, env) == Step(LoadPipe(s, a, env).state, Pass)
  {
    var r := LoadPipe(s, a, env);
    if !FastPath(s, a) {
      var s1 := s.(precision := EffectivePrecision(s.cuda, a.precision));
      if KeepsBase(s1, a, UnloadModel(s, a, env)) {
        AttachTaskFrame(s1, a, s1.className);
      } else {
        var t := ReloadBase(Teardown(s1), a, env);
        ReloadBaseFrame(Teardown(s1), a, env);
        AttachTaskFrame(t.state, a, t.state.className);
      }
    }
    assert FastPath(r.state, a);
  }

  /** Loading a different base (or reloading) drops every cache that
      belongs to the old weights: task pipelines, LoRA slots, the flash LoRA,
      the textual-inversion record and FreeU; on success the new pipeline is
      of one of the two families and only the requested task is remembered. */
  lemma LoadPipeResetsOnBaseChange(s: Session, a: LoadRequest, env: LoadEnv)
    requires !FastPath(s, a)
    requires !KeepsBase(s.(precision := EffectivePrecision(s.cuda, a.precision)), a, UnloadModel(s, a, env))
    ensures var r := LoadPipe(s, a, env);
      && r.state.loraMemory == NO_LORAS && r.state.loraScaleMemory == UNIT_SCALES
      && r.state.flashConfig.None? && r.state.embedLoaded == [] && !r.state.freeU
      && r.state.modelMemory.Keys <= {a.taskName}
      && r.state.precision == EffectivePrecision(s.cuda, a.precision)
      && (r.outcome.Pass? ==> (r.state.className == SD_CLASS || r.state.className == SDXL_CLASS))
  {
    var s1 := s.(precision := EffectivePrecision(s.cuda, a.precision));
    var t := ReloadBase(Teardown(s1), a, env);
    ReloadBaseFrame(Teardown(s1), a, env);
    assert LoadPipe(s, a, env) == if t.outcome.Fail? then t else AttachTask(t.state, a, t.state.className);
    if t.outcome.Pass? {
      AttachTaskFrame(t.state, a, t.state.className);
    }
  }

  /** A local `.safetensors` checkpoint of any type but SD 1.5 or SDXL is
      refused after the old model was already torn down. */
  lemma LoadPipeUnsupportedCheckpoint(s: Session, a: LoadRequest, env: LoadEnv, kind: string)
    requires !FastPath(s, a) && env.baseIsFile
    requires !KeepsBase(s.(precision := EffectivePrecision(s.cuda, a.precision)), a, UnloadModel(s, a, env))
    requires EndsWith(a.baseModelId, ".safetensors") && env.checkpointType == OtherCheckpoint(kind)
    ensures LoadPipe(s, a, env) == Step(Teardown(s.(precision := EffectivePrecision(s.cuda, a.precision))), Fail(UnsupportedModelType(kind)))
    ensures LoadPipe(s, a, env).state.pipe.None? && LoadPipe(s, a, env).state.baseModelId == s.baseModelId
  {
  }

  /** Switching to a remembered task reuses that pipeline object and
      performs no external operation. */
  lemma LoadPipeReusesMemory(s: Session, a: LoadRequest, env: LoadEnv)
    requires !FastPath(s, a)
    requires KeepsBase(s.(precision := EffectivePrecision(s.cuda, a.precision)), a, UnloadModel(s, a, env))
    requires a.taskName in s.modelMemory
    ensures var r := LoadPipe(s, a, env);
      && r.outcome == Pass && r.state.log == s.log
      && r.state.pipe == Some(s.modelMemory[a.taskName])
      && r.state.taskName == a.taskName && r.state.modelMemory == s.modelMemory
  {
  }

  /** Switching task on the same base reads no base weights: the new task
      pipeline borrows the weights already loaded, and it is remembered
      exactly when asked to and not yet present (an entry is never replaced). */
  lemma LoadPipeSharesBase(s: Session, a: LoadRequest, env: LoadEnv)
    requires !FastPath(s, a)
    requires KeepsBase(s.(precision := EffectivePrecision(s.cuda, a.precision)), a, UnloadModel(s, a, env))
    requires a.taskName !in s.modelMemory && a.taskName in CONTROLNET_MODEL_IDS
    ensures var r := LoadPipe(s, a, env);
      && r.outcome == Pass
      && r.state.pipe.Some? && r.state.pipe.value.parts == s.pipe.value.parts
      && (forall k | |s.log| <= k < |r.state.log| :: !LoadsBase(r.state.log[k]))
      && r.state.modelMemory == (if a.retainInMemory then s.modelMemory[a.taskName := r.state.pipe.value] else s.modelMemory)
  {
    var s1 := s.(precision := EffectivePrecision(s.cuda, a.precision));
    BuildVariantFrame(s1, a.taskName, s1.className, ChooseModelId(CONTROLNET_MODEL_IDS[a.taskName], s1.className));
  }

  lemma AttachTaskPreservesInvariants(s: Session, a: LoadRequest)
    requires Valid(s) && Coherent(s)
    ensures var r := AttachTask(s, a, s.className);
      && Valid(r.state) && Coherent(r.state)
      && (r.outcome.Pass? && a.retainInMemory ==>
            a.taskName in r.state.modelMemory && r.state.pipe == Some(r.state.modelMemory[a.taskName]))
  {
    AttachTaskFrame(s, a, s.className);
    if a.taskName !in s.modelMemory && a.taskName in CONTROLNET_MODEL_IDS && s.pipe.Some? {
      BuildVariantFrame(s, a.taskName, s.className, ChooseModelId(CONTROLNET_MODEL_IDS[a.taskName], s.className));
    }
  }

  lemma ReloadPreservesInvariants(s: Session, a: LoadRequest, env: LoadEnv)
    requires |s.loraMemory| == 5 && |s.loraScaleMemory| == 5
    ensures Valid(ReloadBase(Teardown(s), a, env).state) && Coherent(ReloadBase(Teardown(s), a, env).state)
    ensures ReloadBase(Teardown(s), a, env).state.modelMemory == map[]
  {
    ReloadBaseFrame(Teardown(s), a, env);
  }

  /** The invariants survive every load, successful or not, and a load past
      the early return that retains its pipeline leaves it remembered under
      its task. */
  lemma LoadPipePreservesInvariants(s: Session, a: LoadRequest, env: LoadEnv)
    requires Valid(s) && Coherent(s)
    ensures var r := LoadPipe(s, a, env);
      && Valid(r.state) && Coherent(r.state) && Extends(s, r.state)
      && (r.outcome.Pass? && a.retainInMemory && !FastPath(s, a) ==>
            a.taskName in r.state.modelMemory && r.state.pipe == Some(r.state.modelMemory[a.taskName]))
  {
    if !FastPath(s, a) {
      var s1 := s.(precision := EffectivePrecision(s.cuda, a.precision));
      if KeepsBase(s1, a, UnloadModel(s, a, env)) {
        AttachTaskFrame(s1, a, s1.className);
        AttachTaskPreservesInvariants(s1, a);
      } else {
        var t := ReloadBase(Teardown(s1), a, env);
        ReloadBaseFrame(Teardown(s1), a, env);
        ReloadPreservesInvariants(s1, a, env);
        if t.outcome.Pass? {
          AttachTaskFrame(t.state, a, t.state.className);
          AttachTaskPreservesInvariants(t.state, a);
        }
      }
    }
  }

  /** The detail-fix and hires pipelines are kept across a base change: a
      retained one still borrows the weights of the model it was built from. */
  lemma LoadPipeKeepsAuxPipes(s: Session, a: LoadRequest, env: LoadEnv)
    ensures LoadPipe(s, a, env).state.detailfixPipe == s.detailfixPipe
    ensures LoadPipe(s, a, env).state.hiresPipe == s.hiresPipe
  {
    if !FastPath(s, a) {
      var s1 := s.(precision := EffectivePrecision(s.cuda, a.precision));
      if KeepsBase(s1, a, UnloadModel(s, a, env)) {
        AttachTaskFrame(s1, a, s1.className);
      } else {
        ReloadBaseFrame(Teardown(s1), a, env);
        AttachTaskFrame(ReloadBase(Teardown(s1), a, env).state, a, ReloadBase(Teardown(s1), a, env).state.className);
      }
    }
  }

  /* ---------------------------------------------------------------- */
  /* LoRA slots                                                        */
  /* ---------------------------------------------------------------- */

  /** `process_lora`: merge (or, when unloading, merge with the negated
      scale) a LoRA into the pipeline; an incompatible file is logged and
      skipped. An empty slot does nothing. */
  function LoraOps(lora: Option<string>, scale: real, unload: bool, incompatible: set<string>): seq<Op> {
    match lora
    case None => []
    case Some(n) => [MergeLora(n, if unload then -scale else scale, n !in incompatible)]
  }

  /** The calls of `process_lora` over the slots, in slot order. */
  function MergeAll(loras: seq<Option<string>>, scales: seq<real>, unload: bool, incompatible: set<string>): seq<Op>
    requires |loras| == |scales|
    decreases |loras|
  {
    if loras == [] then []
    else LoraOps(loras[0], scales[0], unload, incompatible) + MergeAll(loras[1..], scales[1..], unload, incompatible)
  }

  /** The five-slot reconciliation: when the requested slots differ from the
      remembered ones, unload every remembered LoRA and load every requested
      one; the request is recorded either way, and only the log grows. */
  function ReconcileLoras(s: Session, loras: seq<Option<string>>, scales: seq<real>, incompatible: set<string>): (r: Session)
    requires |loras| == |scales| && |s.loraMemory| == |s.loraScaleMemory|
    ensures r.loraMemory == loras && r.loraScaleMemory == scales
    ensures s.log <= r.log
  {
    var ops := if s.loraMemory == loras && s.loraScaleMemory == scales then []
               else MergeAll(s.loraMemory, s.loraScaleMemory, true, incompatible) + MergeAll(loras, scales, false, incompatible);
    Emit(s, ops).(loraMemory := loras, loraScaleMemory := scales)
  }

  function Present(loras: seq<Option<string>>): seq<string> {
    if loras == [] then [] else (if loras[0].Some? then [loras[0].value] else []) + Present(loras[1..])
  }

  function LoraNames(ops: seq<Op>): seq<string> {
    if ops == [] then [] else (if ops[0].MergeLora? then [ops[0].lora] else []) + LoraNames(ops[1..])
  }

  function Negated(scales: seq<real>): seq<real> {
    seq(|scales|, k requires 0 <= k < |scales| => -scales[k])
  }

  lemma LoraNamesAppend(a: seq<Op>, b: seq<Op>)
    ensures LoraNames(a + b) == LoraNames(a) + LoraNames(b)
  {
    if a == [] {
      assert a + b == b;
    } else {
      assert (a + b)[0] == a[0];
      assert (a + b)[1..] == a[1..] + b;
      LoraNamesAppend(a[1..], b);
    }
  }

  /** The merges name exactly the occupied slots, in slot order. */
  lemma {:induction false} MergeAllNames(loras: seq<Option<string>>, scales: seq<real>, unload: bool, incompatible: set<string>)
    requires |loras| == |scales|
    ensures LoraNames(MergeAll(loras, scales, unload, incompatible)) == Present(loras)
    ensures |MergeAll(loras, scales, unload, incompatible)| == |Present(loras)|
    decreases |loras|
  {
    if loras != [] {
      var head := LoraOps(loras[0], scales[0], unload, incompatible);
      var tail := MergeAll(loras[1..], scales[1..], unload, incompatible);
      MergeAllNames(loras[1..], scales[1..], unload, incompatible);
      LoraNamesAppend(head, tail);
    }
  }

  /** Unloading is loading with every scale negated. */
  lemma {:induction false} MergeAllUnloadNegates(loras: seq<Option<string>>, scales: seq<real>, incompatible: set<string>)
    requires |loras| == |scales|
    ensures MergeAll(loras, scales, true, incompatible) == MergeAll(loras, Negated(scales), false, incompatible)
    decreases |loras|
  {
    if loras != [] {
      assert Negated(scales)[1..] == Negated(scales[1..]);
      MergeAllUnloadNegates(loras[1..], scales[1..], incompatible);
    }
  }

  /** The reconciliation records the request whatever happened to the merges
      (an incompatible LoRA is remembered as loaded), and requesting the
      remembered slots again performs no operation. */
  lemma ReconcileLorasRecords(s: Session, loras: seq<Option<string>>, scales: seq<real>, incompatible: set<string>)
    requires |loras| == |scales| && |s.loraMemory| == |s.loraScaleMemory|
    ensures var r := ReconcileLoras(s, loras, scales, incompatible);
      && r.loraMemory == loras && r.loraScaleMemory == scales
      && r == s.(loraMemory := loras, loraScaleMemory := scales, log := r.log)
      && ReconcileLoras(r, loras, scales, incompatible) == r
  {
  }

  /** On a change every remembered LoRA is unloaded before any requested one
      is loaded, the unloads name the remembered slots and the loads the
      requested ones, each in slot order. */
  lemma ReconcileLorasOrder(s: Session, loras: seq<Option<string>>, scales: seq<real>, incompatible: set<string>)
    requires |loras| == |scales| && |s.loraMemory| == |s.loraScaleMemory|
    requires s.loraMemory != loras || s.loraScaleMemory != scales
    ensures var r := ReconcileLoras(s, loras, scales, incompatible);
      var n := |Present(s.loraMemory)|;
      && |r.log| == |s.log| + n + |Present(loras)|
      && r.log[..|s.log|] == s.log
      && r.log[|s.log|..][..n] == MergeAll(s.loraMemory, Negated(s.loraScaleMemory), false, incompatible)
      && LoraNames(r.log[|s.log|..][..n]) == Present(s.loraMemory)
      && LoraNames(r.log[|s.log| + n..]) == Present(loras)
  {
    var un := MergeAll(s.loraMemory, s.loraScaleMemory, true, incompatible);
    var ld := MergeAll(loras, scales, false, incompatible);
    MergeAllNames(s.loraMemory, s.loraScaleMemory, true, incompatible);
    MergeAllNames(loras, scales, false, incompatible);
    MergeAllUnloadNegates(s.loraMemory, s.loraScaleMemory, incompatible);
    var r := ReconcileLoras(s, loras, scales, incompatible);
    assert r.log == s.log + un + ld;
    assert r.log[|s.log|..] == un + ld;
    assert r.log[|s.log|..][..|un|] == un;
    assert r.log[|s.log| + |un|..] == ld;
  }

  /* ---------------------------------------------------------------- */
  /* Flash LoRA, FreeU, textual inversion                              */
  /* ---------------------------------------------------------------- */

  /** FLASH_LORA[className][sampler], when both keys exist. */
  function FlashAdapter(className: string, sampler: string): Option<string> {
    if className in FLASH_LORA && sampler in FLASH_LORA[className] then Some(FLASH_LORA[className][sampler])
    else None
  }

  /** The flash-LoRA state machine: load the sampler's adapter when a flash
      sampler is first chosen, unload it when a non-flash sampler is chosen,
      and swap adapters when the flash sampler changes. Only the flash
      record and the log can change. */
  function FlashStep(s: Session, sampler: string, incompatible: set<string>): (r: Result<Session, Error>)
    ensures r.Ok? ==> r.value == s.(flashConfig := r.value.flashConfig, log := r.value.log) && s.log <= r.value.log
  {
    if sampler in FLASH_SAMPLERS && s.flashConfig.None? then
      match FlashAdapter(s.className, sampler)
      case None => Err(UnknownFlashFamily(s.className))
      case Some(id) => Ok(Emit(s, LoraOps(Some(id), 1.0, false, incompatible)).(flashConfig := Some(id)))
    else if sampler !in FLASH_SAMPLERS && s.flashConfig.Some? then
      Ok(Emit(s, LoraOps(s.flashConfig, 1.0, true, incompatible)).(flashConfig := None))
    else if s.flashConfig.Some? then
      match FlashAdapter(s.className, sampler)
      case None => Err(UnknownFlashFamily(s.className))
      case Some(id) =>
        if id == s.flashConfig.value then Ok(s)
        else Ok(Emit(s, LoraOps(s.flashConfig, 1.0, true, incompatible) + LoraOps(Some(id), 1.0, false, incompatible))
                  .(flashConfig := Some(id)))
    else Ok(s)
  }

  /** The adapter that should be merged for a sampler. */
  function FlashTarget(className: string, sampler: string): Option<string> {
    if sampler in FLASH_SAMPLERS then FlashAdapter(className, sampler) else None
  }

  /** After the step the recorded flash LoRA is exactly the one the sampler
      calls for, and the operations are the difference between the old and
      the new adapter: unload the old one if it changed, load the new one if
      it changed. The step fails only for a flash sampler of an unknown family. */
  lemma FlashStepTracksSampler(s: Session, sampler: string, incompatible: set<string>)
    ensures var r := FlashStep(s, sampler, incompatible);
      var target := FlashTarget(s.className, sampler);
      && (r.Err? <==> sampler in FLASH_SAMPLERS && target.None?)
      && (r.Ok? ==>
            && r.value.flashConfig == target
            && r.value == s.(flashConfig := target, log := r.value.log)
            && r.value.log == s.log
                 + (if s.flashConfig != target then LoraOps(s.flashConfig, 1.0, true, incompatible) else [])
                 + (if s.flashConfig != target then LoraOps(target, 1.0, false, incompatible) else []))
  {
  }

  /** The same sampler a second time is a no-op. */
  lemma FlashStepIdempotent(s: Session, sampler: string, incompatible: set<string>)
    requires FlashStep(s, sampler, incompatible).Ok?
    ensures FlashStep(FlashStep(s, sampler, incompatible).value, sampler, incompatible) == FlashStep(s, sampler, incompatible)
  {
    FlashStepTracksSampler(s, sampler, incompatible);
    FlashStepTracksSampler(FlashStep(s, sampler, incompatible).value, sampler, incompatible);
  }

  /** For the two known families every sampler is accepted. */
  lemma FlashStepKnownFamilies(s: Session, sampler: string, incompatible: set<string>)
    requires s.className == SD_CLASS || s.className == SDXL_CLASS
    ensures FlashStep(s, sampler, incompatible).Ok?
  {
    FlashStepTracksSampler(s, sampler, incompatible);
  }

  /** FreeU: enable with the family's coefficients on request; disable only
      when it was on. */
  function FreeUStep(s: Session, enable: bool): Session {
    if enable then Emit(s, [EnableFreeU(s.className == SD_CLASS)]).(freeU := true)
    else if s.freeU then Emit(s, [DisableFreeU]).(freeU := false)
    else s
  }

  lemma FreeUStepTracksFlag(s: Session, enable: bool)
    ensures FreeUStep(s, enable).freeU == enable
    ensures !enable ==> FreeUStep(FreeUStep(s, enable), enable) == FreeUStep(s, enable)
    ensures !enable && !s.freeU ==> FreeUStep(s, enable) == s
    ensures FreeUStep(s, enable) == s.(freeU := enable, log := FreeUStep(s, enable).log)
    ensures |FreeUStep(s, enable).log| == |s.log| + (if enable || s.freeU then 1 else 0)
  {
  }

  /** What the file system and the text encoders answer for the embedding
      files of a call. A `LoadEmbedding` op stands for a registration that
      took effect, so these sets say which registrations do not:
      - `unreadable`: files that cannot be turned into tensors (for SD,
        `torch.load` or the "string_to_param" lookup of a ".pt" file raises;
        for SDXL, `load_file` raises or there is no "clip_g" tensor);
      - `refused`: entries whose first registration call raises (the token
        is already known to the encoder, the tensor does not fit);
      - `firstOnly`: SDXL entries whose "clip_g" registration took and whose
        "clip_l" registration then raised (a file without "clip_l", a token
        the first encoder already has). */
  datatype EmbedFiles = EmbedFiles(unreadable: set<string>, refused: set<Embedding>, firstOnly: set<Embedding>)

  /** The entry's first registration takes effect. */
  predicate Registers(e: Embedding, files: EmbedFiles) {
    e.path !in files.unreadable && e !in files.refused
  }

  /** The registrations of one textual-inversion entry, inside one `try`:
      SD registers the file with its text encoder; SDXL registers the
      "clip_g" tensor with the second encoder and then "clip_l" with the
      first. A failure anywhere ends the entry, so an entry whose first
      registration does not take registers nothing. */
  function EntryOps(className: string, e: Embedding, files: EmbedFiles): seq<Op> {
    if !Registers(e, files) then []
    else if className == SD_CLASS then [LoadEmbedding(e.token, e.path, TextEncoder)]
    else if e in files.firstOnly then [LoadEmbedding(e.token, e.path, TextEncoder2)]
    else [LoadEmbedding(e.token, e.path, TextEncoder2), LoadEmbedding(e.token, e.path, TextEncoder)]
  }

  /** The entries whose first registration takes effect, in list order. */
  function RegisteredEntries(entries: seq<Embedding>, files: EmbedFiles): (r: seq<Embedding>)
    ensures forall e :: e in r <==> e in entries && Registers(e, files)
    ensures |r| <= |entries|
    decreases |entries|
  {
    if entries == [] then []
    else
      var init := RegisteredEntries(entries[..|entries| - 1], files);
      var e := entries[|entries| - 1];
      assert entries == entries[..|entries| - 1] + [e];
      if Registers(e, files) then init + [e] else init
  }

  /** With every file readable and every registration accepted, every
      entry is registered. */
  lemma {:induction false} AllRegistered(entries: seq<Embedding>, files: EmbedFiles)
    requires forall k | 0 <= k < |entries| :: Registers(entries[k], files)
    ensures RegisteredEntries(entries, files) == entries
    decreases |entries|
  {
    if entries != [] {
      AllRegistered(entries[..|entries| - 1], files);
      assert entries == entries[..|entries| - 1] + [entries[|entries| - 1]];
    }
  }

  function EmbedOps(className: string, entries: seq<Embedding>, files: EmbedFiles): seq<Op>
    decreases |entries|
  {
    if entries == [] then []
    else EmbedOps(className, entries[..|entries| - 1], files) + EntryOps(className, entries[|entries| - 1], files)
  }

  /** The textual-inversion cache of `create_prompt_embeds`: a non-empty
      list that differs from the recorded one is registered and then replaces
      the record wholesale (it is not merged with what was registered before).
      Only the record and the log can change, and an empty list changes
      nothing. */
  function EmbedStep(s: Session, entries: seq<Embedding>, files: EmbedFiles): (r: Session)
    ensures r == s.(embedLoaded := r.embedLoaded, log := r.log) && s.log <= r.log
    ensures entries == [] ==> r == s
  {
    if s.embedLoaded != entries && entries != [] then
      Emit(s, EmbedOps(s.className, entries, files)).(embedLoaded := entries)
    else s
  }

  lemma EmbedStepRecords(s: Session, entries: seq<Embedding>, files: EmbedFiles)
    ensures EmbedStep(s, entries, files).embedLoaded == (if entries == [] then s.embedLoaded else entries)
    ensures EmbedStep(EmbedStep(s, entries, files), entries, files) == EmbedStep(s, entries, files)
    ensures EmbedStep(s, entries, files) == s.(embedLoaded := EmbedStep(s, entries, files).embedLoaded,
                                                   log := EmbedStep(s, entries, files).log)
  {
  }

  /** For SD each entry whose registration takes effect is registered once,
      in list order, and the others register nothing. */
  lemma {:induction false} EmbedOpsSd(entries: seq<Embedding>, files: EmbedFiles)
    ensures var r := RegisteredEntries(entries, files);
      && |EmbedOps(SD_CLASS, entries, files)| == |r|
      && forall k | 0 <= k < |r| ::
           EmbedOps(SD_CLASS, entries, files)[k] == LoadEmbedding(r[k].token, r[k].path, TextEncoder)
    decreases |entries|
  {
    if entries != [] {
      EmbedOpsSd(entries[..|entries| - 1], files);
    }
  }

  /** For SDXL a readable entry whose first registration succeeds is
      registered with both encoders, the second encoder first. */
  lemma {:induction false} EmbedOpsSdxl(entries: seq<Embedding>, files: EmbedFiles)
    requires forall k | 0 <= k < |entries| :: Registers(entries[k], files) && entries[k] !in files.firstOnly
    ensures |EmbedOps(SDXL_CLASS, entries, files)| == 2 * |entries|
    ensures forall k | 0 <= k < |entries| ::
              && EmbedOps(SDXL_CLASS, entries, files)[2 * k] == LoadEmbedding(entries[k].token, entries[k].path, TextEncoder2)
              && EmbedOps(SDXL_CLASS, entries, files)[2 * k + 1] == LoadEmbedding(entries[k].token, entries[k].path, TextEncoder)
    decreases |entries|
  {
    if entries != [] {
      EmbedOpsSdxl(entries[..|entries| - 1], files);
    }
  }

  /** The SDXL registrations of one entry whose first registration takes
      effect: "clip_g" first, then "clip_l" unless that one is refused. */
  function SdxlRegistrations(e: Embedding, files: EmbedFiles): seq<Op> {
    [LoadEmbedding(e.token, e.path, TextEncoder2)]
      + (if e in files.firstOnly then [] else [LoadEmbedding(e.token, e.path, TextEncoder)])
  }

  /** The SDXL registrations of a list of entries, one after the other. */
  function SdxlRegistrationsOf(r: seq<Embedding>, files: EmbedFiles): seq<Op>
    decreases |r|
  {
    if r == [] then [] else SdxlRegistrationsOf(r[..|r| - 1], files) + SdxlRegistrations(r[|r| - 1], files)
  }

  /** For SDXL, whatever the files and encoders answer, a failing entry is
      skipped and the loop goes on: the ops are the registrations of the
      entries that register, in list order. */
  lemma {:induction false} EmbedOpsSdxlRegistered(className: string, entries: seq<Embedding>, files: EmbedFiles)
    requires className != SD_CLASS
    ensures EmbedOps(className, entries, files) == SdxlRegistrationsOf(RegisteredEntries(entries, files), files)
    decreases |entries|
  {
    if entries != [] {
      var init := entries[..|entries| - 1];
      var e := entries[|entries| - 1];
      EmbedOpsSdxlRegistered(className, init, files);
      var ri := RegisteredEntries(init, files);
      if Registers(e, files) {
        assert (ri + [e])[..|ri + [e]| - 1] == ri;
        assert EntryOps(className, e, files) == SdxlRegistrations(e, files);
      }
    }
  }

  /** Op `i` of `ops` registers an embedding of `entries` whose first
      registration takes effect, and a "clip_l" registration comes right
      after the "clip_g" registration of the same entry, for an entry whose
      "clip_l" registration is accepted. */
  ghost predicate RegisteredInOrder(ops: seq<Op>, i: nat, entries: seq<Embedding>, files: EmbedFiles)
    requires i < |ops|
  {
    && ops[i].LoadEmbedding?
    && Embedding(ops[i].token, ops[i].path) in entries
    && Registers(Embedding(ops[i].token, ops[i].path), files)
    && (ops[i].encoder == TextEncoder ==>
          && 0 < i && ops[i - 1] == LoadEmbedding(ops[i].token, ops[i].path, TextEncoder2)
          && Embedding(ops[i].token, ops[i].path) !in files.firstOnly)
  }

  /** For SDXL, whatever the files and encoders answer, every "clip_l"
      registration directly follows the "clip_g" registration of the same
      entry, and only entries whose first registration takes effect are
      registered at all. */
  lemma {:induction false} EmbedOpsSdxlSecondNeedsFirst(className: string, entries: seq<Embedding>, files: EmbedFiles)
    requires className != SD_CLASS
    ensures forall i | 0 <= i < |EmbedOps(className, entries, files)| ::
              RegisteredInOrder(EmbedOps(className, entries, files), i, entries, files)
    decreases |entries|
  {
    if entries != [] {
      var init := entries[..|entries| - 1];
      var e := entries[|entries| - 1];
      EmbedOpsSdxlSecondNeedsFirst(className, init, files);
      var p := EmbedOps(className, init, files);
      var q := EntryOps(className, e, files);
      var ops := EmbedOps(className, entries, files);
      assert ops == p + q;
      forall i | 0 <= i < |ops| ensures RegisteredInOrder(ops, i, entries, files) {
        if i < |p| {
          assert RegisteredInOrder(p, i, init, files);
          assert ops[i] == p[i];
          assert Embedding(p[i].token, p[i].path) in init;
          if ops[i].encoder == TextEncoder {
            assert ops[i - 1] == p[i - 1];
          }
        } else {
          assert ops[i] == q[i - |p|];
          assert Embedding(ops[i].token, ops[i].path) == e;
        }
      }
    }
  }

  /* ---------------------------------------------------------------- */
  /* get_image_preprocess                                              */
  /* ---------------------------------------------------------------- */

  /** The control image handed to the pipeline. */
  datatype ControlImage = Resized | Detected(detector: string, option: DetectOption) | InpaintControl

  /** `load_controlnet_weight`: the new ControlNet is set on the active
      pipeline object. A remembered pipeline with the same serial is that
      same object, so it carries the new ControlNet too; the weights it
      borrows are unchanged. */
  function WithControlNet(s: Session, id: string): Session
    requires s.pipe.Some?
  {
    var p := s.pipe.value;
    s.(pipe := Some(p.(flavour := ControlNet(id))),
       modelMemory := map k | k in s.modelMemory ::
         if s.modelMemory[k].serial == p.serial then s.modelMemory[k].(flavour := ControlNet(id)) else s.modelMemory[k])
  }

  /** The swap keeps the session invariants, keeps the active pipeline's
      identity and weights, and the active task's remembered pipeline is
      still the active one, now with the new ControlNet. */
  lemma WithControlNetKeepsInvariants(s: Session, id: string)
    requires s.pipe.Some?
    ensures var t := WithControlNet(s, id);
      && t.pipe.Some? && t.pipe.value.flavour == ControlNet(id)
      && t.pipe.value.serial == s.pipe.value.serial && t.pipe.value.parts == s.pipe.value.parts
      && t.modelMemory.Keys == s.modelMemory.Keys
      && (forall k | k in s.modelMemory && s.modelMemory[k].serial != s.pipe.value.serial :: t.modelMemory[k] == s.modelMemory[k])
      && (Valid(s) ==> Valid(t))
      && (Coherent(s) ==> Coherent(t) && (s.taskName in t.modelMemory ==> t.modelMemory[s.taskName].flavour == ControlNet(id)))
  {
  }

  /** The ControlNet id `get_image_preprocess` reloads for an SD lineart
      task, if any. */
  function LineartSwapId(s: Session, requested: string): Option<string> {
    match LineartWeightTask(s.className, s.taskName, requested)
    case None => None
    case Some(t) => Some(ChooseModelId(CONTROLNET_MODEL_IDS[t], s.className))
  }

  /** `get_image_preprocess`: refuse a missing image, swap in the right SD
      lineart ControlNet (`load_controlnet_weight`, which fails on the
      attribute assignment when no pipeline is loaded), then pass the image
      through or run the detector the dispatch names, loading it into the
      one-slot detector cache. The empty name matches the fresh cache, so
      `load` returns early and calling the preprocessor calls its `None`
      model. */
  function ImagePreprocess(s: Session, hasImage: bool, requested: string, t2iPreprocessor: bool): (r: (Session, Result<ControlImage, Error>))
    ensures r.0 == s.(detector := r.0.detector, pipe := r.0.pipe, modelMemory := r.0.modelMemory, log := r.0.log)
    ensures s.log <= r.0.log
  {
    if !hasImage then (s, Err(NoReferenceImage))
    else
      var swap := LineartSwapId(s, requested);
      if swap.Some? && s.pipe.None? then (Emit(s, [Release, LoadControlNet(swap.value), Release]), Err(NoPipeline))
      else
        var s1 := if swap.None? then s
                  else Emit(WithControlNet(s, swap.value), [Release, LoadControlNet(swap.value), Release, SwapControlNet(swap.value)]);
        match ControlPlanFor(s.taskName, requested, t2iPreprocessor)
        case Err(e) => (s1, Err(ControlPlanError(e)))
        case Ok(PassThrough) => (s1, Ok(Resized))
        case Ok(Detect(n, opt)) =>
          var loaded := LoadDetector(s1.detector, n);
          (s1.(detector := loaded.0),
           if loaded.1.Fail? then Err(UnknownDetector(n))
           else if loaded.0.model.None? then Err(NoDetectorModel)
           else Ok(Detected(n, opt)))
  }

  /** The preprocess step changes the pipeline and the remembered
      pipelines only by the SD lineart ControlNet swap, and changes them
      exactly as `load_controlnet_weight` does; it keeps the session
      invariants. A detected control image comes from the detector now
      loaded in the slot, which holds a model, and an unknown detector name
      leaves the slot unchanged. */
  lemma ImagePreprocessEffects(s: Session, hasImage: bool, requested: string, t2iPreprocessor: bool)
    ensures var r := ImagePreprocess(s, hasImage, requested, t2iPreprocessor);
      && r.0 == s.(detector := r.0.detector, pipe := r.0.pipe, modelMemory := r.0.modelMemory, log := r.0.log)
      && s.log <= r.0.log
      && (!hasImage ==> r == (s, Err(NoReferenceImage)))
      && (!hasImage || LineartSwapId(s, requested).None? ==> r.0.pipe == s.pipe && r.0.modelMemory == s.modelMemory)
      && (hasImage && LineartSwapId(s, requested).Some? && s.pipe.None? ==>
            r == (Emit(s, [Release, LoadControlNet(LineartSwapId(s, requested).value), Release]), Err(NoPipeline)))
      && (hasImage && LineartSwapId(s, requested).Some? && s.pipe.Some? ==>
            var t := WithControlNet(s, LineartSwapId(s, requested).value);
            r.0.pipe == t.pipe && r.0.modelMemory == t.modelMemory)
      && (Valid(s) && Coherent(s) ==> Valid(r.0) && Coherent(r.0))
      && (r.1.Ok? && r.1.value.Detected? ==>
            r.0.detector.name == r.1.value.detector && r.0.detector.model.Some?
            && (r.1.value.detector != s.detector.name ==> DetectorNamed(r.1.value.detector).Some?))
      && (r.1.Err? && r.1.error.UnknownDetector? ==> r.0.detector == s.detector)
  {
    var swap := LineartSwapId(s, requested);
    if hasImage && !(swap.Some? && s.pipe.None?) {
      if swap.Some? {
        WithControlNetKeepsInvariants(s, swap.value);
      }
      var s1 := if swap.None? then s
                else Emit(WithControlNet(s, swap.value), [Release, LoadControlNet(swap.value), Release, SwapControlNet(swap.value)]);
      assert Valid(s) && Coherent(s) ==> Valid(s1) && Coherent(s1);
      match ControlPlanFor(s.taskName, requested, t2iPreprocessor)
      case Err(e) =>
      case Ok(PassThrough) =>
      case Ok(Detect(n, opt)) => LoadDetectorCases(s1.detector, n);
    }
  }

  /** An SD lineart task swaps in the anime ControlNet exactly when the
      requested preprocessor name mentions "anime", and the plain lineart
      one otherwise; the active pipeline and the task's remembered pipeline
      then both carry it. */
  lemma {:induction false} LineartSwapSetsControlNet(s: Session, requested: string, t2iPreprocessor: bool)
    requires Valid(s) && Coherent(s) && s.pipe.Some?
    requires s.className == SD_CLASS && s.taskName in ["lineart", "lineart_anime"]
    ensures var r := ImagePreprocess(s, true, requested, t2iPreprocessor);
      var id := if Contains(requested, "anime") then "lllyasviel/control_v11p_sd15s2_lineart_anime"
                else "lllyasviel/control_v11p_sd15_lineart";
      && r.0.pipe == Some(s.pipe.value.(flavour := ControlNet(id)))
      && (s.taskName in r.0.modelMemory ==> r.0.modelMemory[s.taskName] == r.0.pipe.value)
      && r.0.log[|s.log|..|s.log| + 4] == [Release, LoadControlNet(id), Release, SwapControlNet(id)]
  {
    var id := if Contains(requested, "anime") then "lllyasviel/control_v11p_sd15s2_lineart_anime"
              else "lllyasviel/control_v11p_sd15_lineart";
    assert LineartSwapId(s, requested) == Some(id);
    ImagePreprocessEffects(s, true, requested, t2iPreprocessor);
    WithControlNetKeepsInvariants(s, id);
  }

  /** Depth, segmentation and shuffle pass the requested name to the
      detector cache as given; the empty name matches a cache that has never
      loaded anything, so nothing is loaded and the call fails on the missing
      model, with the session as it was. */
  lemma EmptyNameOnFreshSlotFails(s: Session, t2iPreprocessor: bool)
    requires s.taskName in ["depth", "segmentation", "shuffle"]
    requires s.detector.name == "" && s.detector.model.None?
    ensures ImagePreprocess(s, true, "", t2iPreprocessor) == (s, Err(NoDetectorModel))
  {
    RequestedNameUsed(s.taskName, "", t2iPreprocessor);
  }
}
