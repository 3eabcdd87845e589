/** `Model_Diffusers` as an object: the session's fields are updated in
    place by methods that follow the source step by step, and each method
    is proved to leave the object in the state the corresponding function
    of the session model describes. */
module Engine {
  import opened Basics
  import opened Tables
  import opened Detectors
  import opened Session
  import opened Request
  import opened Call
  import S = Session
  import C = Call

  class ModelDiffusers {
    const cuda: bool
    var baseModelId: string
    var taskName: string
    var vaeModel: Option<string>
    var precision: Precision
    var className: string
    var pipe: Option<Pipe>
    var defaultScheduler: Option<nat>
    var modelMemory: map<string, Pipe>
    var loraMemory: seq<Option<string>>
    var loraScaleMemory: seq<real>
    var flashConfig: Option<string>
    var embedLoaded: seq<Embedding>
    var freeU: bool
    var detailfixPipe: Option<AuxPipe>
    var hiresPipe: Option<AuxPipe>
    const preprocessor: Preprocessor
    var nextSerial: nat
    var log: seq<Op>

    /** The object's state as a value of the session model. */
    function Snapshot(): Session
      reads this, preprocessor
    {
      Session(cuda, baseModelId, taskName, vaeModel, precision, className, pipe, defaultScheduler, modelMemory,
              loraMemory, loraScaleMemory, flashConfig, embedLoaded, freeU, detailfixPipe, hiresPipe,
              preprocessor.Slot(), nextSerial, log)
    }

    ghost predicate Invariant()
      reads this, preprocessor
    {
      S.Valid(Snapshot()) && S.Coherent(Snapshot())
    }

    /** `__init__`: the fields start empty, then the first `load_pipe` runs
        with the default `reload=False` and `retain_model_in_memory=True`;
        the preprocessor is created with an empty slot. */
    constructor (cuda: bool, baseModelId: string, taskName: string, vaeModel: Option<string>,
                 precision: Precision, env: LoadEnv)
      ensures Snapshot()
              == S.LoadPipe(Initial(cuda, precision),
                            LoadRequest(baseModelId, taskName, vaeModel, precision, false, true), env).state
      ensures Invariant()
      ensures fresh(preprocessor)
    {
      this.cuda := cuda;
      this.baseModelId := "";
      this.taskName := "";
      this.vaeModel := None;
      this.precision := EffectivePrecision(cuda, precision);
      className := "";
      pipe := None;
      defaultScheduler := None;
      modelMemory := map[];
      loraMemory := NO_LORAS;
      loraScaleMemory := UNIT_SCALES;
      flashConfig := None;
      embedLoaded := [];
      freeU := false;
      detailfixPipe := None;
      hiresPipe := None;
      nextSerial := 0;
      log := [];
      preprocessor := new Preprocessor();
      new;
      InitialValid(cuda, precision);
      assert Snapshot() == Initial(cuda, precision);
      var _ := LoadPipe(LoadRequest(baseModelId, taskName, vaeModel, precision, false, true), env);
    }

    /** Request external operations. */
    method Log(ops: seq<Op>)
      modifies this
      ensures Snapshot() == Emit(old(Snapshot()), ops)
    {
      log := log + ops;
    }

    /* -------------------------------------------------------------- */
    /* load_pipe                                                       */
    /* -------------------------------------------------------------- */

    method DropPipes()
      modifies this
      ensures Snapshot() == old(Snapshot()).(pipe := None, modelMemory := map[])
    {
      pipe := None;
      modelMemory := map[];
    }

    method ResetLoras()
      modifies this
      ensures Snapshot() == old(Snapshot()).(loraMemory := NO_LORAS, loraScaleMemory := UNIT_SCALES)
    {
      loraMemory := NO_LORAS;
      loraScaleMemory := UNIT_SCALES;
    }

    method ResetAdapters()
      modifies this
      ensures Snapshot() == old(Snapshot()).(flashConfig := None, embedLoaded := [], freeU := false)
    {
      flashConfig := None;
      embedLoaded := [];
      freeU := false;
    }

    method Teardown()
      modifies this
      ensures Snapshot() == S.Teardown(old(Snapshot()))
    {
      DropPipes();
      ResetLoras();
      ResetAdapters();
      Log([Release]);
    }

    method NewBase(family: string, ops: seq<Op>)
      modifies this
      ensures Snapshot() == S.NewBase(old(Snapshot()), family, ops)
    {
      Log(ops);
      pipe := Some(Pipe(nextSerial, nextSerial, Loaded(family)));
      nextSerial := nextSerial + 1;
    }

    method Derive(f: Flavour)
      requires pipe.Some?
      modifies this
      ensures Snapshot() == S.Derive(old(Snapshot()), f)
    {
      var p := Pipe(nextSerial, pipe.value.parts, f);
      Log([Assemble(p)]);
      pipe := Some(p);
      nextSerial := nextSerial + 1;
    }

    /** Read the base weights; the result is the declared class name. */
    method LoadCheckpoint(a: LoadRequest, env: LoadEnv) returns (r: Result<string, Error>)
      modifies this
      ensures var b := S.LoadCheckpoint(old(Snapshot()), a, env);
        && (b.Err? ==> r == Err(b.error) && Snapshot() == old(Snapshot()))
        && (b.Ok? ==> r == Ok(b.value.className) && Snapshot() == b.value.state)
    {
      if env.baseIsFile {
        var kind := if EndsWith(a.baseModelId, ".safetensors") then env.checkpointType else Sd15Checkpoint;
        match kind {
          case SdxlCheckpoint =>
            NewBase(SDXL_CLASS, [LoadVae(SDXL_VAE, false), LoadSingleFile(a.baseModelId, SDXL_CLASS, precision)]);
            r := Ok(SDXL_CLASS);
          case Sd15Checkpoint =>
            NewBase(SD_CLASS, [LoadSingleFile(a.baseModelId, SD_CLASS, precision)]);
            r := Ok(SD_CLASS);
          case OtherCheckpoint(n) =>
            r := Err(UnsupportedModelType(n));
        }
      } else {
        match env.manifestClass {
          case None =>
            r := Err(MissingPipelineClass);
          case Some(c) =>
            if c == SD_CLASS {
              NewBase(c, [LoadRepository(a.baseModelId, c, precision, false)]);
            } else if c == SDXL_CLASS {
              if env.fp16Variant {
                NewBase(c, [LoadVae(SDXL_VAE, false), LoadRepository(a.baseModelId, c, Float16, true)]);
              } else {
                NewBase(c, [LoadVae(SDXL_VAE, false), LoadVae(SDXL_VAE, false), LoadRepository(a.baseModelId, c, Float16, false)]);
              }
            }
            r := Ok(c);
        }
      }
    }

    method Adopt(id: string, cls: string)
      modifies this
      ensures Snapshot() == old(Snapshot()).(baseModelId := id, className := cls)
    {
      baseModelId := id;
      className := cls;
    }

    method ReloadBase(a: LoadRequest, env: LoadEnv) returns (outcome: Outcome<Error>)
      modifies this
      ensures Step(Snapshot(), outcome) == S.ReloadBase(old(Snapshot()), a, env)
    {
      var loaded := LoadCheckpoint(a, env);
      if loaded.Err? {
        return Fail(loaded.error);
      }
      Adopt(a.baseModelId, loaded.value);
      if a.vaeModel.Some? {
        Log([LoadVae(a.vaeModel.value, env.vaeIsFile)]);
      }
      if pipe.None? {
        if a.vaeModel.None? {
          vaeModel := None;
        }
        return Fail(NoPipeline);
      }
      vaeModel := a.vaeModel;
      defaultScheduler := Some(pipe.value.parts);
      outcome := Pass;
    }

    method InpaintStage(task: string, cls: string, id: string)
      requires pipe.Some?
      modifies this
      ensures Snapshot() == S.InpaintStage(old(Snapshot()), task, cls, id)
    {
      if task == "inpaint" {
        if cls == SD_CLASS {
          Log([LoadControlNet(id)]);
          Derive(ControlNetInpaint(id));
        } else if cls == SDXL_CLASS {
          Derive(XLInpaint);
        }
      }
    }

    method ControlStage(task: string, cls: string, id: string)
      requires pipe.Some?
      modifies this
      ensures Snapshot() == S.ControlStage(old(Snapshot()), task, cls, id)
    {
      if task !in ["txt2img", "inpaint", "img2img"] {
        if cls == SD_CLASS {
          Log([LoadControlNet(id)]);
          Derive(ControlNet(id));
          Log([SetScheduler(Scheduler(UniPCMultistep, pipe.value.parts, map[]))]);
        } else if cls == SDXL_CLASS {
          if task in XL_CONTROLNET_TASKS {
            Log([LoadControlNet(id)]);
            Derive(XLControlNet(id));
          } else {
            Log([LoadAdapter(id)]);
            Derive(XLAdapter(id));
          }
        }
      }
    }

    method PlainStage(task: string, cls: string)
      requires pipe.Some?
      modifies this
      ensures Snapshot() == S.PlainStage(old(Snapshot()), task, cls)
    {
      if task in ["txt2img", "img2img"] {
        if cls == SD_CLASS || cls == SDXL_CLASS {
          Derive(Rewired(cls));
        }
        if task == "img2img" {
          Derive(Img2Img(cls));
        }
      }
    }

    method BuildVariant(task: string, cls: string, id: string)
      requires pipe.Some?
      modifies this
      ensures Snapshot() == S.BuildVariant(old(Snapshot()), task, cls, id)
    {
      InpaintStageSameWeights(Snapshot(), task, cls, id);
      InpaintStage(task, cls, id);
      ControlStageSameWeights(Snapshot(), task, cls, id);
      ControlStage(task, cls, id);
      PlainStage(task, cls);
    }

    /** The identity of the now active pipeline. */
    method Record(a: LoadRequest, cls: string)
      modifies this
      ensures Snapshot() == old(Snapshot()).(baseModelId := a.baseModelId, taskName := a.taskName,
                                            vaeModel := a.vaeModel, className := cls)
    {
      baseModelId := a.baseModelId;
      taskName := a.taskName;
      vaeModel := a.vaeModel;
      className := cls;
    }

    method AttachTask(a: LoadRequest, cls: string) returns (outcome: Outcome<Error>)
      modifies this
      ensures Step(Snapshot(), outcome) == S.AttachTask(old(Snapshot()), a, cls)
    {
      if a.taskName in modelMemory {
        pipe := Some(modelMemory[a.taskName]);
        Record(a, cls);
        return Pass;
      }
      if a.taskName !in CONTROLNET_MODEL_IDS {
        return Fail(UnknownTask(a.taskName));
      }
      if pipe.None? {
        return Fail(NoPipeline);
      }
      var id := ChooseModelId(CONTROLNET_MODEL_IDS[a.taskName], cls);
      BuildVariantFrame(Snapshot(), a.taskName, cls, id);
      BuildVariant(a.taskName, cls, id);
      Log([Release]);
      Record(a, cls);
      if a.retainInMemory && a.taskName !in modelMemory {
        modelMemory := modelMemory[a.taskName := pipe.value];
      }
      outcome := Pass;
    }

    /** `load_pipe`. */
    method LoadPipe(a: LoadRequest, env: LoadEnv) returns (outcome: Outcome<Error>)
      requires Invariant()
      modifies this
      ensures Step(Snapshot(), outcome) == S.LoadPipe(old(Snapshot()), a, env)
      ensures Invariant()
    {
      LoadPipePreservesInvariants(Snapshot(), a, env);
      if a.baseModelId == baseModelId && a.taskName == taskName && vaeModel == a.vaeModel
         && pipe.Some? && !a.reload && (precision == a.precision || !cuda) {
        return Pass;
      }
      var unload := if env.baseIsFile then pipe.None? || (a.precision != precision && cuda) else pipe.None?;
      ghost var s0 := Snapshot();
      assert !FastPath(s0, a);
      assert unload == UnloadModel(s0, a, env);
      precision := EffectivePrecision(cuda, a.precision);
      assert Snapshot() == s0.(precision := EffectivePrecision(cuda, a.precision));
      outcome := LoadBaseAndTask(a, env, unload);
    }

    /** The part of `load_pipe` after the fast path and the precision update. */
    method LoadBaseAndTask(a: LoadRequest, env: LoadEnv, unload: bool) returns (outcome: Outcome<Error>)
      modifies this
      ensures var s := old(Snapshot());
        Step(Snapshot(), outcome)
        == if KeepsBase(s, a, unload) then S.AttachTask(s, a, s.className)
           else var r := S.ReloadBase(S.Teardown(s), a, env);
                if r.outcome.Fail? then r else S.AttachTask(r.state, a, r.state.className)
    {
      if baseModelId == a.baseModelId && pipe.Some? && !a.reload && vaeModel == a.vaeModel && !unload {
        outcome := AttachTask(a, className);
        return;
      }
      Teardown();
      outcome := ReloadBase(a, env);
      if outcome.Fail? {
        return;
      }
      outcome := AttachTask(a, className);
    }
    /* -------------------------------------------------------------- */
    /* LoRA, flash LoRA, FreeU, textual inversion                      */
    /* -------------------------------------------------------------- */

    /** `process_lora`: merge the LoRA with its scale, or with the negated
        scale when unloading; an empty slot does nothing. */
    method ProcessLora(lora: Option<string>, scale: real, unload: bool, incompatible: set<string>)
      modifies this
      ensures Snapshot() == Emit(old(Snapshot()), LoraOps(lora, scale, unload, incompatible))
    {
      if !unload {
        if lora.Some? {
          Log([MergeLora(lora.value, scale, lora.value !in incompatible)]);
        }
      } else {
        if lora.Some? {
          Log([MergeLora(lora.value, -scale, lora.value !in incompatible)]);
        }
      }
    }

    /** Five `process_lora` calls, slot by slot. */
    method MergeSlots(loras: seq<Option<string>>, scales: seq<real>, unload: bool, incompatible: set<string>)
      requires |loras| == 5 && |scales| == 5
      modifies this
      ensures Snapshot() == Emit(old(Snapshot()), MergeAll(loras, scales, unload, incompatible))
    {
      MergeAllFive(loras, scales, unload, incompatible);
      ProcessLora(loras[0], scales[0], unload, incompatible);
      ProcessLora(loras[1], scales[1], unload, incompatible);
      ProcessLora(loras[2], scales[2], unload, incompatible);
      ProcessLora(loras[3], scales[3], unload, incompatible);
      ProcessLora(loras[4], scales[4], unload, incompatible);
    }

    /** The LoRA block of `__call__`: unload the remembered slots and load
        the requested ones unless both lists are unchanged, then remember
        the request. */
    method ReconcileLoras(loras: seq<Option<string>>, scales: seq<real>, incompatible: set<string>)
      requires |loras| == 5 && |scales| == 5 && |loraMemory| == 5 && |loraScaleMemory| == 5
      modifies this
      ensures Snapshot() == S.ReconcileLoras(old(Snapshot()), loras, scales, incompatible)
    {
      if !(loraMemory == loras && loraScaleMemory == scales) {
        ghost var s0 := Snapshot();
        var unloaded := MergeAll(loraMemory, loraScaleMemory, true, incompatible);
        MergeSlots(loraMemory, loraScaleMemory, true, incompatible);
        MergeSlots(loras, scales, false, incompatible);
        EmitTwice(s0, unloaded, MergeAll(loras, scales, false, incompatible));
      }
      loraMemory := loras;
      loraScaleMemory := scales;
    }

    /** The flash-LoRA block of `__call__`; a missing FLASH_LORA key is
        the KeyError it raises. */
    method FlashLora(sampler: string, incompatible: set<string>) returns (r: Outcome<Error>)
      modifies this
      ensures var f := FlashStep(old(Snapshot()), sampler, incompatible);
        && (f.Err? ==> r == Fail(f.error) && Snapshot() == old(Snapshot()))
        && (f.Ok? ==> r == Pass && Snapshot() == f.value)
    {
      if sampler in FLASH_SAMPLERS && flashConfig.None? {
        if !(className in FLASH_LORA && sampler in FLASH_LORA[className]) {
          return Fail(UnknownFlashFamily(className));
        }
        var flashTaskLora := FLASH_LORA[className][sampler];
        ProcessLora(Some(flashTaskLora), 1.0, false, incompatible);
        flashConfig := Some(flashTaskLora);
      } else if sampler !in FLASH_SAMPLERS && flashConfig.Some? {
        ProcessLora(flashConfig, 1.0, true, incompatible);
        flashConfig := None;
      } else if flashConfig.Some? {
        if !(className in FLASH_LORA && sampler in FLASH_LORA[className]) {
          return Fail(UnknownFlashFamily(className));
        }
        var flashTaskLora := FLASH_LORA[className][sampler];
        if flashTaskLora != flashConfig.value {
          ProcessLora(flashConfig, 1.0, true, incompatible);
          ProcessLora(Some(flashTaskLora), 1.0, false, incompatible);
          flashConfig := Some(flashTaskLora);
        }
      }
      r := Pass;
    }

    /** The FreeU block of `__call__`. */
    method FreeU(enable: bool)
      modifies this
      ensures Snapshot() == FreeUStep(old(Snapshot()), enable)
    {
      if enable {
        Log([EnableFreeU(className == SD_CLASS)]);
        freeU := true;
      } else if freeU {
        Log([DisableFreeU]);
        freeU := false;
      }
    }

    /** One textual-inversion entry: a file that can be read is registered
        with the first encoder for SD, and for SDXL with the second encoder
        and then, unless that call is refused, the first. */
    method RegisterEmbedding(e: Embedding, files: EmbedFiles)
      modifies this
      ensures Snapshot() == Emit(old(Snapshot()), EntryOps(className, e, files))
    {
      if e.path !in files.unreadable && e !in files.refused {
        if className == SD_CLASS {
          Log([LoadEmbedding(e.token, e.path, TextEncoder)]);
        } else {
          Log([LoadEmbedding(e.token, e.path, TextEncoder2)]);
          if e !in files.firstOnly {
            Log([LoadEmbedding(e.token, e.path, TextEncoder)]);
          }
        }
      }
    }

    /** The textual-inversion part of `create_prompt_embeds`: a new,
        non-empty list is registered entry by entry and then replaces the
        record. */
    method CreatePromptEmbeds(entries: seq<Embedding>, files: EmbedFiles)
      modifies this
      ensures Snapshot() == EmbedStep(old(Snapshot()), entries, files)
    {
      if embedLoaded != entries && entries != [] {
        ghost var s0 := Snapshot();
        for i := 0 to |entries|
          invariant Snapshot() == Emit(s0, EmbedOps(s0.className, entries[..i], files))
        {
          RegisterEmbedding(entries[i], files);
          assert entries[..i + 1][..i] == entries[..i];
        }
        assert entries[..|entries|] == entries;
        embedLoaded := entries;
      }
    }

    /* -------------------------------------------------------------- */
    /* get_image_preprocess                                            */
    /* -------------------------------------------------------------- */

    /** `load_controlnet_weight`: read the ControlNet between two cache
        releases, then set it on the active pipeline object, which every
        remembered entry with the same serial is. */
    method LoadControlNetWeight(id: string)
      modifies this
      ensures old(pipe).None? ==> Snapshot() == Emit(old(Snapshot()), [Release, LoadControlNet(id), Release])
      ensures old(pipe).Some? ==>
        Snapshot() == Emit(WithControlNet(old(Snapshot()), id), [Release, LoadControlNet(id), Release, SwapControlNet(id)])
    {
      Log([Release, LoadControlNet(id), Release]);
      if pipe.Some? {
        var p := pipe.value;
        pipe := Some(p.(flavour := ControlNet(id)));
        modelMemory := map k | k in modelMemory ::
          if modelMemory[k].serial == p.serial then modelMemory[k].(flavour := ControlNet(id)) else modelMemory[k];
        Log([SwapControlNet(id)]);
      }
    }

    method GetImagePreprocess(hasImage: bool, requested: string, t2iPreprocessor: bool)
      returns (r: Result<ControlImage, Error>)
      modifies this, preprocessor
      ensures (Snapshot(), r) == ImagePreprocess(old(Snapshot()), hasImage, requested, t2iPreprocessor)
    {
      if !hasImage {
        return Err(NoReferenceImage);
      }
      var swap := LineartWeightTask(className, taskName, requested);
      if swap.Some? {
        LoadControlNetWeight(ChooseModelId(CONTROLNET_MODEL_IDS[swap.value], className));
        if pipe.None? {
          return Err(NoPipeline);
        }
      }
      var plan := ControlPlanFor(taskName, requested, t2iPreprocessor);
      match plan {
        case Err(e) =>
          r := Err(ControlPlanError(e));
        case Ok(PassThrough) =>
          r := Ok(Resized);
        case Ok(Detect(n, opt)) =>
          var loaded := preprocessor.Load(n);
          r := if loaded.Fail? then Err(UnknownDetector(n))
               else if preprocessor.model.None? then Err(NoDetectorModel)
               else Ok(Detected(n, opt));
      }
    }

    /* -------------------------------------------------------------- */
    /* __call__                                                        */
    /* -------------------------------------------------------------- */

    /** Argument checks, and the reload when no pipeline is loaded. */
    method PreparePipe(r: CallRequest, env: CallEnv) returns (g: Result<Geometry, Error>)
      requires Invariant()
      modifies this
      ensures Stage(Snapshot(), g) == C.PreparePipe(old(Snapshot()), r, env)
      ensures Invariant()
    {
      var checked := Validate(taskName, r.hasImage, r.geometry);
      if checked.Err? {
        return Err(checked.error);
      }
      if pipe.None? {
        var loaded := LoadPipe(LoadRequest(baseModelId, taskName, vaeModel, Float16, true, true), env.load);
        if loaded.Fail? {
          return Err(loaded.error);
        }
      }
      if pipe.None? {
        return Err(NoPipeline);
      }
      g := Ok(checked.value);
    }

    /** The main sampler; any failure empties the cache and raises. */
    method SetMainScheduler(sampler: string) returns (r: Result<(), Error>)
      modifies this
      ensures Stage(Snapshot(), r) == MainScheduler(old(Snapshot()), sampler)
    {
      var x := SchedulerFor(Snapshot(), sampler);
      if x.Err? {
        Log([Release]);
        return Err(SamplerError);
      }
      Log([SetScheduler(x.value)]);
      r := Ok(());
    }

    /** LoRA, flash LoRA, FreeU, textual inversion and the main sampler. */
    method ConfigurePipe(r: CallRequest, env: CallEnv) returns (k: Result<(), Error>)
      requires |r.loras| == 5 && |r.loraScales| == 5 && |loraMemory| == 5 && |loraScaleMemory| == 5
      modifies this
      ensures Stage(Snapshot(), k) == C.ConfigurePipe(old(Snapshot()), r, env)
    {
      ReconcileLoras(r.loras, r.loraScales, env.incompatibleLoras);
      var flash := FlashLora(r.sampler, env.incompatibleLoras);
      if flash.Fail? {
        return Err(flash.error);
      }
      FreeU(r.freeU);
      CreatePromptEmbeds(r.textualInversion, env.embeddingFiles);
      k := SetMainScheduler(r.sampler);
    }

    /** The control image: built for inpaint, preprocessed for the control
        tasks and img2img, absent for txt2img. */
    method PrepareControl(r: CallRequest) returns (c: Result<ControlImage, Error>)
      modifies this, preprocessor
      ensures Stage(Snapshot(), c) == C.PrepareControl(old(Snapshot()), r)
    {
      if taskName == "inpaint" {
        c := Ok(InpaintControl);
      } else if taskName != "txt2img" {
        c := GetImagePreprocess(r.hasImage, r.preprocessorName, r.t2iPreprocessor);
      } else {
        c := Ok(Resized);
      }
    }

    /** The auxiliary-pipeline cache: reuse the stored pipeline when it is
        to be retained, else build one on the active pipeline. */
    method SelectAux(stored: Option<AuxPipe>, retain: bool, category: string) returns (kept: Option<AuxPipe>, active: AuxPipe)
      requires pipe.Some?
      modifies this
      ensures var c := C.SelectAux(old(Snapshot()), stored, retain, category);
        Snapshot() == c.state && kept == c.stored && active == c.active
    {
      if stored.Some? && retain {
        return stored, stored.value;
      }
      active := AuxPipe(category, pipe.value.serial, nextSerial);
      Log([BuildAux(active)]);
      nextSerial := nextSerial + 1;
      kept := if retain then Some(active) else None;
    }

    /** A sampler override on an auxiliary pipeline. */
    method OverrideSampler(aux: AuxPipe, value: Result<Param, Error>) returns (r: Result<(), Error>)
      modifies this
      ensures Stage(Snapshot(), r) == C.OverrideSampler(old(Snapshot()), aux, value)
    {
      if value.Err? {
        return Err(value.error);
      }
      var x := SchedulerFor(Snapshot(), ParamText(value.value));
      if x.Err? {
        return Err(x.error);
      }
      Log([SetAuxScheduler(aux.serial, x.value)]);
      r := Ok(());
    }

    /** The two detail-fix sampler overrides; pass B's reads "sampler"
        from pass A's dictionary after it was popped. */
    method DetailfixSamplers(aux: AuxPipe, a1: map<string, Param>, b1: map<string, Param>) returns (r: Result<(), Error>)
      modifies this
      ensures Stage(Snapshot(), r) == C.DetailfixSamplers(old(Snapshot()), aux, a1, b1)
    {
      r := Ok(());
      if GetParam(a1, "sampler", SAME_SAMPLER_PARAM) != SAME_SAMPLER_PARAM {
        r := OverrideSampler(aux, Lookup(a1, "sampler"));
        if r.Err? {
          return;
        }
      }
      var popped := a1 - {"sampler"};
      if GetParam(b1, "sampler", SAME_SAMPLER_PARAM) != SAME_SAMPLER_PARAM {
        r := OverrideSampler(aux, Lookup(popped, "sampler"));
      }
    }

    /** The detail-fix preparation: pipeline, popped keys, samplers. */
    method PrepareDetailfix(r: CallRequest) returns (d: Result<Option<DetailPlan>, Error>)
      modifies this
      ensures Stage(Snapshot(), d) == C.PrepareDetailfix(old(Snapshot()), r)
    {
      if !(r.detailA || r.detailB) {
        return Ok(None);
      }
      if pipe.None? {
        return Err(NoPipeline);
      }
      var inpaintOnly := IsTrue(GetParam(r.detailAParams, "inpaint_only", PBool(false)))
                         || IsTrue(GetParam(r.detailBParams, "inpaint_only", PBool(false)));
      var kept, aux := SelectAux(detailfixPipe, r.retainDetailfix, if inpaintOnly then "detailfix" else "detailfix_img2img");
      detailfixPipe := kept;
      var a1 := r.detailAParams - {"inpaint_only"};
      var b1 := r.detailBParams - {"inpaint_only"};
      var o := DetailfixSamplers(aux, a1, b1);
      if o.Err? {
        return Err(o.error);
      }
      d := Ok(Some(DetailPlan(aux, a1 - {"sampler"}, b1 - {"sampler"})));
    }

    /** One detail-fix pass's settings, with the defaults filled in. */
    method DetailPassSettings(r: CallRequest, env: CallEnv, enabled: bool, params: map<string, Param>)
      returns (settings: Option<DetailSettings>)
      modifies this
      ensures (Snapshot(), settings) == C.DetailPassSettings(old(Snapshot()), r, env, enabled, params)
    {
      if !enabled {
        return None;
      }
      var filled := FillDefaults(params);
      WithDefaultsTyped(params);
      var prompts := ProcessPromptsValid(Some(ParamText(filled["prompt"])), Some(ParamText(filled["negative_prompt"])),
                                         r.prompt, r.negativePrompt);
      if NeedsOwnEmbeds(prompts) {
        CreatePromptEmbeds(r.textualInversion, env.embeddingFiles);
      }
      settings := Some(DetailSettings(prompts, filled["strength"], filled - {"prompt", "negative_prompt", "strength"}));
    }

    /** The hires preparation: prompts and their embeddings, then the
        pipeline and its sampler. */
    method PrepareHires(r: CallRequest, env: CallEnv) returns (h: Result<Option<HiresPlan>, Error>)
      modifies this
      ensures Stage(Snapshot(), h) == C.PrepareHires(old(Snapshot()), r, env)
    {
      if !(r.hiresSteps > 1 && r.upscaler.Some?) {
        return Ok(None);
      }
      var prompts := ProcessPromptsValid(Some(r.hiresPrompt), Some(r.hiresNegativePrompt), r.prompt, r.negativePrompt);
      if NeedsOwnEmbeds(prompts) {
        CreatePromptEmbeds(r.textualInversion, env.embeddingFiles);
      }
      h := HiresStage(r, prompts);
    }

    method HiresStage(r: CallRequest, prompts: ValidPrompts) returns (h: Result<Option<HiresPlan>, Error>)
      modifies this
      ensures Stage(Snapshot(), h) == C.HiresStage(old(Snapshot()), r, prompts)
    {
      if pipe.None? {
        return Err(NoPipeline);
      }
      var kept, aux := SelectAux(hiresPipe, r.retainHires, "hires");
      hiresPipe := kept;
      if r.hiresSampler != SAME_SAMPLER {
        var o := OverrideSampler(aux, Ok(PStr(r.hiresSampler)));
        if o.Err? {
          return Err(o.error);
        }
      }
      h := Ok(Some(HiresPlan(aux, prompts)));
    }

    /** `__call__`. */
    method Call(r: CallRequest, env: CallEnv) returns (result: Result<CallResult, Error>)
      requires Invariant() && WellFormed(r, env)
      modifies this, preprocessor
      ensures Stage(Snapshot(), result) == CallSpec(old(Snapshot()), r, env)
      ensures Invariant()
    {
      CallPreservesInvariants(Snapshot(), r, env);
      var g := PreparePipe(r, env);
      if g.Err? {
        return Err(g.error);
      }
      var k := ConfigurePipe(r, env);
      if k.Err? {
        return Err(k.error);
      }
      result := Generate(r, env, g.value);
    }

    method Generate(r: CallRequest, env: CallEnv, g: Geometry) returns (result: Result<CallResult, Error>)
      requires WellFormed(r, env)
      modifies this, preprocessor
      ensures Stage(Snapshot(), result) == C.Generate(old(Snapshot()), r, env, g)
    {
      var c := PrepareControl(r);
      if c.Err? {
        return Err(c.error);
      }
      result := GenerateDetailed(r, env, g, c.value);
    }

    method GenerateDetailed(r: CallRequest, env: CallEnv, g: Geometry, control: ControlImage)
      returns (result: Result<CallResult, Error>)
      requires WellFormed(r, env)
      modifies this
      ensures Stage(Snapshot(), result) == C.GenerateDetailed(old(Snapshot()), r, env, g, control)
    {
      var d := PrepareDetailfix(r);
      if d.Err? {
        return Err(d.error);
      }
      var _ := DetailPassSettings(r, env, r.detailA, if d.value.Some? then d.value.value.paramsA else map[]);
      var _ := DetailPassSettings(r, env, r.detailB, if d.value.Some? then d.value.value.paramsB else map[]);
      result := GenerateHires(r, env, g, control, d.value);
    }

    /** The hires preparation and the generation loop. */
    method GenerateHires(r: CallRequest, env: CallEnv, g: Geometry, control: ControlImage, detail: Option<DetailPlan>)
      returns (result: Result<CallResult, Error>)
      requires WellFormed(r, env)
      modifies this
      ensures Stage(Snapshot(), result) == C.GenerateHires(old(Snapshot()), r, env, g, control, detail)
    {
      var h := PrepareHires(r, env);
      if h.Err? {
        return Err(h.error);
      }
      var ctx := ContextFor(Snapshot(), r, env, g, control, detail, h.value);
      var loop := RunGenerationLoop(ctx, env.iterations[..Max0(r.loopGeneration)]);
      if loop.Err? {
        return Err(loop.error);
      }
      result := Ok(CallResult(loop.value.images, loop.value.paths));
    }

    /** One iteration, with its operations requested. */
    method RunOne(iteration: nat, ctx: LoopContext, it: IterationInput) returns (out: IterationOut)
      requires |it.draws| >= ctx.numImages
      modifies this
      ensures out == Iteration(iteration, ctx, it)
      ensures Snapshot() == Emit(old(Snapshot()), out.ops)
    {
      out := RunIteration(iteration, ctx, it);
      Log(out.ops);
    }

    /** `for i in range(loop_generation)`: each iteration's operations are
        requested in turn; the first error ends the call, and otherwise the
        last iteration's images are returned. */
    method RunGenerationLoop(ctx: LoopContext, its: seq<IterationInput>) returns (result: Result<Frames, Error>)
      requires forall k | 0 <= k < |its| :: |its[k].draws| >= ctx.numImages
      modifies this
      ensures Snapshot() == Emit(old(Snapshot()), RunLoop(Outcomes(ctx, its)).ops)
      ensures result == LoopResult(RunLoop(Outcomes(ctx, its)))
    {
      ghost var s0 := Snapshot();
      ghost var outs := Outcomes(ctx, its);
      var last: Option<Frames> := None;
      var i := 0;
      while i < |its|
        invariant 0 <= i <= |its|
        invariant RunLoop(outs[..i]).error.None?
        invariant last == RunLoop(outs[..i]).last
        invariant Snapshot() == Emit(s0, RunLoop(outs[..i]).ops)
      {
        RunLoopStep(outs, i);
        EmitTwice(s0, RunLoop(outs[..i]).ops, outs[i].ops);
        var out := RunOne(i, ctx, its[i]);
        if out.result.Err? {
          RunLoopAfterError(outs, i + 1);
          return Err(out.result.error);
        }
        last := Some(out.result.value);
        i := i + 1;
      }
      assert outs[..|its|] == outs;
      if last.None? {
        return Err(NoIterations);
      }
      result := Ok(last.value);
    }
  }

  lemma EmitTwice(s: Session, a: seq<Op>, b: seq<Op>)
    ensures Emit(Emit(s, a), b) == Emit(s, a + b)
  {
    assert s.log + a + b == s.log + (a + b);
  }

  /** One slot of `MergeAll` unfolded. */
  lemma MergeAllUnfold(loras: seq<Option<string>>, scales: seq<real>, unload: bool, incompatible: set<string>, k: nat)
    requires |loras| == |scales| && k < |loras|
    ensures MergeAll(loras[k..], scales[k..], unload, incompatible)
            == LoraOps(loras[k], scales[k], unload, incompatible) + MergeAll(loras[k + 1..], scales[k + 1..], unload, incompatible)
  {
    assert loras[k..][1..] == loras[k + 1..];
    assert scales[k..][1..] == scales[k + 1..];
  }

  /** The five slots unfolded. */
  lemma MergeAllFive(loras: seq<Option<string>>, scales: seq<real>, unload: bool, incompatible: set<string>)
    requires |loras| == 5 && |scales| == 5
    ensures MergeAll(loras, scales, unload, incompatible)
            == LoraOps(loras[0], scales[0], unload, incompatible) + LoraOps(loras[1], scales[1], unload, incompatible)
               + LoraOps(loras[2], scales[2], unload, incompatible) + LoraOps(loras[3], scales[3], unload, incompatible)
               + LoraOps(loras[4], scales[4], unload, incompatible)
  {
    assert loras[0..] == loras && scales[0..] == scales;
    MergeAllUnfold(loras, scales, unload, incompatible, 0);
    MergeAllUnfold(loras, scales, unload, incompatible, 1);
    MergeAllUnfold(loras, scales, unload, incompatible, 2);
    MergeAllUnfold(loras, scales, unload, incompatible, 3);
    MergeAllUnfold(loras, scales, unload, incompatible, 4);
    assert MergeAll(loras[5..], scales[5..], unload, incompatible) == [];
  }

  /** Once an iteration has failed the loop reports that failure. */
  lemma {:induction false} RunLoopAfterError(outs: seq<IterationOut>, i: nat)
    requires i <= |outs|
    requires RunLoop(outs[..i]).error.Some?
    ensures RunLoop(outs) == RunLoop(outs[..i])
    decreases |outs|
  {
    if |outs| > i {
      var init := outs[..|outs| - 1];
      assert init[..i] == outs[..i];
      RunLoopAfterError(init, i);
    } else {
      assert outs[..i] == outs;
    }
  }

  /** Extending the loop by one iteration. */
  lemma RunLoopStep(outs: seq<IterationOut>, i: nat)
    requires i < |outs|
    requires RunLoop(outs[..i]).error.None?
    ensures var prev := RunLoop(outs[..i]);
      RunLoop(outs[..i + 1])
      == match outs[i].result
         case Err(e) => LoopState(prev.ops + outs[i].ops, prev.last, Some(e))
         case Ok(f) => LoopState(prev.ops + outs[i].ops, Some(f), None)
  {
    assert outs[..i + 1][..i] == outs[..i];
  }

  /** One iteration of the generation loop: seeds, generators, the
      denoising call and its retry, the hires and detail-fix passes, and the
      image list. */
  method RunIteration(iteration: nat, ctx: LoopContext, it: IterationInput) returns (out: IterationOut)
    requires |it.draws| >= ctx.numImages
    ensures out == Iteration(iteration, ctx, it)
  {
    var seeds := DrawSeeds(ctx.seed, ctx.numImages, it.draws);
    var gens := MakeGenerators(seeds, ctx.onCpu, ctx.cudaGeneratorFails);
    if ctx.task == "img2img" && |gens| == 0 {
      return IterationOut([], Err(NoSeeds));
    }
    var pipeGens := if ctx.task == "img2img" then [gens[0]] else gens;
    var d := DenoiseStep(iteration, ctx, it, pipeGens);
    if d.1.Err? {
      return IterationOut(d.0, Err(d.1.error));
    }
    var rest := Postprocess(ctx, seeds, gens, d.1.value);
    out := IterationOut(d.0 + rest.ops, rest.result);
  }

  /** The hires and detail-fix passes, in the order the loop runs them. */
  method RefineImages(ctx: LoopContext, gens: seq<Generator>, images: seq<Image>) returns (out: (seq<Op>, Result<seq<Image>, Error>))
    ensures out == Refine(ctx, gens, images)
  {
    var before: (seq<Op>, Result<seq<Image>, Error>) := ([], Ok(images));
    if ctx.hiresBefore && ctx.upscale {
      before := HiresStep(ctx, gens, images);
    }
    if before.1.Err? {
      return (before.0, Err(before.1.error));
    }
    var fixed: (seq<Op>, seq<Image>) := ([], before.1.value);
    if ctx.detailA || ctx.detailB {
      fixed := DetailStep(ctx, before.1.value);
    }
    var after: (seq<Op>, Result<seq<Image>, Error>) := ([], Ok(fixed.1));
    if ctx.hiresAfter && ctx.upscale {
      after := HiresStep(ctx, gens, fixed.1);
    }
    out := (before.0 + fixed.0 + after.0, after.1);
  }

  /** The passes over the denoised images and the `image_list` loop. */
  method Postprocess(ctx: LoopContext, seeds: seq<int>, gens: seq<Generator>, images: seq<Image>) returns (out: IterationOut)
    requires ctx.task == "img2img" ==> |seeds| > 0
    ensures out == Request.Postprocess(ctx, seeds, gens, images)
  {
    var p := RefineImages(ctx, gens, images);
    if p.1.Err? {
      return IterationOut(p.0, Err(p.1.error));
    }
    var current := p.1.value;
    var batchSeeds := BatchSeeds(ctx.task, seeds, ctx.numImages);
    var paths := BuildImageList(current, ValidSeeds(ctx.task, batchSeeds), ctx.save, ctx.metadata);
    var ops := p.0 + SaveOps(paths);
    if |paths| == 0 {
      return IterationOut(ops, Err(NoImages));
    }
    out := IterationOut(ops, Ok(Frames(current, paths, batchSeeds)));
  }
}
