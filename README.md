# stablepy `Model_Diffusers`, modelled in Dafny

This project models the bookkeeping core of stablepy's diffusers wrapper:
the `Model_Diffusers` class together with its `Preprocessor` helper, its
static tables and `process_prompts_valid`. The neural networks are left
out. What remains is the state the object keeps between calls:

- which base model, task, VAE, precision and pipeline class are loaded;
- the task-pipeline memory;
- the five remembered LoRA slots and their scales;
- the active flash LoRA (TCD/LCM), the FreeU flag and the loaded textual-inversion embeddings;
- the retained detail-fix and hires pipelines;
- the detector cached by the preprocessor.

The model also covers the decisions `load_pipe` and `__call__` make over
that state.

There are two layers.

- **Specification layer.** The `Session`, `Request` and `Call` modules are pure
  functions over a `Session` value. Every heavy action the original delegates
  to diffusers, torch or the model hub appears as an `Op`: loading a base,
  deriving a task pipeline, merging a LoRA, loading an embedding, swapping a
  ControlNet, denoising, saving an image. Ops are appended to a log.
  Answers the original gets from the outside become inputs:
  - `LoadEnv`: whether a path is a file, the checkpoint type, the hub manifest
    class, fp16 availability;
  - `CallEnv` and `IterationInput`: which LoRAs fail to merge, which
    embedding registrations do not take effect (`EmbedFiles`), random draws,
    exceptions raised by a denoise run.

  A `LoadEmbedding` op stands for a textual-inversion registration that took
  effect. `EmbedFiles` gives three answers:
  - files that cannot be turned into tensors;
  - entries whose first registration call raises;
  - SDXL entries whose `clip_g` registration took and whose `clip_l`
    registration then raised.

  The first two register nothing; the third registers only with the second
  text encoder.
- **Object layer.** The `Engine` module holds `class ModelDiffusers`, whose
  fields are those of the Python object. `Detectors.Preprocessor` is a class
  too. Their methods update the fields step by step, in the source's order.
  Each method is proved to leave `Snapshot()` in the state the
  specification function describes.
  - `load_pipe` and `__call__` are also proved to keep the class invariant:
    five LoRA slots, an active pipeline of a known family with a recorded base
    scheduler, and every remembered task pipeline sharing the active
    pipeline's weights.

Random draws (`random.randint(0, 2147483647)`) are an input sequence. Its
values are assumed to lie in `[0, 2147483647]` where a bound is stated.

Places where the code's behaviour may look unintended; the model follows the code:

- **Precision change on a hub model.** Changing the precision of a hub
  (non-file) model does not force a reload. `unload_model` compares
  precisions only when the base id is a file.
- **Detail-fix B sampler.** Pass B's sampler override reads pass A's
  `"sampler"` key, which has already been popped. When A sets no sampler or
  a known one, a B sampler override therefore fails with
  `MissingKey("sampler")` (the `KeyError`). When A names an unknown sampler,
  A's own override raises first. See `Call.DetailfixBSamplerAlwaysFails`.
- **TI cache.** The textual-inversion cache `embed_loaded` is replaced by the
  new list, not merged with the old one.
- **LoRA memory after a failed merge.** `lora_memory` records the requested
  LoRAs even when a merge failed.
- **Teardown and aux pipes.** A base-model teardown clears the task memory,
  LoRAs, flash LoRA, embeddings and FreeU. It keeps the retained detail-fix
  and hires pipelines. A retained auxiliary pipeline therefore keeps
  referring to the weights it was built from (`AuxPipe.base`).
- **Control preview framing.** For ControlNet and T2I-adapter tasks the
  returned images start with the control preview. The seeds used for file
  metadata are `[0] + seeds` (`valid_seeds`), so the preview is saved with
  seed 0.
- **txt2img control image.** For a task with no control image, the control
  image is the `Resized` placeholder.
- **Inpaint control image.** `process_inpaint` is represented by the
  `InpaintControl` control image.
- **`load_controlnet_weight`.** For an SD lineart task the preprocess step
  logs four ops, `Release`, `LoadControlNet(id)`, `Release` and
  `SwapControlNet(id)`, and sets `ControlNet(id)` as the active pipeline's
  flavour. A remembered pipeline with the same serial is the same object, so
  it gets the new ControlNet too. With no pipeline loaded, the attribute
  assignment fails after the load (`NoPipeline`).
- **Empty detector name.** Depth, segmentation and shuffle hand the requested
  name to `Preprocessor.load` unchecked. The empty name equals the name of a
  cache that never loaded anything, so `load` returns at once and calling the
  preprocessor calls its `None` model (a `TypeError`). The model reports this
  as `NoDetectorModel`; see `Session.EmptyNameOnFreshSlotFails`.
- **Missing control image.** Scribble, softedge and lineart with a detector
  name their branch does not list assign no control image, so the return
  fails (`NoControlImage`).

## Model

| member | source | states |
|---|---|---|
| Tables.GetScheduler | stablepy/diffusers_vanilla/model.py:898-905 | a scheduler is produced exactly when the name is in `SCHEDULER_CONFIG_MAP`; it has the table's class and config overlaid on the given base scheduler; an unknown name is reported with that name |
| Tables.FamilyNames | stablepy/diffusers_vanilla/model.py:557-562 | the XL pipeline class name contains "XL" and the SD 1.5 one does not, so the "XL"-in-class-name test separates the two families |
| Tables.ControlNetIdPerFamily | stablepy/diffusers_vanilla/model.py:557-562 | for a task with a two-entry model id, the SDXL class picks the second id and the SD class the first; a single id is used for both |
| Tables.AdapterTasksAreKnownTasks | stablepy/diffusers_vanilla/model.py:224-257 | every T2I-adapter task that names a preprocessor is also a task with a ControlNet/adapter model id |
| Tables.FlashTablesComplete | stablepy/diffusers_vanilla/model.py:259-311 | both pipeline families have a flash LoRA for both TCD and LCM, and both samplers are known schedulers of the right kind |
| Detectors.DetectorNamesRoundTrip | stablepy/diffusers_vanilla/model.py:164-192 | the detector names of `Preprocessor.load` and the detectors correspond one to one |
| Detectors.LoadDetectorCases | stablepy/diffusers_vanilla/model.py:164-195 | loading the cached name changes nothing; an unknown name fails with that name and leaves the slot as it was; a known name becomes the cached name and model, and one more detector load is recorded |
| Detectors.LoadDetectorIdempotent | stablepy/diffusers_vanilla/model.py:164-166 | loading the same detector twice leaves the same slot and outcome as loading it once |
| Detectors.LoadDetectorKeepsConsistent | stablepy/diffusers_vanilla/model.py:164-195 | the cached name and model keep agreeing: an empty name has no model, and a nonempty name holds the detector of that name |
| Detectors.Preprocessor.constructor | stablepy/diffusers_vanilla/model.py:160-162 | a new preprocessor has an empty name and no model |
| Detectors.Preprocessor.Load | stablepy/diffusers_vanilla/model.py:164-195 | the object's slot and the outcome are those of the one-slot cache function over the previous slot |
| Detectors.AdapterTaskIsMarked | stablepy/diffusers_vanilla/model.py:737-738 | every T2I-adapter task name contains "t2i", which is what routes it to the adapter preprocessor |
| Detectors.AdapterTaskPlans | stablepy/diffusers_vanilla/model.py:737-833 | for every requested name, an adapter task passes the image through when the T2I preprocessor flag is off, and with the flag runs its table detector, a known one, with its branch's option; a "t2i" task missing from the table with the flag on fails on the lookup |
| Detectors.AdapterDispatch | stablepy/diffusers_vanilla/model.py:746-833 | dispatching an adapter task with its table detector runs that detector, with the option the task's branch uses |
| Detectors.PassThroughTasksPassThrough | stablepy/diffusers_vanilla/model.py:746-749 | ip2p, img2img, pattern and sdxl_tile_realistic never run a detector, whatever detector name is asked for; the image is only resized |
| Detectors.SoftedgeVariantFlags | stablepy/diffusers_vanilla/model.py:788-802 | softedge succeeds exactly for "HED", "HED safe", "PidiNet", "PidiNet safe" and the "None" names; "HED" runs HED without and "HED safe" with the scribble flag, "PidiNet" runs PidiNet without and "PidiNet safe" with the safe flag; any other name leaves no control image |
| Detectors.LineartVariantFlags | stablepy/diffusers_vanilla/model.py:813-825 | the lineart tasks succeed exactly for "Lineart", "Lineart coarse", "Lineart (anime)" and the "None" names; the coarse flag is on exactly for "Lineart coarse"; "Lineart (anime)" runs the anime detector; any other name leaves no control image |
| Detectors.Dispatch | stablepy/diffusers_vanilla/model.py:746-833 | the image is passed through exactly for the "None" names and the pass-through tasks |
| Detectors.ControlPlanFor | stablepy/diffusers_vanilla/model.py:737-738 | the adapter table lookup fails exactly for a "t2i" task missing from the table with the adapter preprocessor on |
| Detectors.RequestedNameUsed | stablepy/diffusers_vanilla/model.py:737-738 | every task of the dispatch without "t2i" in its name dispatches on the requested name as given, whatever the adapter flag |
| Detectors.NoneNamesPassThrough | stablepy/diffusers_vanilla/model.py:746-749 | "None" and "None (anime)" pass the image through for every task |
| Detectors.DetectorPerTask | stablepy/diffusers_vanilla/model.py:750-833 | canny, openpose, MLSD and NormalBae run their own detector whatever name is given; depth, segmentation and shuffle run the detector of the given name; a task outside every branch is refused with "No valid preprocessor name" |
| Detectors.ScribbleVariants | stablepy/diffusers_vanilla/model.py:775-787 | scribble succeeds exactly for "HED", "PidiNet" and the "None" names; HED runs without the scribble flag and PidiNet without the safe flag; any other name leaves no control image |
| Detectors.DispatchedDetectorsKnown | stablepy/diffusers_vanilla/model.py:750-825 | every detector a fixed-detector branch names is one `Preprocessor.load` accepts |
| Session.InitialValid | stablepy/diffusers_vanilla/model.py:360-383 | the fields as `__init__` sets them before its first `load_pipe` satisfy the session invariant |
| Session.DeriveSameWeights | stablepy/diffusers_vanilla/model.py:564-679 | deriving a task pipeline from the active one keeps the same weights and changes only the pipeline, serial counter and log |
| Session.InpaintStageSameWeights | stablepy/diffusers_vanilla/model.py:564-594 | building the inpaint pipeline (both families) reuses the loaded weights and loads no base model |
| Session.ControlStageSameWeights | stablepy/diffusers_vanilla/model.py:596-650 | building a ControlNet or T2I-adapter pipeline reuses the loaded weights and loads no base model |
| Session.PlainStageSameWeights | stablepy/diffusers_vanilla/model.py:652-679 | building the txt2img or img2img pipeline reuses the loaded weights and loads no base model |
| Session.BuildVariantFrame | stablepy/diffusers_vanilla/model.py:564-679 | whatever the task, the task pipeline shares the base pipeline's weights and no base model is loaded |
| Session.AttachTaskFrame | stablepy/diffusers_vanilla/model.py:543-697 | attaching a task never touches LoRAs, flash LoRA, embeddings, FreeU, precision or the base scheduler; it only adds the requested task to the memory and loads no base model; success records base, task, VAE and class; failure changes nothing |
| Session.LoadCheckpointFrame | stablepy/diffusers_vanilla/model.py:441-516 | loading a base model only sets the pipeline, serial counter and log; a loaded pipeline has fresh weights and one of the two known classes |
| Session.ReloadBaseFrame | stablepy/diffusers_vanilla/model.py:441-540 | a reload from an empty state keeps the memory, LoRAs, adapters, precision and task; on success it records base, VAE, a known class and the new pipeline's base scheduler; on failure no pipeline is left |
| Session.LoadPipeFastPath | stablepy/diffusers_vanilla/model.py:393-402 | the same base, task and VAE with a pipeline loaded, no reload and the same precision (or no GPU) returns at once and changes nothing |
| Session.LoadPipeIdempotent | stablepy/diffusers_vanilla/model.py:393-402 | after a successful load without forced reload, repeating the same request takes the fast path |
| Session.LoadPipeResetsOnBaseChange | stablepy/diffusers_vanilla/model.py:425-438 | when the base cannot be kept, the LoRA slots, scales, flash LoRA, embeddings and FreeU are reset, the memory holds at most the new task, and precision is the effective requested one |
| Session.LoadPipeUnsupportedCheckpoint | stablepy/diffusers_vanilla/model.py:441-471 | a `.safetensors` file of an unknown model type fails with that type after the teardown, leaving no pipeline and the old base id |
| Session.LoadPipeReusesMemory | stablepy/diffusers_vanilla/model.py:543-554 | a remembered task is switched to without building anything: the remembered pipeline becomes active, the memory is unchanged and nothing is logged |
| Session.LoadPipeSharesBase | stablepy/diffusers_vanilla/model.py:557-697 | a new task on a kept base is built from the loaded weights without loading a base model, and is remembered exactly when memory retention is requested |
| Session.AttachTaskPreservesInvariants | stablepy/diffusers_vanilla/model.py:543-697 | attaching a task keeps the invariant and coherence; with retention the active task is in memory and is the active pipeline |
| Session.ReloadPreservesInvariants | stablepy/diffusers_vanilla/model.py:429-540 | a teardown followed by a reload yields a valid, coherent state with an empty task memory |
| Session.LoadPipePreservesInvariants | stablepy/diffusers_vanilla/model.py:384-699 | `load_pipe` keeps the invariant and coherence, only appends to the log, and with retention leaves the active task remembered as the active pipeline |
| Session.LoadPipe | stablepy/diffusers_vanilla/model.py:384-699 | loading only appends to the log and keeps the device, the detector cache and the retained detail-fix and hires pipelines |
| Session.LoadPipeKeepsAuxPipes | stablepy/diffusers_vanilla/model.py:429-438 | `load_pipe` never drops the retained detail-fix or hires pipeline |
| Session.MergeAllNames | stablepy/diffusers_vanilla/model.py:1453-1502 | merging the five slots issues one LoRA op per filled slot, in slot order, for exactly the filled slots |
| Session.MergeAllUnloadNegates | stablepy/diffusers_vanilla/model.py:1048-1081 | unloading a LoRA merges it again with the negated scale |
| Session.ReconcileLorasRecords | stablepy/diffusers_vanilla/model.py:1453-1502 | afterwards the remembered slots and scales are the requested ones, even if a merge failed, nothing else but the log changes, and repeating the request does nothing |
| Session.ReconcileLorasOrder | stablepy/diffusers_vanilla/model.py:1453-1502 | when the request differs, every previously remembered LoRA is unloaded with its negated scale before every requested LoRA is loaded |
| Session.ReconcileLoras | stablepy/diffusers_vanilla/model.py:1453-1502 | afterwards the remembered slots and scales are the requested ones, and the log only grows |
| Session.FlashStepTracksSampler | stablepy/diffusers_vanilla/model.py:1504-1524 | afterwards the flash LoRA is the one the sampler calls for; the old one is unloaded and the new one loaded only when they differ; the step fails only for a flash sampler of a family with no flash LoRA |
| Session.FlashStepIdempotent | stablepy/diffusers_vanilla/model.py:1504-1524 | repeating the flash step with the same sampler does nothing more |
| Session.FlashStepKnownFamilies | stablepy/diffusers_vanilla/model.py:259-268 | for either known pipeline family the flash step always succeeds |
| Session.FlashStep | stablepy/diffusers_vanilla/model.py:1504-1524 | a successful flash step changes only the flash record and the log, and the log only grows |
| Session.FreeUStepTracksFlag | stablepy/diffusers_vanilla/model.py:1528-1539 | afterwards the FreeU flag equals the request; enabling always calls the pipeline and disabling does so only when FreeU was on; nothing else but the log changes |
| Session.EmbedStepRecords | stablepy/diffusers_vanilla/model.py:915-941 | a nonempty list that differs from the cache replaces the cache; an empty list leaves it; repeating the step does nothing |
| Session.EmbedStep | stablepy/diffusers_vanilla/model.py:907-1003 | only the embedding record and the log change, the log only grows, and an empty list changes nothing |
| Session.RegisteredEntries | stablepy/diffusers_vanilla/model.py:915-1003 | the entries kept are exactly the listed ones whose file can be read and whose first registration is accepted |
| Session.AllRegistered | stablepy/diffusers_vanilla/model.py:915-1003 | when every file can be read and every registration is accepted, every listed entry is registered |
| Session.EmbedOpsSd | stablepy/diffusers_vanilla/model.py:915-941 | for SD 1.5, each listed embedding whose file can be read and whose registration is accepted is loaded once into the text encoder, in list order; the others register nothing |
| Session.EmbedOpsSdxl | stablepy/diffusers_vanilla/model.py:986-1003 | for SDXL, when every file can be read and both registrations of every entry are accepted, each is loaded into the second text encoder and then the first, in list order |
| Session.EmbedOpsSdxlRegistered | stablepy/diffusers_vanilla/model.py:986-1003 | for SDXL, whatever fails, the loop skips a failing entry and goes on: the ops are, in list order, for each entry that registers, its second-encoder registration followed by its first-encoder one unless that one is refused |
| Session.EmbedOpsSdxlSecondNeedsFirst | stablepy/diffusers_vanilla/model.py:986-1003 | for SDXL, every registration is of a listed embedding whose first registration takes effect, and a first-encoder registration comes right after the second-encoder one of the same embedding and only for entries whose `clip_l` registration is accepted |
| Session.ImagePreprocessEffects | stablepy/diffusers_vanilla/model.py:700-835 | a missing image is an error and changes nothing; the pipeline and the remembered pipelines change only by the SD lineart swap, exactly as `load_controlnet_weight` sets them, and a swap without a pipeline fails after the load; the invariants are kept; a detected image comes from the detector now cached, which holds a model; an unknown detector leaves the cache unchanged |
| Session.ImagePreprocess | stablepy/diffusers_vanilla/model.py:700-835 | only the detector cache, the pipeline, the remembered pipelines and the log can change, and the log only grows |
| Session.WithControlNetKeepsInvariants | stablepy/diffusers_vanilla/model.py:700-711 | setting the ControlNet keeps the active pipeline's identity and weights, leaves other remembered pipelines alone, keeps the invariants, and the active task's remembered pipeline carries the new ControlNet |
| Session.LineartSwapSetsControlNet | stablepy/diffusers_vanilla/model.py:730-735 | an SD lineart task ends with the anime ControlNet exactly when the preprocessor name mentions "anime", the plain one otherwise, on both the active and the remembered pipeline, after the four logged ops |
| Session.EmptyNameOnFreshSlotFails | stablepy/diffusers_vanilla/model.py:160-166 | depth, segmentation or shuffle with the empty name on a cache that never loaded fails on the missing model and changes nothing |
| Request.RoundUpTo8 | stablepy/diffusers_vanilla/model.py:1409-1416 | the result is the least multiple of 8 not below the input |
| Request.Validate | stablepy/diffusers_vanilla/model.py:1405-1422 | a non-txt2img task without an image is the missing-image error; otherwise height, width and resolution are rounded up to 8, and an empty guidance window becomes 0.0 to 1.0 |
| Request.ProcessPromptsValid | stablepy/diffusers_vanilla/model.py:316-323 | a stage prompt that is missing or empty is flagged and replaced by the main prompt; otherwise it is used as given |
| Request.SharedEmbedsMeanSamePrompts | stablepy/diffusers_vanilla/model.py:1759-1762 | when a stage reuses the main embeddings, its prompts are the main ones |
| Request.SeedList | stablepy/diffusers_vanilla/model.py:1977-1983 | seed -1 draws one seed per image; a fixed seed comes first and the rest are drawn; every seed lies in [0, 2147483647] when the draws and seed do |
| Request.DrawSeeds | stablepy/diffusers_vanilla/model.py:1977-1983 | the loop builds exactly the seed list |
| Request.Generators | stablepy/diffusers_vanilla/model.py:1986-1998 | one generator per seed with that seed, on CUDA unless CPU is forced or creating a CUDA generator fails |
| Request.MakeGenerators | stablepy/diffusers_vanilla/model.py:1986-1998 | the loop builds exactly the generator list |
| Request.Repeat | stablepy/diffusers_vanilla/model.py:2002 | the img2img seed list is the first seed repeated once per image |
| Request.WithDefaultsTyped | stablepy/diffusers_vanilla/model.py:1726-1732 | every default key ends present with a value of the default's type; a well-typed caller value is kept, a missing or ill-typed one is replaced by the default, and other keys pass through |
| Request.WithDefaultsIdempotent | stablepy/diffusers_vanilla/model.py:1726-1732 | filling defaults twice is the same as filling them once |
| Request.OrderCoversDefaults | stablepy/diffusers_vanilla/model.py:1669-1681 | the iteration order of the defaults covers exactly the default keys |
| Request.FillDefaults | stablepy/diffusers_vanilla/model.py:1726-1732 | the loop over the defaults in dictionary order yields the filled parameters |
| Request.DetailSettingsDefaults | stablepy/diffusers_vanilla/model.py:1669-1750 | a missing prompt falls back to the main prompt; a missing or non-float strength is 0.35; prompt and strength are removed from the detector parameters while the other defaults stay |
| Request.Batch | stablepy/diffusers_vanilla/model.py:2005-2007 | a denoise run yields one image per requested image |
| Request.ImageList | stablepy/diffusers_vanilla/model.py:2103-2124 | one entry per image and seed pair, cut at the shorter list; each is the saved file with that seed in the metadata, or "not saved" |
| Request.BuildImageList | stablepy/diffusers_vanilla/model.py:2103-2124 | the loop builds exactly the image list |
| Request.UpscaledTraces | stablepy/diffusers_vanilla/model.py:2032-2046 | the hires pass keeps each image's place in the batch |
| Request.FixedOrigins | stablepy/diffusers_vanilla/model.py:2048-2075 | a detail-fix pass keeps each image's origin |
| Request.DetailStepTraces | stablepy/diffusers_vanilla/model.py:2048-2075 | after detail fixing, images still trace back to this iteration's batch, and a control task's preview stays first |
| Request.DenoiseStepRetry | stablepy/diffusers_vanilla/model.py:2004-2027 | the scheduler is switched, to DDIM over the base scheduler, exactly when the first run raised the unstable-sampler error, and the pipeline then runs twice, otherwise once; the call succeeds exactly when the last run produced, with this iteration's traced images; a failed retry passes its error on, and a first failure is the too-few-steps error or a generation failure |
| Request.DenoiseStep | stablepy/diffusers_vanilla/model.py:2004-2027 | the pipeline runs first, and a second time exactly after the unstable-sampler error |
| Request.RefineTraces | stablepy/diffusers_vanilla/model.py:2032-2091 | hires before, detail fix, and hires after keep every image traceable to this iteration's batch |
| Request.PostprocessShape | stablepy/diffusers_vanilla/model.py:2032-2129 | a successful postprocess keeps the images traceable, reports the batch seeds, and lists the images against `valid_seeds` |
| Request.IterationShape | stablepy/diffusers_vanilla/model.py:1974-2129 | a successful iteration reports one seed per image (img2img repeats the first), one path per image saved with its `valid_seeds` seed, and a control preview saved with seed 0 |
| Request.Iteration | stablepy/diffusers_vanilla/model.py:1974-2129 | an iteration logs nothing exactly when img2img has no seed, which is the no-seeds error; otherwise it starts with a denoising run |
| Request.Img2ImgSingleGenerator | stablepy/diffusers_vanilla/model.py:2001-2002 | img2img denoises with the first generator only and reports the first seed for every image; no seeds is an error |
| Request.IterationNoImages | stablepy/diffusers_vanilla/model.py:2001-2129 | with no images and no control preview the iteration fails: img2img with a drawn seed has no generator (`generators[0]`), and otherwise, once the pipeline has run and no hires pass needs a generator, the empty `image_list[0]` fails |
| Call.PreparePipeEffects | stablepy/diffusers_vanilla/model.py:1405-1433 | a missing image fails before any change; a loaded pipeline means nothing else is done; success leaves a pipeline and the validated geometry |
| Call.SchedulerFor | stablepy/diffusers_vanilla/model.py:898-905 | a scheduler is built exactly for a known name once a base scheduler exists; it has that name's class and config on the base scheduler; otherwise the unknown name or the missing base scheduler is the error |
| Call.SelectAuxRetention | stablepy/diffusers_vanilla/model.py:1684-1705 | a retained stored pipeline is reused unchanged; otherwise a new one of the category is built on the active weights; it is stored exactly when retention is asked |
| Call.Lookup | stablepy/diffusers_vanilla/model.py:1713-1717 | a dictionary read succeeds exactly for a present key, with its value, and otherwise raises `KeyError` for that key |
| Call.DetailfixBSamplerAlwaysFails | stablepy/diffusers_vanilla/model.py:1710-1718 | when B sets a sampler and A sets none or a known one, the B branch reads A's already popped key and fails with `KeyError("sampler")`; when A names an unknown sampler, A's own lookup fails first with that name |
| Call.DetailfixPipelineKind | stablepy/diffusers_vanilla/model.py:1684-1707 | a new detail-fix pipeline is an inpaint one when either pass asks for inpaint only and an img2img one otherwise, built on the active weights; `inpaint_only` and `sampler` are removed from both passes |
| Call.PrepareHiresEffects | stablepy/diffusers_vanilla/model.py:1875-1947 | the hires stage runs exactly when there is more than one hires step and an upscaler; otherwise nothing changes; an unknown hires sampler is an error |
| Call.PrepareHiresCaching | stablepy/diffusers_vanilla/model.py:1929-1942 | with retention the hires pipeline used is the stored one; without it nothing is stored |
| Call.HiresStageCaching | stablepy/diffusers_vanilla/model.py:1929-1942 | the hires pipeline build stores the pipeline it uses exactly when retention is asked |
| Call.Outcomes | stablepy/diffusers_vanilla/model.py:1974-2130 | one outcome per loop iteration, each that of the iteration function |
| Call.RunLoopLast | stablepy/diffusers_vanilla/model.py:1974-2137 | an uninterrupted loop returns the last iteration's images, and every iteration succeeded; a stopped loop reports the error of an iteration that failed; no iterations is an error |
| Call.EmbedStepUntouched | stablepy/diffusers_vanilla/model.py:907-1046 | creating prompt embeddings touches no pipeline, model memory, LoRA or flash state |
| Call.PrepareControlFrame | stablepy/diffusers_vanilla/model.py:1576-1601 | preparing the control image touches no task, LoRA or flash state; the pipelines change only by the SD lineart ControlNet swap; the invariants are kept |
| Call.DetailfixPipelineUntouched | stablepy/diffusers_vanilla/model.py:1684-1705 | choosing the detail-fix pipeline touches no main pipeline, memory or LoRA state |
| Call.PrepareDetailfixUntouched | stablepy/diffusers_vanilla/model.py:1666-1724 | the detail-fix setup leaves the main pipeline, memory, LoRAs and adapters as they were |
| Call.DetailPassSettingsUntouched | stablepy/diffusers_vanilla/model.py:1726-1873 | preparing a pass's settings leaves the main state as it was |
| Call.PrepareHiresUntouched | stablepy/diffusers_vanilla/model.py:1875-1956 | the hires setup leaves the main pipeline, memory, LoRAs and adapters as they were |
| Call.GenerateUntouched | stablepy/diffusers_vanilla/model.py:1576-2137 | everything after the control image leaves the main pipeline, memory, LoRAs and adapters as it found them; over the whole phase only the pipelines can differ from the start |
| Call.ConfigureAdaptersRecords | stablepy/diffusers_vanilla/model.py:1504-1571 | the adapter phase changes only flash LoRA, FreeU, embeddings and log; its errors are a sampler error or an unknown flash family; on success the flash LoRA, FreeU and embeddings follow the request |
| Call.ConfigurePipeRecords | stablepy/diffusers_vanilla/model.py:1453-1571 | the configuration phase records the requested LoRAs and keeps pipeline, memory, class, base scheduler and task; on success the adapters follow the request |
| Call.CallMissingImage | stablepy/diffusers_vanilla/model.py:1405-1407 | a call without an image for a non-txt2img task raises before any change |
| Call.CallPreservesInvariants | stablepy/diffusers_vanilla/model.py:1118-2137 | a call keeps the session invariant and coherence and only appends to the log |
| Call.CallSpec | stablepy/diffusers_vanilla/model.py:1118-2137 | whatever a call raises, it only appends to the log |
| Call.ConfigureAndGenerateInvariants | stablepy/diffusers_vanilla/model.py:1453-2137 | the configuration and generation phases keep the invariant and coherence and only append to the log |
| Call.CallSameAdaptersNoMerge | stablepy/diffusers_vanilla/model.py:1453-1524 | repeating the remembered LoRAs and flash sampler merges and unloads nothing |
| Engine.ModelDiffusers.constructor | stablepy/diffusers_vanilla/model.py:360-383 | the new object's state is the first `load_pipe` applied to the empty fields, it satisfies the invariant, and it owns a fresh preprocessor |
| Engine.ModelDiffusers.Teardown | stablepy/diffusers_vanilla/model.py:429-438 | the object drops its pipeline and memory and resets LoRAs, flash LoRA, embeddings and FreeU |
| Engine.ModelDiffusers.LoadCheckpoint | stablepy/diffusers_vanilla/model.py:441-514 | the object loads the base from a file or the hub as the specification says, or is left unchanged with the error |
| Engine.ModelDiffusers.ReloadBase | stablepy/diffusers_vanilla/model.py:441-540 | the object loads the base, records id, class and VAE, and keeps the base scheduler |
| Engine.ModelDiffusers.BuildVariant | stablepy/diffusers_vanilla/model.py:564-679 | the object builds the task pipeline from the loaded weights |
| Engine.ModelDiffusers.AttachTask | stablepy/diffusers_vanilla/model.py:543-697 | the object reuses or builds the task pipeline and records it |
| Engine.ModelDiffusers.LoadPipe | stablepy/diffusers_vanilla/model.py:384-699 | the object ends in the state and outcome of the `load_pipe` specification and keeps the invariant |
| Engine.ModelDiffusers.LoadBaseAndTask | stablepy/diffusers_vanilla/model.py:425-699 | the object either keeps the base and attaches the task, or tears down, reloads and attaches |
| Engine.ModelDiffusers.ProcessLora | stablepy/diffusers_vanilla/model.py:1048-1081 | the object issues that LoRA's merge or negated unmerge, and nothing for an empty slot |
| Engine.ModelDiffusers.ReconcileLoras | stablepy/diffusers_vanilla/model.py:1453-1502 | the object ends as the LoRA reconcile specification says |
| Engine.ModelDiffusers.FlashLora | stablepy/diffusers_vanilla/model.py:1504-1524 | the object follows the flash step, or is left unchanged with its error |
| Engine.ModelDiffusers.FreeU | stablepy/diffusers_vanilla/model.py:1528-1539 | the object follows the FreeU step |
| Engine.ModelDiffusers.RegisterEmbedding | stablepy/diffusers_vanilla/model.py:918-1003 | the object logs exactly the registrations one entry makes for its family |
| Engine.ModelDiffusers.CreatePromptEmbeds | stablepy/diffusers_vanilla/model.py:907-1003 | the object follows the textual-inversion cache step: entries that cannot be read or are refused register nothing, and SDXL registrations can stop after the second encoder |
| Engine.ModelDiffusers.LoadControlNetWeight | stablepy/diffusers_vanilla/model.py:700-711 | the object logs the load and sets the ControlNet on the active pipeline and on the remembered entries that are that pipeline |
| Engine.ModelDiffusers.GetImagePreprocess | stablepy/diffusers_vanilla/model.py:715-835 | the object and its preprocessor end as the preprocess specification says, with its result, including the lineart swap and the missing-model error |
| Engine.ModelDiffusers.PreparePipe | stablepy/diffusers_vanilla/model.py:1405-1433 | the object validates the request and reloads a missing pipeline, as specified, and keeps the invariant |
| Engine.ModelDiffusers.SetMainScheduler | stablepy/diffusers_vanilla/model.py:1564-1571 | the object switches to the requested sampler or reports why not |
| Engine.ModelDiffusers.ConfigurePipe | stablepy/diffusers_vanilla/model.py:1453-1571 | the object runs the LoRA, flash, FreeU, embedding and sampler phase as specified |
| Engine.ModelDiffusers.PrepareControl | stablepy/diffusers_vanilla/model.py:1576-1601 | the object prepares the control image as specified |
| Engine.ModelDiffusers.SelectAux | stablepy/diffusers_vanilla/model.py:1684-1705 | the object reuses or builds the auxiliary pipeline, and stores it, as specified |
| Engine.ModelDiffusers.OverrideSampler | stablepy/diffusers_vanilla/model.py:1710-1718 | the object sets the auxiliary pipeline's sampler or fails as specified |
| Engine.ModelDiffusers.DetailfixSamplers | stablepy/diffusers_vanilla/model.py:1708-1718 | the object performs the two sampler overrides in the source's order |
| Engine.ModelDiffusers.PrepareDetailfix | stablepy/diffusers_vanilla/model.py:1666-1724 | the object runs the detail-fix setup as specified |
| Engine.ModelDiffusers.DetailPassSettings | stablepy/diffusers_vanilla/model.py:1726-1873 | the object prepares one pass's settings and embeddings as specified |
| Engine.ModelDiffusers.PrepareHires | stablepy/diffusers_vanilla/model.py:1875-1956 | the object runs the hires setup as specified |
| Engine.ModelDiffusers.HiresStage | stablepy/diffusers_vanilla/model.py:1889-1947 | the object builds or reuses the hires pipeline and sampler as specified |
| Engine.ModelDiffusers.Call | stablepy/diffusers_vanilla/model.py:1118-2137 | the object ends in the state and result of the `__call__` specification and keeps the invariant |
| Engine.ModelDiffusers.Generate | stablepy/diffusers_vanilla/model.py:1576-2137 | the object runs control, detail-fix, hires and the loop as specified |
| Engine.ModelDiffusers.RunOne | stablepy/diffusers_vanilla/model.py:1974-2129 | one iteration logs exactly its ops and yields the iteration's outcome |
| Engine.ModelDiffusers.RunGenerationLoop | stablepy/diffusers_vanilla/model.py:1974-2137 | the loop logs the ops of the iterations up to the first failure and returns the loop's result |
| Engine.RunIteration | stablepy/diffusers_vanilla/model.py:1974-2129 | the step-by-step iteration yields the iteration function's outcome |
| Engine.RefineImages | stablepy/diffusers_vanilla/model.py:2032-2091 | hires before, detail fix and hires after, as the refine function says |
| Engine.Postprocess | stablepy/diffusers_vanilla/model.py:2032-2129 | the refinement and image list, as the postprocess function says |

## Left out

- Model hub, JSON configs and `os.path.isfile`: their answers are inputs (`LoadEnv`, `CallEnv`).
- `checkpoint_model_type`: its answer is an input.
- `torch.cuda.empty_cache`, `gc.collect`, `time.sleep` and `torch.cuda.is_available`: no state; CUDA availability is a constructor input.
- Only some memory-release points are logged as `Release` ops.
- `lora_mix_load`: its success or failure is an input (the set of incompatible LoRAs).
- Compel, prompt weighting, clip skip and all tensors: embeddings are not represented.
- The detector networks and image arithmetic: only which detector runs, with which option, is kept.
- `process_inpaint`: the inpaint control image is the opaque `InpaintControl`.
- `callback_pipe` and progress bars: no effect on state.
- `custom_task_model_loader`: building an auxiliary pipeline is a `BuildAux` op.
- `ad_model_process`: a detail-fix pass appears as an op plus a per-image `Fixed` marker.
- `process_images_high_resolution`: it is not modelled; a hires pass appears as an op plus an `Upscaled` marker, and the loop checks only that an upscaler is set.
- `save_pil_image_with_metadata`: a saved path is the image with its metadata.
- `apply_style` and `load_style_file`: style prompts are outside this model.
- mediapy display, logging and `styles_data`: presentation only.
- Mutation of the caller's default dictionaries: the detail-fix parameter dicts are values, so changes the source makes to caller-owned dicts are not visible to the caller here.
- Aliasing between the active pipeline and remembered pipelines: shared identity is the `serial`, and only the lineart ControlNet swap writes through it; no other change to a pipeline object is modelled.
- Exceptions inside the first `load_pipe` of `__init__`: the constructor keeps the state after a failed load instead of propagating the error.
- Random numbers: `random.randint` is an input sequence of draws.
- Call.OverrideSampler: a detail-fix sampler parameter that is not a string is looked up as the empty name, so the error names `""` where `get_scheduler` puts the value itself into its message (stablepy/diffusers_vanilla/model.py:905); non-string names are not represented.
- Call.RunLoopLast: the loop is modelled as stopping at the first failing iteration, the way a raised exception ends `__call__`.
