/** The per-request values of `Model_Diffusers.__call__`: the argument
    checks, the prompt choice of the detail-fix and hires passes, seeds and
    generators, the detail-fix parameter defaults, and one iteration of the
    generation loop with its image list. */
module Request {
  import opened Basics
  import opened Tables
  import opened Detectors
  import opened Session

  /** The largest seed `random.randint(0, 2147483647)` draws. */
  const MAX_SEED := 2147483647

  /* ---------------------------------------------------------------- */
  /* Argument checks                                                   */
  /* ---------------------------------------------------------------- */

  /** A size that is not a multiple of 8 is raised to the next one. */
  function RoundUpTo8(x: int): (r: int)
    ensures r % 8 == 0
    ensures x <= r < x + 8
    ensures x % 8 == 0 ==> r == x
  {
    if x % 8 != 0 then x + (8 - x % 8) else x
  }

  /** No multiple of 8 lies between an input and its rounded value: a
      corollary of the contract of `RoundUpTo8`, stated for readers. */
  lemma RoundUpTo8Least(x: int, m: int)
    requires m % 8 == 0 && x <= m
    ensures RoundUpTo8(x) <= m
  {
  }

  datatype Geometry = Geometry(height: int, width: int, imageResolution: int, guidanceStart: real, guidanceEnd: real)

  /** Every task but txt2img needs a reference image; sizes are rounded up
      to multiples of 8; an empty or inverted ControlNet guidance window is
      replaced by the whole run. */
  function Validate(taskName: string, hasImage: bool, g: Geometry): (r: Result<Geometry, Error>)
    ensures r.Err? <==> taskName != "txt2img" && !hasImage
    ensures r.Err? ==> r.error == MissingImage
    ensures r.Ok? ==>
      && r.value.height % 8 == 0 && g.height <= r.value.height < g.height + 8
      && r.value.width % 8 == 0 && g.width <= r.value.width < g.width + 8
      && r.value.imageResolution % 8 == 0 && g.imageResolution <= r.value.imageResolution < g.imageResolution + 8
      && r.value.guidanceStart < r.value.guidanceEnd
      && (g.guidanceStart < g.guidanceEnd ==>
            r.value.guidanceStart == g.guidanceStart && r.value.guidanceEnd == g.guidanceEnd)
      && (g.guidanceStart >= g.guidanceEnd ==> r.value.guidanceStart == 0.0 && r.value.guidanceEnd == 1.0)
  {
    if taskName != "txt2img" && !hasImage then Err(MissingImage)
    else
      var window := if g.guidanceStart >= g.guidanceEnd then (0.0, 1.0) else (g.guidanceStart, g.guidanceEnd);
      Ok(Geometry(RoundUpTo8(g.height), RoundUpTo8(g.width), RoundUpTo8(g.imageResolution), window.0, window.1))
  }

  /* ---------------------------------------------------------------- */
  /* process_prompts_valid                                             */
  /* ---------------------------------------------------------------- */

  datatype ValidPrompts = ValidPrompts(promptEmpty: bool, negativeEmpty: bool, prompt: string, negativePrompt: string)

  predicate Blank(p: Option<string>) {
    p.None? || p.value == ""
  }

  /** A stage-specific prompt that is missing or empty falls back to the
      main prompt; otherwise it is used as given. */
  function ProcessPromptsValid(specific: Option<string>, specificNegative: Option<string>,
                               prompt: string, negativePrompt: string): (r: ValidPrompts)
    ensures r.promptEmpty <==> Blank(specific)
    ensures r.negativeEmpty <==> Blank(specificNegative)
    ensures r.promptEmpty ==> r.prompt == prompt
    ensures !r.promptEmpty ==> r.prompt == specific.value && r.prompt != ""
    ensures r.negativeEmpty ==> r.negativePrompt == negativePrompt
    ensures !r.negativeEmpty ==> r.negativePrompt == specificNegative.value && r.negativePrompt != ""
  {
    var pe := Blank(specific);
    var ne := Blank(specificNegative);
    ValidPrompts(pe, ne, if pe then prompt else specific.value, if ne then negativePrompt else specificNegative.value)
  }

  /** A stage computes its own prompt embeddings unless both of its prompts
      fall back to the main ones. */
  predicate NeedsOwnEmbeds(v: ValidPrompts) {
    !(v.promptEmpty && v.negativeEmpty)
  }

  /** When a stage reuses the main embeddings, its prompts are the main ones. */
  lemma SharedEmbedsMeanSamePrompts(specific: Option<string>, specificNegative: Option<string>,
                                    prompt: string, negativePrompt: string)
    ensures var v := ProcessPromptsValid(specific, specificNegative, prompt, negativePrompt);
      !NeedsOwnEmbeds(v) ==> v.prompt == prompt && v.negativePrompt == negativePrompt
  {
  }

  /* ---------------------------------------------------------------- */
  /* Seeds and generators                                              */
  /* ---------------------------------------------------------------- */

  function Max0(n: int): nat {
    if n < 0 then 0 else n
  }

  /** Draws from `random.randint(0, MAX_SEED)`. */
  predicate ValidDraws(draws: seq<int>) {
    forall k | 0 <= k < |draws| :: 0 <= draws[k] <= MAX_SEED
  }

  /** The seeds of one iteration: all drawn when the seed is -1, otherwise
      the given seed followed by draws for the remaining images. */
  function SeedList(seed: int, numImages: int, draws: seq<int>): (r: seq<int>)
    requires |draws| >= numImages
    ensures seed == -1 ==> |r| == Max0(numImages)
    ensures seed != -1 ==> |r| == 1 + Max0(numImages - 1) && r[0] == seed
    ensures forall k | 0 <= k < |r| :: r[k] == (if seed != -1 && k == 0 then seed else draws[if seed == -1 then k else k - 1])
    ensures ValidDraws(draws) && (seed == -1 || 0 <= seed <= MAX_SEED) ==> forall k | 0 <= k < |r| :: 0 <= r[k] <= MAX_SEED
  {
    if seed == -1 then draws[..Max0(numImages)]
    else if numImages == 1 then [seed]
    else [seed] + draws[..Max0(numImages - 1)]
  }

  /** The seeds drawn in a loop, as the list comprehension does. */
  method DrawSeeds(seed: int, numImages: int, draws: seq<int>) returns (seeds: seq<int>)
    requires |draws| >= numImages
    ensures seeds == SeedList(seed, numImages, draws)
  {
    var count := if seed == -1 then Max0(numImages) else Max0(numImages - 1);
    seeds := if seed == -1 then [] else [seed];
    var i := 0;
    while i < count
      invariant 0 <= i <= count
      invariant seeds == (if seed == -1 then [] else [seed]) + draws[..i]
    {
      seeds := seeds + [draws[i]];
      i := i + 1;
    }
    assert draws[..count] == draws[..i];
  }

  /** One generator per seed, on the GPU unless the CPU is requested, there
      is no GPU, or creating a GPU generator fails. */
  function Generators(seeds: seq<int>, onCpu: bool, cudaFails: bool): (r: seq<Generator>)
    ensures |r| == |seeds|
    ensures forall k | 0 <= k < |r| :: r[k].seed == seeds[k] && (r[k].onCuda <==> !onCpu && !cudaFails)
  {
    seq(|seeds|, k requires 0 <= k < |seeds| => Generator(seeds[k], !onCpu && !cudaFails))
  }

  method MakeGenerators(seeds: seq<int>, onCpu: bool, cudaFails: bool) returns (gens: seq<Generator>)
    ensures gens == Generators(seeds, onCpu, cudaFails)
  {
    gens := [];
    for i := 0 to |seeds|
      invariant gens == Generators(seeds[..i], onCpu, cudaFails)
    {
      var g := if onCpu || cudaFails then Generator(seeds[i], false) else Generator(seeds[i], true);
      gens := gens + [g];
    }
    assert seeds[..|seeds|] == seeds;
  }

  function Repeat(x: int, n: int): (r: seq<int>)
    ensures |r| == Max0(n) && forall k | 0 <= k < |r| :: r[k] == x
  {
    seq(Max0(n), _ => x)
  }

  /* ---------------------------------------------------------------- */
  /* Detail-fix parameters                                             */
  /* ---------------------------------------------------------------- */

  /** A dictionary value, tagged with its Python type. */
  datatype Param = PBool(b: bool) | PInt(i: int) | PFloat(f: real) | PStr(s: string) | PNone

  /** `type(a) == type(b)`. */
  predicate SameType(a: Param, b: Param) {
    match a
    case PBool(_) => b.PBool?
    case PInt(_) => b.PInt?
    case PFloat(_) => b.PFloat?
    case PStr(_) => b.PStr?
    case PNone => b.PNone?
  }

  /** `p == True`: booleans, and the numbers equal to 1. */
  predicate IsTrue(p: Param) {
    p == PBool(true) || p == PInt(1) || p == PFloat(1.0)
  }

  function GetParam(params: map<string, Param>, key: string, default: Param): Param {
    if key in params then params[key] else default
  }

  /** The defaults every detail-fix pass starts from. */
  const DETAILFIX_DEFAULTS: map<string, Param> := map[
    "face_detector_ad" := PBool(true),
    "person_detector_ad" := PBool(true),
    "hand_detector_ad" := PBool(false),
    "prompt" := PStr(""),
    "negative_prompt" := PStr(""),
    "strength" := PFloat(0.35),
    "mask_dilation" := PInt(4),
    "mask_blur" := PInt(4),
    "mask_padding" := PInt(32)
  ]

  /** The order in which the defaults are applied. */
  const DETAILFIX_ORDER: seq<string> := [
    "face_detector_ad", "person_detector_ad", "hand_detector_ad", "prompt", "negative_prompt",
    "strength", "mask_dilation", "mask_blur", "mask_padding"
  ]

  /** A default replaces a missing value and any value of another type. */
  function Resolve(params: map<string, Param>, key: string, default: Param): Param {
    if key in params && SameType(default, params[key]) then params[key] else default
  }

  /** The parameters with the defaults applied to the keys in `keys`. */
  function DefaultsOver(params: map<string, Param>, keys: set<string>): map<string, Param>
    requires keys <= DETAILFIX_DEFAULTS.Keys
  {
    map k | k in params.Keys + keys :: if k in keys then Resolve(params, k, DETAILFIX_DEFAULTS[k]) else params[k]
  }

  function WithDefaults(params: map<string, Param>): map<string, Param> {
    DefaultsOver(params, DETAILFIX_DEFAULTS.Keys)
  }

  /** Every default key is present with a value of the default's type; a
      well-typed value given by the caller is kept; other keys pass through. */
  lemma WithDefaultsTyped(params: map<string, Param>)
    ensures var f := WithDefaults(params);
      && f.Keys == params.Keys + DETAILFIX_DEFAULTS.Keys
      && (forall k | k in DETAILFIX_DEFAULTS :: SameType(DETAILFIX_DEFAULTS[k], f[k]))
      && (forall k | k in DETAILFIX_DEFAULTS && k in params && SameType(DETAILFIX_DEFAULTS[k], params[k]) :: f[k] == params[k])
      && (forall k | k in DETAILFIX_DEFAULTS && (k !in params || !SameType(DETAILFIX_DEFAULTS[k], params[k])) ::
            f[k] == DETAILFIX_DEFAULTS[k])
      && (forall k | k in params && k !in DETAILFIX_DEFAULTS :: f[k] == params[k])
  {
  }

  /** Applying the defaults twice is applying them once. */
  lemma WithDefaultsIdempotent(params: map<string, Param>)
    ensures WithDefaults(WithDefaults(params)) == WithDefaults(params)
  {
    WithDefaultsTyped(params);
    WithDefaultsTyped(WithDefaults(params));
  }

  function SetOf(keys: seq<string>): set<string> {
    set k | k in keys
  }

  lemma OrderCoversDefaults()
    ensures SetOf(DETAILFIX_ORDER) == DETAILFIX_DEFAULTS.Keys
  {
  }

  /** Applying the default of one more key to a dictionary that already has
      the defaults of `keys` applied. */
  lemma DefaultsOverStep(params: map<string, Param>, keys: set<string>, key: string)
    requires keys <= DETAILFIX_DEFAULTS.Keys && key in DETAILFIX_DEFAULTS && key !in keys
    ensures var f := DefaultsOver(params, keys);
      var default := DETAILFIX_DEFAULTS[key];
      DefaultsOver(params, keys + {key}) == if key !in f || !SameType(default, f[key]) then f[key := default] else f
  {
    var f := DefaultsOver(params, keys);
    var g := DefaultsOver(params, keys + {key});
    var default := DETAILFIX_DEFAULTS[key];
    var h := if key !in f || !SameType(default, f[key]) then f[key := default] else f;
    assert g.Keys == h.Keys;
    forall k | k in g.Keys ensures g[k] == h[k] {
    }
  }

  /** The dictionary after the default of `key` is applied to it. */
  function ApplyDefault(f: map<string, Param>, key: string): map<string, Param>
    requires key in DETAILFIX_DEFAULTS
  {
    var default := DETAILFIX_DEFAULTS[key];
    if key !in f || !SameType(default, f[key]) then f[key := default] else f
  }

  /** The first `i` keys of the order, with the defaults of those keys applied. */
  lemma FillDefaultsStep(params: map<string, Param>, i: nat)
    requires i < |DETAILFIX_ORDER|
    ensures SetOf(DETAILFIX_ORDER[..i]) <= DETAILFIX_DEFAULTS.Keys
    ensures DETAILFIX_ORDER[i] in DETAILFIX_DEFAULTS
    ensures SetOf(DETAILFIX_ORDER[..i + 1]) <= DETAILFIX_DEFAULTS.Keys
    ensures DefaultsOver(params, SetOf(DETAILFIX_ORDER[..i + 1]))
         == ApplyDefault(DefaultsOver(params, SetOf(DETAILFIX_ORDER[..i])), DETAILFIX_ORDER[i])
  {
    OrderCoversDefaults();
    var key := DETAILFIX_ORDER[i];
    assert DETAILFIX_ORDER[..i + 1] == DETAILFIX_ORDER[..i] + [key];
    assert SetOf(DETAILFIX_ORDER[..i + 1]) == SetOf(DETAILFIX_ORDER[..i]) + {key};
    assert key !in SetOf(DETAILFIX_ORDER[..i]);
    DefaultsOverStep(params, SetOf(DETAILFIX_ORDER[..i]), key);
  }

  /** The loop over the defaults, updating the dictionary key by key. */
  method FillDefaults(params: map<string, Param>) returns (filled: map<string, Param>)
    ensures filled == WithDefaults(params)
  {
    filled := params;
    assert filled == DefaultsOver(params, SetOf(DETAILFIX_ORDER[..0]));
    for i := 0 to |DETAILFIX_ORDER|
      invariant SetOf(DETAILFIX_ORDER[..i]) <= DETAILFIX_DEFAULTS.Keys
      invariant filled == DefaultsOver(params, SetOf(DETAILFIX_ORDER[..i]))
    {
      FillDefaultsStep(params, i);
      var key := DETAILFIX_ORDER[i];
      var default := DETAILFIX_DEFAULTS[key];
      if key !in filled || !SameType(default, filled[key]) {
        filled := filled[key := default];
      }
    }
    OrderCoversDefaults();
    assert DETAILFIX_ORDER[..|DETAILFIX_ORDER|] == DETAILFIX_ORDER;
  }

  function ParamText(p: Param): string {
    if p.PStr? then p.s else ""
  }

  /** What a detail-fix pass runs with: its prompts, its strength, and the
      detector parameters left once the pipeline parameters are taken out. */
  datatype DetailSettings = DetailSettings(prompts: ValidPrompts, strength: Param, detectorParams: map<string, Param>)

  function DetailSettingsFor(params: map<string, Param>, prompt: string, negativePrompt: string): DetailSettings {
    var f := WithDefaults(params);
    WithDefaultsTyped(params);
    DetailSettings(
      ProcessPromptsValid(Some(ParamText(f["prompt"])), Some(ParamText(f["negative_prompt"])), prompt, negativePrompt),
      f["strength"],
      f - {"prompt", "negative_prompt", "strength"})
  }

  /** A pass without its own prompts reuses the main ones; a mistyped
      strength becomes 0.35; the detector keys always carry a value. */
  lemma DetailSettingsDefaults(params: map<string, Param>, prompt: string, negativePrompt: string)
    ensures var d := DetailSettingsFor(params, prompt, negativePrompt);
      && ("prompt" !in params ==> d.prompts.promptEmpty && d.prompts.prompt == prompt)
      && ("negative_prompt" !in params ==> d.prompts.negativeEmpty && d.prompts.negativePrompt == negativePrompt)
      && (("strength" !in params || !params["strength"].PFloat?) ==> d.strength == PFloat(0.35))
      && ("strength" in params && params["strength"].PFloat? ==> d.strength == params["strength"])
      && (forall k | k in DETAILFIX_DEFAULTS && k !in {"prompt", "negative_prompt", "strength"} :: k in d.detectorParams)
      && "prompt" !in d.detectorParams && "strength" !in d.detectorParams
  {
    WithDefaultsTyped(params);
  }

  /* ---------------------------------------------------------------- */
  /* One iteration of the generation loop                              */
  /* ---------------------------------------------------------------- */

  /** The tasks whose results are preceded by the control image. */
  predicate ControlTask(task: string) {
    task !in ["txt2img", "inpaint", "img2img"]
  }

  datatype Image =
    | Frame(control: ControlImage)
    | Generated(iteration: nat, index: nat)
    | Fixed(pass: DetailPass, source: Image)
    | Upscaled(source: Image)

  datatype Metadata = Metadata(
    prompt: string, negativePrompt: string, baseModelId: string, vaeModel: Option<string>,
    numSteps: int, guidanceScale: real, sampler: string, seed: int, width: int, height: int, clipSkip: bool)

  /** An entry of `image_list`: "not saved in storage", or the file written
      for an image with its metadata. */
  datatype ImagePath = NotSaved | SavedAs(image: Image, metadata: Metadata)

  /** What one call of the pipeline does: produce its images, or raise. */
  datatype Attempt = Produced | Raised(message: string)

  /** The inputs of one iteration that come from outside: the random draws
      and what the denoising call and its DDIM retry do. */
  datatype IterationInput = IterationInput(draws: seq<int>, first: Attempt, retry: Attempt)

  /** What every iteration of one call shares. */
  datatype LoopContext = LoopContext(
    task: string, seed: int, numImages: int, onCpu: bool, cudaGeneratorFails: bool,
    control: ControlImage, baseline: nat,
    detailA: bool, detailB: bool, detailAux: nat,
    upscale: bool, hiresRefine: bool, hiresBefore: bool, hiresAfter: bool,
    save: bool, metadata: Metadata)

  datatype Frames = Frames(images: seq<Image>, paths: seq<ImagePath>, seeds: seq<int>)

  datatype IterationOut = IterationOut(ops: seq<Op>, result: Result<Frames, Error>)

  const UNSTABLE_SAMPLER := "Tensor with 2 elements cannot be converted to Scalar"
  const DEGENERATE_OUTPUT := "The size of tensor a (0) must match the size of tensor b (3) at non-singleton"

  /** The images the pipeline returns, preceded by the control image for the
      control tasks. */
  function Framed(ctx: LoopContext, images: seq<Image>): seq<Image> {
    if ControlTask(ctx.task) then [Frame(ctx.control)] + images else images
  }

  function Batch(iteration: nat, numImages: int): (r: seq<Image>)
    ensures |r| == Max0(numImages)
  {
    seq(Max0(numImages), (k: int) requires 0 <= k => Generated(iteration, k))
  }

  /** The denoising call: on the unstable-sampler error switch the pipeline
      to DDIM over the base scheduler and try exactly once more (a failure
      of the retry is passed on as raised); a degenerate-output error and any
      other error become ValueErrors. The pipeline runs first, and runs a
      second time exactly after the unstable-sampler error. */
  function DenoiseStep(iteration: nat, ctx: LoopContext, it: IterationInput, gens: seq<Generator>): (r: (seq<Op>, Result<seq<Image>, Error>))
    ensures |r.0| > 0 && r.0[0] == Denoise(gens)
    ensures |r.0| == 3 <==> it.first.Raised? && Contains(it.first.message, UNSTABLE_SAMPLER)
    ensures |r.0| == 1 || |r.0| == 3
  {
    var images := Framed(ctx, Batch(iteration, ctx.numImages));
    match it.first
    case Produced => ([Denoise(gens)], Ok(images))
    case Raised(m) =>
      if Contains(m, UNSTABLE_SAMPLER) then
        var ops := [Denoise(gens), SetScheduler(Scheduler(DDIM, ctx.baseline, map[])), Denoise(gens)];
        match it.retry
        case Produced => (ops, Ok(images))
        case Raised(m2) => (ops, Err(RetryFailed(m2)))
      else if Contains(m, DEGENERATE_OUTPUT) then ([Denoise(gens)], Err(StepsOrStrengthTooLow))
      else ([Denoise(gens)], Err(GenerationFailed(m)))
  }

  function MapUpscaled(images: seq<Image>): (r: seq<Image>)
    ensures |r| == |images|
  {
    seq(|images|, k requires 0 <= k < |images| => Upscaled(images[k]))
  }

  function MapFixed(pass: DetailPass, images: seq<Image>): (r: seq<Image>)
    ensures |r| == |images|
  {
    seq(|images|, k requires 0 <= k < |images| => Fixed(pass, images[k]))
  }

  /** The hires pass, seeded with the first generator. */
  function HiresStep(ctx: LoopContext, gens: seq<Generator>, images: seq<Image>): (seq<Op>, Result<seq<Image>, Error>) {
    if |gens| == 0 then ([], Err(NoSeeds))
    else ([Upscale(ctx.hiresRefine, gens[0])], Ok(MapUpscaled(images)))
  }

  /** The detail-fix passes run over the generated images only: the control
      image is taken off before and put back (unchanged) after. */
  function DetailStep(ctx: LoopContext, images: seq<Image>): (seq<Op>, seq<Image>) {
    var body := if ControlTask(ctx.task) && |images| > 0 then images[1..] else images;
    var a := if ctx.detailA then MapFixed(PassA, body) else body;
    var b := if ctx.detailB then MapFixed(PassB, a) else a;
    var ops := (if ctx.detailA then [DetailFix(PassA, ctx.detailAux)] else [])
               + (if ctx.detailB then [DetailFix(PassB, ctx.detailAux)] else []);
    (ops, if ControlTask(ctx.task) then [Frame(ctx.control)] + b else b)
  }

  /** `image_list`: one entry per (image, seed) pair, "not saved" unless
      saving is on, in which case the image is written with its seed. */
  function ImageList(images: seq<Image>, seeds: seq<int>, save: bool, meta: Metadata): (r: seq<ImagePath>)
    ensures |r| == if |images| < |seeds| then |images| else |seeds|
    ensures forall k | 0 <= k < |r| :: r[k] == if save then SavedAs(images[k], meta.(seed := seeds[k])) else NotSaved
  {
    var n := if |images| < |seeds| then |images| else |seeds|;
    seq(n, k requires 0 <= k < n => if save then SavedAs(images[k], meta.(seed := seeds[k])) else NotSaved)
  }

  /** The loop over the zipped images and seeds. */
  method BuildImageList(images: seq<Image>, seeds: seq<int>, save: bool, meta: Metadata) returns (paths: seq<ImagePath>)
    ensures paths == ImageList(images, seeds, save, meta)
  {
    var n := if |images| < |seeds| then |images| else |seeds|;
    paths := [];
    var i := 0;
    while i < n
      invariant 0 <= i <= n
      invariant |paths| == i
      invariant forall k | 0 <= k < i :: paths[k] == if save then SavedAs(images[k], meta.(seed := seeds[k])) else NotSaved
    {
      var path := NotSaved;
      if save {
        path := SavedAs(images[i], meta.(seed := seeds[i]));
      }
      paths := paths + [path];
      i := i + 1;
    }
  }

  function SaveOps(paths: seq<ImagePath>): seq<Op>
    decreases |paths|
  {
    if paths == [] then []
    else (if paths[0].SavedAs? then [SaveImage(paths[0].metadata.seed)] else []) + SaveOps(paths[1..])
  }

  /** The seeds paired with the images: a 0 for the control image first. */
  function ValidSeeds(task: string, seeds: seq<int>): seq<int> {
    if ControlTask(task) then [0] + seeds else seeds
  }

  /** The seeds an iteration reports: for img2img the first seed repeated
      once per image, otherwise the drawn seeds. */
  function BatchSeeds(task: string, seeds: seq<int>, numImages: int): seq<int>
    requires task == "img2img" ==> |seeds| > 0
  {
    if task == "img2img" then Repeat(seeds[0], numImages) else seeds
  }

  /** One iteration: seeds, generators, denoising with its retry, then the
      passes over the images. It starts with a denoising run, unless img2img
      has no seed to give the pipeline, which fails before logging anything. */
  function Iteration(iteration: nat, ctx: LoopContext, it: IterationInput): (r: IterationOut)
    requires |it.draws| >= ctx.numImages
    ensures r.ops == [] <==> ctx.task == "img2img" && |SeedList(ctx.seed, ctx.numImages, it.draws)| == 0
    ensures r.ops == [] ==> r.result == Err(NoSeeds)
    ensures r.ops != [] ==> r.ops[0].Denoise?
  {
    var seeds := SeedList(ctx.seed, ctx.numImages, it.draws);
    var gens := Generators(seeds, ctx.onCpu, ctx.cudaGeneratorFails);
    if ctx.task == "img2img" && |gens| == 0 then IterationOut([], Err(NoSeeds))
    else
      var pipeGens := if ctx.task == "img2img" then [gens[0]] else gens;
      var d := DenoiseStep(iteration, ctx, it, pipeGens);
      if d.1.Err? then IterationOut(d.0, Err(d.1.error))
      else
        var rest := Postprocess(ctx, seeds, gens, d.1.value);
        IterationOut(d.0 + rest.ops, rest.result)
  }

  /** The passes after denoising: the hires pass before and/or after the
      detail-fix passes, then the image list. */
  function Postprocess(ctx: LoopContext, seeds: seq<int>, gens: seq<Generator>, images: seq<Image>): IterationOut
    requires ctx.task == "img2img" ==> |seeds| > 0
  {
    var p := Refine(ctx, gens, images);
    if p.1.Err? then IterationOut(p.0, Err(p.1.error))
    else
      var batchSeeds := BatchSeeds(ctx.task, seeds, ctx.numImages);
      var paths := ImageList(p.1.value, ValidSeeds(ctx.task, batchSeeds), ctx.save, ctx.metadata);
      var ops := p.0 + SaveOps(paths);
      if |paths| == 0 then IterationOut(ops, Err(NoImages))
      else IterationOut(ops, Ok(Frames(p.1.value, paths, batchSeeds)))
  }

  /** The hires pass before the detail-fix passes, the detail-fix passes,
      and the hires pass after them, each when enabled. */
  function Refine(ctx: LoopContext, gens: seq<Generator>, images: seq<Image>): (seq<Op>, Result<seq<Image>, Error>) {
    var h1 := if ctx.hiresBefore && ctx.upscale then HiresStep(ctx, gens, images) else ([], Ok(images));
    if h1.1.Err? then (h1.0, Err(h1.1.error))
    else
      var df := if ctx.detailA || ctx.detailB then DetailStep(ctx, h1.1.value) else ([], h1.1.value);
      var h2 := if ctx.hiresAfter && ctx.upscale then HiresStep(ctx, gens, df.1) else ([], Ok(df.1));
      (h1.0 + df.0 + h2.0, h2.1)
  }

  /* ---------------------------------------------------------------- */
  /* Properties of one iteration                                       */
  /* ---------------------------------------------------------------- */

  /** The pipeline output an image was derived from. */
  function Origin(img: Image): Image {
    match img
    case Fixed(_, x) => Origin(x)
    case Upscaled(x) => Origin(x)
    case _ => img
  }

  function Offset(ctx: LoopContext): nat {
    if ControlTask(ctx.task) then 1 else 0
  }

  /** The images of an iteration, in order: the control image first for the
      control tasks, then one image per requested image, each derived from
      the pipeline output at its position. */
  ghost predicate Traces(images: seq<Image>, ctx: LoopContext, iteration: nat) {
    && |images| == Offset(ctx) + Max0(ctx.numImages)
    && (ControlTask(ctx.task) ==> Origin(images[0]) == Frame(ctx.control))
    && forall k | Offset(ctx) <= k < |images| :: Origin(images[k]) == Generated(iteration, k - Offset(ctx))
  }

  lemma FramedTraces(iteration: nat, ctx: LoopContext)
    ensures Traces(Framed(ctx, Batch(iteration, ctx.numImages)), ctx, iteration)
  {
  }

  lemma UpscaledTraces(images: seq<Image>, ctx: LoopContext, iteration: nat)
    requires Traces(images, ctx, iteration)
    ensures Traces(MapUpscaled(images), ctx, iteration)
  {
    var u := MapUpscaled(images);
    forall k | 0 <= k < |u| ensures Origin(u[k]) == Origin(images[k]) {
      assert u[k] == Upscaled(images[k]);
    }
  }

  lemma FixedOrigins(pass: DetailPass, images: seq<Image>)
    ensures forall k | 0 <= k < |images| :: Origin(MapFixed(pass, images)[k]) == Origin(images[k])
  {
    forall k | 0 <= k < |images| ensures Origin(MapFixed(pass, images)[k]) == Origin(images[k]) {
      assert MapFixed(pass, images)[k] == Fixed(pass, images[k]);
    }
  }

  /** The detail-fix passes keep the control image in front, untouched. */
  lemma DetailStepTraces(images: seq<Image>, ctx: LoopContext, iteration: nat)
    requires Traces(images, ctx, iteration)
    ensures Traces(DetailStep(ctx, images).1, ctx, iteration)
    ensures ControlTask(ctx.task) ==> DetailStep(ctx, images).1[0] == Frame(ctx.control)
  {
    var body := if ControlTask(ctx.task) && |images| > 0 then images[1..] else images;
    var a := if ctx.detailA then MapFixed(PassA, body) else body;
    var b := if ctx.detailB then MapFixed(PassB, a) else a;
    FixedOrigins(PassA, body);
    FixedOrigins(PassB, a);
    assert forall k | 0 <= k < |b| :: Origin(b[k]) == Origin(body[k]);
    var out := DetailStep(ctx, images).1;
    assert out == if ControlTask(ctx.task) then [Frame(ctx.control)] + b else b;
    forall k | Offset(ctx) <= k < |out| ensures Origin(out[k]) == Generated(iteration, k - Offset(ctx)) {
      assert out[k] == b[k - Offset(ctx)];
      assert body[k - Offset(ctx)] == images[k];
    }
  }

  /** The scheduler is switched, to DDIM over the base scheduler, exactly
      when the first attempt raised the unstable-sampler error, and then the
      pipeline runs a second and last time; the call succeeds exactly when
      the last run produced images, which are the images of this iteration.
      A first failure without the retry is reported by its kind. */
  lemma DenoiseStepRetry(iteration: nat, ctx: LoopContext, it: IterationInput, gens: seq<Generator>)
    ensures var d := DenoiseStep(iteration, ctx, it, gens);
      var unstable := it.first.Raised? && Contains(it.first.message, UNSTABLE_SAMPLER);
      var ddim := SetScheduler(Scheduler(DDIM, ctx.baseline, map[]));
      && d.0[0] == Denoise(gens)
      && (forall op | op in d.0 :: op == Denoise(gens) || op == ddim)
      && (ddim in d.0 <==> unstable)
      && multiset(d.0)[Denoise(gens)] == (if unstable then 2 else 1)
      && (d.1.Ok? <==> it.first.Produced? || (unstable && it.retry.Produced?))
      && (d.1.Ok? ==> d.1.value == Framed(ctx, Batch(iteration, ctx.numImages)) && Traces(d.1.value, ctx, iteration))
      && (d.1.Err? && unstable ==> d.1.error == RetryFailed(it.retry.message))
      && (d.1.Err? && !unstable ==>
            d.1.error == if Contains(it.first.message, DEGENERATE_OUTPUT) then StepsOrStrengthTooLow
                         else GenerationFailed(it.first.message))
  {
    FramedTraces(iteration, ctx);
    var d := DenoiseStep(iteration, ctx, it, gens);
    var ddim := SetScheduler(Scheduler(DDIM, ctx.baseline, map[]));
    if it.first.Raised? && Contains(it.first.message, UNSTABLE_SAMPLER) {
      assert d.0 == [Denoise(gens)] + [ddim] + [Denoise(gens)];
      assert multiset(d.0) == multiset{Denoise(gens), ddim, Denoise(gens)};
    } else {
      assert d.0 == [Denoise(gens)];
    }
  }

  /** The passes after denoising keep every image's origin, and a
      successful result pairs each image with its seed. */
  lemma PostprocessShape(iteration: nat, ctx: LoopContext, seeds: seq<int>, gens: seq<Generator>, images: seq<Image>)
    requires ctx.task == "img2img" ==> |seeds| > 0
    requires Traces(images, ctx, iteration)
    requires |ValidSeeds(ctx.task, BatchSeeds(ctx.task, seeds, ctx.numImages))| == |images|
    ensures var out := Postprocess(ctx, seeds, gens, images);
      out.result.Ok? ==>
        var f := out.result.value;
        && Traces(f.images, ctx, iteration)
        && f.seeds == BatchSeeds(ctx.task, seeds, ctx.numImages)
        && f.paths == ImageList(f.images, ValidSeeds(ctx.task, f.seeds), ctx.save, ctx.metadata)
  {
    RefineTraces(iteration, ctx, gens, images);
  }

  /** The passes keep the images traceable to this iteration, one per image
      and the control image first. */
  lemma RefineTraces(iteration: nat, ctx: LoopContext, gens: seq<Generator>, images: seq<Image>)
    requires Traces(images, ctx, iteration)
    ensures var p := Refine(ctx, gens, images);
      p.1.Ok? ==> Traces(p.1.value, ctx, iteration)
  {
    var h1 := if ctx.hiresBefore && ctx.upscale then HiresStep(ctx, gens, images) else ([], Ok(images));
    if ctx.hiresBefore && ctx.upscale { UpscaledTraces(images, ctx, iteration); }
    if h1.1.Ok? {
      var i1 := h1.1.value;
      var df := if ctx.detailA || ctx.detailB then DetailStep(ctx, i1) else ([], i1);
      if ctx.detailA || ctx.detailB { DetailStepTraces(i1, ctx, iteration); }
      var i2 := df.1;
      if ctx.hiresAfter && ctx.upscale { UpscaledTraces(i2, ctx, iteration); }
    }
  }

  /** A successful iteration returns its images in order (the control image
      first for the control tasks), one image-list entry per image whose
      seed is the image's seed (0 for the control image), and the seeds it
      drew, collapsed to the first seed for img2img. */
  lemma IterationShape(iteration: nat, ctx: LoopContext, it: IterationInput)
    requires |it.draws| >= ctx.numImages
    requires ctx.numImages >= 1
    ensures var out := Iteration(iteration, ctx, it);
      var seeds := SeedList(ctx.seed, ctx.numImages, it.draws);
      out.result.Ok? ==>
        var f := out.result.value;
        && Traces(f.images, ctx, iteration)
        && |f.seeds| == ctx.numImages
        && (ctx.task == "img2img" ==> f.seeds == Repeat(seeds[0], ctx.numImages))
        && (ctx.task != "img2img" ==> f.seeds == seeds)
        && |f.paths| == |f.images|
        && (forall k | 0 <= k < |f.paths| ::
              f.paths[k] == if ctx.save then SavedAs(f.images[k], ctx.metadata.(seed := ValidSeeds(ctx.task, f.seeds)[k])) else NotSaved)
        && (ControlTask(ctx.task) && ctx.save ==> f.paths[0].metadata.seed == 0)
  {
    var out := Iteration(iteration, ctx, it);
    if out.result.Ok? {
      var seeds := SeedList(ctx.seed, ctx.numImages, it.draws);
      var gens := Generators(seeds, ctx.onCpu, ctx.cudaGeneratorFails);
      var pipeGens := if ctx.task == "img2img" then [gens[0]] else gens;
      var d := DenoiseStep(iteration, ctx, it, pipeGens);
      DenoiseStepRetry(iteration, ctx, it, pipeGens);
      FramedTraces(iteration, ctx);
      var batchSeeds := BatchSeeds(ctx.task, seeds, ctx.numImages);
      assert |ValidSeeds(ctx.task, batchSeeds)| == |d.1.value|;
      PostprocessShape(iteration, ctx, seeds, gens, d.1.value);
    }
  }

  /** img2img hands the pipeline only the first generator, and the iteration
      reports the first seed once per image. */
  lemma Img2ImgSingleGenerator(iteration: nat, ctx: LoopContext, it: IterationInput)
    requires |it.draws| >= ctx.numImages
    requires ctx.task == "img2img"
    ensures var out := Iteration(iteration, ctx, it);
      var seeds := SeedList(ctx.seed, ctx.numImages, it.draws);
      var gens := Generators(seeds, ctx.onCpu, ctx.cudaGeneratorFails);
      && (|seeds| == 0 ==> out == IterationOut([], Err(NoSeeds)))
      && (|seeds| > 0 ==> out.ops[0] == Denoise([gens[0]]) && gens[0].seed == seeds[0])
      && (out.result.Ok? ==> forall k | 0 <= k < |out.result.value.seeds| :: out.result.value.seeds[k] == seeds[0])
  {
    var seeds := SeedList(ctx.seed, ctx.numImages, it.draws);
    var gens := Generators(seeds, ctx.onCpu, ctx.cudaGeneratorFails);
    if |seeds| > 0 {
      var d := DenoiseStep(iteration, ctx, it, [gens[0]]);
      DenoiseStepRetry(iteration, ctx, it, [gens[0]]);
      assert d.0[0] == Denoise([gens[0]]);
      var out := Iteration(iteration, ctx, it);
      assert out.ops[..|d.0|] == d.0;
      if out.result.Ok? {
        assert out.result.value.seeds == Repeat(seeds[0], ctx.numImages);
      }
    }
  }

  /** With no image requested, nothing is returned: txt2img, inpaint and
      img2img end in an error instead of an image list. img2img with a drawn
      seed has no generator to hand the pipeline; otherwise, once the
      pipeline has run and no hires pass needs a generator, the empty image
      list is what fails. */
  lemma IterationNoImages(iteration: nat, ctx: LoopContext, it: IterationInput)
    requires |it.draws| >= ctx.numImages
    requires ctx.numImages <= 0 && !ControlTask(ctx.task)
    ensures Iteration(iteration, ctx, it).result.Err?
    ensures ctx.task == "img2img" && ctx.seed == -1 ==> Iteration(iteration, ctx, it).result == Err(NoSeeds)
    ensures !(ctx.task == "img2img" && ctx.seed == -1) && it.first.Produced? && !ctx.upscale ==>
              Iteration(iteration, ctx, it).result == Err(NoImages)
  {
  }
}
