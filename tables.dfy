/** The static tables of the orchestration core and the sampler lookup
    built on them (module-level constants of diffusers_vanilla/model.py). */
module Tables {
  import opened Basics

  /** The two pipeline families the core knows, by their diffusers class names. */
  const SD_CLASS := "StableDiffusionPipeline"
  const SDXL_CLASS := "StableDiffusionXLPipeline"

  /** The VAE every SDXL load attaches. */
  const SDXL_VAE := "madebyollin/sdxl-vae-fp16-fix"

  /** The SDXL tasks served by a ControlNet; the other SDXL control tasks use a T2I adapter. */
  const XL_CONTROLNET_TASKS: seq<string> := ["openpose", "canny", "depth", "sdxl_tile_realistic", "pattern"]

  /** The sampler value meaning "keep the main pipeline's sampler". */
  const SAME_SAMPLER := "Use same sampler"

  /** The sampler names that carry an acceleration ("flash") LoRA. */
  const FLASH_SAMPLERS: seq<string> := ["TCD", "LCM"]

  /** A CONTROLNET_MODEL_IDS value: one repository id, or a two-element list
      whose first id serves SD 1.5 and whose second serves SDXL. */
  datatype ModelIdEntry = Single(id: string) | PerFamily(sd15: string, sdxl: string)

  const CONTROLNET_MODEL_IDS: map<string, ModelIdEntry> := map[
    "openpose" := PerFamily("lllyasviel/control_v11p_sd15_openpose", "OzzyGT/controlnet-openpose-sdxl-1.0"),
    "canny" := PerFamily("lllyasviel/control_v11p_sd15_canny", "diffusers/controlnet-canny-sdxl-1.0-mid"),
    "mlsd" := Single("lllyasviel/control_v11p_sd15_mlsd"),
    "scribble" := Single("lllyasviel/control_v11p_sd15_scribble"),
    "softedge" := Single("lllyasviel/control_v11p_sd15_softedge"),
    "segmentation" := Single("lllyasviel/control_v11p_sd15_seg"),
    "depth" := PerFamily("lllyasviel/control_v11f1p_sd15_depth", "diffusers/controlnet-depth-sdxl-1.0-mid"),
    "normalbae" := Single("lllyasviel/control_v11p_sd15_normalbae"),
    "lineart" := Single("lllyasviel/control_v11p_sd15_lineart"),
    "lineart_anime" := Single("lllyasviel/control_v11p_sd15s2_lineart_anime"),
    "shuffle" := Single("lllyasviel/control_v11e_sd15_shuffle"),
    "ip2p" := Single("lllyasviel/control_v11e_sd15_ip2p"),
    "inpaint" := Single("lllyasviel/control_v11p_sd15_inpaint"),
    "txt2img" := Single("Nothinghere"),
    "sdxl_canny_t2i" := Single("TencentARC/t2i-adapter-canny-sdxl-1.0"),
    "sdxl_sketch_t2i" := Single("TencentARC/t2i-adapter-sketch-sdxl-1.0"),
    "sdxl_lineart_t2i" := Single("TencentARC/t2i-adapter-lineart-sdxl-1.0"),
    "sdxl_depth-midas_t2i" := Single("TencentARC/t2i-adapter-depth-midas-sdxl-1.0"),
    "sdxl_openpose_t2i" := Single("TencentARC/t2i-adapter-openpose-sdxl-1.0"),
    "img2img" := Single("Nothinghere"),
    "pattern" := PerFamily("monster-labs/control_v1p_sd15_qrcode_monster", "r3gm/control_v1p_sdxl_qrcode_monster_fp16"),
    "sdxl_tile_realistic" := Single("OzzyGT/SDXL_Controlnet_Tile_Realistic")
  ]

  const T2I_PREPROCESSOR_NAME: map<string, string> := map[
    "sdxl_canny_t2i" := "Canny",
    "sdxl_openpose_t2i" := "Openpose",
    "sdxl_sketch_t2i" := "PidiNet",
    "sdxl_depth-midas_t2i" := "Midas",
    "sdxl_lineart_t2i" := "Lineart"
  ]

  const FLASH_LORA: map<string, map<string, string>> := map[
    SD_CLASS := map["LCM" := "latent-consistency/lcm-lora-sdv1-5", "TCD" := "h1t/TCD-SD15-LoRA"],
    SDXL_CLASS := map["LCM" := "latent-consistency/lcm-lora-sdxl", "TCD" := "h1t/TCD-SDXL-LoRA"]
  ]

  /** The scheduler classes SCHEDULER_CONFIG_MAP refers to. */
  datatype SchedulerKind =
    | DPMSolverMultistep | DPMSolverSinglestep | DPMSolverSDE
    | KDPM2Discrete | KDPM2AncestralDiscrete
    | EulerDiscrete | EulerAncestralDiscrete | HeunDiscrete | LMSDiscrete
    | DDIM | DEISMultistep | UniPCMultistep | PNDM
    | EDMEuler | EDMDPMSolverMultistep | DDPM | TCD | LCM

  /** A value in a configuration overlay. */
  datatype ConfigValue = Flag(b: bool) | Count(n: int) | Text(s: string)

  type Overlay = map<string, ConfigValue>

  const SCHEDULER_CONFIG_MAP: map<string, (SchedulerKind, Overlay)> := map[
    "DPM++ 2M" := (DPMSolverMultistep, map["use_karras_sigmas" := Flag(false)]),
    "DPM++ 2M Karras" := (DPMSolverMultistep, map["use_karras_sigmas" := Flag(true)]),
    "DPM++ 2M SDE" := (DPMSolverMultistep, map["use_karras_sigmas" := Flag(false), "algorithm_type" := Text("sde-dpmsolver++")]),
    "DPM++ 2M SDE Karras" := (DPMSolverMultistep, map["use_karras_sigmas" := Flag(true), "algorithm_type" := Text("sde-dpmsolver++")]),
    "DPM++ 2S" := (DPMSolverSinglestep, map["use_karras_sigmas" := Flag(false)]),
    "DPM++ 2S Karras" := (DPMSolverSinglestep, map["use_karras_sigmas" := Flag(true)]),
    "DPM++ 1S" := (DPMSolverMultistep, map["solver_order" := Count(1)]),
    "DPM++ 1S Karras" := (DPMSolverMultistep, map["solver_order" := Count(1), "use_karras_sigmas" := Flag(true)]),
    "DPM++ 3M" := (DPMSolverMultistep, map["solver_order" := Count(3)]),
    "DPM++ 3M Karras" := (DPMSolverMultistep, map["solver_order" := Count(3), "use_karras_sigmas" := Flag(true)]),
    "DPM++ SDE" := (DPMSolverSDE, map["use_karras_sigmas" := Flag(false)]),
    "DPM++ SDE Karras" := (DPMSolverSDE, map["use_karras_sigmas" := Flag(true)]),
    "KDPM2" := (KDPM2Discrete, map[]),
    "KDPM2 Karras" := (KDPM2Discrete, map["use_karras_sigmas" := Flag(true)]),
    "KDPM2 a" := (KDPM2AncestralDiscrete, map[]),
    "KDPM2 a Karras" := (KDPM2AncestralDiscrete, map["use_karras_sigmas" := Flag(true)]),
    "Euler" := (EulerDiscrete, map[]),
    "Euler a" := (EulerAncestralDiscrete, map[]),
    "Heun" := (HeunDiscrete, map[]),
    "Heun Karras" := (HeunDiscrete, map["use_karras_sigmas" := Flag(true)]),
    "LMS" := (LMSDiscrete, map[]),
    "LMS Karras" := (LMSDiscrete, map["use_karras_sigmas" := Flag(true)]),
    "DDIM" := (DDIM, map[]),
    "DEIS" := (DEISMultistep, map[]),
    "UniPC" := (UniPCMultistep, map[]),
    "UniPC Karras" := (UniPCMultistep, map["use_karras_sigmas" := Flag(true)]),
    "PNDM" := (PNDM, map[]),
    "Euler EDM" := (EDMEuler, map[]),
    "Euler EDM Karras" := (EDMEuler, map["use_karras_sigmas" := Flag(true)]),
    "DPM++ 2M EDM" := (EDMDPMSolverMultistep, map["solver_order" := Count(2), "solver_type" := Text("midpoint"), "final_sigmas_type" := Text("zero"), "algorithm_type" := Text("dpmsolver++")]),
    "DPM++ 2M EDM Karras" := (EDMDPMSolverMultistep, map["use_karras_sigmas" := Flag(true), "solver_order" := Count(2), "solver_type" := Text("midpoint"), "final_sigmas_type" := Text("zero"), "algorithm_type" := Text("dpmsolver++")]),
    "DDPM" := (DDPM, map[]),
    "DPM++ 2M Lu" := (DPMSolverMultistep, map["use_lu_lambdas" := Flag(true)]),
    "DPM++ 2M Ef" := (DPMSolverMultistep, map["euler_at_final" := Flag(true)]),
    "DPM++ 2M SDE Lu" := (DPMSolverMultistep, map["use_lu_lambdas" := Flag(true), "algorithm_type" := Text("sde-dpmsolver++")]),
    "DPM++ 2M SDE Ef" := (DPMSolverMultistep, map["algorithm_type" := Text("sde-dpmsolver++"), "euler_at_final" := Flag(true)]),
    "TCD" := (TCD, map[]),
    "LCM" := (LCM, map[])
  ]

  /** A scheduler rebuilt from a baseline configuration: its class, the
      baseline it was rebuilt from, and the overlay applied on top. */
  datatype Scheduler = Scheduler(kind: SchedulerKind, baseline: nat, overlay: Overlay)

  /** `get_scheduler`: a known sampler name yields its class and overlay
      reconstructed over `baseline` (the session's default scheduler); any
      other name is a ValueError. */
  function GetScheduler(name: string, baseline: nat): (r: Result<Scheduler, string>)
    ensures r.Ok? <==> name in SCHEDULER_CONFIG_MAP
    ensures r.Ok? ==> (r.value.kind == SCHEDULER_CONFIG_MAP[name].0
                       && r.value.overlay == SCHEDULER_CONFIG_MAP[name].1
                       && r.value.baseline == baseline)
    ensures r.Err? ==> r.error == name
  {
    if name in SCHEDULER_CONFIG_MAP then
      Ok(Scheduler(SCHEDULER_CONFIG_MAP[name].0, baseline, SCHEDULER_CONFIG_MAP[name].1))
    else
      Err(name)
  }

  /** The ControlNet id for a task; a per-family entry picks
      its SDXL id exactly when the class name contains "XL". */
  function ChooseModelId(entry: ModelIdEntry, className: string): string {
    match entry
    case Single(id) => id
    case PerFamily(sd15, sdxl) => if Contains(className, "XL") then sdxl else sd15
  }

  lemma FamilyNames()
    ensures Contains(SDXL_CLASS, "XL")
    ensures !Contains(SD_CLASS, "XL")
  {
    assert SDXL_CLASS[15..][..2] == "XL";
    NotContainsWhenCharAbsent(SD_CLASS, "XL", 0);
  }

  /** For the two known families, every per-family entry resolves to the
      family's own repository id. */
  lemma ControlNetIdPerFamily(task: string)
    requires task in CONTROLNET_MODEL_IDS
    ensures CONTROLNET_MODEL_IDS[task].PerFamily? ==>
              ChooseModelId(CONTROLNET_MODEL_IDS[task], SDXL_CLASS) == CONTROLNET_MODEL_IDS[task].sdxl
              && ChooseModelId(CONTROLNET_MODEL_IDS[task], SD_CLASS) == CONTROLNET_MODEL_IDS[task].sd15
    ensures CONTROLNET_MODEL_IDS[task].Single? ==>
              ChooseModelId(CONTROLNET_MODEL_IDS[task], SDXL_CLASS) == CONTROLNET_MODEL_IDS[task].id
              && ChooseModelId(CONTROLNET_MODEL_IDS[task], SD_CLASS) == CONTROLNET_MODEL_IDS[task].id
  {
    FamilyNames();
  }

  /** Every adapter task of T2I_PREPROCESSOR_NAME is a task load_pipe can build. */
  lemma AdapterTasksAreKnownTasks()
    ensures forall t | t in T2I_PREPROCESSOR_NAME :: t in CONTROLNET_MODEL_IDS
  {
  }

  /** Both families publish an acceleration LoRA for both flash samplers, and
      both flash samplers are scheduler names of their own kind. */
  lemma FlashTablesComplete()
    ensures forall c | c in FLASH_LORA :: forall f | f in FLASH_SAMPLERS :: f in FLASH_LORA[c]
    ensures SD_CLASS in FLASH_LORA && SDXL_CLASS in FLASH_LORA
    ensures GetScheduler("TCD", 0).Ok? && GetScheduler("TCD", 0).value.kind == TCD
    ensures GetScheduler("LCM", 0).Ok? && GetScheduler("LCM", 0).value.kind == LCM
  {
  }
}
