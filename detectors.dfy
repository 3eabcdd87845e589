/** Control-image detectors: the one-slot detector cache of `Preprocessor`
    and the choice `get_image_preprocess` makes between passing the
    reference image through and running a named detector. */
module Detectors {
  import opened Basics
  import opened Tables

  /** The twelve detectors `Preprocessor.load` can instantiate. */
  datatype Detector =
    | HED | Midas | MLSD | Openpose | PidiNet | NormalBae
    | Lineart | LineartAnime | Canny | ContentShuffle | DPT | UPerNet

  /** The name under which each detector is requested. */
  function DetectorName(d: Detector): string {
    match d
    case HED => "HED"
    case Midas => "Midas"
    case MLSD => "MLSD"
    case Openpose => "Openpose"
    case PidiNet => "PidiNet"
    case NormalBae => "NormalBae"
    case Lineart => "Lineart"
    case LineartAnime => "LineartAnime"
    case Canny => "Canny"
    case ContentShuffle => "ContentShuffle"
    case DPT => "DPT"
    case UPerNet => "UPerNet"
  }

  /** The if/elif chain of `Preprocessor.load`: the detector a name selects, if any. */
  function DetectorNamed(name: string): Option<Detector> {
    if name == "HED" then Some(HED)
    else if name == "Midas" then Some(Midas)
    else if name == "MLSD" then Some(MLSD)
    else if name == "Openpose" then Some(Openpose)
    else if name == "PidiNet" then Some(PidiNet)
    else if name == "NormalBae" then Some(NormalBae)
    else if name == "Lineart" then Some(Lineart)
    else if name == "LineartAnime" then Some(LineartAnime)
    else if name == "Canny" then Some(Canny)
    else if name == "ContentShuffle" then Some(ContentShuffle)
    else if name == "DPT" then Some(DPT)
    else if name == "UPerNet" then Some(UPerNet)
    else None
  }

  /** Names and detectors are in one-to-one correspondence. */
  lemma DetectorNamesRoundTrip(d: Detector, name: string)
    ensures DetectorNamed(DetectorName(d)) == Some(d)
    ensures DetectorNamed(name) == Some(d) ==> name == DetectorName(d)
  {
  }

  /** The state of a `Preprocessor`: the recorded name, the loaded detector,
      and the log of detector constructions it has performed. */
  datatype DetectorSlot = DetectorSlot(name: string, model: Option<Detector>, loaded: seq<Detector>)

  const EMPTY_SLOT := DetectorSlot("", None, [])

  /** `Preprocessor.load`: the same name is a no-op; a known name constructs
      that detector and only then records the name; any other name raises
      ValueError leaving the slot as it was. */
  function LoadDetector(slot: DetectorSlot, name: string): (DetectorSlot, Outcome<string>) {
    if name == slot.name then (slot, Pass)
    else match DetectorNamed(name)
      case None => (slot, Fail(name))
      case Some(d) => (DetectorSlot(name, Some(d), slot.loaded + [d]), Pass)
  }

  lemma LoadDetectorCases(slot: DetectorSlot, name: string)
    ensures name == slot.name ==> LoadDetector(slot, name) == (slot, Pass)
    ensures name != slot.name && DetectorNamed(name).None? ==>
              LoadDetector(slot, name) == (slot, Fail(name))
    ensures name != slot.name && DetectorNamed(name).Some? ==>
              LoadDetector(slot, name).1 == Pass
              && LoadDetector(slot, name).0.name == name
              && LoadDetector(slot, name).0.model == DetectorNamed(name)
              && LoadDetector(slot, name).0.loaded == slot.loaded + [DetectorNamed(name).value]
  {
  }

  /** Loading twice is loading once: the second call constructs nothing. */
  lemma LoadDetectorIdempotent(slot: DetectorSlot, name: string)
    ensures LoadDetector(LoadDetector(slot, name).0, name).0 == LoadDetector(slot, name).0
    ensures LoadDetector(LoadDetector(slot, name).0, name).1 == LoadDetector(slot, name).1
  {
  }

  /** Starting from the fresh slot, the recorded name is always "" or a known
      detector's name, and the loaded model is exactly the one it names. */
  ghost predicate SlotConsistent(slot: DetectorSlot) {
    if slot.name == "" then slot.model.None?
    else slot.model.Some? && DetectorNamed(slot.name) == slot.model
  }

  lemma LoadDetectorKeepsConsistent(slot: DetectorSlot, name: string)
    requires SlotConsistent(slot)
    ensures SlotConsistent(LoadDetector(slot, name).0)
  {
  }

  class Preprocessor {
    var name: string
    var model: Option<Detector>
    var loaded: seq<Detector>

    function Slot(): DetectorSlot
      reads this
    {
      DetectorSlot(name, model, loaded)
    }

    constructor ()
      ensures Slot() == EMPTY_SLOT
    {
      model := None;
      name := "";
      loaded := [];
    }

    method Load(requested: string) returns (r: Outcome<string>)
      modifies this
      ensures (Slot(), r) == LoadDetector(old(Slot()), requested)
    {
      if requested == name {
        return Pass;
      }
      var d := DetectorNamed(requested);
      if d.None? {
        return Fail(requested);
      }
      model := d;
      loaded := loaded + [d.value];
      name := requested;
      r := Pass;
    }
  }

  /** How a control image is produced from the reference image. */
  datatype DetectOption =
    | Plain
    | Thresholds          // Canny: low and high threshold
    | HandAndFace         // Openpose
    | LineThresholds      // MLSD: value and distance threshold
    | Scribble(on: bool)  // HED
    | Safe(on: bool)      // PidiNet
    | Coarse(on: bool)    // Lineart
    | NoDetectResolution  // shuffle: only the image resolution is passed

  datatype ControlPlan = PassThrough | Detect(detector: string, option: DetectOption)

  datatype PlanError =
    | UnknownAdapterTask(task: string)   // KeyError on T2I_PREPROCESSOR_NAME
    | NoControlImage                     // no branch assigned control_image
    | NoValidPreprocessor                // ValueError "No valid preprocessor name"

  const PASS_THROUGH_TASKS: seq<string> := ["ip2p", "img2img", "pattern", "sdxl_tile_realistic"]

  /** The detector name actually used: adapter tasks ("t2i" in the task
      name) ignore the request and use their table entry, or "None" when the
      adapter preprocessor is switched off. */
  function EffectivePreprocessor(task: string, requested: string, t2iPreprocessor: bool): Result<string, PlanError> {
    if !Contains(task, "t2i") then Ok(requested)
    else if !t2iPreprocessor then Ok("None")
    else if task in T2I_PREPROCESSOR_NAME then Ok(T2I_PREPROCESSOR_NAME[task])
    else Err(UnknownAdapterTask(task))
  }

  /** The branch chain of `get_image_preprocess` over the task and the
      effective preprocessor name. The image is passed through exactly for
      the "None" names and the pass-through tasks. */
  function Dispatch(task: string, name: string): (r: Result<ControlPlan, PlanError>)
    ensures r == Ok(PassThrough) <==> name in ["None", "None (anime)"] || task in PASS_THROUGH_TASKS
  {
    if name in ["None", "None (anime)"] || task in PASS_THROUGH_TASKS then Ok(PassThrough)
    else if task in ["canny", "sdxl_canny_t2i"] then Ok(Detect("Canny", Thresholds))
    else if task in ["openpose", "sdxl_openpose_t2i"] then Ok(Detect("Openpose", HandAndFace))
    else if task in ["depth", "sdxl_depth-midas_t2i"] then Ok(Detect(name, Plain))
    else if task == "mlsd" then Ok(Detect("MLSD", LineThresholds))
    else if task in ["scribble", "sdxl_sketch_t2i"] then
      if name == "HED" then Ok(Detect(name, Scribble(false)))
      else if name == "PidiNet" then Ok(Detect(name, Safe(false)))
      else Err(NoControlImage)
    else if task == "softedge" then
      if name in ["HED", "HED safe"] then Ok(Detect("HED", Scribble(Contains(name, "safe"))))
      else if name in ["PidiNet", "PidiNet safe"] then Ok(Detect("PidiNet", Safe(Contains(name, "safe"))))
      else Err(NoControlImage)
    else if task == "segmentation" then Ok(Detect(name, Plain))
    else if task == "normalbae" then Ok(Detect("NormalBae", Plain))
    else if task in ["lineart", "lineart_anime", "sdxl_lineart_t2i"] then
      if name in ["Lineart", "Lineart coarse"] then Ok(Detect("Lineart", Coarse(Contains(name, "coarse"))))
      else if name == "Lineart (anime)" then Ok(Detect("LineartAnime", Plain))
      else Err(NoControlImage)
    else if task == "shuffle" then Ok(Detect(name, NoDetectResolution))
    else Err(NoValidPreprocessor)
  }

  /** The effective name, then the dispatch. The table lookup fails exactly
      for a "t2i" task missing from the table with the adapter preprocessor
      on. */
  function ControlPlanFor(task: string, requested: string, t2iPreprocessor: bool): (r: Result<ControlPlan, PlanError>)
    ensures r.Err? && r.error.UnknownAdapterTask? <==>
              Contains(task, "t2i") && t2iPreprocessor && task !in T2I_PREPROCESSOR_NAME
  {
    match EffectivePreprocessor(task, requested, t2iPreprocessor)
    case Err(e) => Err(e)
    case Ok(name) => Dispatch(task, name)
  }

  /** The SD 1.5 lineart tasks first swap in the ControlNet weights of the
      lineart task the preprocessor name asks for ("anime" in the name). */
  function LineartWeightTask(className: string, task: string, requested: string): Option<string> {
    if className == SD_CLASS && task in ["lineart", "lineart_anime"] then
      Some(if Contains(requested, "anime") then "lineart_anime" else "lineart")
    else None
  }

  /** An adapter task name ends in "t2i". */
  lemma AdapterTaskIsMarked(task: string)
    requires task in T2I_PREPROCESSOR_NAME
    ensures Contains(task, "t2i")
  {
    var i := |task| - 3;
    assert task[i..][..3] == "t2i";
  }

  /** An adapter task ignores the requested name: with the adapter
      preprocessor off, the reference image is passed through; with it on,
      the detector its table entry names runs, with the option of the task's
      branch, and that name is one `Preprocessor.load` accepts. A "t2i" task
      missing from the table fails on the lookup. */
  lemma AdapterTaskPlans(task: string, requested: string)
    ensures task in T2I_PREPROCESSOR_NAME ==>
              && ControlPlanFor(task, requested, false) == Ok(PassThrough)
              && ControlPlanFor(task, requested, true) == Ok(Detect(T2I_PREPROCESSOR_NAME[task], AdapterOption(task)))
              && DetectorNamed(T2I_PREPROCESSOR_NAME[task]).Some?
    ensures Contains(task, "t2i") && task !in T2I_PREPROCESSOR_NAME ==>
              ControlPlanFor(task, requested, true) == Err(UnknownAdapterTask(task))
  {
    if task in T2I_PREPROCESSOR_NAME {
      AdapterTaskIsMarked(task);
      AdapterDispatch(task);
      assert ControlPlanFor(task, requested, true) == Dispatch(task, T2I_PREPROCESSOR_NAME[task]);
      assert ControlPlanFor(task, requested, false) == Dispatch(task, "None");
    }
  }

  /** Each adapter task's table entry reaches a detector branch of the dispatch. */
  lemma AdapterDispatch(task: string)
    requires task in T2I_PREPROCESSOR_NAME
    ensures Dispatch(task, T2I_PREPROCESSOR_NAME[task]) == Ok(Detect(T2I_PREPROCESSOR_NAME[task], AdapterOption(task)))
  {
    if task == "sdxl_lineart_t2i" {
      NotContainsWhenCharAbsent("Lineart", "coarse", 0);
    }
  }

  /** The detector option each adapter task runs with. */
  function AdapterOption(task: string): DetectOption {
    if task == "sdxl_lineart_t2i" then Coarse(false)
    else if task == "sdxl_sketch_t2i" then Safe(false)
    else if task == "sdxl_depth-midas_t2i" then Plain
    else if task == "sdxl_openpose_t2i" then HandAndFace
    else Thresholds
  }

  /** The pass-through tasks never run a detector, whatever name is asked for. */
  lemma PassThroughTasksPassThrough(task: string, requested: string, t2iPreprocessor: bool)
    requires task in PASS_THROUGH_TASKS
    ensures ControlPlanFor(task, requested, t2iPreprocessor) == Ok(PassThrough)
  {
    if task == "ip2p" || task == "img2img" {
      NotContainsWhenCharAbsent(task, "t2i", 0);
    } else {
      NotContainsWhenCharAbsent(task, "t2i", 1);
    }
  }

  /** The tasks of the dispatch whose names carry no "t2i". */
  const NAMED_TASKS: seq<string> := [
    "canny", "openpose", "depth", "mlsd", "scribble", "softedge", "segmentation", "normalbae",
    "lineart", "lineart_anime", "shuffle", "ip2p", "img2img", "pattern", "sdxl_tile_realistic"]

  /** A task of the dispatch without "t2i" in its name uses the requested
      name as given, whatever the adapter preprocessor flag says. */
  lemma RequestedNameUsed(task: string, requested: string, t2iPreprocessor: bool)
    requires task in NAMED_TASKS
    ensures ControlPlanFor(task, requested, t2iPreprocessor) == Dispatch(task, requested)
  {
    if task in ["img2img", "ip2p"] {
      NotContainsWhenCharAbsent(task, "t2i", 0);
    } else {
      NotContainsWhenCharAbsent(task, "t2i", 1);
    }
  }

  /** "None" and "None (anime)" pass the image through for every task. */
  lemma NoneNamesPassThrough(task: string, name: string)
    requires name == "None" || name == "None (anime)"
    ensures Dispatch(task, name) == Ok(PassThrough)
  {
  }

  /** Canny, openpose, MLSD and NormalBae tasks run their own detector
      whatever name is given; depth, segmentation and shuffle run the
      detector of the given name. A task outside every branch is refused. */
  lemma DetectorPerTask(task: string, name: string)
    requires name != "None" && name != "None (anime)"
    ensures task in ["canny", "sdxl_canny_t2i"] ==> Dispatch(task, name) == Ok(Detect("Canny", Thresholds))
    ensures task in ["openpose", "sdxl_openpose_t2i"] ==> Dispatch(task, name) == Ok(Detect("Openpose", HandAndFace))
    ensures task == "mlsd" ==> Dispatch(task, name) == Ok(Detect("MLSD", LineThresholds))
    ensures task == "normalbae" ==> Dispatch(task, name) == Ok(Detect("NormalBae", Plain))
    ensures task in ["depth", "sdxl_depth-midas_t2i", "segmentation"] ==> Dispatch(task, name) == Ok(Detect(name, Plain))
    ensures task == "shuffle" ==> Dispatch(task, name) == Ok(Detect(name, NoDetectResolution))
    ensures task !in NAMED_TASKS + T2I_TASKS ==> Dispatch(task, name) == Err(NoValidPreprocessor)
  {
  }

  /** The adapter tasks of the dispatch. */
  const T2I_TASKS: seq<string> := [
    "sdxl_canny_t2i", "sdxl_openpose_t2i", "sdxl_depth-midas_t2i", "sdxl_sketch_t2i", "sdxl_lineart_t2i"]

  /** Scribble runs HED without the scribble flag or PidiNet without the
      safe flag; any other name leaves no control image. */
  lemma ScribbleVariants(task: string, name: string)
    requires task in ["scribble", "sdxl_sketch_t2i"]
    ensures Dispatch(task, name).Ok? <==> name in ["HED", "PidiNet", "None", "None (anime)"]
    ensures name == "HED" ==> Dispatch(task, name) == Ok(Detect("HED", Scribble(false)))
    ensures name == "PidiNet" ==> Dispatch(task, name) == Ok(Detect("PidiNet", Safe(false)))
    ensures Dispatch(task, name).Err? ==> Dispatch(task, name).error == NoControlImage
  {
  }

  /** Softedge runs HED or PidiNet; the " safe" variant of each name turns
      the detector's flag on; any other name leaves no control image. */
  lemma SoftedgeVariantFlags(name: string)
    ensures Dispatch("softedge", name).Ok? <==> name in ["HED", "HED safe", "PidiNet", "PidiNet safe", "None", "None (anime)"]
    ensures name in ["HED", "HED safe"] ==> Dispatch("softedge", name) == Ok(Detect("HED", Scribble(name == "HED safe")))
    ensures name in ["PidiNet", "PidiNet safe"] ==> Dispatch("softedge", name) == Ok(Detect("PidiNet", Safe(name == "PidiNet safe")))
    ensures Dispatch("softedge", name).Err? ==> Dispatch("softedge", name).error == NoControlImage
  {
    if name == "HED" {
      NotContainsWhenCharAbsent(name, "safe", 0);
    } else if name == "HED safe" {
      assert name[4..][..4] == "safe";
    } else if name == "PidiNet" {
      NotContainsWhenCharAbsent(name, "safe", 0);
    } else if name == "PidiNet safe" {
      assert name[8..][..4] == "safe";
    }
  }

  /** The lineart tasks run Lineart, coarse exactly for "Lineart coarse", or
      the anime detector for "Lineart (anime)"; any other name leaves no
      control image. */
  lemma LineartVariantFlags(task: string, name: string)
    requires task in ["lineart", "lineart_anime", "sdxl_lineart_t2i"]
    ensures Dispatch(task, name).Ok? <==> name in ["Lineart", "Lineart coarse", "Lineart (anime)", "None", "None (anime)"]
    ensures name in ["Lineart", "Lineart coarse"] ==> Dispatch(task, name) == Ok(Detect("Lineart", Coarse(name == "Lineart coarse")))
    ensures name == "Lineart (anime)" ==> Dispatch(task, name) == Ok(Detect("LineartAnime", Plain))
    ensures Dispatch(task, name).Err? ==> Dispatch(task, name).error == NoControlImage
  {
    if name == "Lineart coarse" {
      assert name[8..][..6] == "coarse";
    } else if name == "Lineart" {
      NotContainsWhenCharAbsent(name, "coarse", 0);
    }
  }

  /** Every detector the dispatch names for a fixed-detector branch is one
      `Preprocessor.load` accepts. */
  lemma DispatchedDetectorsKnown(task: string, name: string)
    requires Dispatch(task, name).Ok? && Dispatch(task, name).value.Detect?
    requires task !in ["depth", "sdxl_depth-midas_t2i", "segmentation", "shuffle"]
    ensures DetectorNamed(Dispatch(task, name).value.detector).Some?
  {
    if task in ["lineart", "lineart_anime", "sdxl_lineart_t2i"] {
      LineartVariantFlags(task, name);
    } else if task == "softedge" {
      SoftedgeVariantFlags(name);
    }
  }
}
