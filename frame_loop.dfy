/** The frame bookkeeping of HelloTriangleApplication (src/main.cpp):
    draw_frame's path through acquire, submit and present, the
    current_frame rotation over MAX_FRAMES_IN_FLIGHT, and the application's
    own copy of find_memory_type. What the driver answers to acquire and
    present is an input: either a returned vk::Result or a thrown
    vk::SystemError carrying a result code. */
module Application {
  import opened Wrappers
  import opened Vk
  import Allocator

  const MaxFramesInFlight: nat := 2

  /** The state draw_frame reads and writes: the current_frame field, the
      window's resized flag, how many times the swapchain was recreated, and
      the frame index of every graphics submission (its fence and
      semaphores are draw_fences[i] and friends). */
  datatype Frame = Frame(currentFrame: nat, resized: bool, recreations: nat, submissions: seq<nat>)

  predicate AcquireSucceeded(acquire: Outcome) {
    acquire.Returned? && (acquire.result == Success || acquire.result == SuboptimalKHR)
  }

  /** Present asked for a new swapchain: out of date, suboptimal, or the
      window was resized. */
  predicate PresentWantsRecreate(resized: bool, present: Outcome) {
    present.Returned? &&
    (present.result == ErrorOutOfDateKHR || present.result == SuboptimalKHR || resized)
  }

  /** draw_frame reaches the final current_frame update. */
  predicate Advances(f: Frame, acquire: Outcome, present: Outcome) {
    AcquireSucceeded(acquire) &&
    present.Returned? && (present.result == Success || PresentWantsRecreate(f.resized, present))
  }

  /** The early returns inside the catch-or-check for an out-of-date swapchain. */
  predicate ReturnsEarly(acquire: Outcome, present: Outcome) {
    acquire == Returned(ErrorOutOfDateKHR) || acquire == Threw(ErrorOutOfDateKHR) ||
    (AcquireSucceeded(acquire) && present == Threw(ErrorOutOfDateKHR))
  }

  /** One draw_frame call: the new state and whether it returned normally
      (an Err is an exception leaving draw_frame). */
  function DrawFrameStep(f: Frame, acquire: Outcome, present: Outcome): (r: (Frame, Result<()>))
    ensures r.0.currentFrame == if Advances(f, acquire, present) then (f.currentFrame + 1) % MaxFramesInFlight else f.currentFrame
    ensures r.1.Ok? <==> Advances(f, acquire, present) || ReturnsEarly(acquire, present)
    ensures r.0.submissions == if AcquireSucceeded(acquire) then f.submissions + [f.currentFrame] else f.submissions
    ensures r.0.resized == if AcquireSucceeded(acquire) && PresentWantsRecreate(f.resized, present) then false else f.resized
    ensures r.0.recreations == if ReturnsEarly(acquire, present) || (AcquireSucceeded(acquire) && PresentWantsRecreate(f.resized, present))
      then f.recreations + 1 else f.recreations
  {
    match acquire
    case Threw(code) =>
      if code == ErrorOutOfDateKHR then (f.(recreations := f.recreations + 1), Ok(()))
      else (f, Err("vk::SystemError"))
    case Returned(result) =>
      if result == ErrorOutOfDateKHR then (f.(recreations := f.recreations + 1), Ok(()))
      else if result != Success && result != SuboptimalKHR then (f, Err("Failed to acquire swapchain image"))
      else
        var submitted := f.(submissions := f.submissions + [f.currentFrame]);
        match present
        case Threw(code) =>
          if code == ErrorOutOfDateKHR then (submitted.(recreations := submitted.recreations + 1), Ok(()))
          else (submitted, Err("vk::SystemError"))
        case Returned(presented) =>
          if presented == ErrorOutOfDateKHR || presented == SuboptimalKHR || submitted.resized then
            var recreated := submitted.(resized := false, recreations := submitted.recreations + 1);
            (recreated.(currentFrame := (recreated.currentFrame + 1) % MaxFramesInFlight), Ok(()))
          else if presented != Success then (submitted, Err("Failed to present swapchain image"))
          else (submitted.(currentFrame := (submitted.currentFrame + 1) % MaxFramesInFlight), Ok(()))
  }

  /** One draw_frame call's driver answers. */
  datatype Draw = Draw(acquire: Outcome, present: Outcome)

  /** main_loop calling draw_frame once per draw until one throws. */
  function Run(f: Frame, draws: seq<Draw>): Frame
    decreases |draws|
  {
    if |draws| == 0 then f
    else
      var step := DrawFrameStep(f, draws[0].acquire, draws[0].present);
      if step.1.Err? then step.0 else Run(step.0, draws[1..])
  }

  /** How many of the draws Run executes reach the current_frame update. */
  function AdvanceCount(f: Frame, draws: seq<Draw>): nat
    decreases |draws|
  {
    if |draws| == 0 then 0
    else
      var step := DrawFrameStep(f, draws[0].acquire, draws[0].present);
      var here := if Advances(f, draws[0].acquire, draws[0].present) then 1 else 0;
      if step.1.Err? then here else here + AdvanceCount(step.0, draws[1..])
  }

  /** current_frame counts the draws that advanced it, modulo 2, and never
      leaves [0, 2). */
  lemma {:induction false} RunRotation(f: Frame, draws: seq<Draw>)
    requires f.currentFrame < MaxFramesInFlight
    ensures Run(f, draws).currentFrame == (f.currentFrame + AdvanceCount(f, draws)) % MaxFramesInFlight
    ensures Run(f, draws).currentFrame < MaxFramesInFlight
    decreases |draws|
  {
    if |draws| > 0 {
      var step := DrawFrameStep(f, draws[0].acquire, draws[0].present);
      if step.1.Ok? {
        RunRotation(step.0, draws[1..]);
      }
    }
  }

  /** Every submission uses the sync objects of a frame in flight. */
  lemma {:induction false} RunSubmissionsInFlight(f: Frame, draws: seq<Draw>)
    requires f.currentFrame < MaxFramesInFlight
    requires forall k :: 0 <= k < |f.submissions| ==> f.submissions[k] < MaxFramesInFlight
    ensures |f.submissions| <= |Run(f, draws).submissions|
    ensures Run(f, draws).submissions[..|f.submissions|] == f.submissions
    ensures forall k :: 0 <= k < |Run(f, draws).submissions| ==> Run(f, draws).submissions[k] < MaxFramesInFlight
    decreases |draws|
  {
    if |draws| > 0 {
      var step := DrawFrameStep(f, draws[0].acquire, draws[0].present);
      if step.1.Ok? {
        RunSubmissionsInFlight(step.0, draws[1..]);
      }
    }
  }

  /** The application object's frame fields. */
  class Renderer {
    var currentFrame: nat
    var resized: bool
    var recreations: nat
    var submissions: seq<nat>

    predicate Valid()
      reads this
    {
      currentFrame < MaxFramesInFlight
    }

    function State(): Frame
      reads this
    {
      Frame(currentFrame, resized, recreations, submissions)
    }

    constructor()
      ensures Valid()
      ensures State() == Frame(0, false, 0, [])
    {
      currentFrame := 0;
      resized := false;
      recreations := 0;
      submissions := [];
    }

    /** recreate_swapchain, seen from the frame bookkeeping. */
    method RecreateSwapchain()
      modifies this
      ensures State() == old(State()).(recreations := old(recreations) + 1)
    {
      recreations := recreations + 1;
    }

    /** draw_frame. */
    method DrawFrame(acquire: Outcome, present: Outcome) returns (r: Result<()>)
      requires Valid()
      modifies this
      ensures Valid()
      ensures (State(), r) == DrawFrameStep(old(State()), acquire, present)
    {
      if acquire.Threw? {
        if acquire.code == ErrorOutOfDateKHR {
          RecreateSwapchain();
          return Ok(());
        }
        return Err("vk::SystemError");
      }
      if acquire.result == ErrorOutOfDateKHR {
        RecreateSwapchain();
        return Ok(());
      }
      if acquire.result != Success && acquire.result != SuboptimalKHR {
        return Err("Failed to acquire swapchain image");
      }
      submissions := submissions + [currentFrame];
      if present.Threw? {
        if present.code == ErrorOutOfDateKHR {
          RecreateSwapchain();
          return Ok(());
        }
        return Err("vk::SystemError");
      }
      if present.result == ErrorOutOfDateKHR || present.result == SuboptimalKHR || resized {
        resized := false;
        RecreateSwapchain();
      } else if present.result != Success {
        return Err("Failed to present swapchain image");
      }
      currentFrame := (currentFrame + 1) % MaxFramesInFlight;
      return Ok(());
    }
  }

  /** HelloTriangleApplication::find_memory_type: the same first-match
      scan as the allocator's, throwing its own message. */
  method FindMemoryType(types: seq<Flags>, typeFilter: Flags, properties: Flags) returns (r: Result<nat>)
    requires |types| <= 32
    ensures r.Ok? <==> Allocator.FirstMemoryType(types, typeFilter, properties, 0).Some?
    ensures r.Ok? ==> r.value == Allocator.FirstMemoryType(types, typeFilter, properties, 0).value
    ensures r.Ok? ==> r.value < |types| && Allocator.Qualifies(types, typeFilter, properties, r.value)
    ensures r.Err? ==> r.error == "Failed to find suitable memory type"
  {
    var found := Allocator.FindMemoryType(types, typeFilter, properties);
    if found.Err? {
      return Err("Failed to find suitable memory type");
    }
    return Ok(found.value);
  }
}
