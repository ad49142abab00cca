/** The scroll engine of content/content.js as the script runs it: its
    module-level variables are the fields of one object, and each command
    updates them statement by statement. Alongside them the object holds the
    host the script talks to: the page, the browser's queue of scheduled
    animation-frame callbacks, and the events dispatched so far.

    Every method is proved to take the object from `old(State())` to the state
    the corresponding function of EngineSpec computes, so the lemmas of
    EngineProps and EngineRun hold of the object as well. */
module Engine {
  import opened Dom
  import opened Accumulator
  import EngineSpec

  class ScrollEngine {
    // The engine's own variables.
    var isScrolling: bool
    var isPaused: bool
    var scrollSpeed: real
    var animationFrameId: Option<nat>
    var targetElement: Target
    var accumulatedScroll: real

    // The host: the page, the handles of the scheduled callbacks, the handle
    // `requestAnimationFrame` hands out next, and the dispatched events.
    var doc: Document
    var pending: set<nat>
    var nextHandle: nat
    var events: seq<EngineSpec.Event>

    /** The object's state as a value of the state machine. */
    ghost function State(): EngineSpec.Machine
      reads this
    {
      EngineSpec.Machine(isScrolling, isPaused, scrollSpeed, animationFrameId, targetElement, accumulatedScroll,
                         EngineSpec.Host(doc, pending, nextHandle, events))
    }

    /** Between callbacks. */
    ghost predicate Valid()
      reads this
    {
      EngineSpec.Inv(State())
    }

    /** The script loaded into `page`: stopped, at the medium speed, aimed at the
        whole page. */
    constructor(page: Document)
      ensures State() == EngineSpec.Initial(page)
      ensures Valid()
    {
      isScrolling := false;
      isPaused := false;
      scrollSpeed := EngineSpec.MediumSpeed;
      animationFrameId := None;
      targetElement := WholePage;
      accumulatedScroll := 0.0;
      doc := page;
      pending := {};
      nextHandle := 1;
      events := [];
    }

    // ---- the host's primitives ----

    method RequestAnimationFrame() returns (id: nat)
      modifies this`pending, this`nextHandle
      ensures id == old(nextHandle)
      ensures pending == old(pending) + {id} && nextHandle == id + 1
    {
      id := nextHandle;
      pending := pending + {id};
      nextHandle := nextHandle + 1;
    }

    method CancelAnimationFrame(id: nat)
      modifies this`pending
      ensures pending == old(pending) - {id}
    {
      pending := pending - {id};
    }

    method Dispatch(e: EngineSpec.Event)
      modifies this`events
      ensures events == old(events) + [e]
    {
      events := events + [e];
    }

    // ---- the commands ----

    /** `startScroll(element)`. */
    method StartScroll(element: Target)
      requires Valid()
      modifies this
      ensures State() == EngineSpec.StartScroll(old(State()), element)
      ensures Valid()
    {
      if isScrolling && !isPaused {
        return;
      }
      targetElement := element;
      isScrolling := true;
      isPaused := false;
      accumulatedScroll := 0.0;
      var id := RequestAnimationFrame();
      animationFrameId := Some(id);
      Dispatch(EngineSpec.Started);
    }

    /** `pauseScroll()`. */
    method PauseScroll()
      requires Valid()
      modifies this
      ensures State() == EngineSpec.PauseScroll(old(State()))
      ensures Valid()
    {
      if !isScrolling {
        return;
      }
      isPaused := true;
      if animationFrameId.Some? {
        CancelAnimationFrame(animationFrameId.value);
        animationFrameId := None;
      }
      Dispatch(EngineSpec.Paused);
    }

    /** `resumeScroll()`. */
    method ResumeScroll()
      requires Valid()
      modifies this
      ensures State() == EngineSpec.ResumeScroll(old(State()))
      ensures Valid()
    {
      if !isScrolling || !isPaused {
        return;
      }
      isPaused := false;
      var id := RequestAnimationFrame();
      animationFrameId := Some(id);
      Dispatch(EngineSpec.Resumed);
    }

    /** `toggleScroll()`. */
    method ToggleScroll()
      requires Valid()
      modifies this
      ensures State() == EngineSpec.ToggleScroll(old(State()))
      ensures Valid()
    {
      if !isScrolling {
        StartScroll(targetElement);
      } else if isPaused {
        ResumeScroll();
      } else {
        PauseScroll();
      }
    }

    /** `stopScroll()`; also called from the tick, while its callback runs. */
    method StopScroll()
      requires Valid() || EngineSpec.InCallback(State())
      modifies this
      ensures State() == EngineSpec.StopScroll(old(State()))
      ensures Valid()
    {
      isScrolling := false;
      isPaused := false;
      if animationFrameId.Some? {
        CancelAnimationFrame(animationFrameId.value);
        animationFrameId := None;
      }
      Dispatch(EngineSpec.Stopped);
    }

    /** `resetScroll()`: the smooth scroll to the top is represented by the
        position it ends at. */
    method ResetScroll()
      requires Valid()
      modifies this
      ensures State() == EngineSpec.ResetScroll(old(State()))
      ensures Valid()
    {
      StopScroll();
      doc := ScrollTo(doc, targetElement, 0);
      Dispatch(EngineSpec.Reset);
    }

    /** `setSpeedPreset(preset)`. */
    method SetSpeedPreset(preset: string)
      requires Valid()
      modifies this
      ensures State() == EngineSpec.SetSpeedPreset(old(State()), preset)
      ensures Valid()
    {
      if preset in EngineSpec.SpeedPresets {
        scrollSpeed := EngineSpec.SpeedPresets[preset];
        Dispatch(EngineSpec.SpeedChanged(scrollSpeed, EngineSpec.FromPreset(preset)));
      }
    }

    /** `setSpeedMultiplier(multiplier)`. */
    method SetSpeedMultiplier(multiplier: real)
      requires Valid()
      modifies this
      ensures State() == EngineSpec.SetSpeedMultiplier(old(State()), multiplier)
      ensures Valid()
    {
      var clamped := EngineSpec.ClampMultiplier(multiplier);
      scrollSpeed := EngineSpec.SpeedPresets["medium"] * clamped;
      Dispatch(EngineSpec.SpeedChanged(scrollSpeed, EngineSpec.FromMultiplier(clamped)));
    }

    /** `setTargetElement(element)`. */
    method SetTargetElement(element: Target)
      requires Valid()
      modifies this
      ensures State() == EngineSpec.SetTargetElement(old(State()), element)
      ensures Valid()
    {
      var wasScrolling := isScrolling && !isPaused;
      if wasScrolling {
        PauseScroll();
      }
      targetElement := element;
      if wasScrolling {
        ResumeScroll();
      }
      Dispatch(EngineSpec.TargetChanged(element));
    }

    // ---- the tick ----

    /** `scrollStep()`, run by the host once it has taken the callback off its queue. */
    method ScrollStep()
      requires EngineSpec.InCallback(State())
      modifies this
      ensures State() == EngineSpec.ScrollStep(old(State()))
      ensures Valid()
    {
      if !isScrolling || isPaused {
        return;
      }
      var pos := ScrollPosition(doc, targetElement);
      if pos.top >= pos.max {
        StopScroll();
        Dispatch(EngineSpec.Ended);
        return;
      }
      accumulatedScroll := accumulatedScroll + scrollSpeed;
      if accumulatedScroll >= 1.0 {
        var pixelsToScroll := accumulatedScroll.Floor;
        accumulatedScroll := accumulatedScroll - pixelsToScroll as real;
        doc := ScrollBy(doc, targetElement, pixelsToScroll);
      }
      var id := RequestAnimationFrame();
      animationFrameId := Some(id);
    }

    /** One display frame: the host takes the scheduled callback off its queue
        and runs it. */
    method Frame()
      requires Valid()
      modifies this
      ensures State() == EngineSpec.Frame(old(State()))
      ensures Valid()
    {
      if pending != {} {
        pending := {};
        ScrollStep();
      }
    }

    // ---- the state query ----

    /** `getState()`: paused only while running, the reported multiplier is the
        speed relative to the medium preset (inside [0.1, 1.5]: the fast preset
        lies above the multiplier range), and the position is the target's. */
    function GetState(): (r: EngineSpec.StateReport)
      reads this
      requires Valid()
      ensures r.isPaused ==> r.isScrolling
      ensures r.speed == scrollSpeed && r.multiplier * EngineSpec.MediumSpeed == r.speed
      ensures EngineSpec.MinSpeedMultiplier <= r.multiplier <= 1.5
      ensures r.targetElement == targetElement && r.position == ScrollPosition(doc, targetElement)
    {
      EngineSpec.StateReport(isScrolling, isPaused, scrollSpeed, scrollSpeed / EngineSpec.SpeedPresets["medium"],
                             targetElement, ScrollPosition(doc, targetElement))
    }
  }
}
