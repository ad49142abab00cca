/** What each command of the scroll engine does, stated against the invariant
    `Inv`: its guard, its effect on the six variables, the scheduled callbacks
    it leaves behind, and the events it appends. */
module EngineProps {
  import opened Dom
  import opened Accumulator
  import opened EngineSpec

  /** At most one animation-frame callback is ever scheduled. */
  lemma AtMostOneTickPending(m: Machine)
    requires Inv(m)
    ensures |m.host.pending| <= 1
    ensures |m.host.pending| == 1 <==> Active(m)
  {
  }

  lemma InitialIsValid(doc: Document)
    ensures Inv(Initial(doc))
    ensures !Initial(doc).isScrolling && Initial(doc).scrollSpeed == SpeedPresets["medium"]
  {
  }

  // ---- start ----

  /** Start on an active, unpaused engine changes nothing and dispatches nothing. */
  lemma StartScrollNoOpWhenActive(m: Machine, element: Target)
    requires m.isScrolling && !m.isPaused
    ensures StartScroll(m, element) == m
  {
  }

  /** Starting twice is starting once. */
  lemma StartScrollIdempotent(m: Machine, element: Target, again: Target)
    ensures StartScroll(StartScroll(m, element), again) == StartScroll(m, element)
  {
  }

  /** A start that acts: running, not paused, a fresh accumulator, the given
      target, exactly one callback scheduled, `started` appended, the speed and
      the page untouched. */
  lemma StartScrollEffect(m: Machine, element: Target)
    requires Inv(m) && !(m.isScrolling && !m.isPaused)
    ensures var r := StartScroll(m, element);
      && r.isScrolling && !r.isPaused
      && r.accumulatedScroll == 0.0
      && r.targetElement == element
      && |r.host.pending| == 1 && r.animationFrameId.Some? && r.host.pending == {r.animationFrameId.value}
      && r.host.events == m.host.events + [Started]
      && r.scrollSpeed == m.scrollSpeed && r.host.doc == m.host.doc
      && Inv(r)
  {
  }

  // ---- pause / resume ----

  /** Pause acts only on a running engine; it then leaves it paused with nothing
      scheduled, dispatches `paused`, and keeps target, speed, remainder and page. */
  lemma PauseScrollEffect(m: Machine)
    requires Inv(m)
    ensures var r := PauseScroll(m);
      && (!m.isScrolling ==> r == m)
      && (m.isScrolling ==>
            && r.isScrolling && r.isPaused && r.host.pending == {} && r.animationFrameId.None?
            && r.host.events == m.host.events + [Paused]
            && r.targetElement == m.targetElement && r.scrollSpeed == m.scrollSpeed
            && r.accumulatedScroll == m.accumulatedScroll && r.host.doc == m.host.doc)
      && Inv(r)
  {
  }

  /** Resume acts only on a running, paused engine; it then schedules exactly one
      callback and dispatches `resumed`, keeping everything else. */
  lemma ResumeScrollEffect(m: Machine)
    requires Inv(m)
    ensures var r := ResumeScroll(m);
      && (!(m.isScrolling && m.isPaused) ==> r == m)
      && (m.isScrolling && m.isPaused ==>
            && r.isScrolling && !r.isPaused && |r.host.pending| == 1
            && r.host.events == m.host.events + [Resumed]
            && r.targetElement == m.targetElement && r.scrollSpeed == m.scrollSpeed
            && r.accumulatedScroll == m.accumulatedScroll && r.host.doc == m.host.doc)
      && Inv(r)
  {
  }

  /** Pause then resume of an active run returns to the same engine, with one
      new callback scheduled: no pixel is skipped or repeated. */
  lemma PauseResumeSymmetry(m: Machine)
    requires Inv(m) && Active(m)
    ensures var r := ResumeScroll(PauseScroll(m));
      && r.isScrolling == m.isScrolling && r.isPaused == m.isPaused
      && r.targetElement == m.targetElement && r.scrollSpeed == m.scrollSpeed
      && r.accumulatedScroll == m.accumulatedScroll && r.host.doc == m.host.doc
      && |r.host.pending| == 1
      && r.host.events == m.host.events + [Paused, Resumed]
      && Inv(r)
  {
    PauseScrollEffect(m);
    ResumeScrollEffect(PauseScroll(m));
  }

  // ---- toggle ----

  /** Toggle starts an idle engine on its current target, resumes a paused one
      and pauses an active one. */
  lemma ToggleScrollCases(m: Machine)
    requires Inv(m)
    ensures var r := ToggleScroll(m);
      && (!m.isScrolling ==> r == StartScroll(m, m.targetElement) && Active(r) && r.targetElement == m.targetElement)
      && (m.isScrolling && m.isPaused ==> r == ResumeScroll(m) && Active(r))
      && (Active(m) ==> r == PauseScroll(m) && r.isScrolling && r.isPaused)
      && Inv(r)
  {
    if !m.isScrolling {
      StartScrollEffect(m, m.targetElement);
    }
    PauseScrollEffect(m);
    ResumeScrollEffect(m);
  }

  /** Two toggles of an active engine are a pause and a resume. */
  lemma ToggleTwiceWhileActive(m: Machine)
    requires Inv(m) && Active(m)
    ensures ToggleScroll(ToggleScroll(m)) == ResumeScroll(PauseScroll(m))
  {
  }

  // ---- stop / reset ----

  /** Stop always leaves the engine idle with nothing scheduled and dispatches
      `stopped`; target, speed, remainder and page are kept. */
  lemma StopScrollEffect(m: Machine)
    requires Inv(m) || InCallback(m)
    ensures var r := StopScroll(m);
      && !r.isScrolling && !r.isPaused && r.host.pending == {} && r.animationFrameId.None?
      && r.host.events == m.host.events + [Stopped]
      && r.targetElement == m.targetElement && r.scrollSpeed == m.scrollSpeed
      && r.accumulatedScroll == m.accumulatedScroll && r.host.doc == m.host.doc
      && Inv(r)
  {
  }

  /** Reset leaves the engine idle with the target back at offset 0, after
      `stopped` and `reset`. */
  lemma ResetScrollEffect(m: Machine)
    requires Inv(m)
    ensures var r := ResetScroll(m);
      && !r.isScrolling && !r.isPaused && r.host.pending == {}
      && r.host.events == m.host.events + [Stopped, Reset]
      && r.targetElement == m.targetElement
      && (m.targetElement.WholePage? || m.targetElement.node in m.host.doc.nodes ==>
            ScrollPosition(r.host.doc, r.targetElement).top == 0)
      && Inv(r)
  {
    StopScrollEffect(m);
  }

  // ---- speed ----

  /** A known preset sets its speed and dispatches `speedchanged`; an unknown
      name changes nothing. Running, paused and target are never touched. */
  lemma SetSpeedPresetEffect(m: Machine, preset: string)
    requires Inv(m)
    ensures var r := SetSpeedPreset(m, preset);
      && (preset !in {"slow", "medium", "fast"} ==> r == m)
      && (preset == "slow" ==> r.scrollSpeed == 0.2)
      && (preset == "medium" ==> r.scrollSpeed == 0.4)
      && (preset == "fast" ==> r.scrollSpeed == 0.6)
      && (preset in {"slow", "medium", "fast"} ==>
            r.host.events == m.host.events + [SpeedChanged(r.scrollSpeed, FromPreset(preset))])
      && r.isScrolling == m.isScrolling && r.isPaused == m.isPaused && r.targetElement == m.targetElement
      && r.host.pending == m.host.pending && r.accumulatedScroll == m.accumulatedScroll
      && Inv(r)
  {
  }

  /** The clamp law: the multiplier is clamped into [0.1, 1], the speed is 0.4
      times it, the state query reports exactly the clamped multiplier, and
      running, paused and target are untouched. */
  lemma SetSpeedMultiplierEffect(m: Machine, x: real)
    requires Inv(m)
    ensures var r := SetSpeedMultiplier(m, x);
      && var c := GetState(r).multiplier;
      && 0.1 <= c <= 1.0
      && (0.1 <= x <= 1.0 ==> c == x)
      && (x < 0.1 ==> c == 0.1)
      && (x > 1.0 ==> c == 1.0)
      && r.scrollSpeed == 0.4 * c
      && r.host.events == m.host.events + [SpeedChanged(r.scrollSpeed, FromMultiplier(c))]
      && r.isScrolling == m.isScrolling && r.isPaused == m.isPaused && r.targetElement == m.targetElement
      && r.host.pending == m.host.pending && r.accumulatedScroll == m.accumulatedScroll
      && Inv(r)
  {
    var c := ClampMultiplier(x);
    var r := SetSpeedMultiplier(m, x);
    assert r.scrollSpeed == 0.4 * c;
    assert GetState(r).multiplier == (0.4 * c) / 0.4;
  }

  /** What the state query reports as the multiplier under the invariant: the
      speed over 0.4, which is at most 1.5 (the fast preset) and at least 0.1. */
  lemma ReportedMultiplierRange(m: Machine)
    requires Inv(m)
    ensures 0.1 <= GetState(m).multiplier <= 1.5
    ensures GetState(m).multiplier * 0.4 == m.scrollSpeed
    ensures GetState(m).isPaused ==> GetState(m).isScrolling
  {
  }

  // ---- target ----

  /** Setting the target replaces it and keeps running and paused as they were;
      an active run passes through pause and resume, so exactly one callback is
      scheduled afterwards; `targetchanged` comes last. */
  lemma SetTargetElementEffect(m: Machine, element: Target)
    requires Inv(m)
    ensures var r := SetTargetElement(m, element);
      && r.targetElement == element
      && r.isScrolling == m.isScrolling && r.isPaused == m.isPaused
      && r.scrollSpeed == m.scrollSpeed && r.accumulatedScroll == m.accumulatedScroll
      && r.host.doc == m.host.doc
      && (Active(m) ==>
            |r.host.pending| == 1 && r.host.events == m.host.events + [Paused, Resumed, TargetChanged(element)])
      && (!Active(m) ==>
            r.host.pending == m.host.pending && r.host.events == m.host.events + [TargetChanged(element)])
      && Inv(r)
  {
    if Active(m) {
      PauseScrollEffect(m);
      ResumeScrollEffect(PauseScroll(m).(targetElement := element));
    }
  }

  // ---- the tick ----

  /** The tick does nothing unless the engine is running and not paused. */
  lemma ScrollStepInactive(m: Machine)
    requires !m.isScrolling || m.isPaused
    ensures ScrollStep(m) == m
  {
  }

  /** At the scroll limit the tick stops the engine, dispatches `stopped` then
      `ended`, and schedules nothing. */
  lemma ScrollStepAtLimit(m: Machine)
    requires InCallback(m) && Active(m)
    requires ScrollPosition(m.host.doc, m.targetElement).top >= ScrollPosition(m.host.doc, m.targetElement).max
    ensures var r := ScrollStep(m);
      && !r.isScrolling && !r.isPaused && r.host.pending == {}
      && r.host.events == m.host.events + [Stopped, Ended]
      && r.host.doc == m.host.doc
      && Inv(r)
  {
  }

  /** Below the limit the tick adds the speed to the remainder, moves the target
      by the whole pixels of the sum (clamped at the limit by the host), keeps
      the fraction, schedules exactly one callback and dispatches nothing. */
  lemma ScrollStepAdvance(m: Machine)
    requires InCallback(m) && Active(m)
    requires var p := ScrollPosition(m.host.doc, m.targetElement); 0 <= p.top < p.max
    ensures var r := ScrollStep(m);
      && var p := ScrollPosition(m.host.doc, m.targetElement);
      && var a := m.accumulatedScroll + m.scrollSpeed;
      && Active(r) && |r.host.pending| == 1
      && ScrollPosition(r.host.doc, r.targetElement).top == Min(p.top + a.Floor, p.max)
      && ScrollPosition(r.host.doc, r.targetElement).max == p.max
      && r.accumulatedScroll == a - a.Floor as real
      && 0.0 <= r.accumulatedScroll < 1.0
      && r.host.events == m.host.events
      && r.targetElement == m.targetElement && r.scrollSpeed == m.scrollSpeed
      && Inv(r)
  {
    var c := AccStep(m.accumulatedScroll, m.scrollSpeed);
    assert c.pixels == (m.accumulatedScroll + m.scrollSpeed).Floor;
  }

  /** A frame keeps the invariant. */
  lemma FrameKeepsInv(m: Machine)
    requires Inv(m)
    ensures Inv(Frame(m))
    ensures !Active(m) ==> Frame(m) == m
  {
    if m.host.pending != {} {
      var n := m.(host := m.host.(pending := {}));
      var p := ScrollPosition(n.host.doc, n.targetElement);
      if p.top >= p.max {
        ScrollStepAtLimit(n);
      } else {
        var c := AccStep(n.accumulatedScroll, n.scrollSpeed);
      }
    }
  }

  // ---- every command keeps the invariant ----

  lemma ApplyKeepsInv(m: Machine, c: Command)
    requires Inv(m)
    ensures Inv(Apply(m, c))
  {
    match c
    case Start(e) => if !(m.isScrolling && !m.isPaused) { StartScrollEffect(m, e); }
    case Pause => PauseScrollEffect(m);
    case Resume => ResumeScrollEffect(m);
    case Toggle => ToggleScrollCases(m);
    case Stop => StopScrollEffect(m);
    case ResetToTop => ResetScrollEffect(m);
    case SetPreset(p) => SetSpeedPresetEffect(m, p);
    case SetMultiplier(x) => SetSpeedMultiplierEffect(m, x);
    case SetTarget(t) => SetTargetElementEffect(m, t);
    case Tick => FrameKeepsInv(m);
  }

  /** Any sequence of commands and frames from page load keeps the invariant:
      paused implies running, and at most one callback is scheduled. */
  lemma {:induction false} RunKeepsInv(m: Machine, cs: seq<Command>)
    requires Inv(m)
    ensures Inv(Run(m, cs))
    ensures |Run(m, cs).host.pending| <= 1
    ensures Run(m, cs).isPaused ==> Run(m, cs).isScrolling
    decreases |cs|
  {
    if cs == [] {
    } else {
      ApplyKeepsInv(m, cs[0]);
      RunKeepsInv(Apply(m, cs[0]), cs[1..]);
      AtMostOneTickPending(Run(m, cs));
    }
  }
}
