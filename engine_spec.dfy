/** The scroll engine of content/content.js as a state machine on values: the
    engine's six variables, the host around them (the page, the scheduled
    animation-frame callbacks, the events dispatched so far), one function per
    command and one for the per-frame tick. The class in module Engine performs
    the same steps in place and is proved to agree with these functions. */
module EngineSpec {
  import opened Dom
  import opened Accumulator

  // Speed presets, in pixels per frame.
  const SlowSpeed: real := 0.2
  const MediumSpeed: real := 0.4
  const FastSpeed: real := 0.6
  const SpeedPresets: map<string, real> := map["slow" := SlowSpeed, "medium" := MediumSpeed, "fast" := FastSpeed]

  // The range a speed multiplier is clamped to.
  const MinSpeedMultiplier: real := 0.1
  const MaxSpeedMultiplier: real := 1.0

  /** Where a speed change came from (the `detail` of `speedchanged`). */
  datatype SpeedOrigin = FromPreset(preset: string) | FromMultiplier(multiplier: real)

  /** The `smoothscroll:*` events the engine dispatches. */
  datatype Event =
    | Started | Paused | Resumed | Stopped | Ended | Reset
    | SpeedChanged(speed: real, origin: SpeedOrigin)
    | TargetChanged(element: Target)

  /** The host the engine runs in: the page, the handles of the scheduled
      animation-frame callbacks, the next handle `requestAnimationFrame` will
      hand out, and the log of dispatched events. */
  datatype Host = Host(doc: Document, pending: set<nat>, nextHandle: nat, events: seq<Event>)

  /** The engine's module-level variables, with the host. */
  datatype Machine = Machine(
    isScrolling: bool,
    isPaused: bool,
    scrollSpeed: real,
    animationFrameId: Option<nat>,
    targetElement: Target,
    accumulatedScroll: real,
    host: Host)

  /** The state at page load. */
  function Initial(doc: Document): Machine {
    Machine(false, false, MediumSpeed, None, WholePage, 0.0, Host(doc, {}, 1, []))
  }

  // ---- the host's primitives ----

  function RequestAnimationFrame(h: Host): (Host, nat) {
    (h.(pending := h.pending + {h.nextHandle}, nextHandle := h.nextHandle + 1), h.nextHandle)
  }

  function CancelAnimationFrame(h: Host, id: nat): Host {
    h.(pending := h.pending - {id})
  }

  function Dispatch(h: Host, e: Event): Host {
    h.(events := h.events + [e])
  }

  // ---- invariants ----

  /** The speeds the engine can hold: a preset, or the medium preset scaled by
      a multiplier in range. */
  predicate ValidSpeed(s: real) {
    s == SlowSpeed || s == MediumSpeed || s == FastSpeed ||
    MediumSpeed * MinSpeedMultiplier <= s <= MediumSpeed * MaxSpeedMultiplier
  }

  /** What holds while no callback is running: paused implies running; the
      remainder is below one pixel; a frame handle is held exactly while the
      engine is actively running, and it is the one and only scheduled callback. */
  predicate Inv(m: Machine) {
    && (m.isPaused ==> m.isScrolling)
    && 0.0 <= m.accumulatedScroll < 1.0
    && ValidSpeed(m.scrollSpeed)
    && (m.animationFrameId.Some? <==> m.isScrolling && !m.isPaused)
    && m.host.pending == (if m.animationFrameId.Some? then {m.animationFrameId.value} else {})
  }

  /** What holds when the host has just taken the scheduled callback off its
      queue and runs `scrollStep`: as `Inv`, but nothing is scheduled. */
  predicate InCallback(m: Machine) {
    && (m.isPaused ==> m.isScrolling)
    && 0.0 <= m.accumulatedScroll < 1.0
    && ValidSpeed(m.scrollSpeed)
    && (m.animationFrameId.Some? <==> m.isScrolling && !m.isPaused)
    && m.host.pending == {}
  }

  predicate Active(m: Machine) { m.isScrolling && !m.isPaused }

  // ---- commands ----

  /** `startScroll(element)`. */
  function StartScroll(m: Machine, element: Target): Machine {
    if m.isScrolling && !m.isPaused then m
    else
      var (h, id) := RequestAnimationFrame(m.host);
      m.(targetElement := element, isScrolling := true, isPaused := false, accumulatedScroll := 0.0,
         animationFrameId := Some(id), host := Dispatch(h, Started))
  }

  /** `pauseScroll()`. */
  function PauseScroll(m: Machine): Machine {
    if !m.isScrolling then m
    else
      var h := if m.animationFrameId.Some? then CancelAnimationFrame(m.host, m.animationFrameId.value) else m.host;
      m.(isPaused := true, animationFrameId := None, host := Dispatch(h, Paused))
  }

  /** `resumeScroll()`. */
  function ResumeScroll(m: Machine): Machine {
    if !m.isScrolling || !m.isPaused then m
    else
      var (h, id) := RequestAnimationFrame(m.host);
      m.(isPaused := false, animationFrameId := Some(id), host := Dispatch(h, Resumed))
  }

  /** `toggleScroll()`. */
  function ToggleScroll(m: Machine): Machine {
    if !m.isScrolling then StartScroll(m, m.targetElement)
    else if m.isPaused then ResumeScroll(m)
    else PauseScroll(m)
  }

  /** `stopScroll()`. */
  function StopScroll(m: Machine): Machine {
    var h := if m.animationFrameId.Some? then CancelAnimationFrame(m.host, m.animationFrameId.value) else m.host;
    m.(isScrolling := false, isPaused := false, animationFrameId := None, host := Dispatch(h, Stopped))
  }

  /** `resetScroll()`: stop, then scroll the target back to the top. The smooth
      scroll is represented by the position it ends at. */
  function ResetScroll(m: Machine): Machine {
    var s := StopScroll(m);
    s.(host := Dispatch(s.host.(doc := ScrollTo(s.host.doc, s.targetElement, 0)), Reset))
  }

  /** `setSpeedPreset(preset)`: unknown names are ignored. */
  function SetSpeedPreset(m: Machine, preset: string): Machine {
    if preset in SpeedPresets then
      var speed := SpeedPresets[preset];
      m.(scrollSpeed := speed, host := Dispatch(m.host, SpeedChanged(speed, FromPreset(preset))))
    else m
  }

  /** `Math.max(MIN, Math.min(MAX, x))`. */
  function ClampMultiplier(x: real): (c: real)
    ensures MinSpeedMultiplier <= c <= MaxSpeedMultiplier
    ensures MinSpeedMultiplier <= x <= MaxSpeedMultiplier ==> c == x
    ensures x < MinSpeedMultiplier ==> c == MinSpeedMultiplier
    ensures x > MaxSpeedMultiplier ==> c == MaxSpeedMultiplier
  {
    var upper := if MaxSpeedMultiplier <= x then MaxSpeedMultiplier else x;
    if upper <= MinSpeedMultiplier then MinSpeedMultiplier else upper
  }

  /** `setSpeedMultiplier(multiplier)`: the medium speed scaled by the clamped multiplier. */
  function SetSpeedMultiplier(m: Machine, multiplier: real): Machine {
    var c := ClampMultiplier(multiplier);
    var speed := SpeedPresets["medium"] * c;
    m.(scrollSpeed := speed, host := Dispatch(m.host, SpeedChanged(speed, FromMultiplier(c))))
  }

  /** `setTargetElement(element)`: an active run passes through pause and resume
      around the swap. */
  function SetTargetElement(m: Machine, element: Target): Machine {
    var wasScrolling := m.isScrolling && !m.isPaused;
    var m1 := if wasScrolling then PauseScroll(m) else m;
    var m2 := m1.(targetElement := element);
    var m3 := if wasScrolling then ResumeScroll(m2) else m2;
    m3.(host := Dispatch(m3.host, TargetChanged(element)))
  }

  // ---- the tick ----

  /** `scrollStep()`, the animation-frame callback. */
  function ScrollStep(m: Machine): Machine {
    if !m.isScrolling || m.isPaused then m
    else
      var pos := ScrollPosition(m.host.doc, m.targetElement);
      if pos.top >= pos.max then
        var s := StopScroll(m);
        s.(host := Dispatch(s.host, Ended))
      else
        var c := AccStep(m.accumulatedScroll, m.scrollSpeed);
        var doc := if c.pixels > 0 then ScrollBy(m.host.doc, m.targetElement, c.pixels) else m.host.doc;
        var (h, id) := RequestAnimationFrame(m.host.(doc := doc));
        m.(accumulatedScroll := c.remainder, animationFrameId := Some(id), host := h)
  }

  /** One display frame: the host takes the scheduled callback (under `Inv`
      there is at most one) off its queue and runs it. */
  function Frame(m: Machine): Machine {
    if m.host.pending == {} then m
    else ScrollStep(m.(host := m.host.(pending := {})))
  }

  // ---- the state query ----

  datatype StateReport = StateReport(
    isScrolling: bool,
    isPaused: bool,
    speed: real,
    multiplier: real,
    targetElement: Target,
    position: Position)

  /** `getState()`. */
  function GetState(m: Machine): StateReport {
    StateReport(m.isScrolling, m.isPaused, m.scrollSpeed, m.scrollSpeed / SpeedPresets["medium"],
                m.targetElement, ScrollPosition(m.host.doc, m.targetElement))
  }

  // ---- the command surface, as one type ----

  datatype Command =
    | Start(element: Target) | Pause | Resume | Toggle | Stop | ResetToTop
    | SetPreset(preset: string) | SetMultiplier(multiplier: real) | SetTarget(target: Target)
    | Tick

  function Apply(m: Machine, c: Command): Machine {
    match c
    case Start(e) => StartScroll(m, e)
    case Pause => PauseScroll(m)
    case Resume => ResumeScroll(m)
    case Toggle => ToggleScroll(m)
    case Stop => StopScroll(m)
    case ResetToTop => ResetScroll(m)
    case SetPreset(p) => SetSpeedPreset(m, p)
    case SetMultiplier(x) => SetSpeedMultiplier(m, x)
    case SetTarget(t) => SetTargetElement(m, t)
    case Tick => Frame(m)
  }

  function Run(m: Machine, cs: seq<Command>): Machine
    decreases |cs|
  {
    if cs == [] then m else Run(Apply(m, cs[0]), cs[1..])
  }
}
