/** Runs of the scroll engine over many display frames, on a page that nothing
    else scrolls: the exact distance covered, and the end of the run at the
    scroll limit. */
module EngineRun {
  import opened Dom
  import opened Accumulator
  import opened EngineSpec
  import opened EngineProps

  /** `n` display frames in a row. */
  function Frames(m: Machine, n: nat): Machine {
    if n == 0 then m else Frame(Frames(m, n - 1))
  }

  lemma {:induction false} DistanceNonnegative(n: nat, speed: real)
    requires 0.0 <= speed
    ensures 0.0 <= Distance(n, speed)
  {
    if n > 0 {
      DistanceNonnegative(n - 1, speed);
    }
  }

  /** The target's position, as `getScrollPosition` reports it. */
  function Pos(m: Machine): Position {
    ScrollPosition(m.host.doc, m.targetElement)
  }

  /** The exact distance, in fractional pixels, that `n` ticks cover from the
      current remainder. */
  function Exact(m: Machine, n: nat): real {
    m.accumulatedScroll + Distance(n, m.scrollSpeed)
  }

  /** Every tick before frame `n` of a run found the target below its limit. */
  predicate NoEndBefore(m: Machine, n: nat) {
    n == 0 || Pos(m).top + Exact(m, n - 1).Floor < Pos(m).max
  }

  /** A frame of an active engine below its limit is one normal tick. */
  lemma FrameAdvance(m: Machine)
    requires Inv(m) && Active(m) && 0 <= Pos(m).top < Pos(m).max
    ensures Active(Frame(m)) && |Frame(m).host.pending| == 1 && Inv(Frame(m))
    ensures Pos(Frame(m)).top == Min(Pos(m).top + (m.accumulatedScroll + m.scrollSpeed).Floor, Pos(m).max)
    ensures Pos(Frame(m)).max == Pos(m).max
    ensures Frame(m).accumulatedScroll == m.accumulatedScroll + m.scrollSpeed - (m.accumulatedScroll + m.scrollSpeed).Floor as real
    ensures Frame(m).host.events == m.host.events
    ensures Frame(m).targetElement == m.targetElement && Frame(m).scrollSpeed == m.scrollSpeed
  {
    ScrollStepAdvance(m.(host := m.host.(pending := {})));
  }

  /** A frame of an active engine at its limit ends the run. */
  lemma FrameAtLimit(m: Machine)
    requires Inv(m) && Active(m) && Pos(m).top >= Pos(m).max
    ensures !Frame(m).isScrolling && !Frame(m).isPaused && Frame(m).host.pending == {} && Inv(Frame(m))
    ensures Frame(m).host.events == m.host.events + [Stopped, Ended]
    ensures Frame(m).targetElement == m.targetElement && Frame(m).scrollSpeed == m.scrollSpeed
  {
    ScrollStepAtLimit(m.(host := m.host.(pending := {})));
  }

  /** The arithmetic of one more tick: a run that has covered `y` and stands at
      `t0 + floor(y)` with remainder `y - floor(y)` stands, one tick of `s` later,
      at `t0 + floor(y + s)` (capped at `mx`) with remainder `y + s - floor(y + s)`. */
  lemma AdvanceArith(t0: int, y: real, s: real, z: real, mx: int)
    requires z == y - y.Floor as real + s
    ensures Min(t0 + y.Floor + z.Floor, mx) == Min(t0 + (y + s).Floor, mx)
    ensures z - z.Floor as real == y + s - (y + s).Floor as real
  {
    FloorShift(y + s, -y.Floor);
    assert z == (y + s) + (-y.Floor) as real;
  }

  /** `r` is the state `n` frames after `m` while the run has not met the limit:
      still running with one callback scheduled, nothing dispatched, the
      remainder the fractional part of the exact distance, and the target at
      its start plus the floor of that distance, capped at the limit. */
  predicate RunningAfter(m: Machine, n: nat, r: Machine) {
    && Active(r) && |r.host.pending| == 1
    && r.host.events == m.host.events
    && r.accumulatedScroll == Exact(m, n) - Exact(m, n).Floor as real
    && Pos(r).max == Pos(m).max
    && Pos(r).top == (if n == 0 then Pos(m).top else Min(Pos(m).top + Exact(m, n).Floor, Pos(m).max))
  }

  /** `r` is a state after the run met the limit: idle, nothing scheduled, and
      exactly `stopped` then `ended` dispatched. */
  predicate EndedAfter(m: Machine, r: Machine) {
    && !r.isScrolling && !r.isPaused && r.host.pending == {}
    && r.host.events == m.host.events + [Stopped, Ended]
  }

  /** The exact outcome of `n` frames of an active engine: running as described
      by `RunningAfter` while no tick has met the limit, ended afterwards. */
  lemma {:induction false} FramesOutcome(m: Machine, n: nat)
    requires Inv(m) && Active(m) && Pos(m).top >= 0
    ensures Inv(Frames(m, n))
    ensures Frames(m, n).targetElement == m.targetElement && Frames(m, n).scrollSpeed == m.scrollSpeed
    ensures NoEndBefore(m, n) ==> RunningAfter(m, n, Frames(m, n))
    ensures !NoEndBefore(m, n) ==> EndedAfter(m, Frames(m, n))
  {
    if n > 0 {
      FramesOutcome(m, n - 1);
      if NoEndBefore(m, n) {
        RunningStep(m, n);
      } else if NoEndBefore(m, n - 1) {
        FrameAtLimit(Frames(m, n - 1));
      } else {
        FrameKeepsInv(Frames(m, n - 1));
      }
    }
  }

  /** The inductive step of `FramesOutcome` for a frame below the limit. */
  lemma RunningStep(m: Machine, n: nat)
    requires Inv(m) && Active(m) && Pos(m).top >= 0
    requires n > 0 && NoEndBefore(m, n)
    requires var prev := Frames(m, n - 1);
      && Inv(prev) && prev.targetElement == m.targetElement && prev.scrollSpeed == m.scrollSpeed
      && (NoEndBefore(m, n - 1) ==> RunningAfter(m, n - 1, prev))
    ensures Inv(Frames(m, n)) && RunningAfter(m, n, Frames(m, n))
    ensures Frames(m, n).targetElement == m.targetElement && Frames(m, n).scrollSpeed == m.scrollSpeed
  {
    var prev := Frames(m, n - 1);
    EarlierNoEnd(m, n);
    FrameAdvance(prev);
    RunningStepArith(m, n, prev, Frame(prev));
  }

  /** No end before frame `n` means no end before frame `n - 1` either, and the
      target then stood below its limit. */
  lemma EarlierNoEnd(m: Machine, n: nat)
    requires Inv(m) && Pos(m).top >= 0
    requires n > 0 && NoEndBefore(m, n)
    ensures NoEndBefore(m, n - 1)
    ensures 0 <= Pos(m).top + Exact(m, n - 1).Floor < Pos(m).max
  {
    DistanceNonnegative(n - 1, m.scrollSpeed);
    if n > 1 {
      DistanceNonnegative(n - 2, m.scrollSpeed);
      assert Distance(n - 2, m.scrollSpeed) <= Distance(n - 1, m.scrollSpeed);
      assert Exact(m, n - 2).Floor <= Exact(m, n - 1).Floor;
    }
  }

  /** The bookkeeping of that step, stated on the facts a normal tick gives. */
  lemma RunningStepArith(m: Machine, n: nat, prev: Machine, r: Machine)
    requires Inv(m) && n > 0 && 0 <= Pos(m).top + Exact(m, n - 1).Floor < Pos(m).max
    requires prev.targetElement == m.targetElement && prev.scrollSpeed == m.scrollSpeed
    requires RunningAfter(m, n - 1, prev)
    requires Active(r) && |r.host.pending| == 1
    requires Pos(r).top == Min(Pos(prev).top + (prev.accumulatedScroll + prev.scrollSpeed).Floor, Pos(prev).max)
    requires Pos(r).max == Pos(prev).max
    requires r.accumulatedScroll == prev.accumulatedScroll + prev.scrollSpeed - (prev.accumulatedScroll + prev.scrollSpeed).Floor as real
    requires r.host.events == prev.host.events
    ensures RunningAfter(m, n, r)
  {
    var y := Exact(m, n - 1);
    assert Pos(prev).top == Pos(m).top + y.Floor;
    var z := prev.accumulatedScroll + m.scrollSpeed;
    assert r.accumulatedScroll == z - z.Floor as real;
    AdvanceArith(Pos(m).top, y, m.scrollSpeed, z, Pos(m).max);
    assert Exact(m, n) == y + m.scrollSpeed;
  }

  /** Once idle, further frames change nothing. */
  lemma {:induction false} IdleStaysIdle(m: Machine, j: nat)
    requires Inv(m) && !Active(m)
    ensures Frames(m, j) == m
  {
    if j > 0 {
      IdleStaysIdle(m, j - 1);
      FrameKeepsInv(m);
    }
  }

  lemma {:induction false} FramesCompose(m: Machine, i: nat, j: nat)
    ensures Frames(m, i + j) == Frames(Frames(m, i), j)
  {
    if j > 0 {
      FramesCompose(m, i, j - 1);
    }
  }

  /** Every active run ends: at the slowest speed (0.04 pixels per frame) the
      target needs at most 25 frames per pixel of room, and one frame more to
      see the limit. From then on the engine is idle, `ended` has been
      dispatched exactly once, and nothing more happens. */
  lemma EventuallyEnds(m: Machine, j: nat)
    requires Inv(m) && Active(m)
    requires Pos(m).top >= 0
    ensures var r := Frames(m, 25 * Max(0, Pos(m).max - Pos(m).top) + 1 + j);
      && !r.isScrolling && r.host.pending == {}
      && r.host.events == m.host.events + [Stopped, Ended]
  {
    var p := Pos(m);
    var room := Max(0, p.max - p.top);
    var bound := 25 * room + 1;
    SlowestSpeedCoversRoom(m.accumulatedScroll, m.scrollSpeed, room);
    assert Distance(bound - 1, m.scrollSpeed) == Distance(25 * room, m.scrollSpeed);
    assert !NoEndBefore(m, bound);
    FramesOutcome(m, bound);
    FramesCompose(m, bound, j);
    IdleStaysIdle(Frames(m, bound), j);
  }

  /** 25 frames per pixel are enough at any speed the engine can hold. */
  lemma SlowestSpeedCoversRoom(a: real, s: real, room: nat)
    requires 0.0 <= a && ValidSpeed(s)
    ensures (a + Distance(25 * room, s)).Floor >= room
  {
    DistanceIsProduct(25 * room, s);
    MultiplyMonotone((25 * room) as real, s, 0.04);
    assert ((25 * room) as real) * 0.04 == room as real;
  }

  lemma MultiplyMonotone(x: real, s: real, t: real)
    requires 0.0 <= x && t <= s
    ensures x * t <= x * s
  {
  }

  /** From a fresh remainder, while no tick has met the limit, the target stands
      at its starting offset plus exactly `floor(n * speed)` pixels, capped at
      the limit. */
  lemma FreshRunAdvance(m: Machine, n: nat)
    requires Inv(m) && Active(m) && m.accumulatedScroll == 0.0 && Pos(m).top >= 0
    requires n > 0 && NoEndBefore(m, n)
    ensures Pos(Frames(m, n)).top == Min(Pos(m).top + ((n as real) * m.scrollSpeed).Floor, Pos(m).max)
  {
    FramesOutcome(m, n);
    assert RunningAfter(m, n, Frames(m, n));
    var k := Exact(m, n).Floor;
    assert Pos(Frames(m, n)).top == Min(Pos(m).top + k, Pos(m).max);
    FreshDistanceFloor(m, n);
    assert k == ((n as real) * m.scrollSpeed).Floor;
  }

  lemma FreshDistanceFloor(m: Machine, n: nat)
    requires m.accumulatedScroll == 0.0
    ensures Exact(m, n).Floor == ((n as real) * m.scrollSpeed).Floor
  {
    DistanceIsProduct(n, m.scrollSpeed);
  }

  /** The same for a run `m` that `startScroll` has just begun, whose remainder
      starts at 0 and whose speed is the engine's. */
  lemma StartedRunAdvance(m0: Machine, element: Target, m: Machine, n: nat)
    requires Inv(m0) && !Active(m0) && m == StartScroll(m0, element)
    requires Pos(m).top >= 0 && n > 0 && NoEndBefore(m, n)
    ensures m.scrollSpeed == m0.scrollSpeed
    ensures Pos(Frames(m, n)).top == Min(Pos(m).top + ((n as real) * m.scrollSpeed).Floor, Pos(m).max)
  {
    StartedFresh(m0, element);
    FreshRunAdvance(m, n);
  }

  /** What a start leaves for the run, in the terms `FreshRunAdvance` needs. */
  lemma StartedFresh(m0: Machine, element: Target)
    requires Inv(m0) && !Active(m0)
    ensures var m := StartScroll(m0, element);
      Inv(m) && Active(m) && m.accumulatedScroll == 0.0 && m.scrollSpeed == m0.scrollSpeed
  {
    StartScrollEffect(m0, element);
  }

  /** A page 1000 pixels tall in a 500-pixel viewport, at the top. */
  function TallPage(): Document {
    var root := Element("", ClassText(""), "HTML", 0, 1000, 500, "visible", None);
    var body := Element("", ClassText(""), "BODY", 0, 1000, 1000, "visible", Some(0));
    Document(map[0 := root, 1 := body], [0, 1], 1, 0, 0, 500)
  }

  /** Starting the engine on that page: running from the top, 500 pixels of
      room, speed 0.4, a fresh remainder, and only `started` dispatched. */
  lemma TallPageStart()
    ensures var m := StartScroll(Initial(TallPage()), WholePage);
      && Inv(m) && Active(m)
      && Pos(m) == Position(0, 500)
      && m.accumulatedScroll == 0.0 && m.scrollSpeed == 0.4
      && m.host.events == [Started]
  {
    InitialIsValid(TallPage());
    StartScrollEffect(Initial(TallPage()), WholePage);
  }

  /** Started on that page at the medium speed
      0.4, the page is at offset 500 and still running after 1250 frames, and
      one frame later the engine has stopped with `ended` dispatched once. */
  lemma MediumSpeedScenario()
    ensures var m := StartScroll(Initial(TallPage()), WholePage);
      && ScrollPosition(m.host.doc, WholePage) == Position(0, 500)
      && Frames(m, 1250).isScrolling
      && ScrollPosition(Frames(m, 1250).host.doc, WholePage).top == 500
      && !Frames(m, 1251).isScrolling
      && Frames(m, 1251).host.events == [Started, Stopped, Ended]
  {
    var m := StartScroll(Initial(TallPage()), WholePage);
    TallPageStart();
    DistanceIsProduct(1249, 0.4);
    DistanceIsProduct(1250, 0.4);
    assert Exact(m, 1249) == 499.6;
    assert Exact(m, 1250) == 500.0;
    assert NoEndBefore(m, 1250);
    FramesOutcome(m, 1250);
    assert !NoEndBefore(m, 1251);
    FramesOutcome(m, 1251);
    assert Frames(m, 1251).host.events == [Started] + [Stopped, Ended];
  }
}
