/** Sub-pixel accumulation: each tick adds the speed to a fractional
    accumulator and moves by its whole-pixel part, keeping the remainder, so
    that speeds below one pixel per frame still move the page at the right
    average rate. */
module Accumulator {

  /** The outcome of one tick: the carried remainder and the whole pixels to scroll. */
  datatype Carry = Carry(remainder: real, pixels: int)

  /** `accumulatedScroll += scrollSpeed`, then, once it reaches one pixel, take
      its floor out of it as the pixels to scroll. */
  function AccStep(acc: real, speed: real): (c: Carry)
    ensures c.remainder + c.pixels as real == acc + speed
    ensures 0.0 <= acc + speed ==> c.pixels == (acc + speed).Floor && 0.0 <= c.remainder < 1.0
    ensures c.pixels > 0 <==> acc + speed >= 1.0
  {
    var a := acc + speed;
    if a >= 1.0 then Carry(a - (a.Floor as real), a.Floor) else Carry(a, 0)
  }

  /** `n` consecutive ticks from accumulator `acc`: the final remainder and the
      total number of pixels moved. */
  function Accumulate(n: nat, acc: real, speed: real): Carry {
    if n == 0 then Carry(acc, 0)
    else
      var c := AccStep(acc, speed);
      var rest := Accumulate(n - 1, c.remainder, speed);
      Carry(rest.remainder, c.pixels + rest.pixels)
  }

  /** Moving the argument of a floor by a whole number moves the floor by the same. */
  lemma FloorShift(x: real, k: int)
    ensures (x + k as real).Floor == x.Floor + k
  {
  }

  /** `n * speed`, as repeated addition (the distance an exact n-tick run covers). */
  function Distance(n: nat, speed: real): real {
    if n == 0 then 0.0 else Distance(n - 1, speed) + speed
  }

  lemma {:induction false} DistanceIsProduct(n: nat, speed: real)
    ensures Distance(n, speed) == (n as real) * speed
  {
    if n > 0 {
      DistanceIsProduct(n - 1, speed);
      assert (n as real) * speed == ((n - 1) as real) * speed + speed;
    }
  }

  /** Over `n` ticks from a remainder in [0, 1), the total movement is the floor
      of the exact distance `acc + n * speed`, and the remainder is what is left. */
  lemma {:induction false} AccumulateExact(n: nat, acc: real, speed: real)
    requires 0.0 <= acc < 1.0 && 0.0 <= speed
    ensures Accumulate(n, acc, speed).pixels == (acc + Distance(n, speed)).Floor
    ensures Accumulate(n, acc, speed).remainder == acc + Distance(n, speed) - (Accumulate(n, acc, speed).pixels as real)
    ensures 0.0 <= Accumulate(n, acc, speed).remainder < 1.0
  {
    if n > 0 {
      var c := AccStep(acc, speed);
      var rest := Accumulate(n - 1, c.remainder, speed);
      AccumulateExact(n - 1, c.remainder, speed);
      StepThenRun(acc + speed, Distance(n - 1, speed), c.pixels, c.remainder, rest.pixels, rest.remainder);
    }
  }

  /** One step followed by a run that covers distance `y` covers `a + y` in all (linear arithmetic only). */
  lemma StepThenRun(a: real, y: real, p1: int, r1: real, p2: int, r2: real)
    requires 0.0 <= a && p1 == a.Floor && r1 == a - p1 as real
    requires p2 == (r1 + y).Floor && r2 == r1 + y - p2 as real
    ensures p1 + p2 == (a + y).Floor && r2 == a + y - (p1 + p2) as real
  {
    FloorShift(a + y, -p1);
    assert r1 + y == (a + y) + (-p1) as real;
  }

  /** From a fresh start (accumulator 0), after `n`
      ticks exactly `floor(n * speed)` pixels have been moved, and the remainder
      stays below one pixel. */
  lemma TotalAdvanceFromFreshStart(n: nat, speed: real)
    requires 0.0 <= speed
    ensures Accumulate(n, 0.0, speed).pixels == ((n as real) * speed).Floor
    ensures 0.0 <= Accumulate(n, 0.0, speed).remainder < 1.0
  {
    AccumulateExact(n, 0.0, speed);
    DistanceIsProduct(n, speed);
  }

  /** At 0.4 pixels per tick, 10 ticks move 4 pixels. */
  lemma TenTicksAtMediumSpeed()
    ensures Accumulate(10, 0.0, 0.4).pixels == 4
  {
    TotalAdvanceFromFreshStart(10, 0.4);
    assert (10 as real) * 0.4 == 4.0;
  }
}
