/** `control/jog_hold.py`, the ramp: a streamed joint target is followed within a velocity and an
    acceleration limit, braking to stop on the target, inside a position envelope.

    Joints do not interact, so the law is stated for one joint and the class applies it to each. */
module JogRamp {
  import opened Wrappers
  import opened Reals

  /** One joint's limits; `bounds` is the envelope (lower, upper), if the policy has one. */
  datatype Limits = Limits(vMax: real, aMax: real, bounds: Option<(real, real)>)

  /** One joint's commanded position and speed. */
  datatype Joint = Joint(q: real, v: real)

  predicate ValidLimits(l: Limits) {
    l.vMax > 0.0 && l.aMax > 0.0 && (l.bounds.Some? ==> l.bounds.value.0 <= l.bounds.value.1)
  }

  /** `f` is the square root on the nonnegative reals. The code calls it; only this is used of it. */
  ghost predicate IsSqrt(f: real -> real) {
    forall x: real :: 0.0 <= x ==> 0.0 <= f(x) && f(x) * f(x) == x
  }

  // ---- the law of one tick ------------------------------------------------------------------

  /** What the cap takes the square root of. */
  function Radicand(step: real, dt: real, error: real): real
    requires step > 0.0 && dt > 0.0
  {
    0.25 + 2.0 * Abs(error) / (step * dt)
  }

  function Root(sqrt: real -> real, step: real, radicand: real): real {
    step * (sqrt(radicand) - 0.5)
  }

  /** The fastest speed from which braking one tick at a time still stops `error` away. */
  function Cap(sqrt: real -> real, vMax: real, step: real, dt: real, error: real): real
    requires step > 0.0 && dt > 0.0
  {
    Min(vMax, Root(sqrt, step, Radicand(step, dt, error)))
  }

  function Step(l: Limits, dt: real): (step: real)
    requires ValidLimits(l) && dt > 0.0
    ensures step > 0.0
  {
    l.aMax * dt
  }

  /** The speed of this tick, before the envelope. */
  function Speed(sqrt: real -> real, l: Limits, dt: real, j: Joint, target: real): real
    requires ValidLimits(l) && dt > 0.0
  {
    var error, step := target - j.q, Step(l, dt);
    var cap := Cap(sqrt, l.vMax, step, dt, error);
    var v := Clip(Clip(error / dt, -cap, cap), j.v - step, j.v + step);
    if (error - v * dt) * error < 0.0 && Abs(error / dt - j.v) <= step then error / dt else v
  }

  /** The band one tick may command in: never further past a limit than the target or the command already is. */
  function Band(bounds: (real, real), target: real, q: real): (real, real) {
    (Min(bounds.0, Min(target, q)), Max(bounds.1, Max(target, q)))
  }

  /** Moving `from` to `to` leaves that band. */
  predicate Leaves(bounds: Option<(real, real)>, target: real, from: real, to: real) {
    bounds.Some? && var (low, high) := Band(bounds.value, target, from); to < low || to > high
  }

  /** The envelope: a tick that leaves the band is clipped to it and stops the joint. */
  function Saturate(bounds: Option<(real, real)>, target: real, from: real, next: Joint): Joint {
    if Leaves(bounds, target, from, next.q) then
      var (low, high) := Band(bounds.value, target, from);
      Joint(Clip(next.q, low, high), 0.0)
    else
      next
  }

  /** One tick at speed `v`. */
  function Coast(q: real, dt: real, v: real): Joint {
    Joint(q + v * dt, v)
  }

  function Tick(sqrt: real -> real, l: Limits, dt: real, j: Joint, target: real): Joint
    requires ValidLimits(l) && dt > 0.0
  {
    Saturate(l.bounds, target, j.q, Coast(j.q, dt, Speed(sqrt, l, dt, j, target)))
  }

  /** The tick on which the envelope stops the joint. */
  predicate Clips(sqrt: real -> real, l: Limits, dt: real, j: Joint, target: real)
    requires ValidLimits(l) && dt > 0.0
  {
    Leaves(l.bounds, target, j.q, Coast(j.q, dt, Speed(sqrt, l, dt, j, target)).q)
  }

  /** A run of ticks under a stream of targets. */
  function Follow(sqrt: real -> real, l: Limits, dt: real, j: Joint, targets: seq<real>): Joint
    requires ValidLimits(l) && dt > 0.0
    decreases |targets|
  {
    if targets == [] then j
    else Follow(sqrt, l, dt, Tick(sqrt, l, dt, j, targets[0]), targets[1..])
  }

  /** A run of `n` ticks towards one target. */
  function Seek(sqrt: real -> real, l: Limits, dt: real, j: Joint, target: real, n: nat): Joint
    requires ValidLimits(l) && dt > 0.0
    decreases n
  {
    if n == 0 then j else Seek(sqrt, l, dt, Tick(sqrt, l, dt, j, target), target, n - 1)
  }

  // ---- the braking law in units of speed ----------------------------------------------------

  /** The same law with the error measured in speed, `y = error / dt`, and the cap given. */
  function Brake(s: real, cap: real, y: real, v: real): real {
    var w := Clip(Clip(y, -cap, cap), v - s, v + s);
    if (y - w) * y < 0.0 && Abs(y - v) <= s then y else w
  }

  /** `cap` is what the code computes for a remaining distance `y`: the smaller of `vMax` and the
      nonnegative root of `c * (c + s) == 2 * s * |y|`. */
  predicate IsCap(s: real, vMax: real, y: real, root: real, cap: real) {
    0.0 <= root && root * (root + s) == 2.0 * s * Abs(y) && cap == Min(vMax, root)
  }

  lemma SquareOfSmall(r: real)
    requires 0.0 <= r < 0.5
    ensures r * r < 0.25
  {
    assert r * r <= 0.5 * r;
  }

  lemma RootRelation(sqrt: real -> real, s: real, z: real, y: real)
    requires IsSqrt(sqrt) && s > 0.0 && y >= 0.0 && z == 0.25 + 2.0 * y / s
    ensures var c := Root(sqrt, s, z); 0.0 <= c && c * (c + s) == 2.0 * s * y
  {
    var r, t := sqrt(z), 2.0 * y / s;
    assert t * s == 2.0 * y && t >= 0.0;
    if r < 0.5 {
      SquareOfSmall(r);
    }
    calc {
      (s * (r - 0.5)) * (s * (r - 0.5) + s);
      (s * (r - 0.5)) * (s * (r + 0.5));
      s * s * (r * r - 0.25);
      s * s * t;
      2.0 * s * y;
    }
  }

  /** The code's cap is the smaller of `vMax` and the root of the braking relation. */
  lemma CapIsRoot(sqrt: real -> real, vMax: real, s: real, dt: real, error: real, y: real) returns (root: real)
    requires IsSqrt(sqrt) && s > 0.0 && dt > 0.0 && Abs(error) == Abs(y) * dt
    ensures IsCap(s, vMax, y, root, Cap(sqrt, vMax, s, dt, error))
  {
    hide Root;
    var z := Radicand(s, dt, error);
    assert z == 0.25 + 2.0 * Abs(y) / s by {
      Cancel(Abs(y), Abs(error), s, dt);
    }
    hide Radicand;
    RootRelation(sqrt, s, z, Abs(y));
    root := Root(sqrt, s, z);
  }

  lemma SpeedIsBrake(sqrt: real -> real, l: Limits, dt: real, j: Joint, target: real) returns (root: real, cap: real)
    requires ValidLimits(l) && dt > 0.0 && IsSqrt(sqrt)
    ensures IsCap(Step(l, dt), l.vMax, (target - j.q) / dt, root, cap)
    ensures Speed(sqrt, l, dt, j, target) == Brake(Step(l, dt), cap, (target - j.q) / dt, j.v)
  {
    hide Cap, IsCap, Step, Clip, Abs;
    var s, error := Step(l, dt), target - j.q;
    var y := error / dt;
    InSpeedUnits(error, dt, y);
    cap := Cap(sqrt, l.vMax, s, dt, error);
    root := CapIsRoot(sqrt, l.vMax, s, dt, error, y);
    SameSign(y, error, Clip(Clip(y, -cap, cap), j.v - s, j.v + s), dt);
  }

  lemma InSpeedUnits(error: real, dt: real, y: real)
    requires dt > 0.0 && y == error / dt
    ensures error == y * dt && Abs(error) == Abs(y) * dt
  {
  }

  lemma Cancel(a: real, b: real, s: real, dt: real)
    requires s > 0.0 && dt > 0.0 && b == a * dt && a >= 0.0
    ensures 2.0 * b / (s * dt) == 2.0 * a / s >= 0.0
  {
    var t := 2.0 * a / s;
    assert t * s == 2.0 * a;
    assert t * (s * dt) == 2.0 * b;
  }

  lemma SameSign(y: real, error: real, w: real, dt: real)
    requires dt > 0.0 && error == y * dt
    ensures (error - w * dt) * error < 0.0 <==> (y - w) * y < 0.0
  {
    var p := (y - w) * y;
    assert (error - w * dt) * error == p * dt * dt;
    assert p * dt < 0.0 <==> p < 0.0;
    assert p * dt * dt < 0.0 <==> p * dt < 0.0;
  }

  // ---- bounds under any stream of targets ---------------------------------------------------

  /** The code's last adjustment, to land on a target the clipped speed would pass, never applies: the
      desired speed never passes the target, so the clipped one does only when even full deceleration does. */
  lemma LandingAdjustmentIsIdle(s: real, cap: real, y: real, v: real)
    requires s > 0.0 && cap >= 0.0
    ensures Brake(s, cap, y, v) == Clip(Clip(y, -cap, cap), v - s, v + s)
  {
    var w := Clip(Clip(y, -cap, cap), v - s, v + s);
    if (y - w) * y < 0.0 {
      Between(y, w);
    }
  }

  lemma Between(y: real, w: real)
    requires (y - w) * y < 0.0
    ensures 0.0 < y < w || w < y < 0.0
  {
  }

  lemma BrakeBounds(s: real, vMax: real, y: real, v: real, root: real, cap: real)
    requires s > 0.0 && vMax > 0.0 && IsCap(s, vMax, y, root, cap)
    requires Abs(v) <= vMax
    ensures Abs(Brake(s, cap, y, v)) <= vMax
    ensures Abs(Brake(s, cap, y, v) - v) <= s
  {
    LandingAdjustmentIsIdle(s, cap, y, v);
  }

  /** The speed law alone, whatever the target. */
  lemma SpeedBounds(sqrt: real -> real, l: Limits, dt: real, j: Joint, target: real)
    requires ValidLimits(l) && dt > 0.0 && IsSqrt(sqrt)
    requires Abs(j.v) <= l.vMax
    ensures Abs(Speed(sqrt, l, dt, j, target)) <= l.vMax
    ensures Abs(Speed(sqrt, l, dt, j, target) - j.v) <= Step(l, dt)
  {
    hide Speed, Brake, IsCap, Step;
    var root, cap := SpeedIsBrake(sqrt, l, dt, j, target);
    BrakeBounds(Step(l, dt), l.vMax, (target - j.q) / dt, j.v, root, cap);
  }

  /** Every tick, whatever the target: the speed limit holds; the acceleration limit holds unless the
      envelope clips the tick, which stops the joint; the command stays between the envelope, the
      target and the previous command. */
  lemma TickBounds(sqrt: real -> real, l: Limits, dt: real, j: Joint, target: real)
    requires ValidLimits(l) && dt > 0.0 && IsSqrt(sqrt)
    requires Abs(j.v) <= l.vMax
    ensures var j' := Tick(sqrt, l, dt, j, target);
            && Abs(j'.v) <= l.vMax
            && (if Clips(sqrt, l, dt, j, target) then j'.v == 0.0
                else Abs(j'.v - j.v) <= Step(l, dt) && j'.q == j.q + j'.v * dt)
            && (l.bounds.Some? ==>
                  Band(l.bounds.value, target, j.q).0 <= j'.q <= Band(l.bounds.value, target, j.q).1)
  {
    hide Speed, Step, IsSqrt, Saturate, Leaves;
    SpeedBounds(sqrt, l, dt, j, target);
    SaturateBounds(l.bounds, target, j.q, Coast(j.q, dt, Speed(sqrt, l, dt, j, target)));
  }

  lemma SaturateBounds(bounds: Option<(real, real)>, target: real, from: real, next: Joint)
    requires bounds.Some? ==> bounds.value.0 <= bounds.value.1
    ensures var j' := Saturate(bounds, target, from, next);
            && j' == (if Leaves(bounds, target, from, next.q) then Joint(j'.q, 0.0) else next)
            && (bounds.Some? ==> Band(bounds.value, target, from).0 <= j'.q <= Band(bounds.value, target, from).1)
  {
  }

  /** Over any run: the speed limit, and a command inside every interval that holds the envelope, the
      start and the targets. With `low, high` the envelope itself, a command once inside stays inside. */
  lemma {:induction false} FollowStaysInHull(sqrt: real -> real, l: Limits, dt: real, j: Joint, targets: seq<real>,
                                             low: real, high: real)
    requires ValidLimits(l) && dt > 0.0 && IsSqrt(sqrt)
    requires l.bounds.Some? && low <= l.bounds.value.0 && l.bounds.value.1 <= high
    requires Abs(j.v) <= l.vMax && low <= j.q <= high
    requires forall k :: 0 <= k < |targets| ==> low <= targets[k] <= high
    ensures var j' := Follow(sqrt, l, dt, j, targets); Abs(j'.v) <= l.vMax && low <= j'.q <= high
    decreases |targets|
  {
    hide Tick;
    if targets != [] {
      TickBounds(sqrt, l, dt, j, targets[0]);
      FollowStaysInHull(sqrt, l, dt, Tick(sqrt, l, dt, j, targets[0]), targets[1..], low, high);
    }
  }

  // ---- a fixed target, from rest --------------------------------------------------------------

  /** Least progress per tick while the target is further than one such step. */
  function Pace(l: Limits, dt: real): real
    requires ValidLimits(l) && dt > 0.0
  {
    Min(Step(l, dt), l.vMax)
  }

  lemma RootSize(s: real, y: real, root: real)
    requires s > 0.0 && y >= 0.0 && root >= 0.0 && root * (root + s) == 2.0 * s * y
    ensures y <= s ==> y <= root
    ensures s <= y ==> s <= root <= y
  {
    assert y * (y + s) - 2.0 * s * y == y * (y - s);
    assert y <= s ==> y * (y - s) <= 0.0;
    assert s <= y ==> y * (y - s) >= 0.0;
    if root < y {
      Grows(root, y, s);
    } else {
      Grows(y, root, s);
    }
    if root < s {
      Grows(root, s, s);
      assert s <= y ==> s * s <= s * y;
    }
  }

  lemma Grows(a: real, b: real, s: real)
    requires s > 0.0 && 0.0 <= a <= b
    ensures a * (a + s) <= b * (b + s)
    ensures a < b ==> a * (a + s) < b * (b + s)
  {
    assert b * (b + s) - a * (a + s) == (b - a) * (b + a + s);
  }

  /** The desired speed towards a target `y >= 0` ahead. */
  lemma DesiredSpeed(s: real, vMax: real, y: real, root: real, cap: real)
    requires s > 0.0 && vMax > 0.0 && y >= 0.0 && IsCap(s, vMax, y, root, cap)
    ensures var d := Clip(y, -cap, cap);
            && 0.0 <= d <= y && d <= vMax && d * (d + s) <= 2.0 * s * y
            && (Min(s, vMax) < y ==> Min(s, vMax) <= d)
            && (y <= Min(s, vMax) ==> d == y)
  {
    RootSize(s, y, root);
    var d := Clip(y, -cap, cap);
    assert d <= root;
    Grows(d, root, s);
  }

  lemma Square(x: real)
    ensures x * x >= 0.0
  {
  }

  /** Braking at full deceleration past the target: how far past it can get. */
  lemma PastTarget(s: real, y: real, v: real, w: real)
    requires s > 0.0 && y >= 0.0 && v * (v - s) <= 2.0 * s * y && w == v - s && y < w
    ensures w < s && w - y <= s / 8.0 && w - y <= s - w
  {
    assert w * (w + s) <= 2.0 * s * y < 2.0 * s * w;
    assert w * (w + s) - 2.0 * s * w == w * (w - s);
    assert w < s;
    Square(2.0 * w - s);
    assert 4.0 * w * (s - w) <= s * s;
    assert 2.0 * s * (w - y) <= w * (s - w);
    assert 2.0 * s * (w - y) <= s * s / 4.0;
    assert w * (s - w) <= 2.0 * s * (s - w);
    Divide(s, w - y, s / 8.0);
    Divide(s, w - y, s - w);
  }

  lemma Divide(s: real, a: real, b: real)
    requires s > 0.0 && s * a <= s * b
    ensures a <= b
  {
  }

  /** From speed `v`, braking one tick at a time still stops within `y`. */
  predicate CanStop(s: real, y: real, v: real) {
    v * (v - s) <= 2.0 * s * y
  }

  /** How a braking tick of speed `w` towards a target `y` ahead ends: short of the target, with progress
      and still able to brake; or on it; or past it by at most an eighth, able to land with the next tick. */
  predicate EndsWell(s: real, vMax: real, y: real, w: real) {
    && 0.0 <= w <= vMax
    && (Min(s, vMax) < y ==> Min(s, vMax) <= w <= y && CanStop(s, y - w, w))
    && (y <= Min(s, vMax) ==> w == y || (y < w <= y + s / 8.0 && w < s && w - y <= s - w))
  }

  /** The desired speed `d` is within reach, or above it. */
  lemma BrakeSoftly(s: real, vMax: real, y: real, v: real, d: real, w: real)
    requires s > 0.0 && vMax > 0.0 && 0.0 <= y && 0.0 <= v <= vMax && v - s <= d
    requires 0.0 <= d <= y && d <= vMax && d * (d + s) <= 2.0 * s * y
    requires Min(s, vMax) < y ==> Min(s, vMax) <= d
    requires y <= Min(s, vMax) ==> d == y
    requires w == Clip(d, v - s, v + s)
    ensures EndsWell(s, vMax, y, w)
  {
    assert 0.0 <= w <= d;
    SlowerStops(s, y, d, w);
  }

  lemma SlowerStops(s: real, y: real, d: real, w: real)
    requires s > 0.0 && 0.0 <= w <= d <= y && d * (d + s) <= 2.0 * s * y
    ensures CanStop(s, y - w, w)
  {
    Grows(w, d, s);
    assert w * (w - s) == w * (w + s) - 2.0 * s * w;
  }

  /** The desired speed `d` is more than one deceleration away. */
  lemma BrakeHard(s: real, vMax: real, y: real, v: real, d: real, w: real)
    requires s > 0.0 && vMax > 0.0 && 0.0 <= y && 0.0 <= v <= vMax && d < v - s
    requires v * (v - s) <= 2.0 * s * y
    requires 0.0 <= d <= y && d <= vMax
    requires Min(s, vMax) < y ==> Min(s, vMax) <= d
    requires y <= Min(s, vMax) ==> d == y
    requires w == Clip(d, v - s, v + s)
    ensures EndsWell(s, vMax, y, w)
  {
    assert w == v - s;
    assert w * (w - s) == w * (w + s) - 2.0 * s * w;
    if y < w {
      PastTarget(s, y, v, w);
    }
  }

  lemma BrakeApproach(s: real, vMax: real, y: real, v: real, root: real, cap: real)
    requires s > 0.0 && vMax > 0.0 && IsCap(s, vMax, y, root, cap)
    requires 0.0 <= y && 0.0 <= v <= vMax && CanStop(s, y, v)
    ensures EndsWell(s, vMax, y, Brake(s, cap, y, v))
  {
    DesiredSpeed(s, vMax, y, root, cap);
    LandingAdjustmentIsIdle(s, cap, y, v);
    hide IsCap, Clip, Min, Max, Abs, EndsWell, Brake;
    var d := Clip(y, -cap, cap);
    var w := Clip(d, v - s, v + s);
    if v - s <= d {
      BrakeSoftly(s, vMax, y, v, d, w);
    } else {
      BrakeHard(s, vMax, y, v, d, w);
    }
  }

  /** How far ahead the target is, in units of speed. */
  function Ahead(dt: real, target: real, j: Joint): real
    requires dt > 0.0
  {
    (target - j.q) / dt
  }

  predicate Inside(bounds: Option<(real, real)>, target: real) {
    bounds.Some? ==> bounds.value.0 <= target <= bounds.value.1
  }

  /** Below or on the target, moving up no faster than it can still brake from. */
  predicate Approaching(l: Limits, dt: real, target: real, j: Joint)
    requires ValidLimits(l) && dt > 0.0
  {
    var s, y := Step(l, dt), Ahead(dt, target, j);
    0.0 <= y && 0.0 <= j.v <= l.vMax && CanStop(s, y, j.v)
  }

  /** Past the target, close and slow enough to land on it with the next tick. */
  predicate Overshot(l: Limits, dt: real, target: real, j: Joint)
    requires ValidLimits(l) && dt > 0.0
  {
    var s, past := Step(l, dt), -Ahead(dt, target, j);
    0.0 < past <= s / 8.0 && 0.0 <= j.v && past <= s - j.v && past <= l.vMax
  }

  /** On the target, slow enough to be stopped by the next tick. */
  predicate Landed(l: Limits, dt: real, target: real, j: Joint)
    requires ValidLimits(l) && dt > 0.0
  {
    j.q == target && Abs(j.v) <= Step(l, dt)
  }

  lemma Moved(dt: real, target: real, q: real, y: real, w: real)
    requires dt > 0.0 && y == (target - q) / dt
    ensures (target - (q + w * dt)) / dt == y - w
    ensures w <= y <==> q + w * dt <= target
    ensures w == y ==> q + w * dt == target
    ensures 0.0 <= w ==> q <= q + w * dt
  {
    assert target - q == y * dt;
    assert target - (q + w * dt) == (y - w) * dt;
  }

  lemma Nearer(dt: real, a: real, b: real)
    requires dt > 0.0 && a <= b
    ensures a / dt <= b / dt
    ensures a < b ==> a / dt < b / dt
  {
  }

  lemma SpeedEndsWell(sqrt: real -> real, l: Limits, dt: real, j: Joint, target: real)
    requires ValidLimits(l) && dt > 0.0 && IsSqrt(sqrt) && Approaching(l, dt, target, j)
    ensures EndsWell(Step(l, dt), l.vMax, Ahead(dt, target, j), Speed(sqrt, l, dt, j, target))
  {
    hide IsCap, Brake, Speed, Step, EndsWell, CanStop;
    var root, cap := SpeedIsBrake(sqrt, l, dt, j, target);
    BrakeApproach(Step(l, dt), l.vMax, Ahead(dt, target, j), j.v, root, cap);
  }

  /** What the envelope does to a tick that ends well. */
  lemma SaturateEndsWell(l: Limits, dt: real, s: real, j: Joint, target: real, w: real, y: real)
    requires ValidLimits(l) && dt > 0.0 && s > 0.0 && Inside(l.bounds, target)
    requires y == Ahead(dt, target, j) >= 0.0 && EndsWell(s, l.vMax, y, w)
    ensures var next := Saturate(l.bounds, target, j.q, Joint(j.q + w * dt, w));
            && j.q <= next.q
            && (w <= y ==> next.v == w && Ahead(dt, target, next) == y - w && (w == y ==> next.q == target))
            && (y < w ==> next.q >= target && Ahead(dt, target, next) >= y - w
                          && (next.v == w || next.v == 0.0) && (next.q == target ==> next.v == 0.0))
  {
    Moved(dt, target, j.q, y, w);
    Nearer(dt, 0.0, target - j.q);
    assert j.q <= target by {
      if target < j.q {
        Nearer(dt, target - j.q, 0.0);
      }
    }
    var next := Saturate(l.bounds, target, j.q, Joint(j.q + w * dt, w));
    if y < w {
      Nearer(dt, target - (j.q + w * dt), target - next.q);
    }
  }

  /** A tick below the target. */
  lemma TickApproach(sqrt: real -> real, l: Limits, dt: real, j: Joint, target: real)
    requires ValidLimits(l) && dt > 0.0 && IsSqrt(sqrt) && Inside(l.bounds, target)
    requires Approaching(l, dt, target, j)
    ensures var j' := Tick(sqrt, l, dt, j, target);
            && j.q <= j'.q
            && (Pace(l, dt) < Ahead(dt, target, j) ==>
                  Approaching(l, dt, target, j') && Ahead(dt, target, j') <= Ahead(dt, target, j) - Pace(l, dt))
            && (Ahead(dt, target, j) <= Pace(l, dt) ==> Landed(l, dt, target, j') || Overshot(l, dt, target, j'))
  {
    hide Speed, Saturate, Step, Ahead, CanStop, IsSqrt, Inside;
    SpeedEndsWell(sqrt, l, dt, j, target);
    var s, y, w := Step(l, dt), Ahead(dt, target, j), Speed(sqrt, l, dt, j, target);
    SaturateEndsWell(l, dt, s, j, target, w, y);
    var j' := Tick(sqrt, l, dt, j, target);
    if y < w {
      PastIsNegative(dt, target, j');
    }
  }

  lemma PastIsNegative(dt: real, target: real, j: Joint)
    requires dt > 0.0 && j.q >= target
    ensures Ahead(dt, target, j) <= 0.0
    ensures j.q > target ==> Ahead(dt, target, j) < 0.0
  {
    Nearer(dt, target - j.q, 0.0);
  }

  /** A target within one speed unit, on either side, that the speed can reach: the tick lands on it. */
  lemma BrakeLands(s: real, vMax: real, y: real, v: real, root: real, cap: real)
    requires s > 0.0 && vMax > 0.0 && IsCap(s, vMax, y, root, cap)
    requires Abs(y) <= s && Abs(y) <= vMax && Abs(y - v) <= s
    ensures Brake(s, cap, y, v) == y
  {
    RootSize(s, Abs(y), root);
  }

  lemma TickLands(sqrt: real -> real, l: Limits, dt: real, j: Joint, target: real)
    requires ValidLimits(l) && dt > 0.0 && IsSqrt(sqrt) && Inside(l.bounds, target)
    requires var s, y := Step(l, dt), Ahead(dt, target, j);
             Abs(y) <= s && Abs(y) <= l.vMax && Abs(y - j.v) <= s
    ensures Tick(sqrt, l, dt, j, target) == Joint(target, Ahead(dt, target, j))
  {
    hide IsCap, Brake, Speed, Step, IsSqrt;
    var y := Ahead(dt, target, j);
    var root, cap := SpeedIsBrake(sqrt, l, dt, j, target);
    BrakeLands(Step(l, dt), l.vMax, y, j.v, root, cap);
    Moved(dt, target, j.q, y, y);
  }

  /** One tick past the target, and the joint is on it. */
  lemma TickOvershot(sqrt: real -> real, l: Limits, dt: real, j: Joint, target: real)
    requires ValidLimits(l) && dt > 0.0 && IsSqrt(sqrt) && Inside(l.bounds, target)
    requires Overshot(l, dt, target, j)
    ensures Landed(l, dt, target, Tick(sqrt, l, dt, j, target))
  {
    hide Tick, Step, Ahead, IsSqrt, Inside;
    TickLands(sqrt, l, dt, j, target);
  }

  /** On the target the next tick stops, and a stopped joint stays. */
  lemma TickLanded(sqrt: real -> real, l: Limits, dt: real, j: Joint, target: real)
    requires ValidLimits(l) && dt > 0.0 && IsSqrt(sqrt) && Inside(l.bounds, target)
    requires Landed(l, dt, target, j)
    ensures Tick(sqrt, l, dt, j, target) == Joint(target, 0.0)
  {
    assert Ahead(dt, target, j) == 0.0;
    hide Tick, Step, Ahead, IsSqrt, Inside;
    TickLands(sqrt, l, dt, j, target);
  }

  /** A stopped joint on its target never moves again. */
  lemma {:induction false} RestStays(sqrt: real -> real, l: Limits, dt: real, target: real, n: nat)
    requires ValidLimits(l) && dt > 0.0 && IsSqrt(sqrt) && Inside(l.bounds, target)
    ensures Seek(sqrt, l, dt, Joint(target, 0.0), target, n) == Joint(target, 0.0)
  {
    hide Tick, IsSqrt, Inside;
    if n > 0 {
      TickLanded(sqrt, l, dt, Joint(target, 0.0), target);
      RestStays(sqrt, l, dt, target, n - 1);
    }
  }

  /** Two more ticks after an overshoot, or one after a landing, and it rests. */
  lemma SettlesSoon(sqrt: real -> real, l: Limits, dt: real, j: Joint, target: real, n: nat)
    requires ValidLimits(l) && dt > 0.0 && IsSqrt(sqrt) && Inside(l.bounds, target)
    requires Landed(l, dt, target, j) || Overshot(l, dt, target, j)
    requires n >= 2
    ensures Seek(sqrt, l, dt, j, target, n) == Joint(target, 0.0)
  {
    hide Tick, IsSqrt, Inside, Landed, Overshot;
    var j' := Tick(sqrt, l, dt, j, target);
    if Landed(l, dt, target, j) {
      TickLanded(sqrt, l, dt, j, target);
      RestStays(sqrt, l, dt, target, n - 1);
    } else {
      TickOvershot(sqrt, l, dt, j, target);
      TickLanded(sqrt, l, dt, j', target);
      RestStays(sqrt, l, dt, target, n - 2);
    }
  }

  lemma MoreThanOneTick(k: real, y: real, pace: real)
    requires pace > 0.0 && pace < y <= k * pace
    ensures k > 1.0
  {
  }

  /** An approach lands and rests within three ticks more than it takes at the least pace. */
  lemma {:induction false} ApproachSettles(sqrt: real -> real, l: Limits, dt: real, j: Joint, target: real, n: nat)
    requires ValidLimits(l) && dt > 0.0 && IsSqrt(sqrt) && Inside(l.bounds, target)
    requires Approaching(l, dt, target, j)
    requires n >= 3 && Ahead(dt, target, j) <= (n - 2) as real * Pace(l, dt)
    ensures Seek(sqrt, l, dt, j, target, n) == Joint(target, 0.0)
    decreases n
  {
    hide Tick, IsSqrt, Inside, Landed, Overshot, Ahead, Pace, Approaching;
    TickApproach(sqrt, l, dt, j, target);
    var j' := Tick(sqrt, l, dt, j, target);
    if Ahead(dt, target, j) <= Pace(l, dt) {
      SettlesSoon(sqrt, l, dt, j', target, n - 1);
    } else {
      assert (n - 2) as real * Pace(l, dt) - Pace(l, dt) == (n - 3) as real * Pace(l, dt);
      MoreThanOneTick((n - 2) as real, Ahead(dt, target, j), Pace(l, dt));
      ApproachSettles(sqrt, l, dt, j', target, n - 1);
    }
  }

  /** Where a joint seeking a fixed target from below can be. */
  predicate OnCourse(l: Limits, dt: real, target: real, j: Joint)
    requires ValidLimits(l) && dt > 0.0
  {
    Approaching(l, dt, target, j) || Overshot(l, dt, target, j) || Landed(l, dt, target, j)
  }

  /** A tick keeps the joint on course and never moves it back below its start or the target. */
  lemma TickOnCourse(sqrt: real -> real, l: Limits, dt: real, j: Joint, target: real)
    requires ValidLimits(l) && dt > 0.0 && IsSqrt(sqrt) && Inside(l.bounds, target)
    requires OnCourse(l, dt, target, j)
    ensures var j' := Tick(sqrt, l, dt, j, target);
            && OnCourse(l, dt, target, j')
            && Min(j.q, target) <= j'.q
  {
    hide Tick, IsSqrt, Inside, Landed, Overshot, Approaching, Ahead, Step;
    if Approaching(l, dt, target, j) {
      TickApproach(sqrt, l, dt, j, target);
    } else if Overshot(l, dt, target, j) {
      TickOvershot(sqrt, l, dt, j, target);
      LandedRests(l, dt, Tick(sqrt, l, dt, j, target), target);
    } else {
      TickLanded(sqrt, l, dt, j, target);
      LandedRests(l, dt, j, target);
    }
  }

  lemma LandedRests(l: Limits, dt: real, j: Joint, target: real)
    requires ValidLimits(l) && dt > 0.0 && Landed(l, dt, target, j)
    ensures Landed(l, dt, target, Joint(target, 0.0)) && Abs(j.v) <= Step(l, dt) && j.q == target
  {
  }

  lemma {:induction false} StaysOnCourse(sqrt: real -> real, l: Limits, dt: real, j: Joint, target: real, n: nat)
    requires ValidLimits(l) && dt > 0.0 && IsSqrt(sqrt) && Inside(l.bounds, target)
    requires OnCourse(l, dt, target, j)
    ensures OnCourse(l, dt, target, Seek(sqrt, l, dt, j, target, n))
    ensures Min(j.q, target) <= Seek(sqrt, l, dt, j, target, n).q
    decreases n
  {
    hide Tick, IsSqrt, Inside, OnCourse, Step;
    if n > 0 {
      TickOnCourse(sqrt, l, dt, j, target);
      StaysOnCourse(sqrt, l, dt, Tick(sqrt, l, dt, j, target), target, n - 1);
    }
  }

  lemma CourseEndsNear(l: Limits, dt: real, j: Joint, target: real)
    requires ValidLimits(l) && dt > 0.0 && OnCourse(l, dt, target, j)
    ensures j.q <= target + l.aMax * dt * dt / 8.0
  {
    assert l.aMax * dt * dt == Step(l, dt) * dt;
    assert target - j.q == Ahead(dt, target, j) * dt;
    if Overshot(l, dt, target, j) {
      assert -Ahead(dt, target, j) * dt <= Step(l, dt) / 8.0 * dt;
    }
  }

  // ---- the law does not distinguish up from down ----------------------------------------------

  function Mirror(j: Joint): Joint {
    Joint(-j.q, -j.v)
  }

  function MirrorLimits(l: Limits): Limits {
    l.(bounds := if l.bounds.Some? then Some((-l.bounds.value.1, -l.bounds.value.0)) else None)
  }

  lemma MirrorStep(l: Limits, dt: real)
    requires ValidLimits(l) && dt > 0.0
    ensures Step(MirrorLimits(l), dt) == Step(l, dt)
  {
  }

  lemma MirrorSpeed(sqrt: real -> real, l: Limits, dt: real, j: Joint, target: real)
    requires ValidLimits(l) && dt > 0.0 && IsSqrt(sqrt)
    ensures Speed(sqrt, MirrorLimits(l), dt, Mirror(j), -target) == -Speed(sqrt, l, dt, j, target)
  {
    hide Brake, Speed, IsSqrt, IsCap, Step;
    var s, y := Step(l, dt), (target - j.q) / dt;
    var root, cap := SpeedIsBrake(sqrt, l, dt, j, target);
    var root', cap' := SpeedIsBrake(sqrt, MirrorLimits(l), dt, Mirror(j), -target);
    MirrorStep(l, dt);
    assert (-target - (-j.q)) / dt == -y;
    CapUnique(s, l.vMax, y, root, cap, root', cap');
    MirrorBrake(s, cap, y, j.v);
  }

  lemma CapUnique(s: real, vMax: real, y: real, a: real, cap: real, b: real, cap': real)
    requires s > 0.0 && vMax > 0.0 && IsCap(s, vMax, y, a, cap) && IsCap(s, vMax, -y, b, cap')
    ensures cap' == cap >= 0.0
  {
    if a < b {
      Grows(a, b, s);
    } else {
      Grows(b, a, s);
    }
  }

  lemma MirrorBrake(s: real, cap: real, y: real, v: real)
    requires s > 0.0 && cap >= 0.0
    ensures Brake(s, cap, -y, -v) == -Brake(s, cap, y, v)
  {
    var w := Clip(Clip(y, -cap, cap), v - s, v + s);
    assert Clip(Clip(-y, -cap, cap), -v - s, -v + s) == -w;
    assert (-y - (-w)) * (-y) == (y - w) * y;
  }

  lemma MirrorTick(sqrt: real -> real, l: Limits, dt: real, j: Joint, target: real)
    requires ValidLimits(l) && dt > 0.0 && IsSqrt(sqrt)
    ensures Tick(sqrt, MirrorLimits(l), dt, Mirror(j), -target) == Mirror(Tick(sqrt, l, dt, j, target))
  {
    hide Speed, IsSqrt, Coast, Saturate;
    MirrorSpeed(sqrt, l, dt, j, target);
    var v := Speed(sqrt, l, dt, j, target);
    MirrorCoast(j.q, dt, v);
    MirrorSaturate(l, target, j.q, Coast(j.q, dt, v));
  }

  lemma MirrorCoast(q: real, dt: real, v: real)
    ensures Coast(-q, dt, -v) == Mirror(Coast(q, dt, v))
  {
    assert (-v) * dt == -(v * dt);
  }

  lemma MirrorSaturate(l: Limits, target: real, from: real, next: Joint)
    requires ValidLimits(l)
    ensures Saturate(MirrorLimits(l).bounds, -target, -from, Mirror(next))
         == Mirror(Saturate(l.bounds, target, from, next))
  {
  }

  lemma {:induction false} MirrorSeek(sqrt: real -> real, l: Limits, dt: real, j: Joint, target: real, n: nat)
    requires ValidLimits(l) && dt > 0.0 && IsSqrt(sqrt)
    ensures Seek(sqrt, MirrorLimits(l), dt, Mirror(j), -target, n) == Mirror(Seek(sqrt, l, dt, j, target, n))
    decreases n
  {
    hide Tick, IsSqrt;
    if n > 0 {
      MirrorTick(sqrt, l, dt, j, target);
      MirrorSeek(sqrt, l, dt, Tick(sqrt, l, dt, j, target), target, n - 1);
    }
  }

  // ---- main results on a fixed target ---------------------------------------------------------

  lemma RestApproaches(l: Limits, dt: real, q: real, target: real)
    requires ValidLimits(l) && dt > 0.0 && q <= target
    ensures Approaching(l, dt, target, Joint(q, 0.0))
    ensures Ahead(dt, target, Joint(q, 0.0)) * dt == target - q
  {
    Nearer(dt, 0.0, target - q);
  }

  lemma MirrorPace(l: Limits, dt: real)
    requires ValidLimits(l) && dt > 0.0
    ensures Pace(MirrorLimits(l), dt) == Pace(l, dt)
  {
  }

  /** From rest, a target held inside the envelope: on it and stopped within three ticks more than the
      distance takes at the least pace, and there from then on. */
  lemma SettlesOnTarget(sqrt: real -> real, l: Limits, dt: real, q: real, target: real, n: nat)
    requires ValidLimits(l) && dt > 0.0 && IsSqrt(sqrt) && Inside(l.bounds, target)
    requires n >= 3 && Abs(target - q) <= (n - 2) as real * (Pace(l, dt) * dt)
    ensures Seek(sqrt, l, dt, Joint(q, 0.0), target, n) == Joint(target, 0.0)
  {
    hide Tick, IsSqrt, Ahead, Pace, Approaching;
    if q <= target {
      RestApproaches(l, dt, q, target);
      EnoughTicks(dt, target - q, Ahead(dt, target, Joint(q, 0.0)), (n - 2) as real, Pace(l, dt));
      ApproachSettles(sqrt, l, dt, Joint(q, 0.0), target, n);
    } else {
      var m := MirrorLimits(l);
      RestApproaches(m, dt, -q, -target);
      MirrorPace(l, dt);
      EnoughTicks(dt, q - target, Ahead(dt, -target, Joint(-q, 0.0)), (n - 2) as real, Pace(l, dt));
      ApproachSettles(sqrt, m, dt, Joint(-q, 0.0), -target, n);
      MirrorSeek(sqrt, l, dt, Joint(q, 0.0), target, n);
    }
  }

  lemma EnoughTicks(dt: real, d: real, y: real, k: real, pace: real)
    requires dt > 0.0 && y * dt == d && d <= k * (pace * dt)
    ensures y <= k * pace
  {
    assert k * (pace * dt) == k * pace * dt;
  }

  /** ... and at every tick on the way it is between its start and `a * dt^2 / 8` past the target. */
  lemma NeverFarPast(sqrt: real -> real, l: Limits, dt: real, q: real, target: real, n: nat)
    requires ValidLimits(l) && dt > 0.0 && IsSqrt(sqrt) && Inside(l.bounds, target)
    ensures var q', past := Seek(sqrt, l, dt, Joint(q, 0.0), target, n).q, l.aMax * dt * dt / 8.0;
            if q <= target then q <= q' <= target + past else target - past <= q' <= q
  {
    hide Tick, IsSqrt, Approaching, Step;
    if q <= target {
      RestApproaches(l, dt, q, target);
      StaysOnCourse(sqrt, l, dt, Joint(q, 0.0), target, n);
      CourseEndsNear(l, dt, Seek(sqrt, l, dt, Joint(q, 0.0), target, n), target);
    } else {
      var m := MirrorLimits(l);
      RestApproaches(m, dt, -q, -target);
      StaysOnCourse(sqrt, m, dt, Joint(-q, 0.0), -target, n);
      MirrorSeek(sqrt, l, dt, Joint(q, 0.0), target, n);
      CourseEndsNear(m, dt, Seek(sqrt, m, dt, Joint(-q, 0.0), -target, n), -target);
    }
  }

  /** Full braking from its speed would still carry the joint past a target above it. */
  predicate TooFast(l: Limits, dt: real, target: real, j: Joint)
    requires ValidLimits(l) && dt > 0.0
  {
    (j.v - Step(l, dt)) * dt > target - j.q
  }

  lemma BrakePasses(s: real, vMax: real, y: real, v: real, root: real, cap: real)
    requires s > 0.0 && vMax > 0.0 && y >= 0.0 && IsCap(s, vMax, y, root, cap)
    ensures Brake(s, cap, y, v) > y <==> v - s > y
  {
    DesiredSpeed(s, vMax, y, root, cap);
    LandingAdjustmentIsIdle(s, cap, y, v);
  }

  /** Any tick towards any target not below the joint ends above that target exactly when full braking would, and the
      target is not the limit the envelope stops it at. */
  lemma TickPassesExactly(sqrt: real -> real, l: Limits, dt: real, j: Joint, target: real)
    requires ValidLimits(l) && dt > 0.0 && IsSqrt(sqrt) && j.q <= target
    ensures Tick(sqrt, l, dt, j, target).q > target
            <==> TooFast(l, dt, target, j) && (l.bounds.Some? ==> target < l.bounds.value.1)
  {
    hide IsCap, Brake, Speed, Step, IsSqrt, Saturate;
    var y, s, w := Ahead(dt, target, j), Step(l, dt), Speed(sqrt, l, dt, j, target);
    Nearer(dt, 0.0, target - j.q);
    var root, cap := SpeedIsBrake(sqrt, l, dt, j, target);
    BrakePasses(s, l.vMax, y, j.v, root, cap);
    Moved(dt, target, j.q, y, w);
    Moved(dt, target, j.q, y, j.v - s);
    SaturatePasses(l.bounds, target, j.q, Coast(j.q, dt, w));
  }

  lemma SaturatePasses(bounds: Option<(real, real)>, target: real, from: real, next: Joint)
    requires from <= target && (bounds.Some? ==> bounds.value.0 <= bounds.value.1)
    ensures Saturate(bounds, target, from, next).q > target
            <==> next.q > target && (bounds.Some? ==> target < bounds.value.1)
  {
  }

  lemma {:induction false} SeekOneMore(sqrt: real -> real, l: Limits, dt: real, j: Joint, target: real, n: nat)
    requires ValidLimits(l) && dt > 0.0
    ensures Seek(sqrt, l, dt, j, target, n + 1) == Tick(sqrt, l, dt, Seek(sqrt, l, dt, j, target, n), target)
    decreases n
  {
    hide Tick;
    if n > 0 {
      SeekOneMore(sqrt, l, dt, Tick(sqrt, l, dt, j, target), target, n - 1);
    }
  }

  lemma PastIsSlow(l: Limits, dt: real, j: Joint, target: real)
    requires ValidLimits(l) && dt > 0.0 && Overshot(l, dt, target, j)
    ensures !TooFast(l, dt, target, j) && Abs(Ahead(dt, target, j)) <= Step(l, dt)
  {
    Moved(dt, target, j.q, Ahead(dt, target, j), j.v - Step(l, dt));
  }

  /** One tick of a joint on course ends past the target exactly when full braking would. */
  lemma CoursePassesExactly(sqrt: real -> real, l: Limits, dt: real, j: Joint, target: real)
    requires ValidLimits(l) && dt > 0.0 && IsSqrt(sqrt) && Inside(l.bounds, target) && OnCourse(l, dt, target, j)
    ensures Tick(sqrt, l, dt, j, target).q > target
            <==> TooFast(l, dt, target, j) && (l.bounds.Some? ==> target < l.bounds.value.1)
  {
    hide Tick, IsSqrt, Inside, TooFast, Overshot, Step;
    if Overshot(l, dt, target, j) {
      PastIsSlow(l, dt, j, target);
      TickOvershot(sqrt, l, dt, j, target);
    } else {
      if Approaching(l, dt, target, j) && j.q > target {
        PastIsNegative(dt, target, j);
      }
      TickPassesExactly(sqrt, l, dt, j, target);
    }
  }

  /** From rest towards a target held inside the envelope: which tick ends past it. It is the one at whose start full
      braking would carry the joint past, unless the target is the limit itself; towards a limit no tick does. */
  lemma PassesExactly(sqrt: real -> real, l: Limits, dt: real, q: real, target: real, n: nat)
    requires ValidLimits(l) && dt > 0.0 && IsSqrt(sqrt) && Inside(l.bounds, target)
    ensures var j, q' := Seek(sqrt, l, dt, Joint(q, 0.0), target, n),
                         Seek(sqrt, l, dt, Joint(q, 0.0), target, n + 1).q;
            if q <= target then
              q' > target <==> (j.v - Step(l, dt)) * dt > target - j.q
                               && (l.bounds.Some? ==> target < l.bounds.value.1)
            else
              q' < target <==> (-j.v - Step(l, dt)) * dt > j.q - target
                               && (l.bounds.Some? ==> l.bounds.value.0 < target)
  {
    hide Tick, IsSqrt, Approaching, Overshot, Landed, Step;
    SeekOneMore(sqrt, l, dt, Joint(q, 0.0), target, n);
    if q <= target {
      RestApproaches(l, dt, q, target);
      StaysOnCourse(sqrt, l, dt, Joint(q, 0.0), target, n);
      CoursePassesExactly(sqrt, l, dt, Seek(sqrt, l, dt, Joint(q, 0.0), target, n), target);
    } else {
      var m := MirrorLimits(l);
      RestApproaches(m, dt, -q, -target);
      StaysOnCourse(sqrt, m, dt, Joint(-q, 0.0), -target, n);
      MirrorSeek(sqrt, l, dt, Joint(q, 0.0), target, n);
      MirrorTick(sqrt, l, dt, Seek(sqrt, l, dt, Joint(q, 0.0), target, n), target);
      MirrorStep(l, dt);
      CoursePassesExactly(sqrt, m, dt, Seek(sqrt, m, dt, Joint(-q, 0.0), -target, n), -target);
    }
  }

  // ---- any stream of targets inside the envelope ------------------------------------------------

  /** Braking one tick at a time still stops below `edge`, `u` ahead in units of speed. */
  predicate Brakable(s: real, u: real, v: real) {
    v <= 0.0 || CanStop(s, u, v)
  }

  lemma BrakeStaysBrakable(s: real, vMax: real, y: real, u: real, v: real, root: real, cap: real)
    requires s > 0.0 && vMax > 0.0 && IsCap(s, vMax, y, root, cap)
    requires y <= u && 0.0 <= u && Brakable(s, u, v)
    ensures var w := Brake(s, cap, y, v);
            Brakable(s, u - w, w) && (u < w ==> 0.0 < w == v - s <= s)
  {
    LandingAdjustmentIsIdle(s, cap, y, v);
    if y >= 0.0 {
      DesiredSpeed(s, vMax, y, root, cap);
    }
    var d := Clip(y, -cap, cap);
    var w := Clip(d, v - s, v + s);
    assert y < 0.0 ==> d <= 0.0;
    hide IsCap, Brake, CanStop, Min;
    if w > 0.0 {
      if v - s <= d {
        assert 0.0 < w <= d <= y;
        PartBrake(s, y, u, d, w);
      } else {
        FullBrake(s, u, v, w);
      }
    }
  }

  lemma PartBrake(s: real, y: real, u: real, d: real, w: real)
    requires s > 0.0 && 0.0 < w <= d <= y <= u && d * (d + s) <= 2.0 * s * y
    ensures CanStop(s, u - w, w)
  {
    assert 2.0 * s * y <= 2.0 * s * u;
    SlowerStops(s, u, d, w);
  }

  lemma FullBrake(s: real, u: real, v: real, w: real)
    requires s > 0.0 && u >= 0.0 && w == v - s && w > 0.0 && CanStop(s, u, v)
    ensures CanStop(s, u - w, w) && (u < w ==> v <= 2.0 * s)
  {
    assert w * (w - s) == w * (w + s) - 2.0 * s * w;
    if u < w {
      PastTarget(s, u, v, w);
    }
  }

  /** Room to the upper limit, in units of speed. */
  function Room(l: Limits, dt: real, j: Joint): real
    requires l.bounds.Some? && dt > 0.0
  {
    Ahead(dt, l.bounds.value.1, j)
  }

  /** In the envelope, and able to stop below its upper limit. */
  predicate SafeAbove(l: Limits, dt: real, j: Joint)
    requires ValidLimits(l) && dt > 0.0
  {
    l.bounds.Some? && l.bounds.value.0 <= j.q <= l.bounds.value.1 && Brakable(Step(l, dt), Room(l, dt, j), j.v)
  }

  lemma SpeedStaysBrakable(sqrt: real -> real, l: Limits, dt: real, j: Joint, target: real)
    requires ValidLimits(l) && dt > 0.0 && IsSqrt(sqrt) && l.bounds.Some? && Inside(l.bounds, target)
    requires SafeAbove(l, dt, j)
    ensures var s, u, w := Step(l, dt), Room(l, dt, j), Speed(sqrt, l, dt, j, target);
            Brakable(s, u - w, w) && (u < w ==> 0.0 < w == j.v - s <= s)
  {
    hide IsCap, Brake, Speed, Step, Brakable, IsSqrt, CanStop;
    var upper := l.bounds.value.1;
    Nearer(dt, target - j.q, upper - j.q);
    Nearer(dt, 0.0, upper - j.q);
    var root, cap := SpeedIsBrake(sqrt, l, dt, j, target);
    BrakeStaysBrakable(Step(l, dt), l.vMax, Ahead(dt, target, j), Room(l, dt, j), j.v, root, cap);
  }

  lemma SaturateSafe(l: Limits, dt: real, s: real, j: Joint, target: real, w: real)
    requires ValidLimits(l) && dt > 0.0 && s > 0.0 && l.bounds.Some? && Inside(l.bounds, target)
    requires l.bounds.value.0 <= j.q <= l.bounds.value.1 && Brakable(s, Room(l, dt, j) - w, w)
    ensures var j' := Saturate(l.bounds, target, j.q, Coast(j.q, dt, w));
            l.bounds.value.0 <= j'.q <= l.bounds.value.1 && Brakable(s, Room(l, dt, j'), j'.v)
    ensures Coast(j.q, dt, w).q > l.bounds.value.1 <==> Room(l, dt, j) < w
  {
    Moved(dt, l.bounds.value.1, j.q, Room(l, dt, j), w);
    hide CanStop;
  }

  lemma TickSafeAbove(sqrt: real -> real, l: Limits, dt: real, j: Joint, target: real)
    requires ValidLimits(l) && dt > 0.0 && IsSqrt(sqrt) && l.bounds.Some? && Inside(l.bounds, target)
    requires SafeAbove(l, dt, j)
    ensures SafeAbove(l, dt, Tick(sqrt, l, dt, j, target))
    ensures var s, w := Step(l, dt), Speed(sqrt, l, dt, j, target);
            Coast(j.q, dt, w).q > l.bounds.value.1 ==> 0.0 < w == j.v - s <= s
  {
    hide IsSqrt, Speed, Step, Room, Brakable, Coast, Saturate;
    SpeedStaysBrakable(sqrt, l, dt, j, target);
    SaturateSafe(l, dt, Step(l, dt), j, target, Speed(sqrt, l, dt, j, target));
  }

  /** In the envelope, and able to stop inside both its limits. */
  predicate Safe(l: Limits, dt: real, j: Joint)
    requires ValidLimits(l) && dt > 0.0
  {
    SafeAbove(l, dt, j) && SafeAbove(MirrorLimits(l), dt, Mirror(j)) && Abs(j.v) <= l.vMax
  }

  /** What a tick that the envelope stops looks like, when the joint could stop: it was braking fully, and had at most
      one step of speed left. */
  predicate GentleStop(s: real, dt: real, v: real, j': Joint, moved: real) {
    && j'.v == 0.0 && s < Abs(v) <= 2.0 * s
    && (if v > 0.0 then 0.0 <= moved <= (v - s) * dt else (v + s) * dt <= moved <= 0.0)
  }

  lemma SaturateMoves(bounds: (real, real), target: real, q: real, dt: real, w: real)
    requires bounds.0 <= q <= bounds.1 && bounds.0 <= target <= bounds.1
    ensures var j, j' := Coast(q, dt, w), Saturate(Some(bounds), target, q, Coast(q, dt, w));
            if j.q > bounds.1 then j'.v == 0.0 && 0.0 <= j'.q - q <= w * dt
            else if j.q < bounds.0 then j'.v == 0.0 && w * dt <= j'.q - q <= 0.0
            else j' == j && j'.q - q == w * dt
  {
  }

  lemma TickSafe(sqrt: real -> real, l: Limits, dt: real, j: Joint, target: real)
    requires ValidLimits(l) && dt > 0.0 && IsSqrt(sqrt) && Inside(l.bounds, target)
    requires Safe(l, dt, j)
    ensures Safe(l, dt, Tick(sqrt, l, dt, j, target))
    ensures var j', s := Tick(sqrt, l, dt, j, target), Step(l, dt);
            || (j'.q - j.q == j'.v * dt && Abs(j'.v - j.v) <= s)
            || GentleStop(s, dt, j.v, j', j'.q - j.q)
  {
    hide IsSqrt, Speed, Step, SafeAbove, Coast, Saturate;
    var m := MirrorLimits(l);
    assert l.bounds.Some? && l.bounds.value.0 <= j.q <= l.bounds.value.1 by {
      SafeInside(l, dt, j);
    }
    TickBounds(sqrt, l, dt, j, target);
    TickSafeAbove(sqrt, l, dt, j, target);
    MirrorTick(sqrt, l, dt, j, target);
    TickSafeAbove(sqrt, m, dt, Mirror(j), -target);
    MirrorSpeed(sqrt, l, dt, j, target);
    MirrorCoast(j.q, dt, Speed(sqrt, l, dt, j, target));
    MirrorStep(l, dt);
    SpeedBounds(sqrt, l, dt, j, target);
    SaturateMoves(l.bounds.value, target, j.q, dt, Speed(sqrt, l, dt, j, target));
    CoastSpeed(j.q, dt, Speed(sqrt, l, dt, j, target));
  }

  lemma CoastSpeed(q: real, dt: real, w: real)
    ensures Coast(q, dt, w).v == w && Coast(q, dt, w).q == q + w * dt
  {
  }

  lemma SafeInside(l: Limits, dt: real, j: Joint)
    requires ValidLimits(l) && dt > 0.0 && SafeAbove(l, dt, j)
    ensures l.bounds.Some? && l.bounds.value.0 <= j.q <= l.bounds.value.1
  {
  }

  lemma Scaled(x: real, bound: real, dt: real)
    requires dt > 0.0 && Abs(x) <= bound
    ensures Abs(x * dt) <= bound * dt
  {
    assert x * dt <= bound * dt;
    assert -bound * dt <= x * dt;
  }

  lemma Difference(a: real, b: real, dt: real)
    ensures (a - b) * dt == a * dt - b * dt && (a + b) * dt == a * dt + b * dt && (2.0 * b) * dt == 2.0 * b * dt
  {
  }

  lemma StopMoves(s: real, dt: real, v: real, j': Joint, moved: real)
    requires s > 0.0 && dt > 0.0 && GentleStop(s, dt, v, j', moved)
    ensures Abs(moved) <= s * dt && Abs(moved - v * dt) <= 2.0 * s * dt && j'.v == 0.0 && s < Abs(v)
  {
    Difference(v, s, dt);
    Scaled(v, 2.0 * s, dt);
    Scaled(if v > 0.0 then v - s else v + s, s, dt);
    Difference(0.0, s, dt);
  }

  predicate Plain(s: real, dt: real, v: real, j': Joint, moved: real) {
    moved == j'.v * dt && Abs(j'.v - v) <= s
  }

  predicate Close(s: real, dt: real, m: real, m': real) {
    Abs(m' - m) <= 2.0 * s * dt
  }

  /** Two moves in a row, each plain or a gentle stop. */
  lemma TwoMoves(s: real, dt: real, v: real, j: Joint, m: real, j': Joint, m': real)
    requires s > 0.0 && dt > 0.0
    requires Plain(s, dt, v, j, m) || GentleStop(s, dt, v, j, m)
    requires Plain(s, dt, j.v, j', m') || GentleStop(s, dt, j.v, j', m')
    ensures Close(s, dt, m, m')
  {
    hide GentleStop, Plain, Close;
    if GentleStop(s, dt, j.v, j', m') {
      if GentleStop(s, dt, v, j, m) {
        OneStop(s, dt, v, j, m, j', m');
      } else {
        StopAfter(s, dt, v, j, m, j', m');
      }
    } else if GentleStop(s, dt, v, j, m) {
      PlainAfterStop(s, dt, v, j, m, j', m');
    } else {
      PlainIs(s, dt, v, j, m, j', m');
    }
  }

  /** A joint that was just stopped has no speed to be stopped from. */
  lemma OneStop(s: real, dt: real, v: real, j: Joint, m: real, j': Joint, m': real)
    requires s > 0.0 && dt > 0.0 && GentleStop(s, dt, v, j, m)
    ensures !GentleStop(s, dt, j.v, j', m')
  {
  }

  lemma StopAfter(s: real, dt: real, v: real, j: Joint, m: real, j': Joint, m': real)
    requires s > 0.0 && dt > 0.0 && Plain(s, dt, v, j, m) && GentleStop(s, dt, j.v, j', m')
    ensures Close(s, dt, m, m')
  {
    hide GentleStop;
    StopMoves(s, dt, j.v, j', m');
  }

  lemma PlainAfterStop(s: real, dt: real, v: real, j: Joint, m: real, j': Joint, m': real)
    requires s > 0.0 && dt > 0.0 && GentleStop(s, dt, v, j, m) && Plain(s, dt, j.v, j', m')
    ensures Close(s, dt, m, m')
  {
    assert j.v == 0.0;
    hide GentleStop;
    StopMoves(s, dt, v, j, m);
    AfterStop(s, dt, m, j'.v);
  }

  lemma PlainIs(s: real, dt: real, v: real, j: Joint, m: real, j': Joint, m': real)
    requires Plain(s, dt, v, j, m) && Plain(s, dt, j.v, j', m') && s > 0.0 && dt > 0.0
    ensures Close(s, dt, m, m')
  {
    PlainMoves(s, dt, j.v, j'.v);
  }

  lemma AfterStop(s: real, dt: real, m: real, v: real)
    requires s > 0.0 && dt > 0.0 && Abs(m) <= s * dt && Abs(v) <= s
    ensures Abs(v * dt - m) <= 2.0 * s * dt
  {
    Scaled(v, s, dt);
    TwoSteps(s, dt, v * dt, m);
  }

  lemma PlainMoves(s: real, dt: real, v: real, v': real)
    requires s > 0.0 && dt > 0.0 && Abs(v' - v) <= s
    ensures Abs(v' * dt - v * dt) <= 2.0 * s * dt
  {
    Scaled(v' - v, s, dt);
    Difference(v', v, dt);
    Zero(s, dt);
    TwoSteps(s, dt, v' * dt - v * dt, 0.0);
  }

  lemma Zero(s: real, dt: real)
    requires s > 0.0 && dt > 0.0
    ensures s * dt >= 0.0
  {
  }

  lemma TwoSteps(s: real, dt: real, a: real, b: real)
    requires s > 0.0 && dt > 0.0 && Abs(a) <= s * dt && Abs(b) <= s * dt
    ensures Abs(a - b) <= 2.0 * s * dt
  {
    var d := s * dt;
    assert 2.0 * s * dt == 2.0 * d;
  }

  /** Over three commands in a row the speed of the motion changes by at most twice the acceleration limit. */
  predicate Gentle(l: Limits, dt: real, a: Joint, b: Joint, c: Joint) {
    Abs(c.q - 2.0 * b.q + a.q) <= 2.0 * l.aMax * dt * dt
  }

  lemma GentleMeans(l: Limits, dt: real, a: Joint, b: Joint, c: Joint)
    requires ValidLimits(l) && dt > 0.0
    ensures Gentle(l, dt, a, b, c) <==> Abs((c.q - b.q) - (b.q - a.q)) <= 2.0 * (Step(l, dt) * dt)
  {
    assert 2.0 * (Step(l, dt) * dt) == 2.0 * l.aMax * dt * dt;
  }

  lemma TwoTicks(sqrt: real -> real, l: Limits, dt: real, a: Joint, next: real, last: real)
    requires ValidLimits(l) && dt > 0.0 && IsSqrt(sqrt) && Inside(l.bounds, next) && Inside(l.bounds, last)
    requires Safe(l, dt, a)
    ensures var b := Tick(sqrt, l, dt, a, next); Gentle(l, dt, a, b, Tick(sqrt, l, dt, b, last))
  {
    hide Tick, IsSqrt, Safe, Inside, GentleStop, Step, Gentle;
    TickSafe(sqrt, l, dt, a, next);
    var b := Tick(sqrt, l, dt, a, next);
    TickSafe(sqrt, l, dt, b, last);
    var c := Tick(sqrt, l, dt, b, last);
    TwoMoves(Step(l, dt), dt, a.v, b, b.q - a.q, c, c.q - b.q);
    GentleMeans(l, dt, a, b, c);
  }

  /** A joint at rest in the envelope can stop inside it, and however targets inside the envelope stream, the speed of
      the commanded motion changes by at most twice the acceleration limit from any tick to the next, the tick that the
      envelope stops and the one after it included. */
  lemma {:induction false} StreamAcceleration(sqrt: real -> real, l: Limits, dt: real, j: Joint, targets: seq<real>,
                                              next: real, last: real)
    requires ValidLimits(l) && dt > 0.0 && IsSqrt(sqrt) && l.bounds.Some?
    requires forall k :: 0 <= k < |targets| ==> Inside(l.bounds, targets[k])
    requires Inside(l.bounds, next) && Inside(l.bounds, last)
    requires Safe(l, dt, j) || (Inside(l.bounds, j.q) && j.v == 0.0)
    ensures var a := Follow(sqrt, l, dt, j, targets);
            var b := Tick(sqrt, l, dt, a, next);
            Gentle(l, dt, a, b, Tick(sqrt, l, dt, b, last))
    decreases |targets|
  {
    assert Safe(l, dt, j);
    hide Tick, IsSqrt, Safe, Inside, GentleStop, Step, Gentle;
    if targets == [] {
      TwoTicks(sqrt, l, dt, j, next, last);
    } else {
      TickSafe(sqrt, l, dt, j, targets[0]);
      StreamAcceleration(sqrt, l, dt, Tick(sqrt, l, dt, j, targets[0]), targets[1..], next, last);
    }
  }

  /** The room a tick has in the direction it leaves the band. */
  function StoppingRoom(bounds: (real, real), target: real, q: real, next: real): real {
    var (low, high) := Band(bounds, target, q);
    if next > high then high - q else q - low
  }

  lemma SaturateGently(bounds: (real, real), target: real, q: real, w: real, x: real, y: real, z: real)
    requires Abs(x - y) <= z
    ensures var j', next := Saturate(Some(bounds), target, q, Joint(q + x, w)), q + x;
            Abs(j'.q - q - y) <= 2.0 * z
            <==> !Leaves(Some(bounds), target, q, next)
                 || StoppingRoom(bounds, target, q, next)
                    >= (if next > Band(bounds, target, q).1 then y else -y) - 2.0 * z
  {
  }

  lemma SpeedGap(s: real, w: real, v: real, dt: real, x: real, y: real, z: real)
    requires dt > 0.0 && Abs(w - v) <= s && x == w * dt && y == v * dt && z == s * dt
    ensures Abs(x - y) <= z
  {
    Scaled(w - v, s, dt);
    Difference(w, v, dt);
  }

  /** Any tick, whatever the target: the commanded motion leaves the speed the joint had by at most twice the
      acceleration limit exactly when the envelope does not stop it or leaves it room for all but two steps of it. */
  lemma LeavesItsSpeedExactly(sqrt: real -> real, l: Limits, dt: real, j: Joint, target: real)
    requires ValidLimits(l) && dt > 0.0 && IsSqrt(sqrt) && Abs(j.v) <= l.vMax && l.bounds.Some?
    ensures var j', s := Tick(sqrt, l, dt, j, target), Step(l, dt);
            var next := Coast(j.q, dt, Speed(sqrt, l, dt, j, target)).q;
            Abs(j'.q - j.q - j.v * dt) <= 2.0 * (s * dt)
            <==> !Clips(sqrt, l, dt, j, target)
                 || StoppingRoom(l.bounds.value, target, j.q, next)
                    >= (if next > Band(l.bounds.value, target, j.q).1 then j.v * dt else -(j.v * dt)) - 2.0 * (s * dt)
  {
    hide IsSqrt, Speed, Step, Saturate, Leaves, StoppingRoom, Abs, Band;
    var s, w := Step(l, dt), Speed(sqrt, l, dt, j, target);
    SpeedBounds(sqrt, l, dt, j, target);
    var x, y, z := w * dt, j.v * dt, s * dt;
    SpeedGap(s, w, j.v, dt, x, y, z);
    CoastSpeed(j.q, dt, w);
    assert l.bounds == Some(l.bounds.value);
    SaturateGently(l.bounds.value, target, j.q, w, x, y, z);
  }

  /** The tick a stop falls on, whatever the targets: after a tick the envelope did not stop, the speed of the commanded
      motion changes by at most twice the acceleration limit exactly when the envelope does not stop this one either,
      or leaves it room for all of the last move but two acceleration steps. */
  lemma StopIsGentleExactly(sqrt: real -> real, l: Limits, dt: real, a: Joint, next: real, last: real)
    requires ValidLimits(l) && dt > 0.0 && IsSqrt(sqrt) && Abs(a.v) <= l.vMax && l.bounds.Some?
    requires !Clips(sqrt, l, dt, a, next)
    ensures var b := Tick(sqrt, l, dt, a, next);
            var to := Coast(b.q, dt, Speed(sqrt, l, dt, b, last)).q;
            Gentle(l, dt, a, b, Tick(sqrt, l, dt, b, last))
            <==> !Clips(sqrt, l, dt, b, last)
                 || StoppingRoom(l.bounds.value, last, b.q, to)
                    >= (if to > Band(l.bounds.value, last, b.q).1 then b.q - a.q else a.q - b.q)
                       - 2.0 * (Step(l, dt) * dt)
  {
    hide Tick, Clips, IsSqrt, Speed, Step, StoppingRoom, Band, Coast, Gentle;
    TickBounds(sqrt, l, dt, a, next);
    var b := Tick(sqrt, l, dt, a, next);
    LeavesItsSpeedExactly(sqrt, l, dt, b, last);
    GentleMeans(l, dt, a, b, Tick(sqrt, l, dt, b, last));
  }

  /** Starting towards a target `y >= 0` ahead: at the least pace, or by just the distance when that is less. */
  lemma BrakeFromRest(s: real, vMax: real, y: real, root: real, cap: real)
    requires s > 0.0 && vMax > 0.0 && y >= 0.0 && IsCap(s, vMax, y, root, cap)
    ensures Brake(s, cap, y, 0.0) == Min(y, Min(s, vMax))
  {
    DesiredSpeed(s, vMax, y, root, cap);
    LandingAdjustmentIsIdle(s, cap, y, 0.0);
  }

  /** The first tick up from rest, whatever the target. */
  lemma TickUpFromRest(sqrt: real -> real, l: Limits, dt: real, q: real, target: real)
    requires ValidLimits(l) && dt > 0.0 && IsSqrt(sqrt) && q <= target
    ensures Tick(sqrt, l, dt, Joint(q, 0.0), target).q == Min(target, q + Pace(l, dt) * dt)
  {
    hide IsCap, Brake, Speed, Step, IsSqrt, Saturate;
    var y := (target - q) / dt;
    Nearer(dt, 0.0, target - q);
    var root, cap := SpeedIsBrake(sqrt, l, dt, Joint(q, 0.0), target);
    BrakeFromRest(Step(l, dt), l.vMax, y, root, cap);
    var w := Min(y, Pace(l, dt));
    Moved(dt, target, q, y, w);
    Moved(dt, target, q, y, Pace(l, dt));
    StaysInBand(l.bounds, target, q, Coast(q, dt, w));
  }

  lemma StaysInBand(bounds: Option<(real, real)>, target: real, from: real, next: Joint)
    requires from <= next.q <= target
    ensures Saturate(bounds, target, from, next) == next
  {
  }

  /** ... and down. */
  lemma TickDownFromRest(sqrt: real -> real, l: Limits, dt: real, q: real, target: real)
    requires ValidLimits(l) && dt > 0.0 && IsSqrt(sqrt) && target <= q
    ensures Tick(sqrt, l, dt, Joint(q, 0.0), target).q == Max(target, q - Pace(l, dt) * dt)
  {
    hide Tick, IsSqrt, Pace;
    TickUpFromRest(sqrt, MirrorLimits(l), dt, -q, -target);
    MirrorTick(sqrt, l, dt, Joint(q, 0.0), target);
    MirrorPace(l, dt);
  }

  /** The tick after a stop, whatever the targets: it changes the speed of the commanded motion by at most twice the
      acceleration limit for every target it may be given exactly when the stopped tick moved no further than two
      acceleration steps less the pace at which the joint can start again. */
  lemma AfterStopIsGentleExactly(sqrt: real -> real, l: Limits, dt: real, a: Joint, next: real)
    requires ValidLimits(l) && dt > 0.0 && IsSqrt(sqrt) && Abs(a.v) <= l.vMax
    requires Clips(sqrt, l, dt, a, next)
    ensures var b := Tick(sqrt, l, dt, a, next);
            (forall last :: Gentle(l, dt, a, b, Tick(sqrt, l, dt, b, last)))
            <==> Abs(b.q - a.q) <= 2.0 * (Step(l, dt) * dt) - Pace(l, dt) * dt
  {
    hide Tick, Clips, IsSqrt, Step, Pace, Gentle;
    TickBounds(sqrt, l, dt, a, next);
    var b, pace := Tick(sqrt, l, dt, a, next), Pace(l, dt) * dt;
    assert b == Joint(b.q, 0.0);
    PaceMoves(l, dt);
    forall last
      ensures Gentle(l, dt, a, b, Tick(sqrt, l, dt, b, last))
              <==> Abs((if last >= b.q then Min(last - b.q, pace) else Max(last - b.q, -pace)) - (b.q - a.q))
                   <= 2.0 * (Step(l, dt) * dt)
    {
      if last >= b.q {
        TickUpFromRest(sqrt, l, dt, b.q, last);
      } else {
        TickDownFromRest(sqrt, l, dt, b.q, last);
      }
      GentleMeans(l, dt, a, b, Tick(sqrt, l, dt, b, last));
    }
    var back := if b.q >= a.q then b.q - pace else b.q + pace;
    assert Gentle(l, dt, a, b, Tick(sqrt, l, dt, b, back))
           <==> Abs(b.q - a.q) <= 2.0 * (Step(l, dt) * dt) - pace;
  }

  lemma PaceMoves(l: Limits, dt: real)
    requires ValidLimits(l) && dt > 0.0
    ensures Pace(l, dt) * dt > 0.0
  {
  }

  // ---- two concrete runs ----------------------------------------------------------------------

  lemma UnitScale(l: Limits, y: real)
    requires ValidLimits(l) && l.aMax == 1.0
    ensures Step(l, 1.0) == 1.0 && y / 1.0 == y
  {
  }

  /** One tick at unit period and acceleration. */
  lemma UnitTick(sqrt: real -> real, l: Limits, j: Joint, target: real) returns (root: real)
    requires ValidLimits(l) && IsSqrt(sqrt) && l.aMax == 1.0
    ensures root >= 0.0 && root * (root + 1.0) == 2.0 * 1.0 * Abs(target - j.q)
    ensures var cap := Min(l.vMax, root);
            Tick(sqrt, l, 1.0, j, target)
            == Saturate(l.bounds, target, j.q,
                        Coast(j.q, 1.0, Clip(Clip(target - j.q, -cap, cap), j.v - 1.0, j.v + 1.0)))
  {
    hide Speed, IsSqrt, Brake, Saturate, Coast, Step, Clip, Tick;
    UnitScale(l, target - j.q);
    var cap;
    root, cap := SpeedIsBrake(sqrt, l, 1.0, j, target);
    UnitCap(l.vMax, target - j.q, root, cap);
    LandingAdjustmentIsIdle(1.0, cap, target - j.q, j.v);
    UnitSpeed(sqrt, l, j, target);
  }

  lemma UnitCap(vMax: real, y: real, root: real, cap: real)
    requires vMax > 0.0 && IsCap(1.0, vMax, y, root, cap)
    ensures root >= 0.0 && root * (root + 1.0) == 2.0 * 1.0 * Abs(y) && cap == Min(vMax, root) >= 0.0
  {
  }

  lemma UnitSpeed(sqrt: real -> real, l: Limits, j: Joint, target: real)
    requires ValidLimits(l)
    ensures Tick(sqrt, l, 1.0, j, target)
         == Saturate(l.bounds, target, j.q, Coast(j.q, 1.0, Speed(sqrt, l, 1.0, j, target)))
  {
  }

  lemma RootUnique(s: real, y: real, a: real, b: real)
    requires s > 0.0 && a >= 0.0 && b >= 0.0 && a * (a + s) == 2.0 * s * y && b * (b + s) == 2.0 * s * y
    ensures a == b
  {
    if a < b {
      Grows(a, b, s);
    } else {
      Grows(b, a, s);
    }
  }

  /** `a * dt^2 / 8` is reached: at unit limits, a target 2 + 7/8 away is passed by exactly 1/8 on the third tick. */
  lemma OvershootIsReached(sqrt: real -> real)
    requires IsSqrt(sqrt)
    ensures var l := Limits(2.0, 1.0, None);
            Seek(sqrt, l, 1.0, Joint(0.0, 0.0), 2.875, 3).q == 2.875 + l.aMax * 1.0 * 1.0 / 8.0
  {
    hide Tick, IsSqrt;
    var l := Limits(2.0, 1.0, None);
    var r := UnitTick(sqrt, l, Joint(0.0, 0.0), 2.875);
    RootSize(1.0, 2.875, r);
    assert Tick(sqrt, l, 1.0, Joint(0.0, 0.0), 2.875) == Joint(1.0, 1.0);
    r := UnitTick(sqrt, l, Joint(1.0, 1.0), 2.875);
    RootUnique(1.0, 1.875, r, 1.5);
    assert Tick(sqrt, l, 1.0, Joint(1.0, 1.0), 2.875) == Joint(2.5, 1.5);
    r := UnitTick(sqrt, l, Joint(2.5, 1.5), 2.875);
    RootSize(1.0, 0.375, r);
    assert Tick(sqrt, l, 1.0, Joint(2.5, 1.5), 2.875) == Joint(3.0, 0.5);
  }

  /** Speeding up one acceleration step towards a target far ahead. */
  lemma SpeedsUp(sqrt: real -> real, l: Limits, q: real, v: real)
    requires ValidLimits(l) && IsSqrt(sqrt) && l.aMax == 1.0 && l.vMax == 10.0 && 0.0 <= v <= 4.0
    requires l.bounds.Some? ==> l.bounds.value.0 <= q
    ensures Tick(sqrt, l, 1.0, Joint(q, v), q + 21.0) == Joint(q + v + 1.0, v + 1.0)
  {
    hide Tick, IsSqrt;
    var r := UnitTick(sqrt, l, Joint(q, v), q + 21.0);
    RootUnique(1.0, 21.0, r, 6.0);
  }

  /** With targets outside the envelope the stop can exceed twice the acceleration limit: here the tick after the one
      stopped at 18 changes the commanded speed by four times it. From rest at 0 with limits 0 and 18, five targets 21
      ahead, then one back inside at 16. */
  lemma StopOutsideEnvelopeTargets(sqrt: real -> real)
    requires IsSqrt(sqrt)
    ensures var l := Limits(10.0, 1.0, Some((0.0, 18.0)));
            var a := Follow(sqrt, l, 1.0, Joint(0.0, 0.0), [21.0, 22.0, 24.0, 27.0, 31.0]);
            var b := Tick(sqrt, l, 1.0, a, 16.0);
            var c := Tick(sqrt, l, 1.0, b, 16.0);
            Inside(l.bounds, 16.0) && Abs(c.q - 2.0 * b.q + a.q) == 4.0 * l.aMax * 1.0 * 1.0 && !Gentle(l, 1.0, a, b, c)
  {
    hide Tick, IsSqrt;
    var l := Limits(10.0, 1.0, Some((0.0, 18.0)));
    SpeedsUp(sqrt, l, 0.0, 0.0);
    SpeedsUp(sqrt, l, 1.0, 1.0);
    SpeedsUp(sqrt, l, 3.0, 2.0);
    SpeedsUp(sqrt, l, 6.0, 3.0);
    SpeedsUp(sqrt, l, 10.0, 4.0);
    assert Follow(sqrt, l, 1.0, Joint(0.0, 0.0), [21.0, 22.0, 24.0, 27.0, 31.0])
        == Follow(sqrt, l, 1.0, Joint(1.0, 1.0), [22.0, 24.0, 27.0, 31.0])
        == Follow(sqrt, l, 1.0, Joint(3.0, 2.0), [24.0, 27.0, 31.0])
        == Follow(sqrt, l, 1.0, Joint(6.0, 3.0), [27.0, 31.0])
        == Follow(sqrt, l, 1.0, Joint(10.0, 4.0), [31.0])
        == Joint(15.0, 5.0);
    var r := UnitTick(sqrt, l, Joint(15.0, 5.0), 16.0);
    RootUnique(1.0, 1.0, r, 1.0);
    assert Tick(sqrt, l, 1.0, Joint(15.0, 5.0), 16.0) == Joint(18.0, 0.0);
    r := UnitTick(sqrt, l, Joint(18.0, 0.0), 16.0);
    RootSize(1.0, 2.0, r);
    assert Tick(sqrt, l, 1.0, Joint(18.0, 0.0), 16.0) == Joint(17.0, -1.0);
  }

  // ---- the ramp of all joints -----------------------------------------------------------------

  class Ramp {
    const vMax: seq<real>
    const aMax: seq<real>
    const envelope: Option<(seq<real>, seq<real>)>
    var q: Option<seq<real>>
    var v: seq<real>

    /** What the constructor of the code accepts; anything else it refuses. */
    static ghost predicate Accepts(vMax: seq<real>, aMax: seq<real>, envelope: Option<(seq<real>, seq<real>)>) {
      && |vMax| == |aMax|
      && (forall i :: 0 <= i < |vMax| ==> vMax[i] > 0.0 && aMax[i] > 0.0)
      && (envelope.Some? ==>
            && |envelope.value.0| == |envelope.value.1| == |vMax|
            && forall i :: 0 <= i < |vMax| ==> envelope.value.0[i] <= envelope.value.1[i])
    }

    ghost predicate Valid()
      reads this
    {
      Accepts(vMax, aMax, envelope) && |v| == |vMax| && (q.Some? ==> |q.value| == |vMax|)
    }

    function LimitsOf(i: nat): (l: Limits)
      requires Accepts(vMax, aMax, envelope) && i < |vMax|
      ensures ValidLimits(l)
    {
      Limits(vMax[i], aMax[i], if envelope.Some? then Some((envelope.value.0[i], envelope.value.1[i])) else None)
    }

    /** Where joint `i` starts a tick: where the last one left it, or measured and at rest. */
    function From(measured: seq<real>, i: nat): Joint
      reads this
      requires Valid() && i < |vMax| == |measured|
    {
      if q.None? then Joint(measured[i], 0.0) else Joint(q.value[i], v[i])
    }

    constructor (vMax: seq<real>, aMax: seq<real>, envelope: Option<(seq<real>, seq<real>)>)
      requires Accepts(vMax, aMax, envelope)
      ensures Valid() && this.vMax == vMax && this.aMax == aMax && this.envelope == envelope && q.None?
    {
      this.vMax, this.aMax, this.envelope := vMax, aMax, envelope;
      q, v := None, seq(|vMax|, i => 0.0);
    }

    method Reset()
      requires Valid()
      modifies this`q
      ensures Valid() && q.None?
    {
      q := None;
    }

    method SpeedOf(sqrt: real -> real, l: Limits, j: Joint, target: real, dt: real) returns (v: real)
      requires ValidLimits(l) && dt > 0.0
      ensures v == Speed(sqrt, l, dt, j, target)
    {
      hide Cap, Clip, Abs, Step;
      var error, step := target - j.q, Step(l, dt);
      var cap := Cap(sqrt, l.vMax, step, dt, error);
      v := Clip(Clip(error / dt, -cap, cap), j.v - step, j.v + step);
      if (error - v * dt) * error < 0.0 && Abs(error / dt - j.v) <= step {
        v := error / dt;
      }
    }

    method AdvanceJoint(sqrt: real -> real, i: nat, j: Joint, target: real, dt: real) returns (q: real, v: real)
      requires Accepts(vMax, aMax, envelope) && i < |vMax| && dt > 0.0
      ensures Joint(q, v) == Tick(sqrt, LimitsOf(i), dt, j, target)
    {
      hide Speed;
      v := SpeedOf(sqrt, LimitsOf(i), j, target, dt);
      q := j.q + v * dt;
      if envelope.Some? {
        var low := Min(envelope.value.0[i], Min(target, j.q));
        var high := Max(envelope.value.1[i], Max(target, j.q));
        if q < low || q > high {
          v := 0.0;
        }
        q := Clip(q, low, high);
      }
    }

    /** Every joint makes its own tick, from where it was or, after a reset, from the measured pose at rest. */
    method Advance(sqrt: real -> real, target: seq<real>, measured: seq<real>, dt: real) returns (command: seq<real>)
      requires Valid() && dt > 0.0 && |target| == |measured| == |vMax|
      modifies this
      ensures Valid() && q == Some(command)
      ensures forall i :: 0 <= i < |vMax| ==>
                Joint(command[i], v[i]) == Tick(sqrt, LimitsOf(i), dt, old(From(measured, i)), target[i])
    {
      hide Tick;
      if q.None? {
        q, v := Some(measured), seq(|vMax|, i => 0.0);
      }
      var from, speed := q.value, v;
      command, v := [], [];
      for i := 0 to |vMax|
        invariant |command| == |v| == i
        invariant q == Some(from) && |from| == |speed| == |vMax|
        invariant forall k :: 0 <= k < |vMax| ==> Joint(from[k], speed[k]) == old(From(measured, k))
        invariant forall k :: 0 <= k < i ==>
                    Joint(command[k], v[k]) == Tick(sqrt, LimitsOf(k), dt, Joint(from[k], speed[k]), target[k])
      {
        var next, w := AdvanceJoint(sqrt, i, Joint(from[i], speed[i]), target[i], dt);
        command, v := command + [next], v + [w];
      }
      q := Some(command);
    }
  }
}
