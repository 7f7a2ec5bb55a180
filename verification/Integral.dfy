/** `control/integral.py`: the clamped joint integral, advanced once per cycle. */
module Integral {
  import opened Wrappers
  import opened Reals

  const WINDOW := 0.02
  const LONGEST_GAP := 0.05

  datatype Law = Law(ki: real, limit: real, kpRef: Option<real>)

  /** One joint's sample of a cycle. */
  datatype Joint = Joint(target: real, q: real, kp: real)

  /** One update; `joints` has one sample per joint. */
  datatype Cycle = Cycle(id: int, now: real, joints: seq<Joint>)

  datatype State = State(bias: seq<real>, time: Option<real>, cycle: Option<int>)

  predicate ValidLaw(l: Law) {
    l.ki >= 0.0 && l.limit >= 0.0 && (l.kpRef.Some? ==> l.kpRef.value >= 0.0)
  }

  function Elapsed(time: Option<real>, now: real): real {
    if time.None? then 0.0 else Min(Max(now - time.value, 0.0), LONGEST_GAP)
  }

  /** `ki` is stated at `kpRef`; a softer joint integrates in proportion, a stiffer one no faster. */
  function Gain(l: Law, kp: real): real {
    if l.kpRef.None? || l.kpRef.value <= 0.0 then l.ki
    else l.ki * Clip(kp / l.kpRef.value, 0.0, 1.0)
  }

  /** What one cycle adds to the bias. */
  function Push(l: Law, j: Joint, dt: real): real {
    Gain(l, j.kp) * (j.target - j.q) * dt
  }

  function Advance(l: Law, bias: real, j: Joint, dt: real): real {
    var moved := if j.kp > 0.0 && Abs(j.target - j.q) < WINDOW then bias + Push(l, j, dt) else bias;
    if j.kp <= 0.0 then 0.0 else Clip(moved, -l.limit, l.limit)
  }

  /** A cycle that is refused, or was already served, changes nothing. */
  predicate Serves(s: State, c: Cycle) {
    c.id >= 0 && |c.joints| == |s.bias| && (s.cycle.None? || c.id > s.cycle.value)
  }

  function Next(laws: seq<Law>, s: State, c: Cycle): State
    requires |laws| == |s.bias|
  {
    if !Serves(s, c) then s
    else
      var dt := Elapsed(s.time, c.now);
      State(seq(|laws|, i requires 0 <= i < |laws| => Advance(laws[i], s.bias[i], c.joints[i], dt)),
            Some(c.now), Some(c.id))
  }

  function Zero(n: nat): State {
    State(seq(n, _ => 0.0), None, None)
  }

  function Run(laws: seq<Law>, s: State, cycles: seq<Cycle>): (r: State)
    requires |laws| == |s.bias|
    ensures |r.bias| == |laws|
    decreases |cycles|
  {
    if cycles == [] then s else Next(laws, Run(laws, s, cycles[..|cycles| - 1]), cycles[|cycles| - 1])
  }

  // ---- one joint, one cycle -------------------------------------------------------------------

  lemma ProductAtMost(a: real, b: real, c: real, d: real)
    requires 0.0 <= a <= c && 0.0 <= b <= d
    ensures 0.0 <= a * b <= c * d
  {
    assert a * b <= a * d;
    assert a * d <= c * d;
  }

  lemma GainIsBounded(l: Law, kp: real)
    requires ValidLaw(l)
    ensures 0.0 <= Gain(l, kp) <= l.ki
  {
    if l.kpRef.Some? && l.kpRef.value > 0.0 {
      ScaledDown(l.ki, Clip(kp / l.kpRef.value, 0.0, 1.0));
    }
  }

  lemma ScaledDown(ki: real, share: real)
    requires ki >= 0.0 && 0.0 <= share <= 1.0
    ensures 0.0 <= ki * share <= ki
  {
    ProductAtMost(ki, share, ki, 1.0);
  }

  lemma AbsOfProduct(a: real, b: real)
    ensures Abs(a * b) == Abs(a) * Abs(b)
  {
  }

  lemma WithinWindow(ki: real, e: real, q: real)
    requires ki >= 0.0 && 0.0 <= e < 0.02 && q == ki * e
    ensures 0.05 * q <= 0.001 * ki && (ki > 0.0 ==> 0.05 * q < 0.001 * ki)
  {
    assert ki > 0.0 ==> ki * e < ki * 0.02;
  }

  lemma TripleBound(g: real, e: real, dt: real, ki: real)
    requires 0.0 <= g <= ki && 0.0 <= e < WINDOW && 0.0 <= dt <= LONGEST_GAP
    ensures 0.0 <= g * e * dt <= 0.001 * ki
    ensures ki > 0.0 ==> g * e * dt < 0.001 * ki
  {
    ProductAtMost(g, e, ki, e);
    var p, q := g * e, ki * e;
    WithinWindow(ki, e, q);
    ProductAtMost(p, dt, q, 0.05);
    assert p * dt == g * e * dt;
  }

  lemma PushIsBounded(l: Law, j: Joint, dt: real)
    requires ValidLaw(l) && 0.0 <= dt <= LONGEST_GAP && Abs(j.target - j.q) < WINDOW
    ensures Abs(Push(l, j, dt)) <= 0.001 * l.ki
    ensures l.ki > 0.0 ==> Abs(Push(l, j, dt)) < 0.001 * l.ki
    ensures j.target == j.q || l.ki == 0.0 ==> Push(l, j, dt) == 0.0
  {
    hide Gain;
    var g, error := Gain(l, j.kp), j.target - j.q;
    var e := Abs(error);
    GainIsBounded(l, j.kp);
    AbsOfProduct(g, error);
    AbsOfProduct(g * error, dt);
    TripleBound(g, e, dt, l.ki);
    assert Abs(g) == g && Abs(dt) == dt;
    if error == 0.0 || l.ki == 0.0 {
      assert g * error == 0.0;
    }
  }

  /** With the joint held, the bias moves by less than a thousandth of `ki`, and never past its limit. */
  lemma CycleIsGentle(l: Law, bias: real, j: Joint, time: Option<real>, now: real)
    requires ValidLaw(l) && Abs(bias) <= l.limit
    ensures var b := Advance(l, bias, j, Elapsed(time, now));
            && Abs(b) <= l.limit
            && (j.kp > 0.0 && l.ki > 0.0 ==> Abs(b - bias) < 0.001 * l.ki)
            && (j.kp > 0.0 && (j.target == j.q || l.ki == 0.0) ==> b == bias)
            && Abs(b) <= Abs(bias) + 0.001 * l.ki
  {
    hide Push;
    var dt := Elapsed(time, now);
    if Abs(j.target - j.q) < WINDOW {
      PushIsBounded(l, j, dt);
    }
  }

  // ---- every run ------------------------------------------------------------------------------

  /** What `n` cycles may come to. */
  function Ceiling(l: Law, n: nat): real {
    Min(l.limit, 0.001 * l.ki * n as real)
  }

  lemma OneMore(l: Law, n: nat, b: real)
    requires ValidLaw(l) && b <= Ceiling(l, n) + 0.001 * l.ki && b <= l.limit
    ensures b <= Ceiling(l, n + 1) && Ceiling(l, n) <= Ceiling(l, n + 1)
  {
    var x, y := 0.001 * l.ki, n as real;
    assert (n + 1) as real == y + 1.0;
    assert x * (y + 1.0) == x * y + x;
  }

  /** However many cycles are run, the torque stays within its limit and within a thousandth of `ki` per cycle. */
  lemma {:induction false} RunIsGentle(laws: seq<Law>, cycles: seq<Cycle>, i: nat)
    requires (forall k :: 0 <= k < |laws| ==> ValidLaw(laws[k])) && i < |laws|
    ensures Abs(Run(laws, Zero(|laws|), cycles).bias[i]) <= Ceiling(laws[i], |cycles|)
  {
    hide Advance, Elapsed;
    var l := laws[i];
    if cycles == [] {
      assert l.ki * 0.0 == 0.0;
    } else {
      var n := |cycles| - 1;
      RunIsGentle(laws, cycles[..n], i);
      CeilingIsLimited(l, n);
      var s, c := Run(laws, Zero(|laws|), cycles[..n]), cycles[n];
      hide Ceiling;
      if Serves(s, c) {
        CycleIsGentle(l, s.bias[i], c.joints[i], s.time, c.now);
        OneMore(l, n, Abs(Next(laws, s, c).bias[i]));
      } else {
        OneMore(l, n, Abs(s.bias[i]));
      }
    }
  }

  lemma CeilingIsLimited(l: Law, n: nat)
    ensures Ceiling(l, n) <= l.limit
  {
  }

  /** Asking again within a cycle, or for an earlier one, answers the same, however often and whatever it brings. */
  lemma {:induction false} RepeatsChangeNothing(laws: seq<Law>, s: State, c: Cycle, again: seq<Cycle>)
    requires |laws| == |s.bias| && Serves(s, c) && forall k :: 0 <= k < |again| ==> again[k].id <= c.id
    ensures Run(laws, Next(laws, s, c), again) == Next(laws, s, c)
    decreases |again|
  {
    if again != [] {
      RepeatsChangeNothing(laws, s, c, again[..|again| - 1]);
    }
  }

  /** A stretch of cycles without error, the joints held throughout, freezes the bias it began with. */
  lemma {:induction false} NoErrorFreezes(laws: seq<Law>, s: State, cycles: seq<Cycle>, i: nat)
    requires |laws| == |s.bias| && i < |laws| && ValidLaw(laws[i]) && Abs(s.bias[i]) <= laws[i].limit
    requires forall k :: 0 <= k < |cycles| && |cycles[k].joints| == |laws| ==>
               cycles[k].joints[i].kp > 0.0 && cycles[k].joints[i].target == cycles[k].joints[i].q
    ensures Run(laws, s, cycles).bias[i] == s.bias[i]
  {
    hide Advance, Elapsed;
    if cycles != [] {
      var n := |cycles| - 1;
      NoErrorFreezes(laws, s, cycles[..n], i);
      var before, c := Run(laws, s, cycles[..n]), cycles[n];
      if Serves(before, c) {
        CycleIsGentle(laws[i], before.bias[i], c.joints[i], before.time, c.now);
      }
    }
  }

  class IntegralState {
    const laws: seq<Law>
    var bias: array<real>
    var time: Option<real>
    var cycle: Option<int>

    ghost predicate Valid()
      reads this
    {
      bias.Length == |laws| && forall k :: 0 <= k < |laws| ==> ValidLaw(laws[k])
    }

    ghost function Value(): State
      reads this, bias
    {
      State(bias[..], time, cycle)
    }

    constructor (laws: seq<Law>)
      requires forall k :: 0 <= k < |laws| ==> ValidLaw(laws[k])
      ensures this.laws == laws && Valid() && fresh(bias) && Value() == Zero(|laws|)
    {
      this.laws := laws;
      bias := new real[|laws|](_ => 0.0);
      time, cycle := None, None;
      new;
      assert bias[..] == seq(|laws|, _ => 0.0);
    }

    method Reset()
      requires Valid()
      modifies this`time, this`cycle, bias
      ensures Valid() && Value() == Zero(|laws|)
    {
      for i := 0 to bias.Length
        invariant forall k :: 0 <= k < i ==> bias[k] == 0.0
      {
        bias[i] := 0.0;
      }
      time, cycle := None, None;
      assert bias[..] == seq(|laws|, _ => 0.0);
    }

    method Update(c: Cycle) returns (served: bool)
      requires Valid()
      modifies this`time, this`cycle, bias
      ensures Valid() && Value() == Next(laws, old(Value()), c)
      ensures served == Serves(old(Value()), c)
    {
      hide Advance, Elapsed;
      if c.id < 0 || |c.joints| != bias.Length || (cycle.Some? && c.id <= cycle.value) {
        return false;
      }
      var dt := Elapsed(time, c.now);
      ghost var was := bias[..];
      for i := 0 to bias.Length
        invariant forall k :: 0 <= k < i ==> bias[k] == Advance(laws[k], was[k], c.joints[k], dt)
        invariant forall k :: i <= k < bias.Length ==> bias[k] == was[k]
      {
        bias[i] := Advance(laws[i], bias[i], c.joints[i], dt);
      }
      time, cycle := Some(c.now), Some(c.id);
      assert bias[..] == Next(laws, old(Value()), c).bias;
      served := true;
    }
  }
}
