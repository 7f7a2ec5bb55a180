/** The times in the controller's trace: a step reads one reference clock, so if that clock never runs backwards neither
    do they. */
module ArmClock {
  import opened Wrappers
  import opened Arm
  import opened ArmFacts
  import ArmTrace

  /** The trace has grown by events that, where they read the clock, read `now`. */
  predicate Extends(c: Ctl, c': Ctl, now: real) {
    && c.trace <= c'.trace && c'.sense.plantT == c.sense.plantT
    && forall i :: |c.trace| <= i < |c'.trace| && TimeOf(c'.trace[i]).Some? ==> TimeOf(c'.trace[i]).value == now
  }

  lemma Then(c: Ctl, d: Ctl, e: Ctl, now: real)
    requires Extends(c, d, now) && Extends(d, e, now)
    ensures Extends(c, e, now)
  {
    assert forall i :: 0 <= i < |d.trace| ==> e.trace[i] == d.trace[i];
  }

  // ---- what reads no clock ---------------------------------------------------------------------

  lemma CancelExtends(cfg: Config, c: Ctl, now: real)
    ensures Extends(c, Abandon(c), now) && Extends(c, Cancel(cfg, c), now) && Extends(c, AbortTracking(cfg, c), now)
  {
    hide KeepsAnchor;
  }

  lemma StopExtends(cfg: Config, c: Ctl, at: real, now: real)
    ensures Extends(c, Stop(cfg, c, at), now)
    ensures forall on :: Extends(c, SetArm(cfg, c, on, at), now)
  {
    hide ArmPose;
  }

  lemma FaultExtends(cfg: Config, c: Ctl, at: real, now: real)
    ensures Extends(c, RaiseFault(cfg, c, at), now)
  {
    hide Stop, Abandon;
    CancelExtends(cfg, c, now);
    StopExtends(cfg, Abandon(c), at, now);
    Then(c, Abandon(c), Stop(cfg, Abandon(c), at), now);
  }

  lemma PauseExtends(cfg: Config, c: Ctl, preserve: bool, now: real)
    ensures Extends(c, PauseObservation(cfg, c, preserve), now)
  {
    hide Cancel;
    CancelExtends(cfg, c, now);
  }

  lemma ReleaseExtends(cfg: Config, c: Ctl, id: PlanId, start: Option<real>, t: Time, now: real)
    ensures Extends(c, Release(cfg, c, id, start, t), now)
  {
    hide StartError;
  }

  lemma OnPlanExtends(cfg: Config, c: Ctl, plan: Plan, malformed: bool, flawed: bool, t: Time, now: real)
    ensures Extends(c, OnPlan(cfg, c, plan, malformed, flawed, t), now)
  {
    hide StartError, Release;
    var leg := Leg(Some(plan), Some(plan.trajectory), plan.cartesian, c.leg.reference, false);
    var staged := Log(c.(leg := leg), Staged(plan));
    ReleaseExtends(cfg, staged, plan.id, None, t, now);
    Then(c, staged, Release(cfg, staged, plan.id, None, t), now);
  }

  lemma GainsExtend(cfg: Config, c: Ctl, ok: bool, now: real)
    ensures Extends(c, SetGains(cfg, c, ok), now)
  {
    hide Cancel;
    CancelExtends(cfg, c, now);
    var c1 := if c.hold.soft.Some? then var x := Cancel(cfg, c); x.(hold := x.hold.(last := None)) else c;
    CancelExtends(cfg, c1, now);
    Then(c, c1, Cancel(cfg, c1), now);
  }

  lemma CancelNamedExtends(cfg: Config, c: Ctl, requested: Option<PlanId>, now: real)
    ensures Extends(c, CancelNamed(cfg, c, requested), now)
  {
    hide Cancel;
    CancelExtends(cfg, c, now);
  }

  lemma DirectExtends(cfg: Config, c: Ctl, u: Control, t: Time, now: real)
    ensures Extends(c, Direct(cfg, c, u, t), now)
  {
    hide SetArm, Release, SetGains, Cancel, SoftAllowed, Extends;
    var c1 := if u.arm.Some? then SetArm(cfg, c, u.arm.value, t.now) else c;
    StopExtends(cfg, c, t.now, now);
    Unmoved(c, now);
    var c2 := if u.execute.Some? then Release(cfg, c1, u.execute.value, None, t) else c1;
    if u.execute.Some? { ReleaseExtends(cfg, c1, u.execute.value, None, t, now); }
    Unmoved(c1, now);
    Then(c, c1, c2, now);
    var c3 := if u.gains.Some? then SetGains(cfg, c2, u.gains.value) else c2;
    if u.gains.Some? { GainsExtend(cfg, c2, u.gains.value, now); }
    Unmoved(c2, now);
    Then(c, c2, c3, now);
    if u.soft.Some? {
      SoftExtends(cfg, c3, u.soft.value.0, u.soft.value.1, t.now, now);
      Then(c, c3, SetSoft(cfg, c3, u.soft.value.0, u.soft.value.1, t.now), now);
    }
  }

  lemma SoftExtends(cfg: Config, c: Ctl, spec: Spec, decodes: bool, at: real, now: real)
    ensures Extends(c, SetSoft(cfg, c, spec, decodes, at), now)
  {
    hide Cancel, SoftAllowed;
    CancelExtends(cfg, c, now);
  }

  lemma Unmoved(c: Ctl, now: real)
    ensures Extends(c, c, now)
  {
  }

  lemma InterruptExtends(cfg: Config, c: Ctl, u: Control, t: Time, now: real)
    ensures Extends(c, Interrupt(cfg, c, u, t), now)
  {
    hide CancelNamed, Stop;
    var c1 := if u.cancel then CancelNamed(cfg, c, u.cancelId) else c;
    CancelNamedExtends(cfg, c, u.cancelId, now);
    var c2 := if u.hold then Freeze(c1) else c1;
    StopExtends(cfg, c2, t.now, now);
    Then(c, c2, Stop(cfg, c2, t.now), now);
  }

  lemma HealthExtends(cfg: Config, c: Ctl, h: Health, at: real, now: real)
    ensures Extends(c, OnHealth(cfg, c, h, at), now)
  {
    hide JudgeHealth, RaiseFault;
    JudgeHealthExtends(cfg, c, h, at, now);
    var c1 := if cfg.policy.Some? then JudgeHealth(cfg, c, h, at) else c;
    var c2 := c1.(sense := c1.sense.(softCapable := h.softCapable));
    FaultExtends(cfg, c2, at, now);
    Then(c, c2, RaiseFault(cfg, c2, at), now);
  }

  lemma JudgeHealthExtends(cfg: Config, c: Ctl, h: Health, at: real, now: real)
    ensures Extends(c, JudgeHealth(cfg, c, h, at), now)
  {
    hide Cancel, PauseObservation;
    var c1 := c.(sense := c.sense.(healthAt := Some(at), healthOk := h.ok));
    CancelExtends(cfg, c1, now);
    var c2 := if h.holding && !c1.sense.rtHolding && h.ok then AdoptRtHold(cfg, c1, h.holdingQ) else c1;
    var c3 := c2.(sense := c2.sense.(rtHolding := h.holding));
    PauseExtends(cfg, c3, false, now);
    Then(c, c3, PauseObservation(cfg, c3, false), now);
  }

  // ---- what reads it ---------------------------------------------------------------------------

  lemma SendExtends(cfg: Config, c: Ctl, command: Command, at: Option<real>, w: World, wall: real, now: real)
    requires at.Some? ==> at.value == now
    ensures Extends(c, Send(cfg, c, command, at, w, wall), now)
  {
    hide CommandValid, Near, RaiseFault, AbortTracking;
    if cfg.policy.Some? {
      var c1 := FixRest(c);
      FaultExtends(cfg, c1, wall, now);
      Then(c, c1, RaiseFault(cfg, c1, wall), now);
      CancelExtends(cfg, c1, now);
      var c2 := AbortTracking(cfg, c1);
      Then(c, c1, c2, now);
      FaultExtends(cfg, c2, wall, now);
      Then(c, c2, RaiseFault(cfg, c2, wall), now);
      Then(c, c2, Emit(c2, StaticHold(c2), None), now);
      Then(c, c1, Emit(c1, command, at), now);
    }
  }

  lemma CheckExtends(cfg: Config, c: Ctl, w: World, t: Time)
    ensures Extends(c, CheckCompletion(cfg, c, w, t).0, ExecTime(cfg, c, t))
  {
    hide LegSettling.Judge, LegSettling.Polled, LegSettling.Due, ExecTime;
  }

  lemma ServeExtends(cfg: Config, c: Ctl, w: World, t: Time)
    ensures Extends(c, Serve(cfg, c, w, t), ExecTime(cfg, c, t))
  {
    hide StreamLeg, StreamHold, StopAtGap, Complete;
    var now := ExecTime(cfg, c, t);
    if GapExceeded(cfg, c, t.now) {
      GapExtends(cfg, c, w, t.now, now);
    } else {
      var judged := cfg.policy.Some? && c.leg.running && c.leg.plan.Some? && c.leg.reference.Some?;
      var c1 := if judged then Complete(cfg, c, w, t) else c;
      if judged { CompleteExtends(cfg, c, w, t); }
      if c1.leg.running && c1.leg.reference.Some? {
        LegExtends(cfg, c1, w, t);
        Then(c, c1, StreamLeg(cfg, c1, w, t), now);
      } else {
        HoldExtends(cfg, c1, w, t, now);
        Then(c, c1, StreamHold(cfg, c1, w, t), now);
      }
    }
  }

  lemma GapExtends(cfg: Config, c: Ctl, w: World, wall: real, now: real)
    requires c.sent.Some?
    ensures Extends(c, StopAtGap(cfg, c, w, wall), now)
  {
    hide Send, Cancel;
    CancelExtends(cfg, c, now);
    var hold, c1 := HoldAt(c.sent.value.1), Cancel(cfg, c);
    var c2 := c1.(hold := c1.hold.(anchor := Some(hold)), sent := None);
    SendExtends(cfg, c2, hold, None, w, wall, now);
    Then(c, c2, Send(cfg, c2, hold, None, w, wall), now);
  }

  lemma CompleteExtends(cfg: Config, c: Ctl, w: World, t: Time)
    requires c.leg.plan.Some? && c.leg.reference.Some?
    ensures Extends(c, Complete(cfg, c, w, t), ExecTime(cfg, c, t))
  {
    hide CheckCompletion;
    CheckExtends(cfg, c, w, t);
  }

  lemma LegExtends(cfg: Config, c: Ctl, w: World, t: Time)
    requires c.leg.reference.Some?
    ensures Extends(c, StreamLeg(cfg, c, w, t), ExecTime(cfg, c, t))
  {
    hide Send, CheckCompletion;
    var r, now := c.leg.reference.value, ExecTime(cfg, c, t);
    var c0 := c.(hold := c.hold.(anchor := None));
    var c1 := Send(cfg, c0, cfg.sample(r.trajectory, now - r.start), Some(now), w, t.now);
    SendExtends(cfg, c0, cfg.sample(r.trajectory, now - r.start), Some(now), w, t.now, now);
    CheckExtends(cfg, c1, w, t);
    Then(c, c1, CheckCompletion(cfg, c1, w, t).0, now);
  }

  lemma HoldExtends(cfg: Config, c: Ctl, w: World, t: Time, now: real)
    ensures Extends(c, StreamHold(cfg, c, w, t), now)
  {
    hide Send, RampTo, Reanchor, Positions;
    var (c1, expired) := PollJog(cfg, c, t.now);
    var c2 := c1.(ramp := RampTo(cfg, c1));
    if c2.jog.q.Some? {
      var q := if Ramps(cfg) && c2.ramp.Some? then Positions(c2.ramp.value) else c2.jog.q.value;
      SendExtends(cfg, c2.(hold := c2.hold.(anchor := None)), HoldAt(q), None, w, t.now, now);
    } else {
      var anchor := Reanchor(cfg, c2, w, expired);
      var command := if cfg.policy.Some? then HoldAt(anchor.q) else anchor;
      SendExtends(cfg, c2.(hold := c2.hold.(anchor := Some(anchor))), command, None, w, t.now, now);
    }
  }

  lemma StreamExtends(cfg: Config, c: Ctl, w: World, t: Time)
    ensures Extends(c, Stream(cfg, c, w, t), ExecTime(cfg, c, t))
  {
    hide Serve;
    var c1 := Announce(c);
    ServeExtends(cfg, c1, w, t);
    Then(c, c1, Serve(cfg, c1, w, t), ExecTime(cfg, c, t));
  }

  // ---- every event -----------------------------------------------------------------------------

  /** An input whose handling may read the reference clock. */
  predicate Reads(i: Input) {
    i.StateInput? || i.TickInput?
  }

  /** What the clock reads while an input is handled, `c'` being the state it leaves. */
  predicate Reading(cfg: Config, c': Ctl, i: Input, now: real) {
    Reads(i) ==> now == if cfg.statePeriod.Some? then c'.sense.plantT else i.t.ref
  }

  predicate Grows(c: Ctl, c': Ctl, now: real) {
    && c.trace <= c'.trace
    && forall i :: |c.trace| <= i < |c'.trace| && TimeOf(c'.trace[i]).Some? ==> TimeOf(c'.trace[i]).value == now
  }

  lemma TakeExtends(c: Ctl, m: Measured, now: real)
    ensures Extends(c, TakeState(c, m), now)
  {
    hide Record;
  }

  /** The plant's clock, once the sample that advances it is in. */
  function PlantTime(cfg: Config, c: Ctl): real {
    if cfg.statePeriod.None? || c.life.stopped then c.sense.plantT else c.sense.plantT + cfg.statePeriod.value
  }

  lemma StateExtends(cfg: Config, c: Ctl, m: Measured, w: World, t: Time, now: real)
    requires now == if cfg.statePeriod.Some? then PlantTime(cfg, c) else t.ref
    ensures Extends(c.(sense := c.sense.(plantT := PlantTime(cfg, c))), OnState(cfg, c, m, w, t), now)
  {
    hide Stream, PauseObservation, TakeState;
    if !c.life.stopped {
      var c2 := c.(sense := c.sense.(at := Some(t.now), plantT := PlantTime(cfg, c)));
      if cfg.policy.None? {
        TakeExtends(c2, m, now);
        StreamExtends(cfg, TakeState(c2, m), w, t);
        Then(c2, TakeState(c2, m), Stream(cfg, TakeState(c2, m), w, t), now);
      } else if !Finite(m) {
        PauseExtends(cfg, c2.(sense := c2.sense.(at := None)), false, now);
      } else {
        PauseExtends(cfg, c2, true, now);
        TakeExtends(c2, m, now);
        TakeExtends(PauseObservation(cfg, c2, true), m, now);
        Then(c2, PauseObservation(cfg, c2, true), TakeState(PauseObservation(cfg, c2, true), m), now);
      }
    }
  }

  lemma StepGrows(cfg: Config, c: Ctl, i: Input, now: real)
    requires Reading(cfg, Step(cfg, c, i), i, now) && (cfg.statePeriod.Some? ==> cfg.statePeriod.value > 0.0)
    ensures Grows(c, Step(cfg, c, i), now) && c.sense.plantT <= Step(cfg, c, i).sense.plantT
  {
    hide OnPlan, Direct, Interrupt, Release, OnHealth, OnState, Stream, PauseObservation, ObservationError;
    match i
    case PlanInput(plan, malformed, flawed, t) => OnPlanExtends(cfg, c, plan, malformed, flawed, t, now);
    case ControlInput(u, t) =>
      DirectExtends(cfg, c, u, t, now);
      InterruptExtends(cfg, Direct(cfg, c, u, t), u, t, now);
      Then(c, Direct(cfg, c, u, t), OnControl(cfg, c, u, t), now);
    case ReleaseInput(id, start, t) => ReleaseExtends(cfg, c, id, start, t, now);
    case JogInput(q, t) =>
    case ClearJogInput =>
    case HealthInput(h, t) => HealthExtends(cfg, c, h, t.now, now);
    case StateInput(m, w, t) =>
      StateExtends(cfg, c, m, w, t, if cfg.statePeriod.Some? then PlantTime(cfg, c) else t.ref);
    case TickInput(w, t) =>
      PauseExtends(cfg, c, false, now);
      var c1 := c.(sense := c.sense.(paused := false));
      StreamExtends(cfg, c1, w, t);
      PauseExtends(cfg, c, false, ExecTime(cfg, c1, t));
    case SentInput(id, q, at) =>
  }

  // ---- every run -------------------------------------------------------------------------------

  /** The reference clock, where it is the one read, never runs backwards. */
  ghost predicate Monotonic(cfg: Config, inputs: seq<Input>) {
    cfg.statePeriod.None? ==>
      forall i, j :: 0 <= i <= j < |inputs| && Reads(inputs[i]) && Reads(inputs[j]) ==>
        inputs[i].t.ref <= inputs[j].t.ref
  }

  /** The times in a trace lie no later than `now`. */
  ghost predicate NoLater(trace: seq<Event>, now: real) {
    forall i :: 0 <= i < |trace| && TimeOf(trace[i]).Some? ==> TimeOf(trace[i]).value <= now
  }

  /** `now` is no earlier than anything the clock has read. */
  ghost predicate Past(cfg: Config, inputs: seq<Input>, now: real) {
    if cfg.statePeriod.Some? then Run(cfg, inputs).sense.plantT <= now
    else forall i :: 0 <= i < |inputs| && Reads(inputs[i]) ==> inputs[i].t.ref <= now
  }

  lemma GrowsInOrder(c: Ctl, c': Ctl, now: real, bound: real)
    requires Grows(c, c', now) && InOrder(c.trace) && NoLater(c.trace, now) && now <= bound
    ensures InOrder(c'.trace) && NoLater(c'.trace, bound)
  {
    assert forall i :: 0 <= i < |c.trace| ==> c'.trace[i] == c.trace[i];
  }

  /** On a clock that never runs backwards, the plant's own never does, the times in the trace of any run are in
      order. */
  lemma {:induction false} RunIsInOrder(cfg: Config, inputs: seq<Input>, bound: real)
    requires ArmTrace.ValidConfig(cfg) && Monotonic(cfg, inputs) && Past(cfg, inputs, bound)
    ensures InOrder(Run(cfg, inputs).trace) && NoLater(Run(cfg, inputs).trace, bound)
  {
    hide Step, Grows, InOrder, NoLater;
    if inputs == [] {
      NothingInOrder(bound);
    } else {
      var n := |inputs| - 1;
      var before, i := inputs[..n], inputs[n];
      var c := Run(cfg, before);
      var now := if !Reads(i) then bound else if cfg.statePeriod.Some? then Step(cfg, c, i).sense.plantT else i.t.ref;
      StepGrows(cfg, c, i, now);
      assert Past(cfg, before, now);
      RunIsInOrder(cfg, before, now);
      GrowsInOrder(c, Step(cfg, c, i), now, bound);
    }
  }

  lemma {:induction false} SomeBound(cfg: Config, inputs: seq<Input>) returns (bound: real)
    ensures Past(cfg, inputs, bound)
  {
    if cfg.statePeriod.Some? {
      bound := Run(cfg, inputs).sense.plantT;
    } else if inputs == [] {
      bound := 0.0;
    } else {
      var n := |inputs| - 1;
      bound := SomeBound(cfg, inputs[..n]);
      if Reads(inputs[n]) && bound < inputs[n].t.ref {
        bound := inputs[n].t.ref;
      }
    }
  }

  lemma NothingInOrder(bound: real)
    ensures InOrder([]) && NoLater([], bound)
  {
  }

  /** So in every run whose clock never runs backwards, a success is earned: released, then found done by every fresh
      sample from one at least the dwell before the last, after the trajectory's end and within the timeout. */
  lemma EverySuccessIsEarned(cfg: Config, inputs: seq<Input>, l: nat) returns (k: nat)
    requires ArmTrace.ValidConfig(cfg) && Monotonic(cfg, inputs)
    requires forall i :: 0 <= i < |inputs| ==> ArmTrace.Decoded(cfg, inputs[i])
    requires var trace := Run(cfg, inputs).trace; l < |trace| && trace[l].Result? && trace[l].settled.Some?
    ensures var trace := Run(cfg, inputs).trace;
            && InFlightSince(trace, k, l) && trace[l].id == trace[k].plan.id
            && Earned(cfg.settling, trace[k].start + trace[k].plan.trajectory.duration, Judgements(trace[k + 1..l]),
                      trace[l].settled.value)
  {
    hide Run, Earned, InOrder, Past;
    var bound := SomeBound(cfg, inputs);
    RunIsInOrder(cfg, inputs, bound);
    ArmTrace.EveryRunIsGood(cfg, inputs);
    k := SuccessIsEarned(cfg, Run(cfg, inputs).trace, l);
  }

  /** And a leg never goes back: of two words of one flight the later one is at least as far into the trajectory. */
  lemma LegsOnlyAdvance(cfg: Config, inputs: seq<Input>, i: nat, j: nat) returns (k: nat)
    requires ArmTrace.ValidConfig(cfg) && Monotonic(cfg, inputs)
    requires forall x :: 0 <= x < |inputs| ==> ArmTrace.Decoded(cfg, inputs[x])
    requires var trace := Run(cfg, inputs).trace;
             && i <= j < |trace| && trace[i].Word? && trace[i].law.LegLaw? && trace[j].Word? && trace[j].law.LegLaw?
             && forall x :: i < x < j ==> !trace[x].Released?
    ensures var trace := Run(cfg, inputs).trace;
            && InFlightSince(trace, k, i) && InFlightSince(trace, k, j)
            && trace[i].command == cfg.sample(trace[k].plan.trajectory, trace[i].law.at - trace[k].start)
            && trace[j].command == cfg.sample(trace[k].plan.trajectory, trace[j].law.at - trace[k].start)
            && trace[i].law.at - trace[k].start <= trace[j].law.at - trace[k].start
  {
    hide Run, Past;
    var trace := Run(cfg, inputs).trace;
    var bound := SomeBound(cfg, inputs);
    RunIsInOrder(cfg, inputs, bound);
    ArmTrace.EveryRunIsGood(cfg, inputs);
    k := WordsFollowTheRelease(cfg, trace, j);
    var first := WordsFollowTheRelease(cfg, trace, i);
    assert k <= i;
    assert TimeOf(trace[i]) == Some(trace[i].law.at) && TimeOf(trace[j]) == Some(trace[j].law.at);
  }
}
