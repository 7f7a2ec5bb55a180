/** A streamed jog under the controller: the ramp keeps every jog word inside the band its policy allows. */
module ArmJogs {
  import opened Wrappers
  import opened Reals
  import opened Arm
  import opened LegSettling
  import ArmTrace
  import JogHold
  import JogRamp

  /** What the ramp is built from: one joint's limits each, and the control period. */
  datatype Law = Law(sqrt: real -> real, limits: seq<JogRamp.Limits>, dt: real)

  function BoundsOf(cfg: Config): (Pose, Pose)
    requires cfg.policy.Some? && cfg.policy.value.bounds.Some?
  {
    cfg.policy.value.bounds.value
  }

  /** The band a command must stay in. */
  function BandOf(cfg: Config, c: Ctl): (Pose, Pose)
    requires cfg.policy.Some? && cfg.policy.value.bounds.Some?
  {
    Envelope(BoundsOf(cfg), WhereBeen(BoundsOf(cfg), c.life.armed, c.rest))
  }

  /** Where a joint starts a tick: where the ramp left it or, without one, measured and at rest. */
  function From(ramp: Option<seq<JogRamp.Joint>>, measured: Pose, i: nat): JogRamp.Joint
    requires if ramp.Some? then i < |ramp.value| else i < |measured|
  {
    if ramp.Some? then ramp.value[i] else JogRamp.Joint(measured[i], 0.0)
  }

  /** The ramp has the envelope of the policy. */
  ghost predicate ValidLaw(cfg: Config, law: Law) {
    && cfg.policy.Some? && cfg.policy.value.bounds.Some? && cfg.policy.value.ramps
    && |BoundsOf(cfg).0| == |BoundsOf(cfg).1| == |law.limits| == cfg.n
    && law.dt > 0.0 && JogRamp.IsSqrt(law.sqrt)
    && forall i :: 0 <= i < cfg.n ==>
         && JogRamp.ValidLimits(law.limits[i])
         && law.limits[i].bounds == Some((BoundsOf(cfg).0[i], BoundsOf(cfg).1[i]))
  }

  predicate Sized(n: nat, ramp: Option<seq<JogRamp.Joint>>, target: Pose, measured: Pose) {
    |target| == n && (if ramp.Some? then |ramp.value| == n else |measured| == n)
  }

  /** The controller advances its ramp by the law, each joint its own tick. */
  ghost predicate RampsBy(cfg: Config, law: Law) {
    ValidLaw(cfg, law) &&
    forall ramp, target, measured :: Sized(cfg.n, ramp, target, measured) ==>
      var joints := cfg.advance(ramp, target, measured);
      && |joints| == cfg.n
      && forall i :: 0 <= i < cfg.n ==>
           joints[i] == JogRamp.Tick(law.sqrt, law.limits[i], law.dt, From(ramp, measured, i), target[i])
  }

  // ---- one cycle ------------------------------------------------------------------------------

  predicate JointIn(vMax: real, j: JogRamp.Joint, low: real, high: real) {
    low - ENVELOPE_TOL <= j.q <= high + ENVELOPE_TOL && Abs(j.v) <= vMax
  }

  predicate RampIn(law: Law, ramp: seq<JogRamp.Joint>, band: (Pose, Pose)) {
    && |ramp| == |law.limits| == |band.0| == |band.1|
    && forall i :: 0 <= i < |ramp| ==> JointIn(law.limits[i].vMax, ramp[i], band.0[i], band.1[i])
  }

  lemma BandHoldsBounds(bounds: (Pose, Pose), rows: Option<(Pose, Pose)>)
    ensures var band := Envelope(bounds, rows);
            && |band.0| == |bounds.0| && |band.1| == |bounds.1|
            && (forall j :: 0 <= j < |bounds.0| ==> band.0[j] <= bounds.0[j])
            && (forall j :: 0 <= j < |bounds.1| ==> bounds.1[j] <= band.1[j])
  {
  }

  lemma JointStaysIn(law: Law, l: JogRamp.Limits, j: JogRamp.Joint, target: real, low: real, high: real)
    requires JogRamp.ValidLimits(l) && law.dt > 0.0 && JogRamp.IsSqrt(law.sqrt)
    requires l.bounds.Some? && low <= l.bounds.value.0 && l.bounds.value.1 <= high
    requires JointIn(l.vMax, j, low, high) && low - ENVELOPE_TOL <= target <= high + ENVELOPE_TOL
    ensures JointIn(l.vMax, JogRamp.Tick(law.sqrt, l, law.dt, j, target), low, high)
  {
    JogRamp.TickBounds(law.sqrt, l, law.dt, j, target);
    hide JogRamp.Tick;
  }

  /** From inside the band, towards a target inside it, the ramp stays inside. */
  lemma AdvanceStaysIn(cfg: Config, law: Law, ramp: Option<seq<JogRamp.Joint>>, target: Pose, measured: Pose,
                       band: (Pose, Pose))
    requires RampsBy(cfg, law) && InBand(target, band)
    requires |band.0| == |band.1| == cfg.n
    requires forall j :: 0 <= j < cfg.n ==> band.0[j] <= BoundsOf(cfg).0[j] && BoundsOf(cfg).1[j] <= band.1[j]
    requires if ramp.Some? then RampIn(law, ramp.value, band) else InBand(measured, band)
    ensures RampIn(law, cfg.advance(ramp, target, measured), band)
  {
    hide JogRamp.Tick, JogRamp.IsSqrt;
    assert Sized(cfg.n, ramp, target, measured);
    forall i | 0 <= i < cfg.n
      ensures JointIn(law.limits[i].vMax, cfg.advance(ramp, target, measured)[i], band.0[i], band.1[i])
    {
      JointStaysIn(law, law.limits[i], From(ramp, measured, i), target[i], band.0[i], band.1[i]);
    }
  }

  // ---- every run ------------------------------------------------------------------------------

  /** The box of the poses since ARM holds the resting one. */
  predicate Boxed(n: nat, rest: Rest) {
    && (rest.been.Some? ==> |rest.been.value.0| == |rest.been.value.1| == n)
    && (rest.pose.Some? ==>
          && rest.been.Some? && |rest.pose.value| == n
          && forall j :: 0 <= j < n ==> rest.been.value.0[j] <= rest.pose.value[j] <= rest.been.value.1[j])
  }

  /** A live jog asks for a pose in the band, which is fixed for the episode, and its ramp is in it. */
  ghost predicate JogIn(cfg: Config, law: Law, c: Ctl)
    requires ValidLaw(cfg, law)
  {
    && |c.sense.state.q| == cfg.n && Boxed(cfg.n, c.rest)
    && (c.jog.q.Some? ==>
          && c.life.armed && c.rest.fixed && c.rest.pose.Some? && InBand(c.jog.q.value, BandOf(cfg, c))
          && (c.ramp.Some? ==> RampIn(law, c.ramp.value, BandOf(cfg, c))))
  }

  /** The jog is the same, with the same ramp, or gone; of the episode at most that its band became fixed changed. */
  predicate Carries(c: Ctl, c': Ctl) {
    && (c'.jog.q.None? || (c'.jog.q == c.jog.q && c'.ramp == c.ramp && c'.life.armed == c.life.armed))
    && (c'.rest == c.rest || c'.rest == c.rest.(fixed := true))
    && c'.sense.state == c.sense.state
  }

  lemma CarriesJogIn(cfg: Config, law: Law, c: Ctl, c': Ctl)
    requires ValidLaw(cfg, law) && JogIn(cfg, law, c) && Carries(c, c')
    ensures JogIn(cfg, law, c')
  {
    hide InBand, RampIn, Envelope;
    assert c'.jog.q.Some? ==> BandOf(cfg, c') == BandOf(cfg, c);
  }

  lemma CancelCarries(cfg: Config, c: Ctl)
    ensures var c' := Cancel(cfg, c);
            Carries(c, c') && c'.jog.q.None? && c'.rest == c.rest && c'.life.armed == c.life.armed
  {
  }

  lemma FaultCarries(cfg: Config, c: Ctl, now: real)
    ensures Carries(c, RaiseFault(cfg, c, now)) && Carries(c, Stop(cfg, c, now))
  {
  }

  lemma PauseCarries(cfg: Config, c: Ctl, preserveRtHold: bool)
    ensures Carries(c, PauseObservation(cfg, c, preserveRtHold))
  {
    hide Cancel;
    CancelCarries(cfg, c);
  }

  lemma SendCarries(cfg: Config, c: Ctl, command: Command, at: Option<real>, w: World, now: real)
    ensures Carries(c, Send(cfg, c, command, at, w, now))
  {
    hide Cancel, RaiseFault, CommandValid, Near;
    if cfg.policy.Some? {
      var c1 := FixRest(c);
      FaultCarries(cfg, c1, now);
      CancelCarries(cfg, c1);
      FaultCarries(cfg, AbortTracking(cfg, c1), now);
    }
  }

  lemma CompleteCarries(cfg: Config, c: Ctl, w: World, t: Time)
    requires c.leg.plan.Some? && c.leg.reference.Some?
    ensures Carries(c, Complete(cfg, c, w, t))
  {
    hide Judge, Polled, Due;
  }

  lemma StreamLegCarries(cfg: Config, c: Ctl, w: World, t: Time)
    requires c.leg.reference.Some? && cfg.policy.Some?
    ensures Carries(c, StreamLeg(cfg, c, w, t))
  {
    hide Send, Carries;
    var r, now := c.leg.reference.value, ExecTime(cfg, c, t);
    var c1 := c.(hold := c.hold.(anchor := None));
    SendCarries(cfg, c1, cfg.sample(r.trajectory, now - r.start), Some(now), w, t.now);
    HoldAside(c, c1, StreamLeg(cfg, c, w, t));
  }

  lemma HoldAside(c: Ctl, c1: Ctl, c': Ctl)
    requires c1 == c.(hold := c1.hold, sent := c1.sent) && Carries(c1, c')
    ensures Carries(c, c')
  {
  }

  lemma GapCarries(cfg: Config, c: Ctl, w: World, now: real)
    requires c.sent.Some?
    ensures Carries(c, StopAtGap(cfg, c, w, now))
  {
    hide Send, Cancel;
    var hold, c1 := HoldAt(c.sent.value.1), Cancel(cfg, c);
    CancelCarries(cfg, c);
    SendCarries(cfg, c1.(hold := c1.hold.(anchor := Some(hold)), sent := None), hold, None, w, now);
  }

  /** A ramp about to start has its measured pose in the band. */
  predicate StartsIn(cfg: Config, c: Ctl)
    requires cfg.policy.Some? && cfg.policy.value.bounds.Some?
  {
    c.jog.q.Some? && c.ramp.None? ==> InBand(c.sense.state.q, BandOf(cfg, c))
  }

  /** The cycle that serves a live jog: its ramped pose is in the band, so its word goes out wherever the dynamics and
      the tracking error admit it. */
  lemma JogWordPasses(cfg: Config, law: Law, c: Ctl, w: World, t: Time)
    requires RampsBy(cfg, law) && JogIn(cfg, law, c) && StartsIn(cfg, c)
    ensures var c1 := PollJog(cfg, c, t.now).0;
            c1.jog.q.Some? ==>
              var ramp := cfg.advance(c.ramp, c.jog.q.value, c.sense.state.q);
              var command := HoldAt(Positions(ramp));
              && RampIn(law, ramp, BandOf(cfg, c))
              && InBand(command.q, BandOf(cfg, c))
              && (CommandValid(cfg.n, cfg.policy.value, c.life.armed, FixRest(c).rest, command, w)
                  <==> w.sound(command))
              && (w.sound(command)
                  && (c.hold.soft.Some? || Near(command.q, c.sense.state.q, cfg.policy.value.abortErr)) ==>
                    var sent := StreamHold(cfg, c, w, t).trace;
                    |sent| > 0 && sent[|sent| - 1] == Word(command, HoldLaw, c.hold.soft))
  {
    hide JogRamp.Tick, JogRamp.IsSqrt, InBand, RampIn, Envelope;
    if PollJog(cfg, c, t.now).0.jog.q.Some? {
      var band, ramp := BandOf(cfg, c), cfg.advance(c.ramp, c.jog.q.value, c.sense.state.q);
      RampPasses(cfg, law, c);
      var command := HoldAt(Positions(ramp));
      assert FixRest(c).rest == c.rest;
      assert InBand(command.q, band) && |command.q| == cfg.n;
    }
  }

  lemma RampPasses(cfg: Config, law: Law, c: Ctl)
    requires RampsBy(cfg, law) && JogIn(cfg, law, c) && StartsIn(cfg, c) && c.jog.q.Some?
    ensures var ramp := cfg.advance(c.ramp, c.jog.q.value, c.sense.state.q);
            && RampIn(law, ramp, BandOf(cfg, c))
            && InBand(Positions(ramp), BandOf(cfg, c)) && |Positions(ramp)| == cfg.n
  {
    hide JogRamp.Tick, JogRamp.IsSqrt;
    BandHoldsBounds(BoundsOf(cfg), WhereBeen(BoundsOf(cfg), c.life.armed, c.rest));
    hide Envelope;
    AdvanceStaysIn(cfg, law, c.ramp, c.jog.q.value, c.sense.state.q, BandOf(cfg, c));
  }

  lemma StreamHoldKeeps(cfg: Config, law: Law, c: Ctl, w: World, t: Time)
    requires RampsBy(cfg, law) && JogIn(cfg, law, c) && StartsIn(cfg, c)
    ensures JogIn(cfg, law, StreamHold(cfg, c, w, t))
  {
    hide JogRamp.Tick, JogRamp.IsSqrt, InBand, RampIn, Envelope, Send, Carries, Reanchor;
    var (c1, expired) := PollJog(cfg, c, t.now);
    var c2 := c1.(ramp := RampTo(cfg, c1));
    assert Ramps(cfg);
    if c2.jog.q.Some? {
      RampPasses(cfg, law, c);
      var c3 := c2.(hold := c2.hold.(anchor := None));
      assert BandOf(cfg, c3) == BandOf(cfg, c);
      SendCarries(cfg, c3, HoldAt(Positions(c2.ramp.value)), None, w, t.now);
      CarriesJogIn(cfg, law, c3, StreamHold(cfg, c, w, t));
    } else {
      var anchor := Reanchor(cfg, c2, w, expired);
      var c3 := c2.(hold := c2.hold.(anchor := Some(anchor)));
      SendCarries(cfg, c3, HoldAt(anchor.q), None, w, t.now);
      CarriesJogIn(cfg, law, c3, StreamHold(cfg, c, w, t));
    }
  }

  lemma ServeKeeps(cfg: Config, law: Law, c: Ctl, w: World, t: Time)
    requires RampsBy(cfg, law) && JogIn(cfg, law, c) && StartsIn(cfg, c)
    ensures JogIn(cfg, law, Serve(cfg, c, w, t))
  {
    hide JogIn, Envelope, InBand, StreamLeg, StreamHold, StopAtGap, Complete;
    if GapExceeded(cfg, c, t.now) {
      GapCarries(cfg, c, w, t.now);
      CarriesJogIn(cfg, law, c, Serve(cfg, c, w, t));
    } else {
      var judged := cfg.policy.Some? && c.leg.running && c.leg.plan.Some? && c.leg.reference.Some?;
      var c1 := if judged then Complete(cfg, c, w, t) else c;
      if judged {
        CompleteCarries(cfg, c, w, t);
        CarriesJogIn(cfg, law, c, c1);
        CompleteSenses(cfg, c, w, t);
      }
      assert StartsIn(cfg, c1);
      if c1.leg.running && c1.leg.reference.Some? {
        StreamLegCarries(cfg, c1, w, t);
        CarriesJogIn(cfg, law, c1, StreamLeg(cfg, c1, w, t));
      } else {
        StreamHoldKeeps(cfg, law, c1, w, t);
      }
    }
  }

  lemma CompleteSenses(cfg: Config, c: Ctl, w: World, t: Time)
    requires c.leg.plan.Some? && c.leg.reference.Some?
    ensures var c' := Complete(cfg, c, w, t);
            c'.sense == c.sense && c'.rest == c.rest && c'.jog == c.jog && c'.ramp == c.ramp
            && c'.life.armed == c.life.armed
  {
    hide Judge, Polled, Due;
  }

  lemma TickKeeps(cfg: Config, law: Law, c: Ctl, w: World, t: Time)
    requires RampsBy(cfg, law) && JogIn(cfg, law, c) && StartsIn(cfg, c)
    ensures JogIn(cfg, law, OnTick(cfg, c, w, t))
  {
    hide InBand, RampIn, Envelope, Serve, ObservationError, PauseObservation;
    PauseCarries(cfg, c, false);
    CarriesJogIn(cfg, law, c, PauseObservation(cfg, c, false));
    var c1 := c.(sense := c.sense.(paused := false));
    var c2 := Announce(c1);
    assert BandOf(cfg, c1) == BandOf(cfg, c) && BandOf(cfg, c2) == BandOf(cfg, c);
    ServeKeeps(cfg, law, c2, w, t);
  }

  /** Taking a pose into a fixed episode only widens the band. */
  lemma BandWidens(n: nat, bounds: (Pose, Pose), rest: Rest, q: Pose)
    requires rest.fixed && rest.pose.Some? && Boxed(n, rest) && |q| == n
    ensures var band, band' := Envelope(bounds, WhereBeen(bounds, true, rest)),
                               Envelope(bounds, WhereBeen(bounds, true, Record(rest, q)));
            && |band'.0| == |band.0| && |band'.1| == |band.1|
            && (forall j :: 0 <= j < |band.0| ==> band'.0[j] <= band.0[j])
            && (forall j :: 0 <= j < |band.1| ==> band.1[j] <= band'.1[j])
  {
  }

  lemma WiderKeeps(law: Law, q: Pose, ramp: Option<seq<JogRamp.Joint>>, band: (Pose, Pose), band': (Pose, Pose))
    requires |band'.0| == |band.0| && |band'.1| == |band.1|
    requires forall j :: 0 <= j < |band.0| ==> band'.0[j] <= band.0[j]
    requires forall j :: 0 <= j < |band.1| ==> band.1[j] <= band'.1[j]
    requires InBand(q, band) && (ramp.Some? ==> RampIn(law, ramp.value, band))
    ensures InBand(q, band') && (ramp.Some? ==> RampIn(law, ramp.value, band'))
  {
  }

  lemma RecordBoxed(n: nat, rest: Rest, q: Pose)
    requires Boxed(n, rest) && |q| == n
    ensures Boxed(n, Record(rest, q))
  {
  }

  lemma TakeKeeps(cfg: Config, law: Law, c: Ctl, m: Measured)
    requires ValidLaw(cfg, law) && JogIn(cfg, law, c) && |m.q| == cfg.n
    ensures JogIn(cfg, law, TakeState(c, m))
  {
    hide InBand, RampIn;
    RecordBoxed(cfg.n, c.rest, m.q);
    if c.jog.q.Some? && m.qFinite {
      BandWidens(cfg.n, BoundsOf(cfg), c.rest, m.q);
      hide Envelope, Record, Boxed;
      WiderKeeps(law, c.jog.q.value, c.ramp, BandOf(cfg, c), BandOf(cfg, TakeState(c, m)));
    }
  }

  lemma StateKeeps(cfg: Config, law: Law, c: Ctl, m: Measured, w: World, t: Time)
    requires ValidLaw(cfg, law) && JogIn(cfg, law, c) && |m.q| == cfg.n
    ensures JogIn(cfg, law, OnState(cfg, c, m, w, t))
  {
    hide InBand, RampIn, Envelope, Carries, PauseObservation, TakeState;
    var c1 := c.(sense := c.sense.(at := Some(t.now)));
    var c2 := if cfg.statePeriod.None? then c1
              else c1.(sense := c1.sense.(plantT := c1.sense.plantT + cfg.statePeriod.value));
    var c3 := c2.(sense := c2.sense.(at := None));
    assert BandOf(cfg, c2) == BandOf(cfg, c) && BandOf(cfg, c3) == BandOf(cfg, c);
    assert JogIn(cfg, law, c2) && JogIn(cfg, law, c3);
    PauseCarries(cfg, c3, false);
    CarriesJogIn(cfg, law, c3, PauseObservation(cfg, c3, false));
    PauseCarries(cfg, c2, true);
    CarriesJogIn(cfg, law, c2, PauseObservation(cfg, c2, true));
    TakeKeeps(cfg, law, c2, m);
    TakeKeeps(cfg, law, PauseObservation(cfg, c2, true), m);
  }

  lemma ArmKeeps(cfg: Config, law: Law, c: Ctl, on: bool, now: real)
    requires ValidLaw(cfg, law) && JogIn(cfg, law, c)
    ensures JogIn(cfg, law, SetArm(cfg, c, on, now))
  {
    hide InBand, RampIn, Envelope;
  }

  lemma ReleaseCarries(cfg: Config, c: Ctl, id: PlanId, start: Option<real>, t: Time)
    ensures Carries(c, Release(cfg, c, id, start, t))
  {
    hide StartError;
  }

  lemma PlanCarries(cfg: Config, c: Ctl, plan: Plan, malformed: bool, flawed: bool, t: Time)
    ensures Carries(c, OnPlan(cfg, c, plan, malformed, flawed, t))
  {
    hide StartError, Release;
    var c1 := Log(c.(leg := c.leg.(plan := Some(plan), cartesian := plan.cartesian, pending := Some(plan.trajectory),
                                   running := false)), Staged(plan));
    ReleaseCarries(cfg, c1, plan.id, None, t);
  }

  lemma LawCarries(cfg: Config, c: Ctl, ok: bool, spec: Spec, decodes: bool, now: real)
    ensures Carries(c, SetGains(cfg, c, ok)) && Carries(c, SetSoft(cfg, c, spec, decodes, now))
  {
    hide Cancel, SoftAllowed;
    CancelCarries(cfg, c);
    var c1 := if c.hold.soft.Some? then var x := Cancel(cfg, c); x.(hold := x.hold.(last := None)) else c;
    CancelCarries(cfg, c1);
  }

  lemma InterruptCarries(cfg: Config, c: Ctl, u: Control, t: Time)
    ensures Carries(c, Interrupt(cfg, c, u, t))
  {
    hide Cancel, Stop;
    CancelCarries(cfg, c);
    var c1 := if u.cancel then CancelNamed(cfg, c, u.cancelId) else c;
    FaultCarries(cfg, if u.hold then Freeze(c1) else c1, t.now);
  }

  lemma ControlKeeps(cfg: Config, law: Law, c: Ctl, u: Control, t: Time)
    requires ValidLaw(cfg, law) && JogIn(cfg, law, c)
    ensures JogIn(cfg, law, OnControl(cfg, c, u, t))
  {
    hide JogIn, Carries, SetArm, Release, SetGains, SetSoft, Interrupt;
    var c1 := if u.arm.Some? then SetArm(cfg, c, u.arm.value, t.now) else c;
    if u.arm.Some? {
      ArmKeeps(cfg, law, c, u.arm.value, t.now);
    }
    var c2 := if u.execute.Some? then Release(cfg, c1, u.execute.value, None, t) else c1;
    if u.execute.Some? {
      ReleaseCarries(cfg, c1, u.execute.value, None, t);
      CarriesJogIn(cfg, law, c1, c2);
    }
    var c3 := if u.gains.Some? then SetGains(cfg, c2, u.gains.value) else c2;
    if u.gains.Some? {
      LawCarries(cfg, c2, u.gains.value, [], false, t.now);
      CarriesJogIn(cfg, law, c2, c3);
    }
    var c4 := if u.soft.Some? then SetSoft(cfg, c3, u.soft.value.0, u.soft.value.1, t.now) else c3;
    if u.soft.Some? {
      LawCarries(cfg, c3, false, u.soft.value.0, u.soft.value.1, t.now);
      CarriesJogIn(cfg, law, c3, c4);
    }
    InterruptCarries(cfg, c4, u, t);
    CarriesJogIn(cfg, law, c4, Interrupt(cfg, c4, u, t));
  }

  lemma JudgeCarries(cfg: Config, c: Ctl, h: Health, now: real)
    ensures Carries(c, JudgeHealth(cfg, c, h, now))
  {
    hide Cancel, PauseObservation;
    var c1 := c.(sense := c.sense.(healthAt := Some(now), healthOk := h.ok));
    CancelCarries(cfg, c1);
    var c2 := if h.holding && !c1.sense.rtHolding && h.ok then AdoptRtHold(cfg, c1, h.holdingQ) else c1;
    PauseCarries(cfg, c2.(sense := c2.sense.(rtHolding := h.holding)), false);
  }

  lemma HealthCarries(cfg: Config, c: Ctl, h: Health, now: real)
    ensures Carries(c, OnHealth(cfg, c, h, now))
  {
    hide RaiseFault, JudgeHealth;
    JudgeCarries(cfg, c, h, now);
    var c1 := if cfg.policy.Some? then JudgeHealth(cfg, c, h, now) else c;
    FaultCarries(cfg, c1.(sense := c1.sense.(softCapable := h.softCapable)), now);
  }

  /** What the sender of jogs and the arm's pose keep to: a jog that is taken asks for a pose in the band, once the
      episode's band is fixed, and where a ramp starts the measured pose is in it. */
  predicate KeepsIn(cfg: Config, c: Ctl, i: Input)
    requires cfg.policy.Some? && cfg.policy.value.bounds.Some?
  {
    match i
    case JogInput(q, _) =>
      !JogRefused(c) && |q| == cfg.n ==> c.rest.fixed && c.rest.pose.Some? && InBand(q, BandOf(cfg, c))
    case TickInput(_, _) => StartsIn(cfg, c)
    case _ => true
  }

  lemma StepKeepsIn(cfg: Config, law: Law, c: Ctl, i: Input)
    requires RampsBy(cfg, law) && JogIn(cfg, law, c) && ArmTrace.Decoded(cfg, i) && KeepsIn(cfg, c, i)
    ensures JogIn(cfg, law, Step(cfg, c, i))
  {
    hide JogIn, Carries, StartsIn, InBand, Envelope, OnPlan, OnControl, Release, OnJog, ClearJog,
      OnHealth, OnState, OnTick, OnSent;
    match i
    case PlanInput(plan, malformed, flawed, t) =>
      PlanCarries(cfg, c, plan, malformed, flawed, t);
      CarriesJogIn(cfg, law, c, OnPlan(cfg, c, plan, malformed, flawed, t));
    case ControlInput(u, t) => ControlKeeps(cfg, law, c, u, t);
    case ReleaseInput(id, start, t) =>
      ReleaseCarries(cfg, c, id, start, t);
      CarriesJogIn(cfg, law, c, Release(cfg, c, id, start, t));
    case JogInput(q, t) => JogKeeps(cfg, law, c, q, t.now);
    case ClearJogInput =>
      ClearCarries(c);
      CarriesJogIn(cfg, law, c, ClearJog(c));
    case HealthInput(h, t) =>
      HealthCarries(cfg, c, h, t.now);
      CarriesJogIn(cfg, law, c, OnHealth(cfg, c, h, t.now));
    case StateInput(m, w, t) => StateKeeps(cfg, law, c, m, w, t);
    case TickInput(w, t) => TickKeeps(cfg, law, c, w, t);
    case SentInput(id, q, at) =>
      SentCarries(c, id, q, at);
      CarriesJogIn(cfg, law, c, OnSent(c, id, q, at));
  }

  lemma JogKeeps(cfg: Config, law: Law, c: Ctl, q: Pose, now: real)
    requires ValidLaw(cfg, law) && JogIn(cfg, law, c)
    requires !JogRefused(c) && |q| == cfg.n ==> c.rest.fixed && c.rest.pose.Some? && InBand(q, BandOf(cfg, c))
    ensures JogIn(cfg, law, OnJog(cfg, c, q, now))
  {
    hide InBand, RampIn, Envelope;
    assert BandOf(cfg, OnJog(cfg, c, q, now)) == BandOf(cfg, c);
  }

  lemma ClearCarries(c: Ctl)
    ensures Carries(c, ClearJog(c))
  {
  }

  lemma SentCarries(c: Ctl, id: PlanId, q: Pose, at: real)
    ensures Carries(c, OnSent(c, id, q, at))
  {
  }

  /** With the ramp as the controller advances it, over every run whose jogs ask for poses in the band and whose ramps
      start in it, so does every live jog and its ramp: the band may widen under it, never close. */
  lemma {:induction false} RunKeepsIn(cfg: Config, law: Law, inputs: seq<Input>)
    requires RampsBy(cfg, law)
    requires forall k :: 0 <= k < |inputs| ==>
      ArmTrace.Decoded(cfg, inputs[k]) && KeepsIn(cfg, Run(cfg, inputs[..k]), inputs[k])
    ensures JogIn(cfg, law, Run(cfg, inputs))
  {
    hide JogIn, KeepsIn, Step;
    if inputs == [] {
      StartIsIn(cfg, law);
    } else {
      var n := |inputs| - 1;
      forall k | 0 <= k < n
        ensures ArmTrace.Decoded(cfg, inputs[..n][k]) && KeepsIn(cfg, Run(cfg, inputs[..n][..k]), inputs[..n][k])
      {
        assert inputs[..n][..k] == inputs[..k];
      }
      RunKeepsIn(cfg, law, inputs[..n]);
      StepKeepsIn(cfg, law, Run(cfg, inputs[..n]), inputs[n]);
    }
  }

  lemma StartIsIn(cfg: Config, law: Law)
    requires ValidLaw(cfg, law)
    ensures JogIn(cfg, law, Start(cfg))
  {
  }

  /** In every such run no jog word is refused for its position: the ramped pose passes the policy exactly when the
      dynamics do, and within the tracking error the word is sent. */
  lemma NoJogRefusedForPosition(cfg: Config, law: Law, inputs: seq<Input>, w: World, t: Time)
    requires RampsBy(cfg, law)
    requires forall k :: 0 <= k < |inputs| ==>
      ArmTrace.Decoded(cfg, inputs[k]) && KeepsIn(cfg, Run(cfg, inputs[..k]), inputs[k])
    ensures var c := Run(cfg, inputs);
            StartsIn(cfg, c) && PollJog(cfg, c, t.now).0.jog.q.Some? ==>
              var command := HoldAt(Positions(cfg.advance(c.ramp, c.jog.q.value, c.sense.state.q)));
              && (CommandValid(cfg.n, cfg.policy.value, c.life.armed, FixRest(c).rest, command, w)
                  <==> w.sound(command))
              && (w.sound(command)
                  && (c.hold.soft.Some? || Near(command.q, c.sense.state.q, cfg.policy.value.abortErr)) ==>
                    var sent := StreamHold(cfg, c, w, t).trace;
                    |sent| > 0 && sent[|sent| - 1] == Word(command, HoldLaw, c.hold.soft))
  {
    hide JogIn, KeepsIn, StartsIn, StreamHold, CommandValid, Near, Run;
    RunKeepsIn(cfg, law, inputs);
    var c := Run(cfg, inputs);
    if StartsIn(cfg, c) {
      JogWordPasses(cfg, law, c, w, t);
    }
  }
}
