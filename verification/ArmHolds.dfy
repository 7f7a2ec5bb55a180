/** The hold of the arm controller between motions: its target does not walk with the arm. */
module ArmHolds {
  import opened Wrappers
  import opened Arm
  import LegSettling

  /** One motor state and the tick after it. */
  datatype Beat = Beat(m: Measured, w: World, arrived: Time, t: Time)

  function OnBeat(cfg: Config, c: Ctl, b: Beat): Ctl {
    OnTick(cfg, OnState(cfg, c, b.m, b.w, b.arrived), b.w, b.t)
  }

  function Beats(cfg: Config, c: Ctl, beats: seq<Beat>): Ctl {
    if beats == [] then c else OnBeat(cfg, Beats(cfg, c, beats[..|beats| - 1]), beats[|beats| - 1])
  }

  /** The hold at `target` may be sent: it passes the policy, and the arm has not drifted from it. */
  predicate Holdable(n: nat, policy: Policy, c: Ctl, w: World, target: Pose) {
    && !Drifted(c.sense.state.q, target, w.slack)
    && CommandValid(n, policy, FixRest(c).life.armed, FixRest(c).rest, HoldAt(target), w)
    && (c.hold.soft.Some? || Near(target, c.sense.state.q, policy.abortErr))
  }

  /** The observation is unbroken over the beat, and the hold could be sent. */
  predicate Quiet(cfg: Config, policy: Policy, c: Ctl, b: Beat, target: Pose) {
    && Finite(b.m)
    && (c.sense.at.Some? ==> b.arrived.now - c.sense.at.value <= policy.stateTimeout)
    && !ObservationError(cfg, policy, OnState(cfg, c, b.m, b.w, b.arrived).sense, b.t.now)
    && Holdable(cfg.n, policy, OnState(cfg, c, b.m, b.w, b.arrived), b.w, target)
  }

  predicate Undisturbed(cfg: Config, policy: Policy, c: Ctl, beats: seq<Beat>, target: Pose) {
    beats == [] ||
    var before := beats[..|beats| - 1];
    && Undisturbed(cfg, policy, c, before, target)
    && Quiet(cfg, policy, Beats(cfg, c, before), beats[|beats| - 1], target)
  }

  /** Anchored at `target`, with no jog. */
  predicate Anchored(c: Ctl, target: Pose) {
    c.hold.anchor.Some? && c.hold.anchor.value.q == target && c.jog.q.None? && !c.jog.expired
  }

  /** With authority, no leg, and anchored at `target`. */
  predicate Holding(c: Ctl, target: Pose) {
    Anchored(c, target) && c.life.armed && c.life.ready && !c.life.stopped && !c.leg.running
  }

  lemma SendsAsIs(cfg: Config, c: Ctl, target: Pose, w: World, now: real)
    requires cfg.policy.Some? && Holdable(cfg.n, cfg.policy.value, c, w, target)
    ensures Send(cfg, c, HoldAt(target), None, w, now) == Emit(FixRest(c), HoldAt(target), None)
  {
    hide CommandValid, Near, Drifted, AbortTracking, RaiseFault;
  }

  lemma CycleHolds(cfg: Config, c: Ctl, w: World, t: Time, target: Pose)
    requires cfg.policy.Some? && Anchored(c, target) && Holdable(cfg.n, cfg.policy.value, c, w, target)
    ensures StreamHold(cfg, c, w, t) == Emit(FixRest(c.(ramp := RampTo(cfg, c))), HoldAt(target), None)
  {
    hide Send, RampTo, CommandValid, Near, Drifted;
    var s := c.(ramp := RampTo(cfg, c));
    assert PollJog(cfg, c, t.now) == (c, false) by {
      assert c.(jog := c.jog.(expired := false)) == c;
    }
    assert Reanchor(cfg, s, w, false) == c.hold.anchor.value;
    assert s.(hold := s.hold.(anchor := Some(c.hold.anchor.value))) == s;
    SendsAsIs(cfg, s, target, w, t.now);
  }

  /** The state a motor state leaves when nothing is amiss. */
  function Took(cfg: Config, c: Ctl, b: Beat): Ctl {
    var at := c.sense.(at := Some(b.arrived.now));
    TakeState(c.(sense := if cfg.statePeriod.None? then at else at.(plantT := at.plantT + cfg.statePeriod.value)), b.m)
  }

  lemma TookKeeps(cfg: Config, c: Ctl, b: Beat)
    ensures var d := Took(cfg, c, b);
            && d.life == c.life && d.leg == c.leg && d.hold == c.hold && d.jog == c.jog
            && (d.trace == c.trace || d.trace == c.trace + [Saw(b.m.q)])
  {
    hide Record;
  }

  function Resumed(c: Ctl): Ctl {
    c.(sense := c.sense.(paused := false))
  }

  lemma BeatIsACycle(cfg: Config, c: Ctl, b: Beat, target: Pose)
    requires cfg.policy.Some? && Holding(c, target) && Quiet(cfg, cfg.policy.value, c, b, target)
    ensures OnState(cfg, c, b.m, b.w, b.arrived) == Took(cfg, c, b)
    ensures OnBeat(cfg, c, b) == StreamHold(cfg, Resumed(Took(cfg, c, b)), b.w, b.t)
  {
    hide Holdable, StreamHold, Record, Complete, StopAtGap, StreamLeg, ObservationError;
    assert OnState(cfg, c, b.m, b.w, b.arrived) == Took(cfg, c, b);
  }

  /** What the two handlers come to: at most a pose seen, at most the band fixed, and the word. */
  lemma BeatIsAWord(cfg: Config, c: Ctl, b: Beat, target: Pose)
    requires cfg.policy.Some? && Holding(c, target) && Quiet(cfg, cfg.policy.value, c, b, target)
    ensures var d := Resumed(Took(cfg, c, b));
            OnBeat(cfg, c, b) == Emit(FixRest(d.(ramp := RampTo(cfg, d))), HoldAt(target), None)
  {
    hide StreamHold, TakeState, RampTo, Emit, FixRest, OnState, OnTick, ObservationError, CommandValid, Drifted, Near;
    BeatIsACycle(cfg, c, b, target);
    TookKeeps(cfg, c, b);
    PauseAside(cfg, Took(cfg, c, b), b.w, target);
    CycleHolds(cfg, Resumed(Took(cfg, c, b)), b.w, b.t, target);
  }

  lemma PauseAside(cfg: Config, c: Ctl, w: World, target: Pose)
    requires cfg.policy.Some? && Holdable(cfg.n, cfg.policy.value, c, w, target)
    ensures Holdable(cfg.n, cfg.policy.value, Resumed(c), w, target)
  {
    hide CommandValid, Drifted, Near;
  }

  ghost predicate HoldsOn(c: Ctl, c': Ctl, target: Pose) {
    && Holding(c', target) && c'.hold.soft == c.hold.soft && c.trace <= c'.trace
    && forall i :: |c.trace| <= i < |c'.trace| ==>
         c'.trace[i].Saw? || c'.trace[i].Fixed? || c'.trace[i] == Word(HoldAt(target), HoldLaw, c.hold.soft)
  }

  lemma BeatHolds(cfg: Config, c: Ctl, b: Beat, target: Pose)
    requires cfg.policy.Some? && Holding(c, target) && Quiet(cfg, cfg.policy.value, c, b, target)
    ensures HoldsOn(c, OnBeat(cfg, c, b), target)
    ensures var sent := OnBeat(cfg, c, b).trace;
            |sent| > 0 && sent[|sent| - 1] == Word(HoldAt(target), HoldLaw, c.hold.soft)
  {
    BeatIsAWord(cfg, c, b, target);
    TookKeeps(cfg, c, b);
    hide OnBeat, Took, Quiet, RampTo;
  }

  /** However many motor states and ticks pass, the arm sagging within what the policy allows, every word asks for the
      pose the hold was anchored at, and every tick sends one: a hold never walks after the arm. */
  lemma {:induction false} HoldNeverWalks(cfg: Config, c: Ctl, beats: seq<Beat>, target: Pose)
    requires cfg.policy.Some? && Holding(c, target)
    ensures Undisturbed(cfg, cfg.policy.value, c, beats, target) ==>
              var c' := Beats(cfg, c, beats);
              && HoldsOn(c, c', target)
              && (beats != [] ==>
                    |c'.trace| > 0 && c'.trace[|c'.trace| - 1] == Word(HoldAt(target), HoldLaw, c.hold.soft))
  {
    hide Quiet, OnBeat;
    if beats != [] && Undisturbed(cfg, cfg.policy.value, c, beats, target) {
      var n := |beats| - 1;
      HoldNeverWalks(cfg, c, beats[..n], target);
      BeatHolds(cfg, Beats(cfg, c, beats[..n]), beats[n], target);
    }
  }

  /** How a judged leg leaves the hold: a timed-out one is frozen where the arm is; a settled joint leg is anchored at
      its planned end, one with its own rule is left to anchor anew, and one that was released during a freeze keeps
      whatever hold there was. */
  lemma SettledLegHoldsItsEnd(cfg: Config, c: Ctl, w: World, t: Time)
    requires c.leg.plan.Some? && c.leg.reference.Some? && c.leg.running
    ensures var c' := Complete(cfg, c, w, t);
            !c'.leg.running ==>
              && |c'.trace| > 0 && c'.trace[|c'.trace| - 1].Result?
              && if c'.trace[|c'.trace| - 1].settled.None? then c'.life.frozen && c'.hold.anchor == Some(StaticHold(c))
                 else if c.life.frozen then c'.hold == c.hold
                 else if c.leg.plan.value.ruled then c'.hold.anchor.None?
                 else c'.hold.anchor == Some(HoldAt(c.leg.reference.value.trajectory.last))
  {
    hide LegSettling.Judge, LegSettling.Polled, LegSettling.Due;
  }

  /** A jog that was not renewed in time stops the arm where it is: the word of the cycle that finds it stale asks for
      the measured pose, whatever was asked for last, and that is the anchor from then on. */
  lemma StaleJogHoldsMeasured(cfg: Config, c: Ctl, w: World, t: Time) returns (held: Ctl)
    requires c.jog.q.Some? && t.now - c.jog.at > cfg.jogTimeout
    ensures held.jog.q.None? && !held.jog.expired && held.hold == c.hold.(anchor := Some(StaticHold(c)))
    ensures held.life == c.life && held.leg == c.leg && held.sense == c.sense && held.trace == c.trace
    ensures StreamHold(cfg, c, w, t) == Send(cfg, held, StaticHold(c), None, w, t.now)
  {
    hide Send, RampTo, Drifted;
    var (p, expired) := PollJog(cfg, c, t.now);
    var s := p.(ramp := RampTo(cfg, p));
    assert expired && s.jog.q.None? && Reanchor(cfg, s, w, true) == StaticHold(c);
    held := s.(hold := s.hold.(anchor := Some(StaticHold(c))));
  }

  // ---- what ends a freeze -----------------------------------------------------------------------

  /** A cancel that names no plan, or the loaded one, or comes when none is loaded. */
  predicate Reaches(c: Ctl, requested: Option<PlanId>) {
    requested.None? || CurrentId(c) == "" || requested.value == CurrentId(c)
  }

  /** Gains that end a pose hold or a running leg. */
  predicate GainsEnd(cfg: Config, c: Ctl, u: Control, t: Time) {
    var c1 := if u.arm.Some? then SetArm(cfg, c, u.arm.value, t.now) else c;
    var c2 := if u.execute.Some? then Release(cfg, c1, u.execute.value, None, t) else c1;
    u.gains == Some(true) && (c2.hold.soft.Some? || c2.leg.running)
  }

  /** Neither authority nor a release touches a freeze. */
  lemma FreezeStays(cfg: Config, c: Ctl, on: bool, id: PlanId, start: Option<real>, t: Time)
    ensures SetArm(cfg, c, on, t.now).life.frozen == c.life.frozen
    ensures Release(cfg, c, id, start, t).life.frozen == c.life.frozen
  {
    hide ArmPose, StartError;
  }

  lemma LawThaws(cfg: Config, c: Ctl, ok: bool, spec: Spec, decodes: bool, now: real)
    ensures SetGains(cfg, c, ok).life.frozen == (c.life.frozen && !(ok && (c.hold.soft.Some? || c.leg.running)))
    ensures SetSoft(cfg, c, spec, decodes, now).life.frozen == c.life.frozen
  {
    hide KeepsAnchor, ObservationError, NoFasterThan;
  }

  lemma DirectThawsExactly(cfg: Config, c: Ctl, u: Control, t: Time)
    requires c.life.frozen
    ensures !Direct(cfg, c, u, t).life.frozen <==> GainsEnd(cfg, c, u, t)
  {
    hide SetArm, Release, SetGains, SetSoft;
    var c1 := if u.arm.Some? then SetArm(cfg, c, u.arm.value, t.now) else c;
    if u.arm.Some? { FreezeStays(cfg, c, u.arm.value, "", None, t); }
    var c2 := if u.execute.Some? then Release(cfg, c1, u.execute.value, None, t) else c1;
    if u.execute.Some? { FreezeStays(cfg, c1, true, u.execute.value, None, t); }
    var c3 := if u.gains.Some? then SetGains(cfg, c2, u.gains.value) else c2;
    if u.gains.Some? { LawThaws(cfg, c2, u.gains.value, [], false, t.now); }
    if u.soft.Some? { LawThaws(cfg, c3, true, u.soft.value.0, u.soft.value.1, t.now); }
  }

  /** A control update ends a freeze exactly when it does not hold, and cancels - the loaded plan, no plan in
      particular, or with none loaded - or brings admissible gains that end a pose hold or a leg. */
  lemma ControlThawsExactly(cfg: Config, c: Ctl, u: Control, t: Time)
    requires c.life.frozen
    ensures !OnControl(cfg, c, u, t).life.frozen
            <==> !u.hold && (GainsEnd(cfg, c, u, t) || (u.cancel && Reaches(Direct(cfg, c, u, t), u.cancelId)))
  {
    hide Direct, GainsEnd, KeepsAnchor, ArmPose;
    DirectThawsExactly(cfg, c, u, t);
  }

  /** So an update that disarms an armed arm ends its freeze exactly when it also cancels and does not hold. */
  lemma DisarmThawsExactly(cfg: Config, c: Ctl, u: Control, t: Time)
    requires c.life.frozen && c.life.armed && u.arm == Some(false)
    ensures !OnControl(cfg, c, u, t).life.frozen <==> u.cancel && !u.hold
  {
    hide OnControl, KeepsAnchor, ObservationError, NoFasterThan;
    ControlThawsExactly(cfg, c, u, t);
    var c1 := SetArm(cfg, c, false, t.now);
    assert c1.leg.plan.None? && !c1.leg.running && c1.hold.soft.None? && !c1.life.armed;
  }
}
