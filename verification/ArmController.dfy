/** `control/arm_controller.py`: the controller itself, each method proved to do what `Arm` says of its event.

    Its some thirty fields are kept in the records that `Arm` names. */
module ArmController {
  import opened Wrappers
  import opened Reals
  import opened LegSettling
  import opened Arm
  import JogHold
  import JogRamp

  class Controller {
    const cfg: Config
    const jog: JogHold.Hold
    const settling: Settler
    var life: Life
    var leg: Leg
    var seen: Option<real>
    var hold: Hold
    var sense: Sense
    var rest: Rest
    var sent: Option<(real, Pose)>
    var ramp: Option<seq<JogRamp.Joint>>
    ghost var trace: seq<Event>

    ghost function Value(): Ctl
      reads this, jog, settling
    {
      Ctl(life, leg, Finish(settling.Value(), seen), hold, sense, rest, sent, jog.Value(), ramp, trace)
    }

    ghost predicate Valid() {
      jog.timeout == cfg.jogTimeout && jog.joints == cfg.n && settling.limits == cfg.settling
    }

    constructor (cfg: Config)
      requires ValidLimits(cfg.settling) && cfg.jogTimeout > 0.0
      ensures this.cfg == cfg && Valid() && fresh(jog) && fresh(settling)
      ensures Value() == Start(cfg)
    {
      this.cfg := cfg;
      jog := new JogHold.Hold(cfg.jogTimeout, cfg.n);
      settling := new Settler(cfg.settling);
      life := Life(false, !cfg.needsHealth, false, false, false);
      leg, seen, hold := NO_LEG, None, NO_HOLD;
      sense := Sense(Measured(Zeros(cfg.n), Zeros(cfg.n), true, true), None, None, !cfg.needsHealth, false, false,
                     false, 0.0);
      rest := Rest(None, false, None);
      sent, ramp, trace := None, None, [];
    }

    method FinishLeg(settled: Option<real>)
      modifies this
      ensures Value() == Arm.FinishLeg(old(Value()), settled)
    {
      ghost var id := CurrentId(Value());
      sent := None;
      leg := leg.(reference := None, running := false, plan := None);
      trace := trace + [Result(id, settled)];
    }

    method Cancel()
      requires Valid()
      modifies this, jog
      ensures Value() == Arm.Cancel(cfg, old(Value()))
    {
      hide Arm.FinishLeg;
      var keepAnchor := leg.plan.Some? && leg.pending.Some? && !leg.running && jog.q.None? && hold.soft.None?
        && leg.cartesian.None? && !life.frozen && !life.stopped && hold.last.Some? && Still(hold.last.value.qd)
        && sense.state.vFinite && SlowerThan(sense.state.v, 0.01);
      if cfg.policy.Some? {
        leg := leg.(cartesian := None);
      }
      if hold.soft.Some? {
        hold := hold.(soft := None, last := None);
      }
      if leg.running {
        FinishLeg(None);
      }
      life := life.(frozen := false);
      leg := leg.(plan := None, pending := None, running := false, reference := None);
      jog.Clear();
      if !keepAnchor {
        hold := hold.(anchor := None);
      }
      trace := trace + [Cancelled];
    }

    method DisarmReset()
      requires Valid()
      modifies this, jog
      ensures Value() == Arm.DisarmReset(cfg, old(Value()))
    {
      if leg.running {
        FinishLeg(None);
      }
      leg := NO_LEG;
      life := life.(ready := false, bridgeArmed := !cfg.needsHealth);
      jog.Clear();
      hold := NO_HOLD;
    }

    method SetArm(on: bool, now: real)
      requires Valid()
      modifies this, jog
      ensures Value() == Arm.SetArm(cfg, old(Value()), on, now)
    {
      ghost var edge: Option<Pose> := None;
      if life.armed && !on {
        DisarmReset();
      } else if on && !life.armed {
        var isFresh := sense.at.Some? && cfg.policy.Some? && now - sense.at.value <= cfg.policy.value.stateTimeout;
        var pose := if isFresh && sense.state.qFinite then Some(sense.state.q) else None;
        rest := Rest(pose, false, if pose.None? then None else Some((pose.value, pose.value)));
        edge := pose;
      }
      life := life.(armed := on);
      trace := trace + [Armed(on, edge)];
    }

    method Stop(now: real)
      requires Valid()
      modifies this, jog
      ensures Value() == Arm.Stop(cfg, old(Value()), now)
    {
      if life.stopped {
        return;
      }
      life := life.(stopped := true);
      if life.armed {
        SetArm(false, now);
      }
      trace := trace + [Event.Fault];
    }

    method RaiseFault(now: real)
      requires Valid()
      modifies this, jog
      ensures Value() == Arm.RaiseFault(cfg, old(Value()), now)
    {
      hide Arm.Stop;
      if leg.running {
        FinishLeg(None);
      }
      Stop(now);
    }

    method PauseObservation(preserveRtHold: bool)
      requires Valid()
      modifies this, jog
      ensures Value() == Arm.PauseObservation(cfg, old(Value()), preserveRtHold)
    {
      hide Arm.Cancel;
      var kept := if preserveRtHold && sense.rtHolding && sense.healthOk then hold.anchor else None;
      if !sense.paused || leg.plan.Some? || leg.running || jog.q.Some? || hold.soft.Some? {
        Cancel();
      }
      sense := sense.(paused := true);
      life := life.(ready := false);
      hold := hold.(last := None, anchor := kept);
      trace := trace + [Paused];
    }

    // ---- words --------------------------------------------------------------------------------

    method Emit(command: Command, at: Option<real>)
      modifies this
      ensures Value() == Arm.Emit(old(Value()), command, at)
    {
      hold := hold.(last := Some(command));
      var law := if at.Some? then LegLaw(at.value, leg.cartesian) else HoldLaw;
      trace := trace + [Word(command, law, hold.soft)];
    }

    method Send(command: Command, at: Option<real>, w: World, now: real) returns (ok: bool)
      requires Valid()
      modifies this, jog
      ensures Value() == Arm.Send(cfg, old(Value()), command, at, w, now)
      ensures cfg.policy.None? ==> ok
    {
      hide Arm.Emit, Arm.RaiseFault, Arm.Cancel, CommandValid, Near;
      if cfg.policy.None? {
        Emit(command, at);
        return true;
      }
      var policy := cfg.policy.value;
      FixRest();
      if !CommandValid(cfg.n, policy, life.armed, rest, command, w) {
        RaiseFault(now);
        return false;
      }
      if hold.soft.None? && !Near(command.q, sense.state.q, policy.abortErr) {
        AbortTracking();
        if !CommandValid(cfg.n, policy, life.armed, rest, hold.anchor.value, w) {
          RaiseFault(now);
          return false;
        }
        Emit(hold.anchor.value, None);
        return false;
      }
      Emit(command, at);
      return true;
    }

    method FixRest()
      modifies this`rest, this`trace
      ensures Value() == Arm.FixRest(old(Value()))
    {
      if life.armed && rest.pose.Some? {
        if !rest.fixed {
          trace := trace + [Fixed];
        }
        rest := rest.(fixed := true);
      }
    }

    method AbortTracking()
      requires Valid()
      modifies this, jog
      ensures Value() == Arm.AbortTracking(cfg, old(Value()))
      ensures hold.anchor == Some(StaticHold(Value()))
    {
      hide Arm.Cancel;
      Cancel();
      hold := hold.(last := None, anchor := Some(HoldAt(sense.state.q)));
    }

    // ---- completion ---------------------------------------------------------------------------

    method CheckCompletion(w: World, t: Time) returns (over: bool)
      requires Valid()
      modifies this, settling
      ensures (Value(), over) == Arm.CheckCompletion(cfg, old(Value()), w, t)
    {
      hide Judge, Polled, Arm.FinishLeg, Due;
      var now := if cfg.statePeriod.Some? then sense.plantT else t.ref;
      var isFresh := seen != sense.at;
      seen := sense.at;
      var x := Sample(now, isFresh, w.done, false);
      var verdict := settling.Poll(x);
      trace := trace + [Judged(x)];
      if verdict.None? {
        return false;
      }
      match verdict.value.state
      case Settled =>
        FinishLeg(Some(now));
        return true;
      case TimedOut =>
        GiveUp();
        return true;
      case Settling =>
        var due := settling.DueToReport(now);
        if due {
          trace := trace + [Progress(CurrentId(Value()))];
        }
        return false;
    }

    /** A failed settle must not turn into another motion: freeze at the measured pose. */
    method GiveUp()
      modifies this
      ensures var c, still := old(Value()), HoldAt(old(sense).state.q);
              Value() == Arm.FinishLeg(
                c.(hold := c.hold.(last := Some(still), anchor := Some(still)),
                   leg := c.leg.(cartesian := None, pending := None), life := c.life.(frozen := true)), None)
    {
      hide Arm.FinishLeg;
      var still := HoldAt(sense.state.q);
      hold := hold.(last := Some(still), anchor := Some(still));
      leg := leg.(cartesian := None, pending := None);
      life := life.(frozen := true);
      FinishLeg(None);
    }

    method Complete(w: World, t: Time)
      requires Valid() && leg.plan.Some? && leg.reference.Some?
      modifies this, settling
      ensures Value() == Arm.Complete(cfg, old(Value()), w, t)
    {
      hide Arm.CheckCompletion;
      var goal := if leg.plan.value.ruled then None else Some(HoldAt(leg.reference.value.trajectory.last));
      var over := CheckCompletion(w, t);
      if over {
        if !life.frozen {
          hold := hold.(last := goal, anchor := goal);
        }
        leg := leg.(cartesian := None);
      }
    }

    // ---- one servo cycle ----------------------------------------------------------------------

    method StreamLeg(w: World, t: Time)
      requires Valid() && leg.reference.Some?
      modifies this, jog, settling
      ensures Value() == Arm.StreamLeg(cfg, old(Value()), w, t)
    {
      hide Arm.CheckCompletion, Arm.Send;
      var now := if cfg.statePeriod.Some? then sense.plantT else t.ref;
      var command := cfg.sample(leg.reference.value.trajectory, now - leg.reference.value.start);
      hold := hold.(anchor := None);
      var ok := Send(command, Some(now), w, t.now);
      if ok && cfg.policy.None? {
        var _ := CheckCompletion(w, t);
      }
    }

    /** The live jog target; an expired jog is held where the arm is. */
    method PollJog(now: real) returns (target: Option<Pose>, expired: bool)
      requires Valid()
      modifies this`hold, jog
      ensures (Value(), expired) == Arm.PollJog(cfg, old(Value()), now)
      ensures target == jog.q
    {
      target := jog.Target(now);
      expired := jog.TakeExpired();
      if expired {
        hold := hold.(anchor := Some(HoldAt(sense.state.q)));
      }
    }

    method FollowRamp(target: Option<Pose>) returns (q: Option<Pose>)
      requires target == jog.q
      modifies this`ramp
      ensures Value() == old(Value()).(ramp := RampTo(cfg, old(Value())))
      ensures target.None? ==> q.None?
      ensures target.Some? ==> q == Some(if Ramps(cfg) && ramp.Some? then Positions(ramp.value) else target.value)
    {
      q := target;
      if Ramps(cfg) {
        if target.None? {
          ramp := None;
        } else {
          ramp := Some(cfg.advance(ramp, target.value, sense.state.q));
          q := Some(Positions(ramp.value));
        }
      }
    }

    method AnchoredHold(w: World, refresh: bool) returns (command: Command)
      modifies this`hold
      ensures var anchor := Reanchor(cfg, old(Value()), w, refresh);
              && Value() == old(Value()).(hold := old(hold).(anchor := Some(anchor)))
              && command == if cfg.policy.Some? then HoldAt(anchor.q) else anchor
    {
      hide Drifted, SlowerThan;
      if cfg.policy.Some? {
        if hold.anchor.None? || Drifted(sense.state.q, hold.anchor.value.q, w.slack) {
          hold := hold.(anchor := Some(HoldAt(sense.state.q)));
        }
        return HoldAt(hold.anchor.value.q);
      }
      if hold.anchor.None? || refresh {
        var q := sense.state.q;
        if !refresh && hold.last.Some? && SlowerThan(hold.last.value.qd, 0.05) {
          q := hold.last.value.q;
        }
        hold := hold.(anchor := Some(HoldAt(q)));
      }
      return hold.anchor.value;
    }

    method StreamHold(w: World, t: Time)
      requires Valid()
      modifies this, jog
      ensures Value() == Arm.StreamHold(cfg, old(Value()), w, t)
    {
      hide Arm.Send, Arm.PollJog, Reanchor, RampTo, Positions, Ramps;
      var target, expired := PollJog(t.now);
      var q := FollowRamp(target);
      if q.Some? {
        hold := hold.(anchor := None);
        var _ := Send(HoldAt(q.value), None, w, t.now);
      } else {
        var command := AnchoredHold(w, expired);
        var _ := Send(command, None, w, t.now);
      }
    }

    method StopAtGap(w: World, now: real)
      requires Valid() && sent.Some?
      modifies this, jog
      ensures Value() == Arm.StopAtGap(cfg, old(Value()), w, now)
    {
      hide Arm.Send, Arm.Cancel;
      var target := sent.value.1;
      Cancel();
      hold := hold.(anchor := Some(HoldAt(target)));
      sent := None;
      var _ := Send(HoldAt(target), None, w, now);
    }

    method Serve(w: World, t: Time)
      requires Valid()
      modifies this, jog, settling
      ensures Value() == Arm.Serve(cfg, old(Value()), w, t)
    {
      hide Arm.StopAtGap, Arm.Complete, Arm.StreamLeg, Arm.StreamHold;
      if leg.running && cfg.gapLimit.Some? && sent.Some? && t.now - sent.value.0 > cfg.gapLimit.value {
        StopAtGap(w, t.now);
        return;
      }
      if cfg.policy.Some? && leg.running && leg.plan.Some? && leg.reference.Some? {
        Complete(w, t);
      }
      if leg.running && leg.reference.Some? {
        StreamLeg(w, t);
      } else {
        StreamHold(w, t);
      }
    }

    method Stream(w: World, t: Time)
      requires Valid()
      modifies this, jog, settling
      ensures Value() == Arm.Stream(cfg, old(Value()), w, t)
    {
      hide Arm.Serve;
      if !life.armed {
        return;
      }
      if !life.ready {
        if !life.bridgeArmed {
          return;
        }
        life := life.(ready := true);
        trace := trace + [Ready];
      }
      if !Finite(sense.state) {
        return;
      }
      Serve(w, t);
    }

    // ---- handlers -----------------------------------------------------------------------------

    method Release(id: PlanId, start: Option<real>, t: Time)
      requires Valid()
      modifies this, jog, settling
      ensures Value() == Arm.Release(cfg, old(Value()), id, start, t)
    {
      hide StartError;
      if leg.plan.None? || leg.plan.value.id != id {
        return;
      }
      if !life.armed || !life.ready {
        FinishLeg(None);
        return;
      }
      if leg.running {
        return;
      }
      var plan := leg.plan.value;
      var refused := StartRefused(plan, t.now);
      if refused {
        FinishLeg(None);
        leg := leg.(pending := None);
        return;
      }
      jog.Clear();
      var now := if cfg.statePeriod.Some? then sense.plantT else t.ref;
      var at := if start.Some? then start.value else now;
      var trajectory := if leg.pending.Some? then leg.pending.value else plan.trajectory;
      leg := leg.(reference := Some(Reference(trajectory, at)), running := true);
      settling.Begin(Some(at + trajectory.duration));
      seen, sent := None, None;
      trace := trace + [Released(plan, at)];
    }

    method StartRefused(plan: Plan, now: real) returns (refused: bool)
      ensures refused == StartError(cfg, Value(), plan, now)
    {
      if cfg.policy.None? {
        return false;
      }
      var policy := cfg.policy.value;
      return ObservationError(cfg, policy, sense, now) || !Near(plan.first, sense.state.q, policy.startTol);
    }

    method OnPlan(plan: Plan, malformed: bool, flawed: bool, t: Time)
      requires Valid()
      modifies this, jog, settling
      ensures Value() == Arm.OnPlan(cfg, old(Value()), plan, malformed, flawed, t)
    {
      hide StartError, Arm.Release;
      if malformed || hold.soft.Some? {
        trace := trace + [Refused(plan.id, true)];
        return;
      }
      if life.stopped || life.frozen || leg.running {
        trace := trace + [Refused(plan.id, false)];
        return;
      }
      var refused := StartRefused(plan, t.now);
      if flawed || refused {
        trace := trace + [Refused(plan.id, true)];
        return;
      }
      leg := leg.(plan := Some(plan), cartesian := plan.cartesian, pending := Some(plan.trajectory), running := false);
      trace := trace + [Staged(plan)];
      if !plan.gated {
        Release(plan.id, None, t);
      }
    }

    method SetGains(admissible: bool)
      requires Valid()
      modifies this, jog
      ensures Value() == Arm.SetGains(cfg, old(Value()), admissible)
    {
      hide Arm.Cancel;
      if !admissible {
        return;
      }
      if hold.soft.Some? {
        Cancel();
        hold := hold.(last := None);
      }
      if leg.running {
        Cancel();
      }
      hold := hold.(anchor := None);
    }

    method SetSoft(spec: Spec, decodes: bool, now: real)
      requires Valid()
      modifies this, jog
      ensures Value() == Arm.SetSoft(cfg, old(Value()), spec, decodes, now)
    {
      hide Arm.Cancel, SoftAllowed;
      var allowed := ValidatePoseHold(decodes, now);
      if allowed {
        Cancel();
        hold := hold.(last := None, soft := Some(spec));
        leg := leg.(cartesian := None);
      }
    }

    method ValidatePoseHold(decodes: bool, now: real) returns (allowed: bool)
      ensures allowed == SoftAllowed(cfg, Value(), decodes, now)
    {
      if cfg.policy.Some? && ObservationError(cfg, cfg.policy.value, sense, now) {
        return false;
      }
      if !decodes || cfg.calibrated {
        return false;
      }
      if !sense.softCapable || !life.armed || !life.ready || life.stopped || life.frozen {
        return false;
      }
      if sense.at.None? || now - sense.at.value > 1.0 || !Finite(sense.state) {
        return false;
      }
      return !leg.running && jog.q.None? && NoFasterThan(sense.state.v, 0.05);
    }

    method CancelNamed(requested: Option<PlanId>)
      requires Valid()
      modifies this, jog
      ensures Value() == Arm.CancelNamed(cfg, old(Value()), requested)
    {
      hide Arm.Cancel;
      var current := if leg.plan.None? then "" else leg.plan.value.id;
      if requested.None? || current == "" || requested.value == current {
        Cancel();
        if requested.Some? {
          trace := trace + [Cleared(if current != "" then current else requested.value, true)];
        }
      } else {
        trace := trace + [Cleared(requested.value, false)];
      }
    }

    method OnControl(u: Control, t: Time)
      requires Valid()
      modifies this, jog, settling
      ensures Value() == Arm.OnControl(cfg, old(Value()), u, t)
    {
      hide Arm.Direct, Arm.Interrupt;
      Direct(u, t);
      Interrupt(u, t);
    }

    method Direct(u: Control, t: Time)
      requires Valid()
      modifies this, jog, settling
      ensures Value() == Arm.Direct(cfg, old(Value()), u, t)
    {
      hide Arm.SetArm, Arm.Release, Arm.SetGains, Arm.SetSoft;
      if u.arm.Some? {
        SetArm(u.arm.value, t.now);
      }
      if u.execute.Some? {
        Release(u.execute.value, None, t);
      }
      if u.gains.Some? {
        SetGains(u.gains.value);
      }
      if u.soft.Some? {
        SetSoft(u.soft.value.0, u.soft.value.1, t.now);
      }
    }

    method Interrupt(u: Control, t: Time)
      requires Valid()
      modifies this, jog
      ensures Value() == Arm.Interrupt(cfg, old(Value()), u, t)
    {
      hide Arm.CancelNamed, Arm.Stop;
      if u.cancel {
        CancelNamed(u.cancelId);
      }
      if u.hold {
        life := life.(frozen := true);
        leg := leg.(running := false, reference := None);
        trace := trace + [Held];
      }
      if u.stop {
        Stop(t.now);
      }
    }

    method OnJog(q: Pose, now: real) returns (taken: bool)
      requires Valid()
      modifies this`ramp, jog
      ensures taken == !JogRefused(old(Value()))
      ensures Value() == Arm.OnJog(cfg, old(Value()), q, now)
    {
      if life.stopped || life.frozen || !life.armed || !life.ready || hold.soft.Some? || leg.running {
        return false;
      }
      if Ramps(cfg) && jog.q.None? {
        ramp := None;
      }
      var _ := jog.Set(q, now);
      return true;
    }

    method ClearJog()
      requires Valid()
      modifies this`hold, jog
      ensures Value() == Arm.ClearJog(old(Value()))
    {
      if jog.q.Some? {
        jog.Clear();
        hold := hold.(anchor := Some(HoldAt(sense.state.q)));
      }
    }

    method JudgeHealth(h: Health, now: real)
      requires Valid()
      modifies this, jog
      ensures Value() == Arm.JudgeHealth(cfg, old(Value()), h, now)
    {
      hide Arm.Cancel, Arm.PauseObservation;
      sense := sense.(healthAt := Some(now), healthOk := h.ok);
      if h.holding && !sense.rtHolding && h.ok {
        AdoptRtHold(h.holdingQ);
      }
      sense := sense.(rtHolding := h.holding);
      if !h.ok {
        PauseObservation(false);
      }
    }

    method AdoptRtHold(q: Option<Pose>)
      requires Valid()
      modifies this, jog
      ensures Value() == Arm.AdoptRtHold(cfg, old(Value()), q)
    {
      hide Arm.Cancel;
      if leg.running {
        Cancel();
      }
      if q.Some? && |q.value| == cfg.n {
        hold := hold.(anchor := Some(HoldAt(q.value)));
      }
    }

    method OnHealth(h: Health, now: real)
      requires Valid()
      modifies this, jog
      ensures Value() == Arm.OnHealth(cfg, old(Value()), h, now)
    {
      hide Arm.JudgeHealth, Arm.RaiseFault;
      if cfg.policy.Some? {
        JudgeHealth(h, now);
      }
      sense := sense.(softCapable := h.softCapable);
      if h.armed && !life.bridgeArmed && life.armed {
        life := life.(bridgeArmed := true);
      } else if !h.armed && life.bridgeArmed && life.armed && !life.stopped {
        RaiseFault(now);
      }
    }

    method TakeState(m: Measured)
      modifies this`sense, this`rest, this`trace
      ensures Value() == Arm.TakeState(old(Value()), m)
    {
      hide Lower, Upper;
      sense := sense.(state := m);
      if life.armed && m.qFinite {
        if !rest.fixed {
          rest := rest.(pose := Some(m.q));
        }
        rest := rest.(been := Some(if rest.been.None? then (m.q, m.q)
                                   else (Lower(rest.been.value.0, m.q), Upper(rest.been.value.1, m.q))));
        trace := trace + [Saw(m.q)];
      }
    }

    method OnState(m: Measured, w: World, t: Time)
      requires Valid()
      modifies this, jog, settling
      ensures Value() == Arm.OnState(cfg, old(Value()), m, w, t)
    {
      hide Arm.Stream, Arm.TakeState, Arm.PauseObservation;
      var previous := sense.at;
      sense := sense.(at := Some(t.now));
      if life.stopped {
        return;
      }
      if cfg.statePeriod.Some? {
        sense := sense.(plantT := sense.plantT + cfg.statePeriod.value);
      }
      if cfg.policy.Some? {
        if !Finite(m) {
          sense := sense.(at := None);
          PauseObservation(false);
          return;
        }
        if previous.Some? && t.now - previous.value > cfg.policy.value.stateTimeout {
          PauseObservation(true);
        }
      }
      TakeState(m);
      if cfg.policy.None? {
        Stream(w, t);
      }
    }

    method OnTick(w: World, t: Time)
      requires Valid()
      modifies this, jog, settling
      ensures Value() == Arm.OnTick(cfg, old(Value()), w, t)
    {
      hide Arm.Stream, Arm.PauseObservation, ObservationError;
      if cfg.policy.None? || life.stopped {
        return;
      }
      if ObservationError(cfg, cfg.policy.value, sense, t.now) {
        PauseObservation(false);
        return;
      }
      sense := sense.(paused := false);
      Stream(w, t);
    }

    method OnSent(id: PlanId, q: Pose, at: real)
      modifies this`sent
      ensures Value() == Arm.OnSent(old(Value()), id, q, at)
    {
      if leg.running && (if leg.plan.None? then "" else leg.plan.value.id) == id {
        sent := Some((at, q));
      }
    }
  }
}
