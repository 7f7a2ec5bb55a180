/** `control/arm_controller.py`: what every event does to the controller, as functions of its state.

    Torque, gains, hand poses and the sampling of a trajectory are inputs. The clock is read once per event. */
module Arm {
  import opened Wrappers
  import opened Reals
  import opened LegSettling
  import JogHold
  import JogRamp

  type Pose = seq<real>
  type PlanId = string
  type Spec = seq<real>

  /** A motor state. Without a policy the code keeps non-finite ones, so each half says whether it is finite. */
  datatype Measured = Measured(q: Pose, v: Pose, qFinite: bool, vFinite: bool)

  /** A servo command; its gains and torques are not modelled. */
  datatype Command = Command(q: Pose, qd: Pose)

  datatype Trajectory = Trajectory(samples: seq<(real, Pose, Pose)>, duration: real, last: Pose)

  /** `first` is where the plan starts; `ruled` says it brings its own completion rule. */
  datatype Plan = Plan(id: PlanId, trajectory: Trajectory, first: Pose, gated: bool, cartesian: Option<Spec>,
                       ruled: bool)

  datatype Reference = Reference(trajectory: Trajectory, start: real)

  datatype Policy = Policy(stateTimeout: real, healthTimeout: real, startTol: real, abortErr: real,
                           bounds: Option<(Pose, Pose)>, ramps: bool)

  datatype Config = Config(n: nat, policy: Option<Policy>, needsHealth: bool, statePeriod: Option<real>,
                           gapLimit: Option<real>, jogTimeout: real, settling: Limits, calibrated: bool,
                           sample: (Trajectory, real) -> Command,
                           advance: (Option<seq<JogRamp.Joint>>, Pose, Pose) -> seq<JogRamp.Joint>)

  const ENVELOPE_TOL := 0.00000001

  // ---- state ----------------------------------------------------------------------------------

  datatype Life = Life(armed: bool, bridgeArmed: bool, ready: bool, frozen: bool, stopped: bool)

  /** The loaded plan, its staged trajectory and Cartesian spec, and the reference being executed. */
  datatype Leg = Leg(plan: Option<Plan>, pending: Option<Trajectory>, cartesian: Option<Spec>,
                     reference: Option<Reference>, running: bool)

  /** The completion clocks and the sample they last saw. */
  datatype Finish = Finish(clocks: Clocks, seen: Option<real>)

  datatype Hold = Hold(anchor: Option<Command>, last: Option<Command>, soft: Option<Spec>)

  datatype Sense = Sense(state: Measured, at: Option<real>, healthAt: Option<real>, healthOk: bool, paused: bool,
                         rtHolding: bool, softCapable: bool, plantT: real)

  /** Where the arm rested at ARM, whether that is fixed, and the box of the poses it has been at since. */
  datatype Rest = Rest(pose: Option<Pose>, fixed: bool, been: Option<(Pose, Pose)>)

  /** What the controller took in, decided or sent, in order. */
  datatype Event =
    | Saw(q: Pose)
    | Fixed
    | Ready
    | Paused
    | Armed(on: bool, rest: Option<Pose>)
    | Fault
    | Staged(plan: Plan)
    | Refused(id: PlanId, reported: bool)
    | Released(plan: Plan, start: real)
    | Judged(sample: Sample)
    | Progress(id: PlanId)
    | Result(id: PlanId, settled: Option<real>)
    | Cancelled
    | Held
    | Cleared(id: PlanId, ok: bool)
    | Word(command: Command, law: Law, soft: Option<Spec>)

  /** A word of the running leg, sampled at a time on the reference clock, or any other. */
  datatype Law = LegLaw(at: real, cartesian: Option<Spec>) | HoldLaw

  datatype Ctl = Ctl(life: Life, leg: Leg, finish: Finish, hold: Hold, sense: Sense, rest: Rest,
                     sent: Option<(real, Pose)>, jog: JogHold.State, ramp: Option<seq<JogRamp.Joint>>,
                     trace: seq<Event>)

  const NO_LEG := Leg(None, None, None, None, false)
  const NO_HOLD := Hold(None, None, None)

  function Zeros(n: nat): Pose {
    seq(n, i => 0.0)
  }

  function Start(cfg: Config): Ctl {
    Ctl(Life(false, !cfg.needsHealth, false, false, false), NO_LEG, Finish(Begun(Some(0.0)), None), NO_HOLD,
        Sense(Measured(Zeros(cfg.n), Zeros(cfg.n), true, true), None, None, !cfg.needsHealth, false, false, false, 0.0),
        Rest(None, false, None), None, JogHold.START, None, [])
  }

  // ---- inputs ---------------------------------------------------------------------------------

  /** The clock, and the reference clock that trajectory time is read from. */
  datatype Time = Time(now: real, ref: real)

  /** What the dynamics and the gains say on one servo cycle: whether a command's torques, gains and speeds are
      admissible, how far the arm may drift before a hold is re-anchored, and whether the leg counts as done. */
  datatype World = World(sound: Command -> bool, slack: Pose, done: bool)

  datatype Health = Health(armed: bool, ok: bool, holding: bool, holdingQ: Option<Pose>, softCapable: bool)

  /** One control update. `gains` says whether the new gains are admissible, `soft` whether its spec decodes. */
  datatype Control = Control(arm: Option<bool>, execute: Option<PlanId>, gains: Option<bool>,
                             soft: Option<(Spec, bool)>, cancel: bool, cancelId: Option<PlanId>, hold: bool, stop: bool)

  datatype Input =
    | PlanInput(plan: Plan, malformed: bool, flawed: bool, t: Time)
    | ControlInput(control: Control, t: Time)
    | ReleaseInput(id: PlanId, start: Option<real>, t: Time)
    | JogInput(q: Pose, t: Time)
    | ClearJogInput
    | HealthInput(health: Health, t: Time)
    | StateInput(m: Measured, w: World, t: Time)
    | TickInput(w: World, t: Time)
    | SentInput(id: PlanId, q: Pose, at: real)

  // ---- pure parts -----------------------------------------------------------------------------

  predicate Finite(m: Measured) {
    m.qFinite && m.vFinite
  }

  predicate Near(a: Pose, b: Pose, tol: real) {
    |a| == |b| && forall j :: 0 <= j < |a| ==> Abs(a[j] - b[j]) <= tol
  }

  predicate Still(v: Pose) {
    forall j :: 0 <= j < |v| ==> v[j] == 0.0
  }

  predicate SlowerThan(v: Pose, speed: real) {
    forall j :: 0 <= j < |v| ==> Abs(v[j]) < speed
  }

  predicate NoFasterThan(v: Pose, speed: real) {
    forall j :: 0 <= j < |v| ==> Abs(v[j]) <= speed
  }

  predicate Drifted(q: Pose, target: Pose, slack: Pose) {
    exists j :: 0 <= j < |q| && j < |target| && j < |slack| && Abs(q[j] - target[j]) > slack[j]
  }

  function Lower(a: Pose, b: Pose): Pose {
    seq(|a|, j requires 0 <= j < |a| => if j < |b| then Min(a[j], b[j]) else a[j])
  }

  function Upper(a: Pose, b: Pose): Pose {
    seq(|a|, j requires 0 <= j < |a| => if j < |b| then Max(a[j], b[j]) else a[j])
  }

  /** `hold_command`: a static hold at `q`. */
  function HoldAt(q: Pose): Command {
    Command(q, Zeros(|q|))
  }

  function StaticHold(c: Ctl): Command {
    HoldAt(c.sense.state.q)
  }

  function CurrentId(c: Ctl): PlanId {
    if c.leg.plan.None? then "" else c.leg.plan.value.id
  }

  function ExecTime(cfg: Config, c: Ctl, t: Time): real {
    if cfg.statePeriod.Some? then c.sense.plantT else t.ref
  }

  /** Where it rested, joint by joint; on a side it rested past, the outermost pose since ARM. */
  function RestingLow(rest: Pose, lower: Pose, low: Pose): Pose {
    seq(|rest|, j requires 0 <= j < |rest| =>
      if j < |lower| && j < |low| && rest[j] < lower[j] then low[j] else rest[j])
  }

  function RestingHigh(rest: Pose, upper: Pose, high: Pose): Pose {
    seq(|rest|, j requires 0 <= j < |rest| =>
      if j < |upper| && j < |high| && rest[j] > upper[j] then high[j] else rest[j])
  }

  function WhereBeen(bounds: (Pose, Pose), armed: bool, rest: Rest): Option<(Pose, Pose)> {
    if !armed || rest.pose.None? then None
    else
      var r := rest.pose.value;
      var been := if rest.been.Some? then rest.been.value else (r, r);
      Some((RestingLow(r, bounds.0, been.0), RestingHigh(r, bounds.1, been.1)))
  }

  /** `envelope`: the bounds, widened to the given poses. */
  function Envelope(bounds: (Pose, Pose), rows: Option<(Pose, Pose)>): (Pose, Pose) {
    if rows.None? then bounds
    else (Lower(bounds.0, Lower(rows.value.0, rows.value.1)), Upper(bounds.1, Upper(rows.value.0, rows.value.1)))
  }

  predicate InBand(q: Pose, band: (Pose, Pose)) {
    && |q| == |band.0| == |band.1|
    && forall j :: 0 <= j < |q| ==> band.0[j] - ENVELOPE_TOL <= q[j] <= band.1[j] + ENVELOPE_TOL
  }

  predicate CommandValid(n: nat, policy: Policy, armed: bool, rest: Rest, command: Command, w: World) {
    && |command.q| == n && w.sound(command)
    && (policy.bounds.Some? ==>
          InBand(command.q, Envelope(policy.bounds.value, WhereBeen(policy.bounds.value, armed, rest))))
  }

  /** The state is stale, or the plant's health is stale or faulted. */
  predicate ObservationError(cfg: Config, policy: Policy, s: Sense, now: real) {
    || s.at.None? || now - s.at.value > policy.stateTimeout
    || (cfg.needsHealth && (!s.healthOk || s.healthAt.None? || now - s.healthAt.value > policy.healthTimeout))
  }

  // ---- the leg's lifecycle --------------------------------------------------------------------

  function Log(c: Ctl, e: Event): Ctl {
    c.(trace := c.trace + [e])
  }

  function FinishLeg(c: Ctl, settled: Option<real>): Ctl {
    Log(c.(sent := None, leg := c.leg.(reference := None, running := false, plan := None)),
        Result(CurrentId(c), settled))
  }

  function Abandon(c: Ctl): Ctl {
    if c.leg.running then FinishLeg(c, None) else c
  }

  /** A cancel that only drops a staged plan leaves the hold where it is. */
  predicate KeepsAnchor(c: Ctl) {
    && c.leg.plan.Some? && c.leg.pending.Some? && !c.leg.running
    && c.jog.q.None? && c.hold.soft.None? && c.leg.cartesian.None? && !c.life.frozen && !c.life.stopped
    && c.hold.last.Some? && Still(c.hold.last.value.qd)
    && c.sense.state.vFinite && SlowerThan(c.sense.state.v, 0.01)
  }

  function ClearJogHold(j: JogHold.State): JogHold.State {
    j.(q := None, expired := false)
  }

  function Cancel(cfg: Config, c: Ctl): Ctl {
    var keep := KeepsAnchor(c);
    var c1 := if cfg.policy.Some? then c.(leg := c.leg.(cartesian := None)) else c;
    var c2 := Abandon(if c.hold.soft.Some? then c1.(hold := c1.hold.(soft := None, last := None)) else c1);
    Log(c2.(life := c2.life.(frozen := false),
            leg := NO_LEG.(cartesian := c2.leg.cartesian),
            hold := if keep then c2.hold else c2.hold.(anchor := None),
            jog := ClearJogHold(c2.jog)),
        Cancelled)
  }

  function DisarmReset(cfg: Config, c: Ctl): Ctl {
    var c1 := Abandon(c);
    c1.(leg := NO_LEG, life := c1.life.(ready := false, bridgeArmed := !cfg.needsHealth), hold := NO_HOLD,
        jog := ClearJogHold(c1.jog))
  }

  /** The pose it rests at as it is armed, if there is a fresh one. */
  function ArmPose(cfg: Config, s: Sense, now: real): Option<Pose> {
    if s.at.Some? && cfg.policy.Some? && now - s.at.value <= cfg.policy.value.stateTimeout && s.state.qFinite
    then Some(s.state.q)
    else None
  }

  function RestAt(pose: Option<Pose>): Rest {
    Rest(pose, false, if pose.Some? then Some((pose.value, pose.value)) else None)
  }

  function SetArm(cfg: Config, c: Ctl, on: bool, now: real): Ctl {
    if on && !c.life.armed then
      var pose := ArmPose(cfg, c.sense, now);
      Log(c.(rest := RestAt(pose), life := c.life.(armed := true)), Armed(true, pose))
    else
      var c1 := if c.life.armed && !on then DisarmReset(cfg, c) else c;
      Log(c1.(life := c1.life.(armed := on)), Armed(on, None))
  }

  function Stop(cfg: Config, c: Ctl, now: real): Ctl {
    if c.life.stopped then c
    else
      var c1 := c.(life := c.life.(stopped := true));
      Log(if c.life.armed then SetArm(cfg, c1, false, now) else c1, Event.Fault)
  }

  function RaiseFault(cfg: Config, c: Ctl, now: real): Ctl {
    Stop(cfg, Abandon(c), now)
  }

  function PauseObservation(cfg: Config, c: Ctl, preserveRtHold: bool): Ctl {
    var anchor := if preserveRtHold && c.sense.rtHolding && c.sense.healthOk then c.hold.anchor else None;
    var c1 := if !c.sense.paused || c.leg.plan.Some? || c.leg.running || c.jog.q.Some? || c.hold.soft.Some?
              then Cancel(cfg, c) else c;
    Log(c1.(sense := c1.sense.(paused := true), life := c1.life.(ready := false),
            hold := c1.hold.(last := None, anchor := anchor)),
        Paused)
  }

  // ---- words ----------------------------------------------------------------------------------

  function FixRest(c: Ctl): Ctl {
    if c.life.armed && c.rest.pose.Some? && !c.rest.fixed then Log(c.(rest := c.rest.(fixed := true)), Fixed) else c
  }

  /** `at` is given for a word of the running leg, which alone carries its Cartesian spec. */
  function Emit(c: Ctl, command: Command, at: Option<real>): Ctl {
    var law := if at.Some? then LegLaw(at.value, c.leg.cartesian) else HoldLaw;
    Log(c.(hold := c.hold.(last := Some(command))), Word(command, law, c.hold.soft))
  }

  /** The tracking error is too large: drop the leg and hold the measured pose. */
  function AbortTracking(cfg: Config, c: Ctl): Ctl {
    var c1 := Cancel(cfg, c);
    c1.(hold := c1.hold.(last := None, anchor := Some(StaticHold(c1))))
  }

  function Send(cfg: Config, c: Ctl, command: Command, at: Option<real>, w: World, now: real): Ctl {
    if cfg.policy.None? then Emit(c, command, at)
    else
      var policy, c1 := cfg.policy.value, FixRest(c);
      if !CommandValid(cfg.n, policy, c1.life.armed, c1.rest, command, w) then RaiseFault(cfg, c1, now)
      else if c1.hold.soft.None? && !Near(command.q, c1.sense.state.q, policy.abortErr) then
        var c2 := AbortTracking(cfg, c1);
        if !CommandValid(cfg.n, policy, c2.life.armed, c2.rest, StaticHold(c2), w) then RaiseFault(cfg, c2, now)
        else Emit(c2, StaticHold(c2), None)
      else Emit(c1, command, at)
  }

  // ---- completion -----------------------------------------------------------------------------

  /** The verdict of one poll, and whether the leg is over. */
  function CheckCompletion(cfg: Config, c: Ctl, w: World, t: Time): (Ctl, bool) {
    var now := ExecTime(cfg, c, t);
    var x := Sample(now, c.finish.seen != c.sense.at, w.done, false);
    var verdict := Judge(cfg.settling, c.finish.clocks, x);
    var clocks := Polled(c.finish.clocks, x);
    var c1 := Log(c.(finish := Finish(clocks, c.sense.at)), Judged(x));
    if verdict.None? then (c1, false)
    else match verdict.value.state
      case Settled => (FinishLeg(c1, Some(now)), true)
      case TimedOut =>
        var c2 := c1.(hold := c1.hold.(last := Some(StaticHold(c1)), anchor := Some(StaticHold(c1))),
                      leg := c1.leg.(cartesian := None, pending := None), life := c1.life.(frozen := true));
        (FinishLeg(c2, None), true)
      case Settling =>
        if Due(clocks, now)
        then (Log(c1.(finish := c1.finish.(clocks := clocks.(reportAt := Some(now)))), Progress(CurrentId(c1))), false)
        else (c1, false)
  }

  /** Under a policy a leg is judged before it is sampled, and a settled one holds its planned end. */
  function Complete(cfg: Config, c: Ctl, w: World, t: Time): Ctl
    requires c.leg.plan.Some? && c.leg.reference.Some?
  {
    var goal := if c.leg.plan.value.ruled then None else Some(HoldAt(c.leg.reference.value.trajectory.last));
    var (c1, over) := CheckCompletion(cfg, c, w, t);
    if !over then c1
    else
      var c2 := if c1.life.frozen then c1 else c1.(hold := c1.hold.(last := goal, anchor := goal));
      c2.(leg := c2.leg.(cartesian := None))
  }

  // ---- one servo cycle ------------------------------------------------------------------------

  function StreamLeg(cfg: Config, c: Ctl, w: World, t: Time): Ctl
    requires c.leg.reference.Some?
  {
    var r, now := c.leg.reference.value, ExecTime(cfg, c, t);
    var c1 := Send(cfg, c.(hold := c.hold.(anchor := None)), cfg.sample(r.trajectory, now - r.start), Some(now), w,
                   t.now);
    if cfg.policy.None? then CheckCompletion(cfg, c1, w, t).0 else c1
  }

  /** The live jog target after this poll, and whether the jog expired with it. */
  function PollJog(cfg: Config, c: Ctl, now: real): (Ctl, bool) {
    var polled := JogHold.Next(c.jog, cfg.jogTimeout, cfg.n, JogHold.Target(now));
    var c1 := c.(jog := polled.(expired := false));
    if polled.expired then (c1.(hold := c1.hold.(anchor := Some(StaticHold(c)))), true) else (c1, false)
  }

  function Positions(joints: seq<JogRamp.Joint>): Pose {
    seq(|joints|, i requires 0 <= i < |joints| => joints[i].q)
  }

  predicate Ramps(cfg: Config) {
    cfg.policy.Some? && cfg.policy.value.ramps
  }

  function RampTo(cfg: Config, c: Ctl): Option<seq<JogRamp.Joint>> {
    if !Ramps(cfg) then c.ramp
    else if c.jog.q.None? then None
    else Some(cfg.advance(c.ramp, c.jog.q.value, c.sense.state.q))
  }

  /** The anchored hold, re-anchored where the code does so. */
  function Reanchor(cfg: Config, c: Ctl, w: World, refresh: bool): Command {
    if cfg.policy.Some? then
      if c.hold.anchor.None? || Drifted(c.sense.state.q, c.hold.anchor.value.q, w.slack) then StaticHold(c)
      else c.hold.anchor.value
    else if c.hold.anchor.None? || refresh then
      if !refresh && c.hold.last.Some? && SlowerThan(c.hold.last.value.qd, 0.05) then HoldAt(c.hold.last.value.q)
      else StaticHold(c)
    else c.hold.anchor.value
  }

  function StreamHold(cfg: Config, c: Ctl, w: World, t: Time): Ctl {
    var (c1, expired) := PollJog(cfg, c, t.now);
    var c2 := c1.(ramp := RampTo(cfg, c1));
    if c2.jog.q.Some? then
      var q := if Ramps(cfg) && c2.ramp.Some? then Positions(c2.ramp.value) else c2.jog.q.value;
      Send(cfg, c2.(hold := c2.hold.(anchor := None)), HoldAt(q), None, w, t.now)
    else
      var anchor := Reanchor(cfg, c2, w, expired);
      var command := if cfg.policy.Some? then HoldAt(anchor.q) else anchor;
      Send(cfg, c2.(hold := c2.hold.(anchor := Some(anchor))), command, None, w, t.now)
  }

  /** The streamed command is older than the plant tolerates: the leg's samples have moved on without the arm. */
  predicate GapExceeded(cfg: Config, c: Ctl, now: real) {
    c.leg.running && cfg.gapLimit.Some? && c.sent.Some? && now - c.sent.value.0 > cfg.gapLimit.value
  }

  function StopAtGap(cfg: Config, c: Ctl, w: World, now: real): Ctl
    requires c.sent.Some?
  {
    var hold := HoldAt(c.sent.value.1);
    var c1 := Cancel(cfg, c);
    Send(cfg, c1.(hold := c1.hold.(anchor := Some(hold)), sent := None), hold, None, w, now)
  }

  function Announce(c: Ctl): Ctl {
    if c.life.ready then c else Log(c.(life := c.life.(ready := true)), Ready)
  }

  function Serve(cfg: Config, c: Ctl, w: World, t: Time): Ctl {
    if GapExceeded(cfg, c, t.now) then StopAtGap(cfg, c, w, t.now)
    else
      var c1 := if cfg.policy.Some? && c.leg.running && c.leg.plan.Some? && c.leg.reference.Some?
                then Complete(cfg, c, w, t) else c;
      if c1.leg.running && c1.leg.reference.Some? then StreamLeg(cfg, c1, w, t) else StreamHold(cfg, c1, w, t)
  }

  function Stream(cfg: Config, c: Ctl, w: World, t: Time): Ctl {
    if !c.life.armed || (!c.life.ready && !c.life.bridgeArmed) then c
    else
      var c1 := Announce(c);
      if !Finite(c1.sense.state) then c1 else Serve(cfg, c1, w, t)
  }

  // ---- handlers -------------------------------------------------------------------------------

  predicate StartError(cfg: Config, c: Ctl, plan: Plan, now: real) {
    cfg.policy.Some?
    && (|| ObservationError(cfg, cfg.policy.value, c.sense, now)
        || !Near(plan.first, c.sense.state.q, cfg.policy.value.startTol))
  }

  function Release(cfg: Config, c: Ctl, id: PlanId, start: Option<real>, t: Time): Ctl {
    if c.leg.plan.None? || c.leg.plan.value.id != id then c
    else if !c.life.armed || !c.life.ready then FinishLeg(c, None)
    else if c.leg.running then c
    else if StartError(cfg, c, c.leg.plan.value, t.now) then
      var c1 := FinishLeg(c, None);
      c1.(leg := c1.leg.(pending := None))
    else
      var plan := c.leg.plan.value;
      var trajectory := if c.leg.pending.Some? then c.leg.pending.value else plan.trajectory;
      var at := if start.Some? then start.value else ExecTime(cfg, c, t);
      Log(c.(jog := ClearJogHold(c.jog), leg := c.leg.(reference := Some(Reference(trajectory, at)), running := true),
             finish := Finish(Begun(Some(at + trajectory.duration)), None), sent := None),
          Released(plan, at))
  }

  function OnPlan(cfg: Config, c: Ctl, plan: Plan, malformed: bool, flawed: bool, t: Time): Ctl {
    if malformed || c.hold.soft.Some? then Log(c, Refused(plan.id, true))
    else if c.life.stopped || c.life.frozen || c.leg.running then Log(c, Refused(plan.id, false))
    else if flawed || StartError(cfg, c, plan, t.now) then Log(c, Refused(plan.id, true))
    else
      var c1 := Log(c.(leg := c.leg.(plan := Some(plan), cartesian := plan.cartesian, pending := Some(plan.trajectory),
                                     running := false)),
                    Staged(plan));
      if plan.gated then c1 else Release(cfg, c1, plan.id, None, t)
  }

  function SetGains(cfg: Config, c: Ctl, ok: bool): Ctl {
    if !ok then c
    else
      var c1 := if c.hold.soft.Some? then var x := Cancel(cfg, c); x.(hold := x.hold.(last := None)) else c;
      var c2 := if c1.leg.running then Cancel(cfg, c1) else c1;
      c2.(hold := c2.hold.(anchor := None))
  }

  /** What admits a pose hold. */
  predicate SoftAllowed(cfg: Config, c: Ctl, decodes: bool, now: real) {
    && (cfg.policy.Some? ==> !ObservationError(cfg, cfg.policy.value, c.sense, now))
    && decodes && !cfg.calibrated && c.sense.softCapable
    && c.life.armed && c.life.ready && !c.life.stopped && !c.life.frozen
    && c.sense.at.Some? && now - c.sense.at.value <= 1.0 && Finite(c.sense.state)
    && !c.leg.running && c.jog.q.None? && NoFasterThan(c.sense.state.v, 0.05)
  }

  function SetSoft(cfg: Config, c: Ctl, spec: Spec, decodes: bool, now: real): Ctl {
    if !SoftAllowed(cfg, c, decodes, now) then c
    else
      var c1 := Cancel(cfg, c);
      c1.(hold := c1.hold.(last := None, soft := Some(spec)), leg := c1.leg.(cartesian := None))
  }

  /** A cancel that names a plan clears no other. */
  function CancelNamed(cfg: Config, c: Ctl, requested: Option<PlanId>): Ctl {
    var current := CurrentId(c);
    if requested.None? then Cancel(cfg, c)
    else if current == "" || requested.value == current then
      Log(Cancel(cfg, c), Cleared(if current != "" then current else requested.value, true))
    else Log(c, Cleared(requested.value, false))
  }

  function Freeze(c: Ctl): Ctl {
    Log(c.(life := c.life.(frozen := true), leg := c.leg.(running := false, reference := None)), Held)
  }

  /** The first half of a control update: authority, release, law. */
  function Direct(cfg: Config, c: Ctl, u: Control, t: Time): Ctl {
    var c1 := if u.arm.Some? then SetArm(cfg, c, u.arm.value, t.now) else c;
    var c2 := if u.execute.Some? then Release(cfg, c1, u.execute.value, None, t) else c1;
    var c3 := if u.gains.Some? then SetGains(cfg, c2, u.gains.value) else c2;
    if u.soft.Some? then SetSoft(cfg, c3, u.soft.value.0, u.soft.value.1, t.now) else c3
  }

  /** The second half: cancel, hold, stop. */
  function Interrupt(cfg: Config, c: Ctl, u: Control, t: Time): Ctl {
    var c1 := if u.cancel then CancelNamed(cfg, c, u.cancelId) else c;
    var c2 := if u.hold then Freeze(c1) else c1;
    if u.stop then Stop(cfg, c2, t.now) else c2
  }

  function OnControl(cfg: Config, c: Ctl, u: Control, t: Time): Ctl {
    Interrupt(cfg, Direct(cfg, c, u, t), u, t)
  }

  predicate JogRefused(c: Ctl) {
    c.life.stopped || c.life.frozen || !c.life.armed || !c.life.ready || c.hold.soft.Some? || c.leg.running
  }

  function OnJog(cfg: Config, c: Ctl, q: Pose, now: real): Ctl {
    if JogRefused(c) then c
    else
      c.(ramp := if Ramps(cfg) && c.jog.q.None? then None else c.ramp,
         jog := JogHold.Next(c.jog, cfg.jogTimeout, cfg.n, JogHold.Set(q, now)))
  }

  function ClearJog(c: Ctl): Ctl {
    if c.jog.q.None? then c
    else c.(jog := ClearJogHold(c.jog), hold := c.hold.(anchor := Some(StaticHold(c))))
  }

  /** The plant replaced a moving command with a hold of its own: retire the leg and adopt that hold. */
  function AdoptRtHold(cfg: Config, c: Ctl, q: Option<Pose>): Ctl {
    var c1 := if c.leg.running then Cancel(cfg, c) else c;
    if q.Some? && |q.value| == cfg.n then c1.(hold := c1.hold.(anchor := Some(HoldAt(q.value)))) else c1
  }

  function JudgeHealth(cfg: Config, c: Ctl, h: Health, now: real): Ctl {
    var c1 := c.(sense := c.sense.(healthAt := Some(now), healthOk := h.ok));
    var c2 := if h.holding && !c1.sense.rtHolding && h.ok then AdoptRtHold(cfg, c1, h.holdingQ) else c1;
    var c3 := c2.(sense := c2.sense.(rtHolding := h.holding));
    if h.ok then c3 else PauseObservation(cfg, c3, false)
  }

  function OnHealth(cfg: Config, c: Ctl, h: Health, now: real): Ctl {
    var c1 := if cfg.policy.Some? then JudgeHealth(cfg, c, h, now) else c;
    var c2 := c1.(sense := c1.sense.(softCapable := h.softCapable));
    if h.armed && !c2.life.bridgeArmed && c2.life.armed then c2.(life := c2.life.(bridgeArmed := true))
    else if !h.armed && c2.life.bridgeArmed && c2.life.armed && !c2.life.stopped then RaiseFault(cfg, c2, now)
    else c2
  }

  /** The measured pose joins the episode's record. */
  function Record(rest: Rest, q: Pose): Rest {
    Rest(if rest.fixed then rest.pose else Some(q), rest.fixed,
         Some(if rest.been.None? then (q, q) else (Lower(rest.been.value.0, q), Upper(rest.been.value.1, q))))
  }

  function TakeState(c: Ctl, m: Measured): Ctl {
    var c1 := c.(sense := c.sense.(state := m));
    if c1.life.armed && m.qFinite then Log(c1.(rest := Record(c1.rest, m.q)), Saw(m.q)) else c1
  }

  function OnState(cfg: Config, c: Ctl, m: Measured, w: World, t: Time): Ctl {
    var previous := c.sense.at;
    var c1 := c.(sense := c.sense.(at := Some(t.now)));
    if c1.life.stopped then c1
    else
      var c2 := if cfg.statePeriod.None? then c1
                else c1.(sense := c1.sense.(plantT := c1.sense.plantT + cfg.statePeriod.value));
      if cfg.policy.None? then Stream(cfg, TakeState(c2, m), w, t)
      else if !Finite(m) then PauseObservation(cfg, c2.(sense := c2.sense.(at := None)), false)
      else
        var gap := previous.Some? && t.now - previous.value > cfg.policy.value.stateTimeout;
        TakeState(if gap then PauseObservation(cfg, c2, true) else c2, m)
  }

  function OnTick(cfg: Config, c: Ctl, w: World, t: Time): Ctl {
    if cfg.policy.None? || c.life.stopped then c
    else if ObservationError(cfg, cfg.policy.value, c.sense, t.now) then PauseObservation(cfg, c, false)
    else Stream(cfg, c.(sense := c.sense.(paused := false)), w, t)
  }

  /** The transport accepted a word of the named, still running leg. */
  function OnSent(c: Ctl, id: PlanId, q: Pose, at: real): Ctl {
    if c.leg.running && CurrentId(c) == id then c.(sent := Some((at, q))) else c
  }

  function Step(cfg: Config, c: Ctl, i: Input): Ctl {
    match i
    case PlanInput(plan, malformed, flawed, t) => OnPlan(cfg, c, plan, malformed, flawed, t)
    case ControlInput(u, t) => OnControl(cfg, c, u, t)
    case ReleaseInput(id, start, t) => Release(cfg, c, id, start, t)
    case JogInput(q, t) => OnJog(cfg, c, q, t.now)
    case ClearJogInput => ClearJog(c)
    case HealthInput(h, t) => OnHealth(cfg, c, h, t.now)
    case StateInput(m, w, t) => OnState(cfg, c, m, w, t)
    case TickInput(w, t) => OnTick(cfg, c, w, t)
    case SentInput(id, q, at) => OnSent(c, id, q, at)
  }

  function Run(cfg: Config, inputs: seq<Input>): Ctl {
    if inputs == [] then Start(cfg) else Step(cfg, Run(cfg, inputs[..|inputs| - 1]), inputs[|inputs| - 1])
  }
}
