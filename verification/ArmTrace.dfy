/** What the controller may do, told from its trace alone, and that every run of it does only that.

    A monitor reads the trace and knows no controller state. `Allowed` says what may come next. */
module ArmTrace {
  import opened Wrappers
  import opened Reals
  import opened LegSettling
  import opened Arm

  /** One ARM to the next: where the arm rested, whether a first command has fixed that, every pose measured since. */
  datatype Episode = Episode(rest: Option<Pose>, fixed: bool, seen: seq<Pose>)

  /** `plan` is loaded and has no result yet; `start` is the running leg's, and `polls` what it was judged on. */
  datatype Monitor = Monitor(armed: bool, ready: bool, faulted: bool, plan: Option<Plan>, start: Option<real>,
                             polls: seq<Sample>, episode: Episode)

  const IDLE := Monitor(false, false, false, None, None, [], Episode(None, false, []))

  function Advance(m: Monitor, e: Event): Monitor {
    match e
    case Saw(q) =>
      m.(episode := Episode(if m.episode.fixed then m.episode.rest else Some(q), m.episode.fixed, m.episode.seen + [q]))
    case Fixed => m.(episode := m.episode.(fixed := true))
    case Ready => m.(ready := true)
    case Paused => m.(ready := false)
    case Armed(on, rest) =>
      if on == m.armed then m
      else if on then
        m.(armed := true, ready := false,
           episode := Episode(rest, false, if rest.Some? then [rest.value] else []))
      else m.(armed := false, ready := false, plan := None, start := None)
    case Fault => m.(faulted := true)
    case Staged(plan) => m.(plan := Some(plan), start := None)
    case Released(_, start) => m.(start := Some(start), polls := [])
    case Judged(sample) => m.(polls := m.polls + [sample])
    case Result(_, _) => m.(plan := None, start := None)
    case Cancelled => m.(plan := None, start := None)
    case Held => m.(start := None)
    case _ => m
  }

  /** No further out than the limit or, on a side the arm rested past, than some pose measured since ARM. */
  ghost predicate Within(bounds: (Pose, Pose), e: Episode, q: Pose) {
    && |q| == |bounds.0| == |bounds.1|
    && forall j :: 0 <= j < |q| ==> AboveLow(bounds.0[j], e, j, q[j]) && BelowHigh(bounds.1[j], e, j, q[j])
  }

  ghost predicate AboveLow(limit: real, e: Episode, j: nat, x: real) {
    || limit - ENVELOPE_TOL <= x
    || (&& e.rest.Some? && j < |e.rest.value| && e.rest.value[j] < limit
        && exists k :: 0 <= k < |e.seen| && j < |e.seen[k]| && e.seen[k][j] - ENVELOPE_TOL <= x)
  }

  ghost predicate BelowHigh(limit: real, e: Episode, j: nat, x: real) {
    || x <= limit + ENVELOPE_TOL
    || (&& e.rest.Some? && j < |e.rest.value| && limit < e.rest.value[j]
        && exists k :: 0 <= k < |e.seen| && j < |e.seen[k]| && x <= e.seen[k][j] + ENVELOPE_TOL)
  }

  /** When the running leg ends. */
  function EndOf(m: Monitor): Option<real> {
    if m.start.Some? && m.plan.Some? then Some(m.start.value + m.plan.value.trajectory.duration) else None
  }

  /** The leg, judged on these polls alone, is settled at the last of them. */
  predicate SettlesAt(l: Limits, end: Option<real>, polls: seq<Sample>, at: real) {
    && polls != [] && polls[|polls| - 1].now == at
    && var verdict := Judge(l, After(end, polls[..|polls| - 1]), polls[|polls| - 1]);
       verdict.Some? && verdict.value.state == Settled
  }

  ghost predicate WordAllowed(cfg: Config, m: Monitor, command: Command, law: Law, soft: Option<Spec>) {
    && m.armed && m.ready && !m.faulted
    && (law.LegLaw? <==> m.start.Some?)
    && (law.LegLaw? ==>
          && m.plan.Some? && soft.None?
          && command == cfg.sample(m.plan.value.trajectory, law.at - m.start.value)
          && law.cartesian == m.plan.value.cartesian)
    && (soft.Some? ==> m.plan.None?)
    && (cfg.policy.Some? && m.episode.rest.Some? ==> m.episode.fixed)
    && (cfg.policy.Some? && cfg.policy.value.bounds.Some? ==>
          Within(cfg.policy.value.bounds.value, m.episode, command.q))
  }

  ghost predicate Allowed(cfg: Config, m: Monitor, e: Event) {
    match e
    case Saw(q) => m.armed && |q| == cfg.n
    case Fixed => m.armed && m.episode.rest.Some?
    case Ready => m.armed && !m.faulted
    case Armed(on, rest) =>
      (m.armed && !on ==> m.start.None?) && (rest.Some? ==> on && !m.armed && |rest.value| == cfg.n)
    case Fault => !m.faulted && !m.armed && m.start.None?
    case Staged(_) => !m.faulted && m.start.None?
    case Released(plan, _) => m.plan == Some(plan) && m.start.None? && m.armed && m.ready && !m.faulted
    case Judged(_) => m.start.Some? && m.plan.Some?
    case Progress(id) => m.start.Some? && m.plan.Some? && id == m.plan.value.id
    case Result(id, settled) =>
      && m.plan.Some? && id == m.plan.value.id
      && (settled.Some? ==> m.start.Some? && SettlesAt(cfg.settling, EndOf(m), m.polls, settled.value))
    case Cancelled => m.start.None?
    case Cleared(id, ok) => if ok then m.plan.None? else m.plan.Some? && m.plan.value.id != id
    case Word(command, law, soft) => WordAllowed(cfg, m, command, law, soft)
    case _ => true
  }

  function Watch(trace: seq<Event>): Monitor {
    if trace == [] then IDLE else Advance(Watch(trace[..|trace| - 1]), trace[|trace| - 1])
  }

  ghost predicate Accepted(cfg: Config, trace: seq<Event>) {
    trace == []
    || (Accepted(cfg, trace[..|trace| - 1]) && Allowed(cfg, Watch(trace[..|trace| - 1]), trace[|trace| - 1]))
  }

  // ---- what ties the controller to its trace --------------------------------------------------

  /** The three sources of motion exclude each other, and each needs authority. */
  ghost predicate Exclusive(c: Ctl) {
    && (c.life.ready ==> c.life.armed)
    && (c.leg.running <==> c.leg.reference.Some?)
    && (c.leg.running ==> c.life.ready && c.leg.plan.Some? && c.jog.q.None?)
    && (c.leg.plan.Some? ==> c.hold.soft.None?)
    && (c.hold.soft.Some? ==> c.life.ready && c.jog.q.None?)
    && (c.jog.q.Some? ==> c.life.ready)
  }

  /** The staged trajectory and spec are the loaded plan's, and so is the reference that runs. */
  ghost predicate Faithful(c: Ctl) {
    && (c.leg.plan.Some? ==>
          && c.leg.pending == Some(c.leg.plan.value.trajectory) && c.leg.cartesian == c.leg.plan.value.cartesian)
    && (c.leg.plan.Some? && c.leg.reference.Some? ==>
          c.leg.reference.value.trajectory == c.leg.plan.value.trajectory)
  }

  ghost predicate Follows(c: Ctl, m: Monitor) {
    && c.life.armed == m.armed && c.life.ready == m.ready
    && c.leg.plan == m.plan
    && m.start == (if c.leg.reference.Some? then Some(c.leg.reference.value.start) else None)
    && (m.start.Some? && m.plan.Some? ==> c.finish.clocks.(reportAt := None) == After(EndOf(m), m.polls))
  }

  /** `been` is the box around every pose measured since ARM. */
  ghost predicate Hull(n: nat, been: (Pose, Pose), seen: seq<Pose>) {
    && |been.0| == |been.1| == n
    && (forall k :: 0 <= k < |seen| ==> |seen[k]| == n)
    && (forall k, j :: 0 <= k < |seen| && 0 <= j < n ==> been.0[j] <= seen[k][j] <= been.1[j])
    && (forall j :: 0 <= j < n ==> Touched(seen, j, been.0[j]) && Touched(seen, j, been.1[j]))
  }

  ghost predicate Touched(seen: seq<Pose>, j: nat, x: real) {
    exists k :: 0 <= k < |seen| && j < |seen[k]| && seen[k][j] == x
  }

  ghost predicate Remembers(n: nat, rest: Rest, e: Episode) {
    && rest.pose == e.rest && rest.fixed == e.fixed
    && (rest.been.None? <==> e.seen == [])
    && (rest.been.Some? ==> Hull(n, rest.been.value, e.seen))
    && (rest.pose.Some? ==> rest.pose.value in e.seen && |rest.pose.value| == n)
  }

  ghost predicate Episodic(cfg: Config, c: Ctl, m: Monitor) {
    && |c.sense.state.q| == cfg.n
    && (c.life.armed ==> Remembers(cfg.n, c.rest, m.episode))
    && (c.life.armed && cfg.policy.Some? && c.rest.pose.Some? ==> c.sense.state.q in m.episode.seen)
  }

  ghost predicate Traced(cfg: Config, c: Ctl) {
    && Accepted(cfg, c.trace) && Follows(c, Watch(c.trace)) && Episodic(cfg, c, Watch(c.trace))
  }

  /** A stop is final: it took authority, and no state can bring `ready` back. */
  ghost predicate Latched(c: Ctl) {
    && (c.life.stopped ==> !c.life.ready) && (Watch(c.trace).faulted <==> c.life.stopped)
  }

  ghost predicate Good(cfg: Config, c: Ctl) {
    Exclusive(c) && Faithful(c) && Traced(cfg, c) && Latched(c)
  }

  lemma Logs(cfg: Config, c: Ctl, e: Event)
    ensures Watch(Log(c, e).trace) == Advance(Watch(c.trace), e)
    ensures Accepted(cfg, Log(c, e).trace) <==> Accepted(cfg, c.trace) && Allowed(cfg, Watch(c.trace), e)
  {
    var trace := Log(c, e).trace;
    assert trace[..|trace| - 1] == c.trace;
  }

  // ---- the leg's lifecycle --------------------------------------------------------------------

  lemma FinishKeeps(cfg: Config, c: Ctl, settled: Option<real>)
    requires Good(cfg, c) && c.leg.plan.Some?
    requires settled.Some? ==>
      c.leg.reference.Some? && SettlesAt(cfg.settling, EndOf(Watch(c.trace)), Watch(c.trace).polls, settled.value)
    ensures var c' := FinishLeg(c, settled); Good(cfg, c') && c'.leg.reference.None? && c'.leg.plan.None?
  {
    hide Watch, Accepted, Remembers, After, SettlesAt;
    Logs(cfg, c, Result(CurrentId(c), settled));
  }

  lemma AbandonKeeps(cfg: Config, c: Ctl)
    requires Good(cfg, c)
    ensures var c' := Abandon(c); Good(cfg, c') && !c'.leg.running
  {
    hide Watch, Accepted, Remembers, After, SettlesAt;
    if c.leg.running {
      FinishKeeps(cfg, c, None);
    }
  }

  lemma CancelKeeps(cfg: Config, c: Ctl)
    requires Good(cfg, c)
    ensures var c' := Cancel(cfg, c);
            && Good(cfg, c') && c'.leg.plan.None? && !c'.leg.running && c'.jog.q.None? && c'.hold.soft.None?
            && c'.life == c.life.(frozen := false) && c'.sense == c.sense && c'.rest == c.rest
  {
    hide Watch, Accepted, Remembers, After, SettlesAt, KeepsAnchor;
    AbandonKeeps(cfg, c);
    var a, c' := Abandon(c), Cancel(cfg, c);
    var before := c'.(trace := a.trace);
    assert c' == Log(before, Cancelled);
    Logs(cfg, before, Cancelled);
  }

  lemma DisarmKeeps(cfg: Config, c: Ctl)
    requires Exclusive(c) && Faithful(c) && Traced(cfg, c) && c.life.armed
    ensures var c' := Log(DisarmReset(cfg, c).(life := DisarmReset(cfg, c).life.(armed := false)), Armed(false, None));
            && Exclusive(c') && Faithful(c') && Traced(cfg, c') && !c'.life.ready && !c'.leg.running
            && c'.life.stopped == c.life.stopped && Watch(c'.trace).faulted == Watch(c.trace).faulted
  {
    hide Watch, Accepted, Remembers, After, SettlesAt;
    if c.leg.running {
      Logs(cfg, c, Result(CurrentId(c), None));
    }
    var before := DisarmReset(cfg, c).(life := DisarmReset(cfg, c).life.(armed := false));
    Logs(cfg, before, Armed(false, None));
  }

  lemma RestIsRemembered(n: nat, pose: Option<Pose>)
    requires pose.Some? ==> |pose.value| == n
    ensures Remembers(n, RestAt(pose), Episode(pose, false, if pose.Some? then [pose.value] else []))
  {
    if pose.Some? {
      var q := pose.value;
      forall j | 0 <= j < n ensures Touched([q], j, q[j]) {
        assert [q][0][j] == q[j];
      }
    }
  }

  lemma SetArmKeeps(cfg: Config, c: Ctl, on: bool, now: real)
    requires Good(cfg, c)
    ensures Good(cfg, SetArm(cfg, c, on, now))
  {
    hide Watch, Accepted, After, SettlesAt, DisarmReset, RestAt, Hull;
    if on && !c.life.armed {
      var pose := ArmPose(cfg, c.sense, now);
      RestIsRemembered(cfg.n, pose);
      Logs(cfg, c.(rest := RestAt(pose), life := c.life.(armed := true)), Armed(true, pose));
    } else if c.life.armed && !on {
      DisarmKeeps(cfg, c);
    } else {
      Logs(cfg, c.(life := c.life.(armed := on)), Armed(on, None));
    }
  }

  lemma StopKeeps(cfg: Config, c: Ctl, now: real)
    requires Good(cfg, c)
    ensures Good(cfg, Stop(cfg, c, now)) && Stop(cfg, c, now).life.stopped
  {
    hide Watch, Accepted, After, SettlesAt, DisarmReset, Remembers;
    if !c.life.stopped {
      var c1 := c.(life := c.life.(stopped := true));
      if c.life.armed {
        DisarmKeeps(cfg, c1);
        Logs(cfg, SetArm(cfg, c1, false, now), Event.Fault);
      } else {
        Logs(cfg, c1, Event.Fault);
      }
    }
  }

  lemma FaultKeeps(cfg: Config, c: Ctl, now: real)
    requires Good(cfg, c)
    ensures Good(cfg, RaiseFault(cfg, c, now)) && RaiseFault(cfg, c, now).life.stopped
  {
    hide Watch, Accepted, After, SettlesAt, DisarmReset, Remembers, Stop, Abandon;
    AbandonKeeps(cfg, c);
    StopKeeps(cfg, Abandon(c), now);
  }

  lemma PauseKeeps(cfg: Config, c: Ctl, preserveRtHold: bool)
    requires Good(cfg, c)
    ensures var c' := PauseObservation(cfg, c, preserveRtHold);
            && Good(cfg, c') && !c'.life.ready && c'.life.stopped == c.life.stopped && c'.sense.state == c.sense.state
  {
    hide Watch, Accepted, After, SettlesAt, Cancel, Remembers;
    CancelKeeps(cfg, c);
    var c' := PauseObservation(cfg, c, preserveRtHold);
    var before := c'.(trace := c'.trace[..|c'.trace| - 1]);
    assert c' == Log(before, Paused);
    Logs(cfg, before, Paused);
  }

  // ---- words ----------------------------------------------------------------------------------

  /** Against the lower limit, joint by joint: the code's widened band is what `Within` allows. */
  lemma BandLow(n: nat, bounds: (Pose, Pose), rest: Rest, e: Episode, j: nat, x: real)
    requires Remembers(n, rest, e) && |bounds.0| == |bounds.1| == n && j < n
    requires Envelope(bounds, WhereBeen(bounds, true, rest)).0[j] - ENVELOPE_TOL <= x
    requires bounds.0[j] <= bounds.1[j]
    ensures AboveLow(bounds.0[j], e, j, x)
  {
    if rest.pose.Some? && rest.pose.value[j] < bounds.0[j] {
      assert Touched(e.seen, j, rest.been.value.0[j]);
    }
  }

  lemma BandHigh(n: nat, bounds: (Pose, Pose), rest: Rest, e: Episode, j: nat, x: real)
    requires Remembers(n, rest, e) && |bounds.0| == |bounds.1| == n && j < n
    requires x <= Envelope(bounds, WhereBeen(bounds, true, rest)).1[j] + ENVELOPE_TOL
    requires bounds.0[j] <= bounds.1[j]
    ensures BelowHigh(bounds.1[j], e, j, x)
  {
    if rest.pose.Some? && rest.pose.value[j] > bounds.1[j] {
      assert Touched(e.seen, j, rest.been.value.1[j]);
    }
  }

  /** The bounds of a policy are ordered, as its constructor demands. */
  ghost predicate Ordered(bounds: (Pose, Pose)) {
    |bounds.0| == |bounds.1| && forall j :: 0 <= j < |bounds.0| ==> bounds.0[j] < bounds.1[j]
  }

  ghost predicate ValidConfig(cfg: Config) {
    && ValidLimits(cfg.settling) && (cfg.statePeriod.Some? ==> cfg.statePeriod.value > 0.0)
    && (cfg.policy.Some? && cfg.policy.value.bounds.Some? ==>
          Ordered(cfg.policy.value.bounds.value) && |cfg.policy.value.bounds.value.0| == cfg.n)
  }

  lemma ValidIsWithin(cfg: Config, rest: Rest, e: Episode, command: Command, w: World)
    requires ValidConfig(cfg) && cfg.policy.Some? && Remembers(cfg.n, rest, e)
    requires CommandValid(cfg.n, cfg.policy.value, true, rest, command, w)
    ensures cfg.policy.value.bounds.Some? ==> Within(cfg.policy.value.bounds.value, e, command.q)
    ensures rest.pose == e.rest && rest.fixed == e.fixed
  {
    hide Hull, AboveLow, BelowHigh, Envelope;
    if cfg.policy.value.bounds.Some? {
      var bounds := cfg.policy.value.bounds.value;
      forall j | 0 <= j < cfg.n
        ensures AboveLow(bounds.0[j], e, j, command.q[j]) && BelowHigh(bounds.1[j], e, j, command.q[j])
      {
        BandLow(cfg.n, bounds, rest, e, j, command.q[j]);
        BandHigh(cfg.n, bounds, rest, e, j, command.q[j]);
      }
    }
  }

  lemma FixKeeps(cfg: Config, c: Ctl)
    requires Good(cfg, c)
    ensures Good(cfg, FixRest(c)) && FixRest(c) == c.(rest := FixRest(c).rest, trace := FixRest(c).trace)
    ensures c.life.armed && FixRest(c).rest.pose.Some? ==> FixRest(c).rest.fixed
  {
    hide Watch, Accepted, After, SettlesAt, Hull;
    if c.life.armed && c.rest.pose.Some? && !c.rest.fixed {
      Logs(cfg, c.(rest := c.rest.(fixed := true)), Fixed);
    }
  }

  lemma EmitKeeps(cfg: Config, c: Ctl, command: Command, at: Option<real>)
    requires Good(cfg, c) && c.life.ready
    requires at.Some? <==> c.leg.running
    requires at.Some? ==> command == cfg.sample(c.leg.plan.value.trajectory, at.value - c.leg.reference.value.start)
    requires cfg.policy.Some? && cfg.policy.value.bounds.Some? ==>
      Within(cfg.policy.value.bounds.value, Watch(c.trace).episode, command.q)
    requires cfg.policy.Some? && Watch(c.trace).episode.rest.Some? ==> Watch(c.trace).episode.fixed
    ensures Good(cfg, Emit(c, command, at))
  {
    hide Watch, Accepted, After, SettlesAt, Remembers, Within;
    var law := if at.Some? then LegLaw(at.value, c.leg.cartesian) else HoldLaw;
    Logs(cfg, c.(hold := c.hold.(last := Some(command))), Word(command, law, c.hold.soft));
  }

  lemma AbortKeeps(cfg: Config, c: Ctl)
    requires Good(cfg, c)
    ensures var c' := AbortTracking(cfg, c);
            && Good(cfg, c') && !c'.leg.running && c'.life == c.life.(frozen := false) && c'.sense == c.sense
            && c'.rest == c.rest
  {
    hide Watch, Accepted, After, SettlesAt, Remembers, Cancel;
    CancelKeeps(cfg, c);
  }

  /** What was added to the trace since, none of it a word. */
  ghost predicate Wordless(c: Ctl, c': Ctl) {
    c.trace <= c'.trace && forall i :: |c.trace| <= i < |c'.trace| ==> !c'.trace[i].Word?
  }

  predicate LastIs(c: Ctl, e: Event) {
    |c.trace| > 0 && c.trace[|c.trace| - 1] == e
  }

  lemma FaultStops(cfg: Config, c: Ctl, now: real)
    ensures var c' := RaiseFault(cfg, c, now); c'.life.stopped && Wordless(c, c')
  {
  }

  lemma AbortDrops(cfg: Config, c: Ctl)
    ensures var c' := AbortTracking(cfg, c);
            && Wordless(c, c') && !c'.leg.running && c'.rest == c.rest && c'.sense == c.sense
            && c'.hold.soft.None? && c'.life == c.life.(frozen := false)
  {
  }

  /** Fixing the band does not move it. */
  lemma FixedIsSameBand(n: nat, policy: Policy, c: Ctl, command: Command, w: World)
    ensures var c' := FixRest(c);
            && c'.life == c.life && c'.sense == c.sense && c'.hold == c.hold && c'.leg == c.leg && Wordless(c, c')
            && (CommandValid(n, policy, c'.life.armed, c'.rest, command, w)
                <==> CommandValid(n, policy, c.life.armed, c.rest, command, w))
  {
    hide InBand, Envelope;
  }

  /** What becomes of a word: sent as it is; or refused, which stops the arm with no word sent; or, too far from the
      measured pose, replaced by the hold of that pose with the leg dropped, and refused if that hold is. */
  ghost predicate Answered(cfg: Config, c: Ctl, command: Command, at: Option<real>, w: World, c': Ctl) {
    if cfg.policy.Some? && !CommandValid(cfg.n, cfg.policy.value, c.life.armed, c.rest, command, w) then
      c'.life.stopped && Wordless(c, c')
    else if cfg.policy.None? || c.hold.soft.Some? || Near(command.q, c.sense.state.q, cfg.policy.value.abortErr) then
      LastIs(c', Word(command, if at.Some? then LegLaw(at.value, c.leg.cartesian) else HoldLaw, c.hold.soft))
    else if CommandValid(cfg.n, cfg.policy.value, c.life.armed, c.rest, StaticHold(c), w) then
      !c'.leg.running && LastIs(c', Word(StaticHold(c), HoldLaw, None))
    else
      c'.life.stopped && Wordless(c, c')
  }

  lemma SendAnswers(cfg: Config, c: Ctl, command: Command, at: Option<real>, w: World, now: real)
    ensures Answered(cfg, c, command, at, w, Send(cfg, c, command, at, w, now))
  {
    hide CommandValid, Near, FixRest, AbortTracking, RaiseFault;
    if cfg.policy.Some? {
      var policy, c1 := cfg.policy.value, FixRest(c);
      var c2 := AbortTracking(cfg, c1);
      FixedIsSameBand(cfg.n, policy, c, command, w);
      FixedIsSameBand(cfg.n, policy, c, StaticHold(c), w);
      AbortDrops(cfg, c1);
      FaultStops(cfg, c1, now);
      FaultStops(cfg, c2, now);
    }
  }

  /** A word is sent only with authority and in the band. */
  lemma SendKeeps(cfg: Config, c: Ctl, command: Command, at: Option<real>, w: World, now: real)
    requires ValidConfig(cfg) && Good(cfg, c) && c.life.ready
    requires at.Some? <==> c.leg.running
    requires at.Some? ==> command == cfg.sample(c.leg.plan.value.trajectory, at.value - c.leg.reference.value.start)
    ensures Good(cfg, Send(cfg, c, command, at, w, now))
    ensures Answered(cfg, c, command, at, w, Send(cfg, c, command, at, w, now))
  {
    hide Watch, Accepted, After, SettlesAt, Remembers, Within, FixRest, AbortTracking, Emit, CommandValid, Near,
      RaiseFault, Faithful, Latched, Follows, ValidConfig, Answered;
    SendAnswers(cfg, c, command, at, w, now);
    if cfg.policy.None? {
      EmitKeeps(cfg, c, command, at);
    } else {
      var policy, c1 := cfg.policy.value, FixRest(c);
      FixKeeps(cfg, c);
      if !CommandValid(cfg.n, policy, c1.life.armed, c1.rest, command, w) {
        FaultKeeps(cfg, c1, now);
      } else if c1.hold.soft.None? && !Near(command.q, c1.sense.state.q, policy.abortErr) {
        var c2 := AbortTracking(cfg, c1);
        AbortKeeps(cfg, c1);
        if !CommandValid(cfg.n, policy, c2.life.armed, c2.rest, StaticHold(c2), w) {
          FaultKeeps(cfg, c2, now);
        } else {
          ValidIsWithin(cfg, c2.rest, Watch(c2.trace).episode, StaticHold(c2), w);
          EmitKeeps(cfg, c2, StaticHold(c2), None);
        }
      } else {
        ValidIsWithin(cfg, c1.rest, Watch(c1.trace).episode, command, w);
        EmitKeeps(cfg, c1, command, at);
      }
    }
  }

  // ---- completion -----------------------------------------------------------------------------

  /** When progress was last reported is no concern of the verdict. */
  lemma ReportAside(l: Limits, clocks: Clocks, polls: seq<Sample>, end: Option<real>, x: Sample)
    requires clocks.(reportAt := None) == After(end, polls)
    ensures Polled(clocks, x).(reportAt := None) == After(end, polls + [x])
    ensures Judge(l, clocks, x) == Judge(l, After(end, polls), x)
  {
    assert (polls + [x])[..|polls|] == polls;
  }

  /** Taking one poll into the record. */
  lemma JudgedKeeps(cfg: Config, c: Ctl, x: Sample, seen: Option<real>)
    requires Good(cfg, c) && c.leg.running
    ensures var c' := Log(c.(finish := Finish(Polled(c.finish.clocks, x), seen)), Judged(x));
            && Good(cfg, c') && c'.leg == c.leg && EndOf(Watch(c'.trace)) == EndOf(Watch(c.trace))
            && Watch(c'.trace).polls == Watch(c.trace).polls + [x]
  {
    hide Watch, Accepted, After, SettlesAt, Remembers, Polled;
    var m := Watch(c.trace);
    ReportAside(cfg.settling, c.finish.clocks, m.polls, EndOf(m), x);
    Logs(cfg, c.(finish := Finish(Polled(c.finish.clocks, x), seen)), Judged(x));
  }

  lemma SettlesNow(cfg: Config, c: Ctl, x: Sample)
    requires Good(cfg, c) && c.leg.running
    requires Judge(cfg.settling, c.finish.clocks, x).Some?
    requires Judge(cfg.settling, c.finish.clocks, x).value.state == Settled
    ensures SettlesAt(cfg.settling, EndOf(Watch(c.trace)), Watch(c.trace).polls + [x], x.now)
  {
    hide Watch, Accepted, After, Judge, Polled, Remembers;
    var m := Watch(c.trace);
    ReportAside(cfg.settling, c.finish.clocks, m.polls, EndOf(m), x);
    assert (m.polls + [x])[..|m.polls|] == m.polls;
  }

  lemma CheckKeeps(cfg: Config, c: Ctl, w: World, t: Time)
    requires ValidConfig(cfg) && Good(cfg, c) && c.leg.running
    ensures var (c', over) := CheckCompletion(cfg, c, w, t);
            && Good(cfg, c') && (over ==> c'.leg.plan.None? && !c'.leg.running) && (!over ==> c'.leg == c.leg)
            && c'.life == c.life.(frozen := c'.life.frozen) && c'.sense == c.sense && c'.jog == c.jog
  {
    hide Watch, Accepted, After, SettlesAt, Remembers, Judge, Polled, Due;
    var now := ExecTime(cfg, c, t);
    var x := Sample(now, c.finish.seen != c.sense.at, w.done, false);
    var verdict, clocks := Judge(cfg.settling, c.finish.clocks, x), Polled(c.finish.clocks, x);
    var c1 := Log(c.(finish := Finish(clocks, c.sense.at)), Judged(x));
    JudgedKeeps(cfg, c, x, c.sense.at);
    if verdict.Some? {
      match verdict.value.state
      case Settled =>
        SettlesNow(cfg, c, x);
        FinishKeeps(cfg, c1, Some(now));
      case TimedOut =>
        FinishKeeps(cfg, c1, None);
      case Settling =>
        Logs(cfg, c1.(finish := c1.finish.(clocks := clocks.(reportAt := Some(now)))), Progress(CurrentId(c1)));
    }
  }

  lemma CompleteKeeps(cfg: Config, c: Ctl, w: World, t: Time)
    requires ValidConfig(cfg) && Good(cfg, c) && c.leg.running
    ensures var c' := Complete(cfg, c, w, t);
            && Good(cfg, c') && c'.life == c.life.(frozen := c'.life.frozen)
            && (c'.leg.running ==> c'.leg == c.leg)
  {
    hide Watch, Accepted, After, SettlesAt, Remembers, CheckCompletion;
    CheckKeeps(cfg, c, w, t);
  }

  // ---- one servo cycle ------------------------------------------------------------------------

  lemma StreamLegKeeps(cfg: Config, c: Ctl, w: World, t: Time)
    requires ValidConfig(cfg) && Good(cfg, c) && c.leg.running
    ensures Good(cfg, StreamLeg(cfg, c, w, t))
  {
    hide Watch, Accepted, After, SettlesAt, Remembers, CheckCompletion;
    var r, now := c.leg.reference.value, ExecTime(cfg, c, t);
    var c0, command := c.(hold := c.hold.(anchor := None)), cfg.sample(r.trajectory, now - r.start);
    SendKeeps(cfg, c0, command, Some(now), w, t.now);
    if cfg.policy.None? {
      CheckKeeps(cfg, Emit(c0, command, Some(now)), w, t);
    }
  }

  lemma StreamHoldKeeps(cfg: Config, c: Ctl, w: World, t: Time)
    requires ValidConfig(cfg) && Good(cfg, c) && c.life.ready && !c.leg.running
    ensures Good(cfg, StreamHold(cfg, c, w, t))
  {
    hide Watch, Accepted, After, SettlesAt, Remembers, Send, Reanchor, Positions, RampTo;
    var (c1, expired) := PollJog(cfg, c, t.now);
    var c2 := c1.(ramp := RampTo(cfg, c1));
    assert Good(cfg, c2);
    if c2.jog.q.Some? {
      var q := if Ramps(cfg) && c2.ramp.Some? then Positions(c2.ramp.value) else c2.jog.q.value;
      SendKeeps(cfg, c2.(hold := c2.hold.(anchor := None)), HoldAt(q), None, w, t.now);
    } else {
      var anchor := Reanchor(cfg, c2, w, expired);
      var command := if cfg.policy.Some? then HoldAt(anchor.q) else anchor;
      SendKeeps(cfg, c2.(hold := c2.hold.(anchor := Some(anchor))), command, None, w, t.now);
    }
  }

  lemma StopAtGapKeeps(cfg: Config, c: Ctl, w: World, now: real)
    requires ValidConfig(cfg) && Good(cfg, c) && c.life.ready && c.sent.Some?
    ensures Good(cfg, StopAtGap(cfg, c, w, now))
  {
    hide Watch, Accepted, After, SettlesAt, Remembers, Send, Cancel;
    var hold, c1 := HoldAt(c.sent.value.1), Cancel(cfg, c);
    CancelKeeps(cfg, c);
    SendKeeps(cfg, c1.(hold := c1.hold.(anchor := Some(hold)), sent := None), hold, None, w, now);
  }

  lemma ServeKeeps(cfg: Config, c: Ctl, w: World, t: Time)
    requires ValidConfig(cfg) && Good(cfg, c) && c.life.ready
    ensures Good(cfg, Serve(cfg, c, w, t))
  {
    hide Watch, Accepted, After, SettlesAt, Remembers, StreamLeg, StreamHold, StopAtGap, Complete, Latched;
    if GapExceeded(cfg, c, t.now) {
      StopAtGapKeeps(cfg, c, w, t.now);
    } else {
      var judged := cfg.policy.Some? && c.leg.running && c.leg.plan.Some? && c.leg.reference.Some?;
      if judged {
        CompleteKeeps(cfg, c, w, t);
      }
      var c1 := if judged then Complete(cfg, c, w, t) else c;
      if c1.leg.running && c1.leg.reference.Some? {
        StreamLegKeeps(cfg, c1, w, t);
      } else {
        StreamHoldKeeps(cfg, c1, w, t);
      }
    }
  }

  lemma StreamKeeps(cfg: Config, c: Ctl, w: World, t: Time)
    requires ValidConfig(cfg) && Good(cfg, c) && !c.life.stopped
    ensures Good(cfg, Stream(cfg, c, w, t))
  {
    hide Watch, Accepted, After, SettlesAt, Remembers, Serve;
    if c.life.armed && (c.life.ready || c.life.bridgeArmed) {
      if !c.life.ready {
        Logs(cfg, c.(life := c.life.(ready := true)), Ready);
      }
      var c1 := Announce(c);
      assert Good(cfg, c1);
      if Finite(c1.sense.state) {
        ServeKeeps(cfg, c1, w, t);
      }
    }
  }

  // ---- handlers -------------------------------------------------------------------------------

  /** A release does nothing for another name or beside its own running leg, fails the plan without authority or with a
      bad start, and otherwise runs exactly the loaded plan, from now or the stamp given, with no jog left. */
  lemma ReleaseKeeps(cfg: Config, c: Ctl, id: PlanId, start: Option<real>, t: Time)
    requires Good(cfg, c)
    ensures Good(cfg, Release(cfg, c, id, start, t))
    ensures var c' := Release(cfg, c, id, start, t);
            if CurrentId(c) != id || c.leg.plan.None? || c.leg.running then c' == c
            else if !c.life.ready || StartError(cfg, c, c.leg.plan.value, t.now) then
              c'.leg.plan.None? && !c'.leg.running && c'.trace == c.trace + [Result(id, None)]
            else
              var at := if start.Some? then start.value else ExecTime(cfg, c, t);
              && c'.leg.running && c'.leg.plan == c.leg.plan && c'.jog.q.None?
              && c'.leg.reference == Some(Reference(c.leg.plan.value.trajectory, at))
              && c'.trace == c.trace + [Released(c.leg.plan.value, at)]
  {
    hide Watch, Accepted, SettlesAt, Remembers, StartError;
    if c.leg.plan.None? || c.leg.plan.value.id != id {
    } else if !c.life.armed || !c.life.ready {
      FinishKeeps(cfg, c, None);
    } else if c.leg.running {
    } else if StartError(cfg, c, c.leg.plan.value, t.now) {
      FinishKeeps(cfg, c, None);
    } else {
      var c', plan := Release(cfg, c, id, start, t), c.leg.plan.value;
      var at := c'.leg.reference.value.start;
      Logs(cfg, c'.(trace := c.trace), Released(plan, at));
    }
  }

  lemma OnPlanKeeps(cfg: Config, c: Ctl, plan: Plan, malformed: bool, flawed: bool, t: Time)
    requires Good(cfg, c)
    ensures Good(cfg, OnPlan(cfg, c, plan, malformed, flawed, t))
  {
    hide Watch, Accepted, After, SettlesAt, Remembers, StartError, Release;
    Logs(cfg, c, Refused(plan.id, true));
    Logs(cfg, c, Refused(plan.id, false));
    var staged := c.(leg := c.leg.(plan := Some(plan), cartesian := plan.cartesian, pending := Some(plan.trajectory),
                                   running := false));
    Logs(cfg, staged, Staged(plan));
    if !(malformed || c.hold.soft.Some? || c.life.stopped || c.life.frozen || c.leg.running || flawed)
       && !StartError(cfg, c, plan, t.now) {
      assert Good(cfg, Log(staged, Staged(plan)));
      if !plan.gated {
        ReleaseKeeps(cfg, Log(staged, Staged(plan)), plan.id, None, t);
      }
    }
  }

  lemma SetGainsKeeps(cfg: Config, c: Ctl, ok: bool)
    requires Good(cfg, c)
    ensures Good(cfg, SetGains(cfg, c, ok))
  {
    hide Watch, Accepted, After, SettlesAt, Remembers, Cancel;
    CancelKeeps(cfg, c);
    var c1 := if c.hold.soft.Some? then var x := Cancel(cfg, c); x.(hold := x.hold.(last := None)) else c;
    assert Good(cfg, c1);
    CancelKeeps(cfg, c1);
  }

  lemma SetSoftKeeps(cfg: Config, c: Ctl, spec: Spec, decodes: bool, now: real)
    requires Good(cfg, c)
    ensures Good(cfg, SetSoft(cfg, c, spec, decodes, now))
  {
    hide Watch, Accepted, After, SettlesAt, Remembers, Cancel, ObservationError, NoFasterThan;
    CancelKeeps(cfg, c);
  }

  lemma CancelNamedKeeps(cfg: Config, c: Ctl, requested: Option<PlanId>)
    requires Good(cfg, c)
    ensures Good(cfg, CancelNamed(cfg, c, requested))
  {
    hide Watch, Accepted, After, SettlesAt, Remembers, Cancel;
    CancelKeeps(cfg, c);
    if requested.Some? {
      var current := CurrentId(c);
      Logs(cfg, Cancel(cfg, c), Cleared(if current != "" then current else requested.value, true));
      Logs(cfg, c, Cleared(requested.value, false));
    }
  }

  lemma FreezeKeeps(cfg: Config, c: Ctl)
    requires Good(cfg, c)
    ensures Good(cfg, Freeze(c)) && !Freeze(c).leg.running
  {
    hide Watch, Accepted, After, SettlesAt, Remembers;
    Logs(cfg, c.(life := c.life.(frozen := true), leg := c.leg.(running := false, reference := None)), Held);
  }

  lemma OnControlKeeps(cfg: Config, c: Ctl, u: Control, t: Time)
    requires Good(cfg, c)
    ensures Good(cfg, OnControl(cfg, c, u, t))
  {
    hide Good, SetArm, Release, SetGains, SetSoft, CancelNamed, Freeze, Stop;
    var c1 := if u.arm.Some? then SetArm(cfg, c, u.arm.value, t.now) else c;
    if u.arm.Some? { SetArmKeeps(cfg, c, u.arm.value, t.now); }
    var c2 := if u.execute.Some? then Release(cfg, c1, u.execute.value, None, t) else c1;
    if u.execute.Some? { ReleaseKeeps(cfg, c1, u.execute.value, None, t); }
    var c3 := if u.gains.Some? then SetGains(cfg, c2, u.gains.value) else c2;
    if u.gains.Some? { SetGainsKeeps(cfg, c2, u.gains.value); }
    if u.soft.Some? { SetSoftKeeps(cfg, c3, u.soft.value.0, u.soft.value.1, t.now); }
    var c4 := Direct(cfg, c, u, t);
    var c5 := if u.cancel then CancelNamed(cfg, c4, u.cancelId) else c4;
    if u.cancel { CancelNamedKeeps(cfg, c4, u.cancelId); }
    if u.hold { FreezeKeeps(cfg, c5); }
    if u.stop { StopKeeps(cfg, if u.hold then Freeze(c5) else c5, t.now); }
  }

  lemma OnJogKeeps(cfg: Config, c: Ctl, q: Pose, now: real)
    requires Good(cfg, c)
    ensures Good(cfg, OnJog(cfg, c, q, now)) && Good(cfg, ClearJog(c))
  {
    hide Watch, Accepted, After, SettlesAt, Remembers;
  }

  lemma OnHealthKeeps(cfg: Config, c: Ctl, h: Health, now: real)
    requires Good(cfg, c)
    ensures Good(cfg, OnHealth(cfg, c, h, now))
  {
    hide Watch, Accepted, After, SettlesAt, Remembers, RaiseFault, JudgeHealth;
    if cfg.policy.Some? {
      JudgeHealthKeeps(cfg, c, h, now);
    }
    var c1 := if cfg.policy.Some? then JudgeHealth(cfg, c, h, now) else c;
    var c2 := c1.(sense := c1.sense.(softCapable := h.softCapable));
    assert Good(cfg, c2);
    FaultKeeps(cfg, c2, now);
  }

  lemma JudgeHealthKeeps(cfg: Config, c: Ctl, h: Health, now: real)
    requires Good(cfg, c)
    ensures Good(cfg, JudgeHealth(cfg, c, h, now))
  {
    hide Watch, Accepted, After, SettlesAt, Remembers, Cancel, PauseObservation;
    var c1 := c.(sense := c.sense.(healthAt := Some(now), healthOk := h.ok));
    assert Good(cfg, c1);
    CancelKeeps(cfg, c1);
    var c2 := if h.holding && !c1.sense.rtHolding && h.ok then AdoptRtHold(cfg, c1, h.holdingQ) else c1;
    assert Good(cfg, c2);
    var c3 := c2.(sense := c2.sense.(rtHolding := h.holding));
    assert Good(cfg, c3);
    PauseKeeps(cfg, c3, false);
  }

  lemma TouchedAfter(seen: seq<Pose>, q: Pose, j: nat, x: real)
    requires j < |q| && (Touched(seen, j, x) || x == q[j])
    ensures Touched(seen + [q], j, x)
  {
    var all := seen + [q];
    if Touched(seen, j, x) {
      var k :| 0 <= k < |seen| && j < |seen[k]| && seen[k][j] == x;
      assert all[k] == seen[k];
    } else {
      assert all[|seen|] == q;
    }
  }

  lemma HullGrows(n: nat, rest: Rest, e: Episode, q: Pose)
    requires Remembers(n, rest, e) && |q| == n
    ensures Hull(n, Record(rest, q).been.value, e.seen + [q])
  {
    var been, all := Record(rest, q).been.value, e.seen + [q];
    forall j | 0 <= j < n ensures Touched(all, j, been.0[j]) && Touched(all, j, been.1[j]) {
      TouchedAfter(e.seen, q, j, been.0[j]);
      TouchedAfter(e.seen, q, j, been.1[j]);
    }
  }

  lemma RecordRemembers(n: nat, rest: Rest, e: Episode, q: Pose)
    requires Remembers(n, rest, e) && |q| == n
    ensures Remembers(n, Record(rest, q), Episode(if e.fixed then e.rest else Some(q), e.fixed, e.seen + [q]))
  {
    hide Hull;
    HullGrows(n, rest, e, q);
    assert q in e.seen + [q];
  }

  lemma TakeKeeps(cfg: Config, c: Ctl, m: Measured)
    requires Good(cfg, c) && |m.q| == cfg.n && (cfg.policy.Some? ==> m.qFinite)
    ensures Good(cfg, TakeState(c, m)) && TakeState(c, m).life == c.life
  {
    hide Watch, Accepted, After, SettlesAt, Hull, Record;
    if c.life.armed && m.qFinite {
      RecordRemembers(cfg.n, c.rest, Watch(c.trace).episode, m.q);
      assert m.q in Watch(c.trace).episode.seen + [m.q];
      Logs(cfg, c.(sense := c.sense.(state := m), rest := Record(c.rest, m.q)), Saw(m.q));
    }
  }

  lemma OnStateKeeps(cfg: Config, c: Ctl, m: Measured, w: World, t: Time)
    requires ValidConfig(cfg) && Good(cfg, c) && |m.q| == cfg.n
    ensures Good(cfg, OnState(cfg, c, m, w, t))
  {
    hide Watch, Accepted, After, SettlesAt, Remembers, Stream, TakeState, PauseObservation;
    var c1 := c.(sense := c.sense.(at := Some(t.now)));
    assert Good(cfg, c1);
    if !c1.life.stopped {
      var c2 := if cfg.statePeriod.None? then c1
                else c1.(sense := c1.sense.(plantT := c1.sense.plantT + cfg.statePeriod.value));
      assert Good(cfg, c2);
      if cfg.policy.None? {
        TakeKeeps(cfg, c2, m);
        StreamKeeps(cfg, TakeState(c2, m), w, t);
      } else if !Finite(m) {
        PauseKeeps(cfg, c2.(sense := c2.sense.(at := None)), false);
      } else {
        PauseKeeps(cfg, c2, true);
        TakeKeeps(cfg, PauseObservation(cfg, c2, true), m);
        TakeKeeps(cfg, c2, m);
      }
    }
  }

  lemma OnTickKeeps(cfg: Config, c: Ctl, w: World, t: Time)
    requires ValidConfig(cfg) && Good(cfg, c)
    ensures Good(cfg, OnTick(cfg, c, w, t))
  {
    hide Watch, Accepted, After, SettlesAt, Remembers, Stream, PauseObservation, ObservationError;
    if cfg.policy.Some? && !c.life.stopped {
      PauseKeeps(cfg, c, false);
      StreamKeeps(cfg, c.(sense := c.sense.(paused := false)), w, t);
    }
  }

  // ---- every run ------------------------------------------------------------------------------

  /** The wire decoder refuses a motor state of another width. */
  predicate Decoded(cfg: Config, i: Input) {
    i.StateInput? ==> |i.m.q| == cfg.n
  }

  lemma StepKeeps(cfg: Config, c: Ctl, i: Input)
    requires ValidConfig(cfg) && Good(cfg, c) && Decoded(cfg, i)
    ensures Good(cfg, Step(cfg, c, i))
  {
    hide Watch, Accepted, After, SettlesAt, Remembers, OnPlan, OnControl, Release, OnJog, ClearJog, OnHealth, OnState,
      OnTick;
    match i
    case PlanInput(plan, malformed, flawed, t) => OnPlanKeeps(cfg, c, plan, malformed, flawed, t);
    case ControlInput(u, t) => OnControlKeeps(cfg, c, u, t);
    case ReleaseInput(id, start, t) => ReleaseKeeps(cfg, c, id, start, t);
    case JogInput(q, t) => OnJogKeeps(cfg, c, q, t.now);
    case ClearJogInput => OnJogKeeps(cfg, c, [], 0.0);
    case HealthInput(h, t) => OnHealthKeeps(cfg, c, h, t.now);
    case StateInput(m, w, t) => OnStateKeeps(cfg, c, m, w, t);
    case TickInput(w, t) => OnTickKeeps(cfg, c, w, t);
    case SentInput(id, q, at) =>
  }

  /** Whatever events arrive, in whatever order: the trace stays within what the monitor allows, the motion sources
      exclude each other, and what runs is the loaded plan. */
  lemma {:induction false} EveryRunIsGood(cfg: Config, inputs: seq<Input>)
    requires ValidConfig(cfg) && forall k :: 0 <= k < |inputs| ==> Decoded(cfg, inputs[k])
    ensures Good(cfg, Run(cfg, inputs))
  {
    if inputs != [] {
      EveryRunIsGood(cfg, inputs[..|inputs| - 1]);
      StepKeeps(cfg, Run(cfg, inputs[..|inputs| - 1]), inputs[|inputs| - 1]);
    }
  }
}
