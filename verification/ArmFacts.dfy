/** What an accepted trace means: facts about any two events of any run of the controller. */
module ArmFacts {
  import opened Wrappers
  import opened LegSettling
  import opened Arm
  import opened ArmTrace

  // ---- reading a trace at an index ------------------------------------------------------------

  lemma {:induction false} EachIsAllowed(cfg: Config, trace: seq<Event>, k: nat)
    requires Accepted(cfg, trace) && k < |trace|
    ensures Allowed(cfg, Watch(trace[..k]), trace[k])
    ensures Watch(trace[..k + 1]) == Advance(Watch(trace[..k]), trace[k])
  {
    hide Allowed, Advance;
    assert trace[..k + 1][..k] == trace[..k];
    if k < |trace| - 1 {
      var before := trace[..|trace| - 1];
      EachIsAllowed(cfg, before, k);
      assert before[..k] == trace[..k];
    }
  }

  lemma WatchStart(trace: seq<Event>)
    ensures Watch(trace[..0]) == IDLE
  {
    assert trace[..0] == [];
  }

  /** The leg in flight before event `l` is the one released at `k`: nothing between ended or replaced it. */
  ghost predicate InFlightSince(trace: seq<Event>, k: nat, l: nat) {
    && k < l <= |trace| && trace[k].Released?
    && forall i :: k < i < l ==> !EndsLeg(trace[i])
  }

  predicate EndsLeg(e: Event) {
    e.Staged? || e.Released? || e.Result? || e.Cancelled? || e.Held?
  }

  /** The plan loaded before event `l` is the one staged at `k`: no other was staged since and it has no result yet. */
  ghost predicate LoadedSince(trace: seq<Event>, k: nat, l: nat) {
    && k < l <= |trace| && trace[k].Staged?
    && forall i :: k < i < l ==> !trace[i].Staged? && !trace[i].Result? && !trace[i].Cancelled?
  }

  lemma {:induction false} LoadedIsStaged(cfg: Config, trace: seq<Event>, l: nat) returns (k: nat)
    requires Accepted(cfg, trace) && l <= |trace| && Watch(trace[..l]).plan.Some?
    ensures LoadedSince(trace, k, l) && Watch(trace[..l]).plan == Some(trace[k].plan)
  {
    hide Allowed, Watch, Accepted;
    WatchStart(trace);
    EachIsAllowed(cfg, trace, l - 1);
    if trace[l - 1].Staged? {
      k := l - 1;
    } else {
      k := LoadedIsStaged(cfg, trace, l - 1);
    }
  }

  /** What the polls in a stretch of trace saw, in order. */
  function Judgements(trace: seq<Event>): seq<Sample> {
    if trace == [] then []
    else
      var e := trace[|trace| - 1];
      Judgements(trace[..|trace| - 1]) + if e.Judged? then [e.sample] else []
  }

  /** An event after which a leg is in flight started it, or left it as it was. */
  lemma LeavesInFlight(cfg: Config, m: Monitor, e: Event)
    requires Allowed(cfg, m, e) && Advance(m, e).start.Some? && !e.Released?
    ensures var m' := Advance(m, e);
            && m'.start == m.start && m'.plan == m.plan && !EndsLeg(e)
            && m'.polls == m.polls + if e.Judged? then [e.sample] else []
  {
    hide WordAllowed, SettlesAt;
  }

  lemma Starts(cfg: Config, m: Monitor, e: Event)
    requires Allowed(cfg, m, e) && e.Released?
    ensures var m' := Advance(m, e); m'.start == Some(e.start) && m'.plan == Some(e.plan) && m'.polls == []
  {
  }

  lemma {:induction false} StartedIsReleased(cfg: Config, trace: seq<Event>, l: nat) returns (k: nat)
    requires Accepted(cfg, trace) && l <= |trace| && Watch(trace[..l]).start.Some?
    ensures InFlightSince(trace, k, l)
    ensures Watch(trace[..l]).start == Some(trace[k].start) && Watch(trace[..l]).plan == Some(trace[k].plan)
    ensures Watch(trace[..l]).polls == Judgements(trace[k + 1..l])
  {
    hide Allowed, Advance, Watch, Accepted;
    WatchStart(trace);
    EachIsAllowed(cfg, trace, l - 1);
    if trace[l - 1].Released? {
      Starts(cfg, Watch(trace[..l - 1]), trace[l - 1]);
      k := l - 1;
    } else {
      LeavesInFlight(cfg, Watch(trace[..l - 1]), trace[l - 1]);
      k := StartedIsReleased(cfg, trace, l - 1);
      assert trace[k + 1..l][..l - k - 2] == trace[k + 1..l - 1];
    }
  }

  // ---- only named, staged plans run -----------------------------------------------------------

  /** What is released is the plan staged last, and it had no result and was not cancelled since. */
  lemma ReleasesTheStagedPlan(cfg: Config, trace: seq<Event>, l: nat) returns (k: nat)
    requires Accepted(cfg, trace) && l < |trace| && trace[l].Released?
    ensures LoadedSince(trace, k, l) && trace[k].plan == trace[l].plan
  {
    EachIsAllowed(cfg, trace, l);
    k := LoadedIsStaged(cfg, trace, l);
  }

  /** A word of a leg samples the released plan's own trajectory, as far in as its time is from the start, and carries
      that plan's Cartesian spec; any other word carries none. */
  lemma WordsFollowTheRelease(cfg: Config, trace: seq<Event>, l: nat) returns (k: nat)
    requires Accepted(cfg, trace) && l < |trace| && trace[l].Word? && trace[l].law.LegLaw?
    ensures InFlightSince(trace, k, l) && trace[l].soft.None?
    ensures trace[l].command == cfg.sample(trace[k].plan.trajectory, trace[l].law.at - trace[k].start)
    ensures trace[l].law.cartesian == trace[k].plan.cartesian
  {
    hide Within, Watch, Accepted;
    EachIsAllowed(cfg, trace, l);
    k := StartedIsReleased(cfg, trace, l);
  }

  /** When an event read the reference clock. */
  function TimeOf(e: Event): Option<real> {
    if e.Judged? then Some(e.sample.now)
    else if e.Word? && e.law.LegLaw? then Some(e.law.at)
    else None
  }

  /** That clock never ran backwards. */
  ghost predicate InOrder(trace: seq<Event>) {
    forall i, j :: 0 <= i <= j < |trace| && TimeOf(trace[i]).Some? && TimeOf(trace[j]).Some? ==>
      TimeOf(trace[i]).value <= TimeOf(trace[j]).value
  }

  lemma {:induction false} JudgementsAreOfTrace(trace: seq<Event>, i: nat)
    requires i < |Judgements(trace)|
    ensures exists k :: 0 <= k < |trace| && trace[k] == Judged(Judgements(trace)[i])
  {
    var before := trace[..|trace| - 1];
    if i < |Judgements(before)| {
      JudgementsAreOfTrace(before, i);
      var k :| 0 <= k < |before| && before[k] == Judged(Judgements(before)[i]);
      assert trace[k] == before[k];
    } else {
      assert trace[|trace| - 1] == Judged(Judgements(trace)[i]);
    }
  }

  lemma {:induction false} JudgementsInOrder(trace: seq<Event>)
    requires InOrder(trace)
    ensures Chronological(Judgements(trace))
  {
    if trace != [] {
      var n := |trace| - 1;
      var before := trace[..n];
      assert InOrder(before) by {
        assert forall k :: 0 <= k < n ==> before[k] == trace[k];
      }
      JudgementsInOrder(before);
      if trace[n].Judged? {
        forall i | 0 <= i < |Judgements(before)| ensures Judgements(before)[i].now <= trace[n].sample.now {
          JudgementsAreOfTrace(before, i);
          var k :| 0 <= k < |before| && before[k] == Judged(Judgements(before)[i]);
          assert TimeOf(trace[k]) == Some(Judgements(before)[i].now);
        }
      }
    }
  }

  lemma EndIsGiven(end: real, polls: seq<Sample>)
    ensures LegEnd(Some(end), polls) == Some(end)
  {
  }

  /** A run of done samples, longer than the dwell, from after the leg's end to a fresh sample in time. */
  ghost predicate Earned(l: Limits, end: real, polls: seq<Sample>, at: real) {
    && polls != [] && polls[|polls| - 1].now == at && polls[|polls| - 1].newSample && at <= end + l.timeout
    && exists i: nat :: DoneSince(Some(end), polls, i) && end <= polls[i].now <= at - l.dwell
  }

  lemma SettlingIsEarned(l: Limits, end: real, polls: seq<Sample>, at: real)
    requires ValidLimits(l) && Chronological(polls) && SettlesAt(l, Some(end), polls, at)
    ensures Earned(l, end, polls, at)
  {
    hide After, Judge;
    SettledExactly(l, Some(end), polls);
    EndIsGiven(end, polls);
    var i: nat :| DoneSince(Some(end), polls, i) && at - polls[i].now >= l.dwell;
    EndIsGiven(end, polls[..i + 1]);
  }

  /** A success names the plan that was released, nothing since having ended or replaced it, and rests on what the polls
      since then saw: within the timeout a fresh sample, and a fresh sample at least the dwell before it and after the
      trajectory's end, from which on every fresh sample called the leg done. */
  lemma SuccessIsEarned(cfg: Config, trace: seq<Event>, l: nat) returns (k: nat)
    requires ValidConfig(cfg) && Accepted(cfg, trace) && InOrder(trace)
    requires l < |trace| && trace[l].Result? && trace[l].settled.Some?
    ensures InFlightSince(trace, k, l) && trace[l].id == trace[k].plan.id
    ensures Earned(cfg.settling, trace[k].start + trace[k].plan.trajectory.duration, Judgements(trace[k + 1..l]),
                   trace[l].settled.value)
  {
    hide Watch, Accepted, SettlesAt, Earned, Within;
    EachIsAllowed(cfg, trace, l);
    k := StartedIsReleased(cfg, trace, l);
    var part := trace[k + 1..l];
    assert InOrder(part) by {
      assert forall i :: 0 <= i < |part| ==> part[i] == trace[k + 1 + i];
    }
    JudgementsInOrder(part);
    SettlingIsEarned(cfg.settling, trace[k].start + trace[k].plan.trajectory.duration, Judgements(part),
                     trace[l].settled.value);
  }

  /** A result bears the id of the plan staged last, and no staging has two results. */
  lemma OneResultPerStaging(cfg: Config, trace: seq<Event>, l: nat) returns (k: nat)
    requires Accepted(cfg, trace) && l < |trace| && trace[l].Result?
    ensures LoadedSince(trace, k, l) && trace[k].plan.id == trace[l].id
    ensures forall i :: 0 <= i < l && trace[i].Result? ==> i < k
  {
    EachIsAllowed(cfg, trace, l);
    k := LoadedIsStaged(cfg, trace, l);
  }

  /** What cannot happen while a leg is in flight. */
  predicate NeedsNoLeg(e: Event) {
    e.Staged? || e.Released? || e.Cancelled? || e.Fault? || (e.Armed? && !e.on) || (e.Word? && e.law.HoldLaw?)
  }

  lemma {:induction false} StaysInFlight(cfg: Config, trace: seq<Event>, k: nat, l: nat)
    requires Accepted(cfg, trace) && k < l <= |trace| && trace[k].Released?
    requires forall i :: k < i < l ==> !trace[i].Result? && !trace[i].Held?
    ensures Watch(trace[..l]).start.Some? && Watch(trace[..l]).armed && !Watch(trace[..l]).faulted
    ensures forall i :: k < i < l ==> !NeedsNoLeg(trace[i])
    decreases l
  {
    hide Within, Watch, Accepted;
    EachIsAllowed(cfg, trace, l - 1);
    if l - 1 > k {
      StaysInFlight(cfg, trace, k, l - 1);
    }
  }

  /** A released leg ends in exactly one result, unless a `hold` dropped it: before another plan is staged or
      released, before a cancel, a disarm, a fault or a hold word is over, the result or the hold is there. */
  lemma EveryReleaseEnds(cfg: Config, trace: seq<Event>, k: nat, l: nat)
    requires Accepted(cfg, trace) && k < l < |trace| && trace[k].Released? && NeedsNoLeg(trace[l])
    ensures exists i :: k < i < l && (trace[i].Result? || trace[i].Held?)
  {
    if forall i :: k < i < l ==> !trace[i].Result? && !trace[i].Held? {
      StaysInFlight(cfg, trace, k, l);
      EachIsAllowed(cfg, trace, l);
    }
  }

  // ---- authority ------------------------------------------------------------------------------

  lemma {:induction false} FaultStays(cfg: Config, trace: seq<Event>, k: nat, l: nat)
    requires Accepted(cfg, trace) && k < l <= |trace| && trace[k].Fault?
    ensures Watch(trace[..l]).faulted
    decreases l
  {
    hide Allowed, Watch, Accepted;
    EachIsAllowed(cfg, trace, l - 1);
    if l - 1 > k {
      FaultStays(cfg, trace, k, l - 1);
    }
  }

  /** After a stop nothing is ever commanded, staged or released again, whatever is armed later. */
  lemma NothingAfterFault(cfg: Config, trace: seq<Event>, k: nat, l: nat)
    requires Accepted(cfg, trace) && k < l < |trace| && trace[k].Fault?
    ensures !trace[l].Word? && !trace[l].Ready? && !trace[l].Staged? && !trace[l].Released? && !trace[l].Fault?
  {
    hide Within, Watch, Accepted;
    FaultStays(cfg, trace, k, l);
    EachIsAllowed(cfg, trace, l);
  }

  /** The ARM at `a` is the last edge before event `l`. */
  ghost predicate ArmedAt(trace: seq<Event>, a: nat, l: nat) {
    && a < l <= |trace| && trace[a].Armed? && trace[a].on
    && forall i :: a < i < l && trace[i].Armed? ==> trace[i].on
  }

  lemma {:induction false} ArmedSince(cfg: Config, trace: seq<Event>, l: nat) returns (a: nat)
    requires Accepted(cfg, trace) && l <= |trace| && Watch(trace[..l]).armed
    ensures ArmedAt(trace, a, l)
  {
    hide Allowed, Watch, Accepted;
    WatchStart(trace);
    EachIsAllowed(cfg, trace, l - 1);
    if Watch(trace[..l - 1]).armed {
      a := ArmedSince(cfg, trace, l - 1);
    } else {
      a := l - 1;
    }
  }

  /** The ready at `r` still stands before event `l`: since then neither authority nor the observation was lost. */
  ghost predicate ReadyAt(trace: seq<Event>, r: nat, l: nat) {
    && r < l <= |trace| && trace[r].Ready?
    && forall i :: r < i < l ==> !trace[i].Paused? && (trace[i].Armed? ==> trace[i].on)
  }

  lemma {:induction false} ReadySince(cfg: Config, trace: seq<Event>, l: nat) returns (a: nat, r: nat)
    requires Accepted(cfg, trace) && l <= |trace| && Watch(trace[..l]).ready
    ensures ArmedAt(trace, a, l) && a < r && ReadyAt(trace, r, l) && Watch(trace[..l]).armed
  {
    hide WordAllowed, SettlesAt, Watch, Accepted;
    WatchStart(trace);
    EachIsAllowed(cfg, trace, l - 1);
    if Watch(trace[..l - 1]).ready {
      a, r := ReadySince(cfg, trace, l - 1);
    } else {
      r := l - 1;
      a := ArmedSince(cfg, trace, l - 1);
    }
  }

  /** Every word has a ready of its own, since the last ARM that was not undone and since the last pause of the
      observation. */
  lemma WordsNeedAuthority(cfg: Config, trace: seq<Event>, l: nat) returns (a: nat, r: nat)
    requires Accepted(cfg, trace) && l < |trace| && trace[l].Word?
    ensures ArmedAt(trace, a, l) && a < r && ReadyAt(trace, r, l)
  {
    hide Within, Watch, Accepted;
    EachIsAllowed(cfg, trace, l);
    a, r := ReadySince(cfg, trace, l);
  }

  // ---- the position band ----------------------------------------------------------------------

  /** Later in the same armed episode: the band has only widened. */
  ghost predicate Widened(e: Episode, later: Episode) {
    && (e.rest.Some? ==> e.fixed && later.fixed && later.rest == e.rest)
    && |e.seen| <= |later.seen| && later.seen[..|e.seen|] == e.seen
  }

  lemma WidenedKeepsWithin(bounds: (Pose, Pose), e: Episode, later: Episode, q: Pose)
    requires Within(bounds, e, q) && Widened(e, later)
    ensures Within(bounds, later, q)
  {
    assert forall k :: 0 <= k < |e.seen| ==> e.seen[k] == later.seen[k];
  }

  /** One event of the same episode. */
  lemma StepWidens(m: Monitor, e: Event, first: Episode)
    requires m.armed && Widened(first, m.episode) && (e.Armed? ==> e.on)
    ensures Advance(m, e).armed && Widened(first, Advance(m, e).episode)
  {
  }

  lemma {:induction false} EpisodeWidens(cfg: Config, trace: seq<Event>, k: nat, l: nat)
    requires cfg.policy.Some? && Accepted(cfg, trace) && k < l <= |trace| && trace[k].Word?
    requires forall i :: k < i < l && trace[i].Armed? ==> trace[i].on
    ensures Watch(trace[..l]).armed && Widened(Watch(trace[..k]).episode, Watch(trace[..l]).episode)
    decreases l
  {
    hide Within, Watch, Accepted, Advance;
    EachIsAllowed(cfg, trace, l - 1);
    if l - 1 > k {
      EpisodeWidens(cfg, trace, k, l - 1);
    }
    StepWidens(Watch(trace[..l - 1]), trace[l - 1], Watch(trace[..k]).episode);
  }

  /** Every word of an armed episode lies in the band as it stands at any later time of that episode: on a side where
      the arm rested inside, the configured limit; on a side it rested past, the outermost pose measured since ARM. */
  lemma EpisodeStaysInBand(cfg: Config, trace: seq<Event>, k: nat, l: nat)
    requires cfg.policy.Some? && cfg.policy.value.bounds.Some?
    requires Accepted(cfg, trace) && k < l <= |trace| && trace[k].Word?
    requires forall i :: k < i < l && trace[i].Armed? ==> trace[i].on
    ensures Within(cfg.policy.value.bounds.value, Watch(trace[..l]).episode, trace[k].command.q)
  {
    hide Within, Watch, Accepted;
    EachIsAllowed(cfg, trace, k);
    EpisodeWidens(cfg, trace, k, l);
    WidenedKeepsWithin(cfg.policy.value.bounds.value, Watch(trace[..k]).episode, Watch(trace[..l]).episode,
                       trace[k].command.q);
  }

  /** Past the limit, but on the side the arm rested past, joint by joint. */
  ghost predicate OnItsStop(bounds: (Pose, Pose), rest: Pose, q: Pose) {
    && |rest| == |q| == |bounds.0| == |bounds.1|
    && forall j :: 0 <= j < |q| ==>
         && (bounds.0[j] - ENVELOPE_TOL <= q[j] || rest[j] < bounds.0[j])
         && (q[j] <= bounds.1[j] + ENVELOPE_TOL || bounds.1[j] < rest[j])
  }

  lemma HullHolds(n: nat, rest: Rest, e: Episode, q: Pose, j: nat)
    requires Remembers(n, rest, e) && q in e.seen && j < n
    ensures |q| == n && rest.been.Some? && rest.been.value.0[j] <= q[j] <= rest.been.value.1[j]
  {
    var k :| 0 <= k < |e.seen| && e.seen[k] == q;
    assert rest.been.value.0[j] <= e.seen[k][j];
  }

  /** The band, joint by joint: the limit, or the outermost pose on the side it rested past. */
  lemma BandAt(n: nat, bounds: (Pose, Pose), rest: Rest, e: Episode, j: nat)
    requires Remembers(n, rest, e) && Ordered(bounds) && |bounds.0| == n && j < n && rest.pose.Some?
    ensures rest.been.Some? && |rest.been.value.0| == |rest.been.value.1| == |rest.pose.value| == n
    ensures var band := Envelope(bounds, WhereBeen(bounds, true, rest));
            && |band.0| == |band.1| == n
            && band.0[j] == (if rest.pose.value[j] < bounds.0[j] then rest.been.value.0[j] else bounds.0[j])
            && band.1[j] == if rest.pose.value[j] > bounds.1[j] then rest.been.value.1[j] else bounds.1[j]
  {
    HullHolds(n, rest, e, rest.pose.value, j);
    assert bounds.0[j] < bounds.1[j];
  }

  lemma BandSized(n: nat, bounds: (Pose, Pose), rest: Rest)
    requires |bounds.0| == |bounds.1| == n
    ensures var band := Envelope(bounds, WhereBeen(bounds, true, rest)); |band.0| == |band.1| == n
  {
  }

  /** At any moment of any run, the hold at the measured pose passes the band exactly when each joint is inside its
      limits or past the one it rested past: re-anchoring on a stop cannot fault, and an excursion grants nothing. */
  lemma MeasuredHoldPasses(cfg: Config, c: Ctl)
    requires ValidConfig(cfg) && Good(cfg, c) && c.life.armed && c.rest.pose.Some?
    requires cfg.policy.Some? && cfg.policy.value.bounds.Some?
    ensures var bounds := cfg.policy.value.bounds.value;
            InBand(StaticHold(c).q, Envelope(bounds, WhereBeen(bounds, true, c.rest)))
            <==> OnItsStop(bounds, c.rest.pose.value, c.sense.state.q)
  {
    hide Watch, Accepted, Hull, Exclusive, Faithful, Latched, Follows, Envelope;
    var bounds, q, rest := cfg.policy.value.bounds.value, c.sense.state.q, c.rest.pose.value;
    var band := Envelope(bounds, WhereBeen(bounds, true, c.rest));
    BandSized(cfg.n, bounds, c.rest);
    forall j | 0 <= j < cfg.n
      ensures band.0[j] - ENVELOPE_TOL <= q[j] <==> bounds.0[j] - ENVELOPE_TOL <= q[j] || rest[j] < bounds.0[j]
      ensures q[j] <= band.1[j] + ENVELOPE_TOL <==> q[j] <= bounds.1[j] + ENVELOPE_TOL || bounds.1[j] < rest[j]
    {
      HullHolds(cfg.n, c.rest, Watch(c.trace).episode, q, j);
      BandAt(cfg.n, bounds, c.rest, Watch(c.trace).episode, j);
    }
  }
}
