/** `control/jog_hold.py`, the hold: a jog setpoint that dies unless it is renewed. */
module JogHold {
  import opened Wrappers

  /** The setpoint, when it was last renewed, and whether an expiry is still owed to whoever re-anchors the arm. */
  datatype State = State(q: Option<seq<real>>, at: real, expired: bool)

  datatype Event =
    | Set(q: seq<real>, now: real)
    | Clear
    | Target(now: real)
    | TakeExpired

  const START := State(None, 0.0, false)

  predicate Stale(s: State, timeout: real, now: real) {
    s.q.Some? && now - s.at > timeout
  }

  function Next(s: State, timeout: real, n: nat, e: Event): State {
    match e
    case Set(q, now) => if |q| == n then s.(q := Some(q), at := now) else s
    case Clear => s.(q := None, expired := false)
    case Target(now) => if Stale(s, timeout, now) then s.(q := None, expired := true) else s
    case TakeExpired => s.(expired := false)
  }

  function Run(timeout: real, n: nat, events: seq<Event>): State {
    if events == [] then START
    else Next(Run(timeout, n, events[..|events| - 1]), timeout, n, events[|events| - 1])
  }

  /** How often `TakeExpired` answered true. */
  function Expiries(timeout: real, n: nat, events: seq<Event>): nat {
    if events == [] then 0
    else
      var before := events[..|events| - 1];
      Expiries(timeout, n, before)
      + if events[|events| - 1].TakeExpired? && Run(timeout, n, before).expired then 1 else 0
  }

  function Renewals(n: nat, events: seq<Event>): nat {
    if events == [] then 0
    else
      var e := events[|events| - 1];
      Renewals(n, events[..|events| - 1]) + if e.Set? && |e.q| == n then 1 else 0
  }

  /** Each expiry reported is paid for by a renewal of its own, however often the hold is polled: silence is
      reported once. A live setpoint and an owed expiry are each worth one renewal not yet spent. */
  lemma {:induction false} ExpiresOncePerRenewal(timeout: real, n: nat, events: seq<Event>)
    ensures var s := Run(timeout, n, events);
            Expiries(timeout, n, events) + (if s.expired then 1 else 0) + (if s.q.Some? then 1 else 0)
            <= Renewals(n, events)
  {
    if events != [] {
      ExpiresOncePerRenewal(timeout, n, events[..|events| - 1]);
    }
  }

  /** Once a poll finds the setpoint stale, nothing but a renewal brings one back, whatever is polled, taken or cleared,
      and at most one expiry is reported of it. */
  lemma {:induction false} SilenceIsFinal(timeout: real, n: nat, events: seq<Event>, now: real, later: seq<Event>)
    requires Stale(Run(timeout, n, events), timeout, now)
    requires forall k :: 0 <= k < |later| ==> !later[k].Set?
    ensures var all := events + [Target(now)] + later;
            && Run(timeout, n, all).q.None?
            && Expiries(timeout, n, all) + (if Run(timeout, n, all).expired then 1 else 0)
               <= Expiries(timeout, n, events) + 1
    decreases |later|
  {
    var polled := events + [Target(now)];
    assert polled[..|events|] == events;
    if later == [] {
      assert polled + later == polled;
    } else {
      var m := |later| - 1;
      assert (polled + later)[..|polled| + m] == polled + later[..m];
      SilenceIsFinal(timeout, n, events, now, later[..m]);
    }
  }

  class Hold {
    const timeout: real
    const joints: nat
    var q: Option<seq<real>>
    var at: real
    var expired: bool

    function Value(): State
      reads this
    {
      State(q, at, expired)
    }

    constructor (timeout: real, joints: nat)
      requires timeout > 0.0
      ensures this.timeout == timeout && this.joints == joints && Value() == START
    {
      this.timeout, this.joints := timeout, joints;
      q, at, expired := None, 0.0, false;
    }

    method Set(q: seq<real>, now: real) returns (r: Result<(), string>)
      modifies this
      ensures r.Ok? <==> |q| == joints
      ensures Value() == Next(old(Value()), timeout, joints, Event.Set(q, now))
    {
      if |q| != joints {
        return Err("jog q has the wrong width");
      }
      this.q := Some(q);
      at := now;
      return Ok(());
    }

    method Clear()
      modifies this
      ensures Value() == Next(old(Value()), timeout, joints, Event.Clear)
    {
      q := None;
      expired := false;
    }

    method Target(now: real) returns (target: Option<seq<real>>)
      modifies this
      ensures Value() == Next(old(Value()), timeout, joints, Event.Target(now))
      ensures target == q
      ensures target.Some? ==> target == old(q) && now - at <= timeout
    {
      if q.None? {
        return None;
      }
      if now - at > timeout {
        q := None;
        expired := true;
        return None;
      }
      return q;
    }

    method TakeExpired() returns (was: bool)
      modifies this
      ensures Value() == Next(old(Value()), timeout, joints, Event.TakeExpired)
      ensures was == old(expired)
    {
      was, expired := expired, false;
    }
  }
}
