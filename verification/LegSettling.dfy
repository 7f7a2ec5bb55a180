/** `control/leg_settling.py`: a leg has settled once fresh samples have called it done for a dwell, and has
    failed once a timeout passes without that. */
module LegSettling {
  import opened Wrappers
  import opened Reals

  const REPORT_PERIOD_S := 0.25

  datatype State = Settling | Settled | TimedOut

  datatype Verdict = Verdict(state: State, elapsed: real, remaining: real)

  datatype Clocks = Clocks(legEnd: Option<real>, settledSince: Option<real>, reportAt: Option<real>)

  datatype Limits = Limits(timeout: real, dwell: real)

  /** One poll. `done` is the executor's answer, asked for only about a fresh sample. */
  datatype Sample = Sample(now: real, newSample: bool, done: bool, ended: bool)

  predicate ValidLimits(l: Limits) {
    0.0 <= l.dwell < l.timeout
  }

  function Begun(legEnd: Option<real>): Clocks {
    Clocks(legEnd, None, None)
  }

  /** The leg end known once this poll is in. */
  function EndAt(c: Clocks, x: Sample): Option<real> {
    if c.legEnd.None? && x.ended then Some(x.now) else c.legEnd
  }

  function Since(since: Option<real>, x: Sample): Option<real> {
    if !x.newSample then since
    else if !x.done then None
    else if since.None? then Some(x.now)
    else since
  }

  function Polled(c: Clocks, x: Sample): Clocks {
    var end := EndAt(c, x);
    if end.None? || x.now < end.value then c.(legEnd := end)
    else c.(legEnd := end, settledSince := Since(c.settledSince, x))
  }

  function Judge(l: Limits, c: Clocks, x: Sample): Option<Verdict> {
    var c' := Polled(c, x);
    if c'.legEnd.None? || x.now < c'.legEnd.value then None
    else
      var elapsed := Max(0.0, x.now - c'.legEnd.value);
      var remaining := Max(0.0, l.timeout - elapsed);
      if x.newSample && c'.settledSince.Some? && x.now - c'.settledSince.value >= l.dwell && elapsed <= l.timeout then
        Some(Verdict(Settled, elapsed, remaining))
      else if elapsed >= l.timeout then Some(Verdict(TimedOut, elapsed, remaining))
      else Some(Verdict(Settling, elapsed, remaining))
  }

  predicate Due(c: Clocks, now: real) {
    c.reportAt.None? || now - c.reportAt.value >= REPORT_PERIOD_S
  }

  // ---- every run of one leg -------------------------------------------------------------------

  function After(begun: Option<real>, polls: seq<Sample>): Clocks {
    if polls == [] then Begun(begun) else Polled(After(begun, polls[..|polls| - 1]), polls[|polls| - 1])
  }

  /** When the leg ended: as told, or at the first poll that found its reference ended. */
  function LegEnd(begun: Option<real>, polls: seq<Sample>): Option<real> {
    if begun.Some? || polls == [] then begun
    else
      var before := LegEnd(begun, polls[..|polls| - 1]);
      if before.Some? then before
      else if polls[|polls| - 1].ended then Some(polls[|polls| - 1].now)
      else None
  }

  ghost predicate Chronological(polls: seq<Sample>) {
    forall i, j :: 0 <= i <= j < |polls| ==> polls[i].now <= polls[j].now
  }

  /** The leg is known to have ended at poll `i`, a fresh sample after that end, and from it on every fresh sample
      has called the leg done. */
  ghost predicate DoneSince(begun: Option<real>, polls: seq<Sample>, i: nat) {
    && i < |polls| && polls[i].newSample
    && LegEnd(begun, polls[..i + 1]).Some? && polls[i].now >= LegEnd(begun, polls[..i + 1]).value
    && forall k :: i <= k < |polls| && polls[k].newSample ==> polls[k].done
  }

  ghost predicate StartsRun(begun: Option<real>, polls: seq<Sample>, since: real) {
    exists i: nat :: DoneSince(begun, polls, i) && polls[i].now == since
  }

  /** `settledSince` is the start of the longest unbroken run of done samples up to now. */
  ghost predicate Tracks(begun: Option<real>, polls: seq<Sample>, since: Option<real>) {
    && (since.Some? ==> StartsRun(begun, polls, since.value))
    && (forall i: nat :: DoneSince(begun, polls, i) ==> since.Some? && since.value <= polls[i].now)
  }

  lemma {:induction false} LegEndIsKept(begun: Option<real>, polls: seq<Sample>, j: nat)
    requires j <= |polls| && LegEnd(begun, polls[..j]).Some?
    ensures LegEnd(begun, polls) == LegEnd(begun, polls[..j])
  {
    if j == |polls| {
      assert polls[..j] == polls;
    } else {
      assert polls[..|polls| - 1][..j] == polls[..j];
      LegEndIsKept(begun, polls[..|polls| - 1], j);
      if begun.Some? {
      }
    }
  }

  lemma DoneSinceExtends(begun: Option<real>, before: seq<Sample>, x: Sample, i: nat)
    requires i < |before|
    ensures DoneSince(begun, before + [x], i) <==> DoneSince(begun, before, i) && (x.newSample ==> x.done)
  {
    var polls := before + [x];
    assert polls[..i + 1] == before[..i + 1];
    assert polls[|before|] == x;
    if DoneSince(begun, polls, i) {
      assert forall k :: 0 <= k < |before| ==> polls[k] == before[k];
    }
  }

  lemma {:induction false} EndTracks(begun: Option<real>, polls: seq<Sample>)
    ensures After(begun, polls).legEnd == LegEnd(begun, polls)
  {
    if polls != [] {
      EndTracks(begun, polls[..|polls| - 1]);
      if begun.Some? && |polls| > 1 {
        LegEndIsKept(begun, polls[..|polls| - 1], 0);
      }
    }
  }

  /** One more poll keeps `Tracks`; `end` is the leg end known with it. */
  lemma StepTracks(begun: Option<real>, before: seq<Sample>, x: Sample, since: Option<real>, end: Option<real>)
    requires Chronological(before + [x])
    requires Tracks(begun, before, since) && LegEnd(begun, before + [x]) == end
    ensures Tracks(begun, before + [x],
                   if end.None? || x.now < end.value then since else Since(since, x))
  {
    hide LegEnd;
    var polls, n := before + [x], |before|;
    var since' := if end.None? || x.now < end.value then since else Since(since, x);
    assert polls[..n + 1] == polls && polls[n] == x;
    forall i: nat | i < n
      ensures DoneSince(begun, polls, i) <==> DoneSince(begun, before, i) && (x.newSample ==> x.done)
      ensures DoneSince(begun, before, i) ==> end == LegEnd(begun, before[..i + 1]) && end.value <= x.now
    {
      DoneSinceExtends(begun, before, x, i);
      assert polls[..i + 1] == before[..i + 1];
      if DoneSince(begun, before, i) {
        LegEndIsKept(begun, polls, i + 1);
        assert polls[i].now <= polls[n].now;
      }
    }
    if since'.Some? {
      if since' == since {
        var i: nat :| DoneSince(begun, before, i) && before[i].now == since.value;
        assert DoneSince(begun, polls, i) && polls[i].now == since.value;
      } else {
        assert DoneSince(begun, polls, n);
      }
    }
    forall i: nat | DoneSince(begun, polls, i)
      ensures since'.Some? && since'.value <= polls[i].now
    {
      if i == n && since.Some? {
        var j: nat :| DoneSince(begun, before, j) && before[j].now == since.value;
        assert polls[j].now <= polls[n].now;
      }
    }
  }

  lemma {:induction false} ClocksTrack(begun: Option<real>, polls: seq<Sample>)
    requires Chronological(polls)
    ensures Tracks(begun, polls, After(begun, polls).settledSince)
  {
    if polls != [] {
      var before, x := polls[..|polls| - 1], polls[|polls| - 1];
      assert polls == before + [x];
      ClocksTrack(begun, before);
      EndTracks(begun, before);
      EndTracks(begun, polls);
      StepTracks(begun, before, x, After(begun, before).settledSince, LegEnd(begun, polls));
    }
  }

  /** A poll finds the leg settled exactly when it brings a fresh sample, no later than the timeout, and a fresh
      sample at least the dwell earlier, after the leg's end, began an unbroken run of done samples. */
  lemma SettledExactly(l: Limits, begun: Option<real>, polls: seq<Sample>)
    requires ValidLimits(l) && polls != [] && Chronological(polls)
    ensures var n := |polls| - 1;
            var verdict, end := Judge(l, After(begun, polls[..n]), polls[n]), LegEnd(begun, polls);
            (verdict.Some? && verdict.value.state == Settled)
            <==> end.Some? && polls[n].newSample && polls[n].now - end.value <= l.timeout
                 && exists i: nat :: DoneSince(begun, polls, i) && polls[n].now - polls[i].now >= l.dwell
  {
    var n := |polls| - 1;
    ClocksTrack(begun, polls);
    EndTracks(begun, polls);
    forall i: nat | DoneSince(begun, polls, i)
      ensures LegEnd(begun, polls).Some? && LegEnd(begun, polls).value <= polls[n].now
    {
      LegEndIsKept(begun, polls, i + 1);
      assert polls[i].now <= polls[n].now;
    }
    assert After(begun, polls) == Polled(After(begun, polls[..n]), polls[n]);
  }

  /** Once a poll comes past the timeout, that one and every later one times the leg out, whatever the samples say; and
      every poll from the timeout on finishes it. */
  lemma TimeoutIsFinal(l: Limits, begun: Option<real>, polls: seq<Sample>, i: nat, k: nat)
    requires ValidLimits(l) && Chronological(polls) && i <= k < |polls|
    requires LegEnd(begun, polls[..i + 1]).Some? && polls[i].now - LegEnd(begun, polls[..i + 1]).value >= l.timeout
    ensures var verdict := Judge(l, After(begun, polls[..k]), polls[k]);
            && verdict.Some? && verdict.value.state != Settling
            && (polls[i].now - LegEnd(begun, polls[..i + 1]).value > l.timeout ==> verdict.value.state == TimedOut)
  {
    hide LegEnd, After;
    assert polls[..k + 1][..i + 1] == polls[..i + 1] && polls[..k + 1][..k] == polls[..k];
    LegEndIsKept(begun, polls[..k + 1], i + 1);
    EndTracks(begun, polls[..k + 1]);
    AfterNext(begun, polls[..k + 1]);
    assert polls[i].now <= polls[k].now;
  }

  lemma AfterNext(begun: Option<real>, polls: seq<Sample>)
    requires polls != []
    ensures After(begun, polls) == Polled(After(begun, polls[..|polls| - 1]), polls[|polls| - 1])
  {
  }

  class Settler {
    const limits: Limits
    var legEnd: Option<real>
    var settledSince: Option<real>
    var reportAt: Option<real>

    function Value(): Clocks
      reads this
    {
      Clocks(legEnd, settledSince, reportAt)
    }

    constructor (limits: Limits)
      requires ValidLimits(limits)
      ensures this.limits == limits && Value() == Begun(Some(0.0))
    {
      this.limits := limits;
      legEnd, settledSince, reportAt := Some(0.0), None, None;
    }

    method Begin(legEnd: Option<real>)
      modifies this
      ensures Value() == Begun(legEnd)
    {
      this.legEnd := legEnd;
      settledSince, reportAt := None, None;
    }

    method Poll(x: Sample) returns (verdict: Option<Verdict>)
      modifies this`legEnd, this`settledSince
      ensures Value() == Polled(old(Value()), x)
      ensures verdict == Judge(limits, old(Value()), x)
    {
      if legEnd.None? {
        if !x.ended {
          return None;
        }
        legEnd := Some(x.now);
      }
      if x.now < legEnd.value {
        return None;
      }
      if x.newSample {
        if x.done {
          if settledSince.None? {
            settledSince := Some(x.now);
          }
        } else {
          settledSince := None;
        }
      }
      var elapsed := Max(0.0, x.now - legEnd.value);
      var remaining := Max(0.0, limits.timeout - elapsed);
      if x.newSample && settledSince.Some? && x.now - settledSince.value >= limits.dwell && elapsed <= limits.timeout {
        return Some(Verdict(Settled, elapsed, remaining));
      }
      return Some(Verdict(if elapsed >= limits.timeout then TimedOut else Settling, elapsed, remaining));
    }

    method DueToReport(now: real) returns (due: bool)
      modifies this`reportAt
      ensures due == Due(old(Value()), now)
      ensures reportAt == if due then Some(now) else old(reportAt)
    {
      if reportAt.Some? && now - reportAt.value < REPORT_PERIOD_S {
        return false;
      }
      reportAt := Some(now);
      return true;
    }
  }
}
