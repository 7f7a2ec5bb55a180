/** `end_effectors/franka_hand.py`, `HandGraspFsm`: a grasp or release request becomes a hand action, and its
    verdict a result under the request's id. */
module HandGrasp {
  import opened Wrappers
  import opened Reals

  const GRASP_TIMEOUT_S := 8.0

  /** A request; `admissible` is what the parameter checks say of it. */
  datatype Request = Request(id: nat, release: bool, width: real, admissible: bool)

  datatype Pending = Pending(id: nat, release: bool, width: real, deadline: real, base: nat)

  datatype Reading = Reading(measured: bool, busy: bool, sample: int, grasped: bool, width: real)

  /** The hand as polled: the latest reading, and the count, verdict and sample of the last finished action. */
  datatype View = View(reading: Option<Reading>, doneCount: nat, doneOk: bool, doneSample: int, now: real)

  datatype Outcome = Outcome(id: nat, ok: bool)

  datatype Fsm = Fsm(pending: Option<Pending>, held: Option<Pending>, seen: bool)

  const IDLE := Fsm(None, None, false)

  datatype Event =
    | Submit(request: Request, doneCount: nat, now: real)
    | Tick(view: View)
    | Abort(id: Option<nat>)

  function Watched(f: Fsm): Option<Pending> {
    if f.pending.Some? then f.pending else f.held
  }

  /** Resolve whatever is in flight or held as failed; with an id, only that request. */
  function Failed(f: Fsm, id: Option<nat>): (Fsm, Option<Outcome>) {
    var p := Watched(f);
    if id.Some? && (p.None? || p.value.id != id.value) then (f, None)
    else (f.(pending := None, held := None), if p.Some? then Some(Outcome(p.value.id, false)) else None)
  }

  function Requested(f: Fsm, measured: bool, r: Request, doneCount: nat, now: real): (Fsm, Option<Outcome>) {
    if !r.admissible then (f, Some(Outcome(r.id, false)))
    else if r.release && !measured then (f.(pending := None, held := None), Some(Outcome(r.id, true)))
    else (f.(pending := Some(Pending(r.id, r.release, r.width, now + GRASP_TIMEOUT_S, doneCount)), held := None), None)
  }

  /** A measured, idle reading newer than the verdict. */
  predicate Settled(x: View) {
    x.reading.Some? && x.reading.value.measured && !x.reading.value.busy && x.reading.value.sample > x.doneSample
  }

  predicate Confirms(p: Pending, r: Reading) {
    if p.release then !r.grasped && Abs(r.width - p.width) <= 0.001 else r.grasped
  }

  function PollMeasured(f: Fsm, p: Pending, x: View): (Fsm, Option<Outcome>) {
    if x.doneCount > p.base && !x.doneOk then Failed(f, None)
    else if x.doneCount > p.base && Settled(x) then
      if !Confirms(p, x.reading.value) then Failed(f, None)
      else if p.release then (f.(pending := None), Some(Outcome(p.id, true)))
      else (Fsm(None, Some(p), true), Some(Outcome(p.id, true)))
    else if x.now >= p.deadline then Failed(f, None)
    else (f, None)
  }

  /** `ok`: the object is held from here on; the drop is watched for once it has been seen held. */
  function Resolve(f: Fsm, p: Pending, ok: bool): (Fsm, Option<Outcome>) {
    (if ok then Fsm(None, Some(p), false) else f.(pending := None), Some(Outcome(p.id, ok)))
  }

  function PollUnmeasured(f: Fsm, p: Pending, x: View): (Fsm, Option<Outcome>) {
    if x.doneCount > p.base then Resolve(f, p, x.doneOk)
    else if x.now >= p.deadline then Resolve(f, p, x.reading.Some? && x.reading.value.grasped)
    else (f, None)
  }

  function PollHeld(f: Fsm, measured: bool, h: Pending, x: View): (Fsm, Option<Outcome>) {
    if x.reading.None? then (if measured then Failed(f, None) else (f, None))
    else if x.reading.value.grasped then (f.(seen := true), None)
    else if f.seen then (f.(held := None), Some(Outcome(h.id, false)))
    else (f, None)
  }

  function Polled(f: Fsm, measured: bool, x: View): (Fsm, Option<Outcome>) {
    if f.pending.Some? then
      if measured then PollMeasured(f, f.pending.value, x) else PollUnmeasured(f, f.pending.value, x)
    else if f.held.Some? then PollHeld(f, measured, f.held.value, x)
    else (f, None)
  }

  function Step(f: Fsm, measured: bool, e: Event): (Fsm, Option<Outcome>) {
    match e
    case Submit(r, doneCount, now) => Requested(f, measured, r, doneCount, now)
    case Tick(x) => Polled(f, measured, x)
    case Abort(id) => Failed(f, id)
  }

  // ---- every run ------------------------------------------------------------------------------

  function Run(measured: bool, events: seq<Event>): Fsm {
    if events == [] then IDLE
    else Step(Run(measured, events[..|events| - 1]), measured, events[|events| - 1]).0
  }

  /** What the requester of `id` has been told, in order. */
  function Told(measured: bool, events: seq<Event>, id: nat): seq<bool> {
    if events == [] then []
    else
      var before := events[..|events| - 1];
      var o := Step(Run(measured, before), measured, events[|events| - 1]).1;
      Told(measured, before, id) + Heard(o, id)
  }

  predicate Submitted(events: seq<Event>, id: nat) {
    exists i :: 0 <= i < |events| && events[i].Submit? && events[i].request.id == id
  }

  /** Each request has its own id, and none is submitted while one is pending. */
  ghost predicate Disciplined(measured: bool, events: seq<Event>) {
    forall i :: 0 <= i < |events| && events[i].Submit? ==>
      !Submitted(events[..i], events[i].request.id) && Run(measured, events[..i]).pending.None?
  }

  /** What a request has been told fits what is known of it. */
  predicate Fits(f: Fsm, told: seq<bool>, submitted: bool, id: nat) {
    && (told == [] || told == [false] || told == [true] || told == [true, false])
    && (f.pending.Some? ==> f.held.None?)
    && (!submitted ==> told == [])
    && (f.pending.Some? && f.pending.value.id == id ==> told == [] && submitted)
    && (f.held.Some? && f.held.value.id == id ==> told == [true] && submitted)
  }

  /** The answer to `id` in what a step says. */
  function Heard(o: Option<Outcome>, id: nat): seq<bool> {
    if o.Some? && o.value.id == id then [o.value.ok] else []
  }

  lemma SubmittedPrefix(events: seq<Event>, id: nat)
    requires events != []
    ensures var last, before := events[|events| - 1], events[..|events| - 1];
            Submitted(events, id) <==> Submitted(before, id) || (last.Submit? && last.request.id == id)
  {
    var last, before := events[|events| - 1], events[..|events| - 1];
    assert events == before + [last];
    if Submitted(before, id) {
      var i :| 0 <= i < |before| && before[i].Submit? && before[i].request.id == id;
      assert events[i] == before[i];
    }
    if last.Submit? && last.request.id == id {
      assert events[|events| - 1].Submit?;
    }
    if Submitted(events, id) && !(last.Submit? && last.request.id == id) {
      var i :| 0 <= i < |events| && events[i].Submit? && events[i].request.id == id;
      assert before[i] == events[i];
    }
  }

  lemma DisciplinedPrefix(measured: bool, events: seq<Event>)
    requires events != [] && Disciplined(measured, events)
    ensures Disciplined(measured, events[..|events| - 1])
  {
    var before := events[..|events| - 1];
    forall i | 0 <= i < |before| && before[i].Submit?
      ensures !Submitted(before[..i], before[i].request.id) && Run(measured, before[..i]).pending.None?
    {
      assert before[..i] == events[..i] && before[i] == events[i];
    }
  }

  lemma StepFits(f: Fsm, measured: bool, e: Event, told: seq<bool>, submitted: bool, id: nat)
    requires Fits(f, told, submitted, id)
    requires e.Submit? ==> f.pending.None? && (e.request.id == id ==> !submitted)
    ensures var (f', o) := Step(f, measured, e);
            Fits(f', told + Heard(o, id), submitted || (e.Submit? && e.request.id == id), id)
  {
    var (f', o) := Step(f, measured, e);
    assert told + [] == told;
  }

  /** Every request is told nothing, a failure, a success, or a success and then the loss of the object. */
  lemma {:induction false} ToldOnce(measured: bool, events: seq<Event>, id: nat)
    requires Disciplined(measured, events)
    ensures Fits(Run(measured, events), Told(measured, events, id), Submitted(events, id), id)
    ensures Told(measured, events, id) in {[], [false], [true], [true, false]}
  {
    if events != [] {
      var n := |events| - 1;
      DisciplinedPrefix(measured, events);
      ToldOnce(measured, events[..n], id);
      SubmittedPrefix(events, id);
      hide Step;
      StepFits(Run(measured, events[..n]), measured, events[n], Told(measured, events[..n], id),
               Submitted(events[..n], id), id);
    }
  }

  /** The request behind what is pending: submitted at `j`, with what was finished by then as its base. */
  ghost predicate Submits(events: seq<Event>, j: nat, p: Pending) {
    && j < |events| && events[j].Submit? && events[j].request.admissible && events[j].request.id == p.id
    && events[j].request.release == p.release && events[j].request.width == p.width && events[j].doneCount == p.base
  }

  lemma {:induction false} PendingIsSubmitted(measured: bool, events: seq<Event>) returns (j: nat)
    requires Run(measured, events).pending.Some?
    ensures Submits(events, j, Run(measured, events).pending.value)
  {
    var n := |events| - 1;
    var before := Run(measured, events[..n]);
    StepPends(before, measured, events[n]);
    if events[n].Submit? && Run(measured, events).pending != before.pending {
      j := n;
    } else {
      j := PendingIsSubmitted(measured, events[..n]);
    }
  }

  lemma StepPends(f: Fsm, measured: bool, e: Event)
    ensures var f' := Step(f, measured, e).0;
            f'.pending.Some? && f'.pending != f.pending ==> e.Submit? && Submits([e], 0, f'.pending.value)
  {
  }

  /** With measured completion, in every run, a success answers an admitted request still pending, and rests on an
      action that finished well after it was submitted and on a measured, idle reading newer than that verdict which
      shows the object held, or the jaws open at the width asked for. */
  lemma SuccessIsMeasured(events: seq<Event>, i: nat) returns (j: nat)
    requires i < |events|
    requires var o := Step(Run(true, events[..i]), true, events[i]).1; o.Some? && o.value.ok
    ensures j < i && events[j].Submit? && events[j].request.admissible && events[i].Tick?
    ensures Step(Run(true, events[..i]), true, events[i]).1.value.id == events[j].request.id
    ensures var r, x := events[j].request, events[i].view;
            && x.doneOk && x.doneCount > events[j].doneCount && Settled(x)
            && (if r.release then !x.reading.value.grasped && Abs(x.reading.value.width - r.width) <= 0.001
                else x.reading.value.grasped)
  {
    j := PendingIsSubmitted(true, events[..i]);
  }

  class HandGraspFsm {
    const measured: bool
    var pending: Option<Pending>
    var held: Option<Pending>
    var seen: bool

    function Value(): Fsm
      reads this
    {
      Fsm(pending, held, seen)
    }

    constructor (measured: bool)
      ensures this.measured == measured && Value() == IDLE
    {
      this.measured := measured;
      pending, held, seen := None, None, false;
    }

    method OnRequest(r: Request, doneCount: nat, now: real) returns (o: Option<Outcome>)
      modifies this
      ensures (Value(), o) == Requested(old(Value()), measured, r, doneCount, now)
    {
      if !r.admissible {
        return Some(Outcome(r.id, false));
      }
      if r.release && !measured {
        pending, held := None, None;
        return Some(Outcome(r.id, true));
      }
      pending := Some(Pending(r.id, r.release, r.width, now + GRASP_TIMEOUT_S, doneCount));
      held := None;
      return None;
    }

    method Fail(id: Option<nat>) returns (o: Option<Outcome>)
      modifies this
      ensures (Value(), o) == Failed(old(Value()), id)
    {
      var p := if pending.Some? then pending else held;
      if id.Some? && (p.None? || p.value.id != id.value) {
        return None;
      }
      pending, held := None, None;
      return if p.Some? then Some(Outcome(p.value.id, false)) else None;
    }

    method Poll(x: View) returns (o: Option<Outcome>)
      modifies this
      ensures (Value(), o) == Polled(old(Value()), measured, x)
    {
      if pending.Some? {
        var p := pending.value;
        if measured {
          if x.doneCount > p.base {
            if !x.doneOk {
              o := Fail(None);
              return;
            }
            if Settled(x) {
              if !Confirms(p, x.reading.value) {
                o := Fail(None);
                return;
              }
              pending := None;
              if !p.release {
                held, seen := Some(p), true;
              }
              return Some(Outcome(p.id, true));
            }
          }
          if x.now >= p.deadline {
            o := Fail(None);
            return;
          }
          return None;
        }
        if x.doneCount > p.base || x.now >= p.deadline {
          pending := None;
          var ok := if x.doneCount > p.base then x.doneOk else x.reading.Some? && x.reading.value.grasped;
          if ok {
            held, seen := Some(p), false;
          }
          return Some(Outcome(p.id, ok));
        }
        return None;
      }
      if held.Some? && measured && x.reading.None? {
        o := Fail(None);
        return;
      }
      if held.Some? && x.reading.Some? {
        if x.reading.value.grasped {
          seen := true;
        } else if seen {
          var h := held.value;
          held := None;
          return Some(Outcome(h.id, false));
        }
      }
      return None;
    }
  }
}
