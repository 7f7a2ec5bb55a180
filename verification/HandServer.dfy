/** `end_effectors/sim_hand_bridge.py`: one command at a time, admitted from a fresh sample, echoing the epoch. */
module HandServer {
  import opened Wrappers
  import opened HandWire

  datatype Action = Action(token: nat, verb: Verb, tag: nat, generation: nat)

  datatype Admission = Admission(
    pending: Option<Action>, epoch: nat, client: bool, acting: bool, committed: bool, stopping: bool)

  /** The single-slot results and how much of them the connected client has been told. */
  datatype Mailbox = Mailbox(
    graspSeq: nat, graspOk: bool, doneSeq: nat, doneToken: nat, doneOk: bool, doneTag: nat,
    seenGrasp: nat, seenDone: nat)

  /** Where the fingers are, clipped to their stroke, and whether they hold something. */
  datatype Fingers = Fingers(width: real, grasped: bool)

  datatype Server = Server(
    adm: Admission, acting: Option<Action>, haveReal: bool, fingers: Fingers, sampleSeq: nat, mail: Mailbox)

  const START := Server(Admission(None, 1, false, false, false, false), None, false, Fingers(0.0, false), 0,
                        Mailbox(0, false, 0, 0, false, 0, 0, 0))

  // ---- admission ------------------------------------------------------------------------------

  function Cancel(a: Admission): Admission {
    a.(pending := None, epoch := a.epoch + 1)
  }

  function RequestStop(a: Admission): Admission {
    Cancel(a).(stopping := true)
  }

  predicate Current(a: Admission, action: Action) {
    a.client && action.generation == a.epoch
  }

  /** Why a command is refused, or nothing. */
  function Refusal(a: Admission, token: nat, young: bool): Option<string> {
    if !a.client then Some("offline")
    else if a.stopping then Some("stopping")
    else if token != a.epoch then Some("stale_epoch")
    else if a.acting || a.pending.Some? then Some("busy")
    else if !young then Some("stale_state")
    else None
  }

  function Admit(a: Admission, token: nat, verb: Verb, tag: nat, young: bool): Admission {
    if Refusal(a, token, young).Some? then a
    else a.(epoch := a.epoch + 1, pending := Some(Action(token, verb, tag, a.epoch + 1)))
  }

  /** The plant asks for work. The second result is the action to start now. */
  function Take(a: Admission): (Admission, Option<Action>) {
    if !a.client || a.pending.None? || a.acting || a.stopping then (a, None)
    else if !Current(a, a.pending.value) then (a.(pending := None), None)
    else (a.(pending := None, acting := true, committed := true), a.pending)
  }

  function Idle(a: Admission): Admission {
    a.(acting := false, committed := false)
  }

  // ---- the plant thread -----------------------------------------------------------------------

  /** One finger sample. `usable` says its width is inside the sensor's band, `fingers` what it shows then, `verdict`
      what the running action's motion comes to with it. */
  datatype Sample = Sample(usable: bool, fingers: Fingers, verdict: Option<bool>)

  function Observe(s: Server, x: Sample): Server {
    if x.usable then s.(haveReal := true, fingers := x.fingers, sampleSeq := s.sampleSeq + 1)
    else s.(haveReal := false)
  }

  function Post(m: Mailbox, a: Action, ok: bool): Mailbox {
    var m1 := m.(doneToken := a.token, doneTag := a.tag, doneOk := ok, doneSeq := m.doneSeq + 1);
    if a.verb.Grasp? then m1.(graspOk := ok, graspSeq := m.graspSeq + 1) else m1
  }

  function Finish(s: Server, a: Action, ok: bool): Server {
    Server(Idle(s.adm), None, false, s.fingers, s.sampleSeq, if Current(s.adm, a) then Post(s.mail, a, ok) else s.mail)
  }

  function Start(s: Server): Server {
    var (adm, acting) := Take(s.adm);
    s.(adm := adm, acting := acting)
  }

  function OnSample(s: Server, x: Sample): Server {
    if s.adm.stopping then
      s.(adm := Idle(s.adm).(stopping := false), acting := None, haveReal := false)
    else
      var s1 := Observe(s, x);
      if s1.acting.None? then Start(s1)
      else if x.verdict.Some? then Finish(s1, s1.acting.value, x.verdict.value)
      else s1
  }

  // ---- the server thread ----------------------------------------------------------------------

  /** A client connects: results from before it are nobody's to consume. */
  function Connect(s: Server): Server {
    Report(s).(adm := Cancel(s.adm).(client := true))
  }

  /** A client is gone: committed work is stopped, anything else only cancelled. */
  function Disconnect(s: Server): Server {
    var adm := s.adm.(client := false);
    if adm.committed || adm.stopping then s.(adm := RequestStop(adm), haveReal := false)
    else s.(adm := Cancel(adm))
  }

  /** `recent` says the last measured sample is young enough. */
  function Handle(s: Server, limits: Limits, line: Up, recent: bool): Server {
    match line
    case Gstop => s.(adm := RequestStop(s.adm), haveReal := false)
    case Garbled(_) => s
    case Cmd(token, verb, tag) =>
      if InEnvelope(limits, verb) then s.(adm := Admit(s.adm, token, verb, tag, s.haveReal && recent)) else s
  }

  function Reply(s: Server, limits: Limits, line: Up, recent: bool): Down {
    match line
    case Gstop => Stopping(s.adm.epoch + 1)
    case Garbled(token) => Reject(token, 0)
    case Cmd(token, verb, tag) =>
      if !InEnvelope(limits, verb) || Refusal(s.adm, token, s.haveReal && recent).Some? then Reject(token, tag)
      else Accept(token)
  }

  predicate Busy(a: Admission) {
    a.acting || a.pending.Some? || a.stopping
  }

  /** The report section: results not yet reported, then, when `due`, the periodic state. */
  function Report(s: Server): Server {
    s.(mail := s.mail.(seenGrasp := s.mail.graspSeq, seenDone := s.mail.doneSeq))
  }

  function Results(m: Mailbox): seq<Down> {
    (if m.graspSeq != m.seenGrasp then [Gdone(m.graspOk)] else [])
    + (if m.doneSeq != m.seenDone then [Done(m.doneToken, m.doneOk, m.doneTag)] else [])
  }

  function Periodic(s: Server, limits: Limits, recent: bool): seq<Down> {
    [Envelope(limits)]
    + (if s.haveReal || s.adm.acting then [State(s.fingers.width, s.fingers.grasped)] else [])
    + [Caps, Meta(s.adm.epoch, true, Busy(s.adm), s.haveReal && recent && !Busy(s.adm), s.sampleSeq)]
  }

  function Reported(s: Server, limits: Limits, due: bool, recent: bool): seq<Down> {
    Results(s.mail) + (if due then Periodic(s, limits, recent) else [])
  }

  // ---- every run of the server ----------------------------------------------------------------

  datatype Event =
    | Plant(sample: Sample)
    | Arrive
    | Leave
    | Line(line: Up, recent: bool)
    | Publish

  function Next(s: Server, limits: Limits, e: Event): Server {
    match e
    case Plant(x) => OnSample(s, x)
    case Arrive => Connect(s)
    case Leave => Disconnect(s)
    case Line(line, recent) => Handle(s, limits, line, recent)
    case Publish => Report(s)
  }

  /** Clients are served one at a time, and lines and reports belong to one being served. */
  predicate Possible(s: Server, e: Event) {
    match e
    case Plant(_) => true
    case Arrive => !s.adm.client
    case _ => s.adm.client
  }

  /** Every run of the server is a state reached from the start by possible events. */
  predicate IsRun(limits: Limits, states: seq<Server>, events: seq<Event>) {
    && |states| == |events| + 1 && states[0] == START
    && forall i :: 0 <= i < |events| ==>
         Possible(states[i], events[i]) && states[i + 1] == Next(states[i], limits, events[i])
  }

  /** What every step keeps. A pending action always carries the current epoch, at most one action is
      pending or running, and one that runs without a stop requested is current. */
  predicate Valid(s: Server) {
    && s.adm.acting == s.adm.committed == s.acting.Some?
    && (s.adm.pending.Some? ==>
          && s.adm.client && !s.adm.stopping && s.acting.None?
          && s.adm.pending.value.generation == s.adm.epoch == s.adm.pending.value.token + 1)
    && (s.acting.Some? ==>
          s.acting.value.generation <= s.adm.epoch && (!s.adm.stopping ==> Current(s.adm, s.acting.value)))
    && s.mail.seenDone <= s.mail.doneSeq && s.mail.seenGrasp <= s.mail.graspSeq
  }

  lemma SampleKeepsValid(s: Server, x: Sample)
    requires Valid(s)
    ensures Valid(OnSample(s, x)) && s.adm.epoch == OnSample(s, x).adm.epoch
  {
  }

  lemma LineKeepsValid(s: Server, limits: Limits, line: Up, recent: bool)
    requires Valid(s)
    ensures Valid(Handle(s, limits, line, recent)) && s.adm.epoch <= Handle(s, limits, line, recent).adm.epoch
  {
    hide InEnvelope;
  }

  lemma ClientKeepsValid(s: Server)
    requires Valid(s)
    ensures !s.adm.client ==> Valid(Connect(s))
    ensures Valid(Disconnect(s)) && Valid(Report(s))
  {
  }

  lemma StepKeepsValid(s: Server, limits: Limits, e: Event)
    requires Valid(s) && Possible(s, e)
    ensures Valid(Next(s, limits, e)) && s.adm.epoch <= Next(s, limits, e).adm.epoch
  {
    match e
    case Plant(x) => SampleKeepsValid(s, x);
    case Line(line, recent) => LineKeepsValid(s, limits, line, recent);
    case _ => ClientKeepsValid(s);
  }

  lemma {:induction false} RunIsValid(limits: Limits, states: seq<Server>, events: seq<Event>, i: nat)
    requires IsRun(limits, states, events) && i < |states|
    ensures Valid(states[i])
  {
    if i > 0 {
      RunIsValid(limits, states, events, i - 1);
      StepKeepsValid(states[i - 1], limits, events[i - 1]);
    }
  }

  lemma {:induction false} EpochsNeverDecrease(limits: Limits, states: seq<Server>, events: seq<Event>, i: nat, j: nat)
    requires IsRun(limits, states, events) && i <= j < |states|
    ensures states[i].adm.epoch <= states[j].adm.epoch
  {
    if i < j {
      EpochsNeverDecrease(limits, states, events, i, j - 1);
      RunIsValid(limits, states, events, j - 1);
      StepKeepsValid(states[j - 1], limits, events[j - 1]);
    }
  }

  predicate Stops(e: Event) {
    e.Leave? || (e.Line? && e.line.Gstop?)
  }

  lemma PendingStays(s: Server, limits: Limits, e: Event)
    requires Valid(s) && Possible(s, e) && s.adm.pending.Some? && !Stops(e)
    ensures var s' := Next(s, limits, e);
            if e.Plant? then s'.acting == s.adm.pending else s'.adm.pending == s.adm.pending
  {
    hide InEnvelope;
  }

  /** An action admitted is never dropped on the way to the plant: whatever lines and reports come first, the next
      sample starts it, whole, unless a stop or a disconnect comes before. */
  lemma {:induction false} PendingIsTaken(limits: Limits, states: seq<Server>, events: seq<Event>, i: nat, j: nat)
    requires IsRun(limits, states, events) && i <= j < |events| && states[i].adm.pending.Some?
    requires (forall k :: i <= k < j ==> !events[k].Plant? && !Stops(events[k])) && events[j].Plant?
    ensures states[j + 1].acting == states[i].adm.pending
    decreases j - i
  {
    hide Next, Stops, Possible, Valid;
    RunIsValid(limits, states, events, i);
    assert Possible(states[i], events[i]);
    if i < j {
      PendingStays(states[i], limits, events[i]);
      PendingIsTaken(limits, states, events, i + 1, j);
    } else {
      PlantStops(events[i]);
      PendingStays(states[i], limits, events[i]);
    }
  }

  lemma PlantStops(e: Event)
    ensures e.Plant? ==> !Stops(e)
  {
  }

  /** An action pending or running at step `i`, then a stop or a disconnect at `k`: whatever happens up to a
      later step `j`, that action reports nothing there. */
  lemma StoppedReportsNothing(limits: Limits, states: seq<Server>, events: seq<Event>, i: nat, k: nat, j: nat,
                              a: Action)
    requires IsRun(limits, states, events) && i <= k < j < |events|
    requires states[i].adm.pending == Some(a) || states[i].acting == Some(a)
    requires Stops(events[k])
    requires states[j].acting == Some(a)
    ensures states[j + 1].mail.doneSeq == states[j].mail.doneSeq
         && states[j + 1].mail.graspSeq == states[j].mail.graspSeq
  {
    hide Next;
    RunIsValid(limits, states, events, i);
    EpochsNeverDecrease(limits, states, events, i, k);
    StopEndsTheEpoch(states[k], limits, events[k]);
    EpochsNeverDecrease(limits, states, events, k + 1, j);
    StaleReportsNothing(states[j], limits, events[j]);
  }

  lemma StopEndsTheEpoch(s: Server, limits: Limits, e: Event)
    requires Stops(e)
    ensures s.adm.epoch < Next(s, limits, e).adm.epoch
  {
  }

  lemma StaleReportsNothing(s: Server, limits: Limits, e: Event)
    requires s.acting.Some? && s.acting.value.generation < s.adm.epoch
    ensures Next(s, limits, e).mail.doneSeq == s.mail.doneSeq && Next(s, limits, e).mail.graspSeq == s.mail.graspSeq
  {
    hide InEnvelope;
  }

  /** The sample count when an action last ended, finished or stopped. */
  function LastEnd(states: seq<Server>): nat {
    if |states| <= 1 then 0
    else
      var n := |states| - 1;
      if states[n - 1].acting.Some? && states[n].acting.None? then states[n].sampleSeq else LastEnd(states[..n])
  }

  lemma StepNeedsNewSample(s: Server, limits: Limits, e: Event, last: nat)
    requires last <= s.sampleSeq && (s.haveReal ==> last < s.sampleSeq)
    ensures var s' := Next(s, limits, e);
            && last <= s'.sampleSeq && (s'.haveReal ==> last < s'.sampleSeq)
            && (s.acting.Some? && s'.acting.None? ==> !s'.haveReal)
  {
    hide InEnvelope;
  }

  /** A sample that may admit a command was taken after the previous action ended. */
  lemma {:induction false} FreshMeansAfterTheLastAction(limits: Limits, states: seq<Server>, events: seq<Event>)
    requires IsRun(limits, states, events)
    ensures var s := states[|events|];
            LastEnd(states) <= s.sampleSeq && (s.haveReal ==> LastEnd(states) < s.sampleSeq)
  {
    hide Next;
    if |events| > 0 {
      var n := |events|;
      assert IsRun(limits, states[..n], events[..n - 1]);
      FreshMeansAfterTheLastAction(limits, states[..n], events[..n - 1]);
      StepNeedsNewSample(states[n - 1], limits, events[n - 1], LastEnd(states[..n]));
    }
  }

  /** ... and no command is admitted without one, nor beside another action. */
  lemma AdmissionIsFresh(s: Server, limits: Limits, line: Up, recent: bool)
    requires Valid(s)
    ensures var s' := Handle(s, limits, line, recent);
            s'.adm.pending.Some? && s'.adm.pending != s.adm.pending ==>
              && line.Cmd? && InEnvelope(limits, line.verb) && s.haveReal && recent
              && s.adm.pending.None? && s.acting.None? && line.token == s.adm.epoch
  {
  }
}
