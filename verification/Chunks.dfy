/** `clients/chunks.py` with `clients/common.py`: an action-chunk policy client over one supervised stream.

    Inference, knots, units and the splice are inputs: a chunk says whether its declaration fits the run. */
module Chunks {
  import opened Wrappers
  import Contract

  type Id = string

  datatype Chunk = Chunk(id: Id, observed: int, generation: nat, declared: bool)

  // ---- revision statuses ----------------------------------------------------------------------

  datatype Selection = NotRequested | Pending | Chosen | Declined

  datatype Kind = Refused | Selected | Ended | Admitted | Waiting

  /** One revision's status: how far its execution is, and what the RT said of it. */
  datatype Status = Status(phase: Contract.Phase, selection: Selection)

  function Classify(s: Status): Kind {
    if s.phase.Rejected? || s.selection.Declined? then Refused
    else if s.selection.Chosen? then Selected
    else if s.phase.Terminal() then Ended
    else if !s.phase.Requested? then Admitted
    else Waiting
  }

  predicate Resolved(kind: Kind) {
    kind.Refused? || kind.Selected? || kind.Ended?
  }

  // ---- state ----------------------------------------------------------------------------------

  datatype Report = Report(requested: seq<Id>, admitted: seq<Id>, selected: seq<Id>, unknown: seq<Id>,
                           refused: seq<Id>, replaced: seq<Id>, late: seq<Id>)

  datatype Session = Session(execution: nat, closed: bool)

  datatype Flight = Flight(id: Id, observed: int)

  /** What reached the supervisor or was decided, in order. */
  datatype Event =
    | Opened(execution: nat)
    | Generation
    | StopAsked(confirmed: bool)
    | Attempted(chunk: Chunk, kept: bool)
    | Settled(governs: bool)
    | StreamEnded

  datatype State = State(generation: nat, session: Option<Session>, inflight: Option<Flight>, waiting: Option<Chunk>,
                         sentObs: int, cancelPending: bool, report: Report, trace: seq<Event>)

  const NOTHING := Report([], [], [], [], [], [], [])
  const START := State(0, None, None, None, -1, false, NOTHING, [])

  /** The reply to a revision: refused or never sent, no usable reply, or a status. */
  datatype Reply = Refusal | NoReply | Answer(status: Status)

  /** What a pump reads about the revision in flight. */
  datatype Poll = NotYet | Unavailable | Read(status: Status)

  /** What a pump reads about the stream. */
  datatype View = Unreadable | Over | Live

  /** What asking for a stream comes to. When it fails the caller sees an error; when its reply is lost, the caller sees
      the same and the supervisor has opened it. */
  datatype Opening = Opens(execution: nat) | Fails | ReplyLost(execution: nat)

  /** `now` is None when the observation cannot be aged on the supervisor's clock. */
  datatype Input =
    | Start(profileFits: bool, cancelled: bool, opening: Opening)
    | Cancel(cancelled: bool)
    | Submit(chunk: Chunk, now: Option<int>, reply: Reply)
    | Pump(view: View, poll: Poll, now: Option<int>, reply: Reply)

  // ---- steps ----------------------------------------------------------------------------------

  function Log(s: State, e: Event): State {
    s.(trace := s.trace + [e])
  }

  function Once(ids: seq<Id>, id: Id): seq<Id> {
    if id in ids then ids else ids + [id]
  }

  /** Fold one status into the report, each fact once. */
  function Note(r: Report, id: Id, kind: Kind): Report {
    if kind.Ended? || kind.Refused? then r.(refused := Once(r.refused, id))
    else
      var r1 := if kind.Admitted? || kind.Selected? then r.(admitted := Once(r.admitted, id)) else r;
      if kind.Selected? then r1.(selected := Once(r1.selected, id)) else r1
  }

  function Open(s: State): bool {
    s.session.Some? && !s.session.value.closed
  }

  function CancelStream(s: State, cancelled: bool): State {
    var s1 := Log(s.(generation := s.generation + 1, inflight := None, waiting := None), Generation);
    if Open(s1) then
      if cancelled then Log(s1.(session := None, cancelPending := false), StopAsked(true))
      else Log(s1.(cancelPending := true), StopAsked(false))
    else s1.(session := None, cancelPending := false)
  }

  function StartStream(s: State, profileFits: bool, cancelled: bool, opening: Opening): State {
    if !profileFits then s
    else
      var s1 := CancelStream(s, cancelled);
      if s1.cancelPending then s1
      else
        var s2 := Log(s1.(generation := s1.generation + 1), Generation);
        if !opening.Opens? then s2
        else
          Log(s2.(session := Some(Session(opening.execution, false)), inflight := None, waiting := None, sentObs := -1),
              Opened(opening.execution))
  }

  datatype Verdict = Fit | Late | Unfit

  /** The newest observation that was, or may yet be, selected. */
  function Newest(s: State): int {
    var flying := if s.inflight.Some? then s.inflight.value.observed else -1;
    if flying > s.sentObs then flying else s.sentObs
  }

  function Check(maxAge: int, s: State, c: Chunk, now: Option<int>): Verdict {
    if s.cancelPending || !Open(s) || c.generation != s.generation then Late
    else if !c.declared || now.None? then Unfit
    else if now.value - c.observed > maxAge then Late
    else if c.observed < Newest(s) then Late
    else Fit
  }

  function Drop(s: State, c: Chunk, v: Verdict): State {
    if v.Late? then s.(report := s.report.(late := s.report.late + [c.id]))
    else s.(report := s.report.(refused := s.report.refused + [c.id]))
  }

  function Send(s: State, c: Chunk, reply: Reply): State {
    var asked := s.report.(requested := s.report.requested + [c.id]);
    match reply
    case Refusal => Log(s.(report := s.report.(refused := s.report.refused + [c.id])), Attempted(c, false))
    case NoReply =>
      Log(s.(report := asked.(unknown := Once(asked.unknown, c.id)), inflight := Some(Flight(c.id, c.observed))),
          Attempted(c, true))
    case Answer(status) =>
      var kind := Classify(status);
      var s1 := s.(report := Note(asked, c.id, kind));
      if kind.Refused? then Log(s1, Attempted(c, false))
      else Log(s1.(inflight := Some(Flight(c.id, c.observed))), Attempted(c, true))
  }

  function SubmitChunk(maxAge: int, s: State, c: Chunk, now: Option<int>, reply: Reply): State {
    var v := Check(maxAge, s, c, now);
    if !v.Fit? then Drop(s, c, v)
    else if s.inflight.Some? then
      var r := if s.waiting.Some? then s.report.(replaced := s.report.replaced + [s.waiting.value.id]) else s.report;
      s.(waiting := Some(c), report := r)
    else Send(s, c, reply)
  }

  /** Resolve the revision in flight, if its status says enough. */
  function Settle(s: State, poll: Poll): State {
    if s.inflight.None? || poll.NotYet? then s
    else
      var f := s.inflight.value;
      var r := if poll.Unavailable? then s.report.(unknown := Once(s.report.unknown, f.id))
               else Note(s.report, f.id, Classify(poll.status));
      var s1 := s.(report := r);
      var governs := poll.Unavailable? || Classify(poll.status).Selected?;
      if poll.Read? && !Resolved(Classify(poll.status)) then s1
      else
        Log(s1.(inflight := None,
                sentObs := if governs && f.observed > s.sentObs then f.observed else s.sentObs), Settled(governs))
  }

  /** Send the waiting chunk, if it still may be sent. */
  function SendWaiting(maxAge: int, s: State, now: Option<int>, reply: Reply): State {
    if s.inflight.Some? || s.waiting.None? then s
    else
      var c, s1 := s.waiting.value, s.(waiting := None);
      var v := Check(maxAge, s1, c, now);
      if v.Fit? then Send(s1, c, reply) else Drop(s1, c, v)
  }

  function PumpStream(maxAge: int, s: State, view: View, poll: Poll, now: Option<int>, reply: Reply): State {
    if !Open(s) || view.Unreadable? then s
    else if view.Over? then
      Log(s.(session := Some(s.session.value.(closed := true)), inflight := None, waiting := None), StreamEnded)
    else SendWaiting(maxAge, Settle(s, poll), now, reply)
  }

  function Step(maxAge: int, s: State, i: Input): State {
    match i
    case Start(fits, cancelled, opening) => StartStream(s, fits, cancelled, opening)
    case Cancel(cancelled) => CancelStream(s, cancelled)
    case Submit(c, now, reply) => SubmitChunk(maxAge, s, c, now, reply)
    case Pump(view, poll, now, reply) => PumpStream(maxAge, s, view, poll, now, reply)
  }

  function Run(maxAge: int, inputs: seq<Input>): State {
    if inputs == [] then START else Step(maxAge, Run(maxAge, inputs[..|inputs| - 1]), inputs[|inputs| - 1])
  }

  // ---- what the trace may be ------------------------------------------------------------------

  /** `governed` is the observation of the last chunk of the stream that was, or may have been, selected. */
  datatype Monitor = Monitor(generation: nat, open: Option<nat>, stopping: bool, outstanding: Option<Chunk>,
                             governed: int)

  function Advance(m: Monitor, e: Event): Monitor {
    match e
    case Opened(execution) => m.(open := Some(execution), governed := -1)
    case Generation => m.(generation := m.generation + 1, outstanding := None)
    case StopAsked(confirmed) => if confirmed then m.(open := None, stopping := false) else m.(stopping := true)
    case Attempted(chunk, kept) => if kept then m.(outstanding := Some(chunk)) else m
    case Settled(governs) =>
      m.(outstanding := None,
         governed := if governs && m.outstanding.Some? then m.outstanding.value.observed else m.governed)
    case StreamEnded => m.(open := None, stopping := false, outstanding := None)
  }

  predicate Allowed(m: Monitor, e: Event) {
    match e
    case Opened(_) => m.open.None? && !m.stopping && m.outstanding.None?
    case Attempted(chunk, _) =>
      && m.open.Some? && !m.stopping && m.outstanding.None?
      && chunk.generation == m.generation && chunk.declared && m.governed <= chunk.observed
    case Settled(_) => m.outstanding.Some? && m.governed <= m.outstanding.value.observed
    case StopAsked(_) => m.open.Some?
    case StreamEnded => m.open.Some?
    case _ => true
  }

  function Watch(trace: seq<Event>): Monitor {
    if trace == [] then Monitor(0, None, false, None, -1) else Advance(Watch(trace[..|trace| - 1]), trace[|trace| - 1])
  }

  predicate Accepted(trace: seq<Event>) {
    trace == [] || (Accepted(trace[..|trace| - 1]) && Allowed(Watch(trace[..|trace| - 1]), trace[|trace| - 1]))
  }

  lemma Logs(s: State, e: Event)
    ensures Watch(Log(s, e).trace) == Advance(Watch(s.trace), e)
    ensures Accepted(Log(s, e).trace) <==> Accepted(s.trace) && Allowed(Watch(s.trace), e)
  {
    assert Log(s, e).trace[..|s.trace|] == s.trace;
  }

  predicate Follows(s: State, m: Monitor) {
    && s.generation == m.generation
    && m.open == (if Open(s) then Some(s.session.value.execution) else None)
    && (m.stopping ==> s.cancelPending && m.open.Some?)
    && (s.inflight.None? <==> m.outstanding.None?)
    && (s.inflight.Some? ==> s.inflight.value == Flight(m.outstanding.value.id, m.outstanding.value.observed))
    && (Open(s) ==> s.sentObs == m.governed)
  }

  predicate Sound(s: State) {
    && (s.waiting.Some? ==> s.inflight.Some? && s.waiting.value.generation == s.generation && s.waiting.value.declared)
    && (s.inflight.Some? ==> Open(s) && !s.cancelPending && s.sentObs <= s.inflight.value.observed)
    && -1 <= s.sentObs
  }

  /** Selected implies admitted implies requested, and each is said once. */
  predicate Graded(s: State) {
    && (forall id :: id in s.report.selected ==> id in s.report.admitted)
    && (forall id :: id in s.report.admitted ==> id in s.report.requested)
    && (forall i, j :: 0 <= i < j < |s.report.admitted| ==> s.report.admitted[i] != s.report.admitted[j])
    && (forall i, j :: 0 <= i < j < |s.report.selected| ==> s.report.selected[i] != s.report.selected[j])
    && (s.inflight.Some? ==> s.inflight.value.id in s.report.requested)
  }

  predicate Good(s: State) {
    Sound(s) && Graded(s) && Accepted(s.trace) && Follows(s, Watch(s.trace))
  }

  lemma CancelKeeps(s: State, cancelled: bool)
    requires Good(s)
    ensures var s' := CancelStream(s, cancelled);
            && Good(s') && s'.inflight.None? && s'.waiting.None? && (s'.cancelPending <==> Open(s) && !cancelled)
            && (!s'.cancelPending ==> s'.session.None? && !Watch(s'.trace).stopping)
  {
    hide Watch, Accepted, Graded;
    var s1 := s.(generation := s.generation + 1, inflight := None, waiting := None);
    Logs(s1, Generation);
    var s2 := Log(s1, Generation);
    Logs(s2.(session := None, cancelPending := false), StopAsked(true));
    Logs(s2.(cancelPending := true), StopAsked(false));
    CancelIsGraded(s, cancelled);
  }

  lemma CancelIsGraded(s: State, cancelled: bool)
    requires Graded(s)
    ensures Graded(CancelStream(s, cancelled))
  {
  }

  lemma StartKeeps(s: State, profileFits: bool, cancelled: bool, opening: Opening)
    requires Good(s)
    ensures Good(StartStream(s, profileFits, cancelled, opening))
  {
    hide Watch, Accepted, CancelStream;
    CancelKeeps(s, cancelled);
    var s1 := CancelStream(s, cancelled);
    Logs(s1.(generation := s1.generation + 1), Generation);
    if opening.Opens? {
      var s2 := Log(s1.(generation := s1.generation + 1), Generation);
      Logs(s2.(session := Some(Session(opening.execution, false)), inflight := None, waiting := None, sentObs := -1),
           Opened(opening.execution));
    }
  }

  lemma NoteIsGraded(s: State, id: Id, kind: Kind)
    requires Graded(s) && id in s.report.requested
    ensures Graded(s.(report := Note(s.report, id, kind))) && Note(s.report, id, kind).requested == s.report.requested
  {
  }

  lemma RequestIsGraded(s: State, id: Id)
    requires Graded(s)
    ensures Graded(s.(report := s.report.(requested := s.report.requested + [id])))
  {
  }

  /** A chunk that passes the check, with nothing in flight, may be attempted. */
  lemma SendKeeps(maxAge: int, s: State, c: Chunk, now: Option<int>, reply: Reply)
    requires Good(s) && s.inflight.None? && s.waiting.None? && Check(maxAge, s, c, now).Fit?
    ensures Good(Send(s, c, reply))
  {
    hide Watch, Accepted, Note;
    var s', asked := Send(s, c, reply), s.report.(requested := s.report.requested + [c.id]);
    RequestIsGraded(s, c.id);
    if reply.Answer? {
      NoteIsGraded(s.(report := asked), c.id, Classify(reply.status));
    }
    var kept := reply.NoReply? || (reply.Answer? && !Classify(reply.status).Refused?);
    Logs(s'.(trace := s.trace), Attempted(c, kept));
    assert s' == Log(s'.(trace := s.trace), Attempted(c, kept));
    assert Graded(s');
  }

  lemma SubmitKeeps(maxAge: int, s: State, c: Chunk, now: Option<int>, reply: Reply)
    requires Good(s)
    ensures Good(SubmitChunk(maxAge, s, c, now, reply))
  {
    hide Watch, Accepted, Send;
    if Check(maxAge, s, c, now).Fit? && s.inflight.None? {
      SendKeeps(maxAge, s, c, now, reply);
    }
  }

  lemma SettleKeeps(s: State, poll: Poll)
    requires Good(s) && Open(s)
    ensures var s' := Settle(s, poll);
            && Sound(s'.(waiting := None)) && Graded(s') && Accepted(s'.trace) && Follows(s', Watch(s'.trace))
            && s' == s.(inflight := s'.inflight, sentObs := s'.sentObs, report := s'.report, trace := s'.trace)
            && (s'.inflight.Some? ==> s'.inflight == s.inflight && s'.sentObs == s.sentObs)
  {
    hide Watch, Accepted, Note;
    if s.inflight.Some? && !poll.NotYet? {
      var s', f := Settle(s, poll), s.inflight.value;
      var governs := poll.Unavailable? || Classify(poll.status).Selected?;
      if poll.Read? {
        NoteIsGraded(s, f.id, Classify(poll.status));
      }
      Logs(s'.(trace := s.trace), Settled(governs));
      assert Graded(s');
    }
  }

  lemma PumpKeeps(maxAge: int, s: State, view: View, poll: Poll, now: Option<int>, reply: Reply)
    requires Good(s)
    ensures Good(PumpStream(maxAge, s, view, poll, now, reply))
  {
    hide Watch, Accepted, Send, Settle, Check;
    if Open(s) && view.Over? {
      Logs(s.(session := Some(s.session.value.(closed := true)), inflight := None, waiting := None), StreamEnded);
    } else if Open(s) && view.Live? {
      var s1 := Settle(s, poll);
      SettleKeeps(s, poll);
      if s1.inflight.None? && s1.waiting.Some? {
        var s2, c := s1.(waiting := None), s1.waiting.value;
        assert Good(s2);
        if Check(maxAge, s2, c, now).Fit? {
          SendKeeps(maxAge, s2, c, now, reply);
        }
      }
    }
  }

  /** Whatever is submitted and whatever the supervisor answers. */
  lemma {:induction false} EveryRunIsGood(maxAge: int, inputs: seq<Input>)
    ensures Good(Run(maxAge, inputs))
  {
    hide Good;
    if inputs != [] {
      var s := Run(maxAge, inputs[..|inputs| - 1]);
      EveryRunIsGood(maxAge, inputs[..|inputs| - 1]);
      match inputs[|inputs| - 1]
      case Start(fits, cancelled, opening) => StartKeeps(s, fits, cancelled, opening);
      case Cancel(cancelled) => CancelKeeps(s, cancelled);
      case Submit(c, now, reply) => SubmitKeeps(maxAge, s, c, now, reply);
      case Pump(view, poll, now, reply) => PumpKeeps(maxAge, s, view, poll, now, reply);
    } else {
      StartIsGood();
    }
  }

  lemma StartIsGood()
    ensures Good(START)
  {
  }

  // ---- what an accepted trace means -----------------------------------------------------------

  lemma {:induction false} EachIsAllowed(trace: seq<Event>, k: nat)
    requires Accepted(trace) && k < |trace|
    ensures Allowed(Watch(trace[..k]), trace[k])
    ensures Watch(trace[..k + 1]) == Advance(Watch(trace[..k]), trace[k])
  {
    hide Allowed, Advance;
    assert trace[..k + 1][..k] == trace[..k];
    if k < |trace| - 1 {
      EachIsAllowed(trace[..|trace| - 1], k);
      assert trace[..|trace| - 1][..k] == trace[..k];
    }
  }

  /** The revision settled by event `l` is the one attempted and kept at `k`. */
  ghost predicate OutstandingSince(trace: seq<Event>, k: nat, l: nat) {
    && k < l <= |trace| && trace[k].Attempted? && trace[k].kept
    && forall i :: k < i < l ==> trace[i].StopAsked?
  }

  lemma {:induction false} OutstandingIsAttempted(trace: seq<Event>, l: nat) returns (k: nat)
    requires Accepted(trace) && l <= |trace| && Watch(trace[..l]).outstanding.Some?
    ensures OutstandingSince(trace, k, l) && Watch(trace[..l]).outstanding == Some(trace[k].chunk)
  {
    hide Watch, Accepted;
    WatchStart(trace);
    EachIsAllowed(trace, l - 1);
    if trace[l - 1].Attempted? {
      k := l - 1;
    } else {
      k := OutstandingIsAttempted(trace, l - 1);
    }
  }

  lemma WatchStart(trace: seq<Event>)
    ensures Watch(trace[..0]) == Monitor(0, None, false, None, -1)
  {
    assert trace[..0] == [];
  }

  /** One revision at a time: after an attempt that was kept, no other is made before it is settled, the stream ends, or
      the client cancels or restarts. */
  lemma OneAtATime(trace: seq<Event>, k: nat, l: nat)
    requires Accepted(trace) && k < l < |trace| && trace[k].Attempted? && trace[k].kept && trace[l].Attempted?
    ensures exists i :: k < i < l && (trace[i].Settled? || trace[i].StreamEnded? || trace[i].Generation?)
  {
    if forall i :: k < i < l ==> !trace[i].Settled? && !trace[i].StreamEnded? && !trace[i].Generation? {
      StaysOutstanding(trace, k, l);
      EachIsAllowed(trace, l);
    }
  }

  lemma {:induction false} StaysOutstanding(trace: seq<Event>, k: nat, l: nat)
    requires Accepted(trace) && k < l <= |trace| && trace[k].Attempted? && trace[k].kept
    requires forall i :: k < i < l ==> !trace[i].Settled? && !trace[i].StreamEnded? && !trace[i].Generation?
    ensures Watch(trace[..l]).outstanding.Some?
    decreases l
  {
    hide Watch, Accepted;
    EachIsAllowed(trace, l - 1);
    if l - 1 > k {
      StaysOutstanding(trace, k, l - 1);
    }
  }

  /** Within one stream the observation that governs never gets older. */
  lemma {:induction false} GovernedNeverDecreases(trace: seq<Event>, k: nat, l: nat)
    requires Accepted(trace) && k <= l <= |trace| && forall i :: k <= i < l ==> !trace[i].Opened?
    ensures Watch(trace[..k]).governed <= Watch(trace[..l]).governed
    decreases l
  {
    hide Watch, Accepted;
    if k < l {
      EachIsAllowed(trace, l - 1);
      GovernedNeverDecreases(trace, k, l - 1);
    }
  }

  /** Nor is anything attempted on one older than that of a chunk that was, or may have been, selected. */
  lemma NothingOlderFollows(trace: seq<Event>, k: nat, l: nat)
    requires Accepted(trace) && k < l < |trace| && trace[k].Settled? && trace[k].governs && trace[l].Attempted?
    requires forall i :: k < i < l ==> !trace[i].Opened?
    ensures Watch(trace[..k]).outstanding.Some?
    ensures Watch(trace[..k]).outstanding.value.observed <= trace[l].chunk.observed
  {
    hide Watch, Accepted;
    EachIsAllowed(trace, k);
    EachIsAllowed(trace, l);
    GovernedNeverDecreases(trace, k + 1, l);
  }

  lemma {:induction false} StaysOpen(trace: seq<Event>, k: nat, l: nat)
    requires Accepted(trace) && k < l <= |trace| && trace[k].Opened?
    requires forall i :: k < i < l ==> trace[i] != StopAsked(true) && !trace[i].StreamEnded?
    ensures Watch(trace[..l]).open.Some?
    decreases l
  {
    hide Watch, Accepted;
    EachIsAllowed(trace, l - 1);
    if l - 1 > k {
      StaysOpen(trace, k, l - 1);
    }
  }

  /** No stream is opened before the one before it was confirmed cancelled or seen to end. */
  lemma NoSecondStream(trace: seq<Event>, k: nat, l: nat)
    requires Accepted(trace) && k < l < |trace| && trace[k].Opened? && trace[l].Opened?
    ensures exists i :: k < i < l && (trace[i] == StopAsked(true) || trace[i].StreamEnded?)
  {
    if forall i :: k < i < l ==> trace[i] != StopAsked(true) && !trace[i].StreamEnded? {
      StaysOpen(trace, k, l);
      EachIsAllowed(trace, l);
    }
  }

  // ---- the supervisor's streams ---------------------------------------------------------------

  /** The streams the supervisor runs, and those it opened although the client saw no reply. */
  datatype Supervisor = Supervisor(live: set<nat>, lost: set<nat>)

  /** A request for a stream as the supervisor meets it: the id it would give, whether it is otherwise admissible, and
      whether the client hears the reply. */
  datatype Ask = Ask(execution: nat, admissible: bool, heard: bool)

  /** What happens beside an input: streams that end on their own, and what a request for a stream would meet. */
  datatype Round = Round(input: Input, ended: set<nat>, ask: Ask)

  /** The client asks for a stream: nothing stands against it, and no old stream is left open. */
  predicate Asks(s: State, i: Input) {
    i.Start? && i.profileFits && (!Open(s) || i.cancelled)
  }

  /** What is live once streams have ended and a confirmed cancel has ended the client's. */
  function Left(s: State, w: Supervisor, r: Round): set<nat> {
    var live, i := w.live - r.ended, r.input;
    if (i.Cancel? || (i.Start? && i.profileFits)) && Open(s) && i.cancelled then live - {s.session.value.execution}
    else live
  }

  /** A stream is opened beside no other, and the client learns of it only if the reply reaches it. */
  function Answered(live: set<nat>, ask: Ask): Opening {
    if live != {} || !ask.admissible then Fails
    else if ask.heard then Opens(ask.execution)
    else ReplyLost(ask.execution)
  }

  function Serve(s: State, w: Supervisor, r: Round): Supervisor {
    var live := Left(s, w, r);
    if !Asks(s, r.input) then w.(live := live)
    else
      match Answered(live, r.ask)
      case Opens(e) => w.(live := live + {e})
      case Fails => w.(live := live)
      case ReplyLost(e) => Supervisor(live + {e}, w.lost + {e})
  }

  /** The client is told what the supervisor did: a stream is said to be over only when it is, a request has the
      supervisor's answer, and no id is given twice. */
  predicate Truthful(s: State, w: Supervisor, r: Round) {
    && (r.input.Pump? && r.input.view.Over? && Open(s) ==> s.session.value.execution !in w.live - r.ended)
    && (Asks(s, r.input) ==> r.input.opening == Answered(Left(s, w, r), r.ask))
    && r.ask.execution !in w.lost
  }

  function Inputs(rounds: seq<Round>): seq<Input> {
    seq(|rounds|, k requires 0 <= k < |rounds| => rounds[k].input)
  }

  function ServeAll(maxAge: int, rounds: seq<Round>): Supervisor {
    if rounds == [] then Supervisor({}, {})
    else
      var n := |rounds| - 1;
      Serve(Run(maxAge, Inputs(rounds[..n])), ServeAll(maxAge, rounds[..n]), rounds[n])
  }

  predicate AllTruthful(maxAge: int, rounds: seq<Round>) {
    rounds == [] ||
    var n := |rounds| - 1;
    && AllTruthful(maxAge, rounds[..n])
    && Truthful(Run(maxAge, Inputs(rounds[..n])), ServeAll(maxAge, rounds[..n]), rounds[n])
  }

  /** A live stream that the client does not know of. */
  ghost predicate Stranded(w: Supervisor) {
    exists e :: e in w.live && e in w.lost
  }

  /** At most one stream is live, the client's own or one whose reply was lost; beside that the client has none. */
  ghost predicate Accounted(s: State, w: Supervisor) {
    && (forall a, b :: a in w.live && b in w.live ==> a == b)
    && (forall e :: e in w.live ==> e in w.lost || (Open(s) && e == s.session.value.execution))
    && (Stranded(w) ==> s.session.None?)
  }

  lemma StepAccounts(maxAge: int, s: State, w: Supervisor, r: Round)
    requires Good(s) && Accounted(s, w) && Truthful(s, w, r)
    ensures Accounted(Step(maxAge, s, r.input), Serve(s, w, r))
  {
    hide Watch, Accepted, Graded, Follows, Note, Check, Newest, Classify;
    var i, s', w' := r.input, Step(maxAge, s, r.input), Serve(s, w, r);
    if i.Cancel? || i.Start? {
      CancelKeeps(s, i.cancelled);
    }
    if Asks(s, i) {
      AskAccounts(maxAge, s, w, r);
    } else {
      assert w'.live <= w.live && w'.lost == w.lost;
      assert Stranded(w') ==> Stranded(w);
    }
  }

  lemma AskAccounts(maxAge: int, s: State, w: Supervisor, r: Round)
    requires Good(s) && Accounted(s, w) && Truthful(s, w, r) && Asks(s, r.input)
    ensures Accounted(Step(maxAge, s, r.input), Serve(s, w, r))
    ensures var s' := Step(maxAge, s, r.input);
            s'.session == if Answered(Left(s, w, r), r.ask).Opens? then Some(Session(r.ask.execution, false)) else None
  {
    hide Watch, Accepted, Graded, Follows;
    CancelKeeps(s, r.input.cancelled);
  }

  lemma {:induction false} RunAccounts(maxAge: int, rounds: seq<Round>)
    requires AllTruthful(maxAge, rounds)
    ensures Accounted(Run(maxAge, Inputs(rounds)), ServeAll(maxAge, rounds)) && Good(Run(maxAge, Inputs(rounds)))
  {
    hide Good, Accounted, Truthful;
    EveryRunIsGood(maxAge, Inputs(rounds));
    if rounds != [] {
      var n := |rounds| - 1;
      RunAccounts(maxAge, rounds[..n]);
      assert Inputs(rounds)[..n] == Inputs(rounds[..n]);
      StepAccounts(maxAge, Run(maxAge, Inputs(rounds[..n])), ServeAll(maxAge, rounds[..n]), rounds[n]);
    } else {
      NothingAccounted();
    }
  }

  lemma NothingAccounted()
    ensures Accounted(START, Supervisor({}, {}))
  {
  }

  /** In every run at most one stream is live, and while it is one the client never heard of, the client has none: it
      cannot send, and what it submits is late. */
  lemma OneLiveStream(maxAge: int, rounds: seq<Round>, c: Chunk, now: Option<int>)
    requires AllTruthful(maxAge, rounds)
    ensures forall a, b :: a in ServeAll(maxAge, rounds).live && b in ServeAll(maxAge, rounds).live ==> a == b
    ensures Stranded(ServeAll(maxAge, rounds)) ==>
              && Run(maxAge, Inputs(rounds)).session.None?
              && Check(maxAge, Run(maxAge, Inputs(rounds)), c, now).Late?
  {
    RunAccounts(maxAge, rounds);
  }

  /** After any run, a request for a stream that is admissible and whose reply is heard opens one exactly when no stream
      with a lost reply is still live: such a stream fails every start until it has ended. */
  lemma StartOpensExactly(maxAge: int, rounds: seq<Round>, r: Round)
    requires AllTruthful(maxAge, rounds + [r])
    requires Asks(Run(maxAge, Inputs(rounds)), r.input) && r.ask.admissible && r.ask.heard
    ensures Open(Run(maxAge, Inputs(rounds + [r])))
            <==> forall e :: e in ServeAll(maxAge, rounds).live && e in ServeAll(maxAge, rounds).lost ==> e in r.ended
  {
    hide Good, Step, Watch;
    var all, n := rounds + [r], |rounds|;
    assert all[..n] == rounds && all[n] == r;
    assert Inputs(all)[..n] == Inputs(rounds) && Inputs(all)[n] == r.input;
    RunAccounts(maxAge, rounds);
    var s, w := Run(maxAge, Inputs(rounds)), ServeAll(maxAge, rounds);
    AskAccounts(maxAge, s, w, r);
    assert Run(maxAge, Inputs(all)) == Step(maxAge, s, r.input);
    assert forall e :: e in Left(s, w, r) ==> e in w.lost && e !in r.ended;
  }

  /** It happens: the reply to a first request is lost, and the next start is refused although nothing is wrong. */
  lemma LostReplyStrands()
    ensures var a := Round(Start(true, true, ReplyLost(1)), {}, Ask(1, true, false));
            var b := Round(Start(true, true, Fails), {}, Ask(2, true, true));
            && AllTruthful(0, [a, b]) && ServeAll(0, [a, b]) == Supervisor({1}, {1})
            && !Open(Run(0, Inputs([a, b])))
  {
    var a := Round(Start(true, true, ReplyLost(1)), {}, Ask(1, true, false));
    var b := Round(Start(true, true, Fails), {}, Ask(2, true, true));
    var rounds := [a, b];
    assert rounds[..1] == [a] && [a][..0] == [];
    assert Inputs([]) == [] && Inputs([a]) == [a.input] && [a.input][..0] == [];
    assert Inputs(rounds) == [a.input, b.input] && [a.input, b.input][..1] == [a.input];
    assert Run(0, Inputs([])) == START;
    var s := Step(0, START, a.input);
    assert Run(0, [a.input]) == s && s.session.None?;
    assert ServeAll(0, []) == Supervisor({}, {});
    assert Truthful(START, Supervisor({}, {}), a);
    assert AllTruthful(0, [a]);
    assert ServeAll(0, [a]) == Supervisor({1}, {1});
    assert Truthful(s, Supervisor({1}, {1}), b);
  }

  // ---- what becomes of a chunk ----------------------------------------------------------------

  /** A cancel, a restart or the stream's end drops the waiting chunk and reports nothing. */
  predicate Clears(s: State, i: Input) {
    i.Cancel? || (i.Start? && i.profileFits) || (i.Pump? && i.view.Over? && Open(s))
  }

  function Dropped(maxAge: int, inputs: seq<Input>): seq<Id> {
    if inputs == [] then []
    else
      var s, i := Run(maxAge, inputs[..|inputs| - 1]), inputs[|inputs| - 1];
      Dropped(maxAge, inputs[..|inputs| - 1]) + if Clears(s, i) && s.waiting.Some? then [s.waiting.value.id] else []
  }

  predicate Told(r: Report, id: Id) {
    id in r.requested || id in r.refused || id in r.replaced || id in r.late
  }

  predicate Known(s: State, dropped: seq<Id>, id: Id) {
    Told(s.report, id) || id in dropped || (s.waiting.Some? && s.waiting.value.id == id)
  }

  lemma SendTells(s: State, c: Chunk, reply: Reply, id: Id)
    ensures Told(Send(s, c, reply).report, c.id) && (Told(s.report, id) ==> Told(Send(s, c, reply).report, id))
    ensures Send(s, c, reply).waiting == s.waiting
  {
  }

  lemma SettleTells(s: State, poll: Poll, id: Id)
    ensures Told(s.report, id) ==> Told(Settle(s, poll).report, id)
    ensures Settle(s, poll).waiting == s.waiting
  {
  }

  lemma DropTells(s: State, c: Chunk, v: Verdict, id: Id)
    ensures Told(Drop(s, c, v).report, c.id) && (Told(s.report, id) ==> Told(Drop(s, c, v).report, id))
    ensures Drop(s, c, v).waiting == s.waiting
  {
  }

  lemma SubmitTells(maxAge: int, s: State, c: Chunk, now: Option<int>, reply: Reply, dropped: seq<Id>, id: Id)
    requires Known(s, dropped, id) || c.id == id
    ensures Known(SubmitChunk(maxAge, s, c, now, reply), dropped, id)
  {
    hide Check, Send, Drop;
    DropTells(s, c, Check(maxAge, s, c, now), id);
    SendTells(s, c, reply, id);
  }

  lemma PumpTells(maxAge: int, s: State, poll: Poll, now: Option<int>, reply: Reply, dropped: seq<Id>, id: Id)
    requires Known(s, dropped, id)
    ensures Known(SendWaiting(maxAge, Settle(s, poll), now, reply), dropped, id)
  {
    hide Check, Send, Drop, Settle;
    SettleTells(s, poll, id);
    var s1 := Settle(s, poll);
    if s1.waiting.Some? {
      var s2, c := s1.(waiting := None), s1.waiting.value;
      DropTells(s2, c, Check(maxAge, s2, c, now), id);
      SendTells(s2, c, reply, id);
    }
  }

  lemma StepKeepsKnown(maxAge: int, s: State, i: Input, dropped: seq<Id>, id: Id)
    requires Known(s, dropped, id) || (i.Submit? && i.chunk.id == id)
    ensures Known(Step(maxAge, s, i), dropped + if Clears(s, i) && s.waiting.Some? then [s.waiting.value.id] else [],
                  id)
  {
    hide Told, SubmitChunk, SendWaiting, Settle;
    if i.Submit? {
      SubmitTells(maxAge, s, i.chunk, i.now, i.reply, dropped, id);
    } else if i.Pump? {
      PumpTells(maxAge, s, i.poll, i.now, i.reply, dropped, id);
    }
  }

  /** Every chunk ever submitted is reported as requested, refused, replaced or late, or waits, or was dropped while it
      waited by a cancel, a restart or the stream's end. */
  lemma {:induction false} EveryChunkIsAccounted(maxAge: int, inputs: seq<Input>, k: nat)
    requires k < |inputs| && inputs[k].Submit?
    ensures Known(Run(maxAge, inputs), Dropped(maxAge, inputs), inputs[k].chunk.id)
    decreases |inputs|
  {
    var n := |inputs| - 1;
    if k < n {
      EveryChunkIsAccounted(maxAge, inputs[..n], k);
    }
    StepKeepsKnown(maxAge, Run(maxAge, inputs[..n]), inputs[n], Dropped(maxAge, inputs[..n]), inputs[k].chunk.id);
  }

  // ---- the client -----------------------------------------------------------------------------

  class ActionChunkClient {
    const maxAge: int
    var generation: nat
    var session: Option<Session>
    var inflight: Option<Flight>
    var waiting: Option<Chunk>
    var sentObs: int
    var cancelPending: bool
    var report: Report
    ghost var trace: seq<Event>

    ghost function Value(): State
      reads this
    {
      State(generation, session, inflight, waiting, sentObs, cancelPending, report, trace)
    }

    constructor (maxAge: int)
      requires maxAge > 0
      ensures this.maxAge == maxAge && Value() == START
    {
      this.maxAge := maxAge;
      generation, session, inflight, waiting := 0, None, None, None;
      sentObs, cancelPending, report, trace := -1, false, NOTHING, [];
    }

    method Cancel(cancelled: bool) returns (confirmed: bool)
      modifies this
      ensures Value() == CancelStream(old(Value()), cancelled)
      ensures confirmed <==> !(Open(old(Value())) && !cancelled)
    {
      generation := generation + 1;
      inflight, waiting := None, None;
      trace := trace + [Generation];
      if session.Some? && !session.value.closed {
        trace := trace + [StopAsked(cancelled)];
        if !cancelled {
          cancelPending := true;
          return false;
        }
      }
      session, cancelPending := None, false;
      return true;
    }

    method Start(profileFits: bool, cancelled: bool, opening: Opening) returns (ok: bool)
      modifies this
      ensures Value() == StartStream(old(Value()), profileFits, cancelled, opening)
    {
      hide CancelStream;
      if !profileFits {
        return false;
      }
      ghost var before := Value();
      var confirmed := Cancel(cancelled);
      StopTold(before, cancelled);
      if !confirmed {
        return false;
      }
      generation := generation + 1;
      trace := trace + [Generation];
      if !opening.Opens? {
        return false;
      }
      session := Some(Session(opening.execution, false));
      inflight, waiting, sentObs := None, None, -1;
      trace := trace + [Opened(opening.execution)];
      return true;
    }

    method CheckChunk(c: Chunk, now: Option<int>) returns (v: Verdict)
      ensures v == Check(maxAge, Value(), c, now)
    {
      if cancelPending {
        return Late;
      }
      if session.None? || session.value.closed {
        return Late;
      }
      if c.generation != generation {
        return Late;
      }
      if !c.declared || now.None? {
        return Unfit;
      }
      if now.value - c.observed > maxAge {
        return Late;
      }
      var flying := if inflight.Some? then inflight.value.observed else -1;
      var newest := if flying > sentObs then flying else sentObs;
      return if c.observed < newest then Late else Fit;
    }

    method SendChunk(c: Chunk, reply: Reply)
      modifies this`report, this`inflight, this`trace
      ensures Value() == Send(old(Value()), c, reply)
    {
      hide Note;
      if reply.Refusal? {
        report := report.(refused := report.refused + [c.id]);
        trace := trace + [Attempted(c, false)];
        return;
      }
      report := report.(requested := report.requested + [c.id]);
      if reply.NoReply? {
        report := report.(unknown := Once(report.unknown, c.id));
        inflight := Some(Flight(c.id, c.observed));
        trace := trace + [Attempted(c, true)];
        return;
      }
      report := Note(report, c.id, Classify(reply.status));
      trace := trace + [Attempted(c, !Classify(reply.status).Refused?)];
      if !Classify(reply.status).Refused? {
        inflight := Some(Flight(c.id, c.observed));
      }
    }

    method DropChunk(c: Chunk, v: Verdict)
      modifies this`report
      ensures Value() == Drop(old(Value()), c, v)
    {
      if v.Late? {
        report := report.(late := report.late + [c.id]);
      } else {
        report := report.(refused := report.refused + [c.id]);
      }
    }

    method Submit(c: Chunk, now: Option<int>, reply: Reply)
      modifies this
      ensures Value() == SubmitChunk(maxAge, old(Value()), c, now, reply)
    {
      hide Check, Send;
      var v := CheckChunk(c, now);
      if !v.Fit? {
        DropChunk(c, v);
        return;
      }
      if inflight.Some? {
        if waiting.Some? {
          report := report.(replaced := report.replaced + [waiting.value.id]);
        }
        waiting := Some(c);
        return;
      }
      SendChunk(c, reply);
    }

    method SettleFlight(poll: Poll)
      requires inflight.Some?
      modifies this`report, this`inflight, this`sentObs, this`trace
      ensures Value() == Settle(old(Value()), poll)
    {
      hide Note;
      var f := inflight.value;
      if poll.NotYet? {
        return;
      }
      var governs := true;
      if poll.Unavailable? {
        report := report.(unknown := Once(report.unknown, f.id));
      } else {
        report := Note(report, f.id, Classify(poll.status));
        if !Resolved(Classify(poll.status)) {
          return;
        }
        governs := Classify(poll.status).Selected?;
      }
      if governs && f.observed > sentObs {
        sentObs := f.observed;
      }
      inflight := None;
      trace := trace + [Settled(governs)];
    }

    method Pump(view: View, poll: Poll, now: Option<int>, reply: Reply)
      modifies this
      ensures Value() == PumpStream(maxAge, old(Value()), view, poll, now, reply)
    {
      hide Check, Send, Settle;
      if session.None? || session.value.closed || view.Unreadable? {
        return;
      }
      if view.Over? {
        session := Some(session.value.(closed := true));
        inflight, waiting := None, None;
        trace := trace + [StreamEnded];
        return;
      }
      NothingToSettle(Value(), poll);
      if inflight.Some? {
        SettleFlight(poll);
      }
      if inflight.None? && waiting.Some? {
        var c := waiting.value;
        waiting := None;
        var v := CheckChunk(c, now);
        if v.Fit? {
          SendChunk(c, reply);
        } else {
          DropChunk(c, v);
        }
      }
    }
  }

  lemma NothingToSettle(s: State, poll: Poll)
    ensures s.inflight.None? ==> Settle(s, poll) == s
  {
  }

  lemma StopTold(s: State, cancelled: bool)
    ensures CancelStream(s, cancelled).cancelPending <==> Open(s) && !cancelled
  {
  }
}
