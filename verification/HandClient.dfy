/** `end_effectors/franka_adapter.py`, `BridgeClient`: one action in flight, never queued, never replayed. */
module HandClient {
  import opened Wrappers
  import opened HandWire

  /** Who asked for an action: nobody (the slider, homing), or a request to answer. */
  datatype Request = Request(asked: bool, id: nat, positionMove: bool, graspOperation: bool, requiresActiveStop: bool)

  datatype Sent = Sent(token: nat, verb: Verb, request: Request, tag: nat)

  /** What became of a submission, as its requester is told. */
  datatype Outcome = Outcome(tag: nat, verdict: Verdict)

  datatype Verdict = Failed | Finished(ok: bool)

  datatype Reading = Reading(available: bool, busy: bool, measured: bool)

  /** Samples seen: the bridge's own count, the client's count of new ones, and that count at the last submission. */
  datatype Samples = Samples(bridge: Option<nat>, count: nat, admitted: int)

  /** What the connected bridge has said of itself. */
  datatype Bridge = Bridge(activeStop: bool, limits: Limits, width: bool, reading: Option<Reading>)

  datatype Client = Client(
    connected: bool, epoch: Option<nat>, samples: Samples, command: Option<Sent>, inflight: Option<Sent>,
    stop: Stop, bridge: Bridge, outcomes: seq<Outcome>)

  /** An active stop: `cancel` until it is on the wire, `waiting` until it is acknowledged and freshly measured. */
  datatype Stop = Stop(cancel: bool, waiting: bool, epoch: Option<nat>, sample: nat)

  const NO_STOP := Stop(false, false, None, 0)

  /** Nothing said yet: a bridge that states no envelope is the Franka Hand. */
  const SILENT := Bridge(false, FRANKA_HAND, false, None)

  const START := Client(false, None, Samples(None, 0, -1), None, None, NO_STOP, SILENT, [])

  // ---- the snapshot ---------------------------------------------------------------------------

  predicate Available(c: Client) {
    c.connected && c.bridge.reading.Some? && c.bridge.reading.value.available
  }

  predicate Busy(c: Client) {
    c.stop.waiting || c.inflight.Some? || (c.bridge.reading.Some? && c.bridge.reading.value.busy)
  }

  /** `recent` says the last new sample is young enough. */
  predicate Measured(c: Client, recent: bool) {
    && c.bridge.reading.Some? && c.bridge.reading.value.measured && c.bridge.width
    && c.connected && !c.stop.waiting && recent
    && c.samples.count > c.samples.admitted
  }

  // ---- submissions ----------------------------------------------------------------------------

  predicate Submittable(c: Client, verb: Verb, request: Request, recent: bool) {
    && InEnvelope(c.bridge.limits, verb)
    && (request.positionMove || request.requiresActiveStop ==> c.connected && c.bridge.activeStop)
    && !c.stop.cancel && Available(c) && c.epoch.Some? && Measured(c, recent) && !Busy(c)
  }

  function Submit(c: Client, verb: Verb, request: Request, tag: nat, recent: bool): Client {
    if Submittable(c, verb, request, recent) then
      var sent := Some(Sent(c.epoch.value, verb, request, tag));
      c.(command := sent, inflight := sent, samples := c.samples.(admitted := c.samples.count))
    else
      c
  }

  function Fail(c: Client): Client {
    c.(command := None, inflight := None,
       outcomes := if c.inflight.Some? then c.outcomes + [Outcome(c.inflight.value.tag, Failed)] else c.outcomes)
  }

  function CancelMove(c: Client): Client {
    Fail(if c.stop.waiting then c else c.(stop := c.stop.(cancel := true, waiting := true, epoch := None)))
  }

  // ---- the wire -------------------------------------------------------------------------------

  /** What the next turn of the socket loop sends, if anything; a cancellation goes before a command. */
  function Outgoing(c: Client): Option<Up> {
    if c.stop.cancel then Some(Gstop)
    else if c.command.Some? then Some(Cmd(c.command.value.token, c.command.value.verb, c.command.value.tag))
    else None
  }

  function Transmit(c: Client): Client {
    c.(stop := c.stop.(cancel := false), command := None)
  }

  function Connect(c: Client): Client {
    c.(connected := true, epoch := None, samples := c.samples.(bridge := None),
       stop := c.stop.(cancel := false, waiting := false, epoch := None), bridge := SILENT)
  }

  function LoseLink(c: Client): Client {
    Fail(c.(connected := false, epoch := None))
  }

  /** A command in flight while the bridge is gone or its epoch has moved beyond the command's own admission. */
  predicate Overtaken(c: Client, epoch: nat, available: bool) {
    c.inflight.Some? && (!available || (epoch != c.inflight.value.token && epoch != c.inflight.value.token + 1))
  }

  function Noticed(c: Client, measured: bool, sample: nat): Client {
    if measured && c.samples.bridge != Some(sample) then
      c.(samples := c.samples.(bridge := Some(sample), count := c.samples.count + 1))
    else
      c
  }

  function Acknowledged(c: Client, epoch: nat): Client {
    if c.stop.waiting && c.stop.epoch.Some? && epoch >= c.stop.epoch.value && c.bridge.reading.Some?
       && c.bridge.reading.value.available && !c.bridge.reading.value.busy && c.bridge.reading.value.measured
       && c.samples.count > c.stop.sample
    then c.(stop := c.stop.(waiting := false, epoch := None))
    else c
  }

  function OnMeta(c: Client, epoch: nat, available: bool, busy: bool, measured: bool, sample: nat)
    : Result<Client, Client>
  {
    var c1 := (if Overtaken(c, epoch, available) then Fail(c) else c).(epoch := Some(epoch));
    if c.samples.bridge.Some? && sample < c.samples.bridge.value then Err(c1)
    else
      var reading := Some(Reading(available, busy, measured));
      Ok(Acknowledged(Noticed(c1, measured, sample).(bridge := c.bridge.(reading := reading)), epoch))
  }

  predicate Answers(c: Client, token: nat) {
    c.inflight.Some? && c.inflight.value.token == token
  }

  /** The verdict of the command in flight. */
  function OnDone(c: Client, ok: bool): Client
    requires c.inflight.Some?
  {
    var sent := c.inflight.value;
    if !ok && !sent.verb.Grasp? && !sent.request.graspOperation then Fail(c)
    else c.(inflight := None, outcomes := c.outcomes + [Outcome(sent.tag, Finished(ok))])
  }

  /** One line received. `Err` is a line the client cannot accept: the link is given up. */
  function Receive(c: Client, line: Down): Result<Client, Client> {
    match line
    case Caps => Ok(c.(bridge := c.bridge.(activeStop := true)))
    case Envelope(limits) => Ok(c.(bridge := c.bridge.(limits := limits)))
    case Stopping(epoch) =>
      Ok(if c.stop.waiting then c.(stop := c.stop.(epoch := Some(epoch), sample := c.samples.count)) else c)
    case State(width, _) =>
      if 0.0 <= width <= c.bridge.limits.widthMax then Ok(c.(bridge := c.bridge.(width := true))) else Err(c)
    case Meta(epoch, available, busy, measured, sample) => OnMeta(c, epoch, available, busy, measured, sample)
    case Reject(token, _) => Ok(if Answers(c, token) then Fail(c) else c)
    case Done(token, ok, _) => Ok(if Answers(c, token) then OnDone(c, ok) else c)
    case Accept(_) => Ok(c)
    case Gdone(_) => Ok(c)
  }
}
