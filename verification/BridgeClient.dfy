/** The client object of `end_effectors/franka_adapter.py`, each method proved to make the step of `HandClient` it
    stands for. */
module BridgeClient {
  import opened Wrappers
  import opened HandWire
  import Spec = HandClient

  class BridgeClient {
    var connected: bool
    var epoch: Option<nat>
    var samples: Spec.Samples
    var command: Option<Spec.Sent>
    var inflight: Option<Spec.Sent>
    var stop: Spec.Stop
    var bridge: Spec.Bridge
    var outcomes: seq<Spec.Outcome>

    function Value(): Spec.Client
      reads this
    {
      Spec.Client(connected, epoch, samples, command, inflight, stop, bridge, outcomes)
    }

    constructor ()
      ensures Value() == Spec.START
    {
      connected, epoch, samples := false, None, Spec.Samples(None, 0, -1);
      command, inflight, stop, bridge, outcomes := None, None, Spec.NO_STOP, Spec.SILENT, [];
    }

    /** Admit one action. `tag` numbers the submission; it is not read. */
    method SendLine(verb: Verb, request: Spec.Request, tag: nat, recent: bool) returns (admitted: bool)
      modifies this
      ensures admitted == Spec.Submittable(old(Value()), verb, request, recent)
      ensures Value() == Spec.Submit(old(Value()), verb, request, tag, recent)
    {
      if !InEnvelope(bridge.limits, verb) {
        return false;
      }
      if (request.positionMove || request.requiresActiveStop) && !(connected && bridge.activeStop) {
        return false;
      }
      var reading := bridge.reading;
      var available := connected && reading.Some? && reading.value.available;
      var busy := stop.waiting || inflight.Some? || (reading.Some? && reading.value.busy);
      var measured := reading.Some? && reading.value.measured && bridge.width && connected && !stop.waiting && recent
                      && samples.count > samples.admitted;
      if stop.cancel || !(available && epoch.Some? && measured) || busy {
        return false;
      }
      command := Some(Spec.Sent(epoch.value, verb, request, tag));
      inflight := command;
      samples := samples.(admitted := samples.count);
      return true;
    }

    method Fail()
      modifies this`command, this`inflight, this`outcomes
      ensures Value() == Spec.Fail(old(Value()))
    {
      if inflight.Some? {
        outcomes := outcomes + [Spec.Outcome(inflight.value.tag, Spec.Failed)];
      }
      command, inflight := None, None;
    }

    method CancelMove()
      modifies this
      ensures Value() == Spec.CancelMove(old(Value()))
    {
      if !stop.waiting {
        stop := stop.(cancel := true, waiting := true, epoch := None);
      }
      Fail();
    }

    /** The line one turn of the socket loop sends. */
    method Transmit() returns (line: Option<Up>)
      modifies this
      ensures line == Spec.Outgoing(old(Value()))
      ensures Value() == Spec.Transmit(old(Value()))
    {
      var stopping, sent := stop.cancel, command;
      stop, command := stop.(cancel := false), None;
      if stopping {
        return Some(Gstop);
      }
      return if sent.Some? then Some(Cmd(sent.value.token, sent.value.verb, sent.value.tag)) else None;
    }

    method Connect()
      modifies this
      ensures Value() == Spec.Connect(old(Value()))
    {
      connected, epoch := true, None;
      samples := samples.(bridge := None);
      bridge := Spec.SILENT;
      stop := stop.(cancel := false, waiting := false, epoch := None);
    }

    method LoseLink()
      modifies this
      ensures Value() == Spec.LoseLink(old(Value()))
    {
      connected, epoch := false, None;
      Fail();
    }

    method Notice(measured: bool, sample: nat)
      modifies this`samples
      ensures Value() == Spec.Noticed(old(Value()), measured, sample)
    {
      if measured && samples.bridge != Some(sample) {
        samples := samples.(bridge := Some(sample), count := samples.count + 1);
      }
    }

    method Acknowledge(stated: nat)
      modifies this`stop
      ensures Value() == Spec.Acknowledged(old(Value()), stated)
    {
      var reading := bridge.reading;
      if stop.waiting && stop.epoch.Some? && stated >= stop.epoch.value && reading.Some? && reading.value.available
         && !reading.value.busy && reading.value.measured && samples.count > stop.sample {
        stop := stop.(waiting := false, epoch := None);
      }
    }

    method ReceiveMeta(stated: nat, available: bool, busy: bool, measured: bool, sample: nat) returns (ok: bool)
      modifies this
      ensures (if ok then Ok(Value()) else Err(Value()))
           == Spec.OnMeta(old(Value()), stated, available, busy, measured, sample)
    {
      hide Spec.Fail, Spec.Acknowledged;
      if inflight.Some? && (!available || (stated != inflight.value.token && stated != inflight.value.token + 1)) {
        Fail();
      }
      epoch := Some(stated);
      if samples.bridge.Some? && sample < samples.bridge.value {
        return false;
      }
      Notice(measured, sample);
      bridge := bridge.(reading := Some(Spec.Reading(available, busy, measured)));
      Acknowledge(stated);
      return true;
    }

    /** One line from the bridge; false gives up the link. */
    method Receive(line: Down) returns (ok: bool)
      modifies this
      ensures (if ok then Ok(Value()) else Err(Value())) == Spec.Receive(old(Value()), line)
    {
      ok := true;
      match line
      case Caps =>
        bridge := bridge.(activeStop := true);
      case Envelope(stated) =>
        bridge := bridge.(limits := stated);
      case Stopping(stated) =>
        if stop.waiting {
          stop := stop.(epoch := Some(stated), sample := samples.count);
        }
      case State(stated, _) =>
        if stated < 0.0 || stated > bridge.limits.widthMax {
          return false;
        }
        bridge := bridge.(width := true);
      case Meta(stated, available, busy, measured, sample) =>
        hide Spec.OnMeta;
        ok := ReceiveMeta(stated, available, busy, measured, sample);
      case Reject(token, _) =>
        if inflight.Some? && token == inflight.value.token {
          Fail();
        }
      case Done(token, success, _) =>
        if inflight.Some? && token == inflight.value.token {
          if !inflight.value.verb.Grasp? && !inflight.value.request.graspOperation && !success {
            Fail();
          } else {
            outcomes := outcomes + [Spec.Outcome(inflight.value.tag, Spec.Finished(success))];
            inflight := None;
          }
        }
      case _ =>
    }
  }
}
