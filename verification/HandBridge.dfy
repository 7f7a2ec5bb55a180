/** The objects of `end_effectors/sim_hand_bridge.py`, each method proved to make the step of `HandServer` it stands
    for. */
module HandBridge {
  import opened Wrappers
  import opened HandWire
  import Spec = HandServer

  class Admission {
    var pending: Option<Spec.Action>
    var epoch: nat
    var client: bool
    var acting: bool
    var committed: bool
    var stopping: bool

    function Value(): Spec.Admission
      reads this
    {
      Spec.Admission(pending, epoch, client, acting, committed, stopping)
    }

    constructor ()
      ensures Value() == Spec.START.adm
    {
      pending, epoch, client, acting, committed, stopping := None, 1, false, false, false, false;
    }

    method Cancel()
      modifies this
      ensures Value() == Spec.Cancel(old(Value()))
    {
      pending := None;
      epoch := epoch + 1;
    }

    method RequestStop()
      modifies this
      ensures Value() == Spec.RequestStop(old(Value()))
    {
      Cancel();
      stopping := true;
    }

    method Admit(token: nat, verb: Verb, tag: nat, young: bool) returns (error: Option<string>)
      modifies this
      ensures error == Spec.Refusal(old(Value()), token, young)
      ensures Value() == Spec.Admit(old(Value()), token, verb, tag, young)
    {
      if !client {
        return Some("offline");
      }
      if stopping {
        return Some("stopping");
      }
      if token != epoch {
        return Some("stale_epoch");
      }
      if acting || pending.Some? {
        return Some("busy");
      }
      if !young {
        return Some("stale_state");
      }
      epoch := epoch + 1;
      pending := Some(Spec.Action(token, verb, tag, epoch));
      return None;
    }

    method Take() returns (action: Option<Spec.Action>)
      modifies this
      ensures (Value(), action) == Spec.Take(old(Value()))
    {
      if !client || pending.None? || acting || stopping {
        return None;
      }
      action, pending := pending, None;
      if !(client && action.value.generation == epoch) {
        return None;
      }
      acting, committed := true, true;
    }
  }

  class SimHandBridge {
    const limits: Limits
    const adm: Admission
    var acting: Option<Spec.Action>
    var haveReal: bool
    var fingers: Spec.Fingers
    var sampleSeq: nat
    var graspSeq: nat
    var graspOk: bool
    var doneSeq: nat
    var doneToken: nat
    var doneOk: bool
    var doneTag: nat
    var seenGrasp: nat
    var seenDone: nat

    function Value(): Spec.Server
      reads this, adm
    {
      Spec.Server(adm.Value(), acting, haveReal, fingers, sampleSeq,
                  Mail())
    }

    function Mail(): Spec.Mailbox
      reads this
    {
      Spec.Mailbox(graspSeq, graspOk, doneSeq, doneToken, doneOk, doneTag, seenGrasp, seenDone)
    }

    constructor (limits: Limits)
      ensures Value() == Spec.START && this.limits == limits && fresh(adm)
    {
      this.limits := limits;
      adm := new Admission();
      acting, haveReal, fingers, sampleSeq := None, false, Spec.Fingers(0.0, false), 0;
      graspSeq, graspOk, doneSeq, doneToken, doneOk, doneTag := 0, false, 0, 0, false, 0;
      seenGrasp, seenDone := 0, 0;
    }

    method Post(action: Spec.Action, ok: bool)
      modifies this`doneToken, this`doneTag, this`doneOk, this`doneSeq, this`graspOk, this`graspSeq
      ensures Mail() == Spec.Post(old(Mail()), action, ok)
    {
      doneToken, doneTag, doneOk, doneSeq := action.token, action.tag, ok, doneSeq + 1;
      if action.verb.Grasp? {
        graspOk, graspSeq := ok, graspSeq + 1;
      }
    }

    /** The running action's verdict: posted only if its epoch still stands. */
    method Finish(ok: bool)
      requires acting.Some?
      modifies this, adm
      ensures Value() == Spec.Finish(old(Value()), old(acting).value, ok)
    {
      hide Spec.Post;
      var action := acting.value;
      acting := None;
      adm.acting, adm.committed := false, false;
      haveReal := false;
      if adm.client && action.generation == adm.epoch {
        Post(action, ok);
      }
    }

    method Observe(x: Spec.Sample)
      modifies this
      ensures Value() == Spec.Observe(old(Value()), x)
    {
      if !x.usable {
        haveReal := false;
      } else {
        haveReal, fingers := true, x.fingers;
        sampleSeq := sampleSeq + 1;
      }
    }

    method OnSample(x: Spec.Sample)
      modifies this, adm
      ensures Value() == Spec.OnSample(old(Value()), x)
    {
      if adm.stopping {
        adm.acting, adm.committed := false, false;
        acting, adm.stopping, haveReal := None, false, false;
        return;
      }
      Observe(x);
      hide Spec.Finish, Spec.Take;
      if acting.Some? {
        if x.verdict.Some? {
          Finish(x.verdict.value);
        }
      } else {
        acting := adm.Take();
      }
    }

    method Connect()
      modifies this, adm
      ensures Value() == Spec.Connect(old(Value()))
    {
      seenGrasp, seenDone := graspSeq, doneSeq;
      adm.Cancel();
      adm.client := true;
    }

    method Disconnect()
      modifies this, adm
      ensures Value() == Spec.Disconnect(old(Value()))
    {
      adm.client := false;
      if adm.committed || adm.stopping {
        adm.RequestStop();
        haveReal := false;
      } else {
        adm.Cancel();
      }
    }

    method Handle(line: Up, recent: bool) returns (reply: Down)
      modifies this, adm
      ensures Value() == Spec.Handle(old(Value()), limits, line, recent)
      ensures reply == Spec.Reply(old(Value()), limits, line, recent)
    {
      match line
      case Gstop =>
        adm.RequestStop();
        haveReal := false;
        reply := Stopping(adm.epoch);
      case Garbled(token) =>
        reply := Reject(token, 0);
      case Cmd(token, verb, tag) =>
        if !InEnvelope(limits, verb) {
          return Reject(token, tag);
        }
        var error := adm.Admit(token, verb, tag, haveReal && recent);
        reply := if error.Some? then Reject(token, tag) else Accept(token);
    }

    method Periodic(recent: bool) returns (lines: seq<Down>)
      ensures lines == Spec.Periodic(Value(), limits, recent)
    {
      var busy := adm.acting || adm.pending.Some? || adm.stopping;
      lines := [Envelope(limits)];
      if haveReal || adm.acting {
        lines := lines + [State(fingers.width, fingers.grasped)];
      }
      lines := lines + [Caps, Meta(adm.epoch, true, busy, haveReal && recent && !busy, sampleSeq)];
    }

    method Report(due: bool, recent: bool) returns (lines: seq<Down>)
      modifies this
      ensures Value() == Spec.Report(old(Value()))
      ensures lines == Spec.Reported(old(Value()), limits, due, recent)
    {
      hide Spec.Periodic;
      var periodic := [];
      if due {
        periodic := Periodic(recent);
      }
      lines := [];
      if graspSeq != seenGrasp {
        seenGrasp := graspSeq;
        lines := lines + [Gdone(graspOk)];
      }
      if doneSeq != seenDone {
        seenDone := doneSeq;
        lines := lines + [Done(doneToken, doneOk, doneTag)];
      }
      lines := lines + periodic;
    }
  }
}
