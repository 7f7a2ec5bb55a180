/** The Hand's line protocol, as `end_effectors/franka_adapter.py` and `end_effectors/sim_hand_bridge.py` speak it.
    A `tag` numbers the client's submissions; neither side reads it. */
module HandWire {
  import opened Wrappers

  datatype Limits = Limits(widthMax: real, speedMax: real, forceMin: real, forceMax: real)

  const FRANKA_HAND := Limits(0.08, 0.10, 30.0, 70.0)

  datatype Verb =
    | Move(width: real, speed: real)
    | Home
    | Grasp(width: real, speed: real, force: real, epsilonIn: real, epsilonOut: real)

  /** What both sides check of a command against the gripper's stated envelope; no force range, no grasp. */
  predicate InEnvelope(limits: Limits, verb: Verb) {
    match verb
    case Home => true
    case Move(w, s) => 0.0 <= w <= limits.widthMax && 0.0 < s <= limits.speedMax
    case Grasp(w, s, f, ei, eo) =>
      && 0.0 <= w <= limits.widthMax && 0.0 < s <= limits.speedMax
      && limits.forceMax > 0.0 && limits.forceMin <= f <= limits.forceMax
      && 0.0 <= ei <= limits.widthMax && 0.0 <= eo <= limits.widthMax
  }

  /** Client to server. `Garbled` is a line the server cannot parse, with the token it managed to read, or 0. */
  datatype Up = Cmd(token: nat, verb: Verb, tag: nat) | Gstop | Garbled(token: nat)

  /** Server to client. */
  datatype Down =
    | Accept(token: nat)
    | Reject(token: nat, tag: nat)
    | Done(token: nat, ok: bool, tag: nat)
    | Gdone(ok: bool)
    | Stopping(epoch: nat)
    | Caps
    | Envelope(limits: Limits)
    | State(width: real, grasped: bool)
    | Meta(epoch: nat, available: bool, busy: bool, measured: bool, sample: nat)
}
