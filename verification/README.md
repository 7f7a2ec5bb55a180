# Arm control: protocols, motion law and configuration

A model of the stateful core of the arm stack and proofs about it, one file per source file:

- `JogRamp.dfy`, `JogHold.dfy` - a streamed jog target: the deadman and the discrete velocity and acceleration limiter.
- `Arm.dfy` - what every event does to the arm controller; `ArmController.dfy` - the controller as a class, proved to do
  that; `ArmTrace.dfy` - a monitor that reads the controller's trace and knows no controller state, and the proof that
  every run satisfies it; `ArmFacts.dfy` - what an accepted trace means for any two of its events;
  `ArmClock.dfy` - the times in it; `ArmHolds.dfy` - where the arm is held between motions, and what ends a freeze;
  `ArmJogs.dfy` - a streamed jog, whose ramp stays in the band of the policy.
  `LegSettling.dfy` and `Integral.dfy` are the parts the controller owns.
- `HandServer.dfy` and `HandBridge.dfy` (server), `HandClient.dfy` and `BridgeClient.dfy` (client), `HandWire.dfy` (lines
  on the wire) and `HandSession.dfy` - both sides over two queues, with cancels, disconnects, reconnects and other
  clients in between. `HandGrasp.dfy` turns its verdicts into results.
- `Chunks.dfy` - the client of an action-chunk policy over one supervised stream, with the supervisor's own streams.
- `Config.dfy` and `Scene.dfy` over `Includes.dfy` - layered configuration, its provenance, and the files of a scene.
- `Contract.dfy` - the fold of an execution's receipts; `Motor.dfy` - the strided wire layouts.
- `Wrappers.dfy`, `Reals.dfy` - option and result types, and arithmetic both use.

State that the source updates in place is a class whose methods are proved against functions on its value; the
properties are lemmas about those functions over every run. Numbers are exact. The square root in the jog ramp is any
function whose square gives back its nonnegative argument. Torque, gains, hand poses, the sampling of a trajectory, the
clock and the replies of other processes are inputs.

What the code does where its comments say otherwise:

- `arm_control/control/jog_hold.py:125-126` says the stop at a limit, the clipped tick and the next, exceeds the
  acceleration limit by up to 2x. Of the commanded motion that holds while targets stay inside the envelope
  (`StreamAcceleration`). With targets outside it may fail (`StopOutsideEnvelopeTargets`), and when it does is exact: on the
  clipped tick, when the room left to the limit is less than the last move by more than two acceleration steps
  (`StopIsGentleExactly`); on the next, for some target, when the clipped tick moved further than two such steps less the
  pace at which the joint starts again (`AfterStopIsGentleExactly`). The supervisor refuses targets outside the envelope
  widened to where the arm has been since ARM (`arm_control/supervisor/runtime.py:481-485`), so it passes them on, beyond
  its tolerance, only to an arm that rested past the limit.
- The adjustment at `arm_control/control/jog_hold.py:115-118` never acts (`LandingAdjustmentIsIdle`), and a fixed target is
  passed on exactly the ticks at whose start full braking would pass it, unless it is the limit (`PassesExactly`), by at
  most `a_max dt^2 / 8` (`NeverFarPast`).
- `arm_control/control/arm_controller.py:402` says `hold`, and DISARM, clear a freeze. `hold` never does
  (`ControlThawsExactly`); it sets one (line 373). A control update that disarms does so exactly
  when it also cancels and does not hold (`DisarmThawsExactly`): one with `arm` false and no `cancel` leaves the freeze, and
  the one the supervisor sends (`arm_control/supervisor/runtime.py:1205`) ends it.
- `arm_control/clients/chunks.py:57-63` opens a stream once the last is confirmed cancelled. A stream whose opening reply was
  lost is known to no client, and the supervisor opens none beside it: every start fails while it lives, and one that is
  otherwise in order opens again exactly once it has ended (`StartOpensExactly`).
- `arm_control/config.py:103-107` calls the flat layers the runtime's merge order. Folding them gives the resolved
  configuration exactly where no key the tree still has was last spoken of by a removal (`ResolveIsFlatExactly`).

## Model

| member | source | states |
|---|---|---|
| JogRamp.SettlesOnTarget | arm_control/control/jog_hold.py:104-129 | From rest, towards a fixed target inside the envelope, the joint stands exactly on the target at zero speed at every tick `n >= 3` with `n - 2 >= distance / (min(a_max dt, v_max) dt)` |
| JogRamp.NeverFarPast | arm_control/control/jog_hold.py:109-118 | On the way there it is never behind its start nor past the target by more than `a_max dt^2 / 8`, at any tick |
| JogRamp.OvershootIsReached | arm_control/control/jog_hold.py:109-118 | That bound is reached: a run that passes its target by exactly `a_max dt^2 / 8` |
| JogRamp.PassesExactly | arm_control/control/jog_hold.py:109-128 | From rest towards a target held inside the envelope, from either side: which tick ends past it. Tick `n + 1` does if and only if full braking from the speed at tick `n` still carries past the target, and the target is not the limit on that side |
| JogRamp.TickPassesExactly | arm_control/control/jog_hold.py:109-128 | The same of one tick of any joint, at any speed, towards any target not below it |
| JogRamp.LandingAdjustmentIsIdle | arm_control/control/jog_hold.py:115-118 | The adjustment of the last tick never changes the speed the two clips give, for any cap, error and speed |
| JogRamp.CapIsRoot | arm_control/control/jog_hold.py:110-113 | The cap is the smaller of `v_max` and the nonnegative root `c` of `c (c + s) dt = 2 s abs(error)`, with `s = a_max dt` |
| JogRamp.TickBounds | arm_control/control/jog_hold.py:104-129 | Under any target `abs(v) <= v_max`; the speed changes by at most `a_max dt` on a tick the envelope does not stop and is zero on one it does; the command stays in the band of envelope, target and last command |
| JogRamp.FollowStaysInHull | arm_control/control/jog_hold.py:120-128 | Under any stream of targets the command stays in any interval that holds the envelope, the start and the targets, so inside the envelope once they all are |
| JogRamp.StreamAcceleration | arm_control/control/jog_hold.py:120-128 | While targets stream inside the envelope, from rest, the speed of the commanded motion changes by at most `2 a_max dt` from any tick to the next (`abs(q2 - 2 q1 + q0) <= 2 a_max dt^2`), the tick the envelope stops and the one after it included |
| JogRamp.StopIsGentleExactly | arm_control/control/jog_hold.py:120-128 | Under any targets, on a tick after one the envelope did not stop: the speed of the commanded motion changes by at most `2 a_max dt` if and only if the envelope does not stop this tick, or leaves it room for the last move less two steps `2 a_max dt^2` |
| JogRamp.AfterStopIsGentleExactly | arm_control/control/jog_hold.py:120-128 | On the tick after a stopped one: that holds for every target it may be given if and only if the stopped tick moved at most `(2 a_max dt - min(a_max dt, v_max)) dt`; so these two rows settle every tick |
| JogRamp.StopOutsideEnvelopeTargets | arm_control/control/jog_hold.py:120-128 | With targets outside the envelope the factor two can fail: a run from rest whose commanded speed changes by four times `a_max dt` at the tick after the stop |
| JogRamp.MirrorSeek | arm_control/control/jog_hold.py:104-129 | The law is the same in both directions: mirrored limits, start and target give the mirrored run |
| JogRamp.Ramp.Advance | arm_control/control/jog_hold.py:104-129 | Every joint makes its own tick, from where the last one left it or, after a reset, from the measured pose at rest |
| JogRamp.Ramp.AdvanceJoint | arm_control/control/jog_hold.py:109-128 | Position and speed of one joint after one tick, saturated by the envelope |
| JogRamp.Ramp.Reset | arm_control/control/jog_hold.py:100-102 | The next tick starts from the measured pose at rest |
| JogHold.ExpiresOncePerRenewal | arm_control/control/jog_hold.py:34-71 | Over every run the expiries reported, an expiry still owed and a live setpoint are together at most the renewals: silence is reported once |
| JogHold.SilenceIsFinal | arm_control/control/jog_hold.py:42-71 | In every run, once a poll finds the setpoint stale, no sequence of polls, takes and clears brings one back, and at most one more expiry is reported until a renewal |
| JogHold.Hold.Set | arm_control/control/jog_hold.py:34-40 | A setpoint of the right width is taken and renews the deadline; another width is refused and changes nothing |
| JogHold.Hold.Target | arm_control/control/jog_hold.py:55-66 | Answers the setpoint while it is young enough; the first poll past the timeout drops it and leaves one expiry owed |
| JogHold.Hold.TakeExpired | arm_control/control/jog_hold.py:68-71 | True once per expiry |
| LegSettling.SettledExactly | arm_control/control/leg_settling.py:64-91 | A poll settles a leg if and only if it is fresh, not past the timeout, and some fresh poll at least the dwell earlier, once the leg was known to have ended, began an unbroken run of done samples |
| LegSettling.ClocksTrack | arm_control/control/leg_settling.py:64-82 | Over every run of polls `settled_since` is the start of the longest unbroken run of done samples after the leg end |
| LegSettling.TimeoutIsFinal | arm_control/control/leg_settling.py:64-95 | In every run of polls, once one comes past the timeout it and all later ones time the leg out, and from the timeout on every poll finishes it |
| LegSettling.Settler.Poll | arm_control/control/leg_settling.py:64-95 | The verdict and the clocks after one poll, the leg end taken from the first poll that found the reference ended |
| LegSettling.Settler.DueToReport | arm_control/control/leg_settling.py:97-102 | True at most once per report period, and then the period starts over |
| ArmTrace.EveryRunIsGood | arm_control/control/arm_controller.py:270-654 | For every run of plans, controls, jogs, health and state messages, ticks and send reports: a running leg is armed, ready, not stopped, with a plan and a reference and no jog or pose hold; a pose hold has no plan and no jog; what runs is the loaded plan; and the trace stays within what the monitor allows |
| ArmTrace.StepKeeps | arm_control/control/arm_controller.py:270-654 | Any one event keeps all of that |
| ArmFacts.ReleasesTheStagedPlan | arm_control/control/arm_controller.py:701-756 | What is released is the plan staged last, with no result and no cancel since: a replaced plan never runs |
| ArmFacts.WordsFollowTheRelease | arm_control/control/arm_controller.py:609-630 | A leg word samples the trajectory of the plan released last, as far in as the time it was made is from the release stamp, carries that plan's Cartesian spec, and never a pose hold |
| ArmClock.LegsOnlyAdvance | arm_control/control/arm_controller.py:609-630 | In every run whose reference clock never runs backwards, of two words of one flight the later samples the same trajectory at least as far in |
| ArmClock.RunIsInOrder | arm_control/control/arm_controller.py:657-665 | In every such run the times at which the trace read that clock are in order; on the plant's own clock they always are |
| ArmClock.EverySuccessIsEarned | arm_control/control/arm_controller.py:924-952 | In every run whose reference clock never runs backwards, an ok result names the plan released, with nothing between that ended or replaced it, and the polls made since then end in a fresh one within the timeout, at least the dwell after a fresh one past the trajectory's end from which on every fresh sample called the leg done |
| ArmFacts.SuccessIsEarned | arm_control/control/arm_controller.py:924-952 | The same of any trace the monitor accepts with its times in order |
| ArmTrace.JudgedKeeps | arm_control/control/arm_controller.py:934-943 | The settling clocks are at every moment those of exactly the polls made since the release |
| ArmFacts.OneResultPerStaging | arm_control/control/arm_controller.py:1000-1013 | A result bears the id of the plan staged last, and no staging has two results |
| ArmFacts.EveryReleaseEnds | arm_control/control/arm_controller.py:834-892 | Before another plan is staged or released, and before a cancel, a disarm, a fault or a hold word, a released leg has had its result or was dropped by `hold` |
| ArmFacts.NothingAfterFault | arm_control/control/arm_controller.py:1165-1180 | After a stop no word, ready, staging or release ever follows, whatever is armed later |
| ArmFacts.WordsNeedAuthority | arm_control/control/arm_controller.py:536-575 | Every word has a ready of its own since the last ARM that was not undone and since the last pause of the observation |
| ArmFacts.EpisodeStaysInBand | arm_control/control/arm_controller.py:1016-1032 | Every word of an armed episode lies in the band as it stands at any later time of the episode: the configured limit on a side where the arm rested inside, the outermost pose measured since ARM on a side it rested past |
| ArmFacts.EpisodeWidens | arm_control/control/arm_controller.py:494-500 | From a word on, until the next ARM, the measured poses only accumulate, and the resting pose, if one is known by then, is fixed |
| ArmFacts.MeasuredHoldPasses | arm_control/control/arm_controller.py:1034-1040 | At any moment of any run the hold at the measured pose passes the band if and only if each joint is inside its limits or past the one it rested past |
| ArmJogs.NoJogRefusedForPosition | arm_control/control/arm_controller.py:631-650 | With `JogRamp.Tick` as the controller advances its ramp, in every run whose taken jogs ask for poses in the band, fixed by then, and whose ramps start in it: no jog word is refused for its position. The ramped pose passes the policy exactly when the dynamics do, and within the tracking error it is the word sent |
| ArmJogs.RunKeepsIn | arm_control/control/arm_controller.py:383-433 | In every such run a live jog and its ramp are in the band as it stands, at every step: poses measured meanwhile only widen it, and whatever else happens leaves both or drops the jog |
| ArmJogs.AdvanceStaysIn | arm_control/control/jog_hold.py:104-129 | From inside any band that holds the envelope, towards a pose inside it, every joint of the ramp stays inside |
| ArmHolds.HoldNeverWalks | arm_control/control/arm_controller.py:474-654 | Over any number of motor states and ticks with an unbroken observation, every tick sends a word, and every word asks for the pose the hold was anchored at, however the arm sags within what the policy allows |
| ArmHolds.CycleHolds | arm_control/control/arm_controller.py:1056-1064 | One such cycle sends the anchor itself and moves nothing else |
| ArmHolds.StaleJogHoldsMeasured | arm_control/control/arm_controller.py:418-437 | The cycle that finds a jog stale asks for the measured pose, whatever was asked for last, and anchors there |
| ArmHolds.SettledLegHoldsItsEnd | arm_control/control/arm_controller.py:594-608 | A settled joint leg is anchored at its planned end, one with its own rule anchors anew, one released during a freeze keeps the hold there was, and a timed-out one is frozen where the arm is |
| ArmHolds.ControlThawsExactly | arm_control/control/arm_controller.py:341-381 | A control update ends a freeze if and only if it does not hold, and cancels (the loaded plan, none in particular, or with none loaded) or brings admissible gains that end a pose hold or a leg |
| ArmHolds.DisarmThawsExactly | arm_control/control/arm_controller.py:341-381 | An update that disarms an armed arm ends its freeze if and only if it also cancels and does not hold |
| ArmTrace.BandLow | arm_control/control/execution_policy.py:84-96 | The widened lower band admits nothing further out than the limit or, past which the joint rested, some pose measured since ARM |
| ArmTrace.BandHigh | arm_control/control/execution_policy.py:84-96 | The same on the upper side |
| ArmTrace.ValidIsWithin | arm_control/control/execution_policy.py:188-201 | A command the policy calls valid is within the band told from the trace alone |
| ArmTrace.SendKeeps | arm_control/control/arm_controller.py:1077-1118 | Any word keeps the invariants of the run. A valid one near enough, or under a pose hold, is the word sent; an invalid one sends none and stops the arm; one too far off ends the leg and sends the measured hold, or stops the arm if that is invalid |
| ArmTrace.CheckKeeps | arm_control/control/arm_controller.py:924-998 | A verdict ends the leg with one result, ok only in time; without one the leg is untouched |
| ArmTrace.ReleaseKeeps | arm_control/control/arm_controller.py:687-756 | A release does nothing for another name or beside a running leg, fails the plan without authority or with a bad start, and otherwise runs the loaded plan from now or the stamp given, with no jog left |
| ArmTrace.RecordRemembers | arm_control/control/arm_controller.py:494-500 | The recorded box is exactly the hull of the poses measured since ARM, and the resting pose one of them |
| ArmController.Controller.OnPlan | arm_control/control/arm_controller.py:270-339 | Refused while a pose hold, a stop, a freeze or a running leg stands, or its start or the observation fails; else staged, and released at once unless gated |
| ArmController.Controller.Direct | arm_control/control/arm_controller.py:341-356 | ARM, release, gains and pose hold of one update, in this order |
| ArmController.Controller.Interrupt | arm_control/control/arm_controller.py:357-381 | Cancel, hold and stop of one update, in this order; `hold` drops a running leg without a result and keeps its plan |
| ArmController.Controller.CancelNamed | arm_control/control/arm_controller.py:357-370 | A cancel that names a plan clears no other plan |
| ArmController.Controller.OnJog | arm_control/control/arm_controller.py:383-405 | Taken exactly when nothing refuses it; a new jog starts the ramp afresh |
| ArmController.Controller.ClearJog | arm_control/control/arm_controller.py:412-416 | A live jog is dropped and the measured pose held |
| ArmController.Controller.OnHealth | arm_control/control/arm_controller.py:439-472 | Arms only on an edge seen while this controller wants authority; a plant that reports itself disarmed faults |
| ArmController.Controller.AdoptRtHold | arm_control/control/arm_controller.py:447-459 | When the plant starts to hold, the running leg is retired and exactly that hold is taken over |
| ArmController.Controller.OnState | arm_control/control/arm_controller.py:474-506 | Plant time, the gap and finiteness guards, the episode's record, and without a policy the servo cycle |
| ArmController.Controller.OnTick | arm_control/control/arm_controller.py:547-556 | A servo cycle only with a fresh, healthy observation; otherwise the observation is paused |
| ArmController.Controller.PauseObservation | arm_control/control/arm_controller.py:536-545 | Readiness and the last command are dropped, and the hold anchor kept only for a healthy plant-side hold |
| ArmController.Controller.Stream | arm_control/control/arm_controller.py:558-577 | Nothing while disarmed or unacknowledged; ready is said before the first word |
| ArmController.Controller.Serve | arm_control/control/arm_controller.py:578-654 | The gap guard, then completion under a policy, then the leg's word or else the jog or hold |
| ArmController.Controller.StopAtGap | arm_control/control/arm_controller.py:578-591 | A leg whose commands went unsent too long is cancelled and its last sent target held |
| ArmController.Controller.StreamLeg | arm_control/control/arm_controller.py:609-630 | The reference sampled at its own phase, sent as the leg's word |
| ArmController.Controller.PollJog | arm_control/control/arm_controller.py:418-437 | An expired jog is held at the measured pose |
| ArmController.Controller.StreamHold | arm_control/control/arm_controller.py:631-654 | The ramped jog target or, without one, the anchored hold |
| ArmController.Controller.AnchoredHold | arm_control/control/arm_controller.py:1042-1075 | The anchor is kept until it is lost or, under a policy, the arm drifted from it |
| ArmController.Controller.Complete | arm_control/control/arm_controller.py:594-608 | A settled joint leg holds its planned end, and a leg with its own rule its measured pose |
| ArmController.Controller.CheckCompletion | arm_control/control/arm_controller.py:924-998 | One poll of the settling clocks, once per new sample, and what its verdict does |
| ArmController.Controller.GiveUp | arm_control/control/arm_controller.py:972-989 | A failed settle freezes at the measured pose and fails the leg |
| ArmController.Controller.FinishLeg | arm_control/control/arm_controller.py:1000-1013 | The leg and its plan are gone and its result carries its own id |
| ArmController.Controller.Release | arm_control/control/arm_controller.py:701-756 | The named plan starts now or at the given stamp; a wrong name does nothing, missing authority or a bad start fails it |
| ArmController.Controller.SetSoft | arm_control/control/arm_controller.py:780-792 | An admitted pose hold first cancels whatever is loaded or live |
| ArmController.Controller.SetGains | arm_control/control/arm_controller.py:794-832 | Inadmissible gains change nothing; admissible ones end a pose hold or a running leg first |
| ArmController.Controller.Cancel | arm_control/control/arm_controller.py:834-892 | Everything loaded or live is dropped, a freeze is lifted, and the anchor survives only the cancel of an unreleased joint plan at rest |
| ArmController.Controller.Send | arm_control/control/arm_controller.py:1077-1118 | Checked against band and tracking, replaced by a measured hold or by a fault |
| ArmController.Controller.SetArm | arm_control/control/arm_controller.py:1120-1133 | On the ARM edge the resting pose and its record start over; on the other edge the controller is reset |
| ArmController.Controller.DisarmReset | arm_control/control/arm_controller.py:1135-1160 | A running leg fails, and plan, hold, jog and readiness are gone; a freeze is not |
| ArmController.Controller.RaiseFault | arm_control/control/arm_controller.py:1165-1168 | The running leg fails before the stop |
| ArmController.Controller.Stop | arm_control/control/arm_controller.py:1170-1180 | Latches once, disarming first |
| ArmController.Controller.TakeState | arm_control/control/arm_controller.py:494-500 | The measured pose joins the episode, as the resting pose until the first command |
| ArmController.Controller.OnSent | arm_control/control/arm_controller.py:213-217 | Only a word of the named, still running leg is recorded |
| HandSession.CreditsAreTheirOwnVerdicts | arm_control/end_effectors/franka_adapter.py:308-325 | In every run against the server, whatever is cancelled, dropped, reconnected or served in between: a verdict the client takes is the one verdict the plant reached for exactly that command, no command is concluded twice, and no result on a live connection is replaced before it is reported |
| HandSession.StateNeverOvertakes | arm_control/end_effectors/franka_adapter.py:291-293 | The epoch a state line brings never gives up a command in flight: it is always that command's own or the next |
| HandSession.RunKeeps | arm_control/end_effectors/franka_adapter.py:340-421 | Over every run a command is in at most one place: with the client, on its way, pending, running, in the mailbox or in a reply; and a stop likewise |
| HandSession.StepKeeps | arm_control/end_effectors/franka_adapter.py:340-421 | Any one step of either side keeps that |
| HandSession.SingleKeeps | arm_control/end_effectors/sim_hand_bridge.py:243-280 | No command gets a second verdict, step by step |
| HandSession.PlantMovesToken | arm_control/end_effectors/sim_hand_bridge.py:243-280 | A sample moves a command from pending to running, or from running to the mailbox, or drops a stopped one, and never duplicates it |
| HandSession.CommandMovesToken | arm_control/end_effectors/sim_hand_bridge.py:349-364 | The answer to a command puts it in pending or in the reply, never both |
| HandServer.RunIsValid | arm_control/end_effectors/sim_hand_bridge.py:86-130 | In every run at most one action is pending or acting, and a pending one carries the current epoch |
| HandServer.EpochsNeverDecrease | arm_control/end_effectors/sim_hand_bridge.py:97-118 | Epochs never decrease |
| HandServer.PendingIsTaken | arm_control/end_effectors/sim_hand_bridge.py:120-127 | In every run an admitted action is never dropped on the way to the plant: after any lines and reports the next sample starts it, unless a stop or a disconnect comes first |
| HandServer.StoppedReportsNothing | arm_control/end_effectors/sim_hand_bridge.py:243-280 | An action pending or running when it is stopped, or when its client leaves, never reports, at any later step |
| HandServer.FreshMeansAfterTheLastAction | arm_control/end_effectors/sim_hand_bridge.py:261-269 | A sample that may admit a command was taken after the previous action ended or was stopped |
| HandServer.AdmissionIsFresh | arm_control/end_effectors/sim_hand_bridge.py:105-118 | A command is admitted only for the current epoch, inside the envelope, on such a recent sample and beside no other action |
| HandBridge.Admission.Admit | arm_control/end_effectors/sim_hand_bridge.py:105-118 | The refusals in their order; an admission takes the next epoch |
| HandBridge.Admission.Take | arm_control/end_effectors/sim_hand_bridge.py:120-127 | The pending action, if a client is there and nothing acts or stops |
| HandBridge.Admission.RequestStop | arm_control/end_effectors/sim_hand_bridge.py:101-103 | Pending work is dropped and the epoch gone |
| HandBridge.SimHandBridge.OnSample | arm_control/end_effectors/sim_hand_bridge.py:243-280 | One plant sample: a stop takes effect, or the sample is observed and the running action judged or the pending one started |
| HandBridge.SimHandBridge.Finish | arm_control/end_effectors/sim_hand_bridge.py:266-273 | A verdict is posted only if its epoch still stands; a new sample is needed either way |
| HandBridge.SimHandBridge.Handle | arm_control/end_effectors/sim_hand_bridge.py:349-364 | The reply to each line, and the stop that a stop line asks for |
| HandBridge.SimHandBridge.Report | arm_control/end_effectors/sim_hand_bridge.py:327-347 | Each result once, before the state |
| HandBridge.SimHandBridge.Connect | arm_control/end_effectors/sim_hand_bridge.py:305-309 | Results from before a connection are nobody's, and its epoch is new |
| HandBridge.SimHandBridge.Disconnect | arm_control/end_effectors/sim_hand_bridge.py:297-303 | Committed work is stopped, anything else cancelled |
| BridgeClient.BridgeClient.SendLine | arm_control/end_effectors/franka_adapter.py:204-228 | Admitted only when available, measured, idle and inside the envelope, and then alone in flight |
| BridgeClient.BridgeClient.CancelMove | arm_control/end_effectors/franka_adapter.py:253-259 | One active stop at a time; what was in flight has failed |
| BridgeClient.BridgeClient.ReceiveMeta | arm_control/end_effectors/franka_adapter.py:287-307 | The state line: an overtaken command fails, a new sample counts, and a stop is over once acknowledged, idle and freshly measured |
| BridgeClient.BridgeClient.Receive | arm_control/end_effectors/franka_adapter.py:266-325 | Every line of the protocol; a verdict only for the token in flight |
| BridgeClient.BridgeClient.Transmit | arm_control/end_effectors/franka_adapter.py:387-396 | A stop goes before a command, and drops it |
| BridgeClient.BridgeClient.Connect | arm_control/end_effectors/franka_adapter.py:348-357 | Nothing of an earlier connection is believed |
| BridgeClient.BridgeClient.LoseLink | arm_control/end_effectors/franka_adapter.py:409-421 | What was in flight has failed |
| HandGrasp.ToldOnce | arm_control/end_effectors/franka_hand.py:133-229 | When each request has its own id and none is submitted while one is pending, its requester is told nothing, a failure, a success, or a success and then the loss, in every run |
| HandGrasp.SuccessIsMeasured | arm_control/end_effectors/franka_hand.py:137-194 | In every run with measured completion a success answers an admitted request, and rests on an action finished since it was submitted and on a measured, idle sample newer than that verdict which confirms it |
| HandGrasp.HandGraspFsm.OnRequest | arm_control/end_effectors/franka_hand.py:137-161 | Refused at once, acknowledged at once when unsensed, or pending with its deadline |
| HandGrasp.HandGraspFsm.Fail | arm_control/end_effectors/franka_hand.py:163-171 | Resolves only the request named, pending or held |
| HandGrasp.HandGraspFsm.Poll | arm_control/end_effectors/franka_hand.py:173-229 | At most one result a tick: verdict, confirmation, deadline, or the loss of a held object |
| Config.MergeAssociates | arm_control/config.py:30-42 | The deep merge is associative at three documents if and only if no scalar stands between two mappings unless the last covers all the first says |
| Config.CoveredExactly | arm_control/config.py:30-42 | A merge gives back the later document if and only if it covers the earlier one |
| Config.ResolveIsFlatExactly | arm_control/config.py:76-107 | For every include tree, folding the flat layers in order gives what the tree resolves to if and only if nothing stands, by the word of the tree, at a key that the last layer to speak of it removes; both are told from the documents, with nothing merged |
| Config.TreeWordExactly | arm_control/config.py:76-100 | What a tree resolves to at a key, told from its documents alone: the last document or include to say anything decides, except that a removal followed by one that is silent of the key but has a mapping where the scalar stood counts as nothing said |
| Config.MergeWord | arm_control/config.py:30-42 | At every key of any two documents: exactly what a merge says there, told from what each says there and at the removed ancestor |
| Config.ResolveIsFlat | arm_control/config.py:76-107 | So it does whenever no path is a mapping in one layer and something else in another |
| Config.ResolveIsNotAlwaysFlat | arm_control/config.py:76-107 | A tree of four files on which they differ |
| Config.TreeHeeds | arm_control/config.py:76-100 | What a tree resolves to has nothing at a key no layer speaks of, and at any other what the last layer to speak of it says, unless that is a removal |
| Config.FlatHeeds | arm_control/config.py:103-107 | The flat fold has at every key what the last layer to speak of it says, and nothing where that removes it |
| Config.DeepMerge | arm_control/config.py:30-42 | The loop over the override's keys computes the recursive merge |
| Config.LastEntryDecides | arm_control/config.py:87-133 | For every include tree: if a key resolves to a value that is not a mapping, or to a removal by a scalar ancestor, the last history entry is exactly that; if to a mapping, the last entry is a mapping |
| Config.MergeAssigns | arm_control/config.py:110-119 | What a merge says of a key, told from what its two documents say of it |
| Config.EntriesAreOwn | arm_control/config.py:96-99 | Every history entry is what one of the layers itself says of the key |
| Config.KeyAssignment | arm_control/config.py:110-119 | The walk down a dotted key: its value, a scalar ancestor, or nothing |
| Config.BuildMirrors | arm_control/config.py:63-93 | What resolves is built from the files entry by entry, each include found where the loader looks |
| Config.CircularIsReal | arm_control/config.py:63-66 | A refusal as circular names a real chain of includes that comes back on itself, on any finite set of files |
| Config.BuiltHasNoLoop | arm_control/config.py:63-66 | And whatever resolves has no such chain |
| Config.Loader.Load | arm_control/config.py:45-100 | Result or error, the layers appended and the key's history, for every file and every set of files open above |
| Config.Loader.LoadIncludes | arm_control/config.py:76-93 | The same for the includes, in order, the first error ending it |
| Scene.SceneFiles | arm_control/scene.py:184-205 | On every finite set of files: a list is given if and only if no chain of includes loops or meets a file that is missing or refused; then it holds exactly the reachable files, each once, after all it includes, the scene last |
| Scene.Walker.Walk | arm_control/scene.py:191-202 | One file: everything new it reaches is added in merge order and none of it is open above, or a broken chain is shown |
| Scene.NotBroken | arm_control/scene.py:191-202 | A list in merge order rules out every looping or broken chain |
| Chunks.EveryRunIsGood | arm_control/clients/chunks.py:51-236 | In every run a waiting chunk implies one in flight, both of the current generation and an open, unstopped stream; selected implies admitted implies requested, each said once; and the trace stays within what the monitor allows |
| Chunks.OneAtATime | arm_control/clients/chunks.py:186-198 | After a revision that was kept, no other is attempted before it is settled, the stream ends, or the client cancels or restarts |
| Chunks.NothingOlderFollows | arm_control/clients/chunks.py:160-163 | Within a stream nothing is attempted on an observation older than that of a chunk that was, or may have been, selected |
| Chunks.GovernedNeverDecreases | arm_control/clients/chunks.py:213-228 | The governing observation time never decreases within a stream |
| Chunks.NoSecondStream | arm_control/clients/chunks.py:51-64 | Between two streams opened, the first was confirmed cancelled or seen to end |
| Chunks.OneLiveStream | arm_control/supervisor/runtime.py:577-600 | In every run at most one stream is live at the supervisor, and while it is one whose opening reply was lost the client has no session and everything submitted is late |
| Chunks.StartOpensExactly | arm_control/clients/chunks.py:51-64 | After any run, a start that gets as far as asking, is admissible and hears its reply opens a stream if and only if no stream with a lost reply is still live |
| Chunks.LostReplyStrands | arm_control/clients/common.py:123-133 | A run in which a lost reply fails the next start, although nothing is wrong with it |
| Chunks.EveryChunkIsAccounted | arm_control/clients/chunks.py:88-98 | Every chunk submitted is reported, or waits, or was dropped while it waited by a cancel, a restart or the end of the stream |
| Chunks.SendKeeps | arm_control/clients/chunks.py:165-184 | An attempt is only made with nothing in flight and after the check |
| Chunks.PumpKeeps | arm_control/clients/chunks.py:200-236 | A pump settles before it sends, and sends only what still passes the check |
| Chunks.NoteIsGraded | arm_control/clients/common.py:193-208 | Folding a status keeps selected within admitted within requested |
| Chunks.ActionChunkClient.Start | arm_control/clients/chunks.py:51-64 | Nothing changes if the profile does not fit; no stream is opened over an unconfirmed cancel |
| Chunks.ActionChunkClient.Cancel | arm_control/clients/chunks.py:88-98 | A new generation with nothing in flight or waiting; unconfirmed, the session is kept and marked |
| Chunks.ActionChunkClient.CheckChunk | arm_control/clients/chunks.py:124-163 | Late, unfit or fit, in the order of the checks; the waiting chunk is not compared with |
| Chunks.ActionChunkClient.SendChunk | arm_control/clients/chunks.py:165-184 | Refused, kept in flight, or kept with its fate unknown |
| Chunks.ActionChunkClient.Submit | arm_control/clients/chunks.py:186-198 | Sent, waiting in place of an older one, or dropped with a report |
| Chunks.ActionChunkClient.SettleFlight | arm_control/clients/chunks.py:213-228 | Only what was or may have been selected governs later ones |
| Chunks.ActionChunkClient.Pump | arm_control/clients/chunks.py:200-236 | Unreadable changes nothing, an ended stream drops everything, else settle and send |
| Contract.RedeliveryChangesNothing | arm_control/execution/contract.py:602-624 | Receipts repeated any number of times anywhere after the phase was first reported leave the folded status as it was |
| Contract.FirstStampIsKept | arm_control/execution/contract.py:606-624 | A reached phase keeps the stamp of the first receipt that reported it |
| Contract.EndsAreEarned | arm_control/execution/contract.py:531-542 | Over every legal fold: completed only through applied, rejected, superseded and expired only if it never owned the arm, faulted only if it did, and one end at most |
| Contract.SupersessionIsLegal | arm_control/execution/contract.py:627-651 | A request is admitted beside a live execution if and only if it names it and that one can still be superseded; with nothing live, or no execution at all, if and only if it names none |
| Integral.RunIsGentle | arm_control/control/integral.py:43-73 | After n cycles of any inputs each bias is at most `min(i_limit, 0.001 ki n)` |
| Integral.CycleIsGentle | arm_control/control/integral.py:62-71 | One cycle keeps a bias in its limit and, with the joint held, moves it by less than `0.001 ki` |
| Integral.NoErrorFreezes | arm_control/control/integral.py:64-69 | Any stretch of error-free cycles with the joint held leaves the bias as it was |
| Integral.RepeatsChangeNothing | arm_control/control/integral.py:57-61 | Any number of repeated or earlier cycle ids change nothing, whatever comes with them |
| Integral.IntegralState.Update | arm_control/control/integral.py:43-73 | Refused and repeated cycles change nothing; another advances every joint in place |
| Integral.IntegralState.Reset | arm_control/control/integral.py:38-41 | Bias and history are gone |
| Motor.CommandRoundTrip | arm_control/contracts/motor.py:72-127 | Packing gives a block if and only if unpacking that block gives the command back, for any motor count and any tail |
| Motor.StateRoundTrip | arm_control/contracts/motor.py:19-59 | The same for the eight fields of a motor state |
| Motor.HoldRoundTrip | arm_control/contracts/impedance.py:14-39 | A pose hold packs to a block if and only if the block reads back as that pose hold |
| Motor.ColumnOfInterleaved | arm_control/contracts/motor.py:110-117 | A strided read gives back the column a strided write put there, whatever follows the block |
| Motor.InterleavedColumns | arm_control/contracts/motor.py:82-88 | Writing the columns of a block gives the block back |
| Motor.Interleave | arm_control/contracts/motor.py:82-88 | The strided assignments into one buffer interleave the columns |
| Motor.WriteColumn | arm_control/contracts/motor.py:84-84 | One strided assignment changes its own places and no other |
| Motor.PackMotorCommand | arm_control/contracts/motor.py:72-98 | The block, which unpacks to the command meant, or the error: widths first, a single value standing for each motor, then two tails, then a bad one |

## Left out

- Sockets, threads, locks, clocks, files, YAML, JSON and Arrow text: channels are queues, time and file sets are inputs.
- NaN and rounding: reals are exact; a motor state says whether it is finite, and a jog target is finite.
- `_Fingers` (sim_hand_bridge.py:133-197): the finger ramp and grasp test enter as each sample's verdict.
- Text of the Hand protocol: `parse_command` and `parse_limits` are read as already parsed lines; the slider, its settle
  time and homing, which only call `send_line`, are submissions like any other.
- Rounding of the five-digit `LIMITS` and `STATE` lines: the client is told the server's own numbers.
- ArmController.Controller.OnPlan: the model token, the gain rule and `plan_error` up to its start check enter as one
  admissibility flag; the curve bounds come from `arm_control.motion`, which is not part of this model.
- ArmController.Controller.Send: `command_valid` is modelled for width and position band; gains, speed and torque limits
  are an input, and so is the relatch tolerance, which depends on gains.
- ArmController.Controller.OnControl: payloads and gain values are not kept, because only torque depends on them.
- Heap fields of the controller: its some thirty fields are kept in ten records, each assigned as a whole.
- The native reference source, its windows, and the mode and heartbeat reports of the controller.
- ArmController.Controller.StreamHold: the ramp's step enters the controller as a function of its configuration;
  `JogRamp.Ramp.Advance` is proved on its own, and `ArmJogs` is about the controller whose step it is.
- ArmJogs.NoJogRefusedForPosition: assumes the band fixed, by a word sent since ARM with a resting pose known, when a jog is
  taken; before that a measured pose may still move it.
- JogRamp.StreamAcceleration: assumes targets inside the envelope; outside it the factor two is false.
- JogRamp.SettlesOnTarget: assumes the target inside the envelope, as the ramp stops at a limit otherwise.
- Config.ResolveIsFlat: the condition is sufficient; `ResolveIsFlatExactly` gives the exact one.
- ArmFacts.EpisodeWidens: with no fresh sample at ARM nothing is fixed until one comes; the band is the limits until then.
- Chunks: knots, units, composition and the splice (`ActionSpec`, `StreamSession.revise`) are one flag of the chunk.
- `cartesian_values`: a Cartesian tail is any 21 values, as in `pack_motor_command`.
- Other executions of the supervisor: a request for a stream that meets one is one that is not admissible.
- `RobotConfig` and the rest of the configuration schema, scene objects, planning, the supervisor, the RT server and its
  protocol, viewers, calibration and `_run` of the Franka adapter.
