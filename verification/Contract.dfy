/** `execution/contract.py`: an execution's status is the fold of its receipts, which may come more than once. */
module Contract {
  import opened Wrappers

  datatype Phase =
    | Requested | Admitted | Selected | Sent | Applied
    | Completed | Rejected | Superseded | Expired | Cancelled | Faulted
  {
    predicate Terminal() {
      Completed? || Rejected? || Superseded? || Expired? || Cancelled? || Faulted?
    }

    /** The place in the forward chain of a phase that is not terminal. */
    function Rank(): nat {
      if Requested? then 0 else if Admitted? then 1 else if Selected? then 2 else if Sent? then 3 else 4
    }
  }

  /** Which phases a terminal one may follow. */
  predicate Ends(end: Phase, phase: Phase)
    requires end.Terminal()
  {
    match end
    case Rejected => phase.Requested? || phase.Admitted?
    case Superseded => phase.Admitted?
    case Expired => phase.Admitted?
    case Cancelled => phase.Admitted? || phase.Selected? || phase.Sent? || phase.Applied?
    case Faulted => phase.Selected? || phase.Sent? || phase.Applied?
    case Completed => phase.Applied?
  }

  /** Execution, request and instance. */
  type Identity = (string, string, string)

  datatype Receipt = Receipt(who: Identity, phase: Phase, at: int, reason: string)

  datatype Status = Status(who: Identity, phase: Phase, reached: map<Phase, int>, reason: string)

  datatype Illegal = WrongStart | WrongExecution | AlreadyOver | WrongOrder

  function Begin(r: Receipt): Result<Status, Illegal> {
    if r.phase.Requested? || r.phase.Admitted? || r.phase.Rejected?
    then Ok(Status(r.who, r.phase, map[r.phase := r.at], r.reason))
    else Err(WrongStart)
  }

  function Apply(s: Status, r: Receipt): Result<Status, Illegal> {
    if r.who != s.who then Err(WrongExecution)
    else if r.phase in s.reached then Ok(s)
    else if s.phase.Terminal() then Err(AlreadyOver)
    else if if r.phase.Terminal() then !Ends(r.phase, s.phase) else r.phase.Rank() <= s.phase.Rank() then
      Err(WrongOrder)
    else Ok(s.(phase := r.phase, reason := r.reason, reached := s.reached[r.phase := r.at]))
  }

  function Fold(receipts: seq<Receipt>): Result<Status, Illegal>
    requires receipts != []
  {
    var n := |receipts| - 1;
    if n == 0 then Begin(receipts[0])
    else
      var before := Fold(receipts[..n]);
      if before.Err? then before else Apply(before.value, receipts[n])
  }

  // ---- at least once --------------------------------------------------------------------------

  predicate Reports(receipts: seq<Receipt>, who: Identity, phase: Phase) {
    exists i :: 0 <= i < |receipts| && receipts[i].who == who && receipts[i].phase == phase
  }

  /** `delivered` is `sent` with repeats put in: receipts, perhaps with another stamp or reason, of a phase that was
      already reported. */
  ghost predicate Redelivers(sent: seq<Receipt>, delivered: seq<Receipt>) {
    || (sent == [] && delivered == [])
    || (sent != [] && delivered != [] && sent[|sent| - 1] == delivered[|delivered| - 1]
        && Redelivers(sent[..|sent| - 1], delivered[..|delivered| - 1]))
    || (delivered != [] && Redelivers(sent, delivered[..|delivered| - 1])
        && Reports(sent, delivered[|delivered| - 1].who, delivered[|delivered| - 1].phase))
  }

  lemma {:induction false} ReachedIsReported(receipts: seq<Receipt>)
    requires receipts != [] && Fold(receipts).Ok?
    ensures var s := Fold(receipts).value;
            && s.phase in s.reached
            && (forall i :: 0 <= i < |receipts| ==> receipts[i].who == s.who && receipts[i].phase in s.reached)
  {
    var n := |receipts| - 1;
    if n > 0 {
      ReachedIsReported(receipts[..n]);
      var s := Fold(receipts).value;
      forall i | 0 <= i < |receipts| ensures receipts[i].who == s.who && receipts[i].phase in s.reached {
        if i < n {
          assert receipts[..n][i] == receipts[i];
        }
      }
    }
  }

  /** Delivering receipts again, any number of times, anywhere later, changes nothing. */
  lemma {:induction false} RedeliveryChangesNothing(sent: seq<Receipt>, delivered: seq<Receipt>)
    requires Redelivers(sent, delivered) && sent != [] && Fold(sent).Ok?
    ensures delivered != [] && Fold(delivered) == Fold(sent)
    decreases |delivered|
  {
    var n, m := |sent| - 1, |delivered| - 1;
    if delivered != [] && sent[n] == delivered[m] && Redelivers(sent[..n], delivered[..m]) {
      if n > 0 {
        RedeliveryChangesNothing(sent[..n], delivered[..m]);
      } else {
        NothingRedelivered(delivered[..m]);
      }
    } else {
      RedeliveryChangesNothing(sent, delivered[..m]);
      ReachedIsReported(sent);
      assert Apply(Fold(sent).value, delivered[m]) == Ok(Fold(sent).value);
    }
  }

  lemma NothingRedelivered(delivered: seq<Receipt>)
    requires Redelivers([], delivered)
    ensures delivered == []
  {
  }

  /** A phase keeps the stamp of the first receipt that reported it. */
  lemma {:induction false} FirstStampIsKept(receipts: seq<Receipt>, i: nat)
    requires receipts != [] && Fold(receipts).Ok? && i < |receipts|
    requires forall k :: 0 <= k < i ==> receipts[k].phase != receipts[i].phase
    ensures var s := Fold(receipts).value;
            receipts[i].phase in s.reached && s.reached[receipts[i].phase] == receipts[i].at
  {
    var n := |receipts| - 1;
    if i < n {
      assert receipts[..n][i] == receipts[i];
      FirstStampIsKept(receipts[..n], i);
      ReachedIsReported(receipts[..n]);
    } else if n > 0 && receipts[n].phase in Fold(receipts[..n]).value.reached {
      var k := ReachedOnlyByReport(receipts[..n], receipts[n].phase);
    }
  }

  lemma {:induction false} ReachedOnlyByReport(receipts: seq<Receipt>, phase: Phase) returns (k: nat)
    requires receipts != [] && Fold(receipts).Ok? && phase in Fold(receipts).value.reached
    ensures k < |receipts| && receipts[k].phase == phase
  {
    k := |receipts| - 1;
    if k > 0 && receipts[k].phase != phase {
      k := ReachedOnlyByReport(receipts[..k], phase);
    }
  }

  // ---- what an end proves ---------------------------------------------------------------------

  predicate Owned(s: Status) {
    Selected in s.reached || Sent in s.reached || Applied in s.reached
  }

  /** A completed execution was accepted by the plant; a rejected, superseded or expired one never owned the arm; a
      faulted one did; and nothing but a repeat follows an end. */
  lemma {:induction false} EndsAreEarned(receipts: seq<Receipt>)
    requires receipts != [] && Fold(receipts).Ok?
    ensures var s := Fold(receipts).value;
            && s.phase in s.reached
            && (s.phase.Completed? ==> Applied in s.reached)
            && (s.phase.Rejected? || s.phase.Superseded? || s.phase.Expired? ==> !Owned(s))
            && (s.phase.Faulted? ==> Owned(s))
            && (s.phase.Superseded? || s.phase.Expired? ==> Admitted in s.reached)
            && (forall p :: p in s.reached && p.Terminal() ==> p == s.phase)
            && (forall p :: p in s.reached && !s.phase.Terminal() ==> p.Rank() <= s.phase.Rank())
  {
    if |receipts| > 1 {
      EndsAreEarned(receipts[..|receipts| - 1]);
    }
  }

  // ---- replacing ------------------------------------------------------------------------------

  /** Whether a request may be admitted beside the robot's current execution. */
  predicate SupersessionRefused(supersedes: Option<string>, current: Option<Status>) {
    var live := current.Some? && !current.value.phase.Terminal();
    if supersedes.Some? then !live || current.value.who.0 != supersedes.value || !current.value.phase.Admitted?
    else live
  }

  /** A request is admitted beside a live execution exactly when it names it and that one can still be superseded, so
      that no selected execution is ever replaced; with nothing live, or none at all, exactly when it names none. */
  lemma SupersessionIsLegal(supersedes: Option<string>, receipts: seq<Receipt>, at: int, reason: string)
    requires receipts != [] && Fold(receipts).Ok?
    ensures var s := Fold(receipts).value;
            var over := Apply(s, Receipt(s.who, Superseded, at, reason));
            && (!SupersessionRefused(supersedes, Some(s)) <==>
                if s.phase.Terminal() then supersedes.None?
                else supersedes == Some(s.who.0) && over.Ok? && over.value.phase.Superseded?)
            && (Owned(s) && supersedes.Some? ==> SupersessionRefused(supersedes, Some(s)))
    ensures !SupersessionRefused(supersedes, None) <==> supersedes.None?
  {
    EndsAreEarned(receipts);
  }
}
