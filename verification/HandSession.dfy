/** The Hand's client and server over one connection at a time: two queues that keep their order, either side
    closing whenever it likes, and anybody else's connection served in between.

    The argument is a token count. A command the client has sent is in exactly one place -- with the client, on
    its way up, pending, running, in the mailbox, or on its way down as a reply -- and a stop likewise. */
module HandSession {
  import opened Wrappers
  import opened HandWire
  import Server = HandServer
  import Client = HandClient

  /** The client's connection: none; waiting to be served; being served; given up by the server only. */
  datatype Link = NoLink | Waiting | Live | Dead

  /** A command and what became of it. */
  datatype Credit = Credit(tag: nat, ok: bool)

  /** `foreign`: the server is serving another connection. `credits` are the verdicts the client took for its
      commands, `verdicts` what the plant made of the commands it ran for this connection, `overwrote` whether
      a result on a live connection was replaced before it was reported. */
  datatype Session = Session(
    limits: Limits, server: Server.Server, client: Client.Client, link: Link, foreign: bool,
    up: seq<Up>, down: seq<Down>,
    nextTag: nat, credits: seq<Credit>, verdicts: seq<Credit>, overwrote: bool)

  /** Nobody connected to a bridge of the given envelope. */
  function Start(limits: Limits): Session {
    Session(limits, Server.START, Client.START, NoLink, false, [], [], 0, [], [], false)
  }

  datatype Event =
    | Plant(sample: Server.Sample)
    | ServerAccepts(ours: bool)
    | ServerHandles(line: Up, recent: bool)
    | ServerReports(due: bool, recent: bool)
    | ServerCloses
    | ClientConnects
    | ClientSubmits(verb: Verb, request: Client.Request, recent: bool)
    | ClientCancels
    | ClientTransmits
    | ClientReceives
    | ClientDrops

  /** When an event can happen. A line from another connection may be anything. */
  predicate Possible(s: Session, e: Event) {
    match e
    case Plant(_) => true
    case ServerAccepts(ours) => s.link != Live && !s.foreign && (ours ==> s.link == Waiting)
    case ServerHandles(line, _) => if s.link == Live then s.up != [] && line == s.up[0] else s.foreign
    case ServerReports(_, _) => s.link == Live || s.foreign
    case ServerCloses => s.link == Live || s.foreign
    case ClientConnects => s.link == NoLink
    case ClientSubmits(_, _, _) => true
    case ClientCancels => true
    case ClientTransmits => s.link != NoLink && Client.Outgoing(s.client).Some?
    case ClientReceives => s.link != NoLink && s.down != []
    case ClientDrops => s.link != NoLink
  }

  /** An action of this connection ends with a verdict that stands. */
  predicate Concludes(s: Session, x: Server.Sample) {
    && s.link == Live && !s.server.adm.stopping && x.verdict.Some? && s.server.acting.Some?
    && Server.Current(s.server.adm, s.server.acting.value)
  }

  predicate Unreported(m: Server.Mailbox) {
    m.doneSeq != m.seenDone
  }

  function OnPlant(s: Session, x: Server.Sample): Session {
    var s1 := s.(server := Server.OnSample(s.server, x));
    if Concludes(s, x) then
      s1.(verdicts := s.verdicts + [Credit(s.server.acting.value.tag, x.verdict.value)],
          overwrote := s.overwrote || Unreported(s.server.mail))
    else
      s1
  }

  function OnHandle(s: Session, line: Up, recent: bool): Session {
    var server := Server.Handle(s.server, s.limits, line, recent);
    if s.link == Live && s.up != [] then
      s.(server := server, up := s.up[1..], down := s.down + [Server.Reply(s.server, s.limits, line, recent)])
    else
      s.(server := server)
  }

  function OnReport(s: Session, due: bool, recent: bool): Session {
    var server := Server.Report(s.server);
    if s.link == Live then
      s.(server := server, down := s.down + Server.Reported(s.server, s.limits, due, recent))
    else
      s.(server := server)
  }

  function Drop(s: Session): Session {
    s.(client := Client.LoseLink(s.client), link := NoLink, foreign := s.foreign || s.link == Live,
       up := [], down := [])
  }

  function OnReceive(s: Session): Session
    requires s.down != []
  {
    var line := s.down[0];
    var credits :=
      if line.Done? && Client.Answers(s.client, line.token)
      then s.credits + [Credit(s.client.inflight.value.tag, line.ok)]
      else s.credits;
    var s1 := s.(down := s.down[1..], credits := credits);
    match Client.Receive(s.client, line)
    case Ok(c) => s1.(client := c)
    case Err(c) => Drop(s1.(client := c))
  }

  function Next(s: Session, e: Event): Session
    requires Possible(s, e)
  {
    match e
    case Plant(x) => OnPlant(s, x)
    case ServerAccepts(ours) =>
      var s1 := s.(server := Server.Connect(s.server));
      if ours then s1.(link := Live) else s1.(foreign := true)
    case ServerHandles(line, recent) => OnHandle(s, line, recent)
    case ServerReports(due, recent) => OnReport(s, due, recent)
    case ServerCloses =>
      var s1 := s.(server := Server.Disconnect(s.server));
      if s.link == Live then s1.(link := Dead) else s1.(foreign := false)
    case ClientConnects => s.(client := Client.Connect(s.client), link := Waiting)
    case ClientSubmits(verb, request, recent) =>
      s.(client := Client.Submit(s.client, verb, request, s.nextTag, recent), nextTag := s.nextTag + 1)
    case ClientCancels => s.(client := Client.CancelMove(s.client))
    case ClientTransmits => s.(client := Client.Transmit(s.client), up := s.up + [Client.Outgoing(s.client).value])
    case ClientReceives => OnReceive(s)
    case ClientDrops => Drop(s)
  }

  // ---- counting -------------------------------------------------------------------------------

  function Count<T>(p: T -> bool, s: seq<T>): nat {
    if s == [] then 0 else (if p(s[0]) then 1 else 0) + Count(p, s[1..])
  }

  lemma {:induction false} CountAppend<T>(p: T -> bool, a: seq<T>, b: seq<T>)
    ensures Count(p, a + b) == Count(p, a) + Count(p, b)
  {
    if a == [] {
      assert a + b == b;
    } else {
      assert (a + b)[1..] == a[1..] + b;
      CountAppend(p, a[1..], b);
    }
  }

  lemma {:induction false} CountZero<T>(p: T -> bool, s: seq<T>)
    ensures Count(p, s) == 0 <==> forall i :: 0 <= i < |s| ==> !p(s[i])
  {
    if s != [] {
      CountZero(p, s[1..]);
      assert forall i :: 1 <= i < |s| ==> s[i] == s[1..][i - 1];
      assert forall i :: 0 <= i < |s| - 1 ==> s[1..][i] == s[i + 1];
    }
  }

  predicate IsCmd(l: Up) { l.Cmd? }
  predicate IsGstop(l: Up) { l.Gstop? }
  predicate IsReply(l: Down) { l.Done? || l.Reject? }
  predicate IsStopping(l: Down) { l.Stopping? }

  function One(b: bool): nat {
    if b then 1 else 0
  }

  /** An action that would still report. */
  predicate Running(s: Server.Server) {
    s.acting.Some? && Server.Current(s.adm, s.acting.value)
  }

  function ServerTokens(s: Server.Server): nat {
    One(s.adm.pending.Some?) + One(Running(s)) + One(Unreported(s.mail))
  }

  /** Where the client's command is: one of these at most. */
  function CommandTokens(s: Session): nat {
    One(s.client.command.Some?) + Count(IsCmd, s.up) + (if s.link == Live then ServerTokens(s.server) else 0)
    + Count(IsReply, s.down)
  }

  /** Where the client's stop is: one of these at most. */
  function StopTokens(s: Session): nat {
    One(s.client.stop.cancel) + Count(IsGstop, s.up) + Count(IsStopping, s.down) + One(s.client.stop.epoch.Some?)
  }

  // ---- the invariant --------------------------------------------------------------------------

  /** Every token is the command `c`. */
  ghost predicate Owns(s: Session, c: Client.Sent) {
    && (s.client.command.Some? ==> s.client.command.value == c)
    && (forall i :: 0 <= i < |s.up| && s.up[i].Cmd? ==> s.up[i].token == c.token && s.up[i].tag == c.tag)
    && (s.link == Live ==> ServerOwns(s.server, c))
    && (forall i :: 0 <= i < |s.down| ==> LineOwns(s.down[i], c))
  }

  predicate ServerOwns(s: Server.Server, c: Client.Sent) {
    && (s.adm.pending.Some? ==> s.adm.pending.value.token == c.token && s.adm.pending.value.tag == c.tag)
    && (Running(s) ==> s.acting.value.token == c.token && s.acting.value.tag == c.tag)
    && (Unreported(s.mail) ==> s.mail.doneToken == c.token && s.mail.doneTag == c.tag)
  }

  predicate LineOwns(l: Down, c: Client.Sent) {
    match l
    case Done(token, _, tag) => token == c.token && tag == c.tag
    case Reject(token, tag) => token == c.token && tag == c.tag
    case _ => true
  }

  /** Lines of state between `lo` and `hi`, in order, from an available bridge. */
  ghost predicate Metas(d: seq<Down>, lo: nat, hi: nat) {
    && (forall i :: 0 <= i < |d| && d[i].Meta? ==> d[i].available && lo <= d[i].epoch <= hi)
    && (forall i, j :: 0 <= i <= j < |d| && d[i].Meta? && d[j].Meta? ==> d[i].epoch <= d[j].epoch)
  }

  /** The epochs the client may still hear, without a stop outstanding: its command's own, or the next one. */
  ghost predicate Epochs(s: Session) {
    if s.client.epoch.None? then
      exists e: nat :: Metas(s.down, e, e) && (s.link == Live ==> s.server.adm.epoch == e)
    else
      var e := s.client.epoch.value;
      var b := if s.client.inflight.Some? then s.client.inflight.value.token else e;
      && b <= e <= b + 1
      && (if s.link == Live then e <= s.server.adm.epoch <= b + 1 && Metas(s.down, e, s.server.adm.epoch)
          else Metas(s.down, e, b + 1))
  }

  /** Behind a stop at epoch `e`: nothing left to run, and nothing more to report once the state is heard. */
  ghost predicate Silenced(s: Session, tail: seq<Down>, e: nat) {
    && s.up == []
    && (s.link == Live ==> s.server.adm.pending.None? && !Running(s.server) && s.server.adm.epoch == e)
    && Metas(tail, e, e)
    && (forall i, j :: 0 <= i <= j < |tail| && tail[i].Meta? ==> !IsReply(tail[j]))
    && (forall i :: 0 <= i < |tail| && tail[i].Meta? && s.link == Live ==> !Unreported(s.server.mail))
  }

  /** No stop outstanding. */
  ghost predicate Calm(s: Session) {
    && StopTokens(s) == 0
    && Epochs(s)
    && (if s.client.inflight.Some? then s.client.epoch.Some? && Owns(s, s.client.inflight.value)
        else CommandTokens(s) == 0)
  }

  /** A stop outstanding. */
  ghost predicate Stopping(s: Session) {
    && StopTokens(s) <= 1
    && s.client.inflight.None? && s.client.command.None?
    && (forall i :: 0 <= i < |s.up| - 1 ==> !s.up[i].Gstop?)
    && (forall k :: 0 <= k < |s.down| && s.down[k].Stopping? ==> Silenced(s, s.down[k + 1..], s.down[k].epoch))
    && (s.client.stop.epoch.Some? ==> Silenced(s, s.down, s.client.stop.epoch.value))
  }

  ghost predicate Linked(s: Session) {
    && CommandTokens(s) <= 1
    && (forall i :: 0 <= i < |s.up| ==> !s.up[i].Garbled?)
    && (s.link == Waiting ==> s.down == [] && s.client.epoch.None? && s.client.stop.epoch.None?)
    && (if s.client.stop.waiting then Stopping(s) else Calm(s))
  }

  /** Every verdict on its way to the client is one the plant reached. */
  ghost predicate Recorded(s: Session) {
    && (s.link == Live && Unreported(s.server.mail) ==>
          Credit(s.server.mail.doneTag, s.server.mail.doneOk) in s.verdicts)
    && (forall i :: 0 <= i < |s.down| && s.down[i].Done? ==> Credit(s.down[i].tag, s.down[i].ok) in s.verdicts)
    && (forall c <- s.credits :: c in s.verdicts)
  }

  /** A submission is concluded once at most. */
  ghost predicate Concluded(s: Session) {
    && (s.client.inflight.Some? ==> s.client.inflight.value.tag < s.nextTag)
    && (forall i :: 0 <= i < |s.client.outcomes| ==>
          && s.client.outcomes[i].tag < s.nextTag
          && (s.client.inflight.Some? ==> s.client.outcomes[i].tag != s.client.inflight.value.tag))
    && (forall i, j :: 0 <= i < j < |s.client.outcomes| ==> s.client.outcomes[i].tag != s.client.outcomes[j].tag)
  }

  ghost predicate Inv(s: Session) {
    && Server.Valid(s.server)
    && s.server.adm.client == (s.link == Live || s.foreign)
    && !(s.link == Live && s.foreign)
    && s.client.connected == (s.link != NoLink)
    && (s.client.command.Some? ==> s.client.inflight.Some?)
    && (s.link == NoLink ==> s.up == [] && s.down == [] && s.client.inflight.None?)
    && (s.link != NoLink ==> Linked(s))
    && Recorded(s) && Concluded(s) && !s.overwrote
  }

  /** No verdict yet for the submission `tag`. */
  ghost predicate Open(s: Session, tag: nat) {
    tag < s.nextTag && forall i :: 0 <= i < |s.verdicts| ==> s.verdicts[i].tag != tag
  }

  /** A command not yet concluded has no verdict, and no command has two. */
  ghost predicate Single(s: Session) {
    && (s.client.command.Some? ==> Open(s, s.client.command.value.tag))
    && (forall i :: 0 <= i < |s.up| && s.up[i].Cmd? ==> Open(s, s.up[i].tag))
    && (s.link == Live ==>
          && (s.server.adm.pending.Some? ==> Open(s, s.server.adm.pending.value.tag))
          && (Running(s.server) ==> Open(s, s.server.acting.value.tag)))
    && (forall i :: 0 <= i < |s.verdicts| ==> s.verdicts[i].tag < s.nextTag)
    && (forall i, j :: 0 <= i < j < |s.verdicts| ==> s.verdicts[i].tag != s.verdicts[j].tag)
  }

  // ---- every step keeps it --------------------------------------------------------------------

  /** The server at work on somebody else's connection. */
  lemma ForeignKeeps(s: Session, server: Server.Server, foreign: bool)
    requires Inv(s) && s.link != Live
    requires Server.Valid(server) && server.adm.client == foreign
    ensures Inv(s.(server := server, foreign := foreign))
  {
    var s' := s.(server := server, foreign := foreign);
    if s.link != NoLink {
      assert CommandTokens(s') == CommandTokens(s) && StopTokens(s') == StopTokens(s);
      if s.client.stop.waiting {
        assert Stopping(s');
      } else {
        assert Epochs(s');
        assert Calm(s');
      }
    }
  }

  lemma PlantLinked(s: Session, x: Server.Sample)
    requires Inv(s) && s.link == Live
    ensures Linked(OnPlant(s, x))
  {
    PlantMovesToken(s.server, x);
    hide Server.OnSample, Server.Valid, Concluded, Recorded;
    var s' := OnPlant(s, x);
    if s.client.stop.waiting {
      assert Stopping(s');
    } else {
      assert Calm(s');
    }
  }

  lemma PlantKeeps(s: Session, x: Server.Sample)
    requires Inv(s)
    ensures Inv(OnPlant(s, x))
  {
    Server.SampleKeepsValid(s.server, x);
    if s.link != Live {
      ForeignKeeps(s, Server.OnSample(s.server, x), s.foreign);
    } else {
      PlantLinked(s, x);
      PlantMovesToken(s.server, x);
      hide Server.OnSample, Server.Valid, Calm, Stopping;
    }
  }

  /** A sample moves the command from pending to running, or from running to the mailbox, or drops a stopped one. */
  lemma PlantMovesToken(s: Server.Server, x: Server.Sample)
    requires Server.Valid(s) && s.adm.client && ServerTokens(s) <= 1
    ensures var s' := Server.OnSample(s, x);
            && ServerTokens(s') <= ServerTokens(s) && s'.adm.epoch == s.adm.epoch && s'.adm.client
            && (s'.adm.pending.Some? ==> s'.adm.pending == s.adm.pending)
            && (Running(s') ==> s'.acting == (if Running(s) then s.acting else s.adm.pending))
            && (if !s.adm.stopping && x.verdict.Some? && Running(s)
                then !Unreported(s.mail) && Unreported(s'.mail) && s'.mail.doneToken == s.acting.value.token
                     && s'.mail.doneTag == s.acting.value.tag && s'.mail.doneOk == x.verdict.value
                else s'.mail == s.mail)
  {
  }

  lemma AcceptKeeps(s: Session, ours: bool)
    requires Inv(s) && Possible(s, ServerAccepts(ours))
    ensures Inv(Next(s, ServerAccepts(ours)))
  {
    var server := Server.Connect(s.server);
    Server.ClientKeepsValid(s.server);
    if !ours {
      ForeignKeeps(s, server, true);
    } else {
      var s' := Next(s, ServerAccepts(true));
      assert ServerTokens(server) == 0;
      assert CommandTokens(s') == CommandTokens(s) && StopTokens(s') == StopTokens(s);
      if s.client.stop.waiting {
        assert Stopping(s');
      } else {
        assert Metas(s'.down, server.adm.epoch, server.adm.epoch);
        assert Epochs(s');
        assert Calm(s');
      }
    }
  }

  lemma CloseLinked(s: Session, server: Server.Server)
    requires Inv(s) && s.link == Live
    ensures Linked(s.(server := server, link := Dead))
  {
    hide Server.Valid, Recorded, Concluded;
    var s' := s.(server := server, link := Dead);
    assert StopTokens(s') == StopTokens(s);
    if s.client.stop.waiting {
      hide Calm;
      assert Stopping(s');
    } else {
      hide Stopping;
      assert Epochs(s');
      assert Calm(s');
    }
  }

  lemma CloseKeeps(s: Session)
    requires Inv(s) && Possible(s, ServerCloses)
    ensures Inv(Next(s, ServerCloses))
  {
    var server := Server.Disconnect(s.server);
    Server.ClientKeepsValid(s.server);
    hide Server.Valid;
    if s.link != Live {
      ForeignKeeps(s, server, false);
    } else {
      CloseLinked(s, server);
      hide Linked;
    }
  }

  /** The server answers a command: the token moves to pending, or to the reply. */
  lemma CommandMovesToken(s: Server.Server, limits: Limits, line: Up, recent: bool)
    requires Server.Valid(s) && s.adm.client && line.Cmd? && ServerTokens(s) == 0
    ensures var s', reply := Server.Handle(s, limits, line, recent), Server.Reply(s, limits, line, recent);
            && s'.mail == s.mail && s'.adm.client && !Running(s')
            && (if reply == Accept(line.token)
                then s'.adm.pending.Some? && s'.adm.pending.value.token == line.token
                     && s'.adm.pending.value.tag == line.tag
                     && s.adm.epoch == line.token && s'.adm.epoch == line.token + 1
                else s' == s && reply == Reject(line.token, line.tag))
  {
    hide InEnvelope;
  }

  lemma HandleCommand(s: Session, line: Up, recent: bool)
    requires Inv(s) && s.link == Live && s.up != [] && line == s.up[0] && line.Cmd?
    ensures Linked(OnHandle(s, line, recent)) && Recorded(OnHandle(s, line, recent))
  {
    var s', reply := OnHandle(s, line, recent), Server.Reply(s.server, s.limits, line, recent);
    CountAppend(IsReply, s.down, [reply]);
    CountAppend(IsStopping, s.down, [reply]);
    CountZero(IsStopping, s.down);
    CommandMovesToken(s.server, s.limits, line, recent);
    hide Server.Handle, Server.Reply, Server.Valid;
    if s.client.stop.waiting {
      assert Stopping(s');
    } else {
      assert Epochs(s');
      assert Calm(s');
    }
  }

  lemma HandleStop(s: Session, recent: bool)
    requires Inv(s) && s.link == Live && s.up != [] && s.up[0] == Gstop
    ensures Linked(OnHandle(s, Gstop, recent)) && Recorded(OnHandle(s, Gstop, recent))
  {
    var s', reply := OnHandle(s, Gstop, recent), HandWire.Stopping(s.server.adm.epoch + 1);
    CountAppend(IsReply, s.down, [reply]);
    CountAppend(IsStopping, s.down, [reply]);
    CountZero(IsStopping, s.down);
    assert Count(IsGstop, s.up) >= 1;
    assert |s.up| == 1;
    hide Server.Valid;
    assert Stopping(s');
  }

  lemma HandleKeeps(s: Session, line: Up, recent: bool)
    requires Inv(s) && Possible(s, ServerHandles(line, recent))
    ensures Inv(OnHandle(s, line, recent))
  {
    Server.LineKeepsValid(s.server, s.limits, line, recent);
    if s.link != Live {
      ForeignKeeps(s, Server.Handle(s.server, s.limits, line, recent), s.foreign);
    } else {
      match line
      case Gstop => HandleStop(s, recent);
      case Cmd(_, _, _) => HandleCommand(s, line, recent);
      hide Linked, Recorded, InEnvelope;
    }
  }

  /** What a report adds: the unreported result, then the state, and nothing else that matters here. */
  ghost predicate ReportOf(s: Server.Server, lines: seq<Down>) {
    && Count(IsReply, lines) == One(Unreported(s.mail))
    && Count(IsStopping, lines) == 0
    && (forall i :: 0 <= i < |lines| && lines[i].Meta? ==> lines[i].epoch == s.adm.epoch && lines[i].available)
    && (forall i :: 0 <= i < |lines| ==>
          !lines[i].Reject? && !lines[i].Stopping? &&
          (lines[i].Done? ==> lines[i] == Done(s.mail.doneToken, s.mail.doneOk, s.mail.doneTag) && Unreported(s.mail)))
    && (forall i, j :: 0 <= i <= j < |lines| && lines[i].Meta? ==> !IsReply(lines[j]))
  }

  lemma ResultsCount(m: Server.Mailbox)
    ensures Count(IsReply, Server.Results(m)) == One(Unreported(m))
  {
    var a := if m.graspSeq != m.seenGrasp then [Gdone(m.graspOk)] else [];
    var b := if m.doneSeq != m.seenDone then [Done(m.doneToken, m.doneOk, m.doneTag)] else [];
    CountAppend(IsReply, a, b);
  }

  lemma ReportLines(s: Server.Server, limits: Limits, due: bool, recent: bool)
    ensures ReportOf(s, Server.Reported(s, limits, due, recent))
  {
    var results := Server.Results(s.mail);
    var periodic := if due then Server.Periodic(s, limits, recent) else [];
    CountAppend(IsReply, results, periodic);
    CountZero(IsReply, periodic);
    CountZero(IsStopping, results + periodic);
    ResultsCount(s.mail);
  }

  lemma ReportEpochs(s: Session, lines: seq<Down>)
    requires Epochs(s) && s.link == Live && ReportOf(s.server, lines)
    ensures Epochs(s.(server := Server.Report(s.server), down := s.down + lines))
  {
    if s.client.epoch.None? {
      assert Metas(s.down + lines, s.server.adm.epoch, s.server.adm.epoch);
    }
  }

  lemma ReportCalm(s: Session, due: bool, recent: bool, lines: seq<Down>)
    requires Inv(s) && s.link == Live && !s.client.stop.waiting
    requires ReportOf(s.server, lines) && lines == Server.Reported(s.server, s.limits, due, recent)
    ensures Linked(OnReport(s, due, recent))
  {
    hide Server.Reported, Server.Valid, Concluded, Recorded, Stopping, Epochs;
    CountAppend(IsReply, s.down, lines);
    CountAppend(IsStopping, s.down, lines);
    ReportEpochs(s, lines);
    var s' := OnReport(s, due, recent);
    if s.client.inflight.Some? {
      assert Owns(s', s.client.inflight.value);
    }
  }

  lemma ReportStopping(s: Session, due: bool, recent: bool, lines: seq<Down>)
    requires Inv(s) && s.link == Live && s.client.stop.waiting
    requires ReportOf(s.server, lines) && lines == Server.Reported(s.server, s.limits, due, recent)
    ensures Linked(OnReport(s, due, recent))
  {
    CountAppend(IsReply, s.down, lines);
    CountAppend(IsStopping, s.down, lines);
    hide Server.Reported, Server.Valid, Concluded, Recorded, Calm;
    var s' := OnReport(s, due, recent);
    forall k | 0 <= k < |s'.down| && s'.down[k].Stopping?
      ensures Silenced(s', s'.down[k + 1..], s'.down[k].epoch)
    {
      assert k < |s.down|;
      assert s'.down[k + 1..] == s.down[k + 1..] + lines;
      SilencedExtends(s, s.down[k + 1..], lines, s.down[k].epoch, s');
    }
    if s.client.stop.epoch.Some? {
      SilencedExtends(s, s.down, lines, s.client.stop.epoch.value, s');
    }
  }

  lemma SilencedExtends(s: Session, tail: seq<Down>, lines: seq<Down>, e: nat, s': Session)
    requires s.link == Live && Silenced(s, tail, e) && ReportOf(s.server, lines)
    requires s'.server == Server.Report(s.server) && s'.up == s.up && s'.link == Live
    ensures Silenced(s', tail + lines, e)
  {
    CountZero(IsReply, lines);
    assert Metas(tail + lines, e, e);
  }

  lemma ReportKeeps(s: Session, due: bool, recent: bool)
    requires Inv(s) && Possible(s, ServerReports(due, recent))
    ensures Inv(OnReport(s, due, recent))
  {
    Server.ClientKeepsValid(s.server);
    if s.link != Live {
      ForeignKeeps(s, Server.Report(s.server), s.foreign);
    } else {
      var lines := Server.Reported(s.server, s.limits, due, recent);
      ReportLines(s.server, s.limits, due, recent);
      if s.client.stop.waiting {
        ReportStopping(s, due, recent, lines);
      } else {
        ReportCalm(s, due, recent, lines);
      }
      hide Server.Reported, Linked, Server.Valid;
    }
  }

  lemma ConnectKeeps(s: Session)
    requires Inv(s) && Possible(s, ClientConnects)
    ensures Inv(Next(s, ClientConnects))
  {
    var s' := Next(s, ClientConnects);
    assert Metas(s'.down, 0, 0);
    assert Calm(s');
  }

  lemma DropKeeps(s: Session)
    requires Server.Valid(s.server)
    requires s.server.adm.client == (s.link == Live || s.foreign) && !(s.link == Live && s.foreign)
    requires (forall c <- s.credits :: c in s.verdicts) && Concluded(s) && !s.overwrote
    ensures Inv(Drop(s))
  {
  }

  lemma SubmitLinked(s: Session, sent: Client.Sent, c: Client.Client)
    requires Inv(s) && s.link != NoLink && !s.client.stop.waiting && s.client.inflight.None?
    requires s.client.epoch == Some(sent.token) && sent.tag == s.nextTag
    requires c == s.client.(command := Some(sent), inflight := Some(sent), samples := c.samples)
    ensures Linked(s.(client := c, nextTag := s.nextTag + 1))
  {
    hide Server.Valid, Recorded, Concluded, Stopping, Silenced, Metas;
    var s' := s.(client := c, nextTag := s.nextTag + 1);
    CountZero(IsCmd, s.up);
    CountZero(IsReply, s.down);
    assert Calm(s');
  }

  lemma SubmitKeeps(s: Session, verb: Verb, request: Client.Request, recent: bool)
    requires Inv(s)
    ensures Inv(Next(s, ClientSubmits(verb, request, recent)))
  {
    hide Server.Valid, InEnvelope, Calm, Stopping;
    if Client.Submittable(s.client, verb, request, recent) {
      var c := Client.Submit(s.client, verb, request, s.nextTag, recent);
      SubmitLinked(s, c.command.value, c);
      hide Linked;
    } else if s.link != NoLink {
      TagAside(s);
      hide Linked;
    }
  }

  lemma TagAside(s: Session)
    requires Linked(s)
    ensures Linked(s.(nextTag := s.nextTag + 1))
  {
    var s' := s.(nextTag := s.nextTag + 1);
    if s.client.stop.waiting {
      assert Stopping(s');
    } else {
      assert Epochs(s');
      assert Calm(s');
    }
  }

  lemma CancelKeeps(s: Session)
    requires Inv(s)
    ensures Inv(Next(s, ClientCancels))
  {
    hide Server.Valid, Owns;
    var s' := Next(s, ClientCancels);
    CountZero(IsGstop, s.up);
    CountZero(IsStopping, s.down);
    if s.link != NoLink {
      assert Stopping(s');
    }
  }

  lemma TransmitLinked(s: Session, line: Up)
    requires Inv(s) && s.link != NoLink && Client.Outgoing(s.client) == Some(line)
    ensures Linked(s.(client := Client.Transmit(s.client), up := s.up + [line]))
  {
    hide Server.Valid, Recorded, Concluded, Metas;
    var s' := s.(client := Client.Transmit(s.client), up := s.up + [line]);
    CountAppend(IsCmd, s.up, [line]);
    CountAppend(IsGstop, s.up, [line]);
    CountZero(IsGstop, s.up);
    CountZero(IsStopping, s.down);
    if s.client.stop.waiting {
      hide Calm;
      assert Stopping(s');
    } else {
      hide Stopping;
      assert Calm(s');
    }
  }

  lemma TransmitKeeps(s: Session)
    requires Inv(s) && Possible(s, ClientTransmits)
    ensures Inv(Next(s, ClientTransmits))
  {
    hide Server.Valid;
    TransmitLinked(s, Client.Outgoing(s.client).value);
    hide Linked;
  }

  /** Fewer lines to come: what was promised of the rest still holds. */
  lemma SilencedTail(s: Session, tail: seq<Down>, e: nat, s': Session)
    requires tail != [] && Silenced(s, tail, e)
    requires s'.server == s.server && s'.up == s.up && s'.link == s.link
    ensures Silenced(s', tail[1..], e)
  {
  }

  /** A line received while a stop is outstanding, short of its acknowledgement. */
  lemma ReceiveStopping(s: Session, s': Session)
    requires Inv(s) && s.link != NoLink && s.client.stop.waiting && s.down != []
    requires s' == s.(down := s.down[1..], client := s'.client)
    requires s'.client.stop.waiting && s'.client.inflight.None? && s'.client.command.None?
    requires s'.client.stop.cancel == s.client.stop.cancel && (s.link == Waiting ==> s'.client.epoch.None?)
    requires s'.client.stop.epoch == (if s.down[0].Stopping? then Some(s.down[0].epoch) else s.client.stop.epoch)
    ensures Linked(s')
  {
    hide Server.Valid, Concluded, Recorded, Calm, Silenced;
    forall k | 0 <= k < |s'.down| && s'.down[k].Stopping?
      ensures Silenced(s', s'.down[k + 1..], s'.down[k].epoch)
    {
      assert s.down[k + 1] == s'.down[k];
      assert s.down[k + 1 + 1..] == s'.down[k + 1..];
      SilencedElsewhere(s, s.down[k + 1 + 1..], s'.down[k].epoch, s');
    }
    if s.down[0].Stopping? {
      SilencedElsewhere(s, s.down[0 + 1..], s.down[0].epoch, s');
    } else if s.client.stop.epoch.Some? {
      SilencedTail(s, s.down, s.client.stop.epoch.value, s');
    }
    assert Stopping(s');
  }

  lemma SilencedElsewhere(s: Session, tail: seq<Down>, e: nat, s': Session)
    requires Silenced(s, tail, e) && s'.server == s.server && s'.up == s.up && s'.link == s.link
    ensures Silenced(s', tail, e)
  {
  }

  /** A state line heard with no stop outstanding: it never overtakes the command in flight. */
  lemma ReceiveMetaCalm(s: Session, c: Client.Client)
    requires Inv(s) && s.link != NoLink && !s.client.stop.waiting && s.down != [] && s.down[0].Meta?
    requires Client.Receive(s.client, s.down[0]) == Ok(c)
    ensures c.inflight == s.client.inflight && Linked(s.(down := s.down[1..], client := c))
  {
    var m, s' := s.down[0], s.(down := s.down[1..], client := c);
    assert !Client.Overtaken(s.client, m.epoch, m.available);
    assert c.inflight == s.client.inflight && c.epoch == Some(m.epoch) && c.stop == s.client.stop
        && c.command == s.client.command;
    hide Server.Valid, Concluded, Recorded, Silenced, Client.Overtaken, Client.Receive;
    assert Epochs(s');
    assert Calm(s');
  }

  /** The state line that acknowledges a stop finds no command anywhere. */
  lemma ReceiveAcknowledgement(s: Session, c: Client.Client)
    requires Inv(s) && s.link != NoLink && s.client.stop.waiting && s.down != [] && s.down[0].Meta?
    requires Client.Receive(s.client, s.down[0]) == Ok(c) && !c.stop.waiting
    ensures Linked(s.(down := s.down[1..], client := c))
  {
    var s' := s.(down := s.down[1..], client := c);
    var e := s.client.stop.epoch.value;
    assert Silenced(s, s.down, e);
    CountZero(IsReply, s.down);
    CountZero(IsGstop, s'.up);
    hide Server.Valid, Concluded, Recorded;
    SilencedTail(s, s.down, e, s');
    assert CommandTokens(s') == 0;
    assert StopTokens(s') == 0;
    assert Epochs(s');
  }

  /** A reply heard with no stop outstanding is the reply to the command in flight. */
  lemma ReceiveReplyCalm(s: Session, c: Client.Client)
    requires Inv(s) && s.link != NoLink && !s.client.stop.waiting && s.down != [] && IsReply(s.down[0])
    requires Client.Receive(s.client, s.down[0]) == Ok(c)
    ensures Client.Answers(s.client, s.down[0].token) && s.client.inflight.value.tag == s.down[0].tag
    ensures Linked(s.(down := s.down[1..], client := c))
  {
    var s' := s.(down := s.down[1..], client := c);
    assert Count(IsReply, s.down) == 1 + Count(IsReply, s.down[1..]);
    assert LineOwns(s.down[0], s.client.inflight.value);
    hide Server.Valid, Concluded, Recorded, Silenced;
    assert Epochs(s');
    assert Calm(s');
  }

  lemma MetasTail(d: seq<Down>, lo: nat, hi: nat)
    requires d != [] && Metas(d, lo, hi)
    ensures Metas(d[1..], lo, hi)
  {
  }

  lemma EpochsTail(s: Session, s': Session)
    requires s.down != [] && Epochs(s)
    requires s'.down == s.down[1..] && s'.server == s.server && s'.link == s.link
    requires s'.client.epoch == s.client.epoch && s'.client.inflight == s.client.inflight
    ensures Epochs(s')
  {
    if s.client.epoch.None? {
      var e: nat :| Metas(s.down, e, e) && (s.link == Live ==> s.server.adm.epoch == e);
      MetasTail(s.down, e, e);
    }
  }

  /** Any other line changes nothing here. */
  lemma ReceiveOtherCalm(s: Session, c: Client.Client)
    requires Inv(s) && s.link != NoLink && !s.client.stop.waiting && s.down != []
    requires !IsReply(s.down[0]) && !s.down[0].Meta?
    requires Client.Receive(s.client, s.down[0]) == Ok(c)
    ensures c.inflight == s.client.inflight && Linked(s.(down := s.down[1..], client := c))
  {
    var s' := s.(down := s.down[1..], client := c);
    assert !s.down[0].Stopping?;
    assert c.inflight == s.client.inflight && c.epoch == s.client.epoch && c.stop == s.client.stop
        && c.command == s.client.command;
    EpochsTail(s, s');
    hide Server.Valid, Concluded, Recorded, Silenced, Client.Receive, Epochs;
    assert Calm(s');
  }

  lemma ReceiveLinked(s: Session, c: Client.Client)
    requires Inv(s) && s.link != NoLink && s.down != [] && Client.Receive(s.client, s.down[0]) == Ok(c)
    ensures Linked(s.(down := s.down[1..], client := c))
    ensures s.down[0].Done? && Client.Answers(s.client, s.down[0].token) ==>
              s.client.inflight.value.tag == s.down[0].tag
  {
    if s.client.stop.waiting {
      if c.stop.waiting {
        ReceiveStopping(s, s.(down := s.down[1..], client := c));
      } else {
        ReceiveAcknowledgement(s, c);
      }
    } else if s.down[0].Meta? {
      ReceiveMetaCalm(s, c);
    } else if IsReply(s.down[0]) {
      ReceiveReplyCalm(s, c);
    } else {
      ReceiveOtherCalm(s, c);
    }
  }

  lemma FailConcludes(s: Session)
    requires Concluded(s)
    ensures Concluded(s.(client := Client.Fail(s.client)))
  {
  }

  /** A client with the same conclusions. */
  predicate SameConclusions(c: Client.Client, c': Client.Client) {
    c'.inflight == c.inflight && c'.outcomes == c.outcomes && c'.command == c.command && c'.connected == c.connected
  }

  /** A line leaves the command in flight alone, fails it, or gives its verdict. */
  lemma ReceiveCases(c: Client.Client, line: Down)
    ensures var r := Client.Receive(c, line);
            var c' := if r.Ok? then r.value else r.error;
            || SameConclusions(c, c')
            || SameConclusions(Client.Fail(c), c')
            || (line.Done? && c.inflight.Some? && SameConclusions(Client.OnDone(c, line.ok), c'))
    ensures line.Done? ==> Client.Receive(c, line).Ok?
  {
  }

  /** Whatever the line, the command in flight is concluded at most once. */
  lemma ReceiveConcludes(s: Session, c: Client.Client)
    requires Concluded(s) && s.down != [] && (s.client.command.Some? ==> s.client.inflight.Some?)
    requires Client.Receive(s.client, s.down[0]) == Ok(c) || Client.Receive(s.client, s.down[0]) == Err(c)
    ensures Concluded(s.(client := c)) && c.connected == s.client.connected
  {
    ReceiveCases(s.client, s.down[0]);
    FailConcludes(s);
    hide Client.Receive;
  }

  lemma ReceiveRecords(s: Session, c: Client.Client)
    requires Inv(s) && s.link != NoLink && s.down != [] && Client.Receive(s.client, s.down[0]) == Ok(c)
    ensures Recorded(OnReceive(s)) && OnReceive(s).link == s.link
    ensures OnReceive(s) == s.(down := s.down[1..], client := c, credits := OnReceive(s).credits)
  {
    ReceiveLinked(s, c);
    hide Client.Receive, Linked, Server.Valid, Concluded;
  }

  lemma LinkedAside(s: Session, credits: seq<Credit>)
    requires Linked(s)
    ensures Linked(s.(credits := credits))
  {
    var s' := s.(credits := credits);
    if s.client.stop.waiting {
      assert Stopping(s');
    } else {
      assert Epochs(s');
      assert Calm(s');
    }
  }

  lemma ReceiveKeeps(s: Session)
    requires Inv(s) && Possible(s, ClientReceives)
    ensures Inv(OnReceive(s))
  {
    var r := Client.Receive(s.client, s.down[0]);
    var c := if r.Ok? then r.value else r.error;
    ReceiveConcludes(s, c);
    ReceiveCases(s.client, s.down[0]);
    hide Client.Receive, Linked, Server.Valid, Recorded;
    if r.Ok? {
      ReceiveLinked(s, c);
      ReceiveRecords(s, c);
      LinkedAside(s.(down := s.down[1..], client := c), OnReceive(s).credits);
    } else {
      DropKeeps(s.(down := s.down[1..], client := c));
    }
  }

  lemma SingleAfterPlant(s: Session, x: Server.Sample)
    requires Inv(s) && Single(s)
    ensures Single(OnPlant(s, x))
  {
    if s.link == Live {
      PlantMovesToken(s.server, x);
      hide Server.OnSample, Server.Valid, Concluded, Recorded, Stopping, Calm;
      if Concludes(s, x) {
        CountZero(IsCmd, s.up);
      }
    }
  }

  lemma SingleAfterHandle(s: Session, line: Up, recent: bool)
    requires Inv(s) && Single(s) && Possible(s, ServerHandles(line, recent))
    ensures Single(OnHandle(s, line, recent))
  {
    if s.link == Live && line.Cmd? {
      CommandMovesToken(s.server, s.limits, line, recent);
      hide Server.Handle;
    }
  }

  lemma SingleAfterReceive(s: Session)
    requires Inv(s) && Single(s) && s.link != NoLink && s.down != []
    ensures Single(OnReceive(s))
  {
    ReceiveCases(s.client, s.down[0]);
    hide Client.Receive, Linked, Server.Valid, Recorded, Concluded;
  }

  lemma SingleKeeps(s: Session, e: Event)
    requires Inv(s) && Single(s) && Possible(s, e)
    ensures Single(Next(s, e))
  {
    match e
    case Plant(x) => SingleAfterPlant(s, x);
    case ServerHandles(line, recent) => SingleAfterHandle(s, line, recent);
    case ClientReceives => SingleAfterReceive(s);
    case _ => SingleAfterOther(s, e);
  }

  lemma SingleAfterOther(s: Session, e: Event)
    requires Inv(s) && Single(s) && Possible(s, e)
    requires !e.Plant? && !e.ServerHandles? && !e.ClientReceives?
    ensures Single(Next(s, e))
  {
    hide Linked, Recorded, Concluded;
  }

  lemma StepKeeps(s: Session, e: Event)
    requires Inv(s) && Possible(s, e)
    ensures Inv(Next(s, e))
  {
    hide Inv, Possible;
    match e
    case Plant(x) => PlantKeeps(s, x);
    case ServerAccepts(ours) => AcceptKeeps(s, ours);
    case ServerHandles(line, recent) => HandleKeeps(s, line, recent);
    case ServerReports(due, recent) => ReportKeeps(s, due, recent);
    case ServerCloses => CloseKeeps(s);
    case ClientConnects => ConnectKeeps(s);
    case ClientSubmits(verb, request, recent) => SubmitKeeps(s, verb, request, recent);
    case ClientCancels => CancelKeeps(s);
    case ClientTransmits => TransmitKeeps(s);
    case ClientReceives => ReceiveKeeps(s);
    case ClientDrops => DropLinkKeeps(s);
  }

  lemma DropLinkKeeps(s: Session)
    requires Inv(s)
    ensures Inv(Drop(s))
  {
    hide Linked;
    DropKeeps(s);
  }

  // ---- every run ------------------------------------------------------------------------------

  ghost predicate IsRun(limits: Limits, states: seq<Session>, events: seq<Event>) {
    && |states| == |events| + 1 && states[0] == Start(limits)
    && forall i :: 0 <= i < |events| ==> Possible(states[i], events[i]) && states[i + 1] == Next(states[i], events[i])
  }

  lemma {:induction false} RunKeeps(limits: Limits, states: seq<Session>, events: seq<Event>, i: nat)
    requires IsRun(limits, states, events) && i < |states|
    ensures Inv(states[i]) && Single(states[i])
  {
    if i > 0 {
      RunKeeps(limits, states, events, i - 1);
      hide Inv, Single;
      StepKeeps(states[i - 1], events[i - 1]);
      SingleKeeps(states[i - 1], events[i - 1]);
    }
  }

  /** In every run, whatever is cancelled, dropped, reconnected or served in between: a verdict the client takes
      for a command is the one verdict the plant reached for that command; no command is concluded twice; and
      no result on a live connection is replaced before it is reported. */
  lemma CreditsAreTheirOwnVerdicts(limits: Limits, states: seq<Session>, events: seq<Event>, i: nat)
    requires IsRun(limits, states, events) && i < |states|
    ensures forall c <- states[i].credits :: c in states[i].verdicts
    ensures forall v, w :: v in states[i].verdicts && w in states[i].verdicts && v.tag == w.tag ==> v == w
    ensures forall j, k :: 0 <= j < k < |states[i].client.outcomes| ==>
              states[i].client.outcomes[j].tag != states[i].client.outcomes[k].tag
    ensures !states[i].overwrote
  {
    RunKeeps(limits, states, events, i);
    hide Linked;
  }

  /** A command in flight is never given up because of a state line: on every connection the epoch the bridge
      states is the command's own or the one its admission made. */
  lemma StateNeverOvertakes(limits: Limits, states: seq<Session>, events: seq<Event>, i: nat)
    requires IsRun(limits, states, events) && i < |states|
    requires var s := states[i]; s.link != NoLink && s.down != [] && s.down[0].Meta?
    ensures var s, m := states[i], states[i].down[0]; !Client.Overtaken(s.client, m.epoch, m.available)
  {
    RunKeeps(limits, states, events, i);
    hide Recorded, Concluded, Silenced;
  }
}
