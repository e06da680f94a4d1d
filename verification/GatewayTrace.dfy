/** The gateway told by its trace alone: what each event adds to it, what phase the connection is in, and that
    a stop or a fatal close is the end. */
module GatewayTrace {
  import opened Basics
  import opened Gateway
  import opened GatewayProofs
  import opened GatewayHistory

  // ----- what the trace says -----

  predicate IsHello(e: Entry) {
    e.Received? && e.frame.Payload? && e.frame.body.Hello?
  }

  predicate IsOnline(e: Entry) {
    e.Received? && e.frame.Payload? && (e.frame.body.ReadyDispatch? || e.frame.body.ResumedDispatch?)
  }

  predicate IsHandshake(e: Entry) {
    e.Sends? && (e.sent.IdentifyFrame? || e.sent.ResumeFrame?)
  }

  /** A heartbeat was sent on this connection, scheduled or asked for, and neither an ACK nor a HELLO followed. */
  predicate Awaiting(log: seq<Entry>) {
    log != [] &&
    var (before, e) := (log[..|log| - 1], log[|log| - 1]);
    (e.Sends? && e.sent.HeartbeatFrame?) || (!Acknowledges(e) && !e.Opened? && Awaiting(before))
  }

  /** What a connection is doing, by the last thing that happened on it. */
  function Phase(log: seq<Entry>): State {
    if log == [] then Idle else
    var (before, e) := (log[..|log| - 1], log[|log| - 1]);
    if e.Opened? then Connecting
    else if IsHandshake(e) then Identifying
    else if IsOnline(e) then Ready
    else Phase(before)
  }

  /** Where to resume the latest session not invalidated since. */
  function Url(log: seq<Entry>): Option<string> {
    if log == [] then None else
    var (before, e) := (log[..|log| - 1], log[|log| - 1]);
    if Invalidates(e) then None else if IsReady(e) then e.frame.body.resumeUrl else Url(before)
  }

  /** The interval of the last HELLO: 41.25 seconds if it named none. */
  function Pace(log: seq<Entry>): real {
    if log == [] then 0.0 else
    var (before, e) := (log[..|log| - 1], log[|log| - 1]);
    if IsHello(e) then
      match e.frame.body.interval
      case Some(interval) => if interval > 0.0 then interval else 41250.0
      case None => 41250.0
    else Pace(before)
  }

  /** `stop()` was called, or Discord closed with a code that will not get better. */
  predicate Ends(e: Entry) {
    e.StopCalled? || (e.PeerClosed? && e.code in {4004, 4010, 4011, 4012, 4013, 4014})
  }

  function LastEnd(log: seq<Entry>): Option<Entry> {
    if log == [] then None
    else if Ends(log[|log| - 1]) then Some(log[|log| - 1])
    else LastEnd(log[..|log| - 1])
  }

  /** After the end nothing happens but further calls of `stop()`. */
  ghost predicate Quieted(log: seq<Entry>) {
    forall i, k :: 0 <= i < k < |log| && Ends(log[i]) ==> log[k] == StopCalled
  }

  // ----- the variables agree with it -----

  ghost predicate EndedBy(log: seq<Entry>, stopped: bool, state: State) {
    && Quieted(log)
    && match LastEnd(log)
       case None => !stopped && state !in {Stopped, Fatal}
       case Some(e) => stopped && state == if e.StopCalled? then Stopped else Fatal
  }

  ghost predicate PhasedBy(log: seq<Entry>, connected: bool, reconnecting: bool, state: State, awaitingAck: bool) {
    && (connected ==> state == Phase(log) && awaitingAck == Awaiting(log))
    && (reconnecting ==> state == Reconnecting)
  }

  ghost predicate Agrees(g: Closure) {
    && EndedBy(g.log, g.stopped, g.state)
    && PhasedBy(g.log, g.socket.Some?, g.reconnectTimer.Some?, g.state, g.awaitingAck)
    && g.resumeUrl == Url(g.log) && g.heartbeatIntervalMs == Pace(g.log)
    && (g.connectedAt.Some? ==> g.socket.Some?)
  }

  lemma Latest(log: seq<Entry>, e: Entry)
    ensures (log + [e])[..|log + [e]| - 1] == log && (log + [e])[|log + [e]| - 1] == e
  {
  }

  lemma {:induction false} NoEnd(log: seq<Entry>)
    ensures LastEnd(log).None? <==> forall i :: 0 <= i < |log| ==> !Ends(log[i])
  {
    if log != [] {
      NoEnd(log[..|log| - 1]);
      assert forall i :: 0 <= i < |log| - 1 ==> log[..|log| - 1][i] == log[i];
    }
  }

  lemma EndStays(log: seq<Entry>, e: Entry)
    requires Quieted(log) && (LastEnd(log).None? || e == StopCalled)
    ensures Quieted(log + [e]) && LastEnd(log + [e]) == if Ends(e) then Some(e) else LastEnd(log)
  {
    Latest(log, e);
    NoEnd(log);
  }

  lemma ScheduleAgrees(g: Closure, random: Fraction)
    requires Agrees(g) && g.socket.None? && !g.stopped
    ensures Agrees(ScheduleReconnect(g, random))
  {
  }

  lemma CloseAgrees(g: Closure, random: Fraction)
    requires Agrees(g) && g.socket.Some? && !g.stopped && g.reconnectTimer.None?
    ensures Agrees(CloseSocket(g, random))
  {
  }

  lemma SendAgrees(g: Closure, sent: Sent, canSend: bool)
    requires EndedBy(g.log, g.stopped, g.state) && !g.stopped && g.socket.Some? && g.reconnectTimer.None?
    requires g.resumeUrl == Url(g.log) && g.heartbeatIntervalMs == Pace(g.log)
    requires sent.HeartbeatFrame? ==> g.awaitingAck && g.state == Phase(g.log)
    requires !sent.HeartbeatFrame? ==> g.state == Identifying && g.awaitingAck == Awaiting(g.log)
    ensures Agrees(SendPayload(g, sent, canSend))
  {
    Latest(g.log, Sends(sent, canSend));
    EndStays(g.log, Sends(sent, canSend));
  }

  // ----- every event -----

  lemma HelloAgrees(g: Closure, interval: Option<real>, canSend: bool, random: Fraction)
    requires EndedBy(g.log, g.stopped, g.state) && !g.stopped && g.socket.Some? && g.reconnectTimer.None?
    requires g.resumeUrl == Url(g.log) && !Awaiting(g.log) && Pace(g.log) == Interval(interval)
    ensures Agrees(Handshake(StartHeartbeat(g, Interval(interval), random), canSend))
  {
    var g1 := StartHeartbeat(g, Interval(interval), random).(state := Identifying);
    var sent := if Truthy(g1.sessionId) && g1.sequence.Some? then ResumeFrame(g1.sessionId.value, g1.sequence.value)
                else IdentifyFrame;
    SendAgrees(g1, sent, canSend);
  }

  /** A frame on its own, before it is acted on. */
  lemma NotedAgrees(g: Closure, frame: Frame)
    requires Agrees(g) && !g.stopped
    ensures
      var log, e := Noted(g, frame).log, Received(frame);
      && EndedBy(log, g.stopped, g.state)
      && Url(log) == (if Invalidates(e) then None else if IsReady(e) then frame.body.resumeUrl else g.resumeUrl)
      && (!IsHello(e) ==> Pace(log) == g.heartbeatIntervalMs)
      && (IsHello(e) ==> Pace(log) == Interval(frame.body.interval))
      && Awaiting(log) == (!Acknowledges(e) && Awaiting(g.log))
      && Phase(log) == if IsOnline(e) then Ready else Phase(g.log)
  {
    Latest(g.log, Received(frame));
    EndStays(g.log, Received(frame));
  }

  lemma MessageAgrees(g: Closure, frame: Frame, canSend: bool, random: Fraction)
    requires Agrees(g) && !g.stopped && g.socket.Some? && g.reconnectTimer.None?
    ensures Agrees(HandleMessage(g, frame, canSend, random))
  {
    NotedAgrees(g, frame);
    var g1 := Noted(g, frame);
    if frame.Payload? {
      match frame.body
      case Hello(interval) => HelloAgrees(g1, interval, canSend, random);
      case Heartbeat => SendAgrees(g1.(awaitingAck := true), HeartbeatFrame(g1.sequence, false), canSend);
      case Reconnect => CloseAgrees(g1, random);
      case InvalidSession(resumable) =>
        CloseAgrees(if resumable then g1 else ForgetSession(g1), random);
      case _ =>
    }
  }

  /** The connection as a close leaves it, before anything is scheduled. */
  function Dropped(g: Closure, on: SocketId, code: int): Closure {
    ClearHeartbeat(g.(attached := g.attached - {on}, log := g.log + [PeerClosed(code)]))
      .(socket := None, connectedAt := None)
  }

  lemma DroppedAgrees(g: Closure, on: SocketId, code: int)
    requires Agrees(g) && !g.stopped && g.reconnectTimer.None?
    ensures
      var g1, e := Dropped(g, on, code), PeerClosed(code);
      && !g1.stopped && g1.socket.None? && g1.connectedAt.None? && g1.reconnectTimer.None?
      && Quieted(g1.log) && LastEnd(g1.log) == (if Ends(e) then Some(e) else None)
      && (!Ends(e) ==> g1.state !in {Stopped, Fatal})
      && g1.heartbeatIntervalMs == Pace(g1.log)
      && g1.resumeUrl == g.resumeUrl && Url(g1.log) == if Invalidates(e) then None else g.resumeUrl
  {
    Latest(g.log, PeerClosed(code));
    EndStays(g.log, PeerClosed(code));
  }

  lemma OnCloseAgrees(g: Closure, on: SocketId, code: int, random: Fraction)
    requires Agrees(g) && !g.stopped && g.socket.Some? && g.reconnectTimer.None?
    ensures Agrees(OnClose(g, on, code, random))
  {
    DroppedAgrees(g, on, code);
    var g1 := Dropped(g, on, code);
    OnCloseIs(g, on, code, random);
    if Ends(PeerClosed(code)) {
      GiveUpAgrees(g1, code);
    } else if Invalidates(PeerClosed(code)) {
      ForgottenAgrees(g1, random);
    } else {
      LostAgrees(g1, random);
    }
  }

  lemma OnCloseIs(g: Closure, on: SocketId, code: int, random: Fraction)
    requires !g.stopped
    ensures
      var g1, e := Dropped(g, on, code), PeerClosed(code);
      OnClose(g, on, code, random) ==
        if Ends(e) then GiveUp(g1) else if Invalidates(e) then ScheduleReconnect(ForgetSession(g1), random)
        else ScheduleReconnect(g1, random)
  {
  }

  lemma ForgottenAgrees(g: Closure, random: Fraction)
    requires Quieted(g.log) && LastEnd(g.log).None? && !g.stopped && g.state !in {Stopped, Fatal}
    requires g.socket.None? && g.reconnectTimer.None? && g.connectedAt.None?
    requires g.heartbeatIntervalMs == Pace(g.log) && Url(g.log).None?
    ensures Agrees(ScheduleReconnect(ForgetSession(g), random))
  {
  }

  lemma LostAgrees(g: Closure, random: Fraction)
    requires Quieted(g.log) && LastEnd(g.log).None? && !g.stopped && g.state !in {Stopped, Fatal}
    requires g.socket.None? && g.reconnectTimer.None? && g.connectedAt.None?
    requires g.heartbeatIntervalMs == Pace(g.log) && g.resumeUrl == Url(g.log)
    ensures Agrees(ScheduleReconnect(g, random))
  {
  }

  lemma GiveUpAgrees(g: Closure, code: int)
    requires Quieted(g.log) && LastEnd(g.log) == Some(PeerClosed(code))
    requires g.socket.None? && g.reconnectTimer.None? && g.heartbeatIntervalMs == Pace(g.log) && g.resumeUrl == Url(g.log)
    ensures Agrees(GiveUp(g))
  {
  }

  lemma BeatAgrees(g: Closure, canSend: bool, random: Fraction)
    requires Agrees(g) && !g.stopped && g.socket.Some? && g.reconnectTimer.None?
    ensures Agrees(Beat(g, canSend, random))
  {
    if g.awaitingAck {
      CloseAgrees(g, random);
    } else {
      SendAgrees(g.(awaitingAck := true), HeartbeatFrame(g.sequence, true), canSend);
    }
  }

  lemma ConnectAgrees(g: Closure, opens: bool, random: Fraction)
    requires EndedBy(g.log, g.stopped, g.state) && !g.stopped && g.socket.None? && g.reconnectTimer.None?
    requires g.resumeUrl == Url(g.log) && g.heartbeatIntervalMs == Pace(g.log) && g.connectedAt.None? && !g.awaitingAck
    ensures Agrees(Connect(g, opens, random))
  {
    if opens {
      var e := Opened(g.now, Truthy(g.sessionId) && Truthy(g.resumeUrl));
      Latest(g.log, e);
      EndStays(g.log, e);
    } else {
      ScheduleAgrees(g.(state := Connecting), random);
    }
  }

  lemma StopLeaves(g: Closure)
    ensures
      var g' := StopGateway(g);
      && g'.log == g.log + [StopCalled] && g'.stopped && g'.state == Stopped
      && g'.socket.None? && g'.reconnectTimer.None? && g'.connectedAt.None?
      && g'.resumeUrl == g.resumeUrl && g'.heartbeatIntervalMs == g.heartbeatIntervalMs
  {
  }

  lemma StopAgrees(g: Closure)
    requires Agrees(g)
    ensures Agrees(StopGateway(g))
  {
    Latest(g.log, StopCalled);
    EndStays(g.log, StopCalled);
    StopLeaves(g);
  }

  lemma HandleAgrees(g: Closure, e: Event)
    requires Held(g) && Agrees(g)
    requires match e
             case Message(on, _, _, _, _) => on in g.attached
             case PeerClose(on, _, _, _) => on in g.attached
             case TimerFires(timer, _, _, _, _) => timer in g.armed
             case Stop(_) => true
    ensures Agrees(Handle(g, e))
  {
    match e
    case Message(_, frame, _, canSend, random) => MessageAgrees(g, frame, canSend, random);
    case PeerClose(on, code, _, random) => OnCloseAgrees(g, on, code, random);
    case TimerFires(timer, _, canSend, opens, random) =>
      var g1 := g.(armed := g.armed - {timer});
      if g.armed[timer].kind.Beats? {
        BeatAgrees(g1, canSend, random);
      } else {
        ConnectAgrees(g1.(reconnectTimer := None), opens, random);
      }
    case Stop(_) => StopAgrees(g);
  }

  lemma StepAgrees(g: Closure, e: Event)
    requires Held(g) && Agrees(g)
    ensures Agrees(Step(g, e))
  {
    var g0 := Later(g, e.elapsed);
    assert Held(g0) && Agrees(g0);
    if Enabled(g, e) {
      HandleAgrees(g0, e);
    }
  }

  /** In every run the variables are what the trace says: the phase, the session's address, the interval, whether
      an ACK is awaited, and whether and how the connection was ended. */
  lemma {:induction false} RunAgrees(now: real, opens: bool, random: Fraction, events: seq<Event>)
    ensures Agrees(Run(Start(now, opens, random), events))
  {
    if events == [] {
      ConnectAgrees(Initial(now), opens, random);
    } else {
      RunAgrees(now, opens, random, events[..|events| - 1]);
      RunHolds(now, opens, random, events[..|events| - 1]);
      StepAgrees(Run(Start(now, opens, random), events[..|events| - 1]), events[|events| - 1]);
    }
  }

  /** In every run: once `stop()` was called, or Discord closed with a code that will not get better, the trace
      holds nothing more but calls of `stop()`, no socket is attached and no timer armed, and the state tells
      which came last. Before that the connection is not stopped. */
  lemma TheEndIsTheEnd(now: real, opens: bool, random: Fraction, events: seq<Event>)
    ensures
      var g := Run(Start(now, opens, random), events);
      && (forall i, k :: 0 <= i < k < |g.log| && Ends(g.log[i]) ==> g.log[k] == StopCalled)
      && (forall i :: 0 <= i < |g.log| && Ends(g.log[i]) ==>
           && g.stopped && g.attached == {} && g.armed == map[]
           && g.state == if g.log[|g.log| - 1] == StopCalled then Stopped else Fatal)
      && ((forall i :: 0 <= i < |g.log| ==> !Ends(g.log[i])) ==> !g.stopped && g.state !in {Stopped, Fatal})
  {
    RunAgrees(now, opens, random, events);
    RunHolds(now, opens, random, events);
    var g := Run(Start(now, opens, random), events);
    NoEnd(g.log);
    if LastEnd(g.log).Some? {
      assert g.armed.Keys == {};
      EndIsLast(g.log);
    }
  }

  lemma {:induction false} EndIsLast(log: seq<Entry>)
    requires Quieted(log) && LastEnd(log).Some?
    ensures log != [] && LastEnd(log) == Some(log[|log| - 1])
  {
    NoEnd(log[..|log| - 1]);
    assert forall i :: 0 <= i < |log| - 1 ==> log[..|log| - 1][i] == log[i];
  }

  // ----- what each event adds -----

  function HandshakeFor(log: seq<Entry>): Sent {
    if Truthy(Session(log)) && LastSeen(log).Some? then ResumeFrame(Session(log).value, LastSeen(log).value)
    else IdentifyFrame
  }

  /** A HELLO is answered with a handshake, and a request for a heartbeat with one. */
  function Answers(log: seq<Entry>, frame: Frame, canSend: bool): seq<Entry> {
    var log1 := log + [Received(frame)];
    if frame.Payload? && frame.body.Hello? then [Sends(HandshakeFor(log1), canSend)]
    else if frame.Payload? && frame.body.Heartbeat? then [Sends(HeartbeatFrame(LastSeen(log1), false), canSend)]
    else []
  }

  /** What an event adds to the trace, by the trace and by which timer fired. */
  function Adds(log: seq<Entry>, now: real, beats: bool, e: Event): seq<Entry> {
    match e
    case Message(_, frame, _, canSend, _) => [Received(frame)] + Answers(log, frame, canSend)
    case PeerClose(_, code, _, _) => [PeerClosed(code)]
    case TimerFires(_, elapsed, canSend, opens, _) =>
      if beats then if Awaiting(log) then [] else [Sends(HeartbeatFrame(LastSeen(log), true), canSend)]
      else if opens then [Opened(now + elapsed, Truthy(Session(log)) && Truthy(Url(log)))] else []
    case Stop(_) => [StopCalled]
  }

  lemma ClosingAdds(g: Closure, body: Body, canSend: bool, random: Fraction)
    requires body.Reconnect? || body.InvalidSession?
    ensures Dispatch(g, body, canSend, random).log == g.log
  {
    ClosingIsSilent(if body == InvalidSession(false) then ForgetSession(g) else g, random);
  }

  lemma HelloAdds(g: Closure, interval: Option<real>, canSend: bool, random: Fraction)
    requires g.socket.Some? && g.sessionId == Session(g.log) && g.sequence == LastSeen(g.log)
    ensures Dispatch(g, Hello(interval), canSend, random).log == g.log + [Sends(HandshakeFor(g.log), canSend)]
  {
  }

  lemma AnswerAdds(g: Closure, body: Body, canSend: bool, random: Fraction)
    requires g.socket.Some? && g.sequence == LastSeen(g.log)
    requires !body.Hello? && !body.Reconnect? && !body.InvalidSession?
    ensures Dispatch(g, body, canSend, random).log ==
      if body.Heartbeat? then g.log + [Sends(HeartbeatFrame(LastSeen(g.log), false), canSend)] else g.log
  {
  }

  lemma MessageAdds(g: Closure, frame: Frame, canSend: bool, random: Fraction)
    requires Told(g) && Agrees(g) && g.socket.Some? && !g.stopped
    ensures HandleMessage(g, frame, canSend, random).log == g.log + ([Received(frame)] + Answers(g.log, frame, canSend))
  {
    NotedTells(g, frame);
    var g1 := Noted(g, frame);
    assert g.log + [Received(frame)] + Answers(g.log, frame, canSend)
      == g.log + ([Received(frame)] + Answers(g.log, frame, canSend));
    assert g1.log + [] == g1.log;
    if frame.Payload? {
      if frame.body.Reconnect? || frame.body.InvalidSession? {
        ClosingAdds(g1, frame.body, canSend, random);
      } else if frame.body.Hello? {
        HelloAdds(g1, frame.body.interval, canSend, random);
      } else {
        AnswerAdds(g1, frame.body, canSend, random);
      }
    }
  }

  lemma TimerAdds(g: Closure, timer: TimerId, elapsed: Elapsed, canSend: bool, opens: bool, random: Fraction)
    requires Held(g) && Told(g) && Agrees(g) && timer in g.armed
    ensures
      var beats := g.armed[timer].kind.Beats?;
      Fire(g, timer, canSend, opens, random).log
        == g.log + Adds(g.log, g.now - elapsed, beats, TimerFires(timer, elapsed, canSend, opens, random))
  {
    var g1 := g.(armed := g.armed - {timer});
    ClosingIsSilent(g1, random);
    ScheduleIsSilent(g1.(reconnectTimer := None, state := Connecting), random);
  }

  lemma StepAdds(g: Closure, e: Event)
    requires Held(g) && Told(g) && Agrees(g)
    ensures
      var beats := e.TimerFires? && e.timer in g.armed && g.armed[e.timer].kind.Beats?;
      Step(g, e).log == if Enabled(g, e) then g.log + Adds(g.log, g.now, beats, e) else g.log
  {
    var g0 := Later(g, e.elapsed);
    assert Held(g0) && Told(g0) && Agrees(g0);
    if Enabled(g, e) {
      match e
      case Message(_, frame, _, canSend, random) => MessageAdds(g0, frame, canSend, random);
      case PeerClose(on, code, _, random) => CloseAdds(g0, on, code, random);
      case TimerFires(timer, elapsed, canSend, opens, random) => TimerAdds(g0, timer, elapsed, canSend, opens, random);
      case Stop(_) => StopAdds(g0);
    }
  }

  /** In every run each event adds exactly this to the trace, and one that cannot happen adds nothing. */
  lemma EventsAdd(now: real, opens: bool, random: Fraction, events: seq<Event>, e: Event)
    ensures
      var g := Run(Start(now, opens, random), events);
      var beats := e.TimerFires? && e.timer in g.armed && g.armed[e.timer].kind.Beats?;
      Run(Start(now, opens, random), events + [e]).log
        == if Enabled(g, e) then g.log + Adds(g.log, g.now, beats, e) else g.log
  {
    assert (events + [e])[..|events|] == events;
    RunAgrees(now, opens, random, events);
    RunHolds(now, opens, random, events);
    RunTells(now, opens, random, events);
    StepAdds(Run(Start(now, opens, random), events), e);
  }

  lemma CloseAdds(g: Closure, on: SocketId, code: int, random: Fraction)
    ensures OnClose(g, on, code, random).log == g.log + [PeerClosed(code)]
  {
  }

  lemma StopAdds(g: Closure)
    ensures StopGateway(g).log == g.log + [StopCalled]
  {
  }
}
