/** What the gateway keeps through every trace of events. */
module GatewayProofs {
  import opened Basics
  import opened Gateway

  function Ids<T>(id: Option<T>): set<T> {
    if id.Some? then {id.value} else {}
  }

  /** Never wedged and never doubled: exactly one of a live socket, a pending reconnect timer, and being
      down for good; no socket or timer is live that the closure does not hold. */
  ghost predicate Held(g: Closure) {
    && g.attached == Ids(g.socket)
    && g.armed.Keys == Ids(g.heartbeatTimer) + Ids(g.reconnectTimer)
    && (g.heartbeatTimer.Some? ==> g.socket.Some? && g.armed[g.heartbeatTimer.value].kind == Beats)
    && (g.reconnectTimer.Some? ==> g.armed[g.reconnectTimer.value].kind == Reconnects)
    && (forall id: TimerId :: id in g.armed ==> id < g.nextTimer)
    && (if g.stopped then g.socket.None? && g.reconnectTimer.None?
        else g.socket.Some? <==> g.reconnectTimer.None?)
    && (g.stopped <==> g.state in {Stopped, Fatal})
    && (g.awaitingAck ==> g.socket.Some?)
  }

  /** A live connection, its heartbeat timer armed or just fired. */
  ghost predicate Live(g: Closure) {
    && g.socket.Some? && g.attached == {g.socket.value}
    && g.reconnectTimer.None? && !g.stopped
    && g.armed.Keys <= Ids(g.heartbeatTimer)
    && (forall id: TimerId :: id in g.armed ==> id < g.nextTimer)
  }

  /** Nothing live and nothing armed. */
  ghost predicate Down(g: Closure) {
    && g.socket.None? && g.attached == {} && g.armed.Keys == {}
    && g.heartbeatTimer.None? && g.reconnectTimer.None? && !g.awaitingAck
  }

  lemma ScheduleHolds(g: Closure, random: Fraction)
    requires Down(g) && !g.stopped
    ensures Held(ScheduleReconnect(g, random))
  {
  }

  lemma CloseHolds(g: Closure, random: Fraction)
    requires Live(g)
    ensures Held(CloseSocket(g, random))
  {
    var g1 := ClearHeartbeat(g);
    ScheduleHolds(g1.(socket := None, attached := g1.attached - {g.socket.value}), random);
  }

  lemma BeatHolds(g: Closure, canSend: bool, random: Fraction)
    requires Live(g) && g.armed.Keys == {} && g.state !in {Stopped, Fatal}
    ensures Held(Beat(g, canSend, random))
  {
    if g.awaitingAck {
      CloseHolds(g, random);
    }
  }

  lemma StartHeartbeatHolds(g: Closure, interval: real, random: Fraction)
    requires Live(g) && g.state !in {Stopped, Fatal}
    ensures Held(StartHeartbeat(g, interval, random))
  {
  }

  lemma HelloHolds(g: Closure, interval: real, canSend: bool, random: Fraction)
    requires Live(g) && g.state !in {Stopped, Fatal}
    ensures Held(Handshake(StartHeartbeat(g, interval, random), canSend))
  {
    StartHeartbeatHolds(g, interval, random);
    var g1 := StartHeartbeat(g, interval, random);
    assert Held(g1.(state := Identifying));
  }

  lemma StopHolds(g: Closure)
    requires Held(g)
    ensures Held(StopGateway(g))
  {
  }

  lemma DispatchHolds(g: Closure, body: Body, canSend: bool, random: Fraction)
    requires Held(g) && g.socket.Some?
    ensures Held(Dispatch(g, body, canSend, random))
  {
    match body
    case Hello(interval) => HelloHolds(g, Interval(interval), canSend, random);
    case Reconnect => CloseHolds(g, random);
    case InvalidSession(resumable) => CloseHolds(if resumable then g else ForgetSession(g), random);
    case _ =>
  }

  lemma MessageHolds(g: Closure, frame: Frame, canSend: bool, random: Fraction)
    requires Held(g) && g.socket.Some?
    ensures Held(HandleMessage(g, frame, canSend, random))
  {
    assert Held(Noted(g, frame));
    if frame.Payload? {
      DispatchHolds(Noted(g, frame), frame.body, canSend, random);
    }
  }

  lemma OnCloseHolds(g: Closure, on: SocketId, code: int, random: Fraction)
    requires Held(g) && on in g.attached
    ensures Held(OnClose(g, on, code, random))
  {
    var g0 := g.(attached := g.attached - {on}, log := g.log + [PeerClosed(code)]);
    var g1 := ClearHeartbeat(g0).(socket := None, connectedAt := None);
    assert Down(g1);
    if code !in FATAL_CLOSE_CODES {
      ScheduleHolds(if code in SESSION_GONE_CODES then ForgetSession(g1) else g1, random);
    }
  }

  lemma ConnectHolds(g: Closure, opens: bool, random: Fraction)
    requires Down(g) && !g.stopped
    ensures Held(Connect(g, opens, random))
  {
    if !opens {
      ScheduleHolds(g.(state := Connecting), random);
    }
  }

  lemma FireHolds(g: Closure, timer: TimerId, canSend: bool, opens: bool, random: Fraction)
    requires Held(g) && timer in g.armed
    ensures Held(Fire(g, timer, canSend, opens, random))
  {
    var g1 := g.(armed := g.armed - {timer});
    if g.armed[timer].kind.Beats? {
      BeatHolds(g1, canSend, random);
    } else {
      ConnectHolds(g1.(reconnectTimer := None), opens, random);
    }
  }

  lemma HandleHolds(g: Closure, e: Event)
    requires Held(g)
    requires match e
             case Message(on, _, _, _, _) => on in g.attached
             case PeerClose(on, _, _, _) => on in g.attached
             case TimerFires(timer, _, _, _, _) => timer in g.armed
             case Stop(_) => true
    ensures Held(Handle(g, e))
  {
    match e
    case Message(_, frame, _, canSend, random) => MessageHolds(g, frame, canSend, random);
    case PeerClose(on, code, _, random) => OnCloseHolds(g, on, code, random);
    case TimerFires(timer, _, canSend, opens, random) => FireHolds(g, timer, canSend, opens, random);
    case Stop(_) => StopHolds(g);
  }

  lemma StepHolds(g: Closure, e: Event)
    requires Held(g)
    ensures Held(Step(g, e))
  {
    assert Held(Later(g, e.elapsed));
    if Enabled(g, e) {
      HandleHolds(Later(g, e.elapsed), e);
    }
  }

  lemma {:induction false} RunHolds(now: real, opens: bool, random: Fraction, events: seq<Event>)
    ensures Held(Run(Start(now, opens, random), events))
  {
    if events == [] {
      ConnectHolds(Initial(now), opens, random);
    } else {
      RunHolds(now, opens, random, events[..|events| - 1]);
      StepHolds(Run(Start(now, opens, random), events[..|events| - 1]), events[|events| - 1]);
    }
  }

  /** After `stop()` or a fatal close nothing is opened, armed or sent, whatever happens next. */
  lemma {:induction false} DownStaysDown(g: Closure, events: seq<Event>)
    requires Held(g) && g.stopped
    ensures var g' := Run(g, events);
            && Held(g') && g'.stopped
            && g'.attached == {} && g'.armed == map[]
            && |g.log| <= |g'.log| && g'.log[..|g.log|] == g.log
            && forall k :: |g.log| <= k < |g'.log| ==> g'.log[k] == StopCalled
  {
    if events != [] {
      var before := events[..|events| - 1];
      DownStaysDown(g, before);
      StepHolds(Run(g, before), events[|events| - 1]);
    } else {
      assert g.armed.Keys == {};
    }
  }
}
