/** The gateway's handlers as the source writes them, over variables they update in place. Each is
    proved to do what its function of the closure says. */
module GatewayConnection {
  import opened Basics
  import opened Gateway

  /** What the handlers reach outside their variables. */
  datatype Outside = Outside(
    attached: set<SocketId>,
    armed: map<TimerId, Timer>,
    nextSocket: SocketId,
    nextTimer: TimerId,
    now: real,
    log: seq<Entry>)

  class Connection {
    var state: State
    var socket: Option<SocketId>
    var heartbeatTimer: Option<TimerId>
    var reconnectTimer: Option<TimerId>
    var heartbeatIntervalMs: real
    var awaitingAck: bool
    var sequence: Option<int>
    var sessionId: Option<string>
    var resumeUrl: Option<string>
    var attempts: nat
    var connectedAt: Option<real>
    var stopped: bool
    var outside: Outside

    function Snapshot(): Closure
      reads this
    {
      Closure(state, socket, heartbeatTimer, reconnectTimer, heartbeatIntervalMs, awaitingAck, sequence,
              sessionId, resumeUrl, attempts, connectedAt, stopped, outside.attached, outside.armed,
              outside.nextSocket, outside.nextTimer, outside.now, outside.log)
    }

    /** `startGateway` */
    constructor (now: real, opens: bool, random: Fraction)
      ensures Snapshot() == Gateway.Start(now, opens, random)
    {
      state, socket, heartbeatTimer, reconnectTimer := Idle, None, None, None;
      heartbeatIntervalMs, awaitingAck, sequence, sessionId, resumeUrl := 0.0, false, None, None, None;
      attempts, connectedAt, stopped := 0, None, false;
      outside := Outside({}, map[], 0, 0, now, []);
      new;
      Connect(opens, random);
    }

    method SetTimer(kind: TimerKind, delay: real) returns (id: TimerId)
      modifies this`outside
      ensures id == old(outside.nextTimer) && Snapshot() == Gateway.WithTimer(old(Snapshot()), kind, delay)
    {
      id := outside.nextTimer;
      outside := outside.(armed := outside.armed[id := Timer(kind, outside.now + delay)], nextTimer := id + 1);
    }

    method ClearHeartbeat()
      modifies this`outside, this`heartbeatTimer, this`awaitingAck
      ensures Snapshot() == Gateway.ClearHeartbeat(old(Snapshot()))
    {
      if heartbeatTimer.Some? {
        outside := outside.(armed := outside.armed - {heartbeatTimer.value});
        heartbeatTimer := None;
      }
      awaitingAck := false;
    }

    method SendPayload(sent: Sent, canSend: bool)
      modifies this`outside
      ensures Snapshot() == Gateway.SendPayload(old(Snapshot()), sent, canSend)
    {
      if socket.None? {
        return;
      }
      outside := outside.(log := outside.log + [Sends(sent, canSend)]);
    }

    method Beat(canSend: bool, random: Fraction)
      modifies this
      ensures Snapshot() == Gateway.Beat(old(Snapshot()), canSend, random)
    {
      if awaitingAck {
        CloseSocket(random);
        return;
      }
      awaitingAck := true;
      SendPayload(HeartbeatFrame(sequence, true), canSend);
      var id := SetTimer(Beats, heartbeatIntervalMs);
      heartbeatTimer := Some(id);
    }

    method StartHeartbeat(interval: real, random: Fraction)
      modifies this
      ensures Snapshot() == Gateway.StartHeartbeat(old(Snapshot()), interval, random)
    {
      ClearHeartbeat();
      heartbeatIntervalMs := interval;
      var id := SetTimer(Beats, FirstBeat(interval, random));
      heartbeatTimer := Some(id);
    }

    method CloseSocket(random: Fraction)
      modifies this
      ensures Snapshot() == Gateway.CloseSocket(old(Snapshot()), random)
    {
      ClearHeartbeat();
      var current := socket;
      socket := None;
      if current.None? {
        return;
      }
      outside := outside.(attached := outside.attached - {current.value});
      if !stopped {
        ScheduleReconnect(random);
      }
    }

    method ScheduleReconnect(random: Fraction)
      modifies this
      ensures Snapshot() == Gateway.ScheduleReconnect(old(Snapshot()), random)
    {
      if stopped || reconnectTimer.Some? {
        return;
      }
      state := Reconnecting;
      connectedAt := None;
      var delay := Delay(attempts, random);
      attempts := attempts + 1;
      var id := SetTimer(Reconnects, delay as real);
      reconnectTimer := Some(id);
    }

    method GiveUp()
      modifies this
      ensures Snapshot() == Gateway.GiveUp(old(Snapshot()))
    {
      state := Fatal;
      stopped := true;
      connectedAt := None;
      ClearHeartbeat();
    }

    method Identify(canSend: bool)
      modifies this`state, this`outside
      ensures Snapshot() == Gateway.SendPayload(old(Snapshot()).(state := Identifying), IdentifyFrame, canSend)
    {
      state := Identifying;
      SendPayload(IdentifyFrame, canSend);
    }

    method Resume(canSend: bool)
      requires sessionId.Some? && sequence.Some?
      modifies this`state, this`outside
      ensures Snapshot() == Gateway.SendPayload(old(Snapshot()).(state := Identifying),
                                                ResumeFrame(sessionId.value, sequence.value), canSend)
    {
      state := Identifying;
      SendPayload(ResumeFrame(sessionId.value, sequence.value), canSend);
    }

    method ForgetSession()
      modifies this`sessionId, this`resumeUrl, this`sequence
      ensures Snapshot() == Gateway.ForgetSession(old(Snapshot()))
    {
      sessionId, resumeUrl, sequence := None, None, None;
    }

    method HandleMessage(frame: Frame, canSend: bool, random: Fraction)
      modifies this
      ensures Snapshot() == Gateway.HandleMessage(old(Snapshot()), frame, canSend, random)
    {
      outside := outside.(log := outside.log + [Received(frame)]);
      if frame.Junk? {
        return;
      }
      if frame.s.Some? {
        sequence := frame.s;
      }
      Dispatch(frame.body, canSend, random);
    }

    method OnHello(interval: Option<real>, canSend: bool, random: Fraction)
      modifies this
      ensures Snapshot() == Handshake(Gateway.StartHeartbeat(old(Snapshot()), Interval(interval), random), canSend)
    {
      StartHeartbeat(if interval.Some? && interval.value > 0.0 then interval.value
                     else DEFAULT_HEARTBEAT_MS, random);
      if Truthy(sessionId) && sequence.Some? {
        Resume(canSend);
      } else {
        Identify(canSend);
      }
    }

    method Online()
      modifies this`state, this`attempts, this`connectedAt
      ensures Snapshot() == Gateway.Online(old(Snapshot()))
    {
      state, attempts, connectedAt := Ready, 0, Some(outside.now);
    }

    /** The switch on `payload.op`. */
    method Dispatch(body: Body, canSend: bool, random: Fraction)
      modifies this
      ensures Snapshot() == Gateway.Dispatch(old(Snapshot()), body, canSend, random)
    {
      match body {
        case Hello(interval) =>
          OnHello(interval, canSend, random);
        case Heartbeat =>
          awaitingAck := true;
          SendPayload(HeartbeatFrame(sequence, false), canSend);
        case HeartbeatAck =>
          awaitingAck := false;
        case Reconnect =>
          CloseSocket(random);
        case InvalidSession(resumable) =>
          if !resumable {
            ForgetSession();
          }
          CloseSocket(random);
        case ReadyDispatch(session, url) =>
          sessionId, resumeUrl := session, url;
          Online();
        case ResumedDispatch =>
          Online();
        case Other =>
      }
    }

    method Connect(opens: bool, random: Fraction)
      modifies this
      ensures Snapshot() == Gateway.Connect(old(Snapshot()), opens, random)
    {
      if stopped {
        return;
      }
      state := Connecting;
      var resuming := Truthy(sessionId) && Truthy(resumeUrl);
      if !opens {
        ScheduleReconnect(random);
        return;
      }
      socket := Some(outside.nextSocket);
      outside := outside.(attached := outside.attached + {outside.nextSocket},
                          log := outside.log + [Opened(outside.now, resuming)],
                          nextSocket := outside.nextSocket + 1);
    }

    method OnClose(on: SocketId, code: int, random: Fraction)
      modifies this
      ensures Snapshot() == Gateway.OnClose(old(Snapshot()), on, code, random)
    {
      outside := outside.(attached := outside.attached - {on}, log := outside.log + [PeerClosed(code)]);
      ClearHeartbeat();
      ghost var cleared := Snapshot();
      socket := None;
      connectedAt := None;
      assert Snapshot() == cleared.(socket := None, connectedAt := None);
      if code in FATAL_CLOSE_CODES {
        GiveUp();
        return;
      }
      if code in SESSION_GONE_CODES {
        ForgetSession();
      }
      if !stopped {
        ScheduleReconnect(random);
      }
    }

    /** The callback of a timer that was armed. */
    method OnTimer(timer: TimerId, canSend: bool, opens: bool, random: Fraction)
      requires timer in outside.armed
      modifies this
      ensures Snapshot() == Gateway.Fire(old(Snapshot()), timer, canSend, opens, random)
    {
      var kind := outside.armed[timer].kind;
      outside := outside.(armed := outside.armed - {timer});
      if kind.Beats? {
        Beat(canSend, random);
      } else {
        reconnectTimer := None;
        Connect(opens, random);
      }
    }

    method CancelReconnect()
      modifies this`outside, this`reconnectTimer
      ensures Snapshot() == Gateway.CancelReconnect(old(Snapshot()))
    {
      if reconnectTimer.Some? {
        outside := outside.(armed := outside.armed - {reconnectTimer.value});
        reconnectTimer := None;
      }
    }

    method Detach()
      modifies this`outside, this`socket, this`connectedAt
      ensures Snapshot() == Gateway.Detach(old(Snapshot()))
    {
      var current := socket;
      socket := None;
      connectedAt := None;
      if current.Some? {
        outside := outside.(attached := outside.attached - {current.value});
      }
    }

    method MarkStopped()
      modifies this`outside, this`stopped, this`state
      ensures
        var g := old(Snapshot());
        Snapshot() == g.(stopped := true, state := Stopped, log := g.log + [StopCalled])
    {
      outside := outside.(log := outside.log + [StopCalled]);
      stopped := true;
      state := Stopped;
    }

    method Stop()
      modifies this
      ensures Snapshot() == Gateway.StopGateway(old(Snapshot()))
    {
      MarkStopped();
      CancelReconnect();
      ClearHeartbeat();
      Detach();
    }
  }
}
