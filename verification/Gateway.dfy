/** The gateway connection (apps/bot/src/gateway.ts). Handlers run over shared variables; which event
    comes next, and what the socket and the random source do, are parameters. */
module Gateway {
  import opened Basics

  const MAX_BACKOFF_MS := 30000
  const DEFAULT_HEARTBEAT_MS := 41250.0
  const FATAL_CLOSE_CODES := {4004, 4010, 4011, 4012, 4013, 4014}
  const SESSION_GONE_CODES := {4007, 4009}

  type Fraction = r: real | 0.0 <= r < 1.0 witness 0.0
  type Elapsed = r: real | 0.0 <= r witness 0.0
  type SocketId = nat
  type TimerId = nat

  datatype State = Idle | Connecting | Identifying | Ready | Reconnecting | Stopped | Fatal

  /** A frame from Discord. `Junk` is anything that does not parse to an object. */
  datatype Frame = Junk | Payload(s: Option<int>, body: Body)

  datatype Body =
    | Hello(interval: Option<real>)
    | Heartbeat
    | HeartbeatAck
    | Reconnect
    | InvalidSession(resumable: bool)
    | ReadyDispatch(sessionId: Option<string>, resumeUrl: Option<string>)
    | ResumedDispatch
    | Other

  datatype Sent =
    | HeartbeatFrame(sequence: Option<int>, scheduled: bool)
    | IdentifyFrame
    | ResumeFrame(sessionId: string, lastSeen: int)

  /** The history: what was received, sent, opened and closed, in order. A send on a socket that is
      not open, or that throws, is `landed: false`. */
  datatype Entry =
    | Opened(at: real, resuming: bool)
    | Received(frame: Frame)
    | PeerClosed(code: int)
    | Sends(sent: Sent, landed: bool)
    | StopCalled

  datatype TimerKind = Beats | Reconnects
  datatype Timer = Timer(kind: TimerKind, due: real)

  /** The closure's variables, then what they refer to: sockets whose handlers are attached, timers
      armed, the clock and the history. */
  datatype Closure = Closure(
    state: State,
    socket: Option<SocketId>,
    heartbeatTimer: Option<TimerId>,
    reconnectTimer: Option<TimerId>,
    heartbeatIntervalMs: real,
    awaitingAck: bool,
    sequence: Option<int>,
    sessionId: Option<string>,
    resumeUrl: Option<string>,
    attempts: nat,
    connectedAt: Option<real>,
    stopped: bool,
    attached: set<SocketId>,
    armed: map<TimerId, Timer>,
    nextSocket: SocketId,
    nextTimer: TimerId,
    now: real,
    log: seq<Entry>)

  /** An event, with what the environment decides while it is handled: how much time passed, whether
      the socket takes a frame, whether a socket opens, and the random fraction. */
  datatype Event =
    | Message(on: SocketId, frame: Frame, elapsed: Elapsed, canSend: bool, random: Fraction)
    | PeerClose(on: SocketId, code: int, elapsed: Elapsed, random: Fraction)
    | TimerFires(timer: TimerId, elapsed: Elapsed, canSend: bool, opens: bool, random: Fraction)
    | Stop(elapsed: Elapsed)

  predicate Truthy(s: Option<string>) {
    s.Some? && s.value != ""
  }

  function Pow2(n: nat): nat {
    if n == 0 then 1 else 2 * Pow2(n - 1)
  }

  function Backoff(attempts: nat): nat {
    if 1000 * Pow2(attempts) < MAX_BACKOFF_MS then 1000 * Pow2(attempts) else MAX_BACKOFF_MS
  }

  function Delay(attempts: nat, random: Fraction): int {
    (Backoff(attempts) as real * (0.5 + random * 0.5)).Floor
  }

  // ---- The inner functions, as what they make of the closure ----

  function ClearedTimer(g: Closure, id: Option<TimerId>): Closure {
    if id.Some? then g.(armed := g.armed - {id.value}) else g
  }

  function WithTimer(g: Closure, kind: TimerKind, delay: real): Closure {
    g.(armed := g.armed[g.nextTimer := Timer(kind, g.now + delay)], nextTimer := g.nextTimer + 1)
  }

  function ClearHeartbeat(g: Closure): Closure {
    ClearedTimer(g, g.heartbeatTimer).(heartbeatTimer := None, awaitingAck := false)
  }

  function SendPayload(g: Closure, sent: Sent, canSend: bool): Closure {
    if g.socket.None? then g else g.(log := g.log + [Sends(sent, canSend)])
  }

  function ScheduleReconnect(g: Closure, random: Fraction): Closure {
    if g.stopped || g.reconnectTimer.Some? then g else
    WithTimer(g, Reconnects, Delay(g.attempts, random) as real)
      .(state := Reconnecting, connectedAt := None, attempts := g.attempts + 1, reconnectTimer := Some(g.nextTimer))
  }

  function CloseSocket(g: Closure, random: Fraction): Closure {
    var g1 := ClearHeartbeat(g);
    if g.socket.None? then g1 else
    var g2 := g1.(socket := None, attached := g1.attached - {g.socket.value});
    if g2.stopped then g2 else ScheduleReconnect(g2, random)
  }

  function Beat(g: Closure, canSend: bool, random: Fraction): Closure {
    if g.awaitingAck then CloseSocket(g, random) else
    var g1 := SendPayload(g.(awaitingAck := true), HeartbeatFrame(g.sequence, true), canSend);
    WithTimer(g1, Beats, g1.heartbeatIntervalMs).(heartbeatTimer := Some(g1.nextTimer))
  }

  /** The first beat is offset by a random fraction of the interval. */
  function FirstBeat(interval: real, random: Fraction): real {
    (interval * random).Floor as real
  }

  function StartHeartbeat(g: Closure, interval: real, random: Fraction): Closure {
    var g1 := ClearHeartbeat(g).(heartbeatIntervalMs := interval);
    WithTimer(g1, Beats, FirstBeat(interval, random)).(heartbeatTimer := Some(g1.nextTimer))
  }

  function GiveUp(g: Closure): Closure {
    ClearHeartbeat(g.(state := Fatal, stopped := true, connectedAt := None))
  }

  function Handshake(g: Closure, canSend: bool): Closure {
    SendPayload(g.(state := Identifying),
                if Truthy(g.sessionId) && g.sequence.Some? then ResumeFrame(g.sessionId.value, g.sequence.value)
                else IdentifyFrame,
                canSend)
  }

  function ForgetSession(g: Closure): Closure {
    g.(sessionId := None, resumeUrl := None, sequence := None)
  }

  /** A frame is received: the last sequence number any payload carried is remembered. */
  function Noted(g: Closure, frame: Frame): Closure {
    g.(log := g.log + [Received(frame)],
       sequence := if frame.Payload? && frame.s.Some? then frame.s else g.sequence)
  }

  function Interval(interval: Option<real>): real {
    if interval.Some? && interval.value > 0.0 then interval.value else DEFAULT_HEARTBEAT_MS
  }

  function Online(g: Closure): Closure {
    g.(state := Ready, attempts := 0, connectedAt := Some(g.now))
  }

  function Dispatch(g: Closure, body: Body, canSend: bool, random: Fraction): Closure {
    match body
    case Hello(interval) => Handshake(StartHeartbeat(g, Interval(interval), random), canSend)
    case Heartbeat => SendPayload(g.(awaitingAck := true), HeartbeatFrame(g.sequence, false), canSend)
    case HeartbeatAck => g.(awaitingAck := false)
    case Reconnect => CloseSocket(g, random)
    case InvalidSession(resumable) => CloseSocket(if resumable then g else ForgetSession(g), random)
    case ReadyDispatch(sessionId, resumeUrl) => Online(g).(sessionId := sessionId, resumeUrl := resumeUrl)
    case ResumedDispatch => Online(g)
    case Other => g
  }

  function HandleMessage(g: Closure, frame: Frame, canSend: bool, random: Fraction): Closure {
    if frame.Junk? then Noted(g, frame) else Dispatch(Noted(g, frame), frame.body, canSend, random)
  }

  function Connect(g: Closure, opens: bool, random: Fraction): Closure {
    if g.stopped then g else
    var g1 := g.(state := Connecting);
    if !opens then ScheduleReconnect(g1, random) else
    g1.(socket := Some(g1.nextSocket), attached := g1.attached + {g1.nextSocket}, nextSocket := g1.nextSocket + 1,
        log := g1.log + [Opened(g1.now, Truthy(g1.sessionId) && Truthy(g1.resumeUrl))])
  }

  function OnClose(g: Closure, on: SocketId, code: int, random: Fraction): Closure {
    var g0 := g.(attached := g.attached - {on}, log := g.log + [PeerClosed(code)]);
    var g1 := ClearHeartbeat(g0).(socket := None, connectedAt := None);
    if code in FATAL_CLOSE_CODES then GiveUp(g1) else
    var g2 := if code in SESSION_GONE_CODES then ForgetSession(g1) else g1;
    if g2.stopped then g2 else ScheduleReconnect(g2, random)
  }

  function CancelReconnect(g: Closure): Closure {
    ClearedTimer(g, g.reconnectTimer).(reconnectTimer := None)
  }

  function Detach(g: Closure): Closure {
    g.(socket := None, connectedAt := None,
       attached := if g.socket.Some? then g.attached - {g.socket.value} else g.attached)
  }

  function StopGateway(g: Closure): Closure {
    Detach(ClearHeartbeat(CancelReconnect(g.(stopped := true, state := Stopped, log := g.log + [StopCalled]))))
  }

  // ---- Runs ----

  /** A detached socket delivers nothing; a timer fires once, when it is due. */
  predicate Enabled(g: Closure, e: Event) {
    match e
    case Message(on, _, _, _, _) => on in g.attached
    case PeerClose(on, _, _, _) => on in g.attached
    case TimerFires(timer, elapsed, _, _, _) => timer in g.armed && g.armed[timer].due <= g.now + elapsed
    case Stop(_) => true
  }

  function Fire(g: Closure, timer: TimerId, canSend: bool, opens: bool, random: Fraction): Closure
    requires timer in g.armed
  {
    var g1 := g.(armed := g.armed - {timer});
    if g.armed[timer].kind.Beats? then Beat(g1, canSend, random)
    else Connect(g1.(reconnectTimer := None), opens, random)
  }

  function Handle(g: Closure, e: Event): Closure
    requires e.TimerFires? ==> e.timer in g.armed
  {
    match e
    case Message(_, frame, _, canSend, random) => HandleMessage(g, frame, canSend, random)
    case PeerClose(on, code, _, random) => OnClose(g, on, code, random)
    case TimerFires(timer, _, canSend, opens, random) => Fire(g, timer, canSend, opens, random)
    case Stop(_) => StopGateway(g)
  }

  function Later(g: Closure, elapsed: Elapsed): Closure {
    g.(now := g.now + elapsed)
  }

  function Step(g: Closure, e: Event): Closure {
    if Enabled(g, e) then Handle(Later(g, e.elapsed), e) else g
  }

  function Initial(now: real): Closure {
    Closure(Idle, None, None, None, 0.0, false, None, None, None, 0, None, false, {}, map[], 0, 0, now, [])
  }

  function Start(now: real, opens: bool, random: Fraction): Closure {
    Connect(Initial(now), opens, random)
  }

  function Run(g: Closure, events: seq<Event>): Closure {
    if events == [] then g else Step(Run(g, events[..|events| - 1]), events[|events| - 1])
  }
}
