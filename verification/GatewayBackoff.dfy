/** How fast sockets are opened while no connection comes up. */
module GatewayBackoff {
  import opened Basics
  import opened Gateway
  import opened GatewayProofs

  lemma {:induction false} BackoffGrows(k: nat, n: nat)
    requires k <= n
    ensures 1000 <= Backoff(k) <= Backoff(n) <= MAX_BACKOFF_MS
    ensures 5 <= n ==> Backoff(n) == MAX_BACKOFF_MS
    ensures Pow2(k) <= Pow2(n) && 1 <= Pow2(k)
    decreases n
  {
    if k < n {
      BackoffGrows(k, n - 1);
    } else if n > 0 {
      BackoffGrows(k - 1, n - 1);
    }
    if n == 5 {
      assert Pow2(5) == 32;
    }
  }

  lemma NonNegative(x: real, y: real)
    requires 0.0 <= x && 0.0 <= y
    ensures 0.0 <= x * y
  {
  }

  lemma Jittered(half: nat, random: Fraction)
    ensures half <= ((2 * half) as real * (0.5 + random * 0.5)).Floor <= 2 * half
  {
    var part := half as real * random;
    var rest := half as real * (1.0 - random);
    assert part + rest == half as real;
    NonNegative(half as real, random);
    NonNegative(half as real, 1.0 - random);
    assert (2 * half) as real * (0.5 + random * 0.5) == half as real + part;
  }

  /** For any jitter, the delay lies between half of and all of min(30000, 1000 * 2^attempts). */
  lemma DelayBounds(attempts: nat, random: Fraction)
    ensures Backoff(attempts) <= 2 * Delay(attempts, random)
    ensures Delay(attempts, random) <= Backoff(attempts)
  {
    var half := if 1000 * Pow2(attempts) < MAX_BACKOFF_MS then 500 * Pow2(attempts) else 15000;
    assert Backoff(attempts) == 2 * half;
    Jittered(half, random);
  }

  /** When sockets were opened since the connection was last up. */
  function Opens(log: seq<Entry>): seq<real> {
    if log == [] then [] else
    var (before, e) := (log[..|log| - 1], log[|log| - 1]);
    if e.Received? && e.frame.Payload? && (e.frame.body.ReadyDispatch? || e.frame.body.ResumedDispatch?) then []
    else if e.Opened? then Opens(before) + [e.at]
    else Opens(before)
  }

  /** Socket k + 1 comes at least half of the k-th backoff after socket k. */
  ghost predicate Spread(opens: seq<real>) {
    forall k :: 1 <= k < |opens| ==> opens[k - 1] + (Backoff(k - 1) / 2) as real <= opens[k]
  }

  /** When the pending reconnect is due. */
  function Pending(g: Closure): Option<real> {
    if g.reconnectTimer.Some? && g.reconnectTimer.value in g.armed
    then Some(g.armed[g.reconnectTimer.value].due) else None
  }

  /** No socket may be opened before `at`, which comes after enough failures. */
  predicate Waits(opens: seq<real>, attempts: nat, at: real) {
    |opens| <= attempts
    && (opens != [] ==> opens[|opens| - 1] + (Backoff(|opens| - 1) / 2) as real <= at)
  }

  ghost predicate PacedBy(opens: seq<real>, attempts: nat, pending: Option<real>, now: real) {
    && Spread(opens)
    && (opens != [] ==> opens[|opens| - 1] <= now)
    && |opens| <= attempts + 1
    && (pending.Some? ==> Waits(opens, attempts, pending.value))
  }

  ghost predicate Paced(g: Closure) {
    PacedBy(Opens(g.log), g.attempts, Pending(g), g.now)
  }

  lemma ScheduleIsPaced(g: Closure, random: Fraction)
    requires Paced(g)
    ensures Paced(ScheduleReconnect(g, random))
  {
    DelayBounds(g.attempts, random);
    if Opens(g.log) != [] {
      BackoffGrows(|Opens(g.log)| - 1, g.attempts);
    }
  }

  lemma CloseIsPaced(g: Closure, random: Fraction)
    requires Paced(g)
    ensures Paced(CloseSocket(g, random))
  {
    var g1 := ClearHeartbeat(g);
    assert Paced(g1);
    if g.socket.Some? {
      ScheduleIsPaced(g1.(socket := None, attached := g1.attached - {g.socket.value}), random);
    }
  }

  /** Logging anything but a new socket or a connection that came up. */
  lemma LogIsPaced(log: seq<Entry>, e: Entry)
    requires !e.Opened?
    requires e.Received? && e.frame.Payload? ==> !e.frame.body.ReadyDispatch? && !e.frame.body.ResumedDispatch?
    ensures Opens(log + [e]) == Opens(log)
  {
    assert (log + [e])[..|log|] == log;
  }

  /** Only the openings, the failures, the pending reconnect and the clock matter. */
  lemma AsPaced(g: Closure, g': Closure)
    requires Paced(g)
    requires Opens(g'.log) == Opens(g.log) && g'.attempts == g.attempts && g'.now == g.now
    requires Pending(g') == Pending(g) || Pending(g').None?
    ensures Paced(g')
  {
  }

  lemma SendIsPaced(g: Closure, sent: Sent, canSend: bool)
    requires Paced(g)
    ensures Paced(SendPayload(g, sent, canSend))
  {
    LogIsPaced(g.log, Sends(sent, canSend));
    AsPaced(g, SendPayload(g, sent, canSend));
  }

  lemma HelloIsPaced(g: Closure, interval: real, canSend: bool, random: Fraction)
    requires Paced(g) && g.reconnectTimer.None?
    ensures Paced(Handshake(StartHeartbeat(g, interval, random), canSend))
  {
    var g1 := StartHeartbeat(g, interval, random).(state := Identifying);
    AsPaced(g, g1);
    SendIsPaced(g1, if Truthy(g1.sessionId) && g1.sequence.Some?
                    then ResumeFrame(g1.sessionId.value, g1.sequence.value) else IdentifyFrame, canSend);
  }

  lemma DispatchIsPaced(g: Closure, body: Body, canSend: bool, random: Fraction)
    requires Paced(g) && !body.ReadyDispatch? && !body.ResumedDispatch? && g.reconnectTimer.None?
    ensures Paced(Dispatch(g, body, canSend, random))
  {
    match body
    case Hello(interval) => HelloIsPaced(g, Interval(interval), canSend, random);
    case Heartbeat => SendIsPaced(g.(awaitingAck := true), HeartbeatFrame(g.sequence, false), canSend);
    case Reconnect => CloseIsPaced(g, random);
    case InvalidSession(resumable) => CloseIsPaced(if resumable then g else ForgetSession(g), random);
    case _ => AsPaced(g, Dispatch(g, body, canSend, random));
  }

  lemma MessageIsPaced(g: Closure, frame: Frame, canSend: bool, random: Fraction)
    requires Paced(g) && g.reconnectTimer.None?
    ensures Paced(HandleMessage(g, frame, canSend, random))
  {
    if frame.Payload? && (frame.body.ReadyDispatch? || frame.body.ResumedDispatch?) {
      assert Opens(g.log + [Received(frame)]) == [];
    } else {
      LogIsPaced(g.log, Received(frame));
      assert Paced(Noted(g, frame));
      if frame.Payload? {
        DispatchIsPaced(Noted(g, frame), frame.body, canSend, random);
      }
    }
  }

  lemma OnCloseIsPaced(g: Closure, on: SocketId, code: int, random: Fraction)
    requires Paced(g)
    ensures Paced(OnClose(g, on, code, random))
  {
    LogIsPaced(g.log, PeerClosed(code));
    var g0 := g.(attached := g.attached - {on}, log := g.log + [PeerClosed(code)]);
    var g1 := ClearHeartbeat(g0).(socket := None, connectedAt := None);
    AsPaced(g, g1);
    if code in FATAL_CLOSE_CODES {
      AsPaced(g1, GiveUp(g1));
    } else {
      var g2 := if code in SESSION_GONE_CODES then ForgetSession(g1) else g1;
      AsPaced(g1, g2);
      ScheduleIsPaced(g2, random);
    }
  }

  lemma OpeningIsPaced(g: Closure, e: Entry)
    requires PacedBy(Opens(g.log), g.attempts, None, g.now) && Waits(Opens(g.log), g.attempts, g.now)
    requires e.Opened? && e.at == g.now
    ensures PacedBy(Opens(g.log + [e]), g.attempts, None, g.now)
  {
    assert (g.log + [e])[..|g.log|] == g.log;
    assert Opens(g.log + [e]) == Opens(g.log) + [g.now];
  }

  /** Opening a socket now, after enough failures and enough time. */
  lemma ConnectIsPaced(g: Closure, opens: bool, random: Fraction)
    requires PacedBy(Opens(g.log), g.attempts, None, g.now) && Waits(Opens(g.log), g.attempts, g.now)
    requires g.reconnectTimer.None?
    ensures Paced(Connect(g, opens, random))
  {
    if opens {
      OpeningIsPaced(g, Opened(g.now, Truthy(g.sessionId) && Truthy(g.resumeUrl)));
    } else {
      ScheduleIsPaced(g.(state := Connecting), random);
    }
  }

  lemma FireIsPaced(g: Closure, timer: TimerId, canSend: bool, opens: bool, random: Fraction)
    requires Paced(g) && Held(g) && timer in g.armed && g.armed[timer].due <= g.now
    ensures Paced(Fire(g, timer, canSend, opens, random))
  {
    var g1 := g.(armed := g.armed - {timer});
    if g.armed[timer].kind.Reconnects? {
      ConnectIsPaced(g1.(reconnectTimer := None), opens, random);
    } else if g.awaitingAck {
      CloseIsPaced(g1, random);
    } else {
      LogIsPaced(g1.log, Sends(HeartbeatFrame(g.sequence, true), canSend));
    }
  }

  lemma HandleIsPaced(g: Closure, e: Event)
    requires Paced(g) && Held(g)
    requires match e
             case Message(on, _, _, _, _) => on in g.attached
             case PeerClose(on, _, _, _) => on in g.attached
             case TimerFires(timer, _, _, _, _) => timer in g.armed && g.armed[timer].due <= g.now
             case Stop(_) => true
    ensures Paced(Handle(g, e))
  {
    match e
    case Message(_, frame, _, canSend, random) => MessageIsPaced(g, frame, canSend, random);
    case PeerClose(on, code, _, random) => OnCloseIsPaced(g, on, code, random);
    case TimerFires(timer, _, canSend, opens, random) => FireIsPaced(g, timer, canSend, opens, random);
    case Stop(_) => LogIsPaced(g.log, StopCalled);
  }

  lemma StepIsPaced(g: Closure, e: Event)
    requires Paced(g) && Held(g)
    ensures Paced(Step(g, e))
  {
    var g0 := Later(g, e.elapsed);
    assert Paced(g0) && Held(g0);
    if Enabled(g, e) {
      HandleIsPaced(g0, e);
    }
  }

  lemma {:induction false} RunIsPaced(now: real, opens: bool, random: Fraction, events: seq<Event>)
    ensures Paced(Run(Start(now, opens, random), events))
  {
    if events == [] {
      ConnectIsPaced(Initial(now), opens, random);
    } else {
      var before := events[..|events| - 1];
      RunIsPaced(now, opens, random, before);
      RunHolds(now, opens, random, before);
      StepIsPaced(Run(Start(now, opens, random), before), events[|events| - 1]);
    }
  }

  lemma {:induction false} LongGaps(opens: seq<real>, i: nat, j: nat)
    requires Spread(opens)
    requires i <= j < |opens|
    ensures opens[i] <= opens[j]
    ensures (15000 * (j - i - 5)) as real <= opens[j] - opens[i]
    decreases j
  {
    if i < j {
      LongGaps(opens, i, j - 1);
      BackoffGrows(0, j - 1);
      if j <= i + 5 {
        assert 15000 * (j - i - 5) <= 0;
      }
    }
  }

  /** While no READY or RESUMED arrives, at most 6 + T / 15000 sockets are opened in any T ms. */
  lemma SocketsAreRationed(now: real, opens: bool, random: Fraction, events: seq<Event>, i: nat, j: nat)
    requires i <= j < |Opens(Run(Start(now, opens, random), events).log)|
    ensures var at := Opens(Run(Start(now, opens, random), events).log);
            (j - i + 1) as real <= 6.0 + (at[j] - at[i]) / 15000.0
  {
    RunIsPaced(now, opens, random, events);
    LongGaps(Opens(Run(Start(now, opens, random), events).log), i, j);
  }
}
