/** When the gateway acts next: what each event does to its one timer, its count of failures and its uptime. */
module GatewayTimers {
  import opened Basics
  import opened Gateway
  import opened GatewayProofs
  import opened GatewayHistory
  import opened GatewayTrace

  /** The one timer that is armed, if any. */
  function Alarm(g: Closure): Option<Timer> {
    if g.heartbeatTimer.Some? && g.heartbeatTimer.value in g.armed then Some(g.armed[g.heartbeatTimer.value])
    else if g.reconnectTimer.Some? && g.reconnectTimer.value in g.armed then Some(g.armed[g.reconnectTimer.value])
    else None
  }

  /** Half a second to a second, doubled with every failure since the connection was last up, and from the
      fifth on 15 to 30 seconds. */
  function Wait(failures: nat, random: Fraction): real {
    var longest := if failures < 5 then 1000 * Pow2(failures) else 30000;
    ((longest as real) * (0.5 + random * 0.5)).Floor as real
  }

  /** A random fraction of the interval. */
  function FirstWait(interval: real, random: Fraction): real {
    (interval * random).Floor as real
  }

  lemma {:induction false} DelayIsWait(failures: nat, random: Fraction)
    ensures Delay(failures, random) as real == Wait(failures, random)
  {
    assert Pow2(5) == 32 && Pow2(4) == 16 && Pow2(3) == 8;
    if failures >= 5 {
      Pow2Grows(5, failures);
    }
  }

  lemma {:induction false} Pow2Grows(k: nat, n: nat)
    requires k <= n
    ensures Pow2(k) <= Pow2(n)
  {
    if k < n {
      Pow2Grows(k, n - 1);
    }
  }

  /** The events after which the connection is tried again: Discord said to, it closed for a reason that may
      pass, a heartbeat went unanswered, or the last try failed. `beats` says which timer fired. */
  predicate Fails(log: seq<Entry>, beats: bool, e: Event) {
    match e
    case Message(_, frame, _, _, _) => frame.Payload? && (frame.body.Reconnect? || frame.body.InvalidSession?)
    case PeerClose(_, code, _, _) => !Ends(PeerClosed(code))
    case TimerFires(_, _, _, opens, _) => if beats then Awaiting(log) else !opens
    case Stop(_) => false
  }

  predicate Succeeds(e: Event) {
    e.Message? && IsOnline(Received(e.frame))
  }

  /** `g` is the connection when the event is handled. */
  function AlarmAfter(g: Closure, beats: bool, e: Event): Option<Timer> {
    if Fails(g.log, beats, e) then Some(Timer(Reconnects, g.now + Wait(g.attempts, e.random)))
    else
      match e
      case Message(_, frame, _, _, random) =>
        if IsHello(Received(frame))
        then Some(Timer(Beats, g.now + FirstWait(Pace(g.log + [Received(frame)]), random)))
        else Alarm(g)
      case TimerFires(_, _, _, _, _) => if beats then Some(Timer(Beats, g.now + Pace(g.log))) else None
      case _ => None
  }

  function AttemptsAfter(g: Closure, beats: bool, e: Event): nat {
    if Fails(g.log, beats, e) then g.attempts + 1 else if Succeeds(e) then 0 else g.attempts
  }

  /** Up since the last READY or RESUMED of a connection that is still there. */
  function UpAfter(g: Closure, beats: bool, e: Event): Option<real> {
    if Fails(g.log, beats, e) || e.PeerClose? || e.Stop? then None
    else if Succeeds(e) then Some(g.now)
    else g.connectedAt
  }

  ghost predicate Proceeds(g: Closure, beats: bool, e: Event, g': Closure) {
    && Alarm(g') == AlarmAfter(g, beats, e)
    && g'.attempts == AttemptsAfter(g, beats, e)
    && g'.connectedAt == UpAfter(g, beats, e)
  }

  lemma ScheduleArms(g: Closure, random: Fraction)
    requires Down(g) && !g.stopped
    ensures
      var g' := ScheduleReconnect(g, random);
      && Alarm(g') == Some(Timer(Reconnects, g.now + Wait(g.attempts, random)))
      && g'.attempts == g.attempts + 1 && g'.connectedAt.None?
  {
    DelayIsWait(g.attempts, random);
  }

  lemma CloseArms(g: Closure, random: Fraction)
    requires Live(g)
    ensures
      var g' := CloseSocket(g, random);
      && Alarm(g') == Some(Timer(Reconnects, g.now + Wait(g.attempts, random)))
      && g'.attempts == g.attempts + 1 && g'.connectedAt.None?
  {
    var g1 := ClearHeartbeat(g);
    ScheduleArms(g1.(socket := None, attached := g1.attached - {g.socket.value}), random);
  }

  lemma HelloArms(g: Closure, pace: real, canSend: bool, random: Fraction)
    requires Live(g)
    ensures
      var g' := Handshake(StartHeartbeat(g, pace, random), canSend);
      && Alarm(g') == Some(Timer(Beats, g.now + FirstBeat(pace, random)))
      && g'.attempts == g.attempts && g'.connectedAt == g.connectedAt
  {
  }

  lemma HelloProceeds(g: Closure, e: Event)
    requires Held(g) && Agrees(g) && g.socket.Some? && e.Message? && IsHello(Received(e.frame))
    ensures Proceeds(g, false, e, HandleMessage(g, e.frame, e.canSend, e.random))
  {
    NotedAgrees(g, e.frame);
    HelloArms(Noted(g, e.frame), Interval(e.frame.body.interval), e.canSend, e.random);
  }

  lemma ClosingProceeds(g: Closure, e: Event)
    requires Held(g) && g.socket.Some? && e.Message? && Fails(g.log, false, e)
    ensures Proceeds(g, false, e, HandleMessage(g, e.frame, e.canSend, e.random))
  {
    var g1 := Noted(g, e.frame);
    assert Live(g1);
    CloseArms(if e.frame.body == InvalidSession(false) then ForgetSession(g1) else g1, e.random);
  }

  lemma OtherProceeds(g: Closure, e: Event)
    requires Held(g) && g.socket.Some? && e.Message? && !Fails(g.log, false, e) && !IsHello(Received(e.frame))
    ensures Proceeds(g, false, e, HandleMessage(g, e.frame, e.canSend, e.random))
  {
  }

  lemma OnCloseProceeds(g: Closure, e: Event)
    requires Held(g) && g.socket.Some? && e.PeerClose? && e.on in g.attached
    ensures Proceeds(g, false, e, OnClose(g, e.on, e.code, e.random))
  {
    var g1 := Dropped(g, e.on, e.code);
    OnCloseIs(g, e.on, e.code, e.random);
    assert Down(g1) && g1.attempts == g.attempts && g1.now == g.now;
    if !Ends(PeerClosed(e.code)) {
      ScheduleArms(if Invalidates(PeerClosed(e.code)) then ForgetSession(g1) else g1, e.random);
    }
  }

  lemma BeatProceeds(g: Closure, e: Event)
    requires Held(g) && Agrees(g) && e.TimerFires? && e.timer in g.armed && g.armed[e.timer].kind.Beats?
    ensures Proceeds(g, true, e, Fire(g, e.timer, e.canSend, e.opens, e.random))
  {
    if g.awaitingAck {
      CloseArms(g.(armed := g.armed - {e.timer}), e.random);
    }
  }

  lemma ConnectProceeds(g: Closure, e: Event)
    requires Held(g) && Agrees(g) && e.TimerFires? && e.timer in g.armed && g.armed[e.timer].kind.Reconnects?
    ensures Proceeds(g, false, e, Fire(g, e.timer, e.canSend, e.opens, e.random))
  {
    if !e.opens {
      ScheduleArms(g.(armed := g.armed - {e.timer}, reconnectTimer := None, state := Connecting), e.random);
    }
  }

  predicate Handled(g: Closure, e: Event) {
    match e
    case Message(on, _, _, _, _) => on in g.attached
    case PeerClose(on, _, _, _) => on in g.attached
    case TimerFires(timer, _, _, _, _) => timer in g.armed
    case Stop(_) => true
  }

  predicate IsBeating(g: Closure, e: Event) {
    e.TimerFires? && e.timer in g.armed && g.armed[e.timer].kind.Beats?
  }

  lemma HandleProceeds(g: Closure, e: Event)
    requires Held(g) && Agrees(g) && Handled(g, e)
    ensures Proceeds(g, IsBeating(g, e), e, Handle(g, e))
  {
    match e
    case Message(_, frame, _, _, _) =>
      if IsHello(Received(frame)) {
        HelloProceeds(g, e);
      } else if Fails(g.log, false, e) {
        ClosingProceeds(g, e);
      } else {
        OtherProceeds(g, e);
      }
    case PeerClose(_, _, _, _) => OnCloseProceeds(g, e);
    case TimerFires(_, _, _, _, _) =>
      if IsBeating(g, e) {
        BeatProceeds(g, e);
      } else {
        ConnectProceeds(g, e);
      }
    case Stop(_) =>
  }

  lemma StepProceeds(g: Closure, e: Event)
    requires Held(g) && Agrees(g) && Enabled(g, e)
    ensures Proceeds(g.(now := g.now + e.elapsed), IsBeating(g, e), e, Step(g, e))
  {
    var g0 := Later(g, e.elapsed);
    assert Held(g0) && Agrees(g0) && Handled(g0, e) && IsBeating(g0, e) == IsBeating(g, e);
    HandleProceeds(g0, e);
  }

  /** In every run each event leaves exactly this timer armed, this many failures counted, and this uptime. */
  lemma EventsArm(now: real, opens: bool, random: Fraction, events: seq<Event>, e: Event)
    requires Enabled(Run(Start(now, opens, random), events), e)
    ensures
      var g := Run(Start(now, opens, random), events);
      Proceeds(g.(now := g.now + e.elapsed), IsBeating(g, e), e, Run(Start(now, opens, random), events + [e]))
  {
    var g := Reached(now, opens, random, events);
    StepProceeds(g, e);
    OneMore(Start(now, opens, random), events, e);
  }

  lemma Reached(now: real, opens: bool, random: Fraction, events: seq<Event>) returns (g: Closure)
    ensures g == Run(Start(now, opens, random), events) && Held(g) && Agrees(g)
  {
    g := Run(Start(now, opens, random), events);
    RunAgrees(now, opens, random, events);
    RunHolds(now, opens, random, events);
  }

  /** In every run no timer is armed but that one. */
  lemma OneTimer(now: real, opens: bool, random: Fraction, events: seq<Event>, id: TimerId)
    requires id in Run(Start(now, opens, random), events).armed
    ensures
      var g := Run(Start(now, opens, random), events);
      Alarm(g) == Some(g.armed[id]) && g.armed.Keys == {id}
  {
    RunHolds(now, opens, random, events);
  }

  lemma OneMore(g: Closure, events: seq<Event>, e: Event)
    ensures Run(g, events + [e]) == Step(Run(g, events), e)
  {
    assert (events + [e])[..|events|] == events;
  }
}
