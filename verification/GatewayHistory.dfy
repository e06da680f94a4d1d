/** What the gateway's history shows: which session it resumes, and when it beats. */
module GatewayHistory {
  import opened Basics
  import opened Gateway

  /** The session is gone: Discord said so, or closed with a code that says so. */
  predicate Invalidates(e: Entry) {
    (e.Received? && e.frame.Payload? && e.frame.body == InvalidSession(false))
    || (e.PeerClosed? && e.code in {4007, 4009})
  }

  predicate IsReady(e: Entry) {
    e.Received? && e.frame.Payload? && e.frame.body.ReadyDispatch?
  }

  predicate Numbered(e: Entry) {
    e.Received? && e.frame.Payload? && e.frame.s.Some?
  }

  predicate Acknowledges(e: Entry) {
    e.Received? && e.frame.Payload? && (e.frame.body.Hello? || e.frame.body.HeartbeatAck?)
  }

  predicate IsBeat(e: Entry) {
    e.Sends? && e.sent.HeartbeatFrame? && e.sent.scheduled
  }

  /** The session of the latest READY not invalidated since. */
  function Session(log: seq<Entry>): Option<string> {
    if log == [] then None else
    var (before, e) := (log[..|log| - 1], log[|log| - 1]);
    if Invalidates(e) then None else if IsReady(e) then e.frame.body.sessionId else Session(before)
  }

  /** The last sequence number seen since the last invalidation. */
  function LastSeen(log: seq<Entry>): Option<int> {
    if log == [] then None else
    var (before, e) := (log[..|log| - 1], log[|log| - 1]);
    if Invalidates(e) then None else if Numbered(e) then e.frame.s else LastSeen(before)
  }

  /** A scheduled heartbeat on this connection has had neither an ACK nor a new HELLO. */
  predicate Unanswered(log: seq<Entry>) {
    log != [] &&
    var (before, e) := (log[..|log| - 1], log[|log| - 1]);
    IsBeat(e) || (!Acknowledges(e) && !e.Opened? && Unanswered(before))
  }

  /** What may be sent after `log`. */
  predicate MayFollow(log: seq<Entry>, e: Entry) {
    && (IsBeat(e) ==> !Unanswered(log))
    && (e.Sends? && e.sent.ResumeFrame? ==>
          && e.sent.sessionId != ""
          && Session(log) == Some(e.sent.sessionId)
          && LastSeen(log) == Some(e.sent.lastSeen))
    && (e.Sends? && e.sent.IdentifyFrame? ==> !Truthy(Session(log)) || LastSeen(log).None?)
  }

  ghost predicate WellTold(log: seq<Entry>) {
    forall k :: 0 <= k < |log| ==> MayFollow(log[..k], log[k])
  }

  /** The variables agree with the history. */
  ghost predicate ToldBy(log: seq<Entry>, sessionId: Option<string>, sequence: Option<int>, acked: bool) {
    && sessionId == Session(log)
    && sequence == LastSeen(log)
    && (acked ==> !Unanswered(log))
    && WellTold(log)
  }

  ghost predicate Told(g: Closure) {
    ToldBy(g.log, g.sessionId, g.sequence, g.socket.Some? && !g.awaitingAck)
  }

  lemma Grown(log: seq<Entry>, e: Entry)
    ensures (log + [e])[..|log|] == log && (log + [e])[|log|] == e
    ensures WellTold(log) && MayFollow(log, e) ==> WellTold(log + [e])
  {
    if WellTold(log) && MayFollow(log, e) {
      forall k | 0 <= k < |log + [e]| ensures MayFollow((log + [e])[..k], (log + [e])[k]) {
        assert (log + [e])[..k] == if k < |log| then log[..k] else log;
      }
    }
  }

  /** An entry that says nothing about sessions or sequence numbers. */
  lemma Plain(log: seq<Entry>, e: Entry, sessionId: Option<string>, sequence: Option<int>, acked: bool)
    requires ToldBy(log, sessionId, sequence, acked) && MayFollow(log, e) && !e.Received? && !Invalidates(e)
    ensures ToldBy(log + [e], sessionId, sequence, acked && !IsBeat(e))
  {
    Grown(log, e);
  }

  /** Nothing in these functions reads or writes the history. */
  lemma ClosingIsSilent(g: Closure, random: Fraction)
    ensures CloseSocket(g, random).log == g.log
    ensures CloseSocket(g, random).sessionId == g.sessionId
    ensures CloseSocket(g, random).sequence == g.sequence
    ensures CloseSocket(g, random).socket.None?
  {
  }

  lemma ScheduleIsSilent(g: Closure, random: Fraction)
    ensures ScheduleReconnect(g, random).log == g.log
    ensures ScheduleReconnect(g, random).sessionId == g.sessionId
    ensures ScheduleReconnect(g, random).sequence == g.sequence
    ensures ScheduleReconnect(g, random).socket == g.socket
    ensures ScheduleReconnect(g, random).awaitingAck == g.awaitingAck
  {
  }

  lemma SendTells(g: Closure, sent: Sent, canSend: bool)
    requires Told(g) && MayFollow(g.log, Sends(sent, canSend))
    requires IsBeat(Sends(sent, canSend)) ==> g.awaitingAck
    ensures Told(SendPayload(g, sent, canSend))
  {
    Plain(g.log, Sends(sent, canSend), g.sessionId, g.sequence, g.socket.Some? && !g.awaitingAck);
  }

  lemma BeatTells(g: Closure, canSend: bool, random: Fraction)
    requires Told(g)
    ensures Told(Beat(g, canSend, random))
  {
    if g.awaitingAck {
      ClosingIsSilent(g, random);
    } else if g.socket.Some? {
      SendTells(g.(awaitingAck := true), HeartbeatFrame(g.sequence, true), canSend);
    }
  }

  lemma HelloTells(g: Closure, interval: real, canSend: bool, random: Fraction)
    requires g.sessionId == Session(g.log) && g.sequence == LastSeen(g.log) && WellTold(g.log)
    requires !Unanswered(g.log)
    ensures Told(Handshake(StartHeartbeat(g, interval, random), canSend))
  {
    var g1 := StartHeartbeat(g, interval, random).(state := Identifying);
    assert Told(g1);
    var sent := if Truthy(g1.sessionId) && g1.sequence.Some? then ResumeFrame(g1.sessionId.value, g1.sequence.value)
                else IdentifyFrame;
    SendTells(g1, sent, canSend);
  }

  lemma NotedTells(g: Closure, frame: Frame)
    requires Told(g)
    ensures var (log, e) := (Noted(g, frame).log, Received(frame));
            && WellTold(log)
            && Session(log) == (if Invalidates(e) then None else if IsReady(e) then frame.body.sessionId else g.sessionId)
            && LastSeen(log) == (if Invalidates(e) then None else Noted(g, frame).sequence)
            && Unanswered(log) == (!Acknowledges(e) && Unanswered(g.log))
  {
    Grown(g.log, Received(frame));
  }

  lemma MessageTells(g: Closure, frame: Frame, canSend: bool, random: Fraction)
    requires Told(g)
    ensures Told(HandleMessage(g, frame, canSend, random))
  {
    NotedTells(g, frame);
    var g1 := Noted(g, frame);
    if frame.Payload? {
      match frame.body
      case Hello(interval) => HelloTells(g1, Interval(interval), canSend, random);
      case Heartbeat => SendTells(g1.(awaitingAck := true), HeartbeatFrame(g1.sequence, false), canSend);
      case Reconnect => ClosingIsSilent(g1, random);
      case InvalidSession(resumable) => ClosingIsSilent(if resumable then g1 else ForgetSession(g1), random);
      case _ =>
    }
  }

  lemma ClosedTells(g: Closure, code: int)
    requires Told(g)
    ensures var (log, e) := (g.log + [PeerClosed(code)], PeerClosed(code));
            && WellTold(log)
            && Session(log) == (if Invalidates(e) then None else g.sessionId)
            && LastSeen(log) == (if Invalidates(e) then None else g.sequence)
  {
    Grown(g.log, PeerClosed(code));
  }

  lemma OnCloseTells(g: Closure, on: SocketId, code: int, random: Fraction)
    requires Told(g)
    ensures Told(OnClose(g, on, code, random))
  {
    ClosedTells(g, code);
    var g0 := g.(attached := g.attached - {on}, log := g.log + [PeerClosed(code)]);
    var g1 := ClearHeartbeat(g0).(socket := None, connectedAt := None);
    var g2 := if code in SESSION_GONE_CODES then ForgetSession(g1) else g1;
    assert g2.log == g0.log && g2.socket.None?;
    assert g2.sessionId == Session(g2.log) && g2.sequence == LastSeen(g2.log);
    if code !in FATAL_CLOSE_CODES {
      ScheduleIsSilent(g2, random);
    }
  }

  lemma StopTells(g: Closure)
    requires Told(g)
    ensures Told(StopGateway(g))
  {
    Plain(g.log, StopCalled, g.sessionId, g.sequence, false);
    var g0 := g.(stopped := true, state := Stopped, log := g.log + [StopCalled]);
    var g1 := CancelReconnect(g0);
    var g2 := ClearHeartbeat(g1);
    assert g1.log == g0.log && g1.sessionId == g.sessionId && g1.sequence == g.sequence;
    assert g2.log == g0.log && g2.sessionId == g.sessionId && g2.sequence == g.sequence;
    assert Told(Detach(g2));
  }

  lemma ConnectTells(g: Closure, opens: bool, random: Fraction)
    requires Told(g)
    ensures Told(Connect(g, opens, random))
  {
    ScheduleIsSilent(g.(state := Connecting), random);
    Plain(g.log, Opened(g.now, Truthy(g.sessionId) && Truthy(g.resumeUrl)), g.sessionId, g.sequence, false);
  }

  lemma StepTells(g: Closure, e: Event)
    requires Told(g)
    ensures Told(Step(g, e))
  {
    var g0 := Later(g, e.elapsed);
    assert Told(g0);
    if Enabled(g, e) {
      HandleTells(g0, e);
    }
  }

  lemma FireTells(g: Closure, timer: TimerId, canSend: bool, opens: bool, random: Fraction)
    requires Told(g) && timer in g.armed
    ensures Told(Fire(g, timer, canSend, opens, random))
  {
    var g1 := g.(armed := g.armed - {timer});
    if g.armed[timer].kind.Beats? {
      BeatTells(g1, canSend, random);
    } else {
      ConnectTells(g1.(reconnectTimer := None), opens, random);
    }
  }

  lemma HandleTells(g: Closure, e: Event)
    requires Told(g) && (e.TimerFires? ==> e.timer in g.armed)
    ensures Told(Handle(g, e))
  {
    match e
    case Message(_, frame, _, canSend, random) => MessageTells(g, frame, canSend, random);
    case PeerClose(on, code, _, random) => OnCloseTells(g, on, code, random);
    case TimerFires(timer, _, canSend, opens, random) => FireTells(g, timer, canSend, opens, random);
    case Stop(_) => StopTells(g);
  }

  lemma {:induction false} RunTells(now: real, opens: bool, random: Fraction, events: seq<Event>)
    ensures Told(Run(Start(now, opens, random), events))
  {
    if events == [] {
      ConnectTells(Initial(now), opens, random);
    } else {
      RunTells(now, opens, random, events[..|events| - 1]);
      StepTells(Run(Start(now, opens, random), events[..|events| - 1]), events[|events| - 1]);
    }
  }

  // ---- What the history shows ----

  /** Nothing in `log[from..]` names or loses a session. */
  ghost predicate SameSession(log: seq<Entry>, from: nat) {
    forall k :: from <= k < |log| ==> !Invalidates(log[k]) && !IsReady(log[k])
  }

  lemma {:induction false} SessionHasAReady(log: seq<Entry>) returns (r: nat)
    requires Session(log).Some?
    ensures r < |log| && IsReady(log[r]) && log[r].frame.body.sessionId == Session(log)
    ensures SameSession(log, r + 1)
  {
    if IsReady(log[|log| - 1]) {
      r := |log| - 1;
    } else {
      r := SessionHasAReady(log[..|log| - 1]);
    }
  }

  lemma {:induction false} LastSeenIsLast(log: seq<Entry>) returns (q: nat)
    requires LastSeen(log).Some?
    ensures q < |log| && Numbered(log[q]) && log[q].frame.s == LastSeen(log)
    ensures forall k :: q < k < |log| ==> !Numbered(log[k]) && !Invalidates(log[k])
  {
    if Numbered(log[|log| - 1]) {
      q := |log| - 1;
    } else {
      q := LastSeenIsLast(log[..|log| - 1]);
    }
  }

  /** Every RESUME carries the session id of the latest READY not invalidated since, and the last
      sequence number not invalidated since; that number was received on the session itself exactly when any
      was, from the READY on (Discord numbers every dispatch). */
  lemma ResumeIsOfTheLatestReady(now: real, opens: bool, random: Fraction, events: seq<Event>, k: nat)
    returns (r: nat, q: nat)
    requires var log := Run(Start(now, opens, random), events).log;
             k < |log| && log[k].Sends? && log[k].sent.ResumeFrame?
    ensures var log := Run(Start(now, opens, random), events).log;
            && r < k && IsReady(log[r])
            && log[r].frame.body.sessionId == Some(log[k].sent.sessionId)
            && SameSession(log[..k], r + 1)
            && q < k && Numbered(log[q]) && log[q].frame.s == Some(log[k].sent.lastSeen)
            && (forall j :: q < j < k ==> !Numbered(log[j]) && !Invalidates(log[j]))
            && (r <= q <==> exists j :: r <= j < k && Numbered(log[j]))
  {
    RunTells(now, opens, random, events);
    var log := Run(Start(now, opens, random), events).log;
    assert MayFollow(log[..k], log[k]);
    r := SessionHasAReady(log[..k]);
    q := LastSeenIsLast(log[..k]);
  }

  lemma {:induction false} NoReadyNoSession(log: seq<Entry>, i: nat)
    requires i < |log| && Invalidates(log[i]) && forall j :: i < j < |log| ==> !IsReady(log[j])
    ensures Session(log).None?
  {
    if i < |log| - 1 {
      NoReadyNoSession(log[..|log| - 1], i);
    }
  }

  /** After a session is lost, every handshake before the next READY is an IDENTIFY. */
  lemma LostSessionIsNotResumed(now: real, opens: bool, random: Fraction, events: seq<Event>, i: nat, k: nat)
    requires var log := Run(Start(now, opens, random), events).log;
             i < k < |log| && Invalidates(log[i]) && log[k].Sends? && forall j :: i < j < k ==> !IsReady(log[j])
    ensures !Run(Start(now, opens, random), events).log[k].sent.ResumeFrame?
  {
    RunTells(now, opens, random, events);
    var log := Run(Start(now, opens, random), events).log;
    assert MayFollow(log[..k], log[k]);
    NoReadyNoSession(log[..k], i);
  }

  lemma {:induction false} BeatStaysUnanswered(log: seq<Entry>, i: nat)
    requires i < |log| && IsBeat(log[i])
    requires forall j :: i < j < |log| ==> !Acknowledges(log[j]) && !log[j].Opened?
    ensures Unanswered(log)
  {
    if i < |log| - 1 {
      BeatStaysUnanswered(log[..|log| - 1], i);
    }
  }

  /** Two scheduled heartbeats on one connection have an ACK or a new HELLO between them. */
  lemma BeatsAreAnswered(now: real, opens: bool, random: Fraction, events: seq<Event>, i: nat, k: nat)
    requires var log := Run(Start(now, opens, random), events).log;
             i < k < |log| && IsBeat(log[i]) && IsBeat(log[k])
    ensures var log := Run(Start(now, opens, random), events).log;
            exists j :: i < j < k && (Acknowledges(log[j]) || log[j].Opened?)
  {
    RunTells(now, opens, random, events);
    var log := Run(Start(now, opens, random), events).log;
    assert MayFollow(log[..k], log[k]);
    if forall j :: i < j < k ==> !Acknowledges(log[j]) && !log[j].Opened? {
      BeatStaysUnanswered(log[..k], i);
      assert false;
    }
  }
}
