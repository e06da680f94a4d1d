/** Posting what the admin console queued (apps/bot/src/outbox.ts): call Discord first, record second. A
    crash after a post is a recording that never took effect. */
module Outbox {
  import opened Basics

  type RowId = nat

  type MessageId = nat

  /** A post that Discord answered, refused without creating anything, or whose answer was lost. */
  datatype PostAnswer = Created(id: MessageId) | Refused | Unknown(landed: bool)

  datatype EditAnswer = Ok | Gone | EditFailed

  /** Writing the outcome back. A write that throws, or that a crash prevents, may have taken effect. */
  datatype Recording = Recorded | Lost(tookEffect: bool)

  /** One call to Discord, or the outcome of a send that was to be recorded. */
  datatype Call =
    | Post(buttons: bool, answer: PostAnswer)
    | Patch(message: MessageId, buttons: bool, outcome: EditAnswer)
    | RecordSent(message: MessageId, posted: bool, note: bool, recording: Recording)
    | RecordFailed(gone: bool, recording: Recording)

  /** Waiting to be claimed, claimed by a run that works on it, or closed. */
  datatype Phase = Waiting | Held | Closed

  /** A queued message; `calls` is its history. */
  datatype Row = Row(messageId: Option<MessageId>, buttons: bool, phase: Phase, calls: seq<Call>)

  type Store = map<RowId, Row>

  /** The environment's answers to everything one row may ask. */
  datatype Answers = Answers(
    post: PostAnswer,
    retry: PostAnswer,
    edit: EditAnswer,
    reedit: EditAnswer,
    recording: Recording)

  datatype Offer = Offer(row: RowId, answers: Answers)

  datatype Claim = ClaimFailed | Claimed(offers: seq<Offer>)

  datatype Result = Result(sent: nat, failed: nat)

  // ----- one row -----

  /** What came of trying to say it: the calls made, and the message that now carries the words. */
  datatype Delivery = Delivery(calls: seq<Call>, message: Option<MessageId>, note: bool, gone: bool)

  function DeliverEdit(message: MessageId, buttons: bool, a: Answers): Delivery {
    var first := Patch(message, buttons, a.edit);
    if a.edit == EditFailed && buttons then
      Delivery([first, Patch(message, false, a.reedit)], if a.reedit == Ok then Some(message) else None,
               a.reedit == Ok, a.reedit == Gone)
    else Delivery([first], if a.edit == Ok then Some(message) else None, false, a.edit == Gone)
  }

  function Answered(p: PostAnswer): Option<MessageId> {
    if p.Created? then Some(p.id) else None
  }

  function DeliverPost(buttons: bool, a: Answers): Delivery {
    if buttons && a.post.Refused? then
      Delivery([Post(true, a.post), Post(false, a.retry)], Answered(a.retry), a.retry.Created?, false)
    else Delivery([Post(buttons, a.post)], Answered(a.post), false, false)
  }

  function Deliver(r: Row, a: Answers): Delivery {
    if r.messageId.Some? then DeliverEdit(r.messageId.value, r.buttons, a) else DeliverPost(r.buttons, a)
  }

  predicate TakesEffect(r: Recording) {
    r.Recorded? || r.tookEffect
  }

  /** The row after its delivery was, or was not, recorded. */
  function Settled(r: Row, d: Delivery, recording: Recording): Row {
    var call := if d.message.Some? then RecordSent(d.message.value, r.messageId.None?, d.note, recording)
                else RecordFailed(d.gone, recording);
    var calls := r.calls + d.calls + [call];
    if !TakesEffect(recording) then r.(calls := calls)
    else if d.message.Some? then r.(calls := calls, messageId := d.message, phase := Closed)
    else r.(calls := calls, phase := Waiting)
  }

  function Handled(r: Row, a: Answers): Row {
    Settled(r, Deliver(r, a), a.recording)
  }

  // ----- a run -----

  predicate Claimable(s: Store, row: RowId) {
    row in s && s[row].phase == Waiting
  }

  function Take(s: Store, row: RowId): Store {
    if Claimable(s, row) then s[row := s[row].(phase := Held)] else s
  }

  /** Claiming takes the rows in the statement that returns them, and gives no row twice. */
  function Hold(s: Store, offers: seq<Offer>): Store {
    if offers == [] then s else Take(Hold(s, offers[..|offers| - 1]), offers[|offers| - 1].row)
  }

  /** The rows a claim returns: those offered that were waiting. */
  function Given(s: Store, offers: seq<Offer>): seq<Offer> {
    if offers == [] then []
    else
      var before, last := offers[..|offers| - 1], offers[|offers| - 1];
      Given(s, before) + if Claimable(Hold(s, before), last.row) then [last] else []
  }

  function Relay(s: Store, o: Offer): Store {
    if o.row in s then s[o.row := Handled(s[o.row], o.answers)] else s
  }

  function RelayAll(s: Store, given: seq<Offer>): Store {
    if given == [] then s else Relay(RelayAll(s, given[..|given| - 1]), given[|given| - 1])
  }

  function Counted(s: Store, o: Offer, r: Result): Result {
    if o.row in s && Deliver(s[o.row], o.answers).message.Some?
    then Result(r.sent + 1, r.failed)
    else Result(r.sent, r.failed + 1)
  }

  function CountAll(s: Store, given: seq<Offer>, r: Result): Result {
    if given == [] then r
    else
      var before := given[..|given| - 1];
      Counted(RelayAll(s, before), given[|given| - 1], CountAll(s, before, r))
  }

  function GuildStore(s: Store, c: Claim): Store {
    if c.ClaimFailed? then s else RelayAll(Hold(s, c.offers), Given(s, c.offers))
  }

  function GuildResult(s: Store, c: Claim, r: Result): Result {
    if c.ClaimFailed? then Result(r.sent, r.failed + 1)
    else CountAll(Hold(s, c.offers), Given(s, c.offers), r)
  }

  /** One run over the registered guilds. */
  function TickStore(s: Store, claims: seq<Claim>): Store {
    if claims == [] then s else GuildStore(TickStore(s, claims[..|claims| - 1]), claims[|claims| - 1])
  }

  function TickResult(s: Store, claims: seq<Claim>): Result {
    if claims == [] then Result(0, 0)
    else
      var before := claims[..|claims| - 1];
      GuildResult(TickStore(s, before), claims[|claims| - 1], TickResult(s, before))
  }

  class Runner {
    var rows: Store

    constructor (rows: Store)
      ensures this.rows == rows
    {
      this.rows := rows;
    }

    method ClaimOutboxMessages(offers: seq<Offer>) returns (given: seq<Offer>)
      modifies this
      ensures rows == Hold(old(rows), offers) && given == Given(old(rows), offers)
    {
      given := [];
      for i := 0 to |offers|
        invariant rows == Hold(old(rows), offers[..i]) && given == Given(old(rows), offers[..i])
      {
        assert offers[..i + 1][..i] == offers[..i];
        if Claimable(rows, offers[i].row) {
          given := given + [offers[i]];
        }
        rows := Take(rows, offers[i].row);
      }
      assert offers[..|offers|] == offers;
    }

    method PatchRow(message: MessageId, buttons: bool, a: Answers) returns (d: Delivery)
      ensures d == DeliverEdit(message, buttons, a)
    {
      var outcome, note := a.edit, false;
      var calls := [Patch(message, buttons, outcome)];
      if outcome == EditFailed && buttons {
        outcome := a.reedit;
        calls := calls + [Patch(message, false, outcome)];
        if outcome == Ok {
          note := true;
        }
      }
      d := Delivery(calls, if outcome == Ok then Some(message) else None, note, outcome == Gone);
    }

    method PostRow(buttons: bool, a: Answers) returns (d: Delivery)
      ensures d == DeliverPost(buttons, a)
    {
      var calls, message, note := [Post(buttons, a.post)], None, false;
      if a.post.Created? {
        message := Some(a.post.id);
      } else if buttons && a.post.Refused? {
        calls := calls + [Post(false, a.retry)];
        if a.retry.Created? {
          message, note := Some(a.retry.id), true;
        }
      }
      d := Delivery(calls, message, note, false);
    }

    /** The body of the loop over one guild's claimed messages. */
    method RelayOne(o: Offer, r: Result) returns (result: Result)
      requires o.row in rows
      modifies this
      ensures rows == Relay(old(rows), o) && result == Counted(old(rows), o, r)
    {
      var row := rows[o.row];
      var d: Delivery;
      if row.messageId.Some? {
        d := PatchRow(row.messageId.value, row.buttons, o.answers);
      } else {
        d := PostRow(row.buttons, o.answers);
      }
      if d.message.None? {
        result := Result(r.sent, r.failed + 1);
      } else {
        result := Result(r.sent + 1, r.failed);
      }
      rows := rows[o.row := Settled(row, d, o.answers.recording)];
    }

    method RunOutbox(claims: seq<Claim>) returns (result: Result)
      modifies this
      ensures rows == TickStore(old(rows), claims) && result == TickResult(old(rows), claims)
    {
      result := Result(0, 0);
      for i := 0 to |claims|
        invariant rows == TickStore(old(rows), claims[..i]) && result == TickResult(old(rows), claims[..i])
      {
        assert claims[..i + 1][..i] == claims[..i];
        if claims[i].ClaimFailed? {
          result := Result(result.sent, result.failed + 1);
          continue;
        }
        result := RunGuild(claims[i].offers, result);
      }
      assert claims[..|claims|] == claims;
    }

    method RunGuild(offers: seq<Offer>, r: Result) returns (result: Result)
      modifies this
      ensures rows == GuildStore(old(rows), Claimed(offers)) && result == GuildResult(old(rows), Claimed(offers), r)
    {
      ghost var before := rows;
      var given := ClaimOutboxMessages(offers);
      ghost var held := rows;
      GivenAreRows(before, offers);
      result := r;
      for i := 0 to |given|
        invariant rows == RelayAll(held, given[..i]) && result == CountAll(held, given[..i], r)
        invariant rows.Keys == held.Keys
      {
        assert given[..i + 1][..i] == given[..i];
        result := RelayOne(given[i], result);
      }
      assert given[..|given|] == given;
    }
  }

  lemma {:induction false} GivenAreRows(s: Store, offers: seq<Offer>)
    ensures Hold(s, offers).Keys == s.Keys
    ensures forall i :: 0 <= i < |Given(s, offers)| ==> Given(s, offers)[i].row in s
  {
    if offers != [] {
      GivenAreRows(s, offers[..|offers| - 1]);
    }
  }
}
