/** What the outbox makes of Discord's answers: when a row is closed and counted sent, and what is recorded. */
module OutboxAnswers {
  import opened Basics
  import opened Outbox
  import opened OutboxProofs

  /** Discord has the words: it took an edit, or created a post, with the buttons or on the one retry that is
      allowed without them. */
  predicate Said(r: Row, a: Answers) {
    if r.messageId.Some? then a.edit == Ok || (r.buttons && a.edit == EditFailed && a.reedit == Ok)
    else a.post.Created? || (r.buttons && a.post == Refused && a.retry.Created?)
  }

  /** A row is closed exactly when its words were taken and that was recorded; it then carries the message that
      took them. Without a record it stays claimed, and otherwise it is open again. */
  lemma ClosesExactlyWhenSaid(r: Row, a: Answers)
    requires r.phase == Held
    ensures
      var after := Handled(r, a);
      && (after.phase == Closed <==> Said(r, a) && TakesEffect(a.recording))
      && (after.phase == Waiting <==> !Said(r, a) && TakesEffect(a.recording))
      && after.buttons == r.buttons
      && after.messageId ==
           if r.messageId.None? && after.phase == Closed
           then Some(if a.post.Created? then a.post.id else a.retry.id) else r.messageId
  {
  }

  /** The calls made: first the words with the row's own buttons, to its own message if it has one; on the retry
      without them whatever Discord answers then; and at last the record. */
  lemma CallsAreTheAnswers(r: Row, a: Answers)
    ensures
      var calls := Handled(r, a).calls;
      var n := |r.calls|;
      && n + 2 <= |calls| <= n + 3 && calls[..n] == r.calls
      && calls[n] == (if r.messageId.Some? then Patch(r.messageId.value, r.buttons, a.edit) else Post(r.buttons, a.post))
      && (|calls| == n + 3 ==>
          calls[n + 1] == if r.messageId.Some? then Patch(r.messageId.value, false, a.reedit) else Post(false, a.retry))
      && var last := calls[|calls| - 1];
         (last.RecordSent? || last.RecordFailed?) && last.recording == a.recording
  {
    HandledCalls(r, a);
  }

  /** How many of the rows given were said, each as it was when its turn came. */
  function SaidOf(s: Store, given: seq<Offer>): nat {
    if given == [] then 0
    else
      var before, last := RelayAll(s, given[..|given| - 1]), given[|given| - 1];
      SaidOf(s, given[..|given| - 1]) + if last.row in before && Said(before[last.row], last.answers) then 1 else 0
  }

  function SaidIn(s: Store, claims: seq<Claim>): nat {
    if claims == [] then 0
    else
      var before, last := TickStore(s, claims[..|claims| - 1]), claims[|claims| - 1];
      SaidIn(s, claims[..|claims| - 1])
      + if last.Claimed? then SaidOf(Hold(before, last.offers), Given(before, last.offers)) else 0
  }

  lemma {:induction false} CountAllSaid(s: Store, given: seq<Offer>, r: Result)
    ensures CountAll(s, given, r).sent == r.sent + SaidOf(s, given)
  {
    if given != [] {
      CountAllSaid(s, given[..|given| - 1], r);
    }
  }

  /** A run counts as sent exactly the rows whose words Discord took. */
  lemma {:induction false} SentAreSaid(s: Store, claims: seq<Claim>)
    ensures TickResult(s, claims).sent == SaidIn(s, claims)
  {
    if claims != [] {
      var before, last := claims[..|claims| - 1], claims[|claims| - 1];
      SentAreSaid(s, before);
      if last.Claimed? {
        var t := TickStore(s, before);
        CountAllSaid(Hold(t, last.offers), Given(t, last.offers), TickResult(s, before));
      }
    }
  }

  // ----- every row's history -----

  predicate Sends(c: Call) {
    c.Post? || c.Patch?
  }

  /** Discord took the words. */
  predicate Taken(c: Call) {
    (c.Post? && c.answer.Created?) || (c.Patch? && c.outcome == Ok)
  }

  /** It took them into this message. */
  predicate Delivers(c: Call, message: MessageId) {
    Taken(c) && message == if c.Post? then c.answer.id else c.message
  }

  /** Discord would not have it with its buttons, and it may be tried without. */
  predicate Retriable(c: Call) {
    (c.Post? && c.buttons && c.answer == Refused) || (c.Patch? && c.buttons && c.outcome == EditFailed)
  }

  /** The same thing again, without its buttons. */
  predicate IsRetry(first: Call, second: Call) {
    || (first.Post? && second.Post? && !second.buttons)
    || (first.Patch? && second.Patch? && second.message == first.message && !second.buttons)
  }

  /** What stands in a row's history at `i`: a send is followed by its retry without buttons exactly when it may
      be retried, and otherwise by the record of its own outcome, which notes whether it was the retry. */
  ghost predicate Explained(calls: seq<Call>, i: nat)
    requires i < |calls|
  {
    match calls[i]
    case RecordSent(message, posted, note, _) =>
      && i > 0 && Delivers(calls[i - 1], message) && (posted <==> calls[i - 1].Post?)
      && (note <==> i > 1 && Sends(calls[i - 2]))
    case RecordFailed(gone, _) =>
      && i > 0 && Sends(calls[i - 1]) && !Taken(calls[i - 1])
      && (gone <==> calls[i - 1].Patch? && calls[i - 1].outcome == Gone)
    case _ =>
      i + 1 < |calls| && if Retriable(calls[i]) then IsRetry(calls[i], calls[i + 1]) else !Sends(calls[i + 1])
  }

  /** The last word about a closed row is the record that closed it. */
  ghost predicate ClosedByRecord(r: Row) {
    r.phase == Closed ==>
      && r.calls != []
      && var last := r.calls[|r.calls| - 1];
         last.RecordSent? && TakesEffect(last.recording) && r.messageId == Some(last.message)
  }

  ghost predicate Recounts(r: Row) {
    && (forall i: nat :: i < |r.calls| ==> Explained(r.calls, i))
    && (r.calls != [] ==> !Sends(r.calls[|r.calls| - 1]))
    && ClosedByRecord(r)
  }

  lemma DeliveryIsExplained(r: Row, a: Answers)
    ensures
      var calls := NewCalls(r, a);
      && !Sends(calls[|calls| - 1])
      && forall i: nat :: i < |calls| ==> Explained(calls, i)
  {
    HandledCalls(r, a);
  }

  lemma ExplainedLater(before: seq<Call>, more: seq<Call>, i: nat)
    requires i < |more| && Explained(more, i)
    requires before != [] ==> !Sends(before[|before| - 1])
    ensures Explained(before + more, |before| + i)
  {
    var calls := before + more;
    assert calls[|before| + i] == more[i];
    assert i > 0 ==> calls[|before| + i - 1] == more[i - 1];
    assert i > 1 ==> calls[|before| + i - 2] == more[i - 2];
    assert i + 1 < |more| ==> calls[|before| + i + 1] == more[i + 1];
  }

  lemma ExplainedStill(before: seq<Call>, more: seq<Call>, i: nat)
    requires i < |before| && Explained(before, i)
    ensures Explained(before + more, i)
  {
  }

  lemma HandledRecounts(r: Row, a: Answers)
    requires Recounts(r) && r.phase == Held
    ensures Recounts(Handled(r, a))
  {
    HandledCalls(r, a);
    DeliveryIsExplained(r, a);
    var more := NewCalls(r, a);
    var calls := r.calls + more;
    forall i: nat | i < |calls| ensures Explained(calls, i) {
      if i < |r.calls| {
        ExplainedStill(r.calls, more, i);
      } else {
        ExplainedLater(r.calls, more, i - |r.calls|);
      }
    }
    assert calls[|calls| - 1] == more[|more| - 1];
  }

  // ----- every run -----

  ghost predicate AllRecount(s: Store) {
    forall row: RowId :: row in s ==> Recounts(s[row])
  }

  /** The rows of a claim: each once, and held. */
  ghost predicate HeldOnce(s: Store, given: seq<Offer>) {
    && (forall i :: 0 <= i < |given| ==> given[i].row in s && s[given[i].row].phase == Held)
    && forall i, j :: 0 <= i < j < |given| ==> given[i].row != given[j].row
  }

  lemma RelayRecounts(s: Store, o: Offer)
    requires AllRecount(s) && o.row in s && s[o.row].phase == Held
    ensures AllRecount(Relay(s, o))
  {
    HandledRecounts(s[o.row], o.answers);
  }

  lemma {:induction false} HeldBefore(s: Store, given: seq<Offer>)
    requires HeldOnce(s, given) && given != []
    ensures
      var before, last := given[..|given| - 1], given[|given| - 1];
      HeldOnce(s, before) && !Lists(before, last.row) && last.row in s && s[last.row].phase == Held
  {
    var before := given[..|given| - 1];
    assert forall i :: 0 <= i < |before| ==> before[i] == given[i];
  }

  /** A row that is not among those given is as it was. */
  lemma {:induction false} RelayAllKeeps(s: Store, given: seq<Offer>, row: RowId)
    requires row in s && !Lists(given, row)
    ensures row in RelayAll(s, given) && RelayAll(s, given)[row] == s[row]
  {
    if given != [] {
      var before, last := given[..|given| - 1], given[|given| - 1];
      assert given == before + [last];
      ListsOneMore(before, last, row);
      RelayAllKeeps(s, before, row);
    }
  }

  lemma {:induction false} RelayAllRecounts(s: Store, given: seq<Offer>)
    requires AllRecount(s) && HeldOnce(s, given)
    ensures AllRecount(RelayAll(s, given))
  {
    if given != [] {
      var before, last := given[..|given| - 1], given[|given| - 1];
      HeldBefore(s, given);
      RelayAllRecounts(s, before);
      RelayAllKeeps(s, before, last.row);
      RelayRecounts(RelayAll(s, before), last);
    }
  }

  lemma {:induction false} HoldRecounts(s: Store, offers: seq<Offer>)
    requires AllRecount(s)
    ensures AllRecount(Hold(s, offers))
  {
    if offers != [] {
      HoldRecounts(s, offers[..|offers| - 1]);
    }
  }

  lemma GivenAreHeldOnce(s: Store, offers: seq<Offer>)
    ensures HeldOnce(Hold(s, offers), Given(s, offers))
  {
    var given := Given(s, offers);
    GivenAreRows(s, offers);
    forall i | 0 <= i < |given|
      ensures given[i].row in s && Hold(s, offers)[given[i].row].phase == Held
      ensures forall j :: 0 <= j < i ==> given[j].row != given[i].row
    {
      ClaimsAreExclusive(s, offers, i);
      HoldKeepsOrHolds(s, offers, given[i].row);
    }
  }

  lemma {:induction false} HoldKeepsOrHolds(s: Store, offers: seq<Offer>, row: RowId)
    requires row in s
    ensures row in Hold(s, offers) && (Hold(s, offers)[row] == s[row] || Hold(s, offers)[row].phase == Held)
  {
    if offers != [] {
      HoldKeepsOrHolds(s, offers[..|offers| - 1], row);
    }
  }

  lemma {:induction false} TickRecounts(s: Store, claims: seq<Claim>)
    requires AllRecount(s)
    ensures AllRecount(TickStore(s, claims))
  {
    if claims != [] {
      var before, last := TickStore(s, claims[..|claims| - 1]), claims[|claims| - 1];
      TickRecounts(s, claims[..|claims| - 1]);
      if last.Claimed? {
        HoldRecounts(before, last.offers);
        GivenAreHeldOnce(before, last.offers);
        RelayAllRecounts(Hold(before, last.offers), Given(before, last.offers));
      }
    }
  }

  lemma CrashRecounts(s: Store, offers: seq<Offer>, handled: nat)
    requires AllRecount(s)
    ensures AllRecount(CrashStore(s, offers, handled))
  {
    HoldRecounts(s, offers);
    GivenAreHeldOnce(s, offers);
    var given := Given(s, offers);
    RelayAllRecounts(Hold(s, offers), given[..if handled < |given| then handled else |given|]);
  }

  lemma StepRecounts(s: Store, e: Event)
    requires AllRecount(s)
    ensures AllRecount(Step(s, e))
  {
    match e
    case Tick(claims) => TickRecounts(s, claims);
    case Crash(claims, offers, handled) =>
      TickRecounts(s, claims);
      CrashRecounts(TickStore(s, claims), offers, handled);
    case _ =>
  }

  lemma {:induction false} RunRecounts(events: seq<Event>)
    ensures AllRecount(Run(events))
  {
    if events != [] {
      RunRecounts(events[..|events| - 1]);
      StepRecounts(Run(events[..|events| - 1]), events[|events| - 1]);
    }
  }

  /** In every run everything in a row's history is explained by what stands beside it, and a closed row was
      closed by a record of the message it carries. */
  lemma HistoriesAreExplained(events: seq<Event>, row: RowId, i: nat)
    requires row in Run(events) && i < |Run(events)[row].calls|
    ensures Explained(Run(events)[row].calls, i) && ClosedByRecord(Run(events)[row])
  {
    RunRecounts(events);
    assert Recounts(Run(events)[row]);
  }

  // ----- one claim -----

  ghost predicate Lists(offers: seq<Offer>, row: RowId) {
    exists i :: 0 <= i < |offers| && offers[i].row == row
  }

  lemma ListsOneMore(before: seq<Offer>, last: Offer, row: RowId)
    ensures Lists(before + [last], row) <==> Lists(before, row) || last.row == row
  {
    var offers := before + [last];
    assert offers[|before|] == last;
    if Lists(before, row) {
      var i :| 0 <= i < |before| && before[i].row == row;
      assert offers[i].row == row;
    }
  }

  /** A claim gives every row that was offered and waiting, and no other. */
  lemma {:induction false} WaitingAreGiven(s: Store, offers: seq<Offer>, row: RowId)
    ensures Lists(Given(s, offers), row) <==> row in s && s[row].phase == Waiting && Lists(offers, row)
    ensures Claimable(Hold(s, offers), row) <==> row in s && s[row].phase == Waiting && !Lists(offers, row)
  {
    if offers != [] {
      var before, last := offers[..|offers| - 1], offers[|offers| - 1];
      WaitingAreGiven(s, before, row);
      assert offers == before + [last];
      ListsOneMore(before, last, row);
      if Claimable(Hold(s, before), last.row) {
        ListsOneMore(Given(s, before), last, row);
      } else {
        assert Given(s, before) + [] == Given(s, before);
      }
    }
  }

  /** Every row a claim gives is handled once, from what it was, and no other row is touched. */
  lemma GuildHandles(s: Store, offers: seq<Offer>, row: RowId)
    requires row in s
    ensures row in GuildStore(s, Claimed(offers))
    ensures
      var given, t := Given(s, offers), GuildStore(s, Claimed(offers));
      && (forall j :: 0 <= j < |given| && given[j].row == row ==>
          t[row] == Handled(s[row].(phase := Held), given[j].answers))
      && (!Lists(given, row) ==> t[row] == s[row])
  {
    var given := Given(s, offers);
    GivenAreHeldOnce(s, offers);
    HeldIsAll(s, offers, row);
    RelayAllHandles(Hold(s, offers), given, row);
    WaitingAreGiven(s, offers, row);
    assert !Lists(given, row) ==> forall j :: 0 <= j < |given| ==> given[j].row != row;
  }

  lemma {:induction false} HeldIsAll(s: Store, offers: seq<Offer>, row: RowId)
    requires row in s
    ensures row in Hold(s, offers)
    ensures Hold(s, offers)[row] ==
      if Claimable(s, row) && !Claimable(Hold(s, offers), row) then s[row].(phase := Held) else s[row]
  {
    if offers != [] {
      HeldIsAll(s, offers[..|offers| - 1], row);
    }
  }

  lemma {:induction false} RelayAllHandles(s: Store, given: seq<Offer>, row: RowId)
    requires HeldOnce(s, given) && row in s
    ensures row in RelayAll(s, given)
    ensures forall j :: 0 <= j < |given| && given[j].row == row ==>
              RelayAll(s, given)[row] == Handled(s[row], given[j].answers)
    ensures (forall j :: 0 <= j < |given| ==> given[j].row != row) ==> RelayAll(s, given)[row] == s[row]
  {
    if given != [] {
      var before, last := given[..|given| - 1], given[|given| - 1];
      assert forall i :: 0 <= i < |before| ==> before[i] == given[i];
      assert HeldOnce(s, before);
      RelayAllHandles(s, before, row);
    }
  }
}
