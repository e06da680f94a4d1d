/** How often the club says a thing, over every run of ticks with faults, crashes and expiring claims. */
module OutboxProofs {
  import opened Basics
  import opened Outbox

  /** Besides its own ticks the relay sees claims run out, and the console queue and re-queue messages. In a
      crash the process dies at its last claim, with so many of the rows it was given handled. */
  datatype Event =
    | Tick(claims: seq<Claim>)
    | Crash(claims: seq<Claim>, offers: seq<Offer>, handled: nat)
    | Expire(row: RowId)
    | Queue(row: RowId, buttons: bool)
    | Requeue(row: RowId, buttons: bool)

  function Step(s: Store, e: Event): Store {
    match e
    case Tick(claims) => TickStore(s, claims)
    case Crash(claims, offers, handled) => CrashStore(TickStore(s, claims), offers, handled)
    case Expire(row) => if row in s && s[row].phase == Held then s[row := s[row].(phase := Waiting)] else s
    case Queue(row, buttons) => if row in s then s else s[row := Row(None, buttons, Waiting, [])]
    case Requeue(row, buttons) =>
      if row in s && s[row].phase == Closed then s[row := s[row].(phase := Waiting, buttons := buttons)] else s
  }

  function CrashStore(s: Store, offers: seq<Offer>, handled: nat): Store {
    var given := Given(s, offers);
    RelayAll(Hold(s, offers), given[..if handled < |given| then handled else |given|])
  }

  function Run(events: seq<Event>): Store {
    if events == [] then map[] else Step(Run(events[..|events| - 1]), events[|events| - 1])
  }

  // ----- counting calls -----

  function Count(calls: seq<Call>, f: Call -> bool): nat {
    if calls == [] then 0
    else Count(calls[..|calls| - 1], f) + if f(calls[|calls| - 1]) then 1 else 0
  }

  lemma {:induction false} CountAppend(a: seq<Call>, b: seq<Call>, f: Call -> bool)
    ensures Count(a + b, f) == Count(a, f) + Count(b, f)
    decreases |b|
  {
    if b == [] {
      assert a + b == a;
    } else {
      assert (a + b)[..|a + b| - 1] == a + b[..|b| - 1];
      CountAppend(a, b[..|b| - 1], f);
    }
  }

  /** A message that now exists in the channel. */
  predicate IsCopy(c: Call) {
    c.Post? && (c.answer.Created? || (c.answer.Unknown? && c.answer.landed))
  }

  /** A message that was posted though its answer was lost. */
  predicate IsLost(c: Call) {
    c.Post? && c.answer.Unknown? && c.answer.landed
  }

  /** A post whose recording never took effect. */
  predicate IsUnrecorded(c: Call) {
    c.RecordSent? && c.posted && !TakesEffect(c.recording)
  }

  function Copies(r: Row): nat {
    Count(r.calls, IsCopy)
  }

  function LostAnswers(r: Row): nat {
    Count(r.calls, IsLost)
  }

  function Unrecorded(r: Row): nat {
    Count(r.calls, IsUnrecorded)
  }

  // ----- one row -----

  /** Every copy is the one on record, one whose answer was lost, or one whose recording was. */
  ghost predicate Accounted(r: Row) {
    Copies(r) == LostAnswers(r) + Unrecorded(r) + if r.messageId.Some? then 1 else 0
  }

  /** A second try without buttons follows only a refusal or a failed edit of the same thing with them. */
  ghost predicate Licensed(first: Call, second: Call) {
    && (second.Post? ==> (first.Post? ==> first == Post(true, Refused) && !second.buttons) && !first.Patch?)
    && (second.Patch? ==>
        (first.Patch? ==> first == Patch(second.message, true, EditFailed) && !second.buttons) && !first.Post?)
  }

  ghost predicate AllLicensed(calls: seq<Call>) {
    && (forall i :: 0 < i < |calls| ==> Licensed(calls[i - 1], calls[i]))
    && (calls != [] ==> var last := calls[|calls| - 1]; last.RecordSent? || last.RecordFailed?)
  }

  ghost predicate Proper(r: Row) {
    Accounted(r) && AllLicensed(r.calls)
  }

  function NewCalls(r: Row, a: Answers): seq<Call> {
    var d := Deliver(r, a);
    d.calls + [if d.message.Some? then RecordSent(d.message.value, r.messageId.None?, d.note, a.recording)
               else RecordFailed(d.gone, a.recording)]
  }

  lemma HandledCalls(r: Row, a: Answers)
    ensures Handled(r, a).calls == r.calls + NewCalls(r, a)
    ensures 2 <= |NewCalls(r, a)| <= 3
  {
    assert r.calls + NewCalls(r, a) ==
      r.calls + Deliver(r, a).calls + [NewCalls(r, a)[|NewCalls(r, a)| - 1]];
  }

  /** The count over the two or three calls of one delivery. */
  lemma CountFew(calls: seq<Call>, f: Call -> bool)
    requires 2 <= |calls| <= 3
    ensures Count(calls, f) ==
            (if f(calls[0]) then 1 else 0) + (if f(calls[1]) then 1 else 0) +
            (if |calls| == 3 && f(calls[2]) then 1 else 0)
  {
    assert Count(calls[..|calls| - 1][..|calls| - 2], f) ==
      if |calls| == 3 && f(calls[0]) then 1 else 0 by {
      if |calls| == 3 {
        assert calls[..2][..1] == [calls[0]];
        assert [calls[0]][..0] == [];
      }
    }
    if |calls| == 2 {
      assert calls[..1][..0] == [];
    }
  }

  lemma DeliveryIsAccounted(r: Row, a: Answers)
    ensures
      var calls, after := NewCalls(r, a), Handled(r, a);
      Count(calls, IsCopy) + (if r.messageId.Some? then 1 else 0) ==
      Count(calls, IsLost) + Count(calls, IsUnrecorded) + if after.messageId.Some? then 1 else 0
  {
    HandledCalls(r, a);
    CountFew(NewCalls(r, a), IsCopy);
    CountFew(NewCalls(r, a), IsLost);
    CountFew(NewCalls(r, a), IsUnrecorded);
  }

  lemma HandledIsAccounted(r: Row, a: Answers)
    requires Accounted(r)
    ensures Accounted(Handled(r, a))
  {
    HandledCalls(r, a);
    DeliveryIsAccounted(r, a);
    CountAppend(r.calls, NewCalls(r, a), IsCopy);
    CountAppend(r.calls, NewCalls(r, a), IsLost);
    CountAppend(r.calls, NewCalls(r, a), IsUnrecorded);
  }

  lemma HandledIsLicensed(r: Row, a: Answers)
    requires AllLicensed(r.calls)
    ensures AllLicensed(Handled(r, a).calls)
  {
    HandledCalls(r, a);
    var calls, more := Handled(r, a).calls, NewCalls(r, a);
    forall i | 0 < i < |calls| ensures Licensed(calls[i - 1], calls[i]) {
      if i < |r.calls| {
        assert Licensed(r.calls[i - 1], r.calls[i]);
      } else {
        assert calls[i] == more[i - |r.calls|];
      }
    }
  }

  lemma EditCallsArePatches(r: Row, a: Answers)
    requires r.messageId.Some?
    ensures
      var calls := NewCalls(r, a);
      !calls[0].Post? && !calls[1].Post? && (|calls| == 3 ==> !calls[2].Post?)
    ensures Handled(r, a).messageId == r.messageId
  {
  }

  /** A row that is in a channel is edited there and never posted again. */
  lemma EditsNeverPost(r: Row, a: Answers)
    requires r.messageId.Some?
    ensures Copies(Handled(r, a)) == Copies(r) && Handled(r, a).messageId == r.messageId
  {
    EditCallsArePatches(r, a);
    HandledCalls(r, a);
    CountAppend(r.calls, NewCalls(r, a), IsCopy);
    CountFew(NewCalls(r, a), IsCopy);
  }

  // ----- every row of every run -----

  ghost predicate AllProper(s: Store) {
    forall row: RowId :: row in s ==> Proper(s[row])
  }

  /** `t` is `s` with its rows further along: those in a channel are where they were. */
  ghost predicate Continues(s: Store, t: Store) {
    && s.Keys <= t.Keys
    && forall row: RowId :: row in s && s[row].messageId.Some? ==>
         t[row].messageId == s[row].messageId && Copies(t[row]) == Copies(s[row])
  }

  lemma RelayIsProper(s: Store, o: Offer)
    requires AllProper(s)
    ensures AllProper(Relay(s, o)) && Continues(s, Relay(s, o))
  {
    if o.row in s {
      HandledIsAccounted(s[o.row], o.answers);
      HandledIsLicensed(s[o.row], o.answers);
      if s[o.row].messageId.Some? {
        EditsNeverPost(s[o.row], o.answers);
      }
    }
  }

  lemma {:induction false} RelayAllIsProper(s: Store, given: seq<Offer>)
    requires AllProper(s)
    ensures AllProper(RelayAll(s, given)) && Continues(s, RelayAll(s, given))
  {
    if given != [] {
      RelayAllIsProper(s, given[..|given| - 1]);
      RelayIsProper(RelayAll(s, given[..|given| - 1]), given[|given| - 1]);
    }
  }

  lemma {:induction false} HoldIsProper(s: Store, offers: seq<Offer>)
    requires AllProper(s)
    ensures AllProper(Hold(s, offers)) && Continues(s, Hold(s, offers))
  {
    if offers != [] {
      HoldIsProper(s, offers[..|offers| - 1]);
    }
  }

  lemma {:induction false} TickIsProper(s: Store, claims: seq<Claim>)
    requires AllProper(s)
    ensures AllProper(TickStore(s, claims)) && Continues(s, TickStore(s, claims))
  {
    if claims != [] {
      var before, last := TickStore(s, claims[..|claims| - 1]), claims[|claims| - 1];
      TickIsProper(s, claims[..|claims| - 1]);
      if last.Claimed? {
        HoldIsProper(before, last.offers);
        RelayAllIsProper(Hold(before, last.offers), Given(before, last.offers));
      }
    }
  }

  lemma ReplacedIsProper(s: Store, row: RowId, r: Row)
    requires AllProper(s) && Proper(r)
    requires row in s ==> r.messageId == s[row].messageId && r.calls == s[row].calls
    ensures AllProper(s[row := r]) && Continues(s, s[row := r])
  {
  }

  lemma StepIsProper(s: Store, e: Event)
    requires AllProper(s)
    ensures AllProper(Step(s, e)) && Continues(s, Step(s, e))
  {
    match e
    case Tick(claims) => TickIsProper(s, claims);
    case Crash(claims, offers, handled) =>
      TickIsProper(s, claims);
      var t, given := TickStore(s, claims), Given(TickStore(s, claims), offers);
      HoldIsProper(t, offers);
      RelayAllIsProper(Hold(t, offers), given[..if handled < |given| then handled else |given|]);
    case Expire(row) =>
      if row in s && s[row].phase == Held {
        ReplacedIsProper(s, row, s[row].(phase := Waiting));
      }
    case Queue(row, buttons) =>
      if row !in s {
        ReplacedIsProper(s, row, Row(None, buttons, Waiting, []));
      }
    case Requeue(row, buttons) =>
      if row in s && s[row].phase == Closed {
        ReplacedIsProper(s, row, s[row].(phase := Waiting, buttons := buttons));
      }
  }

  lemma {:induction false} RunIsProper(events: seq<Event>)
    ensures AllProper(Run(events))
  {
    if events != [] {
      RunIsProper(events[..|events| - 1]);
      StepIsProper(Run(events[..|events| - 1]), events[|events| - 1]);
    }
  }

  // ----- what the club is promised -----

  /** In every run the copies of a message in its channel are exactly the one on record, the posts whose
      answer was lost, and the posts whose recording never took effect: at most one more than the faults. */
  lemma CopiesAreFaults(events: seq<Event>, row: RowId)
    requires row in Run(events)
    ensures
      var r := Run(events)[row];
      && Copies(r) == LostAnswers(r) + Unrecorded(r) + (if r.messageId.Some? then 1 else 0)
      && Copies(r) <= 1 + LostAnswers(r) + Unrecorded(r)
  {
    RunIsProper(events);
    assert Proper(Run(events)[row]);
  }

  /** A message posted again without its buttons was refused with them the call before, and one edited
      without them had failed with them. */
  lemma RetriesAreLicensed(events: seq<Event>, row: RowId, i: nat)
    requires row in Run(events) && 0 < i < |Run(events)[row].calls|
    ensures
      var first, second := Run(events)[row].calls[i - 1], Run(events)[row].calls[i];
      && (first.Post? && second.Post? ==> first == Post(true, Refused) && !second.buttons)
      && (first.Patch? && second.Patch? ==> first == Patch(second.message, true, EditFailed) && !second.buttons)
  {
    RunIsProper(events);
    assert Proper(Run(events)[row]);
    assert Licensed(Run(events)[row].calls[i - 1], Run(events)[row].calls[i]);
  }

  /** Once a message is on record it is never posted again, whatever happens later. */
  lemma {:induction false} OnceOnRecordNeverPosted(events: seq<Event>, more: seq<Event>, row: RowId)
    requires row in Run(events) && Run(events)[row].messageId.Some?
    ensures row in Run(events + more)
    ensures Run(events + more)[row].messageId == Run(events)[row].messageId
    ensures Copies(Run(events + more)[row]) == Copies(Run(events)[row])
    decreases |more|
  {
    if more == [] {
      assert events + more == events;
    } else {
      var prefix := events + more[..|more| - 1];
      assert (events + more)[..|events + more| - 1] == prefix;
      OnceOnRecordNeverPosted(events, more[..|more| - 1], row);
      RunIsProper(prefix);
      StepIsProper(Run(prefix), more[|more| - 1]);
    }
  }

  // ----- the totals -----

  /** The rows a run was given, and the claims that failed. */
  function Owed(s: Store, claims: seq<Claim>): nat {
    if claims == [] then 0
    else
      var before, last := claims[..|claims| - 1], claims[|claims| - 1];
      Owed(s, before) + if last.ClaimFailed? then 1 else |Given(TickStore(s, before), last.offers)|
  }

  lemma {:induction false} CountAllIsComplete(s: Store, given: seq<Offer>, r: Result)
    ensures CountAll(s, given, r).sent + CountAll(s, given, r).failed == r.sent + r.failed + |given|
  {
    if given != [] {
      CountAllIsComplete(s, given[..|given| - 1], r);
    }
  }

  /** Every row taken and every failed claim is counted once, as sent or as failed. */
  lemma {:induction false} TallyIsComplete(s: Store, claims: seq<Claim>)
    ensures TickResult(s, claims).sent + TickResult(s, claims).failed == Owed(s, claims)
  {
    if claims != [] {
      var before, last := claims[..|claims| - 1], claims[|claims| - 1];
      TallyIsComplete(s, before);
      if last.Claimed? {
        var t := TickStore(s, before);
        CountAllIsComplete(Hold(t, last.offers), Given(t, last.offers), TickResult(s, before));
      }
    }
  }

  /** One claim gives no row twice, and only rows nobody else holds. */
  lemma {:induction false} ClaimsAreExclusive(s: Store, offers: seq<Offer>, i: nat)
    requires i < |Given(s, offers)|
    ensures Claimable(s, Given(s, offers)[i].row) && !Claimable(Hold(s, offers), Given(s, offers)[i].row)
    ensures forall j :: 0 <= j < i ==> Given(s, offers)[j].row != Given(s, offers)[i].row
    decreases |offers|
  {
    var before := offers[..|offers| - 1];
    var given := Given(s, before);
    HoldOnlyHolds(s, before, offers[|offers| - 1].row);
    if i < |given| {
      ClaimsAreExclusive(s, before, i);
    } else {
      forall j | 0 <= j < i ensures given[j].row != Given(s, offers)[i].row {
        ClaimsAreExclusive(s, before, j);
      }
    }
  }

  lemma {:induction false} HoldOnlyHolds(s: Store, offers: seq<Offer>, row: RowId)
    ensures Claimable(Hold(s, offers), row) ==> Claimable(s, row)
  {
    if offers != [] {
      HoldOnlyHolds(s, offers[..|offers| - 1], row);
    }
  }
}
