/** What a tick does to the board besides keeping it single: it takes it down, and it puts it up. */
module BoardOutcomes {
  import opened Basics
  import opened SessionBoard
  import opened BoardSafety

  /** Somebody switched the board off. */
  predicate Off(w: World) {
    w.setting == None || w.setting == Some("")
  }

  /** A board is stored that must come down: the board is off, or elsewhere and no post is in doubt. */
  predicate MustComeDown(w: World) {
    && w.row.Some?
    && (Off(w) || (!(w.row.value.pending && w.row.value.messageId == None) && w.setting != Some(w.row.value.channelId)))
  }

  lemma {:induction false} MeddlingWithout(w: World, acts: seq<Act>, m: MessageId)
    requires m !in w.floating
    ensures Meddling(w.(live := w.live - {m}), acts) == Meddling(w, acts).(live := Meddling(w, acts).live - {m})
    decreases acts
  {
    if acts != [] {
      var v := w.(live := w.live - {m});
      assert Meddled(v, acts[0]) == Meddled(w, acts[0]).(live := Meddled(w, acts[0]).live - {m}) by {
        assert Meddled(v, acts[0]).live == Meddled(w, acts[0]).live - {m};
      }
      MeddlingWithout(Meddled(w, acts[0]), acts[1..], m);
    }
  }

  lemma {:induction false} MeddlingOn(w: World, first: seq<Act>, second: seq<Act>)
    ensures Meddling(w, first + second) == Meddling(Meddling(w, first), second)
    decreases first
  {
    if first == [] {
      assert first + second == second;
    } else {
      assert (first + second)[1..] == first[1..] + second;
      MeddlingOn(Meddled(w, first[0]), first[1..], second);
    }
  }

  // ----- taking the board down -----

  /** The acts that happen while a board is taken down: the delete is awaited, if there is a message, and then
      the store, unless the process died at the delete. */
  function WhileDown(row: Row, a: Answers): seq<Act> {
    (if row.messageId.Some? then a.delete.before else []) + (if DiesAtDelete(row, a) then [] else a.store.before)
  }

  predicate DiesAtDelete(row: Row, a: Answers) {
    row.messageId.Some? && a.delete.answer.DeleteDied?
  }

  /** The message the row names, if Discord took the delete. */
  function TakenDown(row: Row, a: Answers): set<MessageId> {
    if row.messageId.Some? && (a.delete.answer.Deleted? || a.delete.answer.landed) then {row.messageId.value} else {}
  }

  /** From the world as read, what is left: the message goes if its delete took, the row goes if its clear took,
      and other than that only what people did meanwhile. */
  ghost predicate ComesDown(w: World, a: Answers, w': World, outcome: Outcome)
    requires w.row.Some?
  {
    var row, outside := w.row.value, Meddling(w, WhileDown(w.row.value, a));
    && w'.live == outside.live - TakenDown(row, a)
    && w'.floating == outside.floating
    && (row.messageId.Some? ==> row.messageId.value !in w'.floating)
    && w'.row == (if !DiesAtDelete(row, a) && (a.store.answer.Stored? || a.store.answer.landed) then None else w.row)
    && outcome == (if DiesAtDelete(row, a) || !a.store.answer.Stored? then Aborted
                   else if Off(w) then Retracted else Moved)
  }

  lemma MessageComesDown(w: World, row: Row, a: Answers)
    requires Safe(w) && w.row == Some(row) && row.messageId.Some?
    ensures
      var (w', ended) := Retire(w, row, a, if Off(w) then Retracted else Moved);
      ComesDown(w, a, w', ended)
  {
    var m := row.messageId.value;
    MeddlingIsSafe(w, a.delete.before);
    var w1 := Meddling(w, a.delete.before);
    var w2 := AfterDelete(w1, m, a.delete.answer);
    FewerIsSafe(w1, w2);
    MeddlingIsSafe(w2, a.store.before);
    MeddlingWithout(w1, a.store.before, m);
    MeddlingOn(w, a.delete.before, a.store.before);
    assert a.delete.before + [] == a.delete.before;
  }

  lemma ReadComesDown(w: World, a: Answers)
    requires Safe(w) && w.row.Some?
    ensures
      var outcome := if Off(w) then Retracted else Moved;
      var (w', ended) := Retire(w, w.row.value, a, outcome);
      ComesDown(w, a, w', ended)
  {
    var row := w.row.value;
    if row.messageId.Some? {
      MessageComesDown(w, row, a);
    } else {
      MeddlingIsSafe(w, a.store.before);
      assert [] + a.store.before == a.store.before;
    }
  }

  /** In every run, a tick that reads a board which must come down takes it down: with the delete and the clear
      answered ok the message is gone for good and the row with it, and with one of them lost exactly what was
      lost is left, and the tick is aborted. */
  lemma BoardsComeDown(events: seq<Event>, now: int, a: Answers)
    requires a.board.answer && MustComeDown(Meddling(Run(Start(now), events), a.board.before))
    ensures
      var (w', outcome) := Tick(Run(Start(now), events), a);
      ComesDown(Meddling(Run(Start(now), events), a.board.before), a, w', outcome)
  {
    RunIsSafe(events, now);
    MeddlingIsSafe(Run(Start(now), events), a.board.before);
    ReadComesDown(Meddling(Run(Start(now), events), a.board.before), a);
  }

  /** What that comes to when the calls are answered ok. */
  lemma OkComesDown(w: World, a: Answers, w': World, outcome: Outcome)
    requires w.row.Some? && ComesDown(w, a, w', outcome)
    requires w.row.value.messageId.Some? ==> a.delete.answer.Deleted?
    requires a.store.answer.Stored?
    ensures w'.row == None && outcome == if Off(w) then Retracted else Moved
    ensures w.row.value.messageId.Some? ==>
      w.row.value.messageId.value !in w'.live && w.row.value.messageId.value !in w'.floating
  {
  }

  /** A tick that reads the setting empty and leaves a row in place was aborted. */
  lemma UnsetRowStaysOnAbort(events: seq<Event>, now: int, a: Answers)
    requires Off(Meddling(Run(Start(now), events), a.board.before))
    requires Tick(Run(Start(now), events), a).0.row.Some?
    ensures Tick(Run(Start(now), events), a).1 == Aborted
  {
    var w := Meddling(Run(Start(now), events), a.board.before);
    if a.board.answer && w.row.Some? {
      BoardsComeDown(events, now, a);
    }
  }

  // ----- putting the board up -----

  /** The board the row names is in the channel the row names. */
  predicate InPlace(w: World) {
    w.row.Some? && w.row.value.messageId.Some? && w.row.value.messageId.value in w.live ==>
      w.live[w.row.value.messageId.value].channel == w.row.value.channelId
  }

  lemma MeddlingStaysInPlace(w: World, acts: seq<Act>)
    requires Safe(w) && InPlace(w)
    ensures InPlace(Meddling(w, acts))
  {
    MeddlingIsSafe(w, acts);
    var w' := Meddling(w, acts);
    if w.row.Some? && w.row.value.messageId.Some? && w.row.value.messageId.value in w'.live {
      assert Exists(w', w.row.value.messageId.value);
    }
  }

  lemma RetireStaysInPlace(w: World, a: Answers, outcome: Outcome)
    requires Safe(w) && w.row.Some? && InPlace(w)
    ensures InPlace(Retire(w, w.row.value, a, outcome).0)
  {
    var row, w2 := w.row.value, w;
    if row.messageId.Some? {
      MeddlingIsSafe(w, a.delete.before);
      MeddlingStaysInPlace(w, a.delete.before);
      var w1 := Meddling(w, a.delete.before);
      w2 := AfterDelete(w1, row.messageId.value, a.delete.answer);
      FewerIsSafe(w1, w2);
    }
    MeddlingIsSafe(w2, a.store.before);
    MeddlingStaysInPlace(w2, a.store.before);
  }

  lemma EditStaysInPlace(w: World, m: MessageId, render: Render, a: Answers)
    requires Safe(w) && InPlace(w) && w.row.Some? && w.row.value.messageId == Some(m)
    ensures InPlace(Edit(w, w.row.value, m, render, a).0)
  {
    MeddlingIsSafe(w, a.edit.before);
    MeddlingStaysInPlace(w, a.edit.before);
    var w1 := Meddling(w, a.edit.before);
    var answer := EditAnswer(w1, m, a.edit.answer);
    EditedIsSafe(w1, m, render, answer);
    var w2 := AfterEdit(w1, m, render, answer);
    MeddlingIsSafe(w2, a.store.before);
    MeddlingStaysInPlace(w2, a.store.before);
  }

  lemma SendStaysInPlace(w: World, marked: Row, isRepost: bool, render: Render, a: Answers)
    requires Safe(w) && w.row == Some(marked) && IsStuck(w.row) && forall m: MessageId :: !Current(w, m)
    requires marked.postedAt.Some? && marked.repostWindowStart.Some?
    ensures InPlace(Send(w, marked, isRepost, render, a).0)
  {
    MeddlingIsSafe(w, a.post.before);
    var w1 := Meddling(w, a.post.before);
    NoneCurrent(w, w1);
    PostingIsSafe(w1, marked, isRepost, render, a.post.answer);
    var w2 := AfterPost(w1, marked, isRepost, render, a.post.answer);
    MeddlingIsSafe(w2, a.store.before);
    var w3 := Meddling(w2, a.store.before);
    if a.post.answer.Created? && w1.next in w3.live {
      assert Exists(w3, w1.next) && MessageOf(w3, w1.next) == MessageOf(w2, w1.next);
    }
  }

  lemma PostStaysInPlace(w: World, channel: Channel, render: Render, a: Answers)
    requires Safe(w) && !IsStuck(w.row) && (w.row.Some? ==> w.row.value.messageId.None?)
    ensures InPlace(Post(w, w.row, channel, render, a).0)
  {
    var (reposts, window) := Budget(w.row, w.now);
    var marked := Row(channel, None, true, None, Some(w.now), reposts, Some(window));
    MarkIsSafe(w, marked, a.mark);
    MeddlingIsSafe(w, a.mark.before);
    if a.mark.answer.Stored? {
      SendStaysInPlace(AfterWrite(Meddling(w, a.mark.before), marked, a.mark.answer), marked, w.row.Some?, render, a);
    }
  }

  lemma TickStaysInPlace(w: World, a: Answers)
    requires Safe(w) && InPlace(w)
    ensures InPlace(Tick(w, a).0)
  {
    MeddlingIsSafe(w, a.board.before);
    MeddlingStaysInPlace(w, a.board.before);
    var w1 := Meddling(w, a.board.before);
    if a.board.answer && MustComeDown(w1) {
      RetireStaysInPlace(w1, a, if Off(w1) then Retracted else Moved);
    } else if a.board.answer && !Off(w1) && !IsStuck(w1.row) {
      MeddlingIsSafe(w1, a.schedule.before);
      MeddlingStaysInPlace(w1, a.schedule.before);
      var w2 := Meddling(w1, a.schedule.before);
      if a.schedule.answer.Some? {
        var data := a.schedule.answer.value;
        if w1.row.Some? && w1.row.value.messageId.Some? {
          EditStaysInPlace(w2, w1.row.value.messageId.value, data.render, a);
        } else if !data.empty {
          PostStaysInPlace(w2, w1.setting.value, data.render, a);
        }
      }
    }
  }

  /** In every run the board its row names is in the channel its row names. */
  lemma {:induction false} RunIsInPlace(events: seq<Event>, now: int)
    ensures Safe(Run(Start(now), events)) && InPlace(Run(Start(now), events))
  {
    RunIsSafe(events, now);
    if events != [] {
      var before := events[..|events| - 1];
      RunIsInPlace(before, now);
      match events[|events| - 1]
      case Ticked(a) => TickStaysInPlace(Run(Start(now), before), a);
      case Outside(act) => MeddlingStaysInPlace(Run(Start(now), before), [act]);
    }
  }

  /** A tick in which every call is answered ok and nobody acts, over a schedule that lists something. */
  function Calm(render: Render): Answers {
    Answers(Await([], true), Await([], Deleted), Await([], Some(Schedule(false, render))), Await([], EditOk),
            Await([], Stored), Await([], Created), Await([], Stored))
  }

  /** One board is up: it shows the render, in the channel that is set, and the row says so. */
  ghost predicate Published(w: World, channel: Channel, render: Render) {
    && w.row.Some? && w.row.value.channelId == channel && !w.row.value.pending
    && w.row.value.messageId.Some? && w.row.value.fingerprint == Some(Fingerprint(render))
    && w.row.value.messageId.value in w.live
    && w.live[w.row.value.messageId.value].channel == channel
    && w.live[w.row.value.messageId.value].shows == render
    && forall m: MessageId :: Current(w, m) ==> m == w.row.value.messageId.value
  }

  /** No message, and the day's reposts are made. */
  predicate Used(w: World) {
    && w.row.Some? && w.row.value.messageId.None? && w.row.value.reposts >= 3
    && w.row.value.repostWindowStart.Some? && w.now - w.row.value.repostWindowStart.value <= 86_400_000
  }

  /** The row names a message that it takes for up to date, or no more posts are allowed. */
  predicate Content(w: World, channel: Channel, render: Render) {
    && w.row.Some? && w.row.value.channelId == channel && !IsStuck(w.row)
    && (Used(w) || (w.row.value.messageId.Some? && w.row.value.fingerprint == Some(Fingerprint(render))))
  }

  /** A world a tick can work on: a channel is set and no post is in doubt. */
  ghost predicate Workable(w: World, channel: Channel) {
    Safe(w) && InPlace(w) && w.setting == Some(channel) && channel != "" && !IsStuck(w.row)
  }

  /** A calm tick that has nothing to do does nothing; otherwise it publishes the board, or clears what was in
      its way and leaves a row without a message. */
  lemma CalmTickWorks(w: World, channel: Channel, render: Render)
    requires Workable(w, channel)
    ensures
      var (w', outcome) := Tick(w, Calm(render));
      && Workable(w', channel)
      && (if Content(w, channel, render) then w' == w && outcome in {Unchanged, Suppressed}
          else if outcome in {Posted, Edited} then Published(w', channel, render)
          else
            && outcome in {Moved, Stale}
            && (w'.row.Some? ==> w'.row.value.channelId == channel && w'.row.value.messageId.None?))
  {
    var a := Calm(render);
    TickIsSafe(w, a);
    TickStaysInPlace(w, a);
    if w.row.Some? && w.row.value.channelId == channel && w.row.value.messageId.Some? {
      CalmEditWorks(w, channel, render);
    } else if !(w.row.Some? && w.row.value.channelId != channel) {
      CalmPostWorks(w, channel, render);
    }
  }

  lemma CalmEditWorks(w: World, channel: Channel, render: Render)
    requires Workable(w, channel)
    requires w.row.Some? && w.row.value.channelId == channel && w.row.value.messageId.Some?
    ensures
      var (w', outcome) := Tick(w, Calm(render));
      && w'.setting == w.setting && !IsStuck(w'.row)
      && (if w.row.value.fingerprint == Some(Fingerprint(render)) then w' == w && outcome == Unchanged
          else if outcome == Edited then Published(w', channel, render)
          else outcome == Stale && w'.row.Some? && w'.row.value.channelId == channel && w'.row.value.messageId.None?)
  {
    var m := w.row.value.messageId.value;
    var (w', outcome) := Tick(w, Calm(render));
    if m in w.live && outcome == Edited {
      forall k: MessageId | Current(w', k) ensures k == m {
        assert Current(w, k);
      }
    }
  }

  lemma CalmPostWorks(w: World, channel: Channel, render: Render)
    requires Workable(w, channel)
    requires w.row.Some? ==> w.row.value.channelId == channel && w.row.value.messageId.None?
    ensures
      var (w', outcome) := Tick(w, Calm(render));
      && w'.setting == w.setting && !IsStuck(w'.row)
      && if Used(w) then w' == w && outcome == Suppressed else outcome == Posted && Published(w', channel, render)
  {
    var (w', outcome) := Tick(w, Calm(render));
    if !Used(w) {
      forall m: MessageId | Current(w', m) ensures m == w.next {
        assert !Current(w, m);
      }
    }
  }

  /** From every reachable state with a channel set and no post in doubt, two calm ticks are enough: a third has
      nothing to do, and unless the first had nothing to do either, or the day's reposts are made, the board
      is up and shows the schedule. */
  lemma TwoCalmTicksPublish(events: seq<Event>, now: int, channel: Channel, render: Render)
    requires Run(Start(now), events).setting == Some(channel) && channel != "" && !IsStuck(Run(Start(now), events).row)
    ensures
      var w := Run(Start(now), events);
      var w2 := Tick(Tick(w, Calm(render)).0, Calm(render)).0;
      && Tick(w2, Calm(render)).0 == w2
      && (Content(w, channel, render) ==> w2 == w)
      && (!Content(w, channel, render) && !Used(w2) ==> Published(w2, channel, render))
  {
    RunIsInPlace(events, now);
    var w := Run(Start(now), events);
    var w1 := Tick(w, Calm(render)).0;
    CalmTickWorks(w, channel, render);
    CalmTickWorks(w1, channel, render);
    CalmTickWorks(Tick(w1, Calm(render)).0, channel, render);
  }

  // ----- what each outcome tells -----

  /** The tick gets as far as asking for the schedule, and is answered. */
  predicate Fetches(w: World, a: Answers) {
    && a.board.answer && !Off(w) && a.schedule.answer.Some?
    && !(w.row.Some? && w.row.value.pending && w.row.value.messageId.None?)
    && (w.row.Some? ==> w.setting == Some(w.row.value.channelId))
  }

  predicate HasMessage(w: World) {
    w.row.Some? && w.row.value.messageId.Some?
  }

  /** The board is there and shows another schedule. */
  predicate Edits(w: World, a: Answers) {
    && Fetches(w, a) && HasMessage(w)
    && w.row.value.fingerprint != Some(Fingerprint(a.schedule.answer.value.render))
  }

  /** There is none, there is something to show, and a post is allowed and was announced in the row. */
  predicate Posts(w: World, a: Answers) {
    && Fetches(w, a) && !HasMessage(w) && !a.schedule.answer.value.empty
    && !Used(Meddling(w, a.schedule.before))
  }

  predicate MessageThere(w: World, a: Answers)
    requires HasMessage(w)
  {
    w.row.value.messageId.value in Meddling(Meddling(w, a.schedule.before), a.edit.before).live
  }

  /** From the world as read: when a tick ends in each way. */
  predicate Tells(w: World, a: Answers, outcome: Outcome) {
    match outcome
    case Stuck => a.board.answer && !Off(w) && w.row.Some? && w.row.value.pending && w.row.value.messageId.None?
    case Skipped =>
      || (a.board.answer && Off(w) && w.row.None?)
      || (Fetches(w, a) && !HasMessage(w) && a.schedule.answer.value.empty)
    case Unchanged => Fetches(w, a) && HasMessage(w) && !Edits(w, a)
    case Suppressed =>
      Fetches(w, a) && !HasMessage(w) && !a.schedule.answer.value.empty && Used(Meddling(w, a.schedule.before))
    case Edited => Edits(w, a) && MessageThere(w, a) && a.edit.answer.EditOk? && a.store.answer.Stored?
    case Stale =>
      Edits(w, a) && !MessageThere(w, a) && (a.edit.answer.EditOk? || a.edit.answer.EditGone?) && a.store.answer.Stored?
    case Failed =>
      || (Edits(w, a) && (a.edit.answer.EditFailed? || (MessageThere(w, a) && a.edit.answer.EditGone?)))
      || (Posts(w, a) && (a.mark.answer.Threw? || (a.mark.answer.Stored? && a.post.answer.Unknown?)))
    case PostRefused => Posts(w, a) && a.mark.answer.Stored? && a.post.answer.Refused? && a.store.answer.Stored?
    case Posted => Posts(w, a) && a.mark.answer.Stored? && a.post.answer.Created? && !a.store.answer.WriteDied?
    case Retracted =>
      a.board.answer && MustComeDown(w) && Off(w) && !DiesAtDelete(w.row.value, a) && a.store.answer.Stored?
    case Moved =>
      a.board.answer && MustComeDown(w) && !Off(w) && !DiesAtDelete(w.row.value, a) && a.store.answer.Stored?
    case Aborted => true
  }

  ghost predicate OnlyAborted(w: World, a: Answers) {
    forall outcome: Outcome :: Tells(w, a, outcome) ==> outcome == Aborted
  }

  /** No two of them tell the same. */
  lemma TellsApart(w: World, a: Answers, one: Outcome, other: Outcome)
    requires Tells(w, a, one) && Tells(w, a, other) && one != Aborted && other != Aborted
    ensures one == other
  {
  }

  lemma EditTells(w: World, a: Answers)
    requires Edits(w, a)
    ensures
      var w2 := Meddling(w, a.schedule.before);
      var outcome := Edit(w2, w.row.value, w.row.value.messageId.value, a.schedule.answer.value.render, a).1;
      Tells(w, a, outcome) && (outcome == Aborted ==> OnlyAborted(w, a))
  {
  }

  lemma PostTells(w: World, a: Answers)
    requires Fetches(w, a) && !HasMessage(w) && !a.schedule.answer.value.empty
    ensures
      var w2 := Meddling(w, a.schedule.before);
      var outcome := Post(w2, w.row, w.setting.value, a.schedule.answer.value.render, a).1;
      Tells(w, a, outcome) && (outcome == Aborted ==> OnlyAborted(w, a))
  {
    MeddlingKeepsRow(w, a.schedule.before);
  }

  lemma {:induction false} MeddlingKeepsRow(w: World, acts: seq<Act>)
    ensures Meddling(w, acts).row == w.row
    decreases acts
  {
    if acts != [] {
      MeddlingKeepsRow(Meddled(w, acts[0]), acts[1..]);
    }
  }

  /** A tick ends in one of the eleven ways exactly when this happened, and is aborted otherwise; and one that is
      stuck, skipped, unchanged or suppressed left the row and the board to what people did meanwhile. */
  lemma OutcomesAreExact(w: World, a: Answers)
    ensures
      var read, (w', outcome) := Meddling(w, a.board.before), Tick(w, a);
      && Tells(read, a, outcome) && (outcome == Aborted ==> OnlyAborted(read, a))
      && (outcome in {Stuck, Skipped, Unchanged, Suppressed} ==>
            w' == read || w' == Meddling(read, a.schedule.before))
  {
    var read := Meddling(w, a.board.before);
    if Edits(read, a) {
      EditTells(read, a);
    } else if Fetches(read, a) && !HasMessage(read) && !a.schedule.answer.value.empty {
      PostTells(read, a);
    }
  }
}
