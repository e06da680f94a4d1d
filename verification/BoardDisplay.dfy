/** What the live board shows when a tick ends. */
module BoardDisplay {
  import opened Basics
  import opened SessionBoard
  import opened BoardSafety

  /** The board the row names, if it exists. */
  predicate IsUp(w: World) {
    w.row.Some? && w.row.value.messageId.Some? && w.row.value.messageId.value in w.live
  }

  /** What an edit put on the board since the row was last written, if anything, and else what the row says. */
  function Landed(w: World, recorded: Render): Render {
    if w.unrecorded == [] then recorded else w.unrecorded[|w.unrecorded| - 1]
  }

  /** The board shows what was last put on it. */
  predicate Tracked(w: World) {
    IsUp(w) ==>
      && w.row.value.fingerprint.Some?
      && w.live[w.row.value.messageId.value].shows == Landed(w, w.row.value.fingerprint.value.of)
  }

  /** Every live board of this row lifetime shows `render`. */
  ghost predicate Shows(w: World, render: Render) {
    forall m: MessageId :: m in w.live && Current(w, m) ==> w.live[m].shows == render
  }

  lemma RetireEnds(w: World, row: Row, a: Answers, outcome: Outcome)
    requires Safe(w) && w.row == Some(row)
    ensures var w' := Retire(w, row, a, outcome).0;
            Tracked(w) ==> Tracked(w')
  {
    var w2 := w;
    if row.messageId.Some? {
      MeddlingIsSafe(w, a.delete.before);
      var w1 := Meddling(w, a.delete.before);
      MeddlingStaysTracked(w, a.delete.before);
      w2 := AfterDelete(w1, row.messageId.value, a.delete.answer);
      FewerIsSafe(w1, w2);
    }
    MeddlingIsSafe(w2, a.store.before);
    MeddlingStaysTracked(w2, a.store.before);
  }

  lemma MeddlingStaysTracked(w: World, acts: seq<Act>)
    requires Safe(w)
    ensures Tracked(w) ==> Tracked(Meddling(w, acts))
  {
    MeddlingIsSafe(w, acts);
    var w' := Meddling(w, acts);
    if w.row.Some? && w.row.value.messageId.Some? {
      assert Exists(w', w.row.value.messageId.value) ==> Exists(w, w.row.value.messageId.value);
    }
  }

  lemma SettleShows(w: World, row: Row, m: MessageId, render: Render, answer: EditReply, store: Await<WriteReply>)
    requires Safe(w) && Tracked(w) && w.row == Some(row) && row.messageId == Some(m)
    requires answer.EditOk? && m in w.live ==> w.live[m].shows == render
    ensures var (w', outcome) := Settle(w, row, render, answer, store);
            && outcome != Unchanged
            && (outcome == Edited ==> Shows(w', render))
            && Tracked(w')
  {
    MeddlingIsSafe(w, store.before);
    MeddlingStaysTracked(w, store.before);
    var w1 := Meddling(w, store.before);
    var (w', outcome) := Settle(w, row, render, answer, store);
    if answer.EditOk? {
      forall k: MessageId | k in w'.live && (Current(w', k) || k == m) ensures w'.live[k].shows == render {
        assert Exists(w1, k) && Exists(w, k);
        assert Current(w', k) ==> Current(w1, k);
        assert k == m;
      }
    }
  }

  /** After an edit was answered ok, the live board shows the render whatever happened before. */
  lemma EditShows(w: World, row: Row, m: MessageId, render: Render, a: Answers)
    requires Safe(w) && Tracked(w) && w.row == Some(row) && row.messageId == Some(m)
    ensures var (w', outcome) := Edit(w, row, m, render, a);
            && (outcome == Edited ==> Shows(w', render))
            && (outcome == Unchanged ==> w' == w && (Shows(w, render) <==> !IsUp(w) || Landed(w, render) == render))
            && Tracked(w')
  {
    if row.fingerprint != Some(Fingerprint(render)) {
      MeddlingIsSafe(w, a.edit.before);
      MeddlingStaysTracked(w, a.edit.before);
      var w1 := Meddling(w, a.edit.before);
      var answer := EditAnswer(w1, m, a.edit.answer);
      EditedIsSafe(w1, m, render, answer);
      SettleShows(AfterEdit(w1, m, render, answer), row, m, render, answer, a.store);
    }
  }

  lemma SendShows(w: World, marked: Row, isRepost: bool, render: Render, a: Answers)
    requires Safe(w) && w.row == Some(marked) && IsStuck(w.row) && forall m: MessageId :: !Current(w, m)
    requires marked.postedAt.Some? && marked.repostWindowStart.Some?
    ensures var (w', outcome) := Send(w, marked, isRepost, render, a);
            && (outcome == Posted ==> Shows(w', render))
            && Tracked(w')
  {
    MeddlingIsSafe(w, a.post.before);
    var w1 := Meddling(w, a.post.before);
    NoneCurrent(w, w1);
    PostingIsSafe(w1, marked, isRepost, render, a.post.answer);
    var w2 := AfterPost(w1, marked, isRepost, render, a.post.answer);
    MeddlingIsSafe(w2, a.store.before);
    var w3 := Meddling(w2, a.store.before);
    var (w', outcome) := Send(w, marked, isRepost, render, a);
    if a.post.answer.Created? {
      forall m: MessageId | m in w'.live && (Current(w', m) || m == w1.next) ensures w'.live[m].shows == render {
        assert Exists(w3, m) && Exists(w2, m);
        assert Current(w', m) ==> Current(w3, m) && Current(w2, m);
      }
    }
  }

  lemma PostShows(w: World, channel: Channel, render: Render, a: Answers)
    requires Safe(w) && !IsStuck(w.row) && (w.row.Some? ==> w.row.value.messageId.None?)
    ensures var (w', outcome) := Post(w, w.row, channel, render, a);
            && (outcome == Posted ==> Shows(w', render))
            && outcome != Edited && outcome != Unchanged
            && Tracked(w')
  {
    var (reposts, window) := Budget(w.row, w.now);
    var marked := Row(channel, None, true, None, Some(w.now), reposts, Some(window));
    MarkIsSafe(w, marked, a.mark);
    MeddlingIsSafe(w, a.mark.before);
    if a.mark.answer.Stored? {
      SendShows(AfterWrite(Meddling(w, a.mark.before), marked, a.mark.answer), marked, w.row.Some?, render, a);
    }
  }

  /** A tick that ends posted or edited leaves the board showing its render, whatever went before. One
      that ends unchanged does so exactly when no edit landed since the row was written, or the last that
      did had the same render. */
  lemma TickShows(w: World, a: Answers)
    requires Safe(w) && Tracked(w)
    ensures var (w', outcome) := Tick(w, a);
            && Tracked(w')
            && (outcome in {Posted, Edited, Unchanged} ==> a.schedule.answer.Some?)
            && (outcome in {Posted, Edited} ==> Shows(w', a.schedule.answer.value.render))
            && (outcome == Unchanged ==>
                  var render := a.schedule.answer.value.render;
                  Shows(w', render) <==> !IsUp(w') || Landed(w', render) == render)
  {
    MeddlingIsSafe(w, a.board.before);
    MeddlingStaysTracked(w, a.board.before);
    var w1 := Meddling(w, a.board.before);
    if !a.board.answer || (Unset(w1.setting) && w1.row.None?) || (!Unset(w1.setting) && IsStuck(w1.row)) {
      assert Tick(w, a).0 == w1;
    } else if Unset(w1.setting) || (w1.row.Some? && w1.row.value.channelId != w1.setting.value) {
      RetireEnds(w1, w1.row.value, a, if Unset(w1.setting) then Retracted else Moved);
    } else {
      MeddlingIsSafe(w1, a.schedule.before);
      MeddlingStaysTracked(w1, a.schedule.before);
      var w2 := Meddling(w1, a.schedule.before);
      if a.schedule.answer.Some? {
        var data := a.schedule.answer.value;
        if w1.row.Some? && w1.row.value.messageId.Some? {
          EditShows(w2, w1.row.value, w1.row.value.messageId.value, data.render, a);
        } else if !data.empty {
          PostShows(w2, w1.setting.value, data.render, a);
        }
      }
    }
  }

  lemma {:induction false} RunIsTracked(events: seq<Event>, now: int)
    ensures var w := Run(Start(now), events); Safe(w) && Tracked(w)
  {
    RunIsSafe(events, now);
    if events != [] {
      var before := events[..|events| - 1];
      RunIsTracked(before, now);
      match events[|events| - 1]
      case Ticked(a) => TickShows(Run(Start(now), before), a);
      case Outside(act) => MeddlingStaysTracked(Run(Start(now), before), [act]);
    }
  }

  /** In every run, a tick that ends posted or edited leaves the live board showing exactly its render. One
      that ends unchanged does so if and only if the board is gone, nothing landed on it since the row was
      last written, or what landed last was that same render. */
  lemma BoardShowsTheTicksRender(events: seq<Event>, now: int, a: Answers)
    requires Tick(Run(Start(now), events), a).1 in {Posted, Edited, Unchanged}
    ensures var (w', outcome) := Tick(Run(Start(now), events), a);
            && a.schedule.answer.Some?
            && var render := a.schedule.answer.value.render;
               Shows(w', render) <==>
               (outcome != Unchanged || !IsUp(w') || w'.unrecorded == []
                || w'.unrecorded[|w'.unrecorded| - 1] == render)
  {
    RunIsTracked(events, now);
    TickShows(Run(Start(now), events), a);
  }

  /** Answers without a fault. */
  function Fine(render: Render, store: WriteReply): Answers {
    Answers(Await([Wait(300000)], true), Await([], Deleted), Await([], Some(Schedule(false, render))),
            Await([], EditOk), Await([], Stored), Await([], Created), Await([], store))
  }

  /** One lost row write is enough: the schedule changes and changes back, and the last tick ends
      unchanged over a board that shows the wrong schedule. */
  lemma ChangesBackUnseen(now: int)
    ensures var events := [Outside(Repoint(Some("sessions"))), Ticked(Fine("monday", Stored)),
                           Ticked(Fine("tuesday", Threw(false)))];
            var (w, outcome) := Tick(Run(Start(now), events), Fine("monday", Stored));
            && w.unrecorded == ["tuesday"]
            && outcome == Unchanged
            && w.live.Keys == {0} && Current(w, 0) && w.live[0].shows == "tuesday"
  {
    var e0 := Outside(Repoint(Some("sessions")));
    var e1 := Ticked(Fine("monday", Stored));
    var e2 := Ticked(Fine("tuesday", Threw(false)));
    var w0 := Step(Start(now), e0);
    var w1 := Step(w0, e1);
    var w2 := Step(w1, e2);
    assert [e0, e1, e2][..2] == [e0, e1] && [e0, e1][..1] == [e0] && [e0][..0] == [];
    assert Run(Start(now), [e0]) == w0;
    assert Run(Start(now), [e0, e1]) == w1;
    assert w1.live == map[0 := Message("sessions", 0, "monday")];
    assert w2.live == map[0 := Message("sessions", 0, "tuesday")];
    assert Run(Start(now), [e0, e1, e2]) == w2;
  }
}
