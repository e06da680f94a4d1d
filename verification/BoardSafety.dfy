/** At most one board per row lifetime, through every run. */
module BoardSafety {
  import opened Basics
  import opened SessionBoard

  predicate Exists(w: World, m: MessageId) {
    m in w.live || m in w.floating
  }

  function MessageOf(w: World, m: MessageId): Message
    requires Exists(w, m)
  {
    if m in w.live then w.live[m] else w.floating[m]
  }

  /** `m` was posted since the last whole-row clear and is live, or may become live. */
  predicate Current(w: World, m: MessageId) {
    Exists(w, m) && MessageOf(w, m).lifetime == |w.clears|
  }

  /** The only ways a clear can leave its board behind. */
  predicate Excused(c: Clearing, m: MessageId) {
    if c.row.messageId.Some? then c.row.messageId.value == m && !c.deleteConfirmed else c.row.pending
  }

  /** What the row says about the boards that exist. */
  ghost predicate RowCovers(w: World) {
    match w.row
    case None => forall m: MessageId :: !Current(w, m)
    case Some(r) =>
      if r.messageId.Some? then
        && !r.pending
        && r.fingerprint.Some?
        && r.messageId.value < w.next
        && r.messageId.value !in w.floating
        && (r.messageId.value in w.live ==> Current(w, r.messageId.value))
        && forall m: MessageId :: Current(w, m) ==> m == r.messageId.value
      else if r.pending then forall m: MessageId, m': MessageId :: Current(w, m) && Current(w, m') ==> m == m'
      else forall m: MessageId :: !Current(w, m)
  }

  ghost predicate Safe(w: World) {
    && RowCovers(w)
    && (forall m: MessageId :: Exists(w, m) ==> m < w.next && MessageOf(w, m).lifetime <= |w.clears|)
    && (forall m: MessageId :: m in w.live ==> m !in w.floating)
    && forall m: MessageId :: Exists(w, m) && MessageOf(w, m).lifetime < |w.clears|
         ==> Excused(w.clears[MessageOf(w, m).lifetime], m)
  }


  /** No message appears or changes lifetime, no row lifetime ends. */
  ghost predicate Fewer(w: World, w': World) {
    && w'.clears == w.clears
    && w'.next == w.next
    && (forall m: MessageId :: m in w'.live ==> m !in w'.floating)
    && (forall m: MessageId :: m in w'.floating ==> m in w.floating)
    && forall m: MessageId :: Exists(w', m) ==> Exists(w, m) && MessageOf(w', m).lifetime == MessageOf(w, m).lifetime
  }

  lemma FewerIsSafe(w: World, w': World)
    requires Safe(w) && Fewer(w, w') && w'.row == w.row
    ensures Safe(w')
    ensures forall m: MessageId :: Current(w', m) ==> Current(w, m)
  {
    assert forall m: MessageId :: Current(w', m) ==> Current(w, m);
  }

  lemma MeddledIsSafe(w: World, act: Act)
    requires Safe(w)
    ensures Safe(Meddled(w, act)) && Fewer(w, Meddled(w, act))
    ensures var w' := Meddled(w, act);
            w.now <= w'.now && w' == w.(setting := w'.setting, live := w'.live, floating := w'.floating, now := w'.now)
    ensures forall m: MessageId :: Exists(Meddled(w, act), m) ==> MessageOf(Meddled(w, act), m) == MessageOf(w, m)
  {
    FewerIsSafe(w, Meddled(w, act));
  }

  /** Nobody outside the process touches the row or the history. */
  lemma {:induction false} MeddlingIsSafe(w: World, acts: seq<Act>)
    requires Safe(w)
    ensures Safe(Meddling(w, acts))
    ensures Fewer(w, Meddling(w, acts))
    ensures var w' := Meddling(w, acts);
            w.now <= w'.now && w' == w.(setting := w'.setting, live := w'.live, floating := w'.floating, now := w'.now)
    ensures forall m: MessageId :: Exists(Meddling(w, acts), m) ==> MessageOf(Meddling(w, acts), m) == MessageOf(w, m)
    decreases acts
  {
    if acts != [] {
      MeddledIsSafe(w, acts[0]);
      MeddlingIsSafe(Meddled(w, acts[0]), acts[1..]);
    }
  }

  /** A row write is safe when the new row says the truth about the boards. */
  lemma WriteIsSafe(w: World, row: Row, r: WriteReply)
    requires Safe(w) && RowCovers(w.(row := Some(row)))
    ensures Safe(AfterWrite(w, row, r))
    ensures Fewer(w, AfterWrite(w, row, r))
  {
    var w', claimed := AfterWrite(w, row, r), w.(row := Some(row));
    assert forall m: MessageId :: Exists(w', m) ==> Exists(w, m) && MessageOf(w', m) == MessageOf(w, m);
    assert forall m: MessageId :: Current(w', m) ==> Current(w, m) && Current(claimed, m);
  }

  lemma NoneCurrent(w: World, w': World)
    requires Fewer(w, w') && forall m: MessageId :: !Current(w, m)
    ensures forall m: MessageId :: !Current(w', m)
  {
    assert forall m: MessageId :: Current(w', m) ==> Current(w, m);
  }

  lemma ClearIsSafe(w: World, row: Row, confirmed: bool, r: WriteReply)
    requires Safe(w) && w.row == Some(row)
    requires confirmed ==> row.messageId.Some? && !Exists(w, row.messageId.value)
    ensures Safe(AfterClear(w, row, confirmed, r))
  {
    var w' := AfterClear(w, row, confirmed, r);
    assert forall m: MessageId :: Exists(w', m) ==> Exists(w, m) && MessageOf(w', m) == MessageOf(w, m);
    forall m: MessageId | Exists(w', m) && MessageOf(w', m).lifetime < |w'.clears|
      ensures Excused(w'.clears[MessageOf(w', m).lifetime], m)
    {
      assert MessageOf(w', m) == MessageOf(w, m);
      if MessageOf(w, m).lifetime == |w.clears| {
        assert Current(w, m);
      }
    }
  }

  lemma RetireIsSafe(w: World, row: Row, a: Answers, outcome: Outcome)
    requires Safe(w) && w.row == Some(row)
    ensures Safe(Retire(w, row, a, outcome).0)
  {
    var w2 := w;
    if row.messageId.Some? {
      MeddlingIsSafe(w, a.delete.before);
      var w1 := Meddling(w, a.delete.before);
      w2 := AfterDelete(w1, row.messageId.value, a.delete.answer);
      FewerIsSafe(w1, w2);
    }
    MeddlingIsSafe(w2, a.store.before);
    var confirmed := row.messageId.Some? && a.delete.answer.Deleted?;
    ClearIsSafe(Meddling(w2, a.store.before), row, confirmed, a.store.answer);
  }

  /** A post when nothing is current: the new message is the only current one. */
  lemma PostingIsSafe(w: World, marked: Row, isRepost: bool, render: Render, r: PostReply)
    requires marked.postedAt.Some? && marked.repostWindowStart.Some?
    requires Safe(w) && IsStuck(w.row) && forall m: MessageId :: !Current(w, m)
    ensures var w' := AfterPost(w, marked, isRepost, render, r);
            && Safe(w')
            && (forall m: MessageId :: Current(w', m) ==> m == w.next && PostLanding(r) != Never)
            && (PostLanding(r) == Now ==> w.next !in w'.floating)
            && w'.row == w.row
  {
    var w' := AfterPost(w, marked, isRepost, render, r);
    assert !Exists(w, w.next);
    assert forall m: MessageId :: Exists(w', m) && m != w.next ==> Exists(w, m) && MessageOf(w', m) == MessageOf(w, m);
    forall m: MessageId | Current(w', m) ensures m == w.next && PostLanding(r) != Never {
      assert !Current(w, m);
    }
  }

  /** Rewriting the fields of a row that names its message keeps it truthful. */
  lemma FewerCovers(w: World, w': World)
    requires RowCovers(w) && Fewer(w, w') && w.row.Some? && w.row.value.messageId.Some?
    requires w'.row.Some? && w'.row.value.messageId == w.row.value.messageId
    requires !w'.row.value.pending && w'.row.value.fingerprint.Some?
    ensures RowCovers(w')
  {
    assert forall m: MessageId :: Current(w', m) ==> Current(w, m);
    assert forall m: MessageId :: m in w'.live ==> Exists(w', m) && Exists(w, m);
  }

  lemma EditedIsSafe(w: World, m: MessageId, render: Render, answer: EditReply)
    requires Safe(w)
    ensures Safe(AfterEdit(w, m, render, answer))
    ensures Fewer(w, AfterEdit(w, m, render, answer))
    ensures AfterEdit(w, m, render, answer).row == w.row
  {
    FewerIsSafe(w, AfterEdit(w, m, render, answer));
  }

  lemma SettleIsSafe(w: World, row: Row, m: MessageId, render: Render, answer: EditReply, store: Await<WriteReply>)
    requires Safe(w) && w.row == Some(row) && row.messageId == Some(m)
    requires answer.EditGone? ==> m !in w.live
    ensures Safe(Settle(w, row, render, answer, store).0)
  {
    MeddlingIsSafe(w, store.before);
    var w1 := Meddling(w, store.before);
    if answer.EditOk? {
      var row' := row.(fingerprint := Some(Fingerprint(render)), pending := false);
      FewerCovers(w1, w1.(row := Some(row')));
      WriteIsSafe(w1, row', store.answer);
    } else if answer.EditGone? {
      assert !Exists(w, m) && !Exists(w1, m);
      NoneCurrent(w1, w1.(row := Some(ClearMessage(row)))) by {
        assert forall k: MessageId :: Current(w1, k) ==> k == m;
      }
      WriteIsSafe(w1, ClearMessage(row), store.answer);
    }
  }

  lemma EditIsSafe(w: World, row: Row, m: MessageId, render: Render, a: Answers)
    requires Safe(w) && w.row == Some(row) && row.messageId == Some(m)
    ensures Safe(Edit(w, row, m, render, a).0)
  {
    MeddlingIsSafe(w, a.edit.before);
    var w1 := Meddling(w, a.edit.before);
    var answer := EditAnswer(w1, m, a.edit.answer);
    EditedIsSafe(w1, m, render, answer);
    SettleIsSafe(AfterEdit(w1, m, render, answer), row, m, render, answer, a.store);
  }

  /** Recording the one message that may be current: `w2` is right after its post, `w3` before the row is written. */
  lemma RecordedCovers(w2: World, w3: World, row: Row, m: MessageId)
    requires Safe(w2) && Fewer(w2, w3) && m < w2.next && m !in w2.floating
    requires forall k: MessageId :: Current(w2, k) ==> k == m
    requires m in w2.live ==> w2.live[m].lifetime == |w2.clears|
    requires row.messageId == Some(m) && !row.pending && row.fingerprint.Some?
    ensures RowCovers(w3.(row := Some(row)))
  {
    var w4 := w3.(row := Some(row));
    assert forall k: MessageId :: Current(w4, k) ==> Current(w3, k) && Current(w2, k);
    assert m in w4.live ==> Exists(w3, m) && Exists(w2, m);
  }

  /** From right after a post of `m` that may have made one: what the row is written back as. */
  lemma RecordingIsSafe(w2: World, marked: Row, row: Row, m: MessageId, created: bool, store: Await<WriteReply>)
    requires Safe(w2) && (forall k: MessageId :: Current(w2, k) ==> k == m && created)
    requires marked.messageId.None? && !row.pending
    requires if created then row.messageId == Some(m) && row.fingerprint.Some? else row.messageId.None?
    requires created ==> m < w2.next && m !in w2.floating && m in w2.live && w2.live[m].lifetime == |w2.clears|
    ensures Safe(AfterWrite(Meddling(w2, store.before), row, store.answer))
  {
    MeddlingIsSafe(w2, store.before);
    var w3 := Meddling(w2, store.before);
    if created {
      RecordedCovers(w2, w3, row, m);
    } else {
      NoneCurrent(w2, w3);
      NoneCurrent(w3, w3.(row := Some(row)));
    }
    WriteIsSafe(w3, row, store.answer);
  }

  lemma SendIsSafe(w: World, marked: Row, isRepost: bool, render: Render, a: Answers)
    requires Safe(w) && w.row == Some(marked) && IsStuck(w.row) && forall m: MessageId :: !Current(w, m)
    requires marked.postedAt.Some? && marked.repostWindowStart.Some?
    ensures Safe(Send(w, marked, isRepost, render, a).0)
  {
    MeddlingIsSafe(w, a.post.before);
    var w1 := Meddling(w, a.post.before);
    NoneCurrent(w, w1);
    PostingIsSafe(w1, marked, isRepost, render, a.post.answer);
    var w2 := AfterPost(w1, marked, isRepost, render, a.post.answer);
    if a.post.answer.Refused? {
      RecordingIsSafe(w2, marked, marked.(pending := false), w1.next, false, a.store);
    } else if a.post.answer.Created? {
      var row' := marked.(messageId := Some(w1.next), pending := false, fingerprint := Some(Fingerprint(render)),
                          reposts := if isRepost then marked.reposts + 1 else marked.reposts);
      RecordingIsSafe(w2, marked, row', w1.next, true, a.store);
    }
  }

  /** The pending marker goes down when no board is current, and may not go down at all. */
  lemma MarkIsSafe(w: World, marked: Row, mark: Await<WriteReply>)
    requires Safe(w) && (w.row.Some? ==> w.row.value.messageId.None? && !w.row.value.pending)
    requires marked.messageId.None? && marked.pending
    ensures var w' := AfterWrite(Meddling(w, mark.before), marked, mark.answer);
            Safe(w') && forall m: MessageId :: !Current(w', m)
  {
    MeddlingIsSafe(w, mark.before);
    var w1 := Meddling(w, mark.before);
    NoneCurrent(w, w1);
    NoneCurrent(w1, w1.(row := Some(marked)));
    WriteIsSafe(w1, marked, mark.answer);
    NoneCurrent(w1, AfterWrite(w1, marked, mark.answer));
  }

  lemma PostIsSafe(w: World, row: Option<Row>, channel: Channel, render: Render, a: Answers)
    requires Safe(w) && w.row == row && !IsStuck(row) && (row.Some? ==> row.value.messageId.None?)
    ensures Safe(Post(w, row, channel, render, a).0)
  {
    var (reposts, window) := Budget(row, w.now);
    var marked := Row(channel, None, true, None, Some(w.now), reposts, Some(window));
    MarkIsSafe(w, marked, a.mark);
    if a.mark.answer.Stored? {
      SendIsSafe(AfterWrite(Meddling(w, a.mark.before), marked, a.mark.answer), marked, row.Some?, render, a);
    }
  }

  lemma TickIsSafe(w: World, a: Answers)
    requires Safe(w)
    ensures Safe(Tick(w, a).0)
  {
    MeddlingIsSafe(w, a.board.before);
    var w1 := Meddling(w, a.board.before);
    if w1.row.Some? {
      RetireIsSafe(w1, w1.row.value, a, Retracted);
      RetireIsSafe(w1, w1.row.value, a, Moved);
    }
    MeddlingIsSafe(w1, a.schedule.before);
    var w2 := Meddling(w1, a.schedule.before);
    if a.schedule.answer.Some? {
      var render := a.schedule.answer.value.render;
      if w1.row.Some? && w1.row.value.messageId.Some? {
        EditIsSafe(w2, w1.row.value, w1.row.value.messageId.value, render, a);
      } else if w1.setting.Some? && !IsStuck(w1.row) {
        PostIsSafe(w2, w1.row, w1.setting.value, render, a);
      }
    }
  }

  lemma {:induction false} RunIsSafe(events: seq<Event>, now: int)
    ensures Safe(Run(Start(now), events))
  {
    if events != [] {
      var before := events[..|events| - 1];
      RunIsSafe(before, now);
      match events[|events| - 1]
      case Ticked(a) => TickIsSafe(Run(Start(now), before), a);
      case Outside(act) => MeddledIsSafe(Run(Start(now), before), act);
    }
  }

  /** Whatever Discord, the store and people do, and wherever the process dies: of the messages posted
      since the last whole-row clear at most one is live or may still land. */
  lemma AtMostOneBoard(events: seq<Event>, now: int, m: MessageId, m': MessageId)
    ensures var w := Run(Start(now), events); Current(w, m) && Current(w, m') ==> m == m'
  {
    RunIsSafe(events, now);
  }

  /** A board older than the last clear is live only if Discord did not confirm the delete before that
      clear, or the row then cleared was an unconfirmed post. */
  lemma OldBoardsAreExcused(events: seq<Event>, now: int, m: MessageId)
    requires var w := Run(Start(now), events); Exists(w, m) && !Current(w, m)
    ensures var w := Run(Start(now), events);
            var lifetime := MessageOf(w, m).lifetime;
            && lifetime < |w.clears|
            && var c := w.clears[lifetime];
               if c.row.messageId.Some? then c.row.messageId.value == m && !c.deleteConfirmed
               else IsStuck(Some(c.row))
  {
    RunIsSafe(events, now);
  }
}
