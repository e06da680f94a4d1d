/** The session board (apps/bot/src/session-board.ts): one Discord message, kept current by ticks
    over a stored row. A tick awaits Discord and the store up to five times. At every await people
    may act, the request may or may not take effect, and the process may die; the answers are
    parameters, so each statement below is about all of them. */
module SessionBoard {
  import opened Basics

  type Channel = string
  type MessageId = nat
  type Render = string

  const MAX_REPOSTS_PER_DAY: nat := 3
  const REPOST_WINDOW_MS := 24 * 60 * 60 * 1000

  /** The hash of a render, taken to be injective. */
  datatype Fingerprint = Fingerprint(of: Render)

  datatype Row = Row(
    channelId: Channel,
    messageId: Option<MessageId>,
    pending: bool,
    fingerprint: Option<Fingerprint>,
    postedAt: Option<int>,
    reposts: nat,
    repostWindowStart: Option<int>)

  /** A message the board created; `lifetime` counts the whole-row clears before it. */
  datatype Message = Message(channel: Channel, lifetime: nat, shows: Render)

  /** A post that created a message, or may have. `at` is the clock reading the row records, `sent` the
      time the request left; a `late` one may create its message at any later time. */
  datatype Posting = Posting(at: int, sent: int, window: int, repost: bool, late: bool)

  /** A whole-row clear: the row it dropped, and whether Discord confirmed the delete before it. */
  datatype Clearing = Clearing(row: Row, deleteConfirmed: bool)

  /** Everything outside the process, with its history. `floating` holds posts whose answer was
      lost and which may still land. `posts` covers the current row lifetime, and `unrecorded` holds
      what edits put on the board since the row was last written. */
  datatype World = World(
    setting: Option<Channel>,
    row: Option<Row>,
    live: map<MessageId, Message>,
    floating: map<MessageId, Message>,
    next: MessageId,
    now: int,
    clears: seq<Clearing>,
    posts: seq<Posting>,
    unrecorded: seq<Render>)

  /** What may happen outside the process at any time. */
  datatype Act =
    | DeleteByHand(m: MessageId)
    | Repoint(setting: Option<Channel>)
    | Land(m: MessageId)
    | Wait(ms: nat)

  datatype Landing = Never | Now | Later
  datatype WriteReply = Stored | Threw(landed: bool) | WriteDied(landed: bool)
  datatype DeleteReply = Deleted | NotDeleted(landed: bool) | DeleteDied(landed: bool)
  datatype EditReply = EditOk | EditGone | EditFailed(landed: bool) | EditDied(landed: bool)
  datatype PostReply = Created | Refused | Unknown(landing: Landing) | PostDied(landing: Landing)

  datatype Await<A> = Await(before: seq<Act>, answer: A)

  /** `data.sessions.length === 0`, and the payload rendered from the data. */
  datatype Schedule = Schedule(empty: bool, render: Render)

  /** The answers one tick gets. A read that throws or dies has no answer. */
  datatype Answers = Answers(
    board: Await<bool>,
    delete: Await<DeleteReply>,
    schedule: Await<Option<Schedule>>,
    edit: Await<EditReply>,
    mark: Await<WriteReply>,
    post: Await<PostReply>,
    store: Await<WriteReply>)

  /** The counter a tick bumps; `Aborted` when it threw or the process died. */
  datatype Outcome =
    | Posted | Edited | Unchanged | Stale | Moved | Retracted | PostRefused | Suppressed | Stuck
    | Skipped | Failed | Aborted

  function Meddled(w: World, act: Act): World {
    match act
    case DeleteByHand(m) => w.(live := w.live - {m})
    case Repoint(setting) => w.(setting := setting)
    case Wait(ms) => w.(now := w.now + ms)
    case Land(m) =>
      if m in w.floating then w.(live := w.live[m := w.floating[m]], floating := w.floating - {m}) else w
  }

  function Meddling(w: World, acts: seq<Act>): World
    decreases acts
  {
    if acts == [] then w else Meddling(Meddled(w, acts[0]), acts[1..])
  }

  /** `!channelId` */
  predicate Unset(setting: Option<Channel>) {
    setting.None? || setting.value == ""
  }

  function ClearMessage(row: Row): Row {
    row.(messageId := None, fingerprint := None, pending := false)
  }

  // ---- The calls, as their effect on the world ----

  predicate WriteLands(r: WriteReply) {
    r.Stored? || r.landed
  }

  function AfterWrite(w: World, row: Row, r: WriteReply): World {
    if WriteLands(r) then w.(row := Some(row), unrecorded := []) else w
  }

  function AfterClear(w: World, dropped: Row, deleteConfirmed: bool, r: WriteReply): World {
    if WriteLands(r)
    then w.(row := None, clears := w.clears + [Clearing(dropped, deleteConfirmed)], posts := [], unrecorded := [])
    else w
  }

  /** A true answer (ok, 204 or 404) means the message is gone. */
  function AfterDelete(w: World, m: MessageId, r: DeleteReply): World {
    if r.Deleted? || r.landed then w.(live := w.live - {m}) else w
  }

  /** Discord answers ok only for a message that exists and 404 only for one that does not. */
  function EditAnswer(w: World, m: MessageId, r: EditReply): EditReply {
    match r
    case EditOk => if m in w.live then EditOk else EditGone
    case EditGone => if m in w.live then EditFailed(false) else EditGone
    case _ => r
  }

  predicate EditLands(r: EditReply) {
    r.EditOk? || (!r.EditGone? && r.landed)
  }

  function AfterEdit(w: World, m: MessageId, render: Render, r: EditReply): World {
    if m in w.live && EditLands(r)
    then w.(live := w.live[m := w.live[m].(shows := render)], unrecorded := w.unrecorded + [render])
    else w
  }

  function PostLanding(r: PostReply): Landing {
    match r
    case Created => Now
    case Refused => Never
    case Unknown(landing) => landing
    case PostDied(landing) => landing
  }

  /** The post that `marked` announced, sent now. */
  function PostingOf(marked: Row, sent: int, isRepost: bool, r: PostReply): Posting
    requires marked.postedAt.Some? && marked.repostWindowStart.Some?
  {
    Posting(marked.postedAt.value, sent, marked.repostWindowStart.value, isRepost, PostLanding(r) == Later)
  }

  function AfterPost(w: World, marked: Row, isRepost: bool, render: Render, r: PostReply): World
    requires marked.postedAt.Some? && marked.repostWindowStart.Some?
  {
    var message := Message(marked.channelId, |w.clears|, render);
    var posting := PostingOf(marked, w.now, isRepost, r);
    match PostLanding(r)
    case Never => w
    case Now => w.(live := w.live[w.next := message], next := w.next + 1, posts := w.posts + [posting])
    case Later => w.(floating := w.floating[w.next := message], next := w.next + 1, posts := w.posts + [posting])
  }

  // ---- One tick ----

  /** The off switch and the move: delete, ignore the answer, drop the whole row. */
  function Retire(w: World, row: Row, a: Answers, outcome: Outcome): (World, Outcome) {
    var w1 := Meddling(w, a.delete.before);
    var w2 := if row.messageId.Some? then AfterDelete(w1, row.messageId.value, a.delete.answer) else w;
    if row.messageId.Some? && a.delete.answer.DeleteDied? then (w2, Aborted) else
    var w3 := AfterClear(Meddling(w2, a.store.before), row,
                         row.messageId.Some? && a.delete.answer.Deleted?, a.store.answer);
    (w3, if a.store.answer.Stored? then outcome else Aborted)
  }

  function Edit(w: World, row: Row, m: MessageId, render: Render, a: Answers): (World, Outcome) {
    if row.fingerprint == Some(Fingerprint(render)) then (w, Unchanged) else
    var w1 := Meddling(w, a.edit.before);
    var answer := EditAnswer(w1, m, a.edit.answer);
    Settle(AfterEdit(w1, m, render, answer), row, render, answer, a.store)
  }

  /** What an edit's answer leaves in the row. */
  function Settle(w: World, row: Row, render: Render, answer: EditReply, store: Await<WriteReply>): (World, Outcome) {
    match answer
    case EditFailed(_) => (w, Failed)
    case EditDied(_) => (w, Aborted)
    case EditOk =>
      (AfterWrite(Meddling(w, store.before),
                  row.(fingerprint := Some(Fingerprint(render)), pending := false), store.answer),
       if store.answer.Stored? then Edited else Aborted)
    case EditGone =>
      (AfterWrite(Meddling(w, store.before), ClearMessage(row), store.answer),
       if store.answer.Stored? then Stale else Aborted)
  }

  /** Whether the repost window has run out, or was never recorded. */
  predicate WindowOver(row: Row, now: int) {
    row.repostWindowStart.None? || now - row.repostWindowStart.value > REPOST_WINDOW_MS
  }

  /** The counters a post at `now` starts from. */
  function Budget(row: Option<Row>, now: int): (nat, int) {
    match row
    case None => (0, now)
    case Some(r) => if WindowOver(r, now) then (0, now) else (r.reposts, r.repostWindowStart.value)
  }

  function Post(w: World, row: Option<Row>, channel: Channel, render: Render, a: Answers): (World, Outcome) {
    var (reposts, window) := Budget(row, w.now);
    if row.Some? && reposts >= MAX_REPOSTS_PER_DAY then (w, Suppressed) else
    var marked := Row(channel, None, true, None, Some(w.now), reposts, Some(window));
    var w1 := AfterWrite(Meddling(w, a.mark.before), marked, a.mark.answer);
    if !a.mark.answer.Stored? then (w1, if a.mark.answer.Threw? then Failed else Aborted) else
    Send(w1, marked, row.Some?, render, a)
  }

  /** The post itself, once the pending marker is down. */
  function Send(w: World, marked: Row, isRepost: bool, render: Render, a: Answers): (World, Outcome)
    requires marked.postedAt.Some? && marked.repostWindowStart.Some?
  {
    var w1 := Meddling(w, a.post.before);
    var w2 := AfterPost(w1, marked, isRepost, render, a.post.answer);
    match a.post.answer
    case Unknown(_) => (w2, Failed)
    case PostDied(_) => (w2, Aborted)
    case Refused =>
      (AfterWrite(Meddling(w2, a.store.before), marked.(pending := false), a.store.answer),
       if a.store.answer.Stored? then PostRefused else Aborted)
    case Created =>
      (AfterWrite(Meddling(w2, a.store.before),
                  marked.(messageId := Some(w1.next), pending := false, fingerprint := Some(Fingerprint(render)),
                          reposts := if isRepost then marked.reposts + 1 else marked.reposts), a.store.answer),
       if a.store.answer.WriteDied? then Aborted else Posted)
  }

  predicate IsStuck(row: Option<Row>) {
    row.Some? && row.value.pending && row.value.messageId.None?
  }

  function Tick(w: World, a: Answers): (World, Outcome) {
    var w1 := Meddling(w, a.board.before);
    var (setting, row) := (w1.setting, w1.row);
    if !a.board.answer then (w1, Aborted)
    else if Unset(setting) then
      if row.None? then (w1, Skipped) else Retire(w1, row.value, a, Retracted)
    else if IsStuck(row) then (w1, Stuck)
    else if row.Some? && row.value.channelId != setting.value then Retire(w1, row.value, a, Moved)
    else
      var w2 := Meddling(w1, a.schedule.before);
      if a.schedule.answer.None? then (w2, Aborted) else
      var data := a.schedule.answer.value;
      if row.Some? && row.value.messageId.Some? then
        Edit(w2, row.value, row.value.messageId.value, data.render, a)
      else if data.empty then (w2, Skipped)
      else Post(w2, row, setting.value, data.render, a)
  }

  // ---- Runs ----

  datatype Event = Ticked(a: Answers) | Outside(act: Act)

  function Step(w: World, e: Event): World {
    match e
    case Ticked(a) => Tick(w, a).0
    case Outside(act) => Meddled(w, act)
  }

  function Run(w: World, events: seq<Event>): World {
    if events == [] then w else Step(Run(w, events[..|events| - 1]), events[|events| - 1])
  }

  /** Before the club ever set the channel. */
  function Start(now: int): World {
    World(None, None, map[], map[], 0, now, [], [], [])
  }

  // ---- The module itself ----

  /** The process's one variable, and the world its calls reach. */
  class Board {
    var boardInFlight: bool
    var world: World

    constructor (world: World)
      ensures !boardInFlight && this.world == world
    {
      boardInFlight := false;
      this.world := world;
    }

    method Meanwhile(acts: seq<Act>)
      modifies this`world
      ensures world == Meddling(old(world), acts)
    {
      var i := 0;
      while i < |acts|
        invariant i <= |acts|
        invariant Meddling(world, acts[i..]) == Meddling(old(world), acts)
      {
        world := Meddled(world, acts[i]);
        i := i + 1;
      }
    }

    method FetchSessionBoard(a: Await<bool>) returns (setting: Option<Channel>, row: Option<Row>)
      modifies this`world
      ensures world == Meddling(old(world), a.before)
      ensures setting == world.setting && row == world.row
    {
      Meanwhile(a.before);
      setting, row := world.setting, world.row;
    }

    method DeleteMessage(m: MessageId, a: Await<DeleteReply>)
      modifies this`world
      ensures world == AfterDelete(Meddling(old(world), a.before), m, a.answer)
    {
      Meanwhile(a.before);
      world := AfterDelete(world, m, a.answer);
    }

    method EditMessage(m: MessageId, payload: Render, a: Await<EditReply>) returns (answer: EditReply)
      modifies this`world
      ensures var w := Meddling(old(world), a.before);
              && answer == EditAnswer(w, m, a.answer)
              && world == AfterEdit(w, m, payload, answer)
    {
      Meanwhile(a.before);
      answer := EditAnswer(world, m, a.answer);
      world := AfterEdit(world, m, payload, answer);
    }

    method PostMessageResult(marked: Row, isRepost: bool, payload: Render, a: Await<PostReply>)
      returns (id: MessageId)
      requires marked.postedAt.Some? && marked.repostWindowStart.Some?
      modifies this`world
      ensures var w := Meddling(old(world), a.before);
              id == w.next && world == AfterPost(w, marked, isRepost, payload, a.answer)
    {
      Meanwhile(a.before);
      id := world.next;
      world := AfterPost(world, marked, isRepost, payload, a.answer);
    }

    method WriteSessionBoard(row: Row, a: Await<WriteReply>)
      modifies this`world
      ensures world == AfterWrite(Meddling(old(world), a.before), row, a.answer)
    {
      Meanwhile(a.before);
      world := AfterWrite(world, row, a.answer);
    }

    method ForgetSessionBoard(dropped: Row, deleteConfirmed: bool, a: Await<WriteReply>)
      modifies this`world
      ensures world == AfterClear(Meddling(old(world), a.before), dropped, deleteConfirmed, a.answer)
    {
      Meanwhile(a.before);
      world := AfterClear(world, dropped, deleteConfirmed, a.answer);
    }

    /** One tick. A call that arrives while another is running, or without a token, is skipped. */
    method RunSessionBoard(tokenSet: bool, a: Answers) returns (outcome: Outcome)
      modifies this
      ensures old(boardInFlight) || !tokenSet ==> outcome == Skipped && world == old(world)
      ensures !old(boardInFlight) && tokenSet ==> (world, outcome) == Tick(old(world), a)
      ensures boardInFlight == old(boardInFlight)
    {
      if boardInFlight {
        return Skipped;
      }
      boardInFlight := true;
      if tokenSet {
        outcome := TickBody(a);
      } else {
        outcome := Skipped;
      }
      boardInFlight := false;
    }

    method TickBody(a: Answers) returns (outcome: Outcome)
      modifies this`world
      ensures (world, outcome) == Tick(old(world), a)
    {
      var channelId, state := FetchSessionBoard(a.board);
      if !a.board.answer {
        return Aborted;
      }

      if Unset(channelId) {
        if state.None? {
          return Skipped;
        }
        var confirmed := false;
        if state.value.messageId.Some? {
          DeleteMessage(state.value.messageId.value, a.delete);
          if a.delete.answer.DeleteDied? {
            return Aborted;
          }
          confirmed := a.delete.answer.Deleted?;
        }
        ForgetSessionBoard(state.value, confirmed, a.store);
        return if a.store.answer.Stored? then Retracted else Aborted;
      }

      if state.Some? && state.value.pending && state.value.messageId.None? {
        return Stuck;
      }

      if state.Some? && state.value.channelId != channelId.value {
        var confirmed := false;
        if state.value.messageId.Some? {
          DeleteMessage(state.value.messageId.value, a.delete);
          if a.delete.answer.DeleteDied? {
            return Aborted;
          }
          confirmed := a.delete.answer.Deleted?;
        }
        ForgetSessionBoard(state.value, confirmed, a.store);
        return if a.store.answer.Stored? then Moved else Aborted;
      }

      Meanwhile(a.schedule.before);
      if a.schedule.answer.None? {
        return Aborted;
      }
      var data := a.schedule.answer.value;
      var fingerprint := Fingerprint(data.render);

      if data.empty && (state.None? || state.value.messageId.None?) {
        return Skipped;
      }

      if state.Some? && state.value.messageId.Some? {
        if state.value.fingerprint == Some(fingerprint) {
          return Unchanged;
        }
        var answer := EditMessage(state.value.messageId.value, data.render, a.edit);
        if answer.EditOk? {
          WriteSessionBoard(state.value.(fingerprint := Some(fingerprint), pending := false), a.store);
          return if a.store.answer.Stored? then Edited else Aborted;
        }
        if answer.EditGone? {
          WriteSessionBoard(ClearMessage(state.value), a.store);
          return if a.store.answer.Stored? then Stale else Aborted;
        }
        return if answer.EditFailed? then Failed else Aborted;
      }

      outcome := PostBody(channelId.value, state, data.render, a);
    }

    method PostBody(channelId: Channel, state: Option<Row>, payload: Render, a: Answers)
      returns (outcome: Outcome)
      modifies this`world
      ensures (world, outcome) == Post(old(world), state, channelId, payload, a)
    {
      var now := world.now;
      var reposts := if state.Some? then state.value.reposts else 0;
      var repostWindowStart := if state.Some? then state.value.repostWindowStart else None;
      var isRepost := state.Some?;
      if isRepost {
        if repostWindowStart.None? || now - repostWindowStart.value > REPOST_WINDOW_MS {
          reposts := 0;
          repostWindowStart := Some(now);
        }
        if reposts >= MAX_REPOSTS_PER_DAY {
          return Suppressed;
        }
      }

      var pendingState := Row(channelId, None, true, None, Some(now), reposts,
                              Some(repostWindowStart.GetOr(now)));
      WriteSessionBoard(pendingState, a.mark);
      if !a.mark.answer.Stored? {
        return if a.mark.answer.Threw? then Failed else Aborted;
      }

      var id := PostMessageResult(pendingState, isRepost, payload, a.post);
      match a.post.answer {
        case Refused =>
          WriteSessionBoard(pendingState.(pending := false), a.store);
          return if a.store.answer.Stored? then PostRefused else Aborted;
        case Unknown(_) =>
          return Failed;
        case PostDied(_) =>
          return Aborted;
        case Created =>
          WriteSessionBoard(
            pendingState.(messageId := Some(id), pending := false, fingerprint := Some(Fingerprint(payload)),
                          reposts := if isRepost then reposts + 1 else reposts),
            a.store);
          return if a.store.answer.WriteDied? then Aborted else Posted;
      }
    }
  }
}
