/** The messages that carry the paged lists, over every run of posts, ticks, clicks and modal submits. */
module ListMessages {
  import opened Basics
  import opened ButtonIds
  import opened ButtonIdProofs
  import opened ListAnswers

  datatype Kind = Board | Snapshot | Private(owner: User)

  /** `past` are the ids the message ever carried, which is what a click may bring; `viewers` those whose
      own rows it ever showed. */
  datatype Message = Message(kind: Kind, ids: seq<string>, past: set<string>, viewers: set<User>)

  datatype Event =
    | SessionsCommand(user: User, data: Page)
    | TournamentsCommand(user: User, data: Page)
    | SessionPostCommand(user: User, data: Page)
    | BoardPost(data: Page)
    | BoardEdit(message: nat, data: Page)
    | Click(message: nat, id: string, user: User, data: Page)
    | Submit(id: string, user: User, data: Page, asked: bool)

  function SetOf(ids: seq<string>): set<string> {
    set id | id in ids
  }

  function Fresh(kind: Kind, ids: seq<string>, viewers: set<User>): Message {
    Message(kind, ids, SetOf(ids), viewers)
  }

  function Edited(m: Message, ids: seq<string>, viewers: set<User>): Message {
    Message(m.kind, ids, m.past + SetOf(ids), m.viewers + viewers)
  }

  /** What an answer makes of the messages; only a click has a message for it to edit. */
  function Apply(w: seq<Message>, user: User, r: Response): seq<Message> {
    match r
    case Reply(public, ids, viewers) => w + [Fresh(if public then Snapshot else Private(user), ids, viewers)]
    case _ => w
  }

  /** Discord delivers a click only from somebody who can see the message, with an id it carried. */
  predicate Delivered(w: seq<Message>, e: Event)
    requires e.Click?
  {
    && e.message < |w| && e.id in w[e.message].past
    && (w[e.message].kind.Private? ==> w[e.message].kind.owner == e.user)
  }

  function Step(w: seq<Message>, e: Event): seq<Message> {
    match e
    case SessionsCommand(user, d) => Apply(w, user, OnSessions(user, d))
    case TournamentsCommand(user, d) => Apply(w, user, OnTournaments(user, d))
    case SessionPostCommand(user, d) => Apply(w, user, OnSessionPost(d))
    case BoardPost(d) => w + [Fresh(Board, SessionBoardWall(d), {None})]
    case BoardEdit(m, d) =>
      if m < |w| && w[m].kind.Board? then w[m := Edited(w[m], SessionBoardWall(d), {None})] else w
    case Click(m, id, user, d) =>
      if !Delivered(w, e) then w
      else
        var r := OnClick(id, user, d);
        if r.Edit? then w[m := Edited(w[m], r.ids, r.viewers)] else Apply(w, user, r)
    case Submit(id, user, d, asked) => Apply(w, user, OnSubmit(id, user, d, asked))
  }

  function Run(events: seq<Event>): seq<Message> {
    if events == [] then [] else Step(Run(events[..|events| - 1]), events[|events| - 1])
  }

  // ----- the invariant -----

  ghost predicate AllOrigin(ids: set<string>, o: Origin) {
    forall id :: id in ids ==> OriginOf(id) == o
  }

  /** A public message carries public ids and nobody's rows; a private one shows its owner's. */
  ghost predicate Safe(m: Message) {
    if m.kind.Private? then m.viewers <= {m.kind.owner}
    else AllOrigin(m.past, P) && m.viewers <= {None}
  }

  ghost predicate AllSafe(w: seq<Message>) {
    forall i :: 0 <= i < |w| ==> Safe(w[i])
  }

  lemma ListOrigin(word: string, o: Origin, d: Page, withLocations: bool, id: string)
    requires IsListWord(word) && id in ListIds(word, o, d, withLocations)
    ensures OriginOf(id) == o
  {
    var ids := ListIds(word, o, d, withLocations);
    var i :| 0 <= i < |ids| && ids[i] == id;
    ListIsItsControls(word, o, d, withLocations, i);
    ControlReads(word, o, d, Controls(d, withLocations)[i]);
  }

  /** Neither public render writes a private id. */
  lemma PublicRenders(d: Page)
    ensures AllOrigin(SetOf(SessionBoardWall(d)), P)
    ensures AllOrigin(SetOf(SessionPostBoard(d)), P)
  {
    forall id | id in ListIds(SESSION_BOARD, P, d, true) ensures OriginOf(id) == P {
      ListOrigin(SESSION_BOARD, P, d, true, id);
    }
  }

  /** An answer edits only what a private id was clicked on, and shows nobody else's rows. */
  lemma ClickAnswers(id: string, user: User, d: Page)
    ensures
      var r := OnClick(id, user, d);
      && (r.Edit? ==> OriginOf(id) == E && r.viewers <= {user})
      && (r.Reply? ==> !r.public && r.viewers <= {user})
  {
  }

  lemma SubmitAnswers(id: string, user: User, d: Page, asked: bool)
    ensures
      var r := OnSubmit(id, user, d, asked);
      !r.Edit? && (r.Reply? ==> !r.public && r.viewers <= {user})
  {
  }

  lemma ClickIsSafe(w: seq<Message>, e: Event)
    requires AllSafe(w) && e.Click?
    ensures AllSafe(Step(w, e))
  {
    ClickAnswers(e.id, e.user, e.data);
    if Delivered(w, e) && OnClick(e.id, e.user, e.data).Edit? {
      var m := w[e.message];
      assert Safe(m);
      assert e.id in m.past && OriginOf(e.id) == E;
      assert !AllOrigin(m.past, P);
    }
  }

  lemma PostIsSafe(w: seq<Message>, e: Event)
    requires AllSafe(w) && (e.BoardPost? || e.BoardEdit? || e.SessionPostCommand?)
    ensures AllSafe(Step(w, e))
  {
    PublicRenders(e.data);
    if e.BoardEdit? && e.message < |w| {
      assert Safe(w[e.message]);
    }
  }

  lemma StepIsSafe(w: seq<Message>, e: Event)
    requires AllSafe(w)
    ensures AllSafe(Step(w, e))
  {
    match e
    case Click(_, _, _, _) => ClickIsSafe(w, e);
    case Submit(id, user, d, asked) => SubmitAnswers(id, user, d, asked);
    case BoardPost(_) => PostIsSafe(w, e);
    case BoardEdit(_, _) => PostIsSafe(w, e);
    case SessionPostCommand(_, _) => PostIsSafe(w, e);
    case SessionsCommand(_, _) =>
    case TournamentsCommand(_, _) =>
  }

  lemma {:induction false} RunIsSafe(events: seq<Event>)
    ensures AllSafe(Run(events))
  {
    if events != [] {
      RunIsSafe(events[..|events| - 1]);
      StepIsSafe(Run(events[..|events| - 1]), events[|events| - 1]);
    }
  }

  // ----- what readers are promised -----

  /** A message that ever carried a private id is private. */
  lemma PrivateIdsSitOnPrivateMessages(events: seq<Event>, i: nat, id: string)
    requires i < |Run(events)| && id in Run(events)[i].past && OriginOf(id) == E
    ensures Run(events)[i].kind.Private?
  {
    RunIsSafe(events);
    assert Safe(Run(events)[i]);
  }

  /** No click and no modal ever changes a message that others can see. */
  lemma ClicksLeavePublicMessagesAlone(events: seq<Event>, e: Event, i: nat)
    requires (e.Click? || e.Submit?) && i < |Run(events)| && !Run(events)[i].kind.Private?
    ensures i < |Run(events + [e])| && Run(events + [e])[i] == Run(events)[i]
  {
    assert (events + [e])[..|events|] == events;
    RunIsSafe(events);
    if e.Click? {
      ClickAnswers(e.id, e.user, e.data);
      if e.message == i && Delivered(Run(events), e) {
        assert Safe(Run(events)[i]);
        assert OriginOf(e.id) == P;
      }
    } else {
      SubmitAnswers(e.id, e.user, e.data, e.asked);
    }
  }

  /** Rows fetched for one member are shown on no message that another can read. */
  lemma RowsStayWithTheirReader(events: seq<Event>, i: nat, viewer: User)
    requires i < |Run(events)| && viewer in Run(events)[i].viewers
    ensures
      var kind := Run(events)[i].kind;
      if kind.Private? then viewer == kind.owner else viewer == None
  {
    RunIsSafe(events);
    assert Safe(Run(events)[i]);
  }

  // ----- what clicks and commands do -----

  /** A message of one reader's own: this list at this page, or a line that there is nothing on it. */
  ghost predicate ShowsPage(m: Message, user: User, word: string, d: Page) {
    && m.kind == Private(user)
    && if d.rows == 0 then m.ids == [] && m.viewers == {} else IsPrivateList(word, d, m.ids) && user in m.viewers
  }

  /** A new private message with the page. */
  ghost predicate Answered(w: seq<Message>, w': seq<Message>, user: User, word: string, d: Page) {
    |w'| == |w| + 1 && w'[..|w|] == w && ShowsPage(w'[|w|], user, word, d)
  }

  /** The page of one message is turned, and no other message changes. */
  ghost predicate Turned(w: seq<Message>, w': seq<Message>, m: nat, user: User, word: string, d: Page) {
    && m < |w| == |w'| && w'[..m] == w[..m] && w'[m + 1..] == w[m + 1..]
    && w[m].kind == Private(user) && ShowsPage(w'[m], user, word, d)
  }

  lemma ListClickTurns(w: seq<Message>, e: Event, word: string, o: Origin)
    requires e.Click? && Delivered(w, e)
    requires AnswersWithList(word, o, e.user, e.data, OnClick(e.id, e.user, e.data))
    requires o == E ==> w[e.message].kind.Private?
    ensures if o == E && e.data.rows > 0 then Turned(w, Step(w, e), e.message, e.user, word, e.data)
            else Answered(w, Step(w, e), e.user, word, e.data)
  {
  }

  /** Previous and next, clicked on a private list by its reader, turn that message's page; clicked on a public one
      they answer with a private copy. When the page is empty the click is answered and nothing turned. */
  lemma PagersTurnPages(events: seq<Event>, m: nat, user: User, word: string, o: Origin, at: Page, a: Action, d: Page)
    requires IsListWord(word) && a in {Prev, Next}
    requires Delivered(Run(events), Click(m, ControlId(word, o, at, a), user, d))
    ensures
      var w, w' := Run(events), Run(events + [Click(m, ControlId(word, o, at, a), user, d)]);
      if o == E && d.rows > 0 then Turned(w, w', m, user, word, d) else Answered(w, w', user, word, d)
  {
    var e := Click(m, ControlId(word, o, at, a), user, d);
    assert (events + [e])[..|events|] == events;
    PagersAnswer(word, o, at, a, user, d);
    if o == E {
      ControlReads(word, o, at, a);
      PrivateIdsSitOnPrivateMessages(events, m, e.id);
    }
    ListClickTurns(Run(events), e, word, o);
  }

  /** The commands show their caller a page. */
  lemma CommandsShow(events: seq<Event>, user: User, d: Page)
    ensures Answered(Run(events), Run(events + [SessionsCommand(user, d)]), user, SESSION_PAGE, d)
    ensures Answered(Run(events), Run(events + [TournamentsCommand(user, d)]), user, TOURNAMENT_PAGE, d)
  {
    assert (events + [SessionsCommand(user, d)])[..|events|] == events;
    assert (events + [TournamentsCommand(user, d)])[..|events|] == events;
    CommandsAnswer(user, d);
  }

  ghost predicate IsPublicList(m: Message, kind: Kind, d: Page) {
    && m.kind == kind && None in m.viewers && |m.ids| == |Controls(d, true)|
    && forall i :: 0 <= i < |m.ids| ==> m.ids[i] == ControlId(SESSION_BOARD, P, d, Controls(d, true)[i])
  }

  /** The public messages: the snapshot, the board when it is posted, and the board when it is edited. */
  lemma PublicMessagesShow(events: seq<Event>, d: Page, m: nat)
    ensures
      var w := Run(events);
      && |Run(events + [BoardPost(d)])| == |w| + 1 && IsPublicList(Run(events + [BoardPost(d)])[|w|], Board, d)
      && (d.rows > 0 ==>
          |Run(events + [SessionPostCommand(None, d)])| == |w| + 1
          && IsPublicList(Run(events + [SessionPostCommand(None, d)])[|w|], Snapshot, d))
      && (m < |w| && w[m].kind.Board? ==>
          |Run(events + [BoardEdit(m, d)])| == |w| && IsPublicList(Run(events + [BoardEdit(m, d)])[m], Board, d))
  {
    assert (events + [BoardPost(d)])[..|events|] == events;
    assert (events + [SessionPostCommand(None, d)])[..|events|] == events;
    assert (events + [BoardEdit(m, d)])[..|events|] == events;
    PublicList(d);
    assert SessionBoardWall(d) == SessionPostBoard(d);
  }
}
