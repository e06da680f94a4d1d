/** What each control of a list does when it is used: a list at another page, a modal, or nothing to show. */
module ListAnswers {
  import opened Basics
  import opened ButtonIds
  import opened ButtonIdProofs

  /** The modal a list opens. */
  function ModalOf(word: string): string
    requires IsListWord(word)
  {
    if word == SESSION_PAGE then SESSION_MODAL
    else if word == SESSION_BOARD then SESSION_BOARD_MODAL
    else TOURNAMENT_MODAL
  }

  /** A list of this kind, private to its reader: its own word, its own page, and the location filter where the
      list has one. */
  ghost predicate IsPrivateList(word: string, d: Page, ids: seq<string>) {
    var shown := if word == TOURNAMENT_PAGE then d.(location := None) else d;
    var controls := Controls(shown, word == SESSION_BOARD);
    && |ids| == |controls|
    && forall i :: 0 <= i < |ids| ==> ids[i] == ControlId(word, E, shown, controls[i])
  }

  /** A page of such a list: in place of the private message it was asked for on, as a new private message
      otherwise, and a line of text when there is nothing on it. */
  ghost predicate AnswersWithList(word: string, o: Origin, user: User, d: Page, r: Response) {
    if d.rows == 0 then r == Reply(false, [], {})
    else if o == E then r.Edit? && r.viewers == {user} && IsPrivateList(word, d, r.ids)
    else r.Reply? && !r.public && r.viewers == {user} && IsPrivateList(word, d, r.ids)
  }

  lemma PrivateLists(d: Page)
    ensures IsPrivateList(SESSION_PAGE, d, SessionsBoard(d))
    ensures IsPrivateList(SESSION_BOARD, d, SessionPostCopy(d))
    ensures IsPrivateList(TOURNAMENT_PAGE, d, TournamentsBoard(d))
  {
    forall i: nat | i < |Controls(d, false)|
      ensures SessionsBoard(d)[i] == ControlId(SESSION_PAGE, E, d, Controls(d, false)[i])
    {
      ListIsItsControls(SESSION_PAGE, E, d, false, i);
    }
    ListIsItsControls(SESSION_PAGE, E, d, false, 0);
    forall i: nat | i < |Controls(d, true)|
      ensures SessionPostCopy(d)[i] == ControlId(SESSION_BOARD, E, d, Controls(d, true)[i])
    {
      ListIsItsControls(SESSION_BOARD, E, d, true, i);
    }
    ListIsItsControls(SESSION_BOARD, E, d, true, 0);
    TournamentListIsPrivate(d);
  }

  lemma TournamentListIsPrivate(d: Page)
    ensures IsPrivateList(TOURNAMENT_PAGE, d, TournamentsBoard(d))
  {
    var shown := d.(location := None);
    assert TournamentsBoard(d) == ListIds(TOURNAMENT_PAGE, E, shown, false);
    ListIsItsControls(TOURNAMENT_PAGE, E, shown, false, 0);
    forall i: nat | i < |Controls(shown, false)|
      ensures TournamentsBoard(d)[i] == ControlId(TOURNAMENT_PAGE, E, shown, Controls(shown, false)[i])
    {
      ListIsItsControls(TOURNAMENT_PAGE, E, shown, false, i);
    }
  }

  lemma OneGuard(id: string, word: string)
    requires IsListWord(word) && Guard(id, word)
    ensures forall other: string :: IsListWord(other) && other != word ==> !Guard(id, other)
  {
    AtMostOneGuard(id, 0, 1);
    AtMostOneGuard(id, 0, 2);
    AtMostOneGuard(id, 1, 2);
  }

  /** Previous and next, on every list: the page asked for, of the same list. */
  lemma PagersAnswer(word: string, o: Origin, at: Page, a: Action, user: User, d: Page)
    requires IsListWord(word) && a in {Prev, Next}
    ensures AnswersWithList(word, o, user, d, OnClick(ControlId(word, o, at, a), user, d))
  {
    ControlReads(word, o, at, a);
    OneGuard(ControlId(word, o, at, a), word);
    PrivateLists(d);
  }

  /** The location select of a session board: the first page of the place chosen, with the filter replaced, and no
      filter when nothing was. */
  lemma LocationAnswers(o: Origin, at: Page, values: seq<string>, user: User, d: Page)
    ensures AnswersWithList(SESSION_BOARD, o, user, d, OnClick(ControlId(SESSION_BOARD, o, at, Loc), user, d))
    ensures ClickQuery(ControlId(SESSION_BOARD, o, at, Loc), values) ==
      Query(1, if values == [] || values[0] == "" || values[0] == "-" then None else Some(values[0]))
  {
    ControlReads(SESSION_BOARD, o, at, Loc);
    OneGuard(ControlId(SESSION_BOARD, o, at, Loc), SESSION_BOARD);
    PrivateLists(d);
  }

  lemma LocationSlot(word: string, o: Origin, at: Page, a: Action)
    requires IsListWord(word)
    ensures Slot(ControlId(word, o, at, a), 4, "-") == Split(LocationText(at.location))[0]
    ensures NoColon(Slot(ControlId(word, o, at, a), 4, "-"))
    ensures Carried(at.location) ==> LocationFrom(Slot(ControlId(word, o, at, a), 4, "-")) == at.location
  {
    NumberReads(Max(1, at.page - 1));
    NumberReads(Min(at.totalPages, at.page + 1));
    NumberReads(at.totalPages);
    SlotsOf(word, o, a, ControlNumber(o, at, a), LocationText(at.location));
    LocationReads(at.location);
    FirstSlot(LocationText(at.location));
  }

  lemma ModalReads(word: string, a: Action, loc: string)
    requires IsListWord(word) && NoColon(loc)
    ensures
      var id := ModalId(ModalOf(word), a, loc);
      Guard(id, ModalOf(word)) && ModalActionOf(id) == ActionText(a) && ModalLocationOf(id) == LocationFrom(loc)
  {
    ModalRoundTrip(ModalOf(word), a, loc);
    FirstSlot(loc);
  }

  /** Go and find open the list's own modal, which carries what was asked for and the list's filter. */
  lemma SearchesOpen(word: string, o: Origin, at: Page, a: Action, user: User, d: Page)
    requires IsListWord(word) && a in {Go, Find}
    ensures
      var r := OnClick(ControlId(word, o, at, a), user, d);
      && r.OpenModal? && Guard(r.id, ModalOf(word)) && ModalActionOf(r.id) == ActionText(a)
      && (word == TOURNAMENT_PAGE ==> ModalLocationOf(r.id) == None)
      && (word != TOURNAMENT_PAGE && Carried(at.location) ==> ModalLocationOf(r.id) == at.location)
  {
    var id := ControlId(word, o, at, a);
    ControlReads(word, o, at, a);
    OneGuard(id, word);
    LocationSlot(word, o, at, a);
    FirstSlot(LocationText(at.location));
    var loc := if word == TOURNAMENT_PAGE then "-" else Slot(id, 4, "-");
    assert OnClick(id, user, d) == OpenModal(ModalId(ModalOf(word), a, loc));
    ModalReads(word, a, loc);
  }

  /** An id that none of the lists wrote, and a control a list has not got, change nothing. */
  lemma StrangersAreAcknowledged(id: string, user: User, d: Page)
    ensures !Guard(id, SESSION_PAGE) && !Guard(id, SESSION_BOARD) && !Guard(id, TOURNAMENT_PAGE) ==>
      OnClick(id, user, d) == Acknowledge
    ensures ActionOf(id) !in {"prev", "next", "go", "find", "loc"} ==> OnClick(id, user, d) == Acknowledge
    ensures ActionOf(id) == "loc" && !Guard(id, SESSION_BOARD) ==> OnClick(id, user, d) == Acknowledge
  {
  }

  lemma OneModal(id: string)
    ensures !(Guard(id, SESSION_MODAL) && Guard(id, SESSION_BOARD_MODAL))
    ensures !(Guard(id, SESSION_MODAL) && Guard(id, TOURNAMENT_MODAL))
    ensures !(Guard(id, SESSION_BOARD_MODAL) && Guard(id, TOURNAMENT_MODAL))
  {
    AtMostOneGuard(id, 3, 4);
    AtMostOneGuard(id, 3, 5);
    AtMostOneGuard(id, 4, 5);
  }

  /** The list a page is shown in. */
  function RenderOf(word: string, d: Page): seq<string>
    requires IsListWord(word)
  {
    if word == SESSION_PAGE then SessionsBoard(d)
    else if word == SESSION_BOARD then SessionPostCopy(d)
    else TournamentsBoard(d)
  }

  lemma SubmitIs(id: string, word: string, user: User, d: Page, applied: bool)
    requires IsListWord(word) && Guard(id, ModalOf(word))
    ensures OnSubmit(id, user, d, applied) ==
      if ModalActionOf(id) == "go" then if d.rows == 0 then Whisper() else Ephemeral(RenderOf(word, d), user)
      else if !applied || d.rows == 0 then Whisper() else Ephemeral([], user)
  {
    OneModal(id);
  }

  lemma RenderIsPrivate(word: string, d: Page)
    requires IsListWord(word)
    ensures IsPrivateList(word, d, RenderOf(word, d))
  {
    PrivateLists(d);
  }

  /** A submitted modal answers its sender alone: going to a page gives the list at that page, and a search gives
      what it found, without controls; `applied` says whether there was something to search for and it was
      searched for. */
  lemma SubmitsAnswer(word: string, a: Action, loc: string, user: User, d: Page, applied: bool)
    requires IsListWord(word) && a in {Go, Find}
    ensures
      var r := OnSubmit(ModalId(ModalOf(word), a, loc), user, d, applied);
      if a == Go then AnswersWithList(word, P, user, d, r)
      else r == if applied && d.rows > 0 then Reply(false, [], {user}) else Reply(false, [], {})
  {
    ModalRoundTrip(ModalOf(word), a, loc);
    SubmitIs(ModalId(ModalOf(word), a, loc), word, user, d, applied);
    RenderIsPrivate(word, d);
  }

  lemma PublicList(d: Page)
    ensures
      var controls := Controls(d, true);
      && |SessionPostBoard(d)| == |controls|
      && forall i :: 0 <= i < |controls| ==> SessionPostBoard(d)[i] == ControlId(SESSION_BOARD, P, d, controls[i])
  {
    ListIsItsControls(SESSION_BOARD, P, d, true, 0);
    forall i: nat | i < |Controls(d, true)|
      ensures SessionPostBoard(d)[i] == ControlId(SESSION_BOARD, P, d, Controls(d, true)[i])
    {
      ListIsItsControls(SESSION_BOARD, P, d, true, i);
    }
  }

  /** The commands: a private list for whoever asked, and one public message, fetched as nobody. */
  lemma CommandsAnswer(user: User, d: Page)
    ensures AnswersWithList(SESSION_PAGE, P, user, d, OnSessions(user, d))
    ensures AnswersWithList(TOURNAMENT_PAGE, P, user, d, OnTournaments(user, d))
  {
    PrivateLists(d);
  }

  lemma PostAnswers(d: Page)
    ensures
      var r, controls := OnSessionPost(d), Controls(d, true);
      if d.rows == 0 then r == Reply(false, [], {})
      else
        && r.Reply? && r.public && r.viewers == {None} && |r.ids| == |controls|
        && forall i :: 0 <= i < |controls| ==> r.ids[i] == ControlId(SESSION_BOARD, P, d, controls[i])
  {
    PublicList(d);
  }
}
