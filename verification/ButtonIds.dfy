/** The component ids of the paged lists (apps/bot/src/commands.ts): how they are written, read back, and
    answered. */
module ButtonIds {
  import opened Basics

  /** What kind of message an id sits on: `E` private to its reader, `P` public. */
  datatype Origin = E | P

  datatype Action = Prev | Next | Go | Find | Loc

  const SESSION_PAGE: string := "ses"
  const SESSION_BOARD: string := "sesboard"
  const TOURNAMENT_PAGE: string := "trn"
  const SESSION_MODAL: string := "sesmodal"
  const SESSION_BOARD_MODAL: string := "sesboardmodal"
  const TOURNAMENT_MODAL: string := "trnmodal"

  /** Every word the guards look for, in front of its colon. */
  const WORDS: seq<string> := [
    SESSION_PAGE, SESSION_BOARD, TOURNAMENT_PAGE, SESSION_MODAL, SESSION_BOARD_MODAL, TOURNAMENT_MODAL,
    "selfrole", "guide", "report", "announce", "say", "signup", "lb"]

  function OriginText(o: Origin): string {
    match o case E => "e" case P => "p"
  }

  function ActionText(a: Action): string {
    match a
    case Prev => "prev"
    case Next => "next"
    case Go => "go"
    case Find => "find"
    case Loc => "loc"
  }

  // ----- numbers -----

  predicate Digit(c: char) {
    '0' <= c <= '9'
  }

  function DigitChar(n: nat): char
    requires n < 10
  {
    '0' + n as char
  }

  function DigitOf(c: char): nat
    requires Digit(c)
  {
    c as int - '0' as int
  }

  function Decimal(n: nat): string {
    if n < 10 then [DigitChar(n)] else Decimal(n / 10) + [DigitChar(n % 10)]
  }

  function Number(n: int): string {
    if n < 0 then "-" + Decimal(-n) else Decimal(n)
  }

  /** The digits at the start of a text. */
  function Leading(s: string): string {
    if s == [] || !Digit(s[0]) then [] else [s[0]] + Leading(s[1..])
  }

  function ValueOf(digits: string): nat
    requires forall i :: 0 <= i < |digits| ==> Digit(digits[i])
  {
    if digits == [] then 0
    else 10 * ValueOf(digits[..|digits| - 1]) + DigitOf(digits[|digits| - 1])
  }

  function Trimmed(s: string): string {
    if s != [] && s[0] in {' ', '\t', '\n', '\r'} then Trimmed(s[1..]) else s
  }

  /** `Number.parseInt(s, 10)`, or none for not-a-number. */
  function ParseInt(s: string): Option<int> {
    var t := Trimmed(s);
    var negative := t != [] && t[0] == '-';
    var digits := Leading(if t != [] && t[0] in {'-', '+'} then t[1..] else t);
    if digits == [] then None
    else
      LeadingDigits(if t != [] && t[0] in {'-', '+'} then t[1..] else t);
      var n: int := ValueOf(digits);
      Some(if negative then -n else n)
  }

  lemma {:induction false} LeadingDigits(s: string)
    ensures forall i :: 0 <= i < |Leading(s)| ==> Digit(Leading(s)[i])
  {
    if s != [] && Digit(s[0]) {
      LeadingDigits(s[1..]);
    }
  }

  // ----- writing and reading an id -----

  function Split(s: string): (r: seq<string>)
    ensures |r| >= 1
  {
    if s == [] then [[]]
    else
      var r := Split(s[1..]);
      if s[0] == ':' then [[]] + r else [[s[0]] + r[0]] + r[1..]
  }

  function Slot(id: string, k: nat, missing: string): string {
    if k < |Split(id)| then Split(id)[k] else missing
  }

  /** The five slots of a button id. */
  function ButtonId(word: string, o: Origin, a: Action, number: string, loc: string): string {
    word + ":" + (OriginText(o) + ":" + (ActionText(a) + ":" + (number + ":" + loc)))
  }

  function LocationText(location: Option<string>): string {
    location.GetOr("-")
  }

  function OriginOf(id: string): Origin {
    if Slot(id, 1, []) == "e" then E else P
  }

  function ActionOf(id: string): string {
    Slot(id, 2, [])
  }

  /** Anything but a whole number of at least one is the first page. */
  function PageFrom(slot: string): int {
    match ParseInt(slot)
    case Some(n) => if n >= 1 then n else 1
    case None => 1
  }

  function TargetPageOf(id: string): int {
    PageFrom(Slot(id, 3, []))
  }

  function LocationFrom(slot: string): Option<string> {
    if slot != [] && slot != "-" then Some(slot) else None
  }

  function LocationOf(id: string): Option<string> {
    LocationFrom(Slot(id, 4, "-"))
  }

  function ModalId(word: string, a: Action, loc: string): string {
    word + ":" + (ActionText(a) + ":" + if loc == [] then "-" else loc)
  }

  function ModalActionOf(id: string): string {
    Slot(id, 1, [])
  }

  function ModalLocationOf(id: string): Option<string> {
    LocationFrom(Slot(id, 2, "-"))
  }

  /** `id.startsWith(word + ':')`. */
  predicate Guard(id: string, word: string) {
    word + ":" <= id
  }

  // ----- the rows of a list -----

  /** A page as the app answers it; `rows` counts what it lists. */
  datatype Page = Page(page: int, totalPages: int, locations: seq<string>, location: Option<string>, rows: nat)

  function Max(a: int, b: int): int {
    if a < b then b else a
  }

  function Min(a: int, b: int): int {
    if a < b then a else b
  }

  function PrevId(word: string, o: Origin, d: Page): string {
    ButtonId(word, o, Prev, Number(Max(1, d.page - 1)), LocationText(d.location))
  }

  function NextId(word: string, o: Origin, d: Page): string {
    ButtonId(word, o, Next, Number(Min(d.totalPages, d.page + 1)), LocationText(d.location))
  }

  /** Only a private list says how many pages its reader has. */
  function GoId(word: string, o: Origin, d: Page): string {
    ButtonId(word, o, Go, if o == E then Number(d.totalPages) else "-", LocationText(d.location))
  }

  function FindId(word: string, o: Origin, d: Page): string {
    ButtonId(word, o, Find, "-", LocationText(d.location))
  }

  function LocId(word: string, o: Origin, d: Page): string {
    ButtonId(word, o, Loc, "-", LocationText(d.location))
  }

  function PagerIds(word: string, o: Origin, d: Page): seq<string> {
    if d.totalPages <= 1 then []
    else [PrevId(word, o, d), NextId(word, o, d), GoId(word, o, d), FindId(word, o, d)]
  }

  function ListIds(word: string, o: Origin, d: Page, withLocations: bool): seq<string> {
    PagerIds(word, o, d) + if withLocations && |d.locations| >= 2 then [LocId(word, o, d)] else []
  }

  method PagerRow(prevId: string, nextId: string, goId: Option<string>, findId: Option<string>, totalPages: int)
    returns (ids: seq<string>)
    ensures totalPages <= 1 ==> ids == []
    ensures totalPages > 1 ==>
      ids == [prevId, nextId] + (if goId.Some? && goId.value != [] then [goId.value] else []) +
             (if findId.Some? && findId.value != [] then [findId.value] else [])
  {
    if totalPages <= 1 {
      return [];
    }
    ids := [prevId, nextId];
    if goId.Some? && goId.value != [] {
      ids := ids + [goId.value];
    }
    if findId.Some? && findId.value != [] {
      ids := ids + [findId.value];
    }
  }

  // ----- the renders, each with its own prefix and origin -----

  function SessionsBoard(d: Page): seq<string> {
    ListIds(SESSION_PAGE, E, d, false)
  }

  function SessionPostBoard(d: Page): seq<string> {
    ListIds(SESSION_BOARD, P, d, true)
  }

  function SessionBoardWall(d: Page): seq<string> {
    ListIds(SESSION_BOARD, P, d, true)
  }

  function SessionPostCopy(d: Page): seq<string> {
    ListIds(SESSION_BOARD, E, d, true)
  }

  function TournamentsBoard(d: Page): seq<string> {
    PagerIds(TOURNAMENT_PAGE, E, d.(location := None))
  }

  // ----- answers -----

  type User = Option<string>

  /** `viewers` are those whose own rows the answer shows. */
  datatype Response =
    | Reply(public: bool, ids: seq<string>, viewers: set<User>)
    | Edit(ids: seq<string>, viewers: set<User>)
    | OpenModal(id: string)
    | Acknowledge

  /** A line of text for the caller alone. */
  function Whisper(): Response {
    Reply(false, [], {})
  }

  function Ephemeral(ids: seq<string>, viewer: User): Response {
    Reply(false, ids, {viewer})
  }

  function ListResponse(o: Origin, ids: seq<string>, viewer: User): Response {
    if o == E then Edit(ids, {viewer}) else Ephemeral(ids, viewer)
  }

  /** What a click asks the app for. */
  datatype Query = Query(page: int, location: Option<string>)

  function ClickQuery(id: string, values: seq<string>): Query {
    if ActionOf(id) == "loc" then Query(1, LocationFrom(if values == [] then "-" else values[0]))
    else Query(TargetPageOf(id), LocationOf(id))
  }

  function OpenListModal(word: string, id: string, locSlot: string): Response {
    OpenModal(ModalId(word, if ActionOf(id) == "go" then Go else Find, locSlot))
  }

  function SessionPageButton(id: string, user: User, d: Page): Response {
    if ActionOf(id) in {"go", "find"} then OpenListModal(SESSION_MODAL, id, Slot(id, 4, "-"))
    else if ActionOf(id) !in {"prev", "next"} then Acknowledge
    else if d.rows == 0 then Whisper()
    else ListResponse(OriginOf(id), SessionsBoard(d), user)
  }

  function SessionBoardButton(id: string, user: User, d: Page): Response {
    if ActionOf(id) in {"go", "find"} then OpenListModal(SESSION_BOARD_MODAL, id, Slot(id, 4, "-"))
    else if ActionOf(id) !in {"prev", "next", "loc"} then Acknowledge
    else if d.rows == 0 then Whisper()
    else ListResponse(OriginOf(id), SessionPostCopy(d), user)
  }

  function TournamentPageButton(id: string, user: User, d: Page): Response {
    if ActionOf(id) in {"go", "find"} then OpenListModal(TOURNAMENT_MODAL, id, "-")
    else if ActionOf(id) !in {"prev", "next"} then Acknowledge
    else if d.rows == 0 then Whisper()
    else ListResponse(OriginOf(id), TournamentsBoard(d), user)
  }

  /** A click on one of the lists; `d` is what the app answers to `ClickQuery`, asked as the clicker. */
  function OnClick(id: string, user: User, d: Page): Response {
    if Guard(id, SESSION_PAGE) then SessionPageButton(id, user, d)
    else if Guard(id, SESSION_BOARD) then SessionBoardButton(id, user, d)
    else if Guard(id, TOURNAMENT_PAGE) then TournamentPageButton(id, user, d)
    else Acknowledge
  }

  /** A submitted modal never edits: `asked` says whether the text was usable and the search applied. */
  function OnSubmit(id: string, user: User, d: Page, asked: bool): Response {
    var go := ModalActionOf(id) == "go";
    if !Guard(id, SESSION_MODAL) && !Guard(id, SESSION_BOARD_MODAL) && !Guard(id, TOURNAMENT_MODAL) then Acknowledge
    else if (go && d.rows == 0) || (!go && (!asked || d.rows == 0)) then Whisper()
    else if !go then Ephemeral([], user)
    else if Guard(id, SESSION_MODAL) then Ephemeral(SessionsBoard(d), user)
    else if Guard(id, SESSION_BOARD_MODAL) then Ephemeral(SessionPostCopy(d), user)
    else Ephemeral(TournamentsBoard(d), user)
  }

  /** The public snapshot, fetched as nobody. */
  function OnSessionPost(d: Page): Response {
    if d.rows == 0 then Whisper() else Reply(true, SessionPostBoard(d), {None})
  }

  function OnSessions(user: User, d: Page): Response {
    if d.rows == 0 then Whisper() else Ephemeral(SessionsBoard(d), user)
  }

  function OnTournaments(user: User, d: Page): Response {
    if d.rows == 0 then Whisper() else Ephemeral(TournamentsBoard(d), user)
  }
}
