/** Every id reads back as it was written, and no id is anybody else's. */
module ButtonIdProofs {
  import opened Basics
  import opened ButtonIds

  predicate NoColon(s: string) {
    forall i :: 0 <= i < |s| ==> s[i] != ':'
  }

  // ----- splitting -----

  lemma {:induction false} SplitAt(w: string, rest: string)
    requires NoColon(w)
    ensures Split(w + (":" + rest)) == [w] + Split(rest)
  {
    var s := w + (":" + rest);
    if w == [] {
      assert s[0] == ':' && s[1..] == rest;
    } else {
      assert s[0] == w[0] && s[1..] == w[1..] + (":" + rest);
      SplitAt(w[1..], rest);
      assert [w[0]] + w[1..] == w;
    }
  }

  /** The first slot is the whole text only when there is no colon to split at. */
  lemma {:induction false} FirstSlot(s: string)
    ensures Split(s)[0] <= s && NoColon(Split(s)[0])
    ensures Split(s)[0] == s <==> NoColon(s)
    ensures |Split(s)| >= 2 ==> Split(s)[0] + ":" <= s
  {
    if s != [] {
      FirstSlot(s[1..]);
      assert s == [s[0]] + s[1..];
      var head := Split(s[1..])[0];
      if s[0] != ':' {
        assert [s[0]] + head <= s;
        assert NoColon(s) <==> NoColon(s[1..]);
        if |Split(s)| >= 2 {
          assert ([s[0]] + head) + ":" == [s[0]] + (head + ":");
        }
      }
    }
  }

  /** A guard accepts exactly the ids whose first slot is its word. */
  lemma GuardIsFirstSlot(id: string, word: string)
    requires NoColon(word)
    ensures Guard(id, word) <==> |Split(id)| >= 2 && Split(id)[0] == word
  {
    FirstSlot(id);
    if Guard(id, word) {
      var rest := id[|word| + 1..];
      assert id == word + (":" + rest);
      SplitAt(word, rest);
    }
  }

  /** However an id came about, at most one guard accepts it. */
  lemma AtMostOneGuard(id: string, i: nat, j: nat)
    requires i < j < |WORDS|
    ensures !(Guard(id, WORDS[i]) && Guard(id, WORDS[j]))
  {
    GuardIsFirstSlot(id, WORDS[i]);
    GuardIsFirstSlot(id, WORDS[j]);
  }

  // ----- numbers -----

  predicate AllDigits(s: string) {
    forall i :: 0 <= i < |s| ==> Digit(s[i])
  }

  lemma {:induction false} DecimalReads(n: nat)
    ensures Decimal(n) != [] && AllDigits(Decimal(n)) && ValueOf(Decimal(n)) == n
  {
    if n < 10 {
      assert [DigitChar(n)][..0] == [];
    } else {
      DecimalReads(n / 10);
      var front := Decimal(n / 10);
      assert (front + [DigitChar(n % 10)])[..|front|] == front;
    }
  }

  lemma {:induction false} LeadingAll(s: string)
    requires AllDigits(s)
    ensures Leading(s) == s
  {
    if s != [] {
      LeadingAll(s[1..]);
    }
  }

  lemma DigitsParse(digits: string)
    requires digits != [] && AllDigits(digits)
    ensures
      var n: int := ValueOf(digits);
      ParseInt(digits) == Some(n) && ParseInt("-" + digits) == Some(-n)
  {
    LeadingAll(digits);
    assert Digit(digits[0]);
    assert ("-" + digits)[1..] == digits;
  }

  lemma NumberReads(n: int)
    ensures ParseInt(Number(n)) == Some(n) && NoColon(Number(n))
  {
    var m: nat := if n < 0 then -n else n;
    DecimalReads(m);
    DigitsParse(Decimal(m));
  }

  // ----- button ids -----

  lemma Step(w: string, rest: string)
    requires NoColon(w)
    ensures Split(w + ":" + rest) == [w] + Split(rest)
  {
    assert w + ":" + rest == w + (":" + rest);
    SplitAt(w, rest);
  }

  lemma FourSlots(a: string, b: string, c: string, d: string, rest: string)
    requires NoColon(a) && NoColon(b) && NoColon(c) && NoColon(d)
    ensures Split(a + ":" + (b + ":" + (c + ":" + (d + ":" + rest)))) == [a] + ([b] + ([c] + ([d] + Split(rest))))
  {
    Step(d, rest);
    Step(c, d + ":" + rest);
    Step(b, c + ":" + (d + ":" + rest));
    Step(a, b + ":" + (c + ":" + (d + ":" + rest)));
  }

  lemma SlotsOf(word: string, o: Origin, a: Action, number: string, loc: string)
    requires NoColon(word) && NoColon(number)
    ensures Split(ButtonId(word, o, a, number, loc)) == [word, OriginText(o), ActionText(a), number] + Split(loc)
  {
    FourSlots(word, OriginText(o), ActionText(a), number, loc);
  }

  /** A location that survives being written into an id. */
  predicate Carried(location: Option<string>) {
    location.Some? ==> location.value != [] && location.value != "-" && NoColon(location.value)
  }

  lemma LocationReads(location: Option<string>)
    ensures LocationFrom(Split(LocationText(location))[0]) == location <==> Carried(location)
  {
    FirstSlot(LocationText(location));
  }

  /** An id reads back as its word, origin, action, number and location; the location exactly when it is
      neither empty, nor the dash, nor split by a colon. */
  lemma ButtonRoundTrip(word: string, o: Origin, a: Action, number: string, location: Option<string>)
    requires NoColon(word) && NoColon(number)
    ensures
      var id := ButtonId(word, o, a, number, LocationText(location));
      && Guard(id, word)
      && OriginOf(id) == o && ActionOf(id) == ActionText(a) && Slot(id, 3, []) == number
      && (LocationOf(id) == location <==> Carried(location))
  {
    SlotsOf(word, o, a, number, LocationText(location));
    GuardIsFirstSlot(ButtonId(word, o, a, number, LocationText(location)), word);
    LocationReads(location);
  }

  lemma ModalSlots(word: string, a: Action, loc: string)
    requires NoColon(word)
    ensures Split(ModalId(word, a, loc)) == [word, ActionText(a)] + Split(if loc == [] then "-" else loc)
  {
    var rest := if loc == [] then "-" else loc;
    Step(ActionText(a), rest);
    Step(word, ActionText(a) + ":" + rest);
    assert ModalId(word, a, loc) == word + ":" + (ActionText(a) + ":" + rest);
  }

  /** A modal carries the action and the location slot of the button that opened it. */
  lemma ModalRoundTrip(word: string, a: Action, loc: string)
    requires NoColon(word)
    ensures
      var id := ModalId(word, a, loc);
      && Guard(id, word) && ModalActionOf(id) == ActionText(a)
      && ModalLocationOf(id) == LocationFrom(Split(loc)[0])
  {
    ModalSlots(word, a, loc);
    GuardIsFirstSlot(ModalId(word, a, loc), word);
    FirstSlot("-");
    FirstSlot(loc);
  }

  // ----- one message -----

  predicate IsListWord(word: string) {
    word in {SESSION_PAGE, SESSION_BOARD, TOURNAMENT_PAGE}
  }

  /** Each control of a list, read back. */
  lemma ControlReads(word: string, o: Origin, d: Page, a: Action)
    requires IsListWord(word)
    ensures
      var id := ControlId(word, o, d, a);
      && Guard(id, word) && OriginOf(id) == o && ActionOf(id) == ActionText(a)
      && (LocationOf(id) == d.location <==> Carried(d.location))
      && (a == Prev ==> TargetPageOf(id) == Max(1, d.page - 1))
      && (a == Next && Min(d.totalPages, d.page + 1) >= 1 ==> TargetPageOf(id) == Min(d.totalPages, d.page + 1))
  {
    NumberReads(Max(1, d.page - 1));
    NumberReads(Min(d.totalPages, d.page + 1));
    NumberReads(d.totalPages);
    ButtonRoundTrip(word, o, a, ControlNumber(o, d, a), d.location);
  }

  function ControlNumber(o: Origin, d: Page, a: Action): string {
    match a
    case Prev => Number(Max(1, d.page - 1))
    case Next => Number(Min(d.totalPages, d.page + 1))
    case Go => if o == E then Number(d.totalPages) else "-"
    case Find => "-"
    case Loc => "-"
  }

  function ControlId(word: string, o: Origin, d: Page, a: Action): string {
    ButtonId(word, o, a, ControlNumber(o, d, a), LocationText(d.location))
  }

  /** The controls of a list, in order. */
  function Controls(d: Page, withLocations: bool): seq<Action> {
    (if d.totalPages <= 1 then [] else [Prev, Next, Go, Find]) +
    (if withLocations && |d.locations| >= 2 then [Loc] else [])
  }

  lemma ListIsItsControls(word: string, o: Origin, d: Page, withLocations: bool, i: nat)
    ensures |ListIds(word, o, d, withLocations)| == |Controls(d, withLocations)|
    ensures i < |Controls(d, withLocations)| ==>
      ListIds(word, o, d, withLocations)[i] == ControlId(word, o, d, Controls(d, withLocations)[i])
  {
  }

  /** No two controls of one message share an id, whatever the page numbers and the location are. */
  lemma IdsAreDistinct(word: string, o: Origin, d: Page, withLocations: bool, i: nat, j: nat)
    requires IsListWord(word) && i < j < |ListIds(word, o, d, withLocations)|
    ensures ListIds(word, o, d, withLocations)[i] != ListIds(word, o, d, withLocations)[j]
  {
    var controls := Controls(d, withLocations);
    ListIsItsControls(word, o, d, withLocations, i);
    ListIsItsControls(word, o, d, withLocations, j);
    ControlReads(word, o, d, controls[i]);
    ControlReads(word, o, d, controls[j]);
  }

  /** A click on a pager asks for the page beside the one shown, under the same filter. */
  lemma PagingAsksForTheNeighbour(word: string, o: Origin, d: Page, values: seq<string>)
    requires IsListWord(word) && Carried(d.location) && 1 <= d.page <= d.totalPages
    ensures ClickQuery(ControlId(word, o, d, Prev), values) == Query(if d.page == 1 then 1 else d.page - 1, d.location)
    ensures ClickQuery(ControlId(word, o, d, Next), values) ==
            Query(if d.page == d.totalPages then d.page else d.page + 1, d.location)
  {
    ControlReads(word, o, d, Prev);
    ControlReads(word, o, d, Next);
  }
}
