/** What the key cache holds, after every request and answer. */
module KeyVerifierProofs {
  import opened Basics
  import opened InsertionOrder
  import opened KeyVerifier
  import Json

  /** The prefix and 43 letters, digits, dashes or bars. */
  predicate IsClubKey(key: string) {
    && |key| == 50 && key[..7] == "clubld_"
    && forall i :: 7 <= i < 50 ==>
         'A' <= key[i] <= 'Z' || 'a' <= key[i] <= 'z' || '0' <= key[i] <= '9' || key[i] in {'-', '_'}
  }

  lemma KeysAreClubKeys(key: string)
    ensures IsKey(key) <==> IsClubKey(key)
  {
    assert |KEY_PREFIX| == 7;
  }

  /** Only a header made of the word and a well-formed key reaches the cache or the database. */
  lemma TokenIsExact(header: Option<string>, key: string)
    ensures Token(header) == Some(key) <==> header == Some("Bearer " + key) && IsClubKey(key)
  {
    KeysAreClubKeys(key);
    var h := header.GetOr([]);
    if Token(header) == Some(key) {
      assert BEARER <= h && h[|BEARER|..] == key;
      assert h == h[..|BEARER|] + h[|BEARER|..] == BEARER + key;
      assert header == Some(h);
    }
    if header == Some(BEARER + key) && IsKey(key) {
      assert BEARER <= h && h[|BEARER|..] == key;
    }
  }

  // ----- what a row says -----

  /** A property is the value of the first field of its name. */
  lemma {:induction false} GetIsFirst(fields: seq<Json.Field>, name: string)
    ensures Json.Get(fields, name).None? <==> forall i :: 0 <= i < |fields| ==> fields[i].name != name
    ensures forall i :: 0 <= i < |fields| && fields[i].name == name
                        && (forall j :: 0 <= j < i ==> fields[j].name != name) ==>
      Json.Get(fields, name) == Some(fields[i].value)
  {
    if fields != [] && fields[0].name != name {
      var rest := fields[1..];
      GetIsFirst(rest, name);
      forall i | 0 <= i < |fields| && fields[i].name == name && (forall j :: 0 <= j < i ==> fields[j].name != name)
        ensures Json.Get(rest, name) == Some(fields[i].value)
      {
        assert rest[i - 1].name == name;
        assert forall j :: 0 <= j < i - 1 ==> rest[j] == fields[j + 1];
      }
      assert forall i :: 0 < i < |fields| ==> fields[i] == rest[i - 1];
    }
  }

  function TextCount(items: seq<Json.Value>): nat {
    if items == [] then 0 else TextCount(items[..|items| - 1]) + if items[|items| - 1].Text? then 1 else 0
  }

  /** `texts` are the texts among the items, each in the place its predecessors leave it, and nothing else. */
  ghost predicate Lists(items: seq<Json.Value>, texts: seq<string>) {
    && |texts| == TextCount(items)
    && forall i: nat :: i < |items| && items[i].Text? ==>
         TextCount(items[..i]) < |texts| && texts[TextCount(items[..i])] == items[i].text
  }

  lemma {:induction false} TextsAppend(items: seq<Json.Value>, last: Json.Value)
    ensures Texts(items + [last]) == Texts(items) + if last.Text? then [last.text] else []
  {
    if items != [] {
      assert (items + [last])[1..] == items[1..] + [last];
      TextsAppend(items[1..], last);
    }
  }

  /** The texts of an array, and no other list. */
  lemma {:induction false} TextsAreListed(items: seq<Json.Value>, texts: seq<string>)
    ensures Lists(items, texts) <==> texts == Texts(items)
  {
    if items != [] {
      var before, last := items[..|items| - 1], items[|items| - 1];
      assert items == before + [last];
      TextsAppend(before, last);
      TextsAreListed(before, Texts(before));
      if last.Text? {
        LastIsListed(before, last, Texts(before));
        if Lists(items, texts) {
          TextsAreListed(before, texts[..|texts| - 1]);
          ListedBefore(before, last, texts);
          assert items[..|before|] == before;
          assert texts == texts[..|texts| - 1] + [last.text];
        }
      } else {
        SkippedIsListed(before, last, texts);
        TextsAreListed(before, texts);
      }
    }
  }

  lemma SkippedIsListed(before: seq<Json.Value>, last: Json.Value, texts: seq<string>)
    requires !last.Text?
    ensures Lists(before + [last], texts) <==> Lists(before, texts)
  {
    var items := before + [last];
    assert items[..|before|] == before;
    forall i: nat | i < |before| ensures items[i] == before[i] && items[..i] == before[..i] {
    }
  }

  lemma LastIsListed(before: seq<Json.Value>, last: Json.Value, texts: seq<string>)
    requires last.Text? && Lists(before, texts)
    ensures Lists(before + [last], texts + [last.text])
  {
    var items := before + [last];
    assert items[..|before|] == before;
    forall i: nat | i < |before| ensures items[i] == before[i] && items[..i] == before[..i] {
    }
  }

  lemma ListedBefore(before: seq<Json.Value>, last: Json.Value, texts: seq<string>)
    requires last.Text? && Lists(before + [last], texts)
    ensures Lists(before, texts[..|texts| - 1]) && texts[|texts| - 1] == last.text
  {
    var items := before + [last];
    assert items[..|before|] == before && items[|before|] == last;
    forall i: nat | i < |before| && before[i].Text?
      ensures items[i] == before[i] && items[..i] == before[..i] && TextCount(before[..i]) < TextCount(before)
    {
      CountGrows(before, i);
    }
  }

  lemma {:induction false} CountGrows(items: seq<Json.Value>, i: nat)
    requires i < |items| && items[i].Text?
    ensures TextCount(items[..i]) < TextCount(items)
  {
    var before := items[..|items| - 1];
    if i < |before| {
      assert before[..i] == items[..i];
      CountGrows(before, i);
    }
  }

  /** A row that can verify: two texts and an array. */
  predicate IsKeyRow(row: Json.Value) {
    && row.Object?
    && Json.Get(row.fields, "consumer_id").Some? && Json.Get(row.fields, "consumer_id").value.Text?
    && Json.Get(row.fields, "key_id").Some? && Json.Get(row.fields, "key_id").value.Text?
    && Json.Get(row.fields, "scopes").Some? && Json.Get(row.fields, "scopes").value.Array?
  }

  /** The row names this consumer and this key, and its array holds these scopes among other things. */
  ghost predicate Names(row: Json.Value, key: VerifiedKey) {
    && IsKeyRow(row)
    && Json.Get(row.fields, "consumer_id") == Some(Json.Text(key.consumerId))
    && Json.Get(row.fields, "key_id") == Some(Json.Text(key.keyId))
    && Lists(Json.Get(row.fields, "scopes").value.items, key.scopes)
  }

  /** An answer verifies exactly the key its first row names, and none when that row is of another shape. */
  lemma VerifiedIsTheRow(rows: seq<Json.Value>, key: VerifiedKey)
    ensures Verified(rows) == Some(key) <==> rows != [] && Names(rows[0], key)
    ensures Verified(rows).None? <==> rows == [] || !IsKeyRow(rows[0])
  {
    if rows != [] && IsKeyRow(rows[0]) {
      TextsAreListed(Json.Get(rows[0].fields, "scopes").value.items, key.scopes);
    }
  }

  // ----- what the cache holds -----

  function Lifetime(value: Option<VerifiedKey>): int {
    if value.Some? then 30_000 else 5_000
  }

  /** The entry is what its read answered, for as long as such an answer may be kept. */
  ghost predicate Backed(lookups: seq<Read>, h: Hash, e: Entry, now: int) {
    && e.read < |lookups| && lookups[e.read].hash == h
    && lookups[e.read].answer.Answered? && lookups[e.read].answer.value == e.value
    && lookups[e.read].answer.at <= now
    && e.expires == lookups[e.read].answer.at + Lifetime(e.value)
  }

  ghost predicate Timely(r: Read, now: int) {
    r.began <= now && (r.answer.Answered? ==> r.began <= r.answer.at <= now)
  }

  ghost predicate Sound(s: State, now: int) {
    && InsertionOrder.Valid(s.cache) && |s.cache.order| <= CACHE_MAX_ENTRIES
    && (forall h :: h in s.cache.at ==> Backed(s.lookups, h, s.cache.at[h], now))
    && (forall i :: 0 <= i < |s.lookups| ==> Timely(s.lookups[i], now))
  }

  /** Reads are begun, and each is answered once. */
  ghost predicate Extends(before: seq<Read>, after: seq<Read>) {
    && |before| <= |after|
    && forall i :: 0 <= i < |before| ==>
         after[i].hash == before[i].hash && after[i].began == before[i].began &&
         (!before[i].answer.Pending? ==> after[i].answer == before[i].answer)
  }

  lemma InspectedIsSubset(cache: Table<Hash, Entry>, header: Option<string>, t: int)
    requires InsertionOrder.Valid(cache)
    ensures
      var after := Inspected(cache, header, t);
      && InsertionOrder.Valid(after) && |after.order| <= |cache.order|
      && forall h :: h in after.at ==> h in cache.at && after.at[h] == cache.at[h]
  {
    var r := Consulted(cache, header, t);
    if r.Uncached? {
      DeleteIsValid(cache, r.hash);
      WithoutKeepsOthers(cache.order, r.hash);
    }
  }

  lemma RememberedIsSubset(cache: Table<Hash, Entry>, hash: Hash, e: Entry)
    requires InsertionOrder.Valid(cache)
    ensures
      var after := Remembered(cache, hash, e);
      && InsertionOrder.Valid(after) && |after.order| <= CACHE_MAX_ENTRIES
      && forall h :: h in after.at ==> if h == hash then after.at[h] == e else h in cache.at && after.at[h] == cache.at[h]
  {
    SetIsValid(cache, hash, e);
    TrimKeepsNewest(Set(cache, hash, e), CACHE_MAX_ENTRIES);
  }

  /** The moment an event happens; a failure has none of its own. */
  function Moment(e: Event, now: int): int {
    if e.Fail? then now else e.at
  }

  /** What any step leaves of the table. */
  ghost predicate Follows(s: State, e: Event, s1: State, now: int) {
    && InsertionOrder.Valid(s1.cache) && |s1.cache.order| <= CACHE_MAX_ENTRIES
    && (forall h :: h in s1.cache.at ==>
        || Backed(s1.lookups, h, s1.cache.at[h], now)
        || (h in s.cache.at && s1.cache.at[h] == s.cache.at[h]))
    && Extends(s.lookups, s1.lookups)
    && (forall i :: 0 <= i < |s1.lookups| ==> Timely(s1.lookups[i], now))
  }

  lemma RequestFollows(s: State, e: Event, now: int)
    requires Sound(s, now) && e.Request? && now <= e.at
    ensures Follows(s, e, Step(s, e), e.at)
  {
    InspectedIsSubset(s.cache, e.header, e.at);
  }

  lemma SettleFollows(s: State, e: Event, now: int)
    requires Sound(s, now) && e.Settle? && now <= e.at
    ensures Follows(s, e, Step(s, e), e.at)
  {
    if Waits(s, e.read) {
      var hash, entry := s.lookups[e.read].hash, EntryFor(Verified(e.rows), e.at, e.read);
      var s1 := Step(s, e);
      RememberedIsSubset(s.cache, hash, entry);
      assert Backed(s1.lookups, hash, entry, e.at);
      forall i | 0 <= i < |s1.lookups| ensures Timely(s1.lookups[i], e.at) {
        assert Timely(s.lookups[i], now);
      }
    }
  }

  lemma StepFollows(s: State, e: Event, now: int)
    requires Sound(s, now) && now <= Moment(e, now)
    ensures Follows(s, e, Step(s, e), Moment(e, now))
  {
    match e
    case Request(header, at) => RequestFollows(s, e, now);
    case Settle(read, rows, at) => SettleFollows(s, e, now);
    case Fail(read) =>
  }

  lemma StepIsSound(s: State, e: Event, now: int)
    requires Sound(s, now) && now <= Moment(e, now)
    ensures Sound(Step(s, e), Moment(e, now))
  {
    StepFollows(s, e, now);
  }

  /** A request that is looked up and begins no read. */
  lemma InspectionIsSound(s: State, header: Option<string>, t: int, now: int)
    requires Sound(s, now) && now <= t
    ensures Sound(s.(cache := Inspected(s.cache, header, t)), t)
  {
    InspectedIsSubset(s.cache, header, t);
  }

  /** A read that answered with this value, at this time or less than its lifetime ago. */
  ghost predicate RestsOn(s: State, read: ReadId, value: Option<VerifiedKey>, t: int) {
    && read < |s.lookups|
    && s.lookups[read].answer.Answered? && s.lookups[read].answer.value == value
    && s.lookups[read].began <= s.lookups[read].answer.at <= t
    && t < s.lookups[read].answer.at + Lifetime(value)
  }
}
