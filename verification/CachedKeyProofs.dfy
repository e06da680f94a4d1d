/** Which requests the key cache answers, told by the answers the database gave. */
module CachedKeyProofs {
  import opened Basics
  import opened InsertionOrder
  import opened RateLimit
  import opened Authentication
  import opened AuthenticationProofs
  import K = KeyVerifier
  import KP = KeyVerifierProofs

  datatype Given = Given(value: Option<K.VerifiedKey>, at: int)

  /** This event is the database's answer to a read of this key. */
  predicate Answers(w: World, e: Event, h: K.Hash) {
    e.Settle? && Waits(w, e.read) && w.keys.lookups[e.read].hash == h
  }

  /** The latest answer about a key, whichever request began the read. */
  function LastAnswer(l: Limits, events: seq<Event>, h: K.Hash): Option<Given>
    requires Proper(l)
  {
    if events == [] then None
    else
      var before, e := events[..|events| - 1], events[|events| - 1];
      if Answers(RunAll(l, before), e, h) then Some(Given(K.Verified(e.rows), e.at)) else LastAnswer(l, before, h)
  }

  /** Another key's answer pushed this one out. */
  ghost predicate PushedOut(l: Limits, w: World, e: Event, h: K.Hash)
    requires Proper(l)
  {
    e.Settle? && h in w.keys.cache.at && h !in Step(l, w, e).keys.cache.at
  }

  /** No other key's answer pushed it out since its own latest one. */
  ghost predicate Stays(l: Limits, events: seq<Event>, h: K.Hash)
    requires Proper(l)
  {
    events != [] ==>
      var before, e := events[..|events| - 1], events[|events| - 1];
      Answers(RunAll(l, before), e, h) || (Stays(l, before, h) && !PushedOut(l, RunAll(l, before), e, h))
  }

  /** The answer may still be used at `t`. */
  predicate Current(g: Option<Given>, t: int) {
    g.Some? && t < g.value.at + KP.Lifetime(g.value.value)
  }

  /** The table holds nothing but latest answers that stayed, and every current one of them. */
  ghost predicate Mirrors(cache: Table<K.Hash, K.Entry>, h: K.Hash, g: Option<Given>, stays: bool, now: int) {
    && InsertionOrder.Valid(cache) && |cache.order| <= K.CACHE_MAX_ENTRIES
    && (h in cache.at ==>
        stays && g.Some? && cache.at[h].value == g.value.value && cache.at[h].expires == g.value.at + KP.Lifetime(g.value.value))
    && (stays && Current(g, now) ==> h in cache.at)
  }

  lemma RequestMirrors(l: Limits, w: World, e: Event, h: K.Hash, g: Option<Given>, stays: bool, now: int)
    requires Proper(l) && e.Request? && now <= e.at && Mirrors(w.keys.cache, h, g, stays, now)
    ensures Mirrors(Step(l, w, e).keys.cache, h, g, stays, e.at)
  {
    KP.InspectedIsSubset(w.keys.cache, e.header, e.at);
  }

  lemma OtherAnswerMirrors(l: Limits, w: World, e: Event, h: K.Hash, g: Option<Given>, stays: bool, now: int)
    requires Proper(l) && e.Settle? && now <= e.at && Mirrors(w.keys.cache, h, g, stays, now)
    requires !Answers(w, e, h)
    ensures Mirrors(Step(l, w, e).keys.cache, h, g, stays && !PushedOut(l, w, e, h), e.at)
  {
    if Waits(w, e.read) {
      var entry := K.EntryFor(K.Verified(e.rows), e.at, e.read);
      KP.RememberedIsSubset(w.keys.cache, w.keys.lookups[e.read].hash, entry);
    }
  }

  /** A key just answered about is in the table: in its old place, or the newest. */
  lemma AnswerIsHeld(cache: Table<K.Hash, K.Entry>, h: K.Hash, entry: K.Entry)
    requires InsertionOrder.Valid(cache) && |cache.order| <= K.CACHE_MAX_ENTRIES
    ensures h in K.Remembered(cache, h, entry).at
  {
    var all := Set(cache, h, entry);
    SetIsValid(cache, h, entry);
    TrimKeepsNewest(all, K.CACHE_MAX_ENTRIES);
    if |all.order| > K.CACHE_MAX_ENTRIES {
      assert all.order[|all.order| - 1] == h;
      assert h in Trim(all, K.CACHE_MAX_ENTRIES).order;
    }
  }

  lemma AnswerMirrors(l: Limits, w: World, e: Event, h: K.Hash, g: Option<Given>, stays: bool, now: int)
    requires Proper(l) && Mirrors(w.keys.cache, h, g, stays, now) && Answers(w, e, h)
    ensures Mirrors(Step(l, w, e).keys.cache, h, Some(Given(K.Verified(e.rows), e.at)), true, e.at)
  {
    var entry := K.EntryFor(K.Verified(e.rows), e.at, e.read);
    KP.RememberedIsSubset(w.keys.cache, h, entry);
    AnswerIsHeld(w.keys.cache, h, entry);
  }

  lemma {:induction false} RunMirrors(l: Limits, events: seq<Event>, from: int, h: K.Hash)
    requires Proper(l) && InOrder(events, from)
    ensures Mirrors(RunAll(l, events).keys.cache, h, LastAnswer(l, events, h), Stays(l, events, h), Time(events, from))
  {
    if events != [] {
      var before, e := events[..|events| - 1], events[|events| - 1];
      RunMirrors(l, before, from, h);
      var w, g, stays, now := RunAll(l, before), LastAnswer(l, before, h), Stays(l, before, h), Time(before, from);
      if Answers(w, e, h) {
        AnswerMirrors(l, w, e, h, g, stays, now);
      } else if e.Settle? {
        OtherAnswerMirrors(l, w, e, h, g, stays, now);
      } else if e.Request? {
        RequestMirrors(l, w, e, h, g, stays, now);
      }
    }
  }

  /** What the database last said of the key a request sends. */
  function AnswerFor(l: Limits, events: seq<Event>, e: Event): Option<Given>
    requires Proper(l) && e.Request?
  {
    match K.Token(e.header)
    case None => None
    case Some(key) => LastAnswer(l, events, K.HashOf(key))
  }

  ghost predicate Remains(l: Limits, events: seq<Event>, e: Event)
    requires Proper(l) && e.Request?
  {
    AnswerFor(l, events, e).Some? && Stays(l, events, K.HashOf(K.Token(e.header).value))
  }

  /** A request is let in at once exactly when the latest answer about its key confirmed it less than 30 s ago
      and no other key's answer pushed that one out. It then gets that answer's key and leaves everything as it
      was: no limiter call and no database read, whatever its address did before. */
  lemma CachedKeysAreFree(l: Limits, events: seq<Event>, e: Event, from: int)
    requires Proper(l) && InOrder(events + [e], from) && e.Request?
    ensures
      var v, g := VerdictOf(l, RunAll(l, events), e), AnswerFor(l, events, e);
      && (v.Accepted? <==> Remains(l, events, e) && g.value.value.Some? && e.at < g.value.at + 30_000)
      && (v.Accepted? ==> g.value.value == Some(v.key) && RunAll(l, events + [e]) == RunAll(l, events))
  {
    assert (events + [e])[..|events|] == events;
    if K.Token(e.header).Some? {
      RunMirrors(l, events, from, K.HashOf(K.Token(e.header).value));
    }
    NoCall(RunAll(l, events));
  }

  /** It is refused at once exactly when it carries no key, or when the latest answer about its key refused it
      less than 5 s ago and was not pushed out. It then asks its address's bucket for a token and reads
      nothing. */
  lemma RefusedKeysPay(l: Limits, events: seq<Event>, e: Event, from: int)
    requires Proper(l) && InOrder(events + [e], from) && e.Request?
    ensures
      var v, g := VerdictOf(l, RunAll(l, events), e), AnswerFor(l, events, e);
      && (v == Unauthorized <==>
          || K.Token(e.header).None?
          || (Remains(l, events, e) && g.value.value.None? && e.at < g.value.at + 5_000))
      && (v == Unauthorized ==>
          && RunAll(l, events + [e]).calls == RunAll(l, events).calls + [Call(e.ip, e.at, true)]
          && RunAll(l, events + [e]).callers == RunAll(l, events).callers)
  {
    assert (events + [e])[..|events|] == events;
    if K.Token(e.header).Some? {
      RunMirrors(l, events, from, K.HashOf(K.Token(e.header).value));
    }
    assert RunAll(l, events).callers + [] == RunAll(l, events).callers;
  }

  /** A key is pushed out only by a new key's answer when a thousand are held, and then it was the oldest. */
  lemma PushedOutIsOldest(l: Limits, events: seq<Event>, e: Event, from: int, h: K.Hash)
    requires Proper(l) && InOrder(events, from) && PushedOut(l, RunAll(l, events), e, h)
    ensures
      var w := RunAll(l, events);
      && Waits(w, e.read) && w.keys.lookups[e.read].hash !in w.keys.cache.at
      && |w.keys.cache.order| == 1000 && w.keys.cache.order[0] == h
  {
    var w := RunAll(l, events);
    RunMirrors(l, events, from, h);
    if Waits(w, e.read) {
      OnlyTheOldestGoes(w.keys.cache, w.keys.lookups[e.read].hash, K.EntryFor(K.Verified(e.rows), e.at, e.read), h);
    }
  }

  lemma {:induction false} OnlyTheOldestGoes(cache: Table<K.Hash, K.Entry>, hash: K.Hash, entry: K.Entry, h: K.Hash)
    requires InsertionOrder.Valid(cache) && |cache.order| <= K.CACHE_MAX_ENTRIES
    requires h in cache.at && h !in K.Remembered(cache, hash, entry).at
    ensures hash !in cache.at && |cache.order| == 1000 && cache.order[0] == h
  {
    var all := Set(cache, hash, entry);
    SetIsValid(cache, hash, entry);
    TrimKeepsNewest(all, K.CACHE_MAX_ENTRIES);
    var kept := Trim(all, K.CACHE_MAX_ENTRIES).order;
    forall i: nat | 0 < i < |cache.order| && |all.order| > K.CACHE_MAX_ENTRIES ensures cache.order[i] in kept {
      NewestStay(all.order, |all.order| - K.CACHE_MAX_ENTRIES, i);
      assert all.order[i] == cache.order[i];
    }
    assert h in cache.order;
  }

  lemma NewestStay(order: seq<K.Hash>, from: nat, i: nat)
    requires from <= i < |order|
    ensures order[i] in order[from..]
  {
    assert order[from..][i - from] == order[i];
  }
}
