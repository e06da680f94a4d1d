/** What an accepted or refused key rests on, in every run of overlapping requests. */
module AccessProofs {
  import opened Basics
  import opened InsertionOrder
  import opened RateLimit
  import opened RateLimitProofs
  import opened Authentication
  import opened AuthenticationProofs
  import K = KeyVerifier
  import KP = KeyVerifierProofs

  lemma KeysStaySound(l: Limits, w: World, e: Event, now: int)
    requires Proper(l) && KP.Sound(w.keys, now) && now <= Moment(e, now)
    ensures KP.Sound(Step(l, w, e).keys, Moment(e, now))
  {
    match e
    case Request(_, header, at) =>
      KP.StepIsSound(w.keys, K.Request(header, at), now);
      KP.InspectionIsSound(w.keys, header, at, now);
    case Settle(read, rows, at) =>
      KP.StepIsSound(w.keys, K.Settle(read, rows, at), now);
    case Fail(read) => KP.StepIsSound(w.keys, K.Fail(read), now);
  }

  lemma {:induction false} RunIsSound(l: Limits, events: seq<Event>, from: int)
    requires Proper(l) && InOrder(events, from)
    ensures KP.Sound(RunAll(l, events).keys, Time(events, from))
  {
    if events != [] {
      RunIsSound(l, events[..|events| - 1], from);
      KeysStaySound(l, RunAll(l, events[..|events| - 1]), events[|events| - 1], Time(events[..|events| - 1], from));
    }
  }

  /** The request sends the key of this digest, or was waiting for a read of it. */
  ghost predicate Concerns(w: World, e: Event, h: K.Hash) {
    match e
    case Request(_, header, _) => K.Token(header).Some? && h == K.HashOf(K.Token(header).value)
    case Settle(read, _, _) => Waits(w, read) && w.keys.lookups[read].hash == h
    case Fail(_) => false
  }

  /** The read is of a key the request concerns, and a request that waited rests on its own read, just answered. */
  ghost predicate IsOf(w: World, e: Event, s: K.State, read: K.ReadId)
    requires read < |s.lookups|
  {
    && Concerns(w, e, s.lookups[read].hash)
    && (e.Settle? ==> read == e.read && s.lookups[read].answer.Answered? && s.lookups[read].answer.at == e.at)
  }

  /** What a verdict about a key rests on: the entry the cache answered from, or the read just answered. */
  lemma VerdictRestsOn(l: Limits, w: World, e: Event, now: int) returns (read: K.ReadId)
    requires Proper(l) && KP.Sound(w.keys, now) && now <= Moment(e, now)
    requires
      var v := VerdictOf(l, w, e);
      v.Accepted? || (v.Unauthorized? && (e.Request? ==> K.Token(e.header).Some?))
    ensures
      var v, s := VerdictOf(l, w, e), Step(l, w, e).keys;
      && !e.Fail? && KP.RestsOn(s, read, if v.Accepted? then Some(v.key) else None, e.at) && IsOf(w, e, s, read)
  {
    KeysStaySound(l, w, e, now);
    match e
    case Request(_, header, _) =>
      var h := K.HashOf(K.Token(header).value);
      assert KP.Backed(w.keys.lookups, h, w.keys.cache.at[h], now);
      read := w.keys.cache.at[h].read;
      assert KP.Timely(w.keys.lookups[read], now);
    case Settle(settled, _, _) =>
      read := settled;
      assert KP.Timely(w.keys.lookups[read], now);
  }

  /** Event `j` is the database's answer to this read. */
  ghost predicate SettledBy(events: seq<Event>, j: nat, read: K.ReadId, answer: K.Answer) {
    && j < |events| && events[j].Settle? && events[j].read == read
    && answer == K.Answered(events[j].at, K.Verified(events[j].rows))
  }

  ghost predicate Traced(events: seq<Event>, lookups: seq<K.Read>) {
    forall i: nat :: i < |lookups| && lookups[i].answer.Answered? ==>
      exists j: nat :: SettledBy(events, j, i, lookups[i].answer)
  }

  lemma StepIsTraced(l: Limits, w: World, events: seq<Event>, e: Event)
    requires Proper(l) && Traced(events, w.keys.lookups)
    ensures Traced(events + [e], Step(l, w, e).keys.lookups)
  {
    var before, after := w.keys.lookups, Step(l, w, e).keys.lookups;
    forall i: nat | i < |after| && after[i].answer.Answered?
      ensures exists j: nat :: SettledBy(events + [e], j, i, after[i].answer)
    {
      if i < |before| && after[i] == before[i] {
        var j: nat :| SettledBy(events, j, i, before[i].answer);
        assert SettledBy(events + [e], j, i, after[i].answer);
      } else {
        assert SettledBy(events + [e], |events|, i, after[i].answer);
      }
    }
  }

  /** In every run each answer on record is what the rows of some settled read say. */
  lemma {:induction false} RunIsTraced(l: Limits, events: seq<Event>)
    requires Proper(l)
    ensures Traced(events, RunAll(l, events).keys.lookups)
  {
    if events != [] {
      var before, e := events[..|events| - 1], events[|events| - 1];
      RunIsTraced(l, before);
      StepIsTraced(l, RunAll(l, before), before, e);
      assert events == before + [e];
    }
  }

  /** A request let in at `t` rests on a read that confirmed its own key, and that was begun no earlier than
      the cache's lifetime and the read's own duration before; and it is let in as whoever the first row
      answered to that read names. */
  lemma AccessRestsOnAConfirmation(l: Limits, events: seq<Event>, e: Event, from: int)
    returns (read: K.ReadId, settled: nat)
    requires Proper(l) && InOrder(events + [e], from) && VerdictOf(l, RunAll(l, events), e).Accepted?
    ensures
      var w, s := RunAll(l, events), RunAll(l, events + [e]).keys;
      && !e.Fail? && KP.RestsOn(s, read, Some(VerdictOf(l, w, e).key), e.at) && IsOf(w, e, s, read)
      && s.lookups[read].began > e.at - 30_000 - (s.lookups[read].answer.at - s.lookups[read].began)
    ensures
      var w, all := RunAll(l, events), events + [e];
      && settled < |all| && all[settled].Settle? && all[settled].read == read
      && all[settled].rows != [] && KP.Names(all[settled].rows[0], VerdictOf(l, w, e).key)
  {
    assert (events + [e])[..|events|] == events;
    RunIsSound(l, events, from);
    read := VerdictRestsOn(l, RunAll(l, events), e, Time(events, from));
    RunIsTraced(l, events + [e]);
    settled :| SettledBy(events + [e], settled, read, RunAll(l, events + [e]).keys.lookups[read].answer);
    KP.VerifiedIsTheRow((events + [e])[settled].rows, VerdictOf(l, RunAll(l, events), e).key);
  }

  /** A request is refused only for a header that carries no key, or on a read of its key that did not confirm
      it, less than five seconds old. */
  lemma RefusalRestsOnARead(l: Limits, events: seq<Event>, e: Event, from: int) returns (read: K.ReadId)
    requires Proper(l) && InOrder(events + [e], from) && VerdictOf(l, RunAll(l, events), e).Unauthorized?
    ensures
      var s := RunAll(l, events + [e]).keys;
      || (e.Request? && K.Token(e.header).None?)
      || (!e.Fail? && KP.RestsOn(s, read, None, e.at) && IsOf(RunAll(l, events), e, s, read))
  {
    assert (events + [e])[..|events|] == events;
    RunIsSound(l, events, from);
    if e.Request? && K.Token(e.header).None? {
      return 0;
    }
    read := VerdictRestsOn(l, RunAll(l, events), e, Time(events, from));
  }

  /** Once a key is revoked, so that no read begun later confirms it, requests with it stop being let in at
      most one lifetime and one longest read later, in whatever order concurrent reads answer. */
  lemma RevocationTakesEffect(l: Limits, events: seq<Event>, e: Event, from: int, h: K.Hash, revoked: int, longest: int)
    requires Proper(l) && InOrder(events + [e], from) && VerdictOf(l, RunAll(l, events), e).Accepted?
    requires
      var looked := RunAll(l, events + [e]).keys.lookups;
      forall i :: 0 <= i < |looked| && looked[i].hash == h && looked[i].answer.Answered? ==>
        && (looked[i].began >= revoked ==> looked[i].answer.value.None?)
        && looked[i].answer.at - looked[i].began <= longest
    requires Concerns(RunAll(l, events), e, h)
    ensures !e.Fail? && e.at < revoked + longest + 30_000
  {
    var read, _ := AccessRestsOnAConfirmation(l, events, e, from);
    assert RunAll(l, events + [e]).keys.lookups[read].hash == h;
  }

  lemma CacheIsBounded(l: Limits, events: seq<Event>, from: int)
    requires Proper(l) && InOrder(events, from)
    ensures |RunAll(l, events).keys.cache.order| <= K.CACHE_MAX_ENTRIES
  {
    RunIsSound(l, events, from);
  }

  // ----- what each caller is told -----

  /** The cache answers neither way. */
  predicate Unanswered(w: World, e: Event) {
    && e.Request? && K.Token(e.header).Some?
    && var h := K.HashOf(K.Token(e.header).value);
       h !in w.keys.cache.at || w.keys.cache.at[h].expires <= e.at
  }

  lemma ExpiredIsDropped(cache: Table<K.Hash, K.Entry>, header: Option<string>, t: int)
    requires InsertionOrder.Valid(cache) && K.Consulted(cache, header, t).Uncached?
    ensures K.Consulted(cache, header, t).hash !in K.Inspected(cache, header, t).at
  {
    DeleteIsValid(cache, K.Consulted(cache, header, t).hash);
  }

  /** A request with a key the cache does not answer about: with a token at its address's disposal it begins a read
      of its key and waits for it; without one it is told to wait and nothing is read. Either way what the cache
      held of the key is gone, and the limiter is asked once and nothing is spent. */
  lemma GateIsExact(l: Limits, w: World, e: Event)
    requires Proper(l) && InsertionOrder.Valid(w.keys.cache) && Unanswered(w, e)
    ensures
      var v, w', h := VerdictOf(l, w, e), Step(l, w, e), K.HashOf(K.Token(e.header).value);
      && h !in w'.keys.cache.at && w'.calls == w.calls + [Call(e.ip, e.at, false)]
      && if Tokens(l, w, e.ip, e.at) >= 1.0 then
           && v == Waiting(|w.keys.lookups|) && w'.callers == w.callers + [e.ip]
           && w'.keys.lookups == w.keys.lookups + [K.Read(h, e.at, K.Pending)]
         else
           && v.RateLimited? && v.retryAfter >= 1
           && w'.keys.lookups == w.keys.lookups && w'.callers == w.callers
  {
    ExpiredIsDropped(w.keys.cache, e.header, e.at);
    assert w.callers + [] == w.callers && w.keys.lookups + [] == w.keys.lookups;
  }

  /** The wait is the least: that many whole seconds later the bucket holds a token, and no fewer will do. */
  lemma AdviceIsLeast(l: Limits, w: World, e: Event, seconds: int)
    requires Proper(l) && Unanswered(w, e) && VerdictOf(l, w, e).RateLimited? && seconds >= 1
    ensures
      var tokens := Tokens(l, w, e.ip, e.at);
      Min(l.capacity, tokens + Gain(l, 1000 * seconds)) >= 1.0 <==>
      (l.capacity >= 1.0 && seconds >= VerdictOf(l, w, e).retryAfter)
  {
    WaitIsEnough(l, Tokens(l, w, e.ip, e.at), seconds);
  }

  /** An answer from the database that a request waits for: the request is let in as whoever the first row names,
      and when it names nobody it is turned away and its address pays. A read that fails is nobody's fault. */
  lemma AnswersAreExact(l: Limits, w: World, e: Event, key: K.VerifiedKey)
    requires Proper(l) && (e.Settle? || e.Fail?) && Waits(w, e.read)
    ensures e.Settle? ==>
      && (VerdictOf(l, w, e) == Accepted(key) <==> e.rows != [] && KP.Names(e.rows[0], key))
      && (VerdictOf(l, w, e) == Unauthorized <==> e.rows == [] || !KP.IsKeyRow(e.rows[0]))
      && Step(l, w, e).calls ==
           if VerdictOf(l, w, e) == Unauthorized then w.calls + [Call(w.callers[e.read], e.at, true)] else w.calls
    ensures e.Fail? ==> VerdictOf(l, w, e) == Unavailable && Step(l, w, e).calls == w.calls
  {
    assert w.calls + [] == w.calls;
    if e.Settle? {
      KP.VerifiedIsTheRow(e.rows, key);
    }
  }
}
