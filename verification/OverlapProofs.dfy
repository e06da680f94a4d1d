/** The bound on wasted lookups is met: runs in which overlapping requests waste as many as it allows. */
module OverlapProofs {
  import opened Basics
  import opened InsertionOrder
  import opened RateLimit
  import opened RateLimitProofs
  import opened Authentication
  import opened AuthenticationProofs
  import K = KeyVerifier
  import KP = KeyVerifierProofs

  /** After these events, `n` overlapping requests with one unknown key. */
  function Knocks(events: seq<Event>, ip: Id, header: Option<string>, t: int, n: nat): seq<Event> {
    if n == 0 then events else Knocks(events, ip, header, t, n - 1) + [Request(ip, header, t)]
  }

  function Refusal(first: nat, t: int, i: nat): Event {
    Settle(first + i, [], t)
  }

  /** Then all of them are refused at the same instant. */
  function Refusals(events: seq<Event>, first: nat, t: int, n: nat): seq<Event> {
    if n == 0 then events else Refusals(events, first, t, n - 1) + [Refusal(first, t, n - 1)]
  }

  /** Such rounds, one refilled token apart. */
  function Rounds(ip: Id, header: Option<string>, t: int, n: nat, k: nat): seq<Event> {
    if k == 0 then []
    else
      var u := t + 5000 * (k - 1);
      Refusals(Knocks(Rounds(ip, header, t, n, k - 1), ip, header, u, n), Times(n, k - 1), u, n)
  }

  // ----- the address is not evicted -----

  lemma OwnCallKeeps(l: Limits, w: World, e: Event, ip: Id)
    requires Proper(l) && l.maxEntries >= 1 && OwnCall(w, e, ip) && InsertionOrder.Valid(Run(l, w.calls))
    requires KeptSince(l, w.calls, 0, ip)
    ensures KeptSince(l, Step(l, w, e).calls, 0, ip)
  {
    var c := CallOf(w, e);
    if c.Some? {
      OwnIsKept(l, Run(l, w.calls), c.value);
      assert (w.calls + [c.value])[..|w.calls|] == w.calls;
    } else {
      NoCall(w);
    }
  }

  lemma NewestIsKept(m: Table<Id, Level>, id: Id, b: Level, max: nat)
    requires InsertionOrder.Valid(m) && max >= 1
    ensures id in Trim(Touched(m, id, b), max).at
  {
    var all := Touched(m, id, b);
    DeleteIsValid(m, id);
    SetIsValid(Delete(m, id), id, b);
    WithoutKeepsOthers(m.order, id);
    TrimKeepsNewest(all, max);
    assert all.order[|all.order| - 1] == id;
    assert id in Trim(all, max).order;
  }

  /** The newest address is always kept. */
  lemma OwnIsKept(l: Limits, m: Table<Id, Level>, c: Call)
    requires Proper(l) && InsertionOrder.Valid(m) && l.maxEntries >= 1
    ensures c.id in Handle(l, m, c).at
  {
    NewestIsKept(m, c.id, Level(Available(l, Lookup(m, c.id), c.at), c.at), l.maxEntries);
  }

  lemma {:induction false} ToldMost(l: Limits, events: seq<Event>, from: int, ip: Id, n: nat)
    requires Proper(l) && Told(l, events, 0, from, ip).most <= n
    ensures AtMost(l, events, 0, ip, n)
  {
    if events != [] {
      ToldMost(l, events[..|events| - 1], from, ip, n);
      ToldRuns(l, events, 0, from, ip);
    }
  }

  lemma {:induction false} ToldKept(l: Limits, events: seq<Event>, from: int, ip: Id)
    requires Proper(l) && l.maxEntries >= 1 && Told(l, events, 0, from, ip).sole
    ensures KeptSince(l, Told(l, events, 0, from, ip).w.calls, 0, ip)
  {
    if events != [] {
      var before := events[..|events| - 1];
      var f := Told(l, before, 0, from, ip);
      ToldKept(l, before, from, ip);
      ToldRuns(l, before, 0, from, ip);
      RunIsOrdered(l, before, from);
      RunFits(l, f.w.calls, ip, f.now);
      OwnCallKeeps(l, f.w, events[|events| - 1], ip);
    }
  }

  // ----- one round -----

  /** `n` requests of a round: the key is unknown, `r` reads are over, `j` wait, and the bucket holds one. */
  ghost predicate Knocked(w: World, ip: Id, h: K.Hash, t: int, r: nat, j: nat) {
    && Matched(w) && |w.callers| == r + j && InsertionOrder.Valid(w.keys.cache)
    && (h in w.keys.cache.at ==> w.keys.cache.at[h].expires <= t)
    && Waiting(w, ip, r, r + j) && |InFlight(w, ip)| == j
    && (forall x :: r <= x < r + j ==> w.keys.lookups[x].hash == h)
  }

  ghost predicate Waiting(w: World, ip: Id, a: nat, b: nat) {
    forall x: K.ReadId :: x in InFlight(w, ip) <==> a <= x < b
  }

  /** A header that carries the key of this digest. */
  ghost predicate Sends(header: Option<string>, h: K.Hash) {
    K.Token(header).Some? && h == K.HashOf(K.Token(header).value)
  }

  lemma UnknownIsAsked(w: World, e: Event, h: K.Hash)
    requires e.Request? && Sends(e.header, h) && (h in w.keys.cache.at ==> w.keys.cache.at[h].expires <= e.at)
    ensures Consulted(w, e) == K.Uncached(h) && CallOf(w, e) == Some(Call(e.ip, e.at, false))
  {
  }

  lemma KnockWaits(l: Limits, w: World, ip: Id, e: Event, h: K.Hash, t: int, r: nat, j: nat)
    requires Proper(l) && Knocked(w, ip, h, t, r, j) && GateOpen(l, w, ip, t)
    requires e.Request? && e.ip == ip && e.at == t && Consulted(w, e) == K.Uncached(h)
    ensures Knocked(Step(l, w, e), ip, h, t, r, j + 1)
  {
    StepFlight(l, w, e, ip);
    DeleteIsValid(w.keys.cache, h);
  }

  /** `i` of the round's `n` reads are answered, and what the cache says of the key is over in time. */
  ghost predicate Answering(w: World, ip: Id, h: K.Hash, t: int, r: nat, n: nat, i: nat)
    requires i <= n
  {
    && Matched(w) && |w.callers| == r + n && InsertionOrder.Valid(w.keys.cache)
    && Waiting(w, ip, r + i, r + n) && |InFlight(w, ip)| == n - i
    && (forall x :: r + i <= x < r + n ==> w.keys.lookups[x].hash == h)
    && (h in w.keys.cache.at ==> w.keys.cache.at[h].expires <= t + 5000)
  }

  lemma RefusalIsAnswered(l: Limits, w: World, ip: Id, h: K.Hash, t: int, r: nat, n: nat, i: nat)
    requires Proper(l) && i < n && Answering(w, ip, h, t, r, n, i)
    ensures Refuses(w, Settle(r + i, [], t)) && w.callers[r + i] == ip
    ensures Answering(Step(l, w, Settle(r + i, [], t)), ip, h, t, r, n, i + 1)
  {
    var e := Settle(r + i, [], t);
    assert r + i in InFlight(w, ip);
    StepFlight(l, w, e, ip);
    KP.RememberedIsSubset(w.keys.cache, h, K.EntryFor(None, t, r + i));
  }

  lemma OneInBucket(l: Limits, b: Option<Level>, c: Call)
    requires Proper(l) && l.capacity == 1.0 && Fits(l, b, c.at) && Available(l, b, c.at) in {0.0, 1.0}
    ensures
      var spent := if c.spends && Available(l, b, c.at) == 1.0 then 1.0 else 0.0;
      Available(l, Some(Left(l, b, c)), c.at) == Available(l, b, c.at) - spent
  {
    LaterAvailable(l, b, c.at, c.at);
  }

  lemma OneLeft(l: Limits, calls: seq<Call>, c: Call)
    requires Proper(l) && l.capacity == 1.0 && l.maxEntries >= 1 && CallsBefore(calls, c.at)
    requires Available(l, Lookup(Run(l, calls), c.id), c.at) in {0.0, 1.0}
    ensures
      var m := Run(l, calls);
      var spent := if c.spends && Available(l, Lookup(m, c.id), c.at) == 1.0 then 1.0 else 0.0;
      Available(l, Lookup(Handle(l, m, c), c.id), c.at) == Available(l, Lookup(m, c.id), c.at) - spent
  {
    RunFits(l, calls, c.id, c.at);
    OwnIsKept(l, Run(l, calls), c);
    HandleLookup(l, Run(l, calls), c, c.id);
    OneInBucket(l, Lookup(Run(l, calls), c.id), c);
  }

  /** One token at `t` is there for the first refused request only, and back after a window. */
  lemma OneToken(l: Limits, w: World, e: Event, ip: Id, t: int)
    requires Proper(l) && l.capacity == 1.0 && l.maxEntries >= 1 && CallsBefore(w.calls, t) && Moment(e, t) == t
    requires CallOf(w, e).Some? && CallOf(w, e).value.id == ip
    requires Tokens(l, w, ip, t) in {0.0, 1.0}
    ensures
      var spent := CallOf(w, e).value.spends && Tokens(l, w, ip, t) == 1.0;
      && Paid(l, w, e, ip) == (if spent then 1 else 0)
      && Tokens(l, Step(l, w, e), ip, t) == Tokens(l, w, ip, t) - if spent then 1.0 else 0.0
  {
    var c, m := CallOf(w, e).value, Run(l, w.calls);
    assert c.at == t;
    RunCall(l, w.calls, c);
    assert Step(l, w, e).calls == w.calls + [c];
    assert Run(l, Step(l, w, e).calls) == Handle(l, m, c);
    OneLeft(l, w.calls, c);
    assert Paid(l, w, e, ip) == Granted(l, m, c, ip);
  }

  lemma WindowRefills(l: Limits, w: World, ip: Id, t: int)
    requires l == Limited(1.0, 5000, l.maxEntries) && CallsBefore(w.calls, t)
    ensures Tokens(l, w, ip, t + 5000) == 1.0
  {
    WindowGivesCapacity(1.0, 5000, l.maxEntries);
    RunFits(l, w.calls, ip, t);
    LaterAvailable(l, Lookup(Run(l, w.calls), ip), t, t + 5000);
  }

  ghost predicate KnockRun(l: Limits, f: Facts, ip: Id, h: K.Hash, t: int, n: nat,
                           wasted: nat, accepted: nat, r: nat, j: nat)
    requires Proper(l)
  {
    && f.sole && f.now <= t && CallsBefore(f.w.calls, f.now)
    && f.wasted == wasted && f.accepted == accepted && f.most <= n
    && Knocked(f.w, ip, h, t, r, j) && Tokens(l, f.w, ip, t) == 1.0
  }

  lemma KnockOnce(l: Limits, header: Option<string>, f: Facts, ip: Id, h: K.Hash, t: int, n: nat,
                  wasted: nat, accepted: nat, r: nat, j: nat)
    requires Sends(header, h)
    requires Proper(l) && l.capacity == 1.0 && l.maxEntries >= 1 && j < n
    requires KnockRun(l, f, ip, h, t, n, wasted, accepted, r, j)
    ensures
      var f1 := Next(l, f, Request(ip, header, t), ip);
      KnockRun(l, f1, ip, h, t, n, wasted, accepted, r, j + 1) && f1.now == t
  {
    var e := Request(ip, header, t);
    UnknownIsAsked(f.w, e, h);
    KnockWaits(l, f.w, ip, e, h, t, r, j);
    OneToken(l, f.w, e, ip, t);
    StepCalls(l, f.w, e, ip, f.now);
  }

  /** The same while `i` of the round's reads are answered. */
  ghost predicate AnswerRun(l: Limits, f: Facts, ip: Id, h: K.Hash, t: int, n: nat,
                            wasted: nat, accepted: nat, tokens: real, r: nat, i: nat)
    requires Proper(l) && i <= n
  {
    && f.sole && f.now == t && CallsBefore(f.w.calls, f.now)
    && f.wasted == wasted + i && f.accepted == accepted && f.most <= n
    && Answering(f.w, ip, h, t, r, n, i) && Tokens(l, f.w, ip, t) == tokens
  }

  lemma AnswerOnce(l: Limits, f: Facts, ip: Id, h: K.Hash, t: int, n: nat,
                   wasted: nat, accepted: nat, tokens: real, r: nat, i: nat, paid: nat)
    requires Proper(l) && l.capacity == 1.0 && l.maxEntries >= 1 && i < n
    requires tokens == paid as real && paid <= 1
    requires AnswerRun(l, f, ip, h, t, n, wasted, accepted, tokens, r, i)
    ensures AnswerRun(l, Next(l, f, Refusal(r, t, i), ip), ip, h, t, n, wasted, accepted + paid, 0.0, r, i + 1)
  {
    var e := Refusal(r, t, i);
    RefusalIsAnswered(l, f.w, ip, h, t, r, n, i);
    OneToken(l, f.w, e, ip, t);
    StepCalls(l, f.w, e, ip, f.now);
  }

  /** The next round finds the key unknown again, and one token. */
  lemma RoundReopens(l: Limits, f: Facts, ip: Id, h: K.Hash, t: int, n: nat,
                     wasted: nat, accepted: nat, r: nat)
    requires l == Limited(1.0, 5000, l.maxEntries) && n >= 1
    requires AnswerRun(l, f, ip, h, t, n, wasted, accepted, 0.0, r, n)
    ensures KnockRun(l, f, ip, h, t + 5000, n, wasted + n, accepted, r + n, 0)
  {
    WindowRefills(l, f.w, ip, t);
  }

  lemma KnockedWaits(l: Limits, f: Facts, ip: Id, h: K.Hash, t: int, n: nat,
                     wasted: nat, accepted: nat, r: nat)
    requires Proper(l) && f.now == t
    requires KnockRun(l, f, ip, h, t, n, wasted, accepted, r, n)
    ensures AnswerRun(l, f, ip, h, t, n, wasted, accepted, 1.0, r, 0)
  {
  }

  // ----- runs of such rounds -----

  /** A run from `from` on, and what it comes to. */
  datatype Trace = Trace(events: seq<Event>, facts: Facts)

  ghost predicate Whole(l: Limits, r: Trace, from: int, ip: Id)
    requires Proper(l)
  {
    r.facts == Told(l, r.events, 0, from, ip)
  }

  lemma Extend(l: Limits, r: Trace, e: Event, from: int, ip: Id) returns (r1: Trace)
    requires Proper(l) && Whole(l, r, from, ip)
    ensures Whole(l, r1, from, ip) && r1.events == r.events + [e] && r1.facts == Next(l, r.facts, e, ip)
  {
    assert (r.events + [e])[..|r.events|] == r.events;
    r1 := Trace(r.events + [e], Next(l, r.facts, e, ip));
  }

  lemma KnockNext(l: Limits, header: Option<string>, x: Trace, from: int, ip: Id, h: K.Hash, t: int, n: nat,
                  wasted: nat, accepted: nat, r: nat, j: nat) returns (y: Trace)
    requires Sends(header, h)
    requires Proper(l) && l.capacity == 1.0 && l.maxEntries >= 1 && j < n
    requires Whole(l, x, from, ip) && KnockRun(l, x.facts, ip, h, t, n, wasted, accepted, r, j)
    ensures Whole(l, y, from, ip) && KnockRun(l, y.facts, ip, h, t, n, wasted, accepted, r, j + 1)
    ensures y.events == x.events + [Request(ip, header, t)] && y.facts.now == t
  {
    y := Extend(l, x, Request(ip, header, t), from, ip);
    KnockOnce(l, header, x.facts, ip, h, t, n, wasted, accepted, r, j);
  }

  lemma {:induction false} KnockAll(l: Limits, header: Option<string>, x: Trace, from: int, ip: Id, h: K.Hash, t: int, n: nat,
                                    wasted: nat, accepted: nat, r: nat, j: nat) returns (y: Trace)
    requires Sends(header, h)
    requires Proper(l) && l.capacity == 1.0 && l.maxEntries >= 1 && j <= n
    requires Whole(l, x, from, ip) && KnockRun(l, x.facts, ip, h, t, n, wasted, accepted, r, 0)
    ensures Whole(l, y, from, ip) && KnockRun(l, y.facts, ip, h, t, n, wasted, accepted, r, j)
    ensures y.events == Knocks(x.events, ip, header, t, j) && (j > 0 ==> y.facts.now == t)
    decreases j
  {
    y := x;
    if j > 0 {
      var z := KnockAll(l, header, x, from, ip, h, t, n, wasted, accepted, r, j - 1);
      y := KnockNext(l, header, z, from, ip, h, t, n, wasted, accepted, r, j - 1);
    }
  }

  lemma AnswerNext(l: Limits, x: Trace, from: int, ip: Id, h: K.Hash, t: int, n: nat,
                   wasted: nat, accepted: nat, tokens: real, r: nat, i: nat, paid: nat) returns (y: Trace)
    requires Proper(l) && l.capacity == 1.0 && l.maxEntries >= 1 && i < n
    requires tokens == paid as real && paid <= 1
    requires Whole(l, x, from, ip) && AnswerRun(l, x.facts, ip, h, t, n, wasted, accepted, tokens, r, i)
    ensures Whole(l, y, from, ip) && AnswerRun(l, y.facts, ip, h, t, n, wasted, accepted + paid, 0.0, r, i + 1)
    ensures y.events == x.events + [Refusal(r, t, i)]
  {
    y := Extend(l, x, Refusal(r, t, i), from, ip);
    AnswerOnce(l, x.facts, ip, h, t, n, wasted, accepted, tokens, r, i, paid);
  }

  /** The first answer takes the token, and the others find none. */
  lemma {:induction false} LaterAnswers(l: Limits, x: Trace, from: int, ip: Id, h: K.Hash, t: int, n: nat,
                                        wasted: nat, accepted: nat, r: nat, i: nat) returns (y: Trace)
    requires Proper(l) && l.capacity == 1.0 && l.maxEntries >= 1 && 1 <= i <= n
    requires Whole(l, x, from, ip) && AnswerRun(l, x.facts, ip, h, t, n, wasted, accepted, 0.0, r, 1)
    ensures Whole(l, y, from, ip) && AnswerRun(l, y.facts, ip, h, t, n, wasted, accepted, 0.0, r, i)
    ensures forall events :: x.events == Refusals(events, r, t, 1) ==> y.events == Refusals(events, r, t, i)
    decreases i
  {
    y := x;
    if i > 1 {
      var z := LaterAnswers(l, x, from, ip, h, t, n, wasted, accepted, r, i - 1);
      y := AnswerNext(l, z, from, ip, h, t, n, wasted, accepted, 0.0, r, i - 1, 0);
    }
  }

  lemma AnswerAll(l: Limits, x: Trace, from: int, ip: Id, h: K.Hash, t: int, n: nat,
                  wasted: nat, accepted: nat, r: nat) returns (y: Trace)
    requires Proper(l) && l.capacity == 1.0 && l.maxEntries >= 1 && n >= 1
    requires Whole(l, x, from, ip) && AnswerRun(l, x.facts, ip, h, t, n, wasted, accepted, 1.0, r, 0)
    ensures Whole(l, y, from, ip) && AnswerRun(l, y.facts, ip, h, t, n, wasted, accepted + 1, 0.0, r, n)
    ensures y.events == Refusals(x.events, r, t, n)
  {
    var z := AnswerNext(l, x, from, ip, h, t, n, wasted, accepted, 1.0, r, 0, 1);
    assert Refusals(x.events, r, t, 0) == x.events;
    y := LaterAnswers(l, z, from, ip, h, t, n, wasted, accepted + 1, r, n);
  }

  lemma OneRound(l: Limits, header: Option<string>, x: Trace, from: int, ip: Id, h: K.Hash, t: int, n: nat,
                 wasted: nat, accepted: nat, r: nat) returns (y: Trace)
    requires Sends(header, h)
    requires l == Limited(1.0, 5000, l.maxEntries) && l.maxEntries >= 1 && n >= 1
    requires Whole(l, x, from, ip) && KnockRun(l, x.facts, ip, h, t, n, wasted, accepted, r, 0)
    ensures Whole(l, y, from, ip)
    ensures KnockRun(l, y.facts, ip, h, t + 5000, n, wasted + n, accepted + 1, r + n, 0)
    ensures y.events == Refusals(Knocks(x.events, ip, header, t, n), r, t, n) && y.facts.now == t
  {
    var z := KnockAll(l, header, x, from, ip, h, t, n, wasted, accepted, r, n);
    KnockedWaits(l, z.facts, ip, h, t, n, wasted, accepted, r);
    y := AnswerAll(l, z, from, ip, h, t, n, wasted, accepted, r);
    RoundReopens(l, y.facts, ip, h, t, n, wasted, accepted + 1, r);
  }

  lemma NoRounds(l: Limits, ip: Id, h: K.Hash, t: int, n: nat) returns (x: Trace)
    requires Proper(l) && l.capacity == 1.0
    ensures Whole(l, x, t, ip) && KnockRun(l, x.facts, ip, h, t, n, 0, 0, 0, 0) && x.events == []
  {
    assert InFlight(Fresh(), ip) == {};
    x := Trace([], Told(l, [], 0, t, ip));
  }

  /** `x` is the run of `k` rounds: `r` lookups were wasted, and the next round can begin at `u`. */
  ghost predicate AtRound(l: Limits, x: Trace, header: Option<string>, ip: Id, h: K.Hash, t: int, n: nat, k: nat,
                          u: int, r: nat)
    requires Proper(l)
  {
    && Whole(l, x, t, ip) && KnockRun(l, x.facts, ip, h, u, n, r, k, r, 0)
    && x.events == Rounds(ip, header, t, n, k) && (k > 0 ==> x.facts.now == u - 5000)
  }

  lemma NextRound(l: Limits, header: Option<string>, z: Trace, ip: Id, h: K.Hash, t: int, n: nat, k: nat, u: int, r: nat)
    returns (x: Trace)
    requires Sends(header, h)
    requires l == Limited(1.0, 5000, l.maxEntries) && l.maxEntries >= 1 && n >= 1
    requires k > 0 && u == t + 5000 * k && r == Times(n, k)
    requires AtRound(l, z, header, ip, h, t, n, k - 1, u - 5000, r - n)
    ensures AtRound(l, x, header, ip, h, t, n, k, u, r)
  {
    x := OneRound(l, header, z, t, ip, h, u - 5000, n, r - n, k - 1, r - n);
  }

  lemma FirstRound(l: Limits, header: Option<string>, ip: Id, h: K.Hash, t: int, n: nat) returns (x: Trace)
    requires Proper(l) && l.capacity == 1.0
    ensures AtRound(l, x, header, ip, h, t, n, 0, t, 0)
  {
    x := NoRounds(l, ip, h, t, n);
  }

  lemma {:induction false} AllRounds(l: Limits, header: Option<string>, ip: Id, h: K.Hash, t: int, n: nat, k: nat,
                                     u: int, r: nat) returns (x: Trace)
    requires Sends(header, h)
    requires l == Limited(1.0, 5000, l.maxEntries) && l.maxEntries >= 1 && n >= 1
    requires u == t + 5000 * k && r == Times(n, k)
    ensures AtRound(l, x, header, ip, h, t, n, k, u, r)
    decreases k
  {
    if k == 0 {
      x := FirstRound(l, header, ip, h, t, n);
      return;
    }
    var z := AllRounds(l, header, ip, h, t, n, k - 1, u - 5000, r - n);
    x := NextRound(l, header, z, ip, h, t, n, k, u, r);
  }

  lemma RateIsOneAWindow(l: Limits, k: nat)
    requires l == Limited(1.0, 5000, l.maxEntries)
    ensures Gain(l, 5000 * k) == k as real
  {
    GainIsProduct(l, 5000 * k);
  }

  /** A run from `t` in which this address alone calls: its length, and what it wasted and paid. */
  ghost predicate Spent(l: Limits, events: seq<Event>, t: int, ms: nat, ip: Id, n: nat, wasted: nat, accepted: nat)
    requires Proper(l)
  {
    && InOrder(events, t) && Time(events, t) == t + ms && AtMost(l, events, 0, ip, n)
    && KeptSince(l, RunAll(l, events).calls, 0, ip)
    && WastedSince(l, events, 0, ip) == wasted && AcceptedSince(l, RunAll(l, events).calls, 0, ip) == accepted
  }

  lemma WholeSpent(l: Limits, x: Trace, t: int, ms: nat, ip: Id, n: nat)
    requires Proper(l) && l.maxEntries >= 1 && Whole(l, x, t, ip)
    requires x.facts.sole && x.facts.most <= n && x.facts.now == t + ms
    ensures Spent(l, x.events, t, ms, ip, n, x.facts.wasted, x.facts.accepted)
  {
    ToldRuns(l, x.events, 0, t, ip);
    ToldMost(l, x.events, t, ip, n);
    ToldSums(l, x.events, 0, t, ip);
    ToldKept(l, x.events, t, ip);
    assert x.events[..0] == [];
  }

  lemma RoundsSpent(l: Limits, ip: Id, header: Option<string>, h: K.Hash, t: int, n: nat, k: nat, wasted: nat)
    requires l == Limited(1.0, 5000, l.maxEntries) && l.maxEntries >= 1 && Sends(header, h) && n >= 1 && k >= 1
    requires wasted == Times(n, k)
    ensures Spent(l, Rounds(ip, header, t, n, k), t, 5000 * (k - 1), ip, n, wasted, k)
  {
    var x := AllRounds(l, header, ip, h, t, n, k, t + 5000 * k, wasted);
    WholeSpent(l, x, t, 5000 * (k - 1), ip, n);
  }

  /** The bound is met, for every number of overlapping requests: `k` rounds one refill apart waste `n * k`
      lookups on `k` payments, as many as a full bucket and the rate give. */
  lemma OverlapMultiplies(l: Limits, ip: Id, header: Option<string>, h: K.Hash, t: int, n: nat, k: nat)
    requires l == Limited(1.0, 5000, l.maxEntries) && l.maxEntries >= 1 && Sends(header, h) && n >= 1 && k >= 1
    ensures Spent(l, Rounds(ip, header, t, n, k), t, 5000 * (k - 1), ip, n, n * k, k)
    ensures l.capacity + Gain(l, 5000 * (k - 1)) == k as real
  {
    TimesIsProduct(n, k);
    RoundsSpent(l, ip, header, h, t, n, k, n * k);
    RateIsOneAWindow(l, k - 1);
  }

  lemma AboveOneEach(n: nat, k: nat)
    requires n >= 1 && k >= 1
    ensures n * k <= k <==> n == 1
    ensures n * k <= k + n <==> (n - 1) * (k - 1) <= 1
  {
    assert (n - 1) * (k - 1) == n * k - n - k + 1;
    if n >= 2 {
      assert n * k >= 2 * k;
    }
  }

  /** What a run from `t` may waste if a full bucket and the rate bound it, for its own length. */
  function Budget(l: Limits, events: seq<Event>, t: int): real {
    l.capacity + Gain(l, Time(events, t) - t)
  }

  lemma SpentBudget(l: Limits, events: seq<Event>, t: int, ms: nat, ip: Id, n: nat, wasted: nat, k: nat)
    requires Proper(l) && Spent(l, events, t, ms, ip, n, wasted, k) && l.capacity + Gain(l, ms) == k as real
    ensures WastedSince(l, events, 0, ip) == wasted && Budget(l, events, t) == k as real
  {
  }

  /** On these runs a full bucket and the rate bound the waste exactly without overlap, and with the most in
      flight added once exactly when there is a single round, no overlap, or two rounds of two. */
  lemma AdditiveBoundFails(l: Limits, ip: Id, header: Option<string>, h: K.Hash, t: int, n: nat, k: nat)
    requires l == Limited(1.0, 5000, l.maxEntries) && l.maxEntries >= 1 && Sends(header, h) && n >= 1 && k >= 1
    ensures
      var events := Rounds(ip, header, t, n, k);
      var wasted := WastedSince(l, events, 0, ip) as real;
      && (wasted <= Budget(l, events, t) <==> n == 1)
      && (wasted <= Budget(l, events, t) + n as real <==> (n - 1) * (k - 1) <= 1)
  {
    OverlapMultiplies(l, ip, header, h, t, n, k);
    SpentBudget(l, Rounds(ip, header, t, n, k), t, 5000 * (k - 1), ip, n, n * k, k);
    AboveOneEach(n, k);
  }
}
