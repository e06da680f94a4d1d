/** What overlapping requests can cost, and which of them the cache answers, in every run. */
module AuthenticationProofs {
  import opened Basics
  import opened InsertionOrder
  import opened RateLimit
  import opened RateLimitProofs
  import opened Authentication
  import Json
  import K = KeyVerifier
  import KP = KeyVerifierProofs

  /** The moment an event happens; a failed read has none of its own. */
  function Moment(e: Event, now: int): int {
    if e.Fail? then now else e.at
  }

  function Time(events: seq<Event>, from: int): int {
    if events == [] then from else Moment(events[|events| - 1], Time(events[..|events| - 1], from))
  }

  ghost predicate InOrder(events: seq<Event>, from: int) {
    events != [] ==>
      && InOrder(events[..|events| - 1], from)
      && Time(events[..|events| - 1], from) <= Time(events, from)
  }

  // ----- the limiter -----

  ghost predicate CallsBefore(calls: seq<Call>, now: int) {
    Ordered(calls) && (calls != [] ==> calls[|calls| - 1].at <= now)
  }

  lemma OneMoreCall(calls: seq<Call>, c: Call, now: int)
    requires CallsBefore(calls, now) && now <= c.at
    ensures CallsBefore(calls + [c], c.at)
  {
    var all := calls + [c];
    assert all[..|all| - 1] == calls && all[|all| - 1] == c;
    assert calls != [] ==> all[|all| - 2] == calls[|calls| - 1];
  }

  lemma RunCall(l: Limits, calls: seq<Call>, c: Call)
    requires Proper(l)
    ensures Run(l, calls + [c]) == Handle(l, Run(l, calls), c)
    ensures forall from, id :: 0 <= from <= |calls| ==>
      AcceptedSince(l, calls + [c], from, id) == AcceptedSince(l, calls, from, id) + Granted(l, Run(l, calls), c, id)
  {
    assert (calls + [c])[..|calls|] == calls;
  }

  lemma NoCall(w: World)
    ensures w.calls + [] == w.calls
  {
  }

  /** What an event's limiter call was given from this address's bucket. */
  function Paid(l: Limits, w: World, e: Event, ip: Id): nat
    requires Proper(l)
  {
    var c := CallOf(w, e);
    if c.Some? then Granted(l, Run(l, w.calls), c.value, ip) else 0
  }

  /** A bucket loses only what was granted from it; an eviction even fills it. */
  lemma CallLeaves(l: Limits, calls: seq<Call>, c: Call, ip: Id, now: int)
    requires Proper(l) && CallsBefore(calls, now) && now <= c.at
    ensures
      var m := Run(l, calls);
      Available(l, Lookup(Handle(l, m, c), ip), c.at) >= Available(l, Lookup(m, ip), c.at) - Granted(l, m, c, ip) as real
  {
    var m := Run(l, calls);
    RunFits(l, calls, ip, c.at);
    LaterAvailable(l, Lookup(m, ip), c.at, c.at);
    HandleLookup(l, m, c, ip);
  }

  lemma TokensGrow(l: Limits, w: World, ip: Id, now: int, t: int)
    requires Proper(l) && CallsBefore(w.calls, now) && now <= t
    ensures Tokens(l, w, ip, now) <= Tokens(l, w, ip, t)
  {
    RunFits(l, w.calls, ip, now);
    LaterAvailable(l, Lookup(Run(l, w.calls), ip), now, t);
  }

  lemma StepCalls(l: Limits, w: World, e: Event, ip: Id, now: int)
    requires Proper(l) && CallsBefore(w.calls, now) && now <= Moment(e, now)
    ensures
      var w1, t := Step(l, w, e), Moment(e, now);
      && CallsBefore(w1.calls, t)
      && Tokens(l, w1, ip, t) >= Tokens(l, w, ip, now) - Paid(l, w, e, ip) as real
      && (forall from :: 0 <= from <= |w.calls| ==>
           AcceptedSince(l, w1.calls, from, ip) == AcceptedSince(l, w.calls, from, ip) + Paid(l, w, e, ip))
  {
    var c, t := CallOf(w, e), Moment(e, now);
    TokensGrow(l, w, ip, now, t);
    if c.Some? {
      assert c.value.at == t;
      OneMoreCall(w.calls, c.value, now);
      RunCall(l, w.calls, c.value);
      CallLeaves(l, w.calls, c.value, ip, now);
    } else {
      NoCall(w);
    }
  }

  // ----- the reads in flight -----

  /** The reads this address waits for. */
  ghost function InFlight(w: World, ip: Id): set<K.ReadId> {
    set r: K.ReadId | r < |w.callers| && Waits(w, r) && w.callers[r] == ip
  }

  ghost predicate Matched(w: World) {
    |w.callers| == |w.keys.lookups|
  }

  lemma StepFlight(l: Limits, w: World, e: Event, ip: Id)
    requires Proper(l) && Matched(w)
    ensures Matched(Step(l, w, e))
    ensures InFlight(Step(l, w, e), ip) ==
      if e.Request? then InFlight(w, ip) + (if Begins(l, w, e) && e.ip == ip then {|w.callers|} else {})
      else InFlight(w, ip) - {e.read}
  {
  }

  /** A lookup this address caused for a key the database did not confirm. */
  function Wasted(w: World, e: Event, ip: Id): nat {
    if Refuses(w, e) && w.callers[e.read] == ip then 1 else 0
  }

  function WastedSince(l: Limits, events: seq<Event>, from: nat, ip: Id): nat
    requires Proper(l)
  {
    if |events| <= from then 0
    else
      var before := events[..|events| - 1];
      WastedSince(l, before, from, ip) + Wasted(RunAll(l, before), events[|events| - 1], ip)
  }

  /** From here on this address never waits for more than `n` reads at once. */
  ghost predicate AtMost(l: Limits, events: seq<Event>, from: nat, ip: Id, n: nat)
    requires Proper(l)
  {
    && |InFlight(RunAll(l, events), ip)| <= n
    && (|events| > from ==> AtMost(l, events[..|events| - 1], from, ip, n))
  }

  // ----- the bound -----

  function Times(n: nat, k: nat): nat {
    if k == 0 then 0 else n + Times(n, k - 1)
  }

  lemma {:induction false} TimesAdds(n: nat, a: nat, b: nat)
    requires b <= 1
    ensures Times(n, a + b) == Times(n, a) + Times(n, b)
  {
  }

  lemma {:induction false} TimesIsProduct(n: nat, k: nat)
    ensures Times(n, k) == n * k
  {
    if k > 0 {
      TimesIsProduct(n, k - 1);
    }
  }

  /** The lookups in flight that no token is left for. */
  ghost function Unpayable(l: Limits, w: World, ip: Id, t: int): nat
    requires Proper(l)
  {
    if GateOpen(l, w, ip, t) then 0 else |InFlight(w, ip)|
  }

  /** `wasted` lookups, and those left `beyond` the tokens, are covered by those that were `before` and by `n`
      for each payment. */
  ghost predicate Covered(wasted: nat, before: nat, beyond: nat, n: nat, paid: nat) {
    wasted + beyond <= before + Times(n, paid)
  }

  lemma CoveredAdds(x: nat, y: nat, u: nat, v: nat, w: nat, n: nat, a: nat, p: nat)
    requires p <= 1 && Covered(x, u, v, n, a) && Covered(y, v, w, n, p)
    ensures Covered(x + y, u, w, n, a + p)
  {
    TimesAdds(n, a, p);
  }

  ghost predicate StepCovered(l: Limits, w: World, e: Event, ip: Id, now: int, n: nat)
    requires Proper(l)
  {
    Covered(Wasted(w, e, ip), Unpayable(l, w, ip, now), Unpayable(l, Step(l, w, e), ip, Moment(e, now)), n,
            Paid(l, w, e, ip))
  }

  /** While a token is there, a refused lookup is paid for. */
  lemma RefusalIsPaid(l: Limits, w: World, e: Event, ip: Id, now: int)
    requires Proper(l) && CallsBefore(w.calls, now) && now <= Moment(e, now) && Wasted(w, e, ip) == 1
    ensures GateOpen(l, w, ip, now) ==> Paid(l, w, e, ip) == 1
  {
    TokensGrow(l, w, ip, now, e.at);
  }

  lemma BeginningIsFree(l: Limits, w: World, e: Event, now: int)
    requires Proper(l) && CallsBefore(w.calls, now) && now <= Moment(e, now) && Begins(l, w, e)
    ensures GateOpen(l, Step(l, w, e), e.ip, e.at)
  {
    var c := Call(e.ip, e.at, false);
    RunCall(l, w.calls, c);
    CallLeaves(l, w.calls, c, e.ip, now);
  }

  lemma PaidIsOneAtMost(l: Limits, w: World, e: Event, ip: Id)
    requires Proper(l)
    ensures Paid(l, w, e, ip) <= 1
  {
  }

  lemma WasteIsCovered(l: Limits, w: World, e: Event, ip: Id, now: int, n: nat)
    requires Proper(l) && CallsBefore(w.calls, now) && now <= Moment(e, now) && Matched(w)
    requires |InFlight(w, ip)| <= n && Wasted(w, e, ip) == 1
    ensures StepCovered(l, w, e, ip, now, n)
  {
    StepFlight(l, w, e, ip);
    RefusalIsPaid(l, w, e, ip, now);
    assert e.read in InFlight(w, ip);
  }

  lemma BeginIsCovered(l: Limits, w: World, e: Event, now: int, n: nat)
    requires Proper(l) && CallsBefore(w.calls, now) && now <= Moment(e, now) && Begins(l, w, e)
    ensures StepCovered(l, w, e, e.ip, now, n)
  {
    BeginningIsFree(l, w, e, now);
  }

  lemma OtherIsCovered(l: Limits, w: World, e: Event, ip: Id, now: int, n: nat)
    requires Proper(l) && CallsBefore(w.calls, now) && now <= Moment(e, now) && Matched(w)
    requires Wasted(w, e, ip) == 0 && !(Begins(l, w, e) && e.ip == ip) && |InFlight(w, ip)| <= n
    ensures StepCovered(l, w, e, ip, now, n)
  {
    StepFlight(l, w, e, ip);
    StepCalls(l, w, e, ip, now);
    SubsetSize(InFlight(Step(l, w, e), ip), InFlight(w, ip));
    assert Times(n, 1) == n;
  }

  /** A lookup is begun only while there is a token, so those a spent token leaves unpaid are all in flight. */
  lemma StepIsCovered(l: Limits, w: World, e: Event, ip: Id, now: int, n: nat)
    requires Proper(l) && CallsBefore(w.calls, now) && now <= Moment(e, now) && Matched(w)
    requires |InFlight(w, ip)| <= n
    ensures StepCovered(l, w, e, ip, now, n)
  {
    if Wasted(w, e, ip) == 1 {
      WasteIsCovered(l, w, e, ip, now, n);
    } else if Begins(l, w, e) && e.ip == ip {
      BeginIsCovered(l, w, e, now, n);
    } else {
      OtherIsCovered(l, w, e, ip, now, n);
    }
  }

  lemma {:induction false} RunIsOrdered(l: Limits, events: seq<Event>, from: int)
    requires Proper(l) && InOrder(events, from)
    ensures CallsBefore(RunAll(l, events).calls, Time(events, from)) && Matched(RunAll(l, events))
  {
    if events != [] {
      var before, e := events[..|events| - 1], events[|events| - 1];
      RunIsOrdered(l, before, from);
      StepCalls(l, RunAll(l, before), e, Id(""), Time(before, from));
      StepFlight(l, RunAll(l, before), e, Id(""));
    }
  }

  // ----- what a stretch of a run comes to -----

  /** Where a stretch ends, with its counts; `most` reads were in flight at once, and `sole` says that the
      events came in order and no other address called. */
  datatype Facts = Facts(w: World, now: int, wasted: nat, accepted: nat, most: nat, sole: bool)

  /** Only this address calls. */
  ghost predicate OwnCall(w: World, e: Event, ip: Id) {
    CallOf(w, e).Some? ==> CallOf(w, e).value.id == ip
  }

  ghost function Next(l: Limits, f: Facts, e: Event, ip: Id): Facts
    requires Proper(l)
  {
    var flight := |InFlight(Step(l, f.w, e), ip)|;
    Facts(Step(l, f.w, e), Moment(e, f.now), f.wasted + Wasted(f.w, e, ip), f.accepted + Paid(l, f.w, e, ip),
          if flight > f.most then flight else f.most,
          f.sole && f.now <= Moment(e, f.now) && OwnCall(f.w, e, ip))
  }

  /** The events from position `start`. */
  ghost function Told(l: Limits, events: seq<Event>, start: nat, from: int, ip: Id): Facts
    requires Proper(l)
  {
    if |events| <= start then
      Facts(RunAll(l, events), Time(events, from), 0, 0, |InFlight(RunAll(l, events), ip)|, InOrder(events, from))
    else Next(l, Told(l, events[..|events| - 1], start, from, ip), events[|events| - 1], ip)
  }

  lemma {:induction false} ToldRuns(l: Limits, events: seq<Event>, start: nat, from: int, ip: Id)
    requires Proper(l)
    ensures
      var f := Told(l, events, start, from, ip);
      && f.w == RunAll(l, events) && f.now == Time(events, from) && f.wasted == WastedSince(l, events, start, ip)
      && (f.sole ==> InOrder(events, from))
  {
    if |events| > start {
      ToldRuns(l, events[..|events| - 1], start, from, ip);
    }
  }

  ghost predicate Sums(l: Limits, f: Facts, first: nat, ip: Id)
    requires Proper(l)
  {
    && CallsBefore(f.w.calls, f.now) && Matched(f.w)
    && first <= |f.w.calls| && AcceptedSince(l, f.w.calls, first, ip) == f.accepted
  }

  lemma NextSums(l: Limits, f: Facts, e: Event, first: nat, ip: Id)
    requires Proper(l) && Sums(l, f, first, ip) && f.now <= Moment(e, f.now)
    ensures Sums(l, Next(l, f, e, ip), first, ip)
  {
    StepCalls(l, f.w, e, ip, f.now);
    StepFlight(l, f.w, e, ip);
  }

  lemma {:induction false} ToldSums(l: Limits, events: seq<Event>, start: nat, from: int, ip: Id)
    requires Proper(l) && InOrder(events, from) && start <= |events|
    ensures Sums(l, Told(l, events, start, from, ip), |RunAll(l, events[..start]).calls|, ip)
    decreases |events|
  {
    if |events| == start {
      assert events[..start] == events;
      RunIsOrdered(l, events, from);
    } else {
      var before := events[..|events| - 1];
      assert before[..start] == events[..start];
      ToldSums(l, before, start, from, ip);
      ToldRuns(l, before, start, from, ip);
      NextSums(l, Told(l, before, start, from, ip), events[|events| - 1], |RunAll(l, events[..start]).calls|, ip);
    }
  }

  ghost predicate Bounded(l: Limits, f: Facts, ip: Id, before: nat, n: nat)
    requires Proper(l)
  {
    Covered(f.wasted, before, Unpayable(l, f.w, ip, f.now), n, f.accepted)
  }

  lemma NextIsBounded(l: Limits, f: Facts, e: Event, ip: Id, before: nat, n: nat)
    requires Proper(l) && CallsBefore(f.w.calls, f.now) && Matched(f.w) && f.now <= Moment(e, f.now)
    requires |InFlight(f.w, ip)| <= n && Bounded(l, f, ip, before, n)
    ensures Bounded(l, Next(l, f, e, ip), ip, before, n)
  {
    StepIsCovered(l, f.w, e, ip, f.now, n);
    PaidIsOneAtMost(l, f.w, e, ip);
    CoveredAdds(f.wasted, Wasted(f.w, e, ip), before, Unpayable(l, f.w, ip, f.now),
                Unpayable(l, Step(l, f.w, e), ip, Moment(e, f.now)), n, f.accepted, Paid(l, f.w, e, ip));
  }

  /** The lookups in flight after these events that no token is left for. */
  ghost function Beyond(l: Limits, events: seq<Event>, from: int, ip: Id): nat
    requires Proper(l)
  {
    Unpayable(l, RunAll(l, events), ip, Time(events, from))
  }

  lemma {:induction false} ToldIsBounded(l: Limits, events: seq<Event>, start: nat, from: int, ip: Id, n: nat)
    requires Proper(l) && InOrder(events, from) && start <= |events| && AtMost(l, events, start, ip, n)
    ensures Bounded(l, Told(l, events, start, from, ip), ip, Beyond(l, events[..start], from, ip), n)
    decreases |events|
  {
    if |events| == start {
      assert events[..start] == events;
    } else {
      var before := events[..|events| - 1];
      assert before[..start] == events[..start];
      ToldIsBounded(l, before, start, from, ip, n);
      ToldRuns(l, before, start, from, ip);
      RunIsOrdered(l, before, from);
      NextIsBounded(l, Told(l, before, start, from, ip), events[|events| - 1], ip, Beyond(l, events[..start], from, ip), n);
    }
  }

  lemma StretchIsCovered(l: Limits, events: seq<Event>, from: int, start: nat, ip: Id, n: nat)
    requires Proper(l) && InOrder(events, from) && start <= |events| && AtMost(l, events, start, ip, n)
    ensures Covered(WastedSince(l, events, start, ip), Beyond(l, events[..start], from, ip), Beyond(l, events, from, ip),
                    n, AcceptedIn(l, events, start, ip))
  {
    ToldIsBounded(l, events, start, from, ip, n);
    ToldRuns(l, events, start, from, ip);
    ToldSums(l, events, start, from, ip);
  }

  /** The payments an address's bucket accepted from position `start`. */
  function AcceptedIn(l: Limits, events: seq<Event>, start: nat, ip: Id): nat
    requires Proper(l) && start <= |events|
  {
    AcceptedSince(l, RunAll(l, events).calls, |RunAll(l, events[..start]).calls|, ip)
  }

  /** However requests overlap, over any stretch of a run the lookups one address wastes are those that were
      beyond its tokens already, and for each payment its bucket accepted at most as many as are in flight at
      once. */
  lemma WastedArePaid(l: Limits, events: seq<Event>, from: int, start: nat, ip: Id, n: nat)
    requires Proper(l) && InOrder(events, from) && start <= |events| && AtMost(l, events, start, ip, n)
    ensures WastedSince(l, events, start, ip)
            <= Beyond(l, events[..start], from, ip) + n * AcceptedIn(l, events, start, ip)
  {
    StretchIsCovered(l, events, from, start, ip, n);
    TimesIsProduct(n, AcceptedIn(l, events, start, ip));
  }

  lemma RealTimes(n: nat, a: nat, x: real)
    requires a as real <= x
    ensures (n * a) as real <= n as real * x
  {
    if n > 0 {
      RealTimes(n - 1, a, x);
      assert (n * a) as real == ((n - 1) * a) as real + a as real;
      assert n as real * x == (n - 1) as real * x + x;
    }
  }

  /** A full bucket, and what the rate gives between these calls: nothing if none is made. */
  function Allowance(l: Limits, calls: seq<Call>, first: nat): real {
    if first < |calls| then l.capacity + Gain(l, calls[|calls| - 1].at - calls[first].at) else 0.0
  }

  lemma AcceptedIsAllowed(l: Limits, calls: seq<Call>, first: nat, id: Id)
    requires Proper(l) && Ordered(calls) && KeptSince(l, calls, first, id)
    ensures AcceptedSince(l, calls, first, id) as real <= Allowance(l, calls, first)
  {
    if first < |calls| {
      RateIsKept(l, calls, first, id);
    }
  }

  ghost predicate RationedTo(wasted: nat, before: nat, n: nat, allowance: real) {
    wasted as real <= before as real + n as real * allowance
  }

  lemma AllowanceBounds(wasted: nat, before: nat, beyond: nat, n: nat, accepted: nat, allowance: real)
    requires Covered(wasted, before, beyond, n, accepted) && accepted as real <= allowance
    ensures RationedTo(wasted, before, n, allowance)
  {
    TimesIsProduct(n, accepted);
    RealTimes(n, accepted, allowance);
  }

  /** While the address is not evicted its bucket pays at the configured rate, so over any stretch the lookups
      it wastes are at most those that were beyond its tokens at the start, and `n` times a full bucket and
      what the rate gives between the stretch's first and last limiter calls. */
  lemma GuessingIsRationed(l: Limits, events: seq<Event>, from: int, start: nat, ip: Id, n: nat)
    requires Proper(l) && InOrder(events, from) && start <= |events| && AtMost(l, events, start, ip, n)
    requires KeptSince(l, RunAll(l, events).calls, |RunAll(l, events[..start]).calls|, ip)
    ensures RationedTo(WastedSince(l, events, start, ip), Beyond(l, events[..start], from, ip), n,
                       Allowance(l, RunAll(l, events).calls, |RunAll(l, events[..start]).calls|))
  {
    var calls, first := RunAll(l, events).calls, |RunAll(l, events[..start]).calls|;
    StretchIsCovered(l, events, from, start, ip, n);
    RunIsOrdered(l, events, from);
    AcceptedIsAllowed(l, calls, first, ip);
    AllowanceBounds(WastedSince(l, events, start, ip), Beyond(l, events[..start], from, ip),
                    Beyond(l, events, from, ip), n, AcceptedIn(l, events, start, ip), Allowance(l, calls, first));
  }
}
