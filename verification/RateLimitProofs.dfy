/** The bounded table behaves like one independent bucket for each id. */
module RateLimitProofs {
  import opened Basics
  import opened InsertionOrder
  import opened RateLimit

  ghost predicate Ordered(calls: seq<Call>) {
    |calls| >= 2 ==> Ordered(calls[..|calls| - 1]) && calls[|calls| - 2].at <= calls[|calls| - 1].at
  }

  // ----- arithmetic of one bucket -----

  ghost predicate Fits(l: Limits, b: Option<Level>, t: int) {
    b.Some? ==> 0.0 <= b.value.tokens <= l.capacity && b.value.at <= t
  }

  lemma {:induction false} GainAdds(l: Limits, a: nat, b: nat)
    ensures Gain(l, a + b) == Gain(l, a) + Gain(l, b)
    decreases b
  {
    if b > 0 {
      GainAdds(l, a, b - 1);
    }
  }

  lemma {:induction false} GainIsPositive(l: Limits, ms: nat)
    requires Proper(l)
    ensures Gain(l, ms) >= 0.0
    decreases ms
  {
    if ms > 0 {
      GainIsPositive(l, ms - 1);
    }
  }

  /** The rate is one capacity a window. */
  lemma WindowGivesCapacity(capacity: real, windowMs: int, maxEntries: nat)
    requires capacity > 0.0 && windowMs > 0
    ensures Rated(Limited(capacity, windowMs, maxEntries))
  {
    GainIsProduct(Limited(capacity, windowMs, maxEntries), windowMs);
  }

  ghost predicate Rated(l: Limits) {
    Proper(l) && Gain(l, l.windowMs) == l.capacity
  }

  lemma FitsIsNotNegative(l: Limits, b: Option<Level>, t: int)
    requires Proper(l) && Fits(l, b, t)
    ensures Available(l, b, t) >= 0.0
  {
    LaterAvailable(l, b, t, t);
  }

  /** Looking at a bucket twice is looking at it once. */
  lemma LaterAvailable(l: Limits, b: Option<Level>, t: int, u: int)
    requires Proper(l) && Fits(l, b, t) && t <= u
    ensures Available(l, b, u) == Min(l.capacity, Available(l, b, t) + Gain(l, u - t))
    ensures 0.0 <= Available(l, b, t) <= Available(l, b, u) <= l.capacity
  {
    GainIsPositive(l, u - t);
    if b.Some? {
      GainIsPositive(l, t - b.value.at);
      GainAdds(l, t - b.value.at, u - t);
    }
  }

  /** A bucket nobody touched for a window is full. */
  lemma IdleIsFull(l: Limits, b: Level, t: int)
    requires Rated(l) && Fits(l, Some(b), t) && b.at + l.windowMs <= t
    ensures Available(l, Some(b), t) == l.capacity
  {
    var extra := t - b.at - l.windowMs;
    GainIsPositive(l, extra);
    GainAdds(l, l.windowMs, extra);
  }

  // ----- one call -----

  /** What a call leaves in its own bucket. */
  function Left(l: Limits, b: Option<Level>, c: Call): Level
    requires Proper(l)
  {
    var tokens := Available(l, b, c.at);
    Level(if c.spends && tokens >= 1.0 then tokens - 1.0 else tokens, c.at)
  }

  lemma RefilledLookup(m: Table<Id, Level>, max: nat, own: Id, b: Level, id: Id)
    requires InsertionOrder.Valid(m)
    ensures
      var m1 := Trim(Touched(m, own, b), max);
      && InsertionOrder.Valid(m1) && |m1.order| <= max
      && (id in m1.at ==> Lookup(m1, id) == if id == own then Some(b) else Lookup(m, id))
  {
    DeleteIsValid(m, own);
    SetIsValid(Delete(m, own), own, b);
    TrimKeepsNewest(Touched(m, own, b), max);
  }

  /** A call changes its own bucket, and otherwise only forgets. */
  lemma HandleLookup(l: Limits, m: Table<Id, Level>, c: Call, id: Id)
    requires Proper(l) && InsertionOrder.Valid(m)
    ensures InsertionOrder.Valid(Handle(l, m, c))
    ensures |Handle(l, m, c).order| <= l.maxEntries
    ensures id in Handle(l, m, c).at ==>
      Lookup(Handle(l, m, c), id) == if id == c.id then Some(Left(l, Lookup(m, id), c)) else Lookup(m, id)
  {
    RefilledLookup(m, l.maxEntries, c.id, Level(Available(l, Lookup(m, c.id), c.at), c.at), id);
  }

  lemma {:induction false} RunFits(l: Limits, calls: seq<Call>, id: Id, t: int)
    requires Proper(l) && Ordered(calls)
    requires calls != [] ==> calls[|calls| - 1].at <= t
    ensures InsertionOrder.Valid(Run(l, calls)) && Fits(l, Lookup(Run(l, calls), id), t)
    decreases |calls|
  {
    if calls != [] {
      var before, c := calls[..|calls| - 1], calls[|calls| - 1];
      RunFits(l, before, id, c.at);
      var b := Lookup(Run(l, before), id);
      LaterAvailable(l, b, c.at, c.at);
      HandleLookup(l, Run(l, before), c, id);
    }
  }

  // ----- refinement of independent buckets -----

  function TakesOf(calls: seq<Call>, id: Id): seq<int> {
    if calls == [] then []
    else
      var c := calls[|calls| - 1];
      TakesOf(calls[..|calls| - 1], id) + if c.id == id && c.spends then [c.at] else []
  }

  /** A bucket in an unbounded table, offered takes at these times. */
  function Offers(l: Limits, b: Option<Level>, takes: seq<int>): Option<Level>
    requires Proper(l)
  {
    if takes == [] then b else Offered(l, Offers(l, b, takes[..|takes| - 1]), takes[|takes| - 1])
  }

  /** The same from the start. */
  function Alone(l: Limits, takes: seq<int>): Option<Level>
    requires Proper(l)
  {
    Offers(l, None, takes)
  }

  function Offered(l: Limits, b: Option<Level>, t: int): Option<Level>
    requires Proper(l)
  {
    if Available(l, b, t) >= 1.0 then Some(Level(Available(l, b, t) - 1.0, t)) else b
  }

  function Evicted(l: Limits, m: Table<Id, Level>, c: Call): set<Id>
    requires Proper(l)
  {
    m.at.Keys + {c.id} - Handle(l, m, c).at.Keys
  }

  /** What a call makes of a bucket before anything is evicted. */
  function Called(l: Limits, m: Table<Id, Level>, c: Call, id: Id): Option<Level>
    requires Proper(l)
  {
    if id == c.id then Some(Left(l, Lookup(m, id), c)) else Lookup(m, id)
  }

  /** Every bucket this call evicts is full by then. */
  ghost predicate EvictsOnlyFull(l: Limits, m: Table<Id, Level>, c: Call)
    requires Proper(l)
  {
    forall id :: id in Evicted(l, m, c) ==> Available(l, Called(l, m, c, id), c.at) == l.capacity
  }

  ghost predicate OnlyFullEvicted(l: Limits, calls: seq<Call>)
    requires Proper(l)
  {
    calls != [] ==>
      && OnlyFullEvicted(l, calls[..|calls| - 1])
      && EvictsOnlyFull(l, Run(l, calls[..|calls| - 1]), calls[|calls| - 1])
  }

  ghost predicate Agree(l: Limits, a: Option<Level>, b: Option<Level>, t: int)
    requires Proper(l)
  {
    Fits(l, a, t) && Fits(l, b, t) && Available(l, a, t) == Available(l, b, t)
  }

  lemma AgreeLater(l: Limits, a: Option<Level>, b: Option<Level>, t: int, u: int)
    requires Proper(l) && Agree(l, a, b, t) && t <= u
    ensures Agree(l, a, b, u)
  {
    LaterAvailable(l, a, t, u);
    LaterAvailable(l, b, t, u);
  }

  /** One bucket across one call: `a` is what the table holds of `id`, `b` the bucket alone. */
  lemma StepAgrees(l: Limits, a: Option<Level>, b: Option<Level>, c: Call, own: bool, a1: Option<Level>)
    requires Proper(l) && Agree(l, a, b, c.at)
    requires
      var called := if own then Some(Left(l, a, c)) else a;
      a1 == called || (a1 == None && Available(l, called, c.at) == l.capacity)
    ensures Agree(l, a1, if own && c.spends then Offered(l, b, c.at) else b, c.at)
  {
    LaterAvailable(l, a, c.at, c.at);
    LaterAvailable(l, b, c.at, c.at);
  }

  lemma HandleAgrees(l: Limits, m: Table<Id, Level>, b: Option<Level>, c: Call, id: Id)
    requires Proper(l) && InsertionOrder.Valid(m)
    requires Agree(l, Lookup(m, id), b, c.at) && EvictsOnlyFull(l, m, c)
    ensures Agree(l, Lookup(Handle(l, m, c), id), if c.id == id && c.spends then Offered(l, b, c.at) else b, c.at)
  {
    var m1 := Handle(l, m, c);
    HandleLookup(l, m, c, id);
    assert id !in m1.at && (id in m.at || id == c.id) ==> id in Evicted(l, m, c);
    StepAgrees(l, Lookup(m, id), b, c, c.id == id, Lookup(m1, id));
  }

  lemma AloneStep(l: Limits, before: seq<Call>, c: Call, id: Id)
    requires Proper(l)
    ensures
      var b := Alone(l, TakesOf(before, id));
      Alone(l, TakesOf(before + [c], id)) == if c.id == id && c.spends then Offered(l, b, c.at) else b
  {
    assert (before + [c])[..|before|] == before;
    var takes, calls := TakesOf(before, id), before + [c];
    assert calls[|calls| - 1] == c;
    if c.id == id && c.spends {
      assert TakesOf(calls, id) == takes + [c.at];
      assert (takes + [c.at])[..|takes|] == takes;
    } else {
      assert TakesOf(calls, id) == takes + [] == takes;
    }
  }

  lemma RunHandleAgrees(l: Limits, calls: seq<Call>, b: Option<Level>, c: Call, id: Id)
    requires Proper(l) && Ordered(calls) && (calls != [] ==> calls[|calls| - 1].at <= c.at)
    requires Agree(l, Lookup(Run(l, calls), id), b, c.at) && EvictsOnlyFull(l, Run(l, calls), c)
    ensures Agree(l, Lookup(Handle(l, Run(l, calls), c), id),
                  if c.id == id && c.spends then Offered(l, b, c.at) else b, c.at)
  {
    RunFits(l, calls, id, c.at);
    HandleAgrees(l, Run(l, calls), b, c, id);
  }

  /** The table and the bucket alone agree after every call of a run. */
  ghost predicate AgreesThroughout(l: Limits, calls: seq<Call>, id: Id)
    requires Proper(l)
  {
    calls != [] ==>
      Agree(l, Lookup(Run(l, calls), id), Alone(l, TakesOf(calls, id)), calls[|calls| - 1].at)
  }

  lemma AgreesFrom(l: Limits, calls: seq<Call>, id: Id, t: int)
    requires Proper(l) && AgreesThroughout(l, calls, id) && (calls != [] ==> calls[|calls| - 1].at <= t)
    ensures Agree(l, Lookup(Run(l, calls), id), Alone(l, TakesOf(calls, id)), t)
  {
    if calls != [] {
      AgreeLater(l, Lookup(Run(l, calls), id), Alone(l, TakesOf(calls, id)), calls[|calls| - 1].at, t);
    }
  }

  lemma {:induction false} RunAgrees(l: Limits, calls: seq<Call>, id: Id)
    requires Proper(l) && Ordered(calls) && OnlyFullEvicted(l, calls)
    ensures AgreesThroughout(l, calls, id)
    decreases |calls|
  {
    if calls != [] {
      var before, c := calls[..|calls| - 1], calls[|calls| - 1];
      RunAgrees(l, before, id);
      AgreesFrom(l, before, id, c.at);
      RunHandleAgrees(l, before, Alone(l, TakesOf(before, id)), c, id);
      assert calls == before + [c];
      AloneStep(l, before, c, id);
    }
  }

  /** As long as only full buckets are evicted, every answer is that of a bucket of its own that was offered
      nothing but the takes of that id: other ids, checks and evictions change nothing. */
  lemma OutcomesAreIndependent(l: Limits, calls: seq<Call>, c: Call)
    requires Proper(l) && Ordered(calls + [c]) && OnlyFullEvicted(l, calls)
    ensures Outcome(l, Run(l, calls), c) == Answer(l, Available(l, Alone(l, TakesOf(calls, c.id)), c.at))
  {
    assert (calls + [c])[..|calls|] == calls;
    RunAgrees(l, calls, c.id);
    AgreesFrom(l, calls, c.id, c.at);
  }

  // ----- when an eviction shows -----

  /** Every id this call evicts had not called for a whole window. */
  ghost predicate EvictsOnlyIdle(l: Limits, m: Table<Id, Level>, c: Call)
    requires Proper(l)
  {
    forall id :: id in Evicted(l, m, c) ==> id != c.id && m.at[id].at + l.windowMs <= c.at
  }

  ghost predicate OnlyIdleEvicted(l: Limits, calls: seq<Call>)
    requires Proper(l)
  {
    calls != [] ==>
      && OnlyIdleEvicted(l, calls[..|calls| - 1])
      && EvictsOnlyIdle(l, Run(l, calls[..|calls| - 1]), calls[|calls| - 1])
  }

  lemma IdleCallIsFull(l: Limits, calls: seq<Call>, c: Call, id: Id)
    requires Rated(l) && Ordered(calls) && (calls != [] ==> calls[|calls| - 1].at <= c.at)
    requires EvictsOnlyIdle(l, Run(l, calls), c) && id in Evicted(l, Run(l, calls), c)
    ensures Available(l, Called(l, Run(l, calls), c, id), c.at) == l.capacity
  {
    RunFits(l, calls, id, c.at);
    IdleIsFull(l, Run(l, calls).at[id], c.at);
  }

  /** What has been idle for a window is full. */
  lemma {:induction false} IdleEvictionsAreFull(l: Limits, calls: seq<Call>)
    requires Rated(l) && Ordered(calls) && OnlyIdleEvicted(l, calls)
    ensures OnlyFullEvicted(l, calls)
  {
    if calls != [] {
      var before, c := calls[..|calls| - 1], calls[|calls| - 1];
      IdleEvictionsAreFull(l, before);
      forall id | id in Evicted(l, Run(l, before), c)
        ensures Available(l, Called(l, Run(l, before), c, id), c.at) == l.capacity
      {
        IdleCallIsFull(l, before, c, id);
      }
    }
  }

  /** Times from `t` to `u`, none before the one in front of it. */
  ghost predicate Upward(takes: seq<int>, t: int, u: int) {
    if takes == [] then t <= u
    else takes[|takes| - 1] <= u && Upward(takes[..|takes| - 1], t, takes[|takes| - 1])
  }

  /** Forgetting the bucket at `t` changes no answer of any continuation. */
  ghost predicate Forgettable(l: Limits, b: Option<Level>, t: int)
    requires Proper(l)
  {
    forall takes: seq<int>, u: int :: Upward(takes, t, u) ==>
      Answer(l, Available(l, Offers(l, b, takes), u)) == Answer(l, Available(l, Offers(l, None, takes), u))
  }

  lemma {:induction false} OffersAgree(l: Limits, b: Option<Level>, takes: seq<int>, t: int, u: int)
    requires Proper(l) && Agree(l, b, None, t) && Upward(takes, t, u)
    ensures Agree(l, Offers(l, b, takes), Offers(l, None, takes), u)
  {
    if takes == [] {
      AgreeLater(l, b, None, t, u);
    } else {
      var before, v := takes[..|takes| - 1], takes[|takes| - 1];
      OffersAgree(l, b, before, t, v);
      OfferedAgrees(l, Offers(l, b, before), Offers(l, None, before), v, u);
    }
  }

  lemma OfferedAgrees(l: Limits, a: Option<Level>, b: Option<Level>, t: int, u: int)
    requires Proper(l) && Agree(l, a, b, t) && t <= u
    ensures Agree(l, Offered(l, a, t), Offered(l, b, t), u)
  {
    LaterAvailable(l, a, t, t);
    LaterAvailable(l, b, t, t);
    AgreeLater(l, Offered(l, a, t), Offered(l, b, t), t, u);
  }

  function Burst(t: int, k: nat): seq<int> {
    if k == 0 then [] else Burst(t, k - 1) + [t]
  }

  lemma {:induction false} BurstIsUpward(t: int, k: nat)
    ensures |Burst(t, k)| == k && Upward(Burst(t, k), t, t)
  {
    if k > 0 {
      BurstIsUpward(t, k - 1);
      assert Burst(t, k)[..k - 1] == Burst(t, k - 1);
    }
  }

  lemma BurstOffers(l: Limits, b: Option<Level>, t: int, k: nat)
    requires Proper(l) && k > 0
    ensures Offers(l, b, Burst(t, k)) == Offered(l, Offers(l, b, Burst(t, k - 1)), t)
  {
    var before := Burst(t, k - 1);
    assert Burst(t, k)[..|before|] == before && Burst(t, k)[|before|] == t;
  }

  /** What `k` takes at one instant leave of these tokens: whole ones are spent until less than one is left. */
  ghost predicate Drained(tokens: real, left: real, k: nat) {
    if tokens >= k as real then left == tokens - k as real else left < 1.0
  }

  lemma OneTake(l: Limits, b: Option<Level>, t: int, tokens: real, k: nat)
    requires Proper(l) && Fits(l, b, t) && Drained(tokens, Available(l, b, t), k)
    ensures Fits(l, Offered(l, b, t), t) && Drained(tokens, Available(l, Offered(l, b, t), t), k + 1)
  {
    LaterAvailable(l, b, t, t);
  }

  lemma {:induction false} BurstDrains(l: Limits, b: Option<Level>, t: int, k: nat)
    requires Proper(l) && Fits(l, b, t)
    ensures Fits(l, Offers(l, b, Burst(t, k)), t)
    ensures Drained(Available(l, b, t), Available(l, Offers(l, b, Burst(t, k)), t), k)
  {
    if k == 0 {
      assert Offers(l, b, Burst(t, 0)) == b;
    } else {
      BurstDrains(l, b, t, k - 1);
      BurstOffers(l, b, t, k);
      OneTake(l, Offers(l, b, Burst(t, k - 1)), t, Available(l, b, t), k - 1);
    }
  }

  /** With a whole capacity, as both limiters are given, an eviction changes some later answer exactly when
      the evicted bucket was not full. */
  lemma ForgettableIffFull(l: Limits, b: Option<Level>, t: int, capacity: nat)
    requires Proper(l) && l.capacity == capacity as real && capacity >= 1 && Fits(l, b, t)
    ensures Forgettable(l, b, t) <==> Available(l, b, t) == l.capacity
  {
    if Available(l, b, t) == l.capacity {
      forall takes: seq<int>, u: int | Upward(takes, t, u)
        ensures Answer(l, Available(l, Offers(l, b, takes), u)) == Answer(l, Available(l, Offers(l, None, takes), u))
      {
        OffersAgree(l, b, takes, t, u);
      }
    } else {
      var takes := Burst(t, capacity - 1);
      LaterAvailable(l, b, t, t);
      BurstIsUpward(t, capacity - 1);
      BurstDrains(l, b, t, capacity - 1);
      BurstDrains(l, None, t, capacity - 1);
      assert Answer(l, Available(l, Offers(l, None, takes), t)).ok;
      assert !Answer(l, Available(l, Offers(l, b, takes), t)).ok;
    }
  }

  /** A capacity below one never lets anybody in, and then an empty bucket can be forgotten unseen. */
  lemma FractionsHideEvictions(t: int)
    ensures
      var l, b := Limited(0.5, 1, 1), Some(Level(0.0, t));
      Available(l, b, t) < l.capacity && Forgettable(l, b, t)
  {
    var l, b := Limited(0.5, 1, 1), Some(Level(0.0, t));
    forall takes: seq<int>, u: int | Upward(takes, t, u)
      ensures Answer(l, Available(l, Offers(l, b, takes), u)) == Answer(l, Available(l, Offers(l, None, takes), u))
    {
      NeverSpent(l, b, takes);
      NeverSpent(l, None, takes);
      UpwardSpans(takes, t, u);
      LaterAvailable(l, b, t, u);
      HalfIsRefused(l, Available(l, b, u));
      HalfIsRefused(l, Available(l, None, u));
    }
  }

  lemma {:induction false} NeverSpent(l: Limits, b: Option<Level>, takes: seq<int>)
    requires Proper(l) && l.capacity < 1.0
    ensures Offers(l, b, takes) == b
  {
    if takes != [] {
      NeverSpent(l, b, takes[..|takes| - 1]);
    }
  }

  lemma {:induction false} UpwardSpans(takes: seq<int>, t: int, u: int)
    requires Upward(takes, t, u)
    ensures t <= u
  {
    if takes != [] {
      UpwardSpans(takes[..|takes| - 1], t, takes[|takes| - 1]);
    }
  }

  lemma HalfIsRefused(l: Limits, tokens: real)
    requires l == Limited(0.5, 1, 1) && 0.0 <= tokens <= 0.5
    ensures Answer(l, tokens) == TakeResult(false, 1)
  {
    assert l.perMs == 0.5;
    assert (1.0 - tokens) / 0.5 / 1000.0 <= 1.0;
    CeilingIsLeast((1.0 - tokens) / l.perMs / 1000.0, 1);
  }

  lemma RunTwo(l: Limits, a: Call, b: Call)
    requires Proper(l)
    ensures Run(l, [a, b]) == Handle(l, Handle(l, Empty(), a), b)
  {
    assert [a, b][..1] == [a] && [a][..0] == [];
    assert Run(l, [a]) == Handle(l, Empty(), a);
  }

  /** In a table of one, the newest id evicts the other. */
  lemma OneIsKept(l: Limits, m: Table<Id, Level>, c: Call)
    requires Proper(l) && l.maxEntries == 1 && InsertionOrder.Valid(m)
    requires m.order == [] || (|m.order| == 1 && m.order[0] != c.id)
    ensures InsertionOrder.Valid(Handle(l, m, c)) && Handle(l, m, c).order == [c.id]
  {
    var level := Level(Available(l, Lookup(m, c.id), c.at), c.at);
    assert c.id !in m.order;
    assert Touched(m, c.id, level).order == m.order + [c.id];
    SetIsValid(m, c.id, level);
    TrimKeepsNewest(Touched(m, c.id, level), 1);
    HandleLookup(l, m, c, c.id);
  }

  lemma BusyIsForgotten(l: Limits, a: Call, b: Call)
    requires Proper(l) && l.maxEntries == 1 && a.id != b.id
    ensures Lookup(Run(l, [a, b]), a.id) == None
  {
    RunTwo(l, a, b);
    OneIsKept(l, Empty(), a);
    OneIsKept(l, Handle(l, Empty(), a), b);
    assert a.id !in Run(l, [a, b]).order;
  }

  lemma AloneIsSpent(l: Limits, a: Call, b: Call)
    requires Proper(l) && l.capacity == 1.0 && a.id != b.id && a.spends
    ensures Alone(l, TakesOf([a, b], a.id)) == Some(Level(0.0, a.at))
  {
    assert [a, b] == [a] + [b] && [a] == [] + [a];
    AloneStep(l, [], a, a.id);
    AloneStep(l, [a], b, a.id);
  }

  /** Evicting a busy id hands it a full bucket: in a table of one, two takes within a window of capacity one. */
  lemma EvictionForgives(l: Limits, a: Call, b: Call, again: Call)
    requires l == Limited(1.0, 1000, 1) && a.id != b.id && a.spends && again == a.(at := a.at + 2)
    ensures Outcome(l, Run(l, [a, b]), again).ok
    ensures !Answer(l, Available(l, Alone(l, TakesOf([a, b], a.id)), again.at)).ok
  {
    BusyIsForgotten(l, a, b);
    AloneIsSpent(l, a, b);
    GainIsProduct(l, 2);
  }

  // ----- the rate -----

  function Granted(l: Limits, m: Table<Id, Level>, c: Call, id: Id): nat
    requires Proper(l)
  {
    if c.id == id && c.spends && Available(l, Lookup(m, id), c.at) >= 1.0 then 1 else 0
  }

  /** The takes of an id that were accepted among the calls from position `from`. */
  function AcceptedSince(l: Limits, calls: seq<Call>, from: nat, id: Id): nat
    requires Proper(l)
  {
    if |calls| <= from then 0
    else
      var before, c := calls[..|calls| - 1], calls[|calls| - 1];
      AcceptedSince(l, before, from, id) + Granted(l, Run(l, before), c, id)
  }

  ghost predicate KeptSince(l: Limits, calls: seq<Call>, from: nat, id: Id)
    requires Proper(l)
  {
    |calls| > from ==>
      && KeptSince(l, calls[..|calls| - 1], from, id)
      && id !in Evicted(l, Run(l, calls[..|calls| - 1]), calls[|calls| - 1])
  }

  /** One call takes from the bucket what it is given, and time brings at most the rate. */
  lemma StepSpends(l: Limits, a: Option<Level>, c: Call, own: bool, t: int)
    requires Proper(l) && Fits(l, a, t) && t <= c.at
    ensures
      var a1 := if own then Some(Left(l, a, c)) else a;
      var spent := if own && c.spends && Available(l, a, c.at) >= 1.0 then 1.0 else 0.0;
      && Fits(l, a1, c.at)
      && spent + Available(l, a1, c.at) == Available(l, a, c.at)
      && Available(l, a, c.at) <= Available(l, a, t) + Gain(l, c.at - t)
      && Available(l, a, c.at) <= l.capacity
  {
    LaterAvailable(l, a, t, c.at);
    LaterAvailable(l, a, c.at, c.at);
  }

  lemma HandleSpends(l: Limits, m: Table<Id, Level>, c: Call, id: Id, t: int)
    requires Proper(l) && InsertionOrder.Valid(m) && Fits(l, Lookup(m, id), t) && t <= c.at
    requires id !in Evicted(l, m, c)
    ensures
      var tokens := Granted(l, m, c, id) as real + Available(l, Lookup(Handle(l, m, c), id), c.at);
      && Fits(l, Lookup(Handle(l, m, c), id), c.at)
      && tokens <= l.capacity && tokens <= Available(l, Lookup(m, id), t) + Gain(l, c.at - t)
  {
    HandleLookup(l, m, c, id);
    StepSpends(l, Lookup(m, id), c, c.id == id, t);
  }

  /** What was accepted by `t`, and what is left, was there to begin with or came since `start`. */
  ghost predicate PaidFor(l: Limits, accepted: nat, b: Option<Level>, start: int, t: int)
    requires Proper(l)
  {
    Fits(l, b, t) && start <= t && accepted as real + Available(l, b, t) <= l.capacity + Gain(l, t - start)
  }

  lemma FirstPaidFor(l: Limits, m: Table<Id, Level>, c: Call, id: Id)
    requires Proper(l) && InsertionOrder.Valid(m) && Fits(l, Lookup(m, id), c.at)
    requires id !in Evicted(l, m, c)
    ensures PaidFor(l, Granted(l, m, c, id), Lookup(Handle(l, m, c), id), c.at, c.at)
  {
    HandleSpends(l, m, c, id, c.at);
  }

  lemma NextPaidFor(l: Limits, m: Table<Id, Level>, c: Call, id: Id, accepted: nat, start: int, t: int)
    requires Proper(l) && InsertionOrder.Valid(m) && t <= c.at
    requires id !in Evicted(l, m, c)
    requires PaidFor(l, accepted, Lookup(m, id), start, t)
    ensures PaidFor(l, accepted + Granted(l, m, c, id), Lookup(Handle(l, m, c), id), start, c.at)
  {
    HandleSpends(l, m, c, id, t);
    GainAdds(l, t - start, c.at - t);
  }

  lemma {:induction false} SpendingIsPaidFor(l: Limits, calls: seq<Call>, from: nat, id: Id)
    requires Proper(l) && Ordered(calls) && from < |calls| && KeptSince(l, calls, from, id)
    ensures PaidFor(l, AcceptedSince(l, calls, from, id), Lookup(Run(l, calls), id),
                    calls[from].at, calls[|calls| - 1].at)
    decreases |calls|
  {
    var before, c := calls[..|calls| - 1], calls[|calls| - 1];
    var m := Run(l, before);
    if |calls| - 1 == from {
      RunFits(l, before, id, c.at);
      FirstPaidFor(l, m, c, id);
    } else {
      var t := before[|before| - 1].at;
      RunFits(l, before, id, t);
      SpendingIsPaidFor(l, before, from, id);
      NextPaidFor(l, m, c, id, AcceptedSince(l, before, from, id), calls[from].at, t);
    }
  }

  /** Over any stretch of calls in which an id is not evicted, no more of its takes are accepted than one
      full bucket and what the rate gives in that time. */
  lemma RateIsKept(l: Limits, calls: seq<Call>, from: nat, id: Id)
    requires Proper(l) && Ordered(calls) && from < |calls| && KeptSince(l, calls, from, id)
    ensures AcceptedSince(l, calls, from, id) as real
            <= l.capacity + Gain(l, calls[|calls| - 1].at - calls[from].at)
  {
    SpendingIsPaidFor(l, calls, from, id);
    FitsIsNotNegative(l, Lookup(Run(l, calls), id), calls[|calls| - 1].at);
  }

  // ----- the advice to wait -----

  lemma CeilingIsLeast(x: real, n: int)
    ensures n >= Ceiling(x) <==> n as real >= x
  {
  }

  lemma WaitSuffices(p: real, missing: real, n: int)
    requires p > 0.0
    ensures n as real >= missing / p / 1000.0 <==> 1000.0 * n as real * p >= missing
  {
    var x := missing / p / 1000.0;
    assert x * 1000.0 == missing / p;
    assert missing == x * 1000.0 * p;
    if n as real < x {
      assert (x * 1000.0 - n as real * 1000.0) * p > 0.0;
    }
  }

  lemma WaitIsEnough(l: Limits, tokens: real, seconds: int)
    requires Proper(l) && tokens < 1.0 && seconds >= 1
    ensures Min(l.capacity, tokens + Gain(l, 1000 * seconds)) >= 1.0 <==>
            (l.capacity >= 1.0 && seconds >= RetryAfter(l, tokens))
  {
    assert (1000 * seconds) as real == 1000.0 * seconds as real;
    GainIsProduct(l, 1000 * seconds);
    WaitSuffices(l.perMs, 1.0 - tokens, seconds);
  }

  /** A refused caller who waits a whole number of seconds gets a token exactly when that number is at least
      the advised one; with a capacity below one, never. */
  lemma RetryAfterIsLeast(l: Limits, m: Table<Id, Level>, c: Call, seconds: int)
    requires Proper(l) && InsertionOrder.Valid(m) && !Outcome(l, m, c).ok
    requires c.id in Handle(l, m, c).at && seconds >= 1
    ensures
      var next := c.(at := c.at + 1000 * seconds);
      Outcome(l, Handle(l, m, c), next).ok <==>
      (l.capacity >= 1.0 && seconds >= Outcome(l, m, c).retryAfter)
    ensures Outcome(l, m, c).retryAfter >= 1
  {
    HandleLookup(l, m, c, c.id);
    WaitIsEnough(l, Available(l, Lookup(m, c.id), c.at), seconds);
  }
}
