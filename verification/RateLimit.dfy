/** Token buckets in a bounded least-recently-used table (apps/data-api/src/rate-limit.ts). */
module RateLimit {
  import opened Basics
  import opened InsertionOrder

  datatype Id = Id(name: string)

  /** What a bucket held when it was last looked at. Times are in milliseconds. */
  datatype Level = Level(tokens: real, at: int)

  datatype Limits = Limits(capacity: real, windowMs: int, perMs: real, maxEntries: nat)

  /** `retryAfter` is in whole seconds. */
  datatype TakeResult = TakeResult(ok: bool, retryAfter: int)

  /** A `take`, or a `check` that only looks. */
  datatype Call = Call(id: Id, at: int, spends: bool)

  function Limited(capacity: real, windowMs: int, maxEntries: nat): Limits
    requires capacity > 0.0 && windowMs > 0
  {
    Limits(capacity, windowMs, capacity / windowMs as real, maxEntries)
  }

  ghost predicate Proper(l: Limits) {
    l.capacity > 0.0 && l.perMs > 0.0 && l.windowMs > 0
  }

  function Min(a: real, b: real): real {
    if a <= b then a else b
  }

  function Ceiling(x: real): int {
    -((-x).Floor)
  }

  /** What the rate gives in `ms` milliseconds, one at a time. */
  function Gain(l: Limits, ms: int): real
    decreases if ms < 0 then -ms else ms
  {
    if ms == 0 then 0.0 else if ms > 0 then Gain(l, ms - 1) + l.perMs else Gain(l, ms + 1) - l.perMs
  }

  /** It is the product the source computes. */
  lemma {:induction false} GainIsProduct(l: Limits, ms: int)
    ensures Gain(l, ms) == ms as real * l.perMs
    decreases if ms < 0 then -ms else ms
  {
    if ms > 0 {
      GainIsProduct(l, ms - 1);
      assert ms as real * l.perMs == (ms - 1) as real * l.perMs + l.perMs;
    } else if ms < 0 {
      GainIsProduct(l, ms + 1);
      assert ms as real * l.perMs == (ms + 1) as real * l.perMs - l.perMs;
    }
  }

  function TopUp(l: Limits, b: Level, t: int): real
    requires Proper(l)
  {
    Min(l.capacity, b.tokens + Gain(l, t - b.at))
  }

  /** The tokens a bucket has at time `t`. One that was never seen, or was forgotten, is full. */
  function Available(l: Limits, b: Option<Level>, t: int): real
    requires Proper(l)
  {
    match b
    case None => l.capacity
    case Some(b) => TopUp(l, b, t)
  }

  function RetryAfter(l: Limits, tokens: real): int
    requires Proper(l)
  {
    var seconds := Ceiling((1.0 - tokens) / l.perMs / 1000.0);
    if seconds < 1 then 1 else seconds
  }

  function Answer(l: Limits, tokens: real): TakeResult
    requires Proper(l)
  {
    if tokens >= 1.0 then TakeResult(true, 0) else TakeResult(false, RetryAfter(l, tokens))
  }

  function Lookup(m: Table<Id, Level>, id: Id): Option<Level> {
    if id in m.at then Some(m.at[id]) else None
  }

  /** Topped up and moved to the young end. */
  function Touched(m: Table<Id, Level>, id: Id, b: Level): Table<Id, Level> {
    Set(Delete(m, id), id, b)
  }

  function Replaced(m: Table<Id, Level>, id: Id, b: Level): Table<Id, Level> {
    if id in m.at then m.(at := m.at[id := b]) else m
  }

  /** Then the oldest are forgotten, which can be the bucket itself when the table may hold none. */
  function Refilled(l: Limits, m: Table<Id, Level>, id: Id, t: int): Table<Id, Level>
    requires Proper(l)
  {
    Trim(Touched(m, id, Level(Available(l, Lookup(m, id), t), t)), l.maxEntries)
  }

  function Handle(l: Limits, m: Table<Id, Level>, c: Call): Table<Id, Level>
    requires Proper(l)
  {
    var tokens := Available(l, Lookup(m, c.id), c.at);
    var m1 := Refilled(l, m, c.id, c.at);
    if c.spends && tokens >= 1.0 then Replaced(m1, c.id, Level(tokens - 1.0, c.at)) else m1
  }

  function Outcome(l: Limits, m: Table<Id, Level>, c: Call): TakeResult
    requires Proper(l)
  {
    Answer(l, Available(l, Lookup(m, c.id), c.at))
  }

  /** The table after these calls. */
  function Run(l: Limits, calls: seq<Call>): Table<Id, Level>
    requires Proper(l)
  {
    if calls == [] then Empty() else Handle(l, Run(l, calls[..|calls| - 1]), calls[|calls| - 1])
  }

  class TokenBuckets {
    const limits: Limits
    var buckets: Table<Id, Level>

    ghost predicate Valid()
      reads this
    {
      Proper(limits) && InsertionOrder.Valid(buckets)
    }

    constructor (capacity: real, windowMs: int, maxEntries: nat)
      requires capacity > 0.0 && windowMs > 0
      ensures Valid() && buckets == Empty() && limits == Limited(capacity, windowMs, maxEntries)
    {
      limits, buckets := Limited(capacity, windowMs, maxEntries), Empty();
    }

    method Refill(id: Id, t: int) returns (bucket: Level)
      requires Valid()
      modifies this
      ensures Valid()
      ensures bucket == Level(Available(limits, Lookup(old(buckets), id), t), t)
      ensures buckets == Refilled(limits, old(buckets), id, t)
    {
      if id !in buckets.at {
        bucket := Level(limits.capacity, t);
      } else {
        bucket := buckets.at[id];
        GainIsProduct(limits, t - bucket.at);
        bucket := Level(Min(limits.capacity, bucket.tokens + (t - bucket.at) as real * limits.perMs), t);
        DeleteIsValid(buckets, id);
        buckets := Delete(buckets, id);
      }
      SetIsValid(buckets, id, bucket);
      buckets := Set(buckets, id, bucket);
      Evict();
    }

    method Evict()
      requires Valid()
      modifies this
      ensures Valid()
      ensures buckets == Trim(old(buckets), limits.maxEntries)
    {
      while |buckets.order| > limits.maxEntries
        invariant Valid()
        invariant Trim(buckets, limits.maxEntries) == Trim(old(buckets), limits.maxEntries)
        decreases |buckets.order|
      {
        var oldest := buckets.order[0];
        DeleteFirst(buckets);
        buckets := Delete(buckets, oldest);
      }
    }

    method Take(id: Id, t: int) returns (r: TakeResult)
      requires Valid()
      modifies this
      ensures Valid()
      ensures r == Outcome(limits, old(buckets), Call(id, t, true))
      ensures r.ok <==> Available(limits, Lookup(old(buckets), id), t) >= 1.0
      ensures if r.ok then r.retryAfter == 0 else r.retryAfter >= 1
      ensures buckets == Handle(limits, old(buckets), Call(id, t, true))
    {
      var bucket := Refill(id, t);
      if bucket.tokens >= 1.0 {
        if id in buckets.at {
          buckets := buckets.(at := buckets.at[id := Level(bucket.tokens - 1.0, t)]);
        }
        r := TakeResult(true, 0);
      } else {
        r := TakeResult(false, RetryAfter(limits, bucket.tokens));
      }
    }

    method Check(id: Id, t: int) returns (r: TakeResult)
      requires Valid()
      modifies this
      ensures Valid()
      ensures r == Outcome(limits, old(buckets), Call(id, t, false))
      ensures r.ok <==> Available(limits, Lookup(old(buckets), id), t) >= 1.0
      ensures if r.ok then r.retryAfter == 0 else r.retryAfter >= 1
      ensures buckets == Handle(limits, old(buckets), Call(id, t, false))
    {
      var bucket := Refill(id, t);
      r := if bucket.tokens >= 1.0 then TakeResult(true, 0) else TakeResult(false, RetryAfter(limits, bucket.tokens));
    }
  }
}
