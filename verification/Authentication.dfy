/** A request's authentication (apps/data-api/src/server.ts): the key cache, and the failed-authentication
    limiter that gates what would reach the database. A lookup is begun by one event and settled by another,
    so that any number of requests overlap. */
module Authentication {
  import opened Basics
  import opened InsertionOrder
  import opened RateLimit
  import Json
  import K = KeyVerifier

  /** `calls` are the limiter calls made so far, `callers` the address behind each database read. */
  datatype World = World(keys: K.State, calls: seq<Call>, callers: seq<Id>)

  datatype Event =
    | Request(ip: Id, header: Option<string>, at: int)
    | Settle(read: K.ReadId, rows: seq<Json.Value>, at: int)
    | Fail(read: K.ReadId)

  datatype Verdict =
    | Accepted(key: K.VerifiedKey)
    | Unauthorized
    | RateLimited(retryAfter: int)
    | Waiting(read: K.ReadId)
    | Unavailable
    | Nothing

  function Fresh(): World {
    World(K.State(Empty(), []), [], [])
  }

  /** The tokens an address has at `t`. */
  function Tokens(l: Limits, w: World, ip: Id, t: int): real
    requires Proper(l)
  {
    Available(l, Lookup(Run(l, w.calls), ip), t)
  }

  predicate GateOpen(l: Limits, w: World, ip: Id, t: int)
    requires Proper(l)
  {
    Tokens(l, w, ip, t) >= 1.0
  }

  /** A read that some request waits for. */
  predicate Waits(w: World, read: K.ReadId) {
    K.Waits(w.keys, read) && read < |w.callers|
  }

  function Consulted(w: World, e: Event): K.BearerResult
    requires e.Request?
  {
    K.Consulted(w.keys.cache, e.header, e.at)
  }

  /** The database was asked about this key and did not confirm it. */
  predicate Refuses(w: World, e: Event) {
    e.Settle? && Waits(w, e.read) && K.Verified(e.rows).None?
  }

  /** The limiter call an event makes: a lookup is gated, and a request that fails pays. */
  function CallOf(w: World, e: Event): Option<Call> {
    match e
    case Request(ip, _, at) =>
      (match Consulted(w, e)
       case Malformed => Some(Call(ip, at, true))
       case Cached(_, value, _) => if value.None? then Some(Call(ip, at, true)) else None
       case Uncached(_) => Some(Call(ip, at, false)))
    case Settle(read, _, at) => if Refuses(w, e) then Some(Call(w.callers[read], at, true)) else None
    case Fail(_) => None
  }

  function Begins(l: Limits, w: World, e: Event): bool
    requires Proper(l)
  {
    e.Request? && Consulted(w, e).Uncached? && GateOpen(l, w, e.ip, e.at)
  }

  function KeysAfter(l: Limits, w: World, e: Event): K.State
    requires Proper(l)
  {
    match e
    case Request(ip, header, at) =>
      if Begins(l, w, e) then K.Step(w.keys, K.Request(header, at))
      else w.keys.(cache := K.Inspected(w.keys.cache, header, at))
    case Settle(read, rows, at) => if Waits(w, read) then K.Step(w.keys, K.Settle(read, rows, at)) else w.keys
    case Fail(read) => if Waits(w, read) then K.Step(w.keys, K.Fail(read)) else w.keys
  }

  function Made(c: Option<Call>): seq<Call> {
    if c.Some? then [c.value] else []
  }

  function Step(l: Limits, w: World, e: Event): World
    requires Proper(l)
  {
    World(KeysAfter(l, w, e), w.calls + Made(CallOf(w, e)), w.callers + if Begins(l, w, e) then [e.ip] else [])
  }

  function VerdictOf(l: Limits, w: World, e: Event): Verdict
    requires Proper(l)
  {
    match e
    case Request(ip, _, at) =>
      (match Consulted(w, e)
       case Malformed => Unauthorized
       case Cached(_, value, _) => if value.Some? then Accepted(value.value) else Unauthorized
       case Uncached(_) =>
         if GateOpen(l, w, ip, at) then Waiting(|w.keys.lookups|)
         else RateLimited(RetryAfter(l, Tokens(l, w, ip, at))))
    case Settle(read, rows, _) =>
      if !Waits(w, read) then Nothing
      else if Refuses(w, e) then Unauthorized
      else Accepted(K.Verified(rows).value)
    case Fail(read) => if Waits(w, read) then Unavailable else Nothing
  }

  function RunAll(l: Limits, events: seq<Event>): World
    requires Proper(l)
  {
    if events == [] then Fresh() else Step(l, RunAll(l, events[..|events| - 1]), events[|events| - 1])
  }

  /** The handler's two objects, and its history. */
  class Handler {
    const buckets: TokenBuckets
    const verifier: K.Verifier
    var lookups: seq<K.Read>
    var calls: seq<Call>
    var callers: seq<Id>

    ghost predicate Valid()
      reads this, buckets, verifier
    {
      && buckets.Valid() && InsertionOrder.Valid(verifier.cache)
      && buckets.buckets == Run(buckets.limits, calls)
    }

    function Snapshot(): World
      reads this, verifier
    {
      World(K.State(verifier.cache, lookups), calls, callers)
    }

    constructor (capacity: real, windowMs: int, maxEntries: nat)
      requires capacity > 0.0 && windowMs > 0
      ensures Valid() && Snapshot() == Fresh() && buckets.limits == Limited(capacity, windowMs, maxEntries)
      ensures fresh(buckets) && fresh(verifier)
    {
      buckets := new TokenBuckets(capacity, windowMs, maxEntries);
      verifier := new K.Verifier();
      lookups, calls, callers := [], [], [];
    }

    /** `authenticate` up to the database read it may have to wait for. */
    method Authenticate(ip: Id, header: Option<string>, t: int) returns (v: Verdict)
      requires Valid()
      modifies this, buckets, verifier
      ensures Valid()
      ensures v == VerdictOf(buckets.limits, old(Snapshot()), Request(ip, header, t))
      ensures Snapshot() == Step(buckets.limits, old(Snapshot()), Request(ip, header, t))
    {
      var inspected := verifier.Inspect(header, t);
      match inspected {
        case Malformed =>
          v := Refuse(ip, t);
        case Cached(_, value, _) =>
          if value.None? {
            v := Refuse(ip, t);
          } else {
            assert calls + [] == calls && callers + [] == callers;
            v := Accepted(value.value);
          }
        case Uncached(hash) =>
          v := Ask(ip, hash, t);
      }
    }

    method Refuse(ip: Id, t: int) returns (v: Verdict)
      requires Valid()
      modifies this`calls, buckets
      ensures Valid() && calls == old(calls) + [Call(ip, t, true)] && callers + [] == callers
      ensures v == Unauthorized
    {
      Pay(ip, t);
      v := Unauthorized;
    }

    /** The key is not in the cache: ask the gate, and then the database. */
    method Ask(ip: Id, hash: K.Hash, t: int) returns (v: Verdict)
      requires Valid()
      modifies this`calls, this`lookups, this`callers, buckets
      ensures Valid() && calls == old(calls) + [Call(ip, t, false)]
      ensures
        var gate := Outcome(buckets.limits, old(buckets.buckets), Call(ip, t, false));
        if gate.ok then
          && v == Waiting(|old(lookups)|) && callers == old(callers) + [ip]
          && lookups == old(lookups) + [K.Read(hash, t, K.Pending)]
        else
          v == RateLimited(gate.retryAfter) && lookups == old(lookups) && callers == old(callers) + []
    {
      var gate := Gate(ip, t);
      if gate.ok {
        v := Begin(ip, hash, t);
      } else {
        assert callers + [] == callers;
        v := RateLimited(gate.retryAfter);
      }
    }

    method Begin(ip: Id, hash: K.Hash, t: int) returns (v: Verdict)
      modifies this`lookups, this`callers
      ensures v == Waiting(|old(lookups)|) && callers == old(callers) + [ip]
      ensures lookups == old(lookups) + [K.Read(hash, t, K.Pending)]
    {
      v := Waiting(|lookups|);
      lookups, callers := lookups + [K.Read(hash, t, K.Pending)], callers + [ip];
    }

    method Gate(ip: Id, t: int) returns (gate: TakeResult)
      requires Valid()
      modifies this`calls, buckets
      ensures Valid() && calls == old(calls) + [Call(ip, t, false)]
      ensures gate == Outcome(buckets.limits, old(buckets.buckets), Call(ip, t, false))
    {
      gate := buckets.Check(ip, t);
      assert (calls + [Call(ip, t, false)])[..|calls|] == calls;
      calls := calls + [Call(ip, t, false)];
    }

    method Pay(ip: Id, t: int)
      requires Valid()
      modifies this`calls, buckets
      ensures Valid() && calls == old(calls) + [Call(ip, t, true)]
    {
      var _ := buckets.Take(ip, t);
      assert (calls + [Call(ip, t, true)])[..|calls|] == calls;
      calls := calls + [Call(ip, t, true)];
    }

    /** What follows the database's answer. */
    method Answered(read: K.ReadId, rows: seq<Json.Value>, t: int) returns (v: Verdict)
      requires Valid() && Waits(Snapshot(), read)
      modifies this, buckets, verifier
      ensures Valid()
      ensures v == VerdictOf(buckets.limits, old(Snapshot()), Settle(read, rows, t))
      ensures Snapshot() == Step(buckets.limits, old(Snapshot()), Settle(read, rows, t))
    {
      var r := lookups[read];
      var value := verifier.Remember(r.hash, rows, t, read);
      lookups := lookups[read := r.(answer := K.Answered(t, value))];
      if value.None? {
        Pay(callers[read], t);
        return Unauthorized;
      }
      v := Accepted(value.value);
    }
  }
}
