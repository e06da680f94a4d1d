/** What the read cache promises its callers, over every run of calls and late rejections. */
module RpcCacheProofs {
  import opened Basics
  import opened InsertionOrder
  import opened RpcCache
  import Json

  // ----- the key -----

  lemma KeySplits(f: string, g: string, x: string, y: string)
    requires Json.Printable(x) && Json.Printable(y) && f + SEPARATOR + x == g + SEPARATOR + y
    ensures f == g && x == y
  {
    var s := f + SEPARATOR + x;
    assert forall i :: |f| < i < |s| ==> s[i] == x[i - |f| - 1];
    assert forall i :: |g| < i < |s| ==> s[i] == y[i - |g| - 1];
    assert s[|f|] == SEPARATOR[0] == s[|g|];
    assert |f| == |g|;
    assert f == s[..|f|] && g == s[..|g|] && x == s[|f| + 1..] && y == s[|g| + 1..];
  }

  /** A key names one function and one set of arguments, whatever characters they hold. */
  lemma KeyIsInjective(f: string, a: Json.Value, g: string, b: Json.Value)
    requires Json.Sound(a) && Json.Sound(b)
    ensures KeyOf(f, a) == KeyOf(g, b) <==> f == g && a == b
  {
    if KeyOf(f, a) == KeyOf(g, b) {
      Json.ValueIsPrintable(a, []);
      Json.ValueIsPrintable(b, []);
      KeySplits(f, g, Json.Stringify(a), Json.Stringify(b));
      Json.StringifyIsInjective(a, b);
    }
  }

  // ----- the invariants -----

  /** Every entry is that of a load of its own key. */
  ghost predicate Linked(l: Limits, c: Cache) {
    && (forall k :: k in c.entries.at ==>
        && c.entries.at[k].load < |c.loads|
        && c.loads[c.entries.at[k].load].key == k
        && c.entries.at[k].expires == c.loads[c.entries.at[k].load].at + l.ttlMs)
    && (forall i: LoadId :: i in c.rejected ==> i < |c.loads|)
    && (forall i: LoadId :: i in c.evicted ==> i < |c.loads|)
  }

  /** A load that was not dropped and has not expired is the entry of its key. */
  ghost predicate Kept(l: Limits, c: Cache, now: int) {
    forall i: LoadId :: i < |c.loads| && i !in c.rejected && i !in c.evicted && c.loads[i].at + l.ttlMs > now ==>
      c.loads[i].key in c.entries.at && c.entries.at[c.loads[i].key].load == i
  }

  ghost predicate Chronological(c: Cache, now: int) {
    && (forall i, j :: 0 <= i <= j < |c.loads| ==> c.loads[i].at <= c.loads[j].at)
    && (forall i :: 0 <= i < |c.loads| ==> c.loads[i].at <= now)
  }

  function LoadAt(at: map<Key, Entry>, k: Key): LoadId {
    if k in at then at[k].load else 0
  }

  /** Later keys were loaded later. */
  ghost predicate Ascending(order: seq<Key>, at: map<Key, Entry>) {
    order != [] ==>
      && (forall k :: k in order[1..] ==> LoadAt(at, order[0]) < LoadAt(at, k))
      && Ascending(order[1..], at)
  }

  ghost predicate Tidy(l: Limits, m: Table<Key, Entry>) {
    InsertionOrder.Valid(m) && |m.order| <= l.maxEntries && Ascending(m.order, m.at)
  }

  ghost predicate Good(l: Limits, c: Cache, now: int) {
    Tidy(l, c.entries) && Linked(l, c) && Kept(l, c, now) && Chronological(c, now)
  }

  // ----- starting a load -----

  /** `m1` is `m` with the new entry, and `kept` what eviction leaves of it. */
  ghost predicate Inserts(m: Table<Key, Entry>, key: Key, e: Entry, m1: Table<Key, Entry>, kept: Table<Key, Entry>) {
    && (forall k :: k in m1.at <==> k == key || k in m.at)
    && (forall k :: k in m1.at ==> m1.at[k] == if k == key then e else m.at[k])
    && (forall k :: k in kept.at ==> k in m1.at && kept.at[k] == m1.at[k])
  }

  lemma InsertedShape(l: Limits, m: Table<Key, Entry>, key: Key, e: Entry)
    requires InsertionOrder.Valid(m)
    ensures
      var all := Set(Delete(m, key), key, e);
      && InsertionOrder.Valid(all) && InsertionOrder.Valid(Trim(all, l.maxEntries))
      && Inserts(m, key, e, all, Trim(all, l.maxEntries))
      && all.order == Without(m.order, key) + [key]
  {
    WithoutKeepsOthers(m.order, key);
    DeleteIsValid(m, key);
    SetIsValid(Delete(m, key), key, e);
    if key !in m.at {
      WithoutNothing(m.order, key);
    }
    TrimKeepsNewest(Set(Delete(m, key), key, e), l.maxEntries);
  }

  lemma {:induction false} WithoutNothing(s: seq<Key>, k: Key)
    requires k !in s
    ensures Without(s, k) == s
  {
    if s != [] {
      WithoutNothing(s[1..], k);
    }
  }

  function Dropping(c: Cache, all: Table<Key, Entry>, kept: Table<Key, Entry>, load: Load): Cache {
    Cache(kept, c.loads + [load], c.rejected, c.evicted + (LoadsOf(all) - LoadsOf(kept)))
  }

  lemma InsertKeeps(l: Limits, c: Cache, load: Load, all: Table<Key, Entry>, kept: Table<Key, Entry>, now: int)
    requires Linked(l, c) && Kept(l, c, now) && now <= load.at && !Hits(c, load.key, load.at)
    requires Inserts(c.entries, load.key, Entry(load.at + l.ttlMs, |c.loads|), all, kept)
    ensures Kept(l, Dropping(c, all, kept, load), load.at)
  {
    var c1 := Dropping(c, all, kept, load);
    forall i: LoadId | i < |c1.loads| && i !in c1.rejected && i !in c1.evicted && c1.loads[i].at + l.ttlMs > load.at
      ensures c1.loads[i].key in kept.at && kept.at[c1.loads[i].key].load == i
    {
      var k := c1.loads[i].key;
      assert k in all.at && all.at[k].load == i;
      assert i in LoadsOf(all) && i in LoadsOf(kept);
    }
  }

  lemma {:induction false} WithoutAscends(s: seq<Key>, k: Key, at: map<Key, Entry>)
    requires Ascending(s, at)
    ensures Ascending(Without(s, k), at) && forall x :: x in Without(s, k) ==> x in s
  {
    if s != [] && s[0] != k {
      WithoutAscends(s[1..], k, at);
      assert ([s[0]] + Without(s[1..], k))[1..] == Without(s[1..], k);
    }
  }

  lemma {:induction false} AppendAscends(s: seq<Key>, k: Key, at: map<Key, Entry>, at1: map<Key, Entry>)
    requires Ascending(s, at) && forall x :: x in s ==> LoadAt(at, x) == LoadAt(at1, x) < LoadAt(at1, k)
    ensures Ascending(s + [k], at1)
  {
    if s != [] {
      assert forall x :: x in s[1..] ==> x in s;
      AppendAscends(s[1..], k, at, at1);
      assert (s + [k])[1..] == s[1..] + [k];
    }
  }

  lemma {:induction false} DropAscends(s: seq<Key>, n: nat, at: map<Key, Entry>, at1: map<Key, Entry>)
    requires n <= |s| && Ascending(s, at) && forall x :: x in s[n..] ==> LoadAt(at, x) == LoadAt(at1, x)
    ensures Ascending(s[n..], at1)
    decreases |s|
  {
    if n > 0 {
      assert s[1..][n - 1..] == s[n..];
      DropAscends(s[1..], n - 1, at, at1);
    } else if s != [] {
      assert s[0..] == s && s[1..][0..] == s[1..];
      assert forall x :: x in s[1..] ==> x in s;
      DropAscends(s[1..], 0, at, at1);
    }
  }

  lemma InsertedAscends(l: Limits, m: Table<Key, Entry>, key: Key, e: Entry)
    requires Tidy(l, m) && forall k :: k in m.at ==> m.at[k].load < e.load
    ensures
      var all := Set(Delete(m, key), key, e);
      Ascending(all.order, all.at)
  {
    var all := Set(Delete(m, key), key, e);
    InsertedShape(l, m, key, e);
    WithoutKeepsOthers(m.order, key);
    WithoutAscends(m.order, key, m.at);
    AppendAscends(Without(m.order, key), key, m.at, all.at);
  }

  lemma TrimmedIsTidy(l: Limits, all: Table<Key, Entry>)
    requires InsertionOrder.Valid(all) && Ascending(all.order, all.at)
    ensures Tidy(l, Trim(all, l.maxEntries))
  {
    var kept := Trim(all, l.maxEntries);
    TrimKeepsNewest(all, l.maxEntries);
    var n := if |all.order| <= l.maxEntries then 0 else |all.order| - l.maxEntries;
    assert kept.order == all.order[n..];
    DropAscends(all.order, n, all.at, kept.at);
  }

  lemma InsertedIsTidy(l: Limits, m: Table<Key, Entry>, key: Key, e: Entry)
    requires Tidy(l, m) && forall k :: k in m.at ==> m.at[k].load < e.load
    ensures
      var all := Set(Delete(m, key), key, e);
      Tidy(l, Trim(all, l.maxEntries)) && Inserts(m, key, e, all, Trim(all, l.maxEntries))
  {
    InsertedShape(l, m, key, e);
    InsertedAscends(l, m, key, e);
    TrimmedIsTidy(l, Set(Delete(m, key), key, e));
  }

  lemma InsertIsGood(l: Limits, c: Cache, load: Load, all: Table<Key, Entry>, kept: Table<Key, Entry>, now: int)
    requires Good(l, c, now) && now <= load.at && !Hits(c, load.key, load.at) && Tidy(l, kept)
    requires Inserts(c.entries, load.key, Entry(load.at + l.ttlMs, |c.loads|), all, kept)
    ensures Good(l, Dropping(c, all, kept, load), load.at)
  {
    InsertKeeps(l, c, load, all, kept, now);
    InsertLinks(l, c, load, all, kept);
  }

  lemma InsertLinks(l: Limits, c: Cache, load: Load, all: Table<Key, Entry>, kept: Table<Key, Entry>)
    requires Linked(l, c) && Inserts(c.entries, load.key, Entry(load.at + l.ttlMs, |c.loads|), all, kept)
    ensures Linked(l, Dropping(c, all, kept, load))
  {
  }

  lemma LoadsAreOlder(l: Limits, c: Cache)
    requires Linked(l, c)
    ensures forall k :: k in c.entries.at ==> c.entries.at[k].load < |c.loads|
  {
  }

  lemma LoadedIsDropping(l: Limits, c: Cache, load: Load, all: Table<Key, Entry>)
    requires all == Set(Delete(c.entries, load.key), load.key, Entry(load.at + l.ttlMs, |c.loads|))
    ensures Loaded(l, c, load) == Dropping(c, all, Trim(all, l.maxEntries), load)
  {
  }

  lemma LoadedIsGood(l: Limits, c: Cache, load: Load, now: int)
    requires Good(l, c, now) && now <= load.at && !Hits(c, load.key, load.at)
    ensures Good(l, Loaded(l, c, load), load.at)
  {
    var e := Entry(load.at + l.ttlMs, |c.loads|);
    var all := Set(Delete(c.entries, load.key), load.key, e);
    LoadsAreOlder(l, c);
    InsertedIsTidy(l, c.entries, load.key, e);
    LoadedIsDropping(l, c, load, all);
    InsertIsGood(l, c, load, all, Trim(all, l.maxEntries), now);
  }

  // ----- a rejection -----

  lemma DeletedIsTidy(l: Limits, m: Table<Key, Entry>, key: Key)
    requires Tidy(l, m) && key in m.at
    ensures Tidy(l, Delete(m, key))
  {
    var order, at := Without(m.order, key), m.at - {key};
    DeleteIsValid(m, key);
    WithoutKeepsOthers(m.order, key);
    WithoutAscends(m.order, key, m.at);
    assert order[0..] == order;
    DropAscends(order, 0, m.at, at);
  }

  lemma RejectedKeeps(l: Limits, c: Cache, load: LoadId, now: int)
    requires Linked(l, c) && Kept(l, c, now) && load < |c.loads|
    ensures Linked(l, Rejected(c, load)) && Kept(l, Rejected(c, load), now)
  {
    var c1 := Rejected(c, load);
    forall i: LoadId | i < |c1.loads| && i !in c1.rejected && i !in c1.evicted && c1.loads[i].at + l.ttlMs > now
      ensures c1.loads[i].key in c1.entries.at && c1.entries.at[c1.loads[i].key].load == i
    {
      assert i != load && c.loads[i].key in c.entries.at && c.entries.at[c.loads[i].key].load == i;
    }
  }

  lemma RejectedIsGood(l: Limits, c: Cache, load: LoadId, now: int)
    requires Good(l, c, now) && load < |c.loads|
    ensures Good(l, Rejected(c, load), now)
  {
    var key := c.loads[load].key;
    RejectedKeeps(l, c, load, now);
    if key in c.entries.at && c.entries.at[key].load == load {
      DeletedIsTidy(l, c.entries, key);
    }
  }

  // ----- every run -----

  function Time(events: seq<Event>, from: int): int {
    if events == [] then from
    else
      var e := events[|events| - 1];
      if e.Get? then e.at else Time(events[..|events| - 1], from)
  }

  /** The clock never goes back, and the arguments are values. */
  ghost predicate Ordered(events: seq<Event>, from: int) {
    events != [] ==>
      var before, e := events[..|events| - 1], events[|events| - 1];
      && Ordered(before, from)
      && (e.Get? ==> Time(before, from) <= e.at && Json.Sound(e.args))
  }

  ghost predicate Truthful(c: Cache) {
    forall i :: 0 <= i < |c.loads| ==>
      Json.Sound(c.loads[i].args) && c.loads[i].key == KeyOf(c.loads[i].fn, c.loads[i].args)
  }

  lemma {:induction false} LoadsAreTruthful(l: Limits, events: seq<Event>, from: int)
    requires Ordered(events, from)
    ensures Truthful(Run(l, events))
  {
    if events != [] {
      LoadsAreTruthful(l, events[..|events| - 1], from);
    }
  }

  lemma StepIsGood(l: Limits, c: Cache, e: Event, now: int)
    requires Good(l, c, now) && (e.Get? ==> now <= e.at)
    ensures Good(l, Step(l, c, e), if e.Get? then e.at else now)
  {
    match e
    case Get(fn, args, at) =>
      var key := KeyOf(fn, args);
      if !Hits(c, key, at) {
        LoadedIsGood(l, c, Load(key, fn, args, at), now);
      }
    case Reject(load) =>
      if load < |c.loads| {
        RejectedIsGood(l, c, load, now);
      }
  }

  lemma {:induction false} RunIsGood(l: Limits, events: seq<Event>, from: int)
    requires Ordered(events, from)
    ensures Good(l, Run(l, events), Time(events, from))
  {
    if events != [] {
      var before, e := events[..|events| - 1], events[|events| - 1];
      RunIsGood(l, before, from);
      StepIsGood(l, Run(l, before), e, Time(before, from));
    }
  }

  // ----- what callers get -----

  /** Every call is answered by a load of exactly its function and arguments that was started less than one
      lifetime before, or by one started now. */
  lemma AnswersAreFresh(l: Limits, events: seq<Event>, e: Event, from: int)
    requires e.Get? && Ordered(events + [e], from)
    ensures
      var c, r := Run(l, events + [e]), Answer(Run(l, events), e);
      && r < |c.loads| && c.loads[r].fn == e.fn && c.loads[r].args == e.args
      && c.loads[r].at <= e.at && (e.at < c.loads[r].at + l.ttlMs || c.loads[r].at == e.at)
  {
    assert (events + [e])[..|events|] == events;
    var c := Run(l, events);
    RunIsGood(l, events, from);
    LoadsAreTruthful(l, events, from);
    if Hits(c, KeyOf(e.fn, e.args), e.at) {
      var load := c.loads[c.entries.at[KeyOf(e.fn, e.args)].load];
      KeyIsInjective(e.fn, e.args, load.fn, load.args);
    }
  }

  lemma {:induction false} LoadsStay(l: Limits, events: seq<Event>, more: seq<Event>)
    ensures Run(l, events).loads <= Run(l, events + more).loads
    decreases |more|
  {
    if more == [] {
      assert events + more == events;
    } else {
      var prefix := events + more[..|more| - 1];
      assert (events + more)[..|events + more| - 1] == prefix;
      LoadsStay(l, events, more[..|more| - 1]);
    }
  }

  /** Two calls share an answer only if they made the same call: consumers whose ids differ never do. */
  lemma SharingIsSameCall(l: Limits, events: seq<Event>, e: Event, more: seq<Event>, f: Event, from: int)
    requires e.Get? && f.Get? && Ordered(events + [e] + more + [f], from)
    requires Ordered(events + [e], from)
    requires Answer(Run(l, events), e) == Answer(Run(l, events + [e] + more), f)
    ensures e.fn == f.fn && e.args == f.args
  {
    AnswersAreFresh(l, events, e, from);
    AnswersAreFresh(l, events + [e] + more, f, from);
    LoadsStay(l, events + [e], more);
    LoadsStay(l, events + [e] + more, [f]);
  }

  /** A call starts a second load of something loaded less than one lifetime ago only if the first was
      rejected or evicted. */
  lemma ReloadsHaveAReason(l: Limits, events: seq<Event>, e: Event, first: LoadId, from: int)
    requires e.Get? && Ordered(events + [e], from)
    requires
      var c := Run(l, events);
      && Answer(c, e) == |c.loads|
      && first < |c.loads| && c.loads[first].fn == e.fn && c.loads[first].args == e.args
      && e.at < c.loads[first].at + l.ttlMs
    ensures first in Run(l, events).rejected || first in Run(l, events).evicted
  {
    assert (events + [e])[..|events|] == events;
    RunIsGood(l, events, from);
    LoadsAreTruthful(l, events, from);
    assert Time(events, from) <= e.at;
  }

  lemma {:induction false} AscendingAt(order: seq<Key>, at: map<Key, Entry>, i: nat, j: nat)
    requires Ascending(order, at) && i < j < |order|
    ensures LoadAt(at, order[i]) < LoadAt(at, order[j])
  {
    if i == 0 {
      assert order[j] in order[1..];
    } else {
      AscendingAt(order[1..], at, i - 1, j - 1);
    }
  }

  /** The oldest entries, which eviction takes first, are the next to expire, and there are never too many. */
  lemma OldestExpiresFirst(l: Limits, events: seq<Event>, from: int, i: nat, j: nat)
    requires Ordered(events, from) && i < j < |Run(l, events).entries.order|
    ensures
      var m := Run(l, events).entries;
      && |m.order| <= l.maxEntries
      && m.order[i] in m.at && m.order[j] in m.at
      && m.at[m.order[i]].expires <= m.at[m.order[j]].expires
  {
    RunIsGood(l, events, from);
    var m := Run(l, events).entries;
    assert m.order[i] in m.order && m.order[j] in m.order;
    AscendingAt(m.order, m.at, i, j);
  }

  // ----- what is dropped -----

  /** No entry holds the promise of a load that was rejected. */
  ghost predicate NoneRejected(c: Cache) {
    forall k :: k in c.entries.at ==> c.entries.at[k].load !in c.rejected
  }

  lemma KeptHoldsNoneRejected(l: Limits, c: Cache, load: Load, all: Table<Key, Entry>, kept: Table<Key, Entry>)
    requires Linked(l, c) && NoneRejected(c)
    requires Inserts(c.entries, load.key, Entry(load.at + l.ttlMs, |c.loads|), all, kept)
    ensures forall k :: k in kept.at ==> kept.at[k].load !in c.rejected
  {
    forall k | k in kept.at ensures kept.at[k].load !in c.rejected {
      assert kept.at[k] == if k == load.key then Entry(load.at + l.ttlMs, |c.loads|) else c.entries.at[k];
    }
  }

  lemma LoadedHoldsNoneRejected(l: Limits, c: Cache, load: Load)
    requires InsertionOrder.Valid(c.entries) && Linked(l, c) && NoneRejected(c)
    ensures NoneRejected(Loaded(l, c, load))
  {
    var e := Entry(load.at + l.ttlMs, |c.loads|);
    var all := Set(Delete(c.entries, load.key), load.key, e);
    InsertedShape(l, c.entries, load.key, e);
    KeptHoldsNoneRejected(l, c, load, all, Trim(all, l.maxEntries));
    LoadedIsDropping(l, c, load, all);
  }

  lemma {:induction false} RunHoldsNoneRejected(l: Limits, events: seq<Event>, from: int)
    requires Ordered(events, from)
    ensures NoneRejected(Run(l, events))
  {
    if events != [] {
      var before, e := events[..|events| - 1], events[|events| - 1];
      RunHoldsNoneRejected(l, before, from);
      RunIsGood(l, before, from);
      if e.Get? && !Hits(Run(l, before), KeyOf(e.fn, e.args), e.at) {
        LoadedHoldsNoneRejected(l, Run(l, before), Load(KeyOf(e.fn, e.args), e.fn, e.args, e.at));
      }
    }
  }

  /** Once a load was rejected no later call is answered by it. */
  lemma RejectedAnswersNobody(l: Limits, events: seq<Event>, load: LoadId, more: seq<Event>, e: Event, from: int)
    requires e.Get? && load < |Run(l, events).loads|
    requires Ordered(events + [Reject(load)] + more, from)
    ensures Answer(Run(l, events + [Reject(load)] + more), e) != load
  {
    assert (events + [Reject(load)])[..|events|] == events;
    RejectionsStay(l, events + [Reject(load)], more);
    RunHoldsNoneRejected(l, events + [Reject(load)] + more, from);
    LoadsStay(l, events, [Reject(load)]);
    LoadsStay(l, events + [Reject(load)], more);
  }

  lemma {:induction false} RejectionsStay(l: Limits, events: seq<Event>, more: seq<Event>)
    ensures Run(l, events).rejected <= Run(l, events + more).rejected
    decreases |more|
  {
    if more == [] {
      assert events + more == events;
    } else {
      var prefix := events + more[..|more| - 1];
      assert (events + more)[..|events + more| - 1] == prefix;
      RejectionsStay(l, events, more[..|more| - 1]);
    }
  }

  /** Each place further along was loaded at least one load later. */
  lemma {:induction false} AscendingSteps(order: seq<Key>, at: map<Key, Entry>, i: nat, j: nat)
    requires Ascending(order, at) && i <= j < |order|
    ensures LoadAt(at, order[i]) + (j - i) <= LoadAt(at, order[j])
    decreases j
  {
    if i < j {
      AscendingSteps(order, at, i, j - 1);
      AscendingAt(order, at, j - 1, j);
    }
  }

  /** So many loads were started after every one that was evicted. */
  ghost predicate EvictedAreOld(l: Limits, c: Cache) {
    forall i: LoadId :: i in c.evicted ==> i + l.maxEntries < |c.loads|
  }

  lemma TrimmedAreOld(l: Limits, all: Table<Key, Entry>, newest: LoadId, k: Key)
    requires InsertionOrder.Valid(all) && Ascending(all.order, all.at)
    requires forall x :: x in all.at ==> all.at[x].load <= newest
    requires k in all.at && k !in Trim(all, l.maxEntries).at
    ensures all.at[k].load + l.maxEntries <= newest
  {
    TrimKeepsNewest(all, l.maxEntries);
    assert k in all.order;
    var i: nat :| i < |all.order| && all.order[i] == k;
    var last := |all.order| - 1;
    assert all.order[last] in all.order;
    AscendingSteps(all.order, all.at, i, last);
    var n := if |all.order| <= l.maxEntries then 0 else |all.order| - l.maxEntries;
    var kept := Trim(all, l.maxEntries).order;
    forall j | n <= j < |all.order| ensures all.order[j] in kept {
      assert kept[j - n] == all.order[j];
    }
  }

  lemma LoadedEvictsOld(l: Limits, c: Cache, load: Load, now: int)
    requires Good(l, c, now) && EvictedAreOld(l, c)
    ensures EvictedAreOld(l, Loaded(l, c, load))
  {
    var e := Entry(load.at + l.ttlMs, |c.loads|);
    var all := Set(Delete(c.entries, load.key), load.key, e);
    LoadsAreOlder(l, c);
    InsertedShape(l, c.entries, load.key, e);
    InsertedAscends(l, c.entries, load.key, e);
    forall i: LoadId | i in LoadsOf(all) - LoadsOf(Trim(all, l.maxEntries)) ensures i + l.maxEntries < |c.loads| + 1 {
      var k :| k in all.at && all.at[k].load == i;
      TrimmedAreOld(l, all, |c.loads|, k);
    }
  }

  /** In every run a load was evicted only after as many later loads as the cache may hold. */
  lemma {:induction false} EvictionIsForRoom(l: Limits, events: seq<Event>, from: int)
    requires Ordered(events, from)
    ensures EvictedAreOld(l, Run(l, events))
  {
    if events != [] {
      var before, e := events[..|events| - 1], events[|events| - 1];
      EvictionIsForRoom(l, before, from);
      RunIsGood(l, before, from);
      if e.Get? && !Hits(Run(l, before), KeyOf(e.fn, e.args), e.at) {
        LoadedEvictsOld(l, Run(l, before), Load(KeyOf(e.fn, e.args), e.fn, e.args, e.at), Time(before, from));
      }
    }
  }
}
