/** Concurrent syncs of one member in one guild (apps/bot/src/sync.ts): each reads the member's roles,
    works out a diff, and applies it one call at a time, in any interleaving. */
module RoleSync {
  import opened Basics
  import opened Roles

  /** What the app asks for, for one member in one guild. */
  datatype Goal = Goal(desired: Option<set<ManagedRole>>, roles: RoleMap, revoke: bool) {
    ghost function Wanted(): set<RoleId> { WantedIds(desired, roles) }
    ghost function Unwanted(): set<RoleId> { UnwantedIds(desired, roles, revoke) }
    ghost predicate Possible() { Consistent(desired, roles, revoke) }
    ghost predicate Met(held: set<RoleId>) { Correct(held, desired, roles, revoke) }
  }

  datatype Call = AddRole(id: RoleId) | RemoveRole(id: RoleId)

  /** `NotFound`: Discord has no such role, so nobody holds it. A failed call may have landed. */
  datatype CallResult = CallOk | Forbidden | NotFound | CallFailed(landed: bool)

  /** `clean`: every call so far was answered ok. */
  datatype Sync = NotStarted | Running(calls: seq<Call>, clean: bool) | Finished(clean: bool)

  datatype Guild = Guild(held: set<RoleId>, syncs: seq<Sync>)

  datatype Event = Reads(who: nat, answered: bool) | Calls(who: nat, result: CallResult)

  function Queue(goal: Goal, held: set<RoleId>): seq<Call> {
    var add := Additions(goal.desired, goal.roles, held);
    var remove := Removals(goal.desired, goal.roles, held, goal.revoke);
    seq(|add|, i requires 0 <= i < |add| => AddRole(add[i]))
    + seq(|remove|, i requires 0 <= i < |remove| => RemoveRole(remove[i]))
  }

  predicate Lands(call: Call, result: CallResult) {
    result.CallOk? || (result.CallFailed? && result.landed) || (result.NotFound? && call.RemoveRole?)
  }

  function Applied(held: set<RoleId>, call: Call, result: CallResult): set<RoleId> {
    if !Lands(call, result) then held
    else if call.AddRole? then held + {call.id} else held - {call.id}
  }

  function Continue(calls: seq<Call>, clean: bool): Sync {
    if calls == [] then Finished(clean) else Running(calls, clean)
  }

  function Step(goal: Goal, g: Guild, e: Event): Guild {
    if e.who >= |g.syncs| then g else
    match e
    case Reads(who, answered) =>
      if !g.syncs[who].NotStarted? then g
      else if !answered then g.(syncs := g.syncs[who := Finished(false)])
      else g.(syncs := g.syncs[who := Continue(Queue(goal, g.held), true)])
    case Calls(who, result) =>
      if !g.syncs[who].Running? || g.syncs[who].calls == [] then g else
      var sync := g.syncs[who];
      Guild(Applied(g.held, sync.calls[0], result),
            g.syncs[who := Continue(sync.calls[1..], sync.clean && result.CallOk?)])
  }

  function Run(goal: Goal, g: Guild, events: seq<Event>): Guild {
    if events == [] then g else Step(goal, Run(goal, g, events[..|events| - 1]), events[|events| - 1])
  }

  // ---- The invariant ----

  /** The call moves the member towards the goal. */
  ghost predicate Towards(goal: Goal, call: Call) {
    if call.AddRole? then call.id in goal.Wanted() else call.id in goal.Unwanted()
  }

  /** What a sync without a failure so far has still to do makes every id right. */
  ghost predicate Covers(goal: Goal, held: set<RoleId>, sync: Sync) {
    match sync
    case NotStarted => true
    case Finished(clean) => clean ==> goal.Met(held)
    case Running(calls, clean) =>
      clean ==>
        && (forall id :: id in goal.Wanted() ==> id in held || AddRole(id) in calls)
        && forall id :: id in goal.Unwanted() ==> id !in held || RemoveRole(id) in calls
  }

  ghost predicate OnTrack(goal: Goal, g: Guild) {
    && (forall i :: 0 <= i < |g.syncs| ==> Covers(goal, g.held, g.syncs[i]))
    && forall i :: 0 <= i < |g.syncs| && g.syncs[i].Running? ==> forall c :: c in g.syncs[i].calls ==> Towards(goal, c)
  }

  /** `held'` is at least as right as `held`, and differs only on ids the goal speaks of. */
  ghost predicate NoFurther(goal: Goal, held: set<RoleId>, held': set<RoleId>) {
    && (forall id :: id in goal.Wanted() && id in held ==> id in held')
    && (forall id :: id in goal.Unwanted() && id !in held ==> id !in held')
    && (forall id :: id !in goal.Wanted() && id !in goal.Unwanted() ==> (id in held <==> id in held'))
  }

  lemma QueueIsTheDiff(goal: Goal, held: set<RoleId>)
    ensures forall id :: AddRole(id) in Queue(goal, held) <==> id in goal.Wanted() - held
    ensures forall id :: RemoveRole(id) in Queue(goal, held) <==> id in goal.Unwanted() * held
  {
    var add := Additions(goal.desired, goal.roles, held);
    var remove := Removals(goal.desired, goal.roles, held, goal.revoke);
    var queue := Queue(goal, held);
    forall id
      ensures AddRole(id) in queue <==> id in goal.Wanted() - held
      ensures RemoveRole(id) in queue <==> id in goal.Unwanted() * held
    {
      DiffIsTheDifference(goal.desired, goal.roles, held, goal.revoke, id);
      assert forall i :: 0 <= i < |add| ==> queue[i] == AddRole(add[i]);
      assert forall i :: 0 <= i < |remove| ==> queue[|add| + i] == RemoveRole(remove[i]);
    }
  }

  lemma CallIsNoFurther(goal: Goal, held: set<RoleId>, call: Call, result: CallResult)
    requires goal.Possible() && Towards(goal, call)
    ensures NoFurther(goal, held, Applied(held, call, result))
  {
  }

  lemma CoversLater(goal: Goal, held: set<RoleId>, held': set<RoleId>, sync: Sync)
    requires Covers(goal, held, sync) && NoFurther(goal, held, held')
    ensures Covers(goal, held', sync)
  {
  }

  lemma StepStaysOnTrack(goal: Goal, g: Guild, e: Event)
    requires goal.Possible() && OnTrack(goal, g)
    ensures OnTrack(goal, Step(goal, g, e)) && NoFurther(goal, g.held, Step(goal, g, e).held)
  {
    var g' := Step(goal, g, e);
    if e.Reads? {
      QueueIsTheDiff(goal, g.held);
      MetIsQuiet(goal, g.held);
      assert forall c :: c in Queue(goal, g.held) ==> Towards(goal, c) by {
        forall c | c in Queue(goal, g.held) ensures Towards(goal, c) {
          assert c == AddRole(c.id) || c == RemoveRole(c.id);
        }
      }
    } else if e.who < |g.syncs| && g.syncs[e.who].Running? && g.syncs[e.who].calls != [] {
      CallsStayOnTrack(goal, g, e.who, e.result);
    }
  }

  lemma CallsStayOnTrack(goal: Goal, g: Guild, who: nat, result: CallResult)
    requires goal.Possible() && OnTrack(goal, g)
    requires who < |g.syncs| && g.syncs[who].Running? && g.syncs[who].calls != []
    ensures var g' := Step(goal, g, Calls(who, result));
            OnTrack(goal, g') && NoFurther(goal, g.held, g'.held)
  {
    var g' := Step(goal, g, Calls(who, result));
    var sync := g.syncs[who];
    var call := sync.calls[0];
    assert sync.calls == [call] + sync.calls[1..];
    assert call in sync.calls;
    CallIsNoFurther(goal, g.held, call, result);
    forall i | 0 <= i < |g.syncs| ensures Covers(goal, g'.held, g'.syncs[i]) {
      CoversLater(goal, g.held, g'.held, g.syncs[i]);
    }
  }

  lemma {:induction false} RunStaysOnTrack(goal: Goal, g: Guild, events: seq<Event>)
    requires goal.Possible() && OnTrack(goal, g)
    ensures OnTrack(goal, Run(goal, g, events)) && NoFurther(goal, g.held, Run(goal, g, events).held)
  {
    if events != [] {
      RunStaysOnTrack(goal, g, events[..|events| - 1]);
      StepStaysOnTrack(goal, Run(goal, g, events[..|events| - 1]), events[|events| - 1]);
    }
  }

  /** Any number of syncs, in any interleaving, with any answers, never move a role away from the goal
      and never touch another role. Once any one of them has finished with every call ok, the member
      holds what the goal says, and a further sync has nothing to do. */
  lemma SyncsConverge(goal: Goal, held: set<RoleId>, n: nat, events: seq<Event>)
    requires goal.Possible()
    ensures var g := Run(goal, Guild(held, seq(n, i => NotStarted)), events);
            && NoFurther(goal, held, g.held)
            && (Finished(true) in g.syncs ==> goal.Met(g.held) && Queue(goal, g.held) == [])
  {
    var g0 := Guild(held, seq(n, i => NotStarted));
    RunStaysOnTrack(goal, g0, events);
    var g := Run(goal, g0, events);
    if Finished(true) in g.syncs {
      MetIsQuiet(goal, g.held);
    }
  }

  /** A sync makes no calls exactly when the member holds what the goal says. */
  lemma MetIsQuiet(goal: Goal, held: set<RoleId>)
    ensures goal.Met(held) <==> Queue(goal, held) == []
  {
    QueueIsTheDiff(goal, held);
    var queue := Queue(goal, held);
    if queue == [] {
      assert forall id :: id in goal.Wanted() && id !in held ==> AddRole(id) in queue;
      assert forall id :: id in goal.Unwanted() && id in held ==> RemoveRole(id) in queue;
    } else {
      var c := queue[0];
      assert c in queue;
      assert c == AddRole(c.id) || c == RemoveRole(c.id);
    }
  }

  // ---- One fault-free sweep after another ----

  /** What a sync with every call ok leaves: the additions go in, then the removals come off. */
  function Swept(goal: Goal, held: set<RoleId>): set<RoleId> {
    held + (set id | id in Additions(goal.desired, goal.roles, held))
         - (set id | id in Removals(goal.desired, goal.roles, held, goal.revoke))
  }

  /** The calls in order, each answered ok. */
  function Taken(held: set<RoleId>, calls: seq<Call>): set<RoleId> {
    if calls == [] then held else Applied(Taken(held, calls[..|calls| - 1]), calls[|calls| - 1], CallOk)
  }

  /** One sync that is answered, and then has its first `n` calls answered ok. */
  function OneSync(n: nat): seq<Event> {
    if n == 0 then [Reads(0, true)] else OneSync(n - 1) + [Calls(0, CallOk)]
  }

  /** A sync that began with this queue and whose first `n` calls were answered ok. */
  function AfterCalls(held: set<RoleId>, q: seq<Call>, n: nat): Guild
    requires n <= |q|
  {
    Guild(Taken(held, q[..n]), [Continue(q[n..], true)])
  }

  lemma OneMoreCall(goal: Goal, held: set<RoleId>, q: seq<Call>, n: nat)
    requires n < |q|
    ensures Step(goal, AfterCalls(held, q, n), Calls(0, CallOk)) == AfterCalls(held, q, n + 1)
  {
    assert q[..n + 1][..n] == q[..n] && q[n..][1..] == q[n + 1..];
    assert q[n..][0] == q[n] && q[..n + 1][n] == q[n];
  }

  lemma OneSyncReads(goal: Goal, held: set<RoleId>)
    ensures Run(goal, Guild(held, [NotStarted]), OneSync(0)) == AfterCalls(held, Queue(goal, held), 0)
  {
    var q, g0 := Queue(goal, held), Guild(held, [NotStarted]);
    assert OneSync(0)[..0] == [];
    assert Run(goal, g0, OneSync(0)) == Step(goal, g0, Reads(0, true));
    assert q[..0] == [] && q[0..] == q;
  }

  lemma OneSyncCalls(goal: Goal, g: Guild, n: nat)
    requires n > 0
    ensures Run(goal, g, OneSync(n)) == Step(goal, Run(goal, g, OneSync(n - 1)), Calls(0, CallOk))
  {
    assert OneSync(n)[..|OneSync(n - 1)|] == OneSync(n - 1);
  }

  lemma {:induction false} SyncSoFar(goal: Goal, held: set<RoleId>, n: nat)
    requires n <= |Queue(goal, held)|
    ensures Run(goal, Guild(held, [NotStarted]), OneSync(n)) == AfterCalls(held, Queue(goal, held), n)
  {
    if n == 0 {
      OneSyncReads(goal, held);
    } else {
      SyncSoFar(goal, held, n - 1);
      OneSyncCalls(goal, Guild(held, [NotStarted]), n);
      OneMoreCall(goal, held, Queue(goal, held), n - 1);
    }
  }

  lemma {:induction false} TakenAdditions(held: set<RoleId>, ids: seq<RoleId>)
    ensures Taken(held, seq(|ids|, i requires 0 <= i < |ids| => AddRole(ids[i]))) == held + set id | id in ids
  {
    var calls := seq(|ids|, i requires 0 <= i < |ids| => AddRole(ids[i]));
    if ids != [] {
      var before := ids[..|ids| - 1];
      TakenAdditions(held, before);
      assert calls[..|calls| - 1] == seq(|before|, i requires 0 <= i < |before| => AddRole(before[i]));
      assert ids == before + [ids[|ids| - 1]];
    }
  }

  lemma {:induction false} TakenRemovals(held: set<RoleId>, first: seq<Call>, ids: seq<RoleId>)
    ensures Taken(held, first + seq(|ids|, i requires 0 <= i < |ids| => RemoveRole(ids[i])))
            == Taken(held, first) - set id | id in ids
  {
    var calls := first + seq(|ids|, i requires 0 <= i < |ids| => RemoveRole(ids[i]));
    if ids == [] {
      assert calls == first;
    } else {
      var before := ids[..|ids| - 1];
      TakenRemovals(held, first, before);
      assert calls[..|calls| - 1] == first + seq(|before|, i requires 0 <= i < |before| => RemoveRole(before[i]));
      assert ids == before + [ids[|ids| - 1]];
    }
  }

  /** A sweep is what one sync does when it is answered and every call is. */
  lemma SweepIsACleanSync(goal: Goal, held: set<RoleId>)
    ensures Run(goal, Guild(held, [NotStarted]), OneSync(|Queue(goal, held)|)) == Guild(Swept(goal, held), [Finished(true)])
  {
    var q := Queue(goal, held);
    var add := Additions(goal.desired, goal.roles, held);
    SyncSoFar(goal, held, |q|);
    assert q[..|q|] == q && q[|q|..] == [];
    TakenAdditions(held, add);
    TakenRemovals(held, seq(|add|, i requires 0 <= i < |add| => AddRole(add[i])),
                  Removals(goal.desired, goal.roles, held, goal.revoke));
  }

  function Sweeps(goal: Goal, held: set<RoleId>, n: nat): set<RoleId> {
    if n == 0 then held else Swept(goal, Sweeps(goal, held, n - 1))
  }

  /** A fault-free sync settles the member exactly when no id is asked for both ways. */
  lemma SettlesExactlyWhenPossible(goal: Goal, held: set<RoleId>)
    ensures Queue(goal, Swept(goal, held)) == [] <==> goal.Possible()
  {
    MetIsQuiet(goal, Swept(goal, held));
    var held' := Swept(goal, held);
    assert goal.Possible() ==> goal.Met(held') by {
      forall id ensures id in Additions(goal.desired, goal.roles, held) <==> id in goal.Wanted() - held
                ensures id in Removals(goal.desired, goal.roles, held, goal.revoke) <==> id in goal.Unwanted() * held {
        DiffIsTheDifference(goal.desired, goal.roles, held, goal.revoke, id);
      }
    }
  }

  lemma SharedIdFlips(goal: Goal, held: set<RoleId>, id: RoleId)
    requires id in goal.Wanted() && id in goal.Unwanted()
    ensures id in Swept(goal, held) <==> id !in held
  {
    DiffIsTheDifference(goal.desired, goal.roles, held, goal.revoke, id);
  }

  lemma SweepFlips(goal: Goal, held: set<RoleId>, id: RoleId, n: nat)
    requires id in goal.Wanted() && id in goal.Unwanted()
    ensures id in Sweeps(goal, held, n + 1) <==> id !in Sweeps(goal, held, n)
  {
    SharedIdFlips(goal, Sweeps(goal, held, n), id);
  }

  lemma {:induction false} FlipsAlternate(p: nat -> bool, n: nat)
    requires forall i: nat :: p(i + 1) <==> !p(i)
    ensures p(n) <==> (p(0) <==> n % 2 == 0)
  {
    if n > 0 {
      FlipsAlternate(p, n - 1);
      assert p(n - 1 + 1) <==> !p(n - 1);
    }
  }

  /** An id asked for both ways is given and taken by successive fault-free sweeps, forever. */
  lemma SharedIdAlternates(goal: Goal, held: set<RoleId>, id: RoleId, n: nat)
    requires id in goal.Wanted() && id in goal.Unwanted()
    ensures id in Sweeps(goal, held, n) <==> (id in held <==> n % 2 == 0)
  {
    var p := (i: nat) => id in Sweeps(goal, held, i);
    forall i: nat ensures p(i + 1) <==> !p(i) {
      SweepFlips(goal, held, id, i);
    }
    FlipsAlternate(p, n);
    assert Sweeps(goal, held, 0) == held;
  }

  /** Two names for one id, which the registry's parsing accepts: an exec who is no VP is given the role and
      loses it again on every other sweep. */
  lemma TwoNamesOneId(held: set<RoleId>, n: nat)
    ensures var goal := Goal(Desired(Some(OnlyWith(Executives))), map[Executives := "7", Vp := "7"], false);
            && ("7" in Sweeps(goal, held, n) <==> ("7" in held <==> n % 2 == 0))
            && Queue(goal, Sweeps(goal, held, n)) != []
  {
    var roles := map[Executives := "7", Vp := "7"];
    var goal := Goal(Desired(Some(OnlyWith(Executives))), roles, false);
    OnlyWithWants(Executives);
    assert roles[Executives] in goal.Wanted();
    assert roles[Vp] in goal.Unwanted();
    SharedIdAlternates(goal, held, "7", n);
    MetIsQuiet(goal, Sweeps(goal, held, n));
  }
}
