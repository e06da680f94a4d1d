/** What the Events tab can come to hold, over every run of syncs, faults and deletions by hand. */
module ScheduledEventProofs {
  import opened Basics
  import opened ScheduledEvents

  datatype Event = Sync(turn: Turn) | DeletedByHand(events: set<EventId>)

  function Step(g: Guild, e: Event): Guild {
    match e
    case Sync(turn) => GuildAfter(g, turn)
    case DeletedByHand(events) => g.(live := g.live - events)
  }

  function Run(events: seq<Event>): Guild {
    if events == [] then NoGuild() else Step(Run(events[..|events| - 1]), events[|events| - 1])
  }

  function Sources(asked: seq<Asked>): set<SourceId> {
    if asked == [] then {} else Sources(asked[..|asked| - 1]) + {asked[|asked| - 1].source}
  }

  ghost predicate Distinct(asked: seq<Asked>) {
    asked != [] ==>
      Distinct(asked[..|asked| - 1]) && asked[|asked| - 1].source !in Sources(asked[..|asked| - 1])
  }

  /** The app read this guild, and listed each source it considers once. */
  ghost predicate Fits(t: Turn, g: Guild) {
    t.Turn? ==> Reads(t.snapshot, g) && Distinct(t.asked) && Sources(t.asked) == Considered(t.snapshot)
  }

  /** A run of syncs, each on what the app read of the guild then. */
  ghost predicate Lawful(events: seq<Event>) {
    events != [] ==>
      var before, last := events[..|events| - 1], events[|events| - 1];
      Lawful(before) && (last.Sync? ==> Fits(last.turn, Run(before)))
  }

  // ----- one action -----

  function MappingAt(g: Guild, k: SourceId): Option<Mapping> {
    if k in g.mappings then Some(g.mappings[k]) else None
  }

  /** What is live and what is mapped was made here. */
  ghost predicate Below(g: Guild) {
    && (forall e: EventId :: e in g.live ==> e < |g.events|)
    && (forall k: SourceId :: k in g.mappings ==> g.mappings[k].event < |g.events|)
  }

  /** Nothing that was deleted comes back, no event changes its source, and no loss is forgotten. */
  ghost predicate Onward(g: Guild, h: Guild) {
    && |g.events| <= |h.events| && g.lost <= h.lost
    && (forall e: EventId :: e < |g.events| ==> h.events[e].source == g.events[e].source)
    && (forall e: EventId :: e in h.live && e < |g.events| ==> e in g.live)
  }

  function LiveOf(g: Guild, k: SourceId): set<EventId> {
    set e | e in g.live && e < |g.events| && g.events[e].source == k
  }

  function LostOf(g: Guild, k: SourceId): set<EventId> {
    set e | e in g.lost && e < |g.events| && g.events[e].source == k
  }

  function MappedOf(g: Guild, k: SourceId): set<EventId> {
    if k in g.mappings then {g.mappings[k].event} else {}
  }

  /** A source's live events that neither its mapping nor a lost creation accounts for. */
  function StrayOf(g: Guild, k: SourceId): set<EventId> {
    LiveOf(g, k) - g.lost - MappedOf(g, k)
  }

  /** An update or a cancellation names what its source's mapping names now. */
  ghost predicate Faithful(g: Guild, a: Action) {
    a.kind.Create? || (a.source in g.mappings && g.mappings[a.source].event == a.kind.event)
  }

  /** A creation that ends up on record. */
  predicate Recreates(a: Action, x: Asked) {
    a.kind.Create? && x.create.Accepted? && Effective(x.recording)
  }

  /** What a change of the guild can do to a source: a mapping whose event still exists is not cleared, it
      points elsewhere exactly when it was `overwritten`, and only then is a live event newly left behind. */
  ghost predicate Came(g: Guild, h: Guild, k: SourceId, overwritten: bool) {
    && Below(h) && Onward(g, h)
    && (k in g.mappings ==>
        && (g.mappings[k].event in h.live ==> k in h.mappings)
        && (overwritten <==> k in h.mappings && h.mappings[k].event != g.mappings[k].event))
    && StrayOf(h, k) <= StrayOf(g, k) + if overwritten then MappedOf(g, k) else {}
  }

  lemma CreateCame(g: Guild, a: Action, x: Asked)
    requires Below(g)
    ensures Came(g, DoCreate(g, a, x), a.source, x.create.Accepted? && Effective(x.recording))
  {
  }

  lemma UpdateCame(g: Guild, a: Action, event: EventId, patchTimes: bool, x: Asked)
    requires Below(g) && a.source in g.mappings && g.mappings[a.source].event == event
    ensures Came(g, DoUpdate(g, a, event, patchTimes, x), a.source, false)
  {
  }

  lemma CancelCame(g: Guild, a: Action, event: EventId, x: Asked)
    requires Below(g) && a.source in g.mappings && g.mappings[a.source].event == event
    ensures Came(g, DoCancel(g, a, event, x), a.source, false)
  {
  }

  lemma DeletionCame(g: Guild, gone: set<EventId>, k: SourceId)
    requires Below(g)
    ensures Came(g, g.(live := g.live - gone), k, false)
  {
  }

  /** Nothing happened to the mapping in the first part. */
  lemma CameAfter(g: Guild, h: Guild, f: Guild, k: SourceId, overwritten: bool)
    requires Below(g) && Came(g, h, k, false) && MappingAt(h, k) == MappingAt(g, k) && Came(h, f, k, overwritten)
    ensures Came(g, f, k, overwritten)
  {
  }

  /** Nothing happened to it in the second. */
  lemma CameBefore(g: Guild, h: Guild, f: Guild, k: SourceId, overwritten: bool)
    requires Below(g) && Came(g, h, k, overwritten) && MappingAt(f, k) == MappingAt(h, k) && Came(h, f, k, false)
    ensures Came(g, f, k, overwritten)
  {
  }

  lemma OwnCame(g: Guild, a: Action, x: Asked)
    requires Below(g) && Faithful(g, a)
    ensures Came(g, Do(g, a, x), a.source, Recreates(a, x))
  {
    var h := g.(live := g.live - x.byHand);
    DeletionCame(g, x.byHand, a.source);
    match a.kind
    case Create => CreateCame(h, a, x);
    case Update(event, patchTimes) => UpdateCame(h, a, event, patchTimes, x);
    case Cancel(event) => CancelCame(h, a, event, x);
    CameAfter(g, h, Do(g, a, x), a.source, Recreates(a, x));
  }

  lemma OtherCame(g: Guild, a: Action, x: Asked, k: SourceId)
    requires Below(g) && Faithful(g, a) && k != a.source
    ensures Came(g, Do(g, a, x), k, false)
  {
    OwnCame(g, a, x);
    DoTouchesOwn(g, a, x, k);
    OthersMakeNothing(g, a, x, k);
  }

  lemma DoTouchesOwn(g: Guild, a: Action, x: Asked, k: SourceId)
    requires k != a.source
    ensures MappingAt(Do(g, a, x), k) == MappingAt(g, k)
  {
  }

  lemma OthersMakeNothing(g: Guild, a: Action, x: Asked, k: SourceId)
    requires Below(g) && k != a.source
    ensures LiveOf(Do(g, a, x), k) <= LiveOf(g, k)
  {
  }

  // ----- a whole turn -----

  function DoAsked(g: Guild, s: Snapshot, asked: seq<Asked>): Guild {
    DoAll(g, Actions(s, asked))
  }

  lemma DoAskedStep(g: Guild, s: Snapshot, before: seq<Asked>, x: Asked)
    ensures
      var h := DoAsked(g, s, before);
      DoAsked(g, s, before + [x]) == if Due(s, x).Some? then Do(h, Due(s, x).value, x) else h
  {
    assert (before + [x])[..|before|] == before;
    var actions := Actions(s, before);
    assert Actions(s, before + [x]) == actions + if Due(s, x).Some? then [(Due(s, x).value, x)] else [];
    if Due(s, x).Some? {
      assert (actions + [(Due(s, x).value, x)])[..|actions|] == actions;
    } else {
      assert actions + [] == actions;
    }
  }

  lemma {:induction false} OthersAreUntouched(g: Guild, s: Snapshot, asked: seq<Asked>, k: SourceId)
    requires k !in Sources(asked)
    ensures MappingAt(DoAsked(g, s, asked), k) == MappingAt(g, k)
  {
    if asked != [] {
      var before, x := asked[..|asked| - 1], asked[|asked| - 1];
      OthersAreUntouched(g, s, before, k);
      assert asked == before + [x];
      OneMoreIsOther(g, s, before, x, k);
    }
  }

  lemma DueNamesItsSource(s: Snapshot, x: Asked)
    requires Due(s, x).Some?
    ensures Due(s, x).value.source == x.source
  {
  }

  lemma OneMoreIsOther(g: Guild, s: Snapshot, before: seq<Asked>, x: Asked, k: SourceId)
    requires k != x.source
    ensures MappingAt(DoAsked(g, s, before + [x]), k) == MappingAt(DoAsked(g, s, before), k)
  {
    DoAskedStep(g, s, before, x);
    var due := Due(s, x);
    if due.Some? {
      DueNamesItsSource(s, x);
      DoTouchesOwn(DoAsked(g, s, before), due.value, x, k);
    }
  }

  function AskedFor(asked: seq<Asked>, k: SourceId): Option<Asked> {
    if asked == [] then None
    else
      var x := asked[|asked| - 1];
      if x.source == k then Some(x) else AskedFor(asked[..|asked| - 1], k)
  }

  lemma {:induction false} AskedForIsListed(asked: seq<Asked>, k: SourceId)
    ensures AskedFor(asked, k).Some? <==> k in Sources(asked)
    ensures AskedFor(asked, k).Some? ==> AskedFor(asked, k).value.source == k && AskedFor(asked, k).value in asked
  {
    if asked != [] {
      AskedForIsListed(asked[..|asked| - 1], k);
    }
  }

  /** What was read agrees with the guild's mappings. */
  ghost predicate Agrees(s: Snapshot, g: Guild) {
    forall k: SourceId :: k in s.read ==> MappingAt(g, k) == Some(s.read[k])
  }

  /** A source whose mapping was not read is owed something, which can only be a creation, and it takes. */
  predicate Overwrites(s: Snapshot, asked: seq<Asked>, k: SourceId) {
    var x := AskedFor(asked, k);
    && k !in s.read && x.Some? && Due(s, x.value).Some?
    && x.value.create.Accepted? && Effective(x.value.recording)
  }

  lemma DueIsFaithful(g: Guild, s: Snapshot, x: Asked)
    requires Due(s, x).Some? && (x.source in s.read ==> MappingAt(g, x.source) == Some(s.read[x.source]))
    ensures Faithful(g, Due(s, x).value) && Due(s, x).value.source == x.source
    ensures Due(s, x).value.kind.Create? <==> x.source !in s.read
  {
  }

  lemma NothingCame(g: Guild, k: SourceId)
    requires Below(g)
    ensures Came(g, g, k, false)
  {
  }

  lemma OverwritesStep(s: Snapshot, before: seq<Asked>, x: Asked, k: SourceId)
    requires x.source !in Sources(before)
    ensures Overwrites(s, before + [x], k) ==
      if x.source == k then Due(s, x).Some? && k !in s.read && x.create.Accepted? && Effective(x.recording)
      else Overwrites(s, before, k)
    ensures x.source == k ==> !Overwrites(s, before, k)
  {
    assert (before + [x])[..|before|] == before;
    AskedForIsListed(before, k);
  }

  lemma {:induction false} AskedCame(g: Guild, s: Snapshot, asked: seq<Asked>, k: SourceId)
    requires Below(g) && Agrees(s, g) && Distinct(asked)
    ensures Came(g, DoAsked(g, s, asked), k, Overwrites(s, asked, k))
  {
    if asked == [] {
      NothingCame(g, k);
    } else {
      var before, x := asked[..|asked| - 1], asked[|asked| - 1];
      AskedCame(g, s, before, k);
      assert asked == before + [x];
      OneMoreCame(g, s, before, x, k);
    }
  }

  lemma OneMoreCame(g: Guild, s: Snapshot, before: seq<Asked>, x: Asked, k: SourceId)
    requires Below(g) && Agrees(s, g) && x.source !in Sources(before)
    requires Came(g, DoAsked(g, s, before), k, Overwrites(s, before, k))
    ensures Came(g, DoAsked(g, s, before + [x]), k, Overwrites(s, before + [x], k))
  {
    OthersAreUntouched(g, s, before, x.source);
    DoAskedStep(g, s, before, x);
    OverwritesStep(s, before, x, k);
    var h := DoAsked(g, s, before);
    if Due(s, x).Some? {
      LastCame(g, h, s, x, k, Overwrites(s, before, k));
    } else {
      assert DoAsked(g, s, before + [x]) == h;
      assert Overwrites(s, before + [x], k) == Overwrites(s, before, k);
    }
  }

  lemma LastCame(g: Guild, h: Guild, s: Snapshot, x: Asked, k: SourceId, overwritten: bool)
    requires Below(g) && Agrees(s, g) && Came(g, h, k, overwritten) && MappingAt(h, x.source) == MappingAt(g, x.source)
    requires Due(s, x).Some? && (x.source == k ==> !overwritten)
    ensures
      var a := Due(s, x).value;
      Came(g, Do(h, a, x), k, if x.source == k then Recreates(a, x) else overwritten)
  {
    var a := Due(s, x).value;
    DueIsFaithful(h, s, x);
    if x.source == k {
      OwnCame(h, a, x);
      CameAfter(g, h, Do(h, a, x), k, Recreates(a, x));
    } else {
      OtherCame(h, a, x, k);
      DoTouchesOwn(h, a, x, k);
      CameBefore(g, h, Do(h, a, x), k, overwritten);
    }
  }

  /** A turn that acts, with an overwriting creation for a source that is mapped. */
  predicate Redirects(g: Guild, e: Event, k: SourceId) {
    && e.Sync? && e.turn.Turn? && OwedIn(e.turn) != [] && e.turn.preflight != Missing
    && k in g.mappings && Overwrites(e.turn.snapshot, e.turn.asked, k)
  }

  lemma StepCame(g: Guild, e: Event, k: SourceId)
    requires Below(g) && (e.Sync? ==> Fits(e.turn, g))
    ensures Came(g, Step(g, e), k, Redirects(g, e, k))
  {
    match e
    case DeletedByHand(gone) => DeletionCame(g, gone, k);
    case Sync(t) =>
      NothingCame(g, k);
      if OwedIn(t) != [] && t.preflight != Missing {
        AskedCame(g, t.snapshot, t.asked, k);
      }
  }

  lemma {:induction false} RunIsBelow(events: seq<Event>)
    requires Lawful(events)
    ensures Below(Run(events))
  {
    if events != [] {
      RunIsBelow(events[..|events| - 1]);
      StepCame(Run(events[..|events| - 1]), events[|events| - 1], 0);
    }
  }

  // ----- what the club is promised -----

  /** The mapping of an event that still exists is never cleared; and a mapping is pointed elsewhere exactly
      by a turn in which its source was not read, is owed a creation, and the creation takes and is recorded. */
  lemma LiveEventsStayMapped(events: seq<Event>, e: Event, k: SourceId)
    requires Lawful(events + [e]) && k in Run(events).mappings
    ensures
      var before, after := Run(events), Run(events + [e]);
      && (before.mappings[k].event in after.live ==> k in after.mappings)
      && (k in after.mappings && after.mappings[k].event != before.mappings[k].event <==> Redirects(before, e, k))
  {
    assert (events + [e])[..|events|] == events;
    RunIsBelow(events);
    StepCame(Run(events), e, k);
  }

  /** How often a run points a source's mapping elsewhere. */
  function Redirections(events: seq<Event>, k: SourceId): nat {
    if events == [] then 0
    else
      var before := events[..|events| - 1];
      Redirections(before, k) + if Redirects(Run(before), events[|events| - 1], k) then 1 else 0
  }

  lemma {:induction false} StraysAreRedirections(events: seq<Event>, k: SourceId)
    requires Lawful(events)
    ensures |StrayOf(Run(events), k)| <= Redirections(events, k)
  {
    if events != [] {
      var before, e := events[..|events| - 1], events[|events| - 1];
      var g := Run(before);
      StraysAreRedirections(before, k);
      RunIsBelow(before);
      StepCame(g, e, k);
      SubsetSize(StrayOf(Run(events), k), StrayOf(g, k) + if Redirects(g, e, k) then MappedOf(g, k) else {});
    }
  }

  /** A source has at most one live event more than the creations whose answer or recording was lost and the
      times its mapping was pointed elsewhere, whatever the number of mappings. */
  lemma LiveEventsAreFaults(events: seq<Event>, k: SourceId)
    requires Lawful(events)
    ensures |LiveOf(Run(events), k)| <= 1 + |LostOf(Run(events), k)| + Redirections(events, k)
  {
    var g := Run(events);
    StraysAreRedirections(events, k);
    SubsetSize(LiveOf(g, k), StrayOf(g, k) + LostOf(g, k) + MappedOf(g, k));
  }

  /** At most 150 mappings whenever a sync starts. */
  ghost predicate Uncut(events: seq<Event>) {
    events != [] ==>
      var before, last := events[..|events| - 1], events[|events| - 1];
      Uncut(before) && (last.Sync? ==> |Run(before).mappings| <= 150)
  }

  /** Then nothing is ever pointed elsewhere. */
  lemma {:induction false} UncutIsNotRedirected(events: seq<Event>, k: SourceId)
    requires Lawful(events) && Uncut(events)
    ensures Redirections(events, k) == 0
  {
    if events != [] {
      UncutIsNotRedirected(events[..|events| - 1], k);
    }
  }

  // ----- the totals -----

  function Total(r: Result): nat {
    r.created + r.updated + r.cancelled + r.stale + r.failed
  }

  lemma {:induction false} CountAllIsComplete(g: Guild, actions: seq<(Action, Asked)>, r: Result)
    ensures Total(CountAll(g, actions, r)) == Total(r) + |actions|
    ensures CountAll(g, actions, r).skipped == r.skipped
  {
    if actions != [] {
      CountAllIsComplete(g, actions[..|actions| - 1], r);
    }
  }

  /** What a visit adds: one for a reading that failed, and otherwise one for every action. */
  function Work(v: Visit): nat {
    if !Readable(v.turn) then 1 else |OwedIn(v.turn)|
  }

  function AllWork(visits: seq<Visit>): nat {
    if visits == [] then 0 else AllWork(visits[..|visits| - 1]) + Work(visits[|visits| - 1])
  }

  lemma VisitIsCounted(g: Guild, v: Visit, r: Result)
    ensures Total(ResultAfter(g, v.turn, v.skips, r)) == Total(r) + Work(v)
    ensures ResultAfter(g, v.turn, v.skips, r).skipped == r.skipped + if Readable(v.turn) then v.skips else 0
  {
    CountAllIsComplete(g, OwedIn(v.turn), r.(skipped := r.skipped + v.skips));
  }

  /** Every action of every guild is counted once, and so is every guild that could not be read. */
  lemma {:induction false} EveryActionIsCounted(gs: Guilds, visits: seq<Visit>)
    ensures Total(RunResult(gs, visits)) == AllWork(visits)
  {
    if visits != [] {
      var before, v := visits[..|visits| - 1], visits[|visits| - 1];
      EveryActionIsCounted(gs, before);
      VisitIsCounted(GuildOf(RunGuilds(gs, before), v.guild), v, RunResult(gs, before));
    }
  }

  function Number(actions: seq<(Action, Asked)>, f: (Action, Asked) -> bool): nat {
    if actions == [] then 0
    else
      var last := actions[|actions| - 1];
      Number(actions[..|actions| - 1], f) + if f(last.0, last.1) then 1 else 0
  }

  /** The updates Discord took, by whether the event was still there when its turn came. */
  function Updates(g: Guild, actions: seq<(Action, Asked)>, there: bool): nat {
    if actions == [] then 0
    else
      var before, last := actions[..|actions| - 1], actions[|actions| - 1];
      Updates(g, before, there)
      + if last.0.kind.Update? && last.1.call.Answered?
           && there == (last.0.kind.event in DoAll(g, before).live && last.0.kind.event !in last.1.byHand) then 1 else 0
  }

  /** Which counter each action goes to. */
  lemma {:induction false} CountersAreExact(g: Guild, actions: seq<(Action, Asked)>, r: Result)
    ensures
      var after := CountAll(g, actions, r);
      && after.created == r.created + Number(actions, (a: Action, x: Asked) => a.kind.Create? && x.create.Accepted?)
      && after.cancelled == r.cancelled + Number(actions, (a: Action, x: Asked) => a.kind.Cancel? && x.call.Answered?)
      && after.failed == r.failed
           + Number(actions, (a: Action, x: Asked) => if a.kind.Create? then !x.create.Accepted? else x.call.NotDone?)
      && after.updated == r.updated + Updates(g, actions, true)
      && after.stale == r.stale + Updates(g, actions, false)
  {
    if actions != [] {
      CountersAreExact(g, actions[..|actions| - 1], r);
    }
  }

  /** The turns of one guild, one after another. */
  function Turns(g: Guild, visits: seq<Visit>, id: GuildId): Guild {
    if visits == [] then g
    else
      var before, last := Turns(g, visits[..|visits| - 1], id), visits[|visits| - 1];
      if last.guild == id then GuildAfter(before, last.turn) else before
  }

  /** A run over the guilds does to each what its own turns do, in order. */
  lemma {:induction false} GuildsAreApart(gs: Guilds, visits: seq<Visit>, id: GuildId)
    ensures GuildOf(RunGuilds(gs, visits), id) == Turns(GuildOf(gs, id), visits, id)
  {
    if visits != [] {
      GuildsAreApart(gs, visits[..|visits| - 1], id);
    }
  }

  // ----- a run without faults -----

  ghost predicate Faultless(x: Asked) {
    x.create.Accepted? && x.call.Answered? && x.recording.Recorded?
  }

  ghost predicate AllFaultless(asked: seq<Asked>) {
    forall i :: 0 <= i < |asked| ==> Faultless(asked[i])
  }

  /** What a faultless turn makes of a source's mapping `m0`. */
  ghost predicate Leaves(due: Option<Action>, m0: Option<Mapping>, m: Option<Mapping>) {
    if due.None? then m == m0
    else if due.value.kind.Cancel? then m == None
    else m.Some? && m.value == MappingOf(due.value, m.value.event)
  }

  lemma FaultlessLeaves(g: Guild, s: Snapshot, x: Asked, m0: Option<Mapping>)
    requires Faultless(x) && MappingAt(g, x.source) == m0
    ensures Leaves(Due(s, x), m0, MappingAt(if Due(s, x).Some? then Do(g, Due(s, x).value, x) else g, x.source))
  {
  }

  lemma {:induction false} AskedLeaves(g: Guild, s: Snapshot, asked: seq<Asked>, k: SourceId)
    requires Distinct(asked) && AllFaultless(asked) && k in Sources(asked)
    ensures Leaves(Owed(k, s.tournaments, ReadOf(s, k), s.now), MappingAt(g, k), MappingAt(DoAsked(g, s, asked), k))
  {
    var before, x := asked[..|asked| - 1], asked[|asked| - 1];
    assert asked == before + [x];
    DoAskedStep(g, s, before, x);
    if k == x.source {
      OwnLeaves(g, s, before, x);
    } else {
      assert AllFaultless(before) by {
        assert forall i :: 0 <= i < |before| ==> before[i] == asked[i];
      }
      AskedLeaves(g, s, before, k);
      if Due(s, x).Some? {
        DoTouchesOwn(DoAsked(g, s, before), Due(s, x).value, x, k);
      }
    }
  }

  lemma OwnLeaves(g: Guild, s: Snapshot, before: seq<Asked>, x: Asked)
    requires Faultless(x) && x.source !in Sources(before)
    ensures Leaves(Due(s, x), MappingAt(g, x.source), MappingAt(DoAsked(g, s, before + [x]), x.source))
  {
    OthersAreUntouched(g, s, before, x.source);
    DoAskedStep(g, s, before, x);
    FaultlessLeaves(DoAsked(g, s, before), s, x, MappingAt(g, x.source));
  }

  predicate Announced(ts: map<SourceId, Tournament>, k: SourceId) {
    k in ts && Announceable(ts[k])
  }

  /** An announced tournament that is not over. */
  predicate Wanted(ts: map<SourceId, Tournament>, k: SourceId, now: int) {
    Announced(ts, k) && ts[k].starts < ts[k].ends && now < ts[k].ends
  }

  /** A turn that acts on what it read, with every answer ok. */
  ghost predicate Clean(g: Guild, t: Turn) {
    && t.Turn? && Readable(t) && !t.disabled && t.preflight != Missing
    && Fits(t, g) && AllFaultless(t.asked)
  }

  /** What a clean turn leaves of a source, considered or not. */
  lemma CleanLeaves(g: Guild, t: Turn, k: SourceId)
    requires Clean(g, t)
    ensures
      var s := t.snapshot;
      Leaves(if k in Considered(s) then Owed(k, s.tournaments, ReadOf(s, k), s.now) else None,
             MappingAt(g, k), MappingAt(GuildAfter(g, t), k))
  {
    assert GuildAfter(g, t) == DoAsked(g, t.snapshot, t.asked);
    if k in Considered(t.snapshot) {
      AskedLeaves(g, t.snapshot, t.asked, k);
    } else {
      OthersAreUntouched(g, t.snapshot, t.asked, k);
    }
  }

  /** On values: `m0` was mapped, `read` was read, `m` is mapped after a clean turn at `now`. */
  lemma MappedOwesNothing(k: SourceId, ts: map<SourceId, Tournament>, m0: Option<Mapping>, read: Option<Mapping>,
                          m: Option<Mapping>, now: int, later: int)
    requires (read.Some? ==> read == m0) && now <= later && m.Some?
    requires Leaves(if read.Some? || (k in ts && ts[k].active) then Owed(k, ts, read, now) else None, m0, m)
    ensures Owed(k, ts, m, later) == None <==> read.Some? || Announced(ts, k)
  {
  }

  /** After a turn in which nothing failed, a later reading of the same tournaments owes a source nothing
      exactly when its mapping, if read, was read before too or is of an announced tournament, and when none
      is read, its tournament is not wanted. Clamped starts, started events and events deleted by hand owe
      nothing; only a mapping left out of a reading does. */
  lemma LaterReadingOwes(g: Guild, t: Turn, later: Snapshot, k: SourceId)
    requires Clean(g, t) && Reads(later, GuildAfter(g, t))
    requires later.tournaments == t.snapshot.tournaments && t.snapshot.now <= later.now
    ensures Owed(k, later.tournaments, ReadOf(later, k), later.now) == None <==>
      if k in later.read then k in t.snapshot.read || Announced(later.tournaments, k)
      else !Wanted(later.tournaments, k, later.now)
  {
    if k in later.read {
      CleanLeaves(g, t, k);
      MappedOwesNothing(k, later.tournaments, MappingAt(g, k), ReadOf(t.snapshot, k), MappingAt(GuildAfter(g, t), k),
                        t.snapshot.now, later.now);
    }
  }

  /** With no more mappings than are read, neither before nor after, that is nothing at all. */
  lemma FaultlessSyncSettles(g: Guild, t: Turn, later: Snapshot, asked: seq<Asked>)
    requires Clean(g, t) && Reads(later, GuildAfter(g, t))
    requires |g.mappings| <= 150 && |GuildAfter(g, t).mappings| <= 150
    requires later.tournaments == t.snapshot.tournaments && t.snapshot.now <= later.now
    ensures Actions(later, asked) == []
  {
    forall k: SourceId ensures Owed(k, later.tournaments, ReadOf(later, k), later.now) == None {
      CleanLeaves(g, t, k);
      LaterReadingOwes(g, t, later, k);
    }
    NothingOwed(later, asked);
  }

  lemma {:induction false} NothingOwed(s: Snapshot, asked: seq<Asked>)
    requires forall k: SourceId :: Owed(k, s.tournaments, ReadOf(s, k), s.now) == None
    ensures Actions(s, asked) == []
  {
    if asked != [] {
      NothingOwed(s, asked[..|asked| - 1]);
    }
  }
}
