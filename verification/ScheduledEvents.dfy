/** Keeping a server's Events tab in step with the club's tournaments: what the app says is owed
    (apps/player/src/app/api/discord/tournament-events/route.ts), and the loop that calls Discord first and
    records second (apps/bot/src/scheduled-event-sync.ts). */
module ScheduledEvents {
  import opened Basics

  type SourceId = nat

  type EventId = nat

  type GuildId = nat

  datatype Name = Name(text: string)

  /** A tournament, its dates already turned into instants. */
  datatype Tournament = Tournament(name: Name, starts: int, ends: int, active: bool, suspended: bool)

  /** What was last recorded for a source: the event, and the source's own values. */
  datatype Mapping = Mapping(event: EventId, name: Name, starts: int, ends: int)

  /** An event that was made in Discord. */
  datatype Made = Made(source: SourceId, name: Name, starts: int, ends: int)

  /** One guild. `live` are the events that still exist; `lost` is history, the events whose creation was
      never both answered and recorded. */
  datatype Guild = Guild(mappings: map<SourceId, Mapping>, events: seq<Made>, live: set<EventId>, lost: set<EventId>)

  datatype Kind = Create | Update(event: EventId, patchTimes: bool) | Cancel(event: EventId)

  /** `sendStart` may be clamped past a start already gone; `starts` is what is recorded. */
  datatype Action = Action(kind: Kind, source: SourceId, name: Name, sendStart: int, starts: int, ends: int)

  const CLAMP_SLACK_MS: int := 120_000
  const MAX_MAPPED: nat := 150

  // ----- what the app says is owed -----

  predicate Announceable(t: Tournament) {
    t.active && !t.suspended
  }

  function Clamped(starts: int, now: int): int {
    if starts < now + CLAMP_SLACK_MS then now + CLAMP_SLACK_MS else starts
  }

  predicate Started(t: Tournament, m: Mapping, now: int) {
    t.starts <= now || m.starts <= now
  }

  function CancelFor(source: SourceId, m: Mapping, name: Name): Action {
    Action(Cancel(m.event), source, name, m.starts, m.starts, m.ends)
  }

  /** The action a tournament is owed, given the mapping that was read for it. */
  function ActionFor(source: SourceId, t: Tournament, read: Option<Mapping>, now: int): Option<Action> {
    if !Announceable(t) then
      if read.Some? then Some(CancelFor(source, read.value, t.name)) else None
    else if t.ends <= t.starts || t.ends <= now then None
    else
      match read
      case None => Some(Action(Create, source, t.name, Clamped(t.starts, now), t.starts, t.ends))
      case Some(m) =>
        var renamed, retimed := m.name != t.name, m.starts != t.starts || m.ends != t.ends;
        var started := Started(t, m, now);
        if (!renamed && !retimed) || (started && !renamed) then None
        else Some(Action(Update(m.event, !started), source, t.name, Clamped(t.starts, now), t.starts, t.ends))
  }

  /** A mapped tournament that is no longer there is cancelled. */
  function Owed(source: SourceId, ts: map<SourceId, Tournament>, read: Option<Mapping>, now: int): Option<Action> {
    if source in ts then ActionFor(source, ts[source], read, now)
    else if read.Some? then Some(CancelFor(source, read.value, read.value.name))
    else None
  }

  /** What one reading of the database saw. `read` are the mappings, the newest `MAX_MAPPED` of them. */
  datatype Snapshot = Snapshot(now: int, tournaments: map<SourceId, Tournament>, read: map<SourceId, Mapping>)

  ghost predicate Reads(s: Snapshot, g: Guild) {
    && s.read.Keys <= g.mappings.Keys
    && (forall k: SourceId :: k in s.read ==> s.read[k] == g.mappings[k])
    && |s.read| <= MAX_MAPPED
    && (|g.mappings| <= MAX_MAPPED ==> s.read == g.mappings)
  }

  function ReadOf(s: Snapshot, source: SourceId): Option<Mapping> {
    if source in s.read then Some(s.read[source]) else None
  }

  /** Everything the app looks at: the active tournaments and the mapped sources. */
  function Considered(s: Snapshot): set<SourceId> {
    (set k | k in s.tournaments && s.tournaments[k].active) + s.read.Keys
  }

  /** No mapped event is taken for deleted when the tournaments read as empty. */
  predicate Verified(s: Snapshot) {
    s.read != map[] ==> s.tournaments != map[]
  }

  // ----- one action -----

  datatype CreateAnswer = Accepted | Rejected | NoAnswer(landed: bool)

  datatype CallAnswer = Answered | NotDone(tookEffect: bool)

  /** Writing back what Discord did. */
  datatype Recording = Recorded | NotRecorded(tookEffect: bool)

  /** `byHand` are the events somebody deletes just before this action. */
  datatype Asked = Asked(source: SourceId, byHand: set<EventId>, create: CreateAnswer, call: CallAnswer,
                         recording: Recording)

  datatype Result = Result(created: nat, updated: nat, cancelled: nat, stale: nat, failed: nat, skipped: nat)

  predicate Effective(r: Recording) {
    r.Recorded? || r.tookEffect
  }

  function MappingOf(a: Action, event: EventId): Mapping {
    Mapping(event, a.name, a.starts, a.ends)
  }

  function WrittenBack(g: Guild, a: Action, event: EventId, r: Recording): Guild {
    if Effective(r) then g.(mappings := g.mappings[a.source := MappingOf(a, event)]) else g
  }

  function DoCreate(g: Guild, a: Action, x: Asked): Guild {
    var event := |g.events|;
    var made := g.(events := g.events + [Made(a.source, a.name, a.sendStart, a.ends)], live := g.live + {event});
    match x.create
    case Rejected => g
    case NoAnswer(landed) => if landed then made.(lost := g.lost + {event}) else g
    case Accepted =>
      if Effective(x.recording) then WrittenBack(made, a, event, x.recording)
      else made.(lost := g.lost + {event})
  }

  function Patched(e: Made, a: Action, patchTimes: bool): Made {
    if patchTimes then e.(name := a.name, starts := a.sendStart, ends := a.ends) else e.(name := a.name)
  }

  /** An event that is gone cannot be patched; a failed call may have landed. */
  function DoUpdate(g: Guild, a: Action, event: EventId, patchTimes: bool, x: Asked): Guild {
    var lands := event in g.live && event < |g.events| && (x.call.Answered? || x.call.tookEffect);
    var patched := if lands then g.(events := g.events[event := Patched(g.events[event], a, patchTimes)]) else g;
    if x.call.Answered? then WrittenBack(patched, a, event, x.recording) else patched
  }

  function DoCancel(g: Guild, a: Action, event: EventId, x: Asked): Guild {
    match x.call
    case NotDone(tookEffect) => if tookEffect then g.(live := g.live - {event}) else g
    case Answered =>
      var deleted := g.(live := g.live - {event});
      if Effective(x.recording) then deleted.(mappings := g.mappings - {a.source}) else deleted
  }

  function Do(before: Guild, a: Action, x: Asked): Guild {
    var g := before.(live := before.live - x.byHand);
    match a.kind
    case Create => DoCreate(g, a, x)
    case Update(event, patchTimes) => DoUpdate(g, a, event, patchTimes, x)
    case Cancel(event) => DoCancel(g, a, event, x)
  }

  function Counted(before: Guild, a: Action, x: Asked, r: Result): Result {
    match a.kind
    case Create => if x.create.Accepted? then r.(created := r.created + 1) else r.(failed := r.failed + 1)
    case Update(event, _) =>
      if x.call.NotDone? then r.(failed := r.failed + 1)
      else if event in before.live - x.byHand then r.(updated := r.updated + 1)
      else r.(stale := r.stale + 1)
    case Cancel(_) => if x.call.Answered? then r.(cancelled := r.cancelled + 1) else r.(failed := r.failed + 1)
  }

  // ----- one guild -----

  datatype Preflight = Allowed | Missing | Unchecked

  /** What a guild's turn meets. `asked` lists the considered sources, in the app's order, with what Discord
      and the database will answer for each. */
  datatype Turn =
    | ReadFailed
    | Turn(snapshot: Snapshot, disabled: bool, preflight: Preflight, asked: seq<Asked>)

  function Due(s: Snapshot, x: Asked): Option<Action> {
    Owed(x.source, s.tournaments, ReadOf(s, x.source), s.now)
  }

  /** The actions owed, each with its answers. */
  function Actions(s: Snapshot, asked: seq<Asked>): seq<(Action, Asked)> {
    if asked == [] then []
    else
      var last := asked[|asked| - 1];
      Actions(s, asked[..|asked| - 1]) + if Due(s, last).Some? then [(Due(s, last).value, last)] else []
  }

  function DoAll(g: Guild, actions: seq<(Action, Asked)>): Guild {
    if actions == [] then g
    else
      var last := actions[|actions| - 1];
      Do(DoAll(g, actions[..|actions| - 1]), last.0, last.1)
  }

  function CountAll(g: Guild, actions: seq<(Action, Asked)>, r: Result): Result {
    if actions == [] then r
    else
      var before, last := actions[..|actions| - 1], actions[|actions| - 1];
      Counted(DoAll(g, before), last.0, last.1, CountAll(g, before, r))
  }

  /** The reading fails on an error, and on tournaments that cannot be told from an emptied table. */
  predicate Readable(t: Turn) {
    t.Turn? && (t.disabled || Verified(t.snapshot))
  }

  function OwedIn(t: Turn): seq<(Action, Asked)> {
    if !Readable(t) || t.disabled then [] else Actions(t.snapshot, t.asked)
  }

  function GuildAfter(g: Guild, t: Turn): Guild {
    if OwedIn(t) == [] || t.preflight == Missing then g else DoAll(g, OwedIn(t))
  }

  /** `skips` is how many sources the app reported as skipped. */
  function ResultAfter(g: Guild, t: Turn, skips: nat, r: Result): Result {
    if !Readable(t) then r.(failed := r.failed + 1)
    else
      var r1 := r.(skipped := r.skipped + skips);
      if OwedIn(t) == [] then r1
      else if t.preflight == Missing then r1.(failed := r1.failed + |OwedIn(t)|)
      else CountAll(g, OwedIn(t), r1)
  }

  // ----- the run -----

  /** One registered guild's part in a run. */
  datatype Visit = Visit(guild: GuildId, turn: Turn, skips: nat)

  type Guilds = map<GuildId, Guild>

  function NoGuild(): Guild {
    Guild(map[], [], {}, {})
  }

  function GuildOf(gs: Guilds, id: GuildId): Guild {
    if id in gs then gs[id] else NoGuild()
  }

  function VisitGuilds(gs: Guilds, v: Visit): Guilds {
    gs[v.guild := GuildAfter(GuildOf(gs, v.guild), v.turn)]
  }

  function RunGuilds(gs: Guilds, visits: seq<Visit>): Guilds {
    if visits == [] then gs else VisitGuilds(RunGuilds(gs, visits[..|visits| - 1]), visits[|visits| - 1])
  }

  function RunResult(gs: Guilds, visits: seq<Visit>): Result {
    if visits == [] then Result(0, 0, 0, 0, 0, 0)
    else
      var before, last := visits[..|visits| - 1], visits[|visits| - 1];
      ResultAfter(GuildOf(RunGuilds(gs, before), last.guild), last.turn, last.skips, RunResult(gs, before))
  }

  class Calendar {
    var guilds: Guilds

    constructor (guilds: Guilds)
      ensures this.guilds == guilds
    {
      this.guilds := guilds;
    }

    method FetchActions(s: Snapshot, asked: seq<Asked>) returns (actions: seq<(Action, Asked)>)
      ensures actions == Actions(s, asked)
    {
      actions := [];
      for i := 0 to |asked|
        invariant actions == Actions(s, asked[..i])
      {
        assert asked[..i + 1][..i] == asked[..i];
        var due := Due(s, asked[i]);
        if due.Some? {
          actions := actions + [(due.value, asked[i])];
        }
      }
      assert asked[..|asked|] == asked;
    }

    /** The body of the loop over one guild's actions. */
    method RunAction(before: Guild, a: Action, x: Asked, r: Result) returns (g: Guild, result: Result)
      ensures g == Do(before, a, x) && result == Counted(before, a, x, r)
    {
      g, result := before.(live := before.live - x.byHand), r;
      if a.kind.Cancel? {
        g := DoCancel(g, a, a.kind.event, x);
        if x.call.NotDone? {
          result := result.(failed := result.failed + 1);
        } else {
          result := result.(cancelled := result.cancelled + 1);
        }
        return;
      }
      var stale := false;
      if a.kind.Create? {
        g := DoCreate(g, a, x);
        if !x.create.Accepted? {
          result := result.(failed := result.failed + 1);
          return;
        }
      } else {
        stale := a.kind.event !in g.live;
        g := DoUpdate(g, a, a.kind.event, a.kind.patchTimes, x);
        if x.call.NotDone? {
          result := result.(failed := result.failed + 1);
          return;
        }
      }
      if a.kind.Create? {
        result := result.(created := result.created + 1);
      } else if stale {
        result := result.(stale := result.stale + 1);
      } else {
        result := result.(updated := result.updated + 1);
      }
    }

    method RunGuild(before: Guild, t: Turn, skips: nat, r: Result) returns (g: Guild, result: Result)
      ensures g == GuildAfter(before, t) && result == ResultAfter(before, t, skips, r)
    {
      g, result := before, r;
      if !Readable(t) {
        result := result.(failed := result.failed + 1);
        return;
      }
      var actions := [];
      if !t.disabled {
        actions := FetchActions(t.snapshot, t.asked);
      }
      result := result.(skipped := result.skipped + skips);
      if actions == [] {
        return;
      }
      if t.preflight == Missing {
        result := result.(failed := result.failed + |actions|);
        return;
      }
      ghost var counted := result;
      for i := 0 to |actions|
        invariant g == DoAll(before, actions[..i]) && result == CountAll(before, actions[..i], counted)
      {
        assert actions[..i + 1][..i] == actions[..i];
        g, result := RunAction(g, actions[i].0, actions[i].1, result);
      }
      assert actions[..|actions|] == actions;
    }

    method RunScheduledEventSync(visits: seq<Visit>) returns (result: Result)
      modifies this
      ensures guilds == RunGuilds(old(guilds), visits) && result == RunResult(old(guilds), visits)
    {
      result := Result(0, 0, 0, 0, 0, 0);
      for i := 0 to |visits|
        invariant guilds == RunGuilds(old(guilds), visits[..i]) && result == RunResult(old(guilds), visits[..i])
      {
        assert visits[..i + 1][..i] == visits[..i];
        var g;
        g, result := RunGuild(GuildOf(guilds, visits[i].guild), visits[i].turn, visits[i].skips, result);
        guilds := guilds[visits[i].guild := g];
      }
      assert visits[..|visits|] == visits;
    }
  }
}
