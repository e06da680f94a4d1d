/** What the Events tab shows: of every source, what was last sent and what is on record, told from the
    tournaments that were read. */
module ScheduledEventDisplay {
  import opened Basics
  import opened ScheduledEvents
  import opened ScheduledEventProofs

  /** What a source's event shows, and the times its mapping records. */
  datatype Show = Show(name: Name, starts: int, ends: int, recordedStarts: int, recordedEnds: int)

  /** The turn gets as far as calling Discord. */
  predicate Acts(t: Turn) {
    && t.Turn? && !t.disabled && t.preflight != Missing
    && (t.snapshot.read != map[] ==> t.snapshot.tournaments != map[])
  }

  predicate Cancelled(s: Snapshot, k: SourceId) {
    k in s.read && !(k in s.tournaments && s.tournaments[k].active && !s.tournaments[k].suspended)
  }

  /** An active tournament that makes sense and is not over. */
  predicate Current(s: Snapshot, k: SourceId) {
    && k in s.tournaments && s.tournaments[k].active && !s.tournaments[k].suspended
    && s.tournaments[k].starts < s.tournaments[k].ends && s.now < s.tournaments[k].ends
  }

  /** Its start, or two minutes from now if that is later. */
  function StartOf(t: Tournament, now: int): int {
    if t.starts < now + 120_000 then now + 120_000 else t.starts
  }

  function Anew(t: Tournament, now: int): Show {
    Show(t.name, StartOf(t, now), t.ends, t.starts, t.ends)
  }

  /** The start now wanted or the start on record has passed. */
  predicate Begun(t: Tournament, show: Show, now: int) {
    t.starts <= now || show.recordedStarts <= now
  }

  predicate Differs(t: Tournament, show: Show) {
    t.name != show.name || t.starts != show.recordedStarts || t.ends != show.recordedEnds
  }

  function Revised(t: Tournament, show: Show, now: int): Show {
    if !Differs(t, show) then show
    else if !Begun(t, show, now) then Anew(t, now)
    else if t.name != show.name then show.(name := t.name, recordedStarts := t.starts, recordedEnds := t.ends)
    else show
  }

  function After(s: Snapshot, k: SourceId, show: Option<Show>): Option<Show> {
    if Cancelled(s, k) then None
    else if !Current(s, k) then show
    else if k !in s.read then Some(Anew(s.tournaments[k], s.now))
    else if show.Some? then Some(Revised(s.tournaments[k], show.value, s.now))
    else None
  }

  /** What is shown for a source after a run, from what its turns read. */
  function Tab(events: seq<Event>, k: SourceId): Option<Show> {
    if events == [] then None
    else
      var show, e := Tab(events[..|events| - 1], k), events[|events| - 1];
      if e.Sync? && Acts(e.turn) then After(e.turn.snapshot, k, show) else show
  }

  // ----- the guild agrees with it -----

  /** The source is mapped when it is shown; its mapping records what it should, and its event, if nobody
      deleted it, shows what it should. */
  ghost predicate Shows(g: Guild, k: SourceId, show: Option<Show>) {
    if k in g.mappings then
      var m := g.mappings[k];
      && show.Some?
      && m.name == show.value.name && m.starts == show.value.recordedStarts && m.ends == show.value.recordedEnds
      && (m.event in g.live && m.event < |g.events| ==>
          g.events[m.event] == Made(k, show.value.name, show.value.starts, show.value.ends))
    else show.None?
  }

  /** Every mapping names an event of its own source. */
  ghost predicate Owned(g: Guild) {
    Below(g) && forall k: SourceId :: k in g.mappings ==> g.events[g.mappings[k].event].source == k
  }

  lemma CreateShows(g: Guild, a: Action, x: Asked, k: SourceId, show: Option<Show>)
    requires Owned(g) && Faultless(x) && Shows(g, k, show)
    ensures Owned(DoCreate(g, a, x))
    ensures k != a.source ==> Shows(DoCreate(g, a, x), k, show)
    ensures Shows(DoCreate(g, a, x), a.source, Some(Show(a.name, a.sendStart, a.ends, a.starts, a.ends)))
  {
  }

  lemma UpdateShows(g: Guild, a: Action, event: EventId, patchTimes: bool, x: Asked, k: SourceId, show: Option<Show>)
    requires Owned(g) && Faultless(x) && Shows(g, k, show)
    requires a.source in g.mappings && g.mappings[a.source].event == event
    ensures Owned(DoUpdate(g, a, event, patchTimes, x))
    ensures k != a.source ==> Shows(DoUpdate(g, a, event, patchTimes, x), k, show)
    ensures k == a.source ==>
      Shows(DoUpdate(g, a, event, patchTimes, x), k,
            Some(if patchTimes then Show(a.name, a.sendStart, a.ends, a.starts, a.ends)
                 else show.value.(name := a.name, recordedStarts := a.starts, recordedEnds := a.ends)))
  {
  }

  lemma CancelShows(g: Guild, a: Action, event: EventId, x: Asked, k: SourceId, show: Option<Show>)
    requires Owned(g) && Faultless(x) && Shows(g, k, show)
    ensures Owned(DoCancel(g, a, event, x))
    ensures Shows(DoCancel(g, a, event, x), k, if k == a.source then None else show)
  {
  }

  /** One source's part of a turn. */
  lemma DueShows(g: Guild, s: Snapshot, x: Asked, k: SourceId, show: Option<Show>)
    requires Owned(g) && Faultless(x) && Shows(g, k, show)
    requires x.source in s.read ==> MappingAt(g, x.source) == Some(s.read[x.source])
    requires x.source in Considered(s)
    ensures
      var h := if Due(s, x).Some? then Do(g, Due(s, x).value, x) else g;
      Owned(h) && Shows(h, k, if k == x.source then After(s, k, show) else show)
  {
    if Due(s, x).Some? {
      var a := Due(s, x).value;
      var g1 := g.(live := g.live - x.byHand);
      assert Owned(g1) && Shows(g1, k, show);
      match a.kind
      case Create => CreateShows(g1, a, x, k, show);
      case Update(event, patchTimes) => UpdateShows(g1, a, event, patchTimes, x, k, show);
      case Cancel(event) => CancelShows(g1, a, event, x, k, show);
    }
  }

  lemma {:induction false} AskedShows(g: Guild, s: Snapshot, asked: seq<Asked>, k: SourceId, show: Option<Show>)
    requires Owned(g) && ScheduledEventProofs.Agrees(s, g) && Shows(g, k, show)
    requires Distinct(asked) && AllFaultless(asked) && Sources(asked) <= Considered(s)
    ensures
      var h := DoAsked(g, s, asked);
      Owned(h) && Shows(h, k, if k in Sources(asked) then After(s, k, show) else show)
  {
    if asked != [] {
      var before, x := asked[..|asked| - 1], asked[|asked| - 1];
      assert asked == before + [x];
      assert AllFaultless(before) by {
        assert forall i :: 0 <= i < |before| ==> before[i] == asked[i];
      }
      AskedShows(g, s, before, k, show);
      OthersAreUntouched(g, s, before, x.source);
      DoAskedStep(g, s, before, x);
      DueShows(DoAsked(g, s, before), s, x, k, if k in Sources(before) then After(s, k, show) else show);
    }
  }

  /** What a turn without faults leaves shown. */
  lemma TurnShows(g: Guild, t: Turn, k: SourceId, show: Option<Show>)
    requires Owned(g) && Shows(g, k, show) && Fits(t, g) && (t.Turn? ==> AllFaultless(t.asked))
    ensures
      var h := GuildAfter(g, t);
      Owned(h) && Shows(h, k, if Acts(t) then After(t.snapshot, k, show) else show)
  {
    if Acts(t) {
      AskedShows(g, t.snapshot, t.asked, k, show);
      assert GuildAfter(g, t) == DoAsked(g, t.snapshot, t.asked);
    }
  }

  /** No call or recording of the run failed. Events may still be deleted by hand, at any time. */
  ghost predicate FaultFree(events: seq<Event>) {
    forall i :: 0 <= i < |events| && events[i].Sync? && events[i].turn.Turn? ==> AllFaultless(events[i].turn.asked)
  }

  /** In every run without faults a source is mapped exactly when it is shown, its mapping records what the
      tournaments read so far say, and its event shows what they say. */
  lemma {:induction false} RunShows(events: seq<Event>, k: SourceId)
    requires Lawful(events) && FaultFree(events)
    ensures Owned(Run(events)) && Shows(Run(events), k, Tab(events, k))
  {
    if events != [] {
      var before, e := events[..|events| - 1], events[|events| - 1];
      assert FaultFree(before) by {
        assert forall i :: 0 <= i < |before| ==> before[i] == events[i];
      }
      RunShows(before, k);
      if e.Sync? {
        TurnShows(Run(before), e.turn, k, Tab(before, k));
      }
    }
  }

  // ----- what that comes to -----

  /** The event of an announced tournament that is not over, after a turn without faults: unless it was deleted,
      it carries the tournament's name; its times are the tournament's, the start moved past now, exactly when
      something differed and neither start had passed, and otherwise they are as they were. */
  lemma UpdatesShow(events: seq<Event>, t: Turn, k: SourceId)
    requires Lawful(events + [Sync(t)]) && FaultFree(events + [Sync(t)]) && Acts(t)
    requires k in t.snapshot.read && Current(t.snapshot, k)
    ensures Updated(Run(events), Run(events + [Sync(t)]), t.snapshot.read[k], t.snapshot.tournaments[k], k, t.snapshot.now)
  {
    var all := events + [Sync(t)];
    BeforeIsFaultFree(events, Sync(t));
    RunShows(events, k);
    RunShows(all, k);
    StepCame(Run(events), Sync(t), k);
  }

  /** `m` is the mapping that was read, `wanted` the tournament. */
  ghost predicate Updated(g: Guild, h: Guild, m: Mapping, wanted: Tournament, k: SourceId, now: int) {
    && k in h.mappings && h.mappings[k].event == m.event && m.event < |g.events| <= |h.events|
    && (m.event in g.live && m.event in h.live ==>
        Revises(g.events[m.event], h.events[m.event], m, wanted, now))
  }

  predicate Revises(before: Made, after: Made, m: Mapping, wanted: Tournament, now: int) {
    && after.name == wanted.name
    && if (m.name != wanted.name || m.starts != wanted.starts || m.ends != wanted.ends)
          && now < wanted.starts && now < m.starts
       then after.ends == wanted.ends && after.starts == StartOf(wanted, now)
       else after.starts == before.starts && after.ends == before.ends
  }

  lemma BeforeIsFaultFree(events: seq<Event>, e: Event)
    requires FaultFree(events + [e])
    ensures FaultFree(events) && (e.Sync? && e.turn.Turn? ==> AllFaultless(e.turn.asked))
    ensures (events + [e])[..|events|] == events
  {
    var all := events + [e];
    assert all[|events|] == e;
    assert forall i :: 0 <= i < |events| ==> all[i] == events[i];
  }

  /** A tournament announced for the first time, and one that is no longer announced. */
  lemma CreationsShow(events: seq<Event>, t: Turn, k: SourceId)
    requires Lawful(events + [Sync(t)]) && FaultFree(events + [Sync(t)]) && Acts(t) && k !in t.snapshot.read
    ensures
      var g, h, s := Run(events), Run(events + [Sync(t)]), t.snapshot;
      if Current(s, k) then
        && k in h.mappings
        && (h.mappings[k].event in h.live ==>
            var wanted := s.tournaments[k];
            h.mappings[k].event < |h.events| &&
            h.events[h.mappings[k].event] == Made(k, wanted.name, StartOf(wanted, s.now), wanted.ends))
      else k in h.mappings <==> k in g.mappings
  {
    BeforeIsFaultFree(events, Sync(t));
    RunShows(events, k);
    RunShows(events + [Sync(t)], k);
  }

  // ----- when the times on record are those shown -----

  /** The turn sends times for the source: it announces it, or moves it before a start has passed. */
  predicate Sends(s: Snapshot, k: SourceId, show: Option<Show>) {
    && Current(s, k)
    && (k !in s.read ||
        (show.Some? && Differs(s.tournaments[k], show.value) && !Begun(s.tournaments[k], show.value, s.now)))
  }

  /** When times were last sent for a source. */
  function SentAt(events: seq<Event>, k: SourceId): int {
    if events == [] then 0
    else
      var before, e := events[..|events| - 1], events[|events| - 1];
      if e.Sync? && Acts(e.turn) && Sends(e.turn.snapshot, k, Tab(before, k)) then e.turn.snapshot.now
      else SentAt(before, k)
  }

  /** The times shown are those on record, the start moved past the time they were sent. */
  predicate InTime(show: Show, sent: int) {
    && show.ends == show.recordedEnds
    && show.starts == if show.recordedStarts < sent + 120_000 then sent + 120_000 else show.recordedStarts
  }

  /** A source that was renamed since times were last sent for it, at or after a start that was on record or
      newly wanted. */
  predicate RenamedLate(events: seq<Event>, k: SourceId) {
    events != [] &&
    var before, e := events[..|events| - 1], events[|events| - 1];
    var show := Tab(before, k);
    if !e.Sync? || !Acts(e.turn) then RenamedLate(before, k)
    else
      var s := e.turn.snapshot;
      !Sends(s, k, show) &&
      (RenamedLate(before, k) ||
       (k in s.read && show.Some? && Current(s, k) && s.tournaments[k].name != show.value.name))
  }

  /** In every run without faults, unless it was renamed late, a source's event shows the times on record. */
  lemma {:induction false} TimesAreRecorded(events: seq<Event>, k: SourceId)
    requires !RenamedLate(events, k) && Tab(events, k).Some?
    ensures InTime(Tab(events, k).value, SentAt(events, k))
  {
    var before, e := events[..|events| - 1], events[|events| - 1];
    if !(e.Sync? && Acts(e.turn) && Sends(e.turn.snapshot, k, Tab(before, k))) {
      assert Tab(events, k) == Tab(before, k);
      TimesAreRecorded(before, k);
    }
  }

  /** So a live, mapped event carries the name its mapping records and, unless it was renamed late, ends when its
      mapping says, and starts then or two minutes after its times were sent. */
  lemma EventsShowTheirRecord(events: seq<Event>, k: SourceId)
    requires Lawful(events) && FaultFree(events) && k in Run(events).mappings
    requires Run(events).mappings[k].event in Run(events).live
    ensures
      var g := Run(events);
      var m := g.mappings[k];
      && m.event < |g.events| && g.events[m.event].source == k && g.events[m.event].name == m.name
      && (!RenamedLate(events, k) ==>
          && g.events[m.event].ends == m.ends
          && g.events[m.event].starts
             == if m.starts < SentAt(events, k) + 120_000 then SentAt(events, k) + 120_000 else m.starts)
  {
    RunShows(events, k);
    if !RenamedLate(events, k) {
      TimesAreRecorded(events, k);
    }
  }

  /** A late renaming puts the record out of step with what is shown exactly when it comes with another end, or
      with a start that would not have been sent as the same. */
  lemma LateRenamingIsExact(t: Tournament, show: Show, sent: int, now: int)
    requires InTime(show, sent) && Begun(t, show, now) && t.name != show.name
    ensures InTime(Revised(t, show, now), sent) <==> t.ends == show.recordedEnds && StartOf(t, sent) == show.starts
  {
  }

  /** Out of step, and nothing to be done about it: a tournament renamed as it was moved into the past, and again
      as it was moved to next week, is announced for tomorrow, and no later reading owes it anything. */
  lemma MovedTwiceIsMissed(a: Name, b: Name, c: Name, k: SourceId, m: Mapping, later: int)
    requires a != b && b != c && later < 86_400_000
    ensures
      var tomorrow := Tournament(a, 86_400_000, 90_000_000, true, false);
      var past := Tournament(b, -1, 90_000_000, true, false);
      var nextWeek := Tournament(c, 604_800_000, 608_400_000, true, false);
      var show := Revised(nextWeek, Revised(past, Anew(tomorrow, 0), 0), 0);
      && show == Show(c, 86_400_000, 90_000_000, 604_800_000, 608_400_000)
      && (m.name == show.name && m.starts == show.recordedStarts && m.ends == show.recordedEnds ==>
          Owed(k, map[k := nextWeek], Some(m), later) == None)
  {
  }
}
