/** The limit of the reading is within reach: one clean sync of more running tournaments than are read back. */
module ScheduledEventLimit {
  import opened Basics
  import opened ScheduledEvents
  import opened ScheduledEventProofs

  predicate Lower(k: nat, n: nat) {
    k < n
  }

  function Upto(n: nat): set<nat> {
    set k: nat | 0 <= k < n && Lower(k, n)
  }

  lemma {:induction false} UptoSize(n: nat)
    ensures |Upto(n)| == n
  {
    if n == 0 {
      assert Upto(n) == {};
    } else {
      UptoSize(n - 1);
      assert Upto(n) == Upto(n - 1) + {n - 1};
    }
  }

  /** `n` tournaments alike. */
  function Club(n: nat, t: Tournament): map<SourceId, Tournament> {
    map k | k in Upto(n) :: t
  }

  function Ask(k: SourceId): Asked {
    Asked(k, {}, Accepted, Answered, Recorded)
  }

  function Everyone(n: nat): seq<Asked> {
    if n == 0 then [] else Everyone(n - 1) + [Ask(n - 1)]
  }

  function RecordOf(event: EventId, t: Tournament): Mapping {
    Mapping(event, t.name, t.starts, t.ends)
  }

  function Records(n: nat, t: Tournament): map<SourceId, Mapping> {
    map k | k in Upto(n) :: RecordOf(k, t)
  }

  function MadeFor(k: SourceId, t: Tournament, now: int): Made {
    Made(k, t.name, Clamped(t.starts, now), t.ends)
  }

  function AllMade(n: nat, t: Tournament, now: int): seq<Made> {
    if n == 0 then [] else AllMade(n - 1, t, now) + [MadeFor(n - 1, t, now)]
  }

  /** The guild once every tournament is announced. */
  function Announced(n: nat, t: Tournament, now: int): Guild {
    Guild(Records(n, t), AllMade(n, t, now), Upto(n), {})
  }

  function First(n: nat, t: Tournament, now: int): Snapshot {
    Snapshot(now, Club(n, t), map[])
  }

  /** All the records but the one written first. */
  function Second(n: nat, t: Tournament, later: int): Snapshot {
    Snapshot(later, Club(n, t), Records(n, t) - {0})
  }

  function CleanTurn(s: Snapshot, n: nat): Turn {
    Turn(s, false, Allowed, Everyone(n))
  }

  ghost predicate Running(t: Tournament, now: int) {
    Announceable(t) && t.starts < t.ends && now < t.ends
  }

  // ----- the readings are lawful -----

  lemma {:induction false} EveryoneIsListed(n: nat)
    ensures Sources(Everyone(n)) == Upto(n) && Distinct(Everyone(n))
  {
    if n > 0 {
      EveryoneIsListed(n - 1);
      assert Everyone(n)[..|Everyone(n)| - 1] == Everyone(n - 1);
      assert Upto(n) == Upto(n - 1) + {n - 1};
    } else {
      assert Upto(0) == {};
    }
  }

  lemma {:induction false} FirstIsAsked(n: nat)
    requires n >= 1
    ensures AskedFor(Everyone(n), 0) == Some(Ask(0))
  {
    assert Everyone(n)[..|Everyone(n)| - 1] == Everyone(n - 1);
    if n > 1 {
      FirstIsAsked(n - 1);
    }
  }

  lemma FirstFits(n: nat, t: Tournament, now: int)
    requires Running(t, now)
    ensures Fits(CleanTurn(First(n, t, now), n), NoGuild())
  {
    EveryoneIsListed(n);
    assert Considered(First(n, t, now)) == Upto(n);
  }

  lemma SecondFits(n: nat, t: Tournament, now: int, later: int)
    requires Running(t, later) && Reads(Second(n, t, later), Announced(n, t, now))
    ensures Fits(CleanTurn(Second(n, t, later), n), Announced(n, t, now))
  {
    EveryoneIsListed(n);
    assert Considered(Second(n, t, later)) == Upto(n);
  }

  /** The reading takes all but one of 151. */
  lemma SecondReads(n: nat, t: Tournament, now: int, later: int)
    requires n == MAX_MAPPED + 1
    ensures Reads(Second(n, t, later), Announced(n, t, now))
  {
    UptoSize(n);
    assert Records(n, t).Keys == Upto(n);
    assert Second(n, t, later).read.Keys == Upto(n) - {0};
    assert 0 in Upto(n);
  }

  // ----- what the syncs do -----

  lemma {:induction false} FirstAnnounces(n: nat, t: Tournament, now: int, k: nat)
    requires Running(t, now) && k <= n
    ensures DoAsked(NoGuild(), First(n, t, now), Everyone(k)) == Announced(k, t, now)
    ensures |AllMade(k, t, now)| == k
    decreases k
  {
    var s := First(n, t, now);
    if k == 0 {
      assert Announced(0, t, now) == NoGuild();
    } else {
      FirstAnnounces(n, t, now, k - 1);
      DoAskedStep(NoGuild(), s, Everyone(k - 1), Ask(k - 1));
      OneAnnounced(n, t, now, k - 1);
    }
  }

  lemma OneAnnounced(n: nat, t: Tournament, now: int, k: nat)
    requires Running(t, now) && k < n && |AllMade(k, t, now)| == k
    ensures
      var due := Due(First(n, t, now), Ask(k));
      due.Some? && Do(Announced(k, t, now), due.value, Ask(k)) == Announced(k + 1, t, now)
  {
    var due := Due(First(n, t, now), Ask(k));
    assert due == Some(Action(Create, k, t.name, Clamped(t.starts, now), t.starts, t.ends));
    var g := Announced(k, t, now);
    assert g.live - {} == g.live;
    assert g.live + {k} == Upto(k + 1);
    assert Records(k, t)[k := RecordOf(k, t)] == Records(k + 1, t);
  }

  /** Then the first tournament is announced again, and its record written over. */
  function Doubled(n: nat, t: Tournament, now: int, later: int): Guild {
    var g := Announced(n, t, now);
    Guild(g.mappings[0 := RecordOf(n, t)], g.events + [MadeFor(0, t, later)], g.live + {n}, {})
  }

  lemma {:induction false} SecondDoubles(n: nat, t: Tournament, now: int, later: int, k: nat)
    requires Running(t, later) && 1 <= k <= n && |AllMade(n, t, now)| == n
    ensures DoAsked(Announced(n, t, now), Second(n, t, later), Everyone(k)) == Doubled(n, t, now, later)
    decreases k
  {
    var g, s := Announced(n, t, now), Second(n, t, later);
    DoAskedStep(g, s, Everyone(k - 1), Ask(k - 1));
    if k == 1 {
      assert Due(s, Ask(0)) == Some(Action(Create, 0, t.name, Clamped(t.starts, later), t.starts, t.ends));
      assert DoAsked(g, s, []) == g;
      assert g.live - {} == g.live;
    } else {
      SecondDoubles(n, t, now, later, k - 1);
      assert s.read[k - 1] == RecordOf(k - 1, t);
      assert Due(s, Ask(k - 1)) == None;
    }
  }

  lemma FirstSync(n: nat, t: Tournament, now: int)
    requires Running(t, now) && n >= 1
    ensures Step(NoGuild(), Sync(CleanTurn(First(n, t, now), n))) == Announced(n, t, now)
    ensures |AllMade(n, t, now)| == n
  {
    FirstAnnounces(n, t, now, n);
  }

  lemma SecondSync(n: nat, t: Tournament, now: int, later: int)
    requires Running(t, later) && n >= 1 && |AllMade(n, t, now)| == n
    ensures
      var e, g := Sync(CleanTurn(Second(n, t, later), n)), Announced(n, t, now);
      Step(g, e) == Doubled(n, t, now, later) && Redirects(g, e, 0)
  {
    var s, g := Second(n, t, later), Announced(n, t, now);
    SecondDoubles(n, t, now, later, n);
    assert 0 in s.tournaments;
    assert g != Doubled(n, t, now, later);
    FirstIsAsked(n);
  }

  function TwoSyncs(n: nat, t: Tournament, now: int, later: int): seq<Event> {
    [Sync(CleanTurn(First(n, t, now), n)), Sync(CleanTurn(Second(n, t, later), n))]
  }

  lemma TwoSyncsRun(n: nat, t: Tournament, now: int, later: int)
    requires Running(t, now) && Running(t, later) && n >= 1 && Reads(Second(n, t, later), Announced(n, t, now))
    ensures
      var events := TwoSyncs(n, t, now, later);
      Lawful(events) && Redirections(events, 0) == 1 && Run(events) == Doubled(n, t, now, later)
  {
    FirstSync(n, t, now);
    SecondSync(n, t, now, later);
    FirstFits(n, t, now);
    SecondFits(n, t, now, later);
    TwoSteps(Sync(CleanTurn(First(n, t, now), n)), Sync(CleanTurn(Second(n, t, later), n)), 0);
  }

  lemma TwoSteps(a: Event, b: Event, k: SourceId)
    requires a.Sync? && b.Sync? && Fits(a.turn, NoGuild()) && Fits(b.turn, Step(NoGuild(), a))
    ensures Lawful([a, b]) && Run([a, b]) == Step(Step(NoGuild(), a), b)
    ensures Redirections([a, b], k) == if Redirects(Step(NoGuild(), a), b, k) then 1 else 0
  {
    assert [a, b][..1] == [a] && [a][..0] == [];
    assert Run([]) == NoGuild() && Run([a]) == Step(NoGuild(), a);
    assert Lawful([a]);
    assert Redirections([a], k) == 0;
  }

  lemma {:induction false} MadeIsFor(n: nat, t: Tournament, now: int, k: nat)
    requires k < n
    ensures |AllMade(n, t, now)| == n && AllMade(n, t, now)[k] == MadeFor(k, t, now)
  {
    if k < n - 1 {
      MadeIsFor(n - 1, t, now, k);
    } else if n > 1 {
      MadeIsFor(n - 1, t, now, 0);
    }
  }

  lemma DoubledIsDoubled(n: nat, t: Tournament, now: int, later: int)
    requires n >= 1
    ensures LiveOf(Doubled(n, t, now, later), 0) == {0, n} && LostOf(Doubled(n, t, now, later), 0) == {}
  {
    var g := Doubled(n, t, now, later);
    MadeIsFor(n, t, now, 0);
    forall e: nat | e < n ensures g.events[e] == MadeFor(e, t, now) {
      MadeIsFor(n, t, now, e);
    }
    assert g.events[n] == MadeFor(0, t, later);
    assert Lower(0, n) && 0 in g.live && n in g.live;
  }

  /** A guild that the code reaches by one sync of 151 running tournaments with every answer ok: at the next
      such sync the first of them gets a second event, its record forgets the first, and nothing was lost. */
  lemma PastTheLimitEventsAreDoubled(n: nat, t: Tournament, now: int, later: int)
    requires Running(t, now) && Running(t, later) && n == MAX_MAPPED + 1
    ensures
      var events := TwoSyncs(n, t, now, later);
      var g := Run(events);
      && Lawful(events) && Redirections(events, 0) == 1
      && LiveOf(g, 0) == {0, n} && LostOf(g, 0) == {} && MappedOf(g, 0) == {n}
  {
    SecondReads(n, t, now, later);
    TwoSyncsRun(n, t, now, later);
    DoubledIsDoubled(n, t, now, later);
  }
}
