/** How often the board may be posted afresh. */
module BoardBudget {
  import opened Basics
  import opened SessionBoard

  const DAY := 86_400_000

  /** `p` is followed by `q` in one row lifetime: same window, or windows more than a day apart. */
  predicate Follows(p: Posting, q: Posting) {
    p.at <= q.at && (p.window == q.window || p.window + REPOST_WINDOW_MS < q.window)
  }

  /** A posting is made inside its window; one that is no repost opens it. */
  predicate InWindow(p: Posting) {
    p.window <= p.at <= p.window + REPOST_WINDOW_MS && (!p.repost ==> p.at == p.window)
  }

  /** What the postings of one row lifetime keep: windows more than a day apart, each posting inside
      its window, and no four reposts in one. Only the first posting can be other than a repost. */
  ghost predicate Spaced(posts: seq<Posting>) {
    && (forall i :: 0 <= i < |posts| ==> InWindow(posts[i]) && (0 < i ==> posts[i].repost))
    && (forall i, j :: 0 <= i < j < |posts| ==> Follows(posts[i], posts[j]))
    && forall i, j :: 0 <= i && j == i + MAX_REPOSTS_PER_DAY < |posts| && posts[i].repost
         ==> posts[i].window < posts[j].window
  }

  /** The counters tell the truth: the last `reposts` postings are exactly the reposts made in the
      window. */
  ghost predicate Counted(reposts: nat, window: int, posts: seq<Posting>, now: int) {
    var k := |posts| - reposts;
    && window <= now
    && reposts <= MAX_REPOSTS_PER_DAY
    && 0 <= k
    && (forall i :: 0 <= i < |posts| ==>
          posts[i].window == window || posts[i].window + REPOST_WINDOW_MS < window)
    && (forall i :: k <= i < |posts| ==> posts[i].repost && posts[i].window == window)
    && (0 < k ==> !(posts[k - 1].repost && posts[k - 1].window == window))
  }

  ghost predicate MadeBy(posts: seq<Posting>, now: int) {
    forall i :: 0 <= i < |posts| ==> posts[i].at <= now
  }

  /** A post leaves after the clock reading its row records. A late one leaves the row stuck, so that
      nothing is posted after it. */
  ghost predicate Orderly(posts: seq<Posting>, row: Option<Row>) {
    && (forall i :: 0 <= i < |posts| ==> posts[i].at <= posts[i].sent)
    && (forall i :: 0 <= i < |posts| && posts[i].late ==> i == |posts| - 1 && IsStuck(row))
  }

  ghost predicate WithinBudget(w: World) {
    && Spaced(w.posts)
    && MadeBy(w.posts, w.now)
    && Orderly(w.posts, w.row)
    && (w.row.None? ==> w.posts == [])
    && (w.row.Some? && !IsStuck(w.row) ==>
          && w.row.value.repostWindowStart.Some?
          && Counted(w.row.value.reposts, w.row.value.repostWindowStart.value, w.posts, w.now))
  }

  /** People outside change neither the row nor the postings, and the clock does not go back. */
  lemma {:induction false} MeddlingKeeps(w: World, acts: seq<Act>)
    ensures var w' := Meddling(w, acts);
            w.now <= w'.now && w' == w.(setting := w'.setting, live := w'.live, floating := w'.floating, now := w'.now)
    decreases acts
  {
    if acts != [] {
      MeddlingKeeps(Meddled(w, acts[0]), acts[1..]);
    }
  }

  /** One more posting, inside the window and within the count. */
  lemma OneMoreIsSpaced(posts: seq<Posting>, reposts: nat, last: Posting)
    requires Spaced(posts) && Counted(reposts, last.window, posts, last.at) && MadeBy(posts, last.at)
    requires last.at <= last.window + REPOST_WINDOW_MS
    requires if last.repost then reposts < MAX_REPOSTS_PER_DAY else posts == [] && last.window == last.at
    ensures Spaced(posts + [last])
  {
    var posts' := posts + [last];
    forall i, j | 0 <= i < j < |posts'| ensures Follows(posts'[i], posts'[j]) {
      if j < |posts| {
        assert Follows(posts[i], posts[j]);
      }
    }
    forall i, j | 0 <= i && j == i + MAX_REPOSTS_PER_DAY < |posts'| && posts'[i].repost
      ensures posts'[i].window < posts'[j].window
    {
      if j == |posts| {
        var k := |posts| - reposts;
        assert i == k - 1 || Follows(posts[i], posts[k - 1]);
      } else {
        assert posts[i].window < posts[j].window;
      }
    }
  }

  lemma OneMoreIsCounted(posts: seq<Posting>, reposts: nat, last: Posting, now: int)
    requires Counted(reposts, last.window, posts, last.at) && last.at <= now
    requires if last.repost then reposts < MAX_REPOSTS_PER_DAY else posts == []
    ensures var posts' := posts + [last];
            && Counted(if last.repost then reposts + 1 else reposts, last.window, posts', now)
            && (MadeBy(posts, last.at) ==> MadeBy(posts', now))
  {
  }

  lemma OneMoreIsOrderly(posts: seq<Posting>, last: Posting, row: Option<Row>)
    requires Orderly(posts, None) && last.at <= last.sent && (last.late ==> IsStuck(row))
    ensures Orderly(posts + [last], row) && Orderly(posts, row)
  {
  }

  function SendPosting(w: World, marked: Row, isRepost: bool, a: Answers): Posting
    requires marked.postedAt.Some? && marked.repostWindowStart.Some?
  {
    PostingOf(marked, Meddling(w, a.post.before).now, isRepost, a.post.answer)
  }

  /** A send adds at most one posting, and the row counts it or stays stuck. */
  ghost predicate SendLeaves(w: World, marked: Row, isRepost: bool, posting: Posting, w': World) {
    && w.now <= posting.sent <= w'.now
    && w'.row.Some?
    && w'.row.value.repostWindowStart == marked.repostWindowStart
    && (w'.posts == w.posts || w'.posts == w.posts + [posting])
    && (IsStuck(w'.row)
        || w'.row.value.reposts == marked.reposts + (if w'.posts != w.posts && isRepost then 1 else 0))
    && (posting.late ==> IsStuck(w'.row))
  }

  lemma SendEnds(w: World, marked: Row, isRepost: bool, render: Render, a: Answers)
    requires w.row == Some(marked) && IsStuck(w.row)
    requires marked.postedAt.Some? && marked.repostWindowStart.Some?
    ensures SendLeaves(w, marked, isRepost, SendPosting(w, marked, isRepost, a), Send(w, marked, isRepost, render, a).0)
  {
    MeddlingKeeps(w, a.post.before);
    var w1 := Meddling(w, a.post.before);
    var posting := SendPosting(w, marked, isRepost, a);
    var w2 := AfterPost(w1, marked, isRepost, render, a.post.answer);
    MeddlingKeeps(w2, a.store.before);
    assert |w.posts + [posting]| == |w.posts| + 1;
  }

  /** The counters of a row marked at its own recorded time, before its message is posted. */
  ghost predicate Marked(w: World, marked: Row, isRepost: bool) {
    && marked.postedAt.Some? && marked.repostWindowStart.Some?
    && var at := marked.postedAt.value;
       && at <= w.now && Spaced(w.posts) && MadeBy(w.posts, at)
       && Counted(marked.reposts, marked.repostWindowStart.value, w.posts, at)
       && at <= marked.repostWindowStart.value + REPOST_WINDOW_MS
       && (if isRepost then marked.reposts < MAX_REPOSTS_PER_DAY
           else w.posts == [] && marked.repostWindowStart.value == at)
       && Orderly(w.posts, None)
  }

  lemma SentIsWithin(w: World, marked: Row, isRepost: bool, posting: Posting, w': World)
    requires Marked(w, marked, isRepost) && SendLeaves(w, marked, isRepost, posting, w')
    requires posting.at == marked.postedAt.value && posting.window == marked.repostWindowStart.value
    requires posting.repost == isRepost
    ensures WithinBudget(w')
  {
    OneMoreIsSpaced(w.posts, marked.reposts, posting);
    OneMoreIsCounted(w.posts, marked.reposts, posting, w'.now);
    OneMoreIsOrderly(w.posts, posting, w'.row);
  }

  lemma SendKeepsBudget(w: World, marked: Row, isRepost: bool, render: Render, a: Answers)
    requires w.row == Some(marked) && IsStuck(w.row) && Marked(w, marked, isRepost)
    ensures WithinBudget(Send(w, marked, isRepost, render, a).0)
  {
    SendEnds(w, marked, isRepost, render, a);
    SentIsWithin(w, marked, isRepost, SendPosting(w, marked, isRepost, a), Send(w, marked, isRepost, render, a).0);
  }

  /** The row a post is announced with, whose clock was read at `w.now`. */
  function MarkedRow(w: World, channel: Channel): Row {
    var (reposts, window) := Budget(w.row, w.now);
    Row(channel, None, true, None, Some(w.now), reposts, Some(window))
  }

  lemma BudgetIsMarked(w: World, channel: Channel, w1: World)
    requires WithinBudget(w) && !IsStuck(w.row)
    requires w.row.Some? ==> MarkedRow(w, channel).reposts < MAX_REPOSTS_PER_DAY
    requires w.now <= w1.now && w1.posts == w.posts
    ensures Marked(w1, MarkedRow(w, channel), w.row.Some?)
  {
  }

  lemma PostKeepsBudget(w: World, channel: Channel, render: Render, a: Answers)
    requires WithinBudget(w) && !IsStuck(w.row)
    ensures WithinBudget(Post(w, w.row, channel, render, a).0)
  {
    var marked := MarkedRow(w, channel);
    if w.row.None? || marked.reposts < MAX_REPOSTS_PER_DAY {
      MeddlingKeeps(w, a.mark.before);
      var w1 := AfterWrite(Meddling(w, a.mark.before), marked, a.mark.answer);
      if a.mark.answer.Stored? {
        BudgetIsMarked(w, channel, w1);
        SendKeepsBudget(w1, marked, w.row.Some?, render, a);
      } else if WriteLands(a.mark.answer) {
        assert IsStuck(w1.row);
      }
    }
  }

  /** Later, with the same row and postings, or with neither. */
  predicate Carried(w: World, w': World) {
    w.now <= w'.now && ((w'.row == w.row && w'.posts == w.posts) || (w'.row == None && w'.posts == []))
  }

  lemma CarriedKeepsBudget(w: World, w': World)
    requires WithinBudget(w) && Carried(w, w')
    ensures WithinBudget(w')
  {
  }

  lemma RetireCarries(w: World, row: Row, a: Answers, outcome: Outcome)
    ensures Carried(w, Retire(w, row, a, outcome).0)
  {
    var w2 := w;
    if row.messageId.Some? {
      MeddlingKeeps(w, a.delete.before);
      w2 := AfterDelete(Meddling(w, a.delete.before), row.messageId.value, a.delete.answer);
    }
    MeddlingKeeps(w2, a.store.before);
  }

  lemma EditEnds(w: World, row: Row, m: MessageId, render: Render, a: Answers)
    requires w.row == Some(row)
    ensures var w' := Edit(w, row, m, render, a).0;
            && w'.posts == w.posts
            && w.now <= w'.now
            && w'.row.Some?
            && (IsStuck(w'.row) ==> IsStuck(w.row))
            && w'.row.value.reposts == row.reposts
            && w'.row.value.repostWindowStart == row.repostWindowStart
  {
    MeddlingKeeps(w, a.edit.before);
    var w1 := Meddling(w, a.edit.before);
    var answer := EditAnswer(w1, m, a.edit.answer);
    MeddlingKeeps(AfterEdit(w1, m, render, answer), a.store.before);
  }

  lemma TickKeepsBudget(w: World, a: Answers)
    requires WithinBudget(w)
    ensures WithinBudget(Tick(w, a).0)
  {
    MeddlingKeeps(w, a.board.before);
    var w1 := Meddling(w, a.board.before);
    if !a.board.answer || (Unset(w1.setting) && w1.row.None?) || (!Unset(w1.setting) && IsStuck(w1.row)) {
      assert Tick(w, a).0 == w1;
    } else if Unset(w1.setting) || (w1.row.Some? && w1.row.value.channelId != w1.setting.value) {
      RetireCarries(w1, w1.row.value, a, if Unset(w1.setting) then Retracted else Moved);
      CarriedKeepsBudget(w1, Tick(w, a).0);
    } else {
      MeddlingKeeps(w1, a.schedule.before);
      var w2 := Meddling(w1, a.schedule.before);
      if a.schedule.answer.Some? {
        var data := a.schedule.answer.value;
        if w1.row.Some? && w1.row.value.messageId.Some? {
          EditEnds(w2, w1.row.value, w1.row.value.messageId.value, data.render, a);
        } else if !data.empty {
          PostKeepsBudget(w2, w1.setting.value, data.render, a);
        }
      }
    }
  }

  lemma {:induction false} RunKeepsBudget(events: seq<Event>, now: int)
    ensures WithinBudget(Run(Start(now), events))
  {
    if events != [] {
      var before := events[..|events| - 1];
      RunKeepsBudget(before, now);
      match events[|events| - 1]
      case Ticked(a) => TickKeepsBudget(Run(Start(now), before), a);
      case Outside(act) => CarriedKeepsBudget(Run(Start(now), before), Run(Start(now), events));
    }
  }

  /** In any run, through lost records and refusals alike, no window of a row lifetime holds more than
      three reposts, and windows start more than a day apart. */
  lemma RepostCapBinds(events: seq<Event>, now: int, i: nat, j: nat)
    requires var posts := Run(Start(now), events).posts;
             i < j < |posts| && posts[i].repost
    ensures var posts := Run(Start(now), events).posts;
            && (posts[i].window == posts[j].window ==> j < i + 3)
            && (posts[i].window != posts[j].window ==> posts[i].window + DAY < posts[j].window)
  {
    RunKeepsBudget(events, now);
    var posts := Run(Start(now), events).posts;
    assert Follows(posts[i], posts[j]);
    if i + MAX_REPOSTS_PER_DAY <= j {
      var k := i + MAX_REPOSTS_PER_DAY;
      assert posts[i].window < posts[k].window;
      assert k == j || Follows(posts[k], posts[j]);
    }
  }

  /** By the clock readings recorded, the seventh post of a row lifetime is more than a day after the first. */
  lemma SeventhIsADayLater(posts: seq<Posting>, i: nat, j: nat)
    requires Spaced(posts) && i + 6 <= j < |posts|
    ensures posts[i].at + DAY < posts[j].at
  {
    var k := if posts[i].repost then i else i + 1;
    assert posts[k].window < posts[k + 3].window;
    assert Follows(posts[k], posts[k + 3]);
    assert InWindow(posts[i]) && InWindow(posts[i + 6]);
    assert i + 6 == j || Follows(posts[i + 6], posts[j]);
    if posts[i].repost {
      assert posts[i + 3].window < posts[i + 6].window;
      assert Follows(posts[i + 3], posts[i + 6]);
    } else {
      assert Follows(posts[0], posts[1]);
      assert i + 4 == i + 6 || Follows(posts[i + 4], posts[i + 6]);
    }
  }

  /** When Discord created the messages: as the request left, or later for a post whose answer was lost. */
  ghost predicate CreatedAt(posts: seq<Posting>, made: seq<int>) {
    && |made| == |posts|
    && forall i :: 0 <= i < |posts| ==> if posts[i].late then posts[i].sent <= made[i] else made[i] == posts[i].sent
  }

  /** No tick took longer than `longest` from reading the clock to posting. */
  predicate Prompt(posts: seq<Posting>, longest: nat) {
    forall i :: 0 <= i < |posts| ==> posts[i].sent - posts[i].at <= longest
  }

  /** Any closed day less the longest tick holds at most six board creations of one row lifetime. */
  lemma SixCreationsADay(events: seq<Event>, now: int, made: seq<int>, longest: nat, from: int)
    requires CreatedAt(Run(Start(now), events).posts, made) && Prompt(Run(Start(now), events).posts, longest)
    ensures |set i | 0 <= i < |made| && from <= made[i] <= from + DAY - longest| <= 6
  {
    RunKeepsBudget(events, now);
    var posts := Run(Start(now), events).posts;
    forall i, j | 0 <= i && i + 6 <= j < |made| ensures DAY - longest < made[j] - made[i] {
      SeventhIsADayLater(posts, i, j);
    }
    SixInside(made, from, from + DAY - longest);
  }

  /** By the times the row records, any closed 24 hours hold at most six. */
  lemma SixRecordedADay(events: seq<Event>, now: int, from: int)
    ensures var posts := Run(Start(now), events).posts;
            |set i | 0 <= i < |posts| && from <= posts[i].at <= from + DAY| <= 6
  {
    RunKeepsBudget(events, now);
    var posts := Run(Start(now), events).posts;
    var times := seq(|posts|, i requires 0 <= i < |posts| => posts[i].at);
    forall i, j | 0 <= i && i + 6 <= j < |times| ensures DAY < times[j] - times[i] {
      SeventhIsADayLater(posts, i, j);
    }
    SixInside(times, from, from + DAY);
    assert (set i | 0 <= i < |posts| && from <= posts[i].at <= from + DAY)
      == set i | 0 <= i < |times| && from <= times[i] <= from + DAY;
  }

  lemma SixInside(times: seq<int>, from: int, to: int)
    requires forall i, j :: 0 <= i && i + 6 <= j < |times| ==> to - from < times[j] - times[i]
    ensures |set i | 0 <= i < |times| && from <= times[i] <= to| <= 6
  {
    var inside := set i | 0 <= i < |times| && from <= times[i] <= to;
    if inside != {} {
      var first := FirstIn(inside);
      forall i | i in inside ensures first <= i < first + 6 {
        assert times[i] - times[first] <= to - from;
      }
      SixAtMost(inside, first);
    }
  }

  lemma SixAtMost(s: set<int>, first: int)
    requires forall i :: i in s ==> first <= i < first + 6
    ensures |s| <= 6
  {
    var six := {first, first + 1, first + 2, first + 3, first + 4, first + 5};
    assert forall i :: i in s ==> i in six;
    SubsetSize(s, six);
  }

  ghost function FirstIn(s: set<int>): (m: int)
    requires s != {}
    ensures m in s && forall i :: i in s ==> m <= i
  {
    var x := Member(s);
    if s == {x} then x else
      var m := FirstIn(s - {x});
      assert forall i :: i in s ==> i == x || i in s - {x};
      if m <= x then m else x
  }

  // ---- A slow tick ----

  /** The board `m` is up, `reposts` were made in the window that started at `window`. */
  ghost predicate Up(w: World, m: MessageId, reposts: nat, window: int) {
    && w.setting == Some("sessions")
    && w.row.Some? && w.row.value.postedAt.Some?
    && w.row == Some(Row("sessions", Some(m), false, Some(Fingerprint("monday")), w.row.value.postedAt, reposts,
                         Some(window)))
  }

  /** A tick without a fault, `pause` ms of it between marking the row and posting. */
  function Smooth(render: Render, pause: nat): Answers {
    Answers(Await([], true), Await([], Deleted), Await([], Some(Schedule(false, render))), Await([], EditOk),
            Await([], Stored), Await([Wait(pause)], Created), Await([], Stored))
  }

  lemma RunStep(now: int, events: seq<Event>, e: Event)
    ensures Run(Start(now), events + [e]) == Step(Run(Start(now), events), e)
  {
    assert (events + [e])[..|events|] == events;
  }

  lemma PausedIs(w: World, pause: nat)
    ensures Meddling(w, [Wait(pause)]) == w.(now := w.now + pause)
  {
    assert [Wait(pause)][1..] == [];
  }

  /** The first post, held up for a millisecond after the clock was read. */
  lemma FirstPost(now: int) returns (events: seq<Event>)
    ensures var w := Run(Start(now), events);
            && Up(w, 0, 0, now) && w.now == now + 1 && w.next == 1
            && w.posts == [Posting(now, now + 1, now, false, false)]
  {
    var e, f := Outside(Repoint(Some("sessions"))), Ticked(Smooth("monday", 1));
    events := [] + [e] + [f];
    RunStep(now, [], e);
    RunStep(now, [] + [e], f);
    var w := Start(now).(setting := Some("sessions"));
    PausedIs(w.(row := Some(Row("sessions", None, true, None, Some(now), 0, Some(now)))), 1);
  }

  /** Somebody deletes the board: a tick finds it gone, and the next posts it again. */
  lemma Repost(now: int, events: seq<Event>, m: MessageId, reposts: nat, window: int) returns (longer: seq<Event>)
    requires Up(Run(Start(now), events), m, reposts, window)
    requires var t := Run(Start(now), events).now;
             if t - window > REPOST_WINDOW_MS then true else reposts < MAX_REPOSTS_PER_DAY
    ensures var w, w' := Run(Start(now), events), Run(Start(now), longer);
            var over := w.now - window > REPOST_WINDOW_MS;
            var start := if over then w.now else window;
            && Up(w', w.next, if over then 1 else reposts + 1, start)
            && w'.now == w.now && w'.next == w.next + 1
            && w'.posts == w.posts + [Posting(w.now, w.now, start, true, false)]
  {
    var d, f, g := Outside(DeleteByHand(m)), Ticked(Smooth("tuesday", 0)), Ticked(Smooth("monday", 0));
    var w := Run(Start(now), events);
    var w1 := w.(live := w.live - {m});
    var w2 := w1.(row := Some(ClearMessage(w.row.value)), unrecorded := []);
    longer := events + [d] + [f] + [g];
    RunStep(now, events, d);
    RunStep(now, events + [d], f);
    RunStep(now, events + [d] + [f], g);
    GoneTick(w1, m);
    RepostTick(w2, reposts, window);
  }

  lemma GoneTick(w: World, m: MessageId)
    requires w.setting == Some("sessions") && w.row.Some? && m !in w.live
    requires w.row.value.channelId == "sessions" && w.row.value.messageId == Some(m) && !w.row.value.pending
    requires w.row.value.fingerprint == Some(Fingerprint("monday"))
    ensures Tick(w, Smooth("tuesday", 0)).0 == w.(row := Some(ClearMessage(w.row.value)), unrecorded := [])
  {
  }

  lemma RepostTick(w: World, reposts: nat, window: int)
    requires w.setting == Some("sessions") && w.row.Some?
    requires w.row == Some(Row("sessions", None, false, None, w.row.value.postedAt, reposts, Some(window)))
    requires w.now - window > REPOST_WINDOW_MS || reposts < MAX_REPOSTS_PER_DAY
    ensures var w' := Tick(w, Smooth("monday", 0)).0;
            var over := w.now - window > REPOST_WINDOW_MS;
            var start := if over then w.now else window;
            && Up(w', w.next, if over then 1 else reposts + 1, start)
            && w'.now == w.now && w'.next == w.next + 1
            && w'.posts == w.posts + [Posting(w.now, w.now, start, true, false)]
  {
    var (r, s) := Budget(w.row, w.now);
    var marked := Row("sessions", None, true, None, Some(w.now), r, Some(s));
    PausedIs(AfterWrite(w, marked, Stored), 0);
  }

  /** A day's worth of boards: one that opens a window, and three reposts in it. */
  lemma FourPosts(now: int) returns (events: seq<Event>)
    ensures var w := Run(Start(now), events);
            && Up(w, 3, 3, now) && w.now == now + 1 && w.next == 4
            && w.posts == [Posting(now, now + 1, now, false, false), Posting(now + 1, now + 1, now, true, false),
                           Posting(now + 1, now + 1, now, true, false), Posting(now + 1, now + 1, now, true, false)]
  {
    events := FirstPost(now);
    events := Repost(now, events, 0, 0, now);
    events := Repost(now, events, 1, 1, now);
    events := Repost(now, events, 2, 2, now);
  }

  /** And then a day's worth more, a closed day after the second of them. */
  lemma SevenPosts(now: int) returns (events: seq<Event>)
    ensures var (w, window) := (Run(Start(now), events), now + 1 + DAY);
            w.posts == [Posting(now, now + 1, now, false, false), Posting(now + 1, now + 1, now, true, false),
                        Posting(now + 1, now + 1, now, true, false), Posting(now + 1, now + 1, now, true, false),
                        Posting(window, window, window, true, false), Posting(window, window, window, true, false),
                        Posting(window, window, window, true, false)]
  {
    events := FourPosts(now);
    var wait := Outside(Wait(DAY));
    RunStep(now, events, wait);
    events := events + [wait];
    var window := now + 1 + DAY;
    events := Repost(now, events, 3, 3, now);
    events := Repost(now, events, 4, 1, window);
    events := Repost(now, events, 5, 2, window);
  }

  /** Without allowing for the tick the bound fails: seven boards sent within one closed day. */
  lemma SlowTickMakesSeven(now: int) returns (events: seq<Event>)
    ensures var posts := Run(Start(now), events).posts;
            && |posts| == 7 && Prompt(posts, 1)
            && forall i :: 0 <= i < 7 ==> !posts[i].late && now + 1 <= posts[i].sent <= now + 1 + DAY
  {
    events := SevenPosts(now);
  }
}
