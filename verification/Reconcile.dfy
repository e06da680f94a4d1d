/** Applying a diff in one guild, in every guild, and for every member (apps/bot/src/sync.ts,
    apps/bot/src/reconcile.ts). */
module Reconcile {
  import opened Basics
  import opened Roles
  import opened RoleSync

  type GuildId = string
  type UserId = string
  datatype Key = Key(guild: GuildId, user: UserId)

  /** What the environment answers to one call. `Missing` is a 404: the member left, or the role is
      gone from the guild. */
  datatype Reply = ReplyOk | ReplyForbidden | ReplyMissing(left: bool) | ReplyFailed(landed: bool)

  datatype Logged = Logged(key: Key, call: Call, result: CallResult)

  datatype Counts = Counts(added: nat, removed: nat, forbidden: nat, failed: nat)

  datatype SyncOutcome = SyncOutcome(
    guildId: GuildId, counts: Counts, absent: bool, membership: Option<ManagedRole>)

  datatype LinkedMember = LinkedMember(discordUserId: UserId, state: Option<MemberState>)

  datatype MemberChange = MemberChange(discordUserId: UserId, counts: Counts)

  datatype SweepSummary = SweepSummary(
    cleared: seq<UserId>, changes: seq<MemberChange>, members: nat, counts: Counts, absent: nat)

  /** What one member's sync returned, or that it threw. */
  datatype Attempt = Returned(outcomes: seq<SyncOutcome>) | Unexpected

  const ZERO := Counts(0, 0, 0, 0)

  function Plus(a: Counts, b: Counts): Counts {
    Counts(a.added + b.added, a.removed + b.removed, a.forbidden + b.forbidden, a.failed + b.failed)
  }

  function One(call: Call, result: CallResult): Counts {
    match result
    case CallOk => if call.AddRole? then Counts(1, 0, 0, 0) else Counts(0, 1, 0, 0)
    case Forbidden => Counts(0, 0, 1, 0)
    case NotFound => ZERO
    case CallFailed(_) => Counts(0, 0, 0, 1)
  }

  /** The counts a log of calls adds up to. */
  function Tally(log: seq<Logged>): Counts {
    if log == [] then ZERO else
    Plus(Tally(log[..|log| - 1]), One(log[|log| - 1].call, log[|log| - 1].result))
  }

  predicate Quiet(c: Counts) {
    c.forbidden == 0 && c.failed == 0
  }

  function CallsOf(log: seq<Logged>): seq<Call> {
    seq(|log|, i requires 0 <= i < |log| => log[i].call)
  }

  /** Discord: who is in which guild with which roles, and every role call made. The n-th call gets the
      n-th reply. */
  class DiscordApi {
    var members: map<Key, set<RoleId>>
    var log: seq<Logged>
    const replies: nat -> Reply

    constructor (members: map<Key, set<RoleId>>, replies: nat -> Reply)
      ensures this.members == members && this.replies == replies && log == []
    {
      this.members, this.replies, log := members, replies, [];
    }

    function Held(key: Key): set<RoleId>
      reads this
    {
      if key in members then members[key] else {}
    }

    /** `getMemberRoles`: a 404 is a member who is not in the guild. */
    method GetMemberRoles(key: Key) returns (roles: Option<seq<RoleId>>)
      ensures roles.Some? <==> key in members
      ensures roles.Some? ==> (set id | id in roles.value) == members[key]
    {
      if key !in members {
        return None;
      }
      var ids := Listed(members[key]);
      roles := Some(ids);
    }

    /** `addRole` and `removeRole` */
    method RoleCall(key: Key, call: Call) returns (result: CallResult)
      modifies this
      ensures log == old(log) + [Logged(key, call, result)]
      ensures members - {key} == old(members) - {key} && (key in members ==> key in old(members))
      ensures key in members ==> members[key] == Applied(old(members)[key], call, result)
      ensures key in old(members) && !result.NotFound? ==> key in members
    {
      var reply := replies(|log|);
      if key !in members {
        result := NotFound;
      } else {
        result := match reply
                  case ReplyOk => CallOk
                  case ReplyForbidden => Forbidden
                  case ReplyMissing(_) => NotFound
                  case ReplyFailed(landed) => CallFailed(landed);
        if reply.ReplyMissing? && reply.left {
          members := members - {key};
        } else {
          members := members[key := Applied(members[key], call, result)];
        }
      }
      log := log + [Logged(key, call, result)];
    }
  }

  lemma TallyGrows(log: seq<Logged>, entry: Logged)
    ensures Tally(log + [entry]) == Plus(Tally(log), One(entry.call, entry.result))
  {
    assert (log + [entry])[..|log|] == log;
  }

  /** The member left, or holds nothing of `ids`. */
  ghost predicate Rid(members: map<Key, set<RoleId>>, key: Key, ids: set<RoleId>) {
    key in members ==> members[key] !! ids
  }

  /** Unless something was refused or failed, the calls still to make take every unwanted id off. */
  ghost predicate Pending(goal: Goal, members: map<Key, set<RoleId>>, key: Key, calls: seq<Call>, counts: Counts) {
    Quiet(counts) && key in members ==>
      forall id :: id in goal.Unwanted() && id in members[key] ==> RemoveRole(id) in calls
  }

  /** `after` is `before` but for one member's entry, which at most goes. */
  ghost predicate OnlyTouches(before: map<Key, set<RoleId>>, after: map<Key, set<RoleId>>, key: Key) {
    after - {key} == before - {key} && (key in after ==> key in before)
  }

  /** Ids the goal does not speak of are as they were. */
  ghost predicate Apart(goal: Goal, held: set<RoleId>, held': set<RoleId>) {
    forall id :: id !in goal.Wanted() && id !in goal.Unwanted() ==> (id in held' <==> id in held)
  }

  ghost predicate OthersStay(goal: Goal, before: map<Key, set<RoleId>>, members: map<Key, set<RoleId>>, key: Key) {
    key in members && key in before ==> Apart(goal, before[key], members[key])
  }

  /** What the calls still to make achieve, whatever has been answered so far. */
  ghost predicate Promising(goal: Goal, rest: seq<Call>, made: nat, counts: Counts, members: map<Key, set<RoleId>>, key: Key) {
    && Pending(goal, members, key, rest, counts)
    && (AllOk(counts, made) ==> key in members && Covers(goal, members[key], Running(rest, true)))
  }

  /** The first calls of the queue have been made, and are accounted for. */
  ghost predicate Underway(goal: Goal, queue: seq<Call>, made: seq<Logged>, counts: Counts,
                           before: map<Key, set<RoleId>>, members: map<Key, set<RoleId>>, key: Key) {
    && |made| <= |queue|
    && CallsOf(made) == queue[..|made|]
    && counts == Tally(made)
    && OnlyTouches(before, members, key) && OthersStay(goal, before, members, key)
    && (goal.Possible() ==> Promising(goal, queue[|made|..], |made|, counts, members, key))
  }

  /** `ids`, as the calls that add or remove them, come next in the queue, and all serve the goal. */
  ghost predicate Next(goal: Goal, queue: seq<Call>, from: nat, ids: seq<RoleId>, adding: bool) {
    && from + |ids| <= |queue|
    && forall i :: 0 <= i < |ids| ==> queue[from + i] == ToCall(ids[i], adding) && Towards(goal, ToCall(ids[i], adding))
  }

  function ToCall(id: RoleId, adding: bool): Call {
    if adding then AddRole(id) else RemoveRole(id)
  }

  /** Every one of `n` calls was answered ok. */
  predicate AllOk(counts: Counts, n: nat) {
    counts.added + counts.removed == n
  }

  lemma CallKeepsPending(goal: Goal, before: map<Key, set<RoleId>>, after: map<Key, set<RoleId>>, key: Key,
                         calls: seq<Call>, counts: Counts, result: CallResult)
    requires calls != [] && goal.Possible() && Towards(goal, calls[0])
    requires Pending(goal, before, key, calls, counts)
    requires key in after ==> key in before && after[key] == Applied(before[key], calls[0], result)
    ensures Pending(goal, after, key, calls[1..], Plus(counts, One(calls[0], result)))
  {
    assert calls == [calls[0]] + calls[1..];
  }

  lemma CallKeepsCover(goal: Goal, before: set<RoleId>, calls: seq<Call>, result: CallResult)
    requires calls != [] && goal.Possible() && Towards(goal, calls[0]) && result.CallOk?
    requires Covers(goal, before, Running(calls, true))
    ensures Covers(goal, Applied(before, calls[0], result), Running(calls[1..], true))
  {
    assert calls == [calls[0]] + calls[1..];
  }

  lemma {:induction false} TallyIsBounded(log: seq<Logged>)
    ensures Tally(log).added + Tally(log).removed <= |log|
  {
    if log != [] {
      TallyIsBounded(log[..|log| - 1]);
    }
  }

  lemma OneMoreMade(queue: seq<Call>, made: seq<Logged>, entry: Logged)
    requires |made| < |queue| && queue[|made|] == entry.call && CallsOf(made) == queue[..|made|]
    ensures CallsOf(made + [entry]) == queue[..|made + [entry]|]
    ensures queue[|made|..][1..] == queue[|made + [entry]|..] && queue[|made|..][0] == entry.call
  {
    assert queue[..|made| + 1] == queue[..|made|] + [queue[|made|]];
    assert CallsOf(made + [entry]) == CallsOf(made) + [entry.call];
  }

  lemma CallIsPromising(goal: Goal, rest: seq<Call>, made: nat, counts: Counts,
                        before: map<Key, set<RoleId>>, after: map<Key, set<RoleId>>, key: Key, result: CallResult)
    requires goal.Possible() && rest != [] && Towards(goal, rest[0])
    requires Promising(goal, rest, made, counts, before, key) && counts.added + counts.removed <= made
    requires OnlyTouches(before, after, key)
    requires key in after ==> after[key] == Applied(before[key], rest[0], result)
    requires key in before && !result.NotFound? ==> key in after
    ensures Promising(goal, rest[1..], made + 1, Plus(counts, One(rest[0], result)), after, key)
  {
    CallKeepsPending(goal, before, after, key, rest, counts, result);
    if AllOk(counts, made) && result.CallOk? {
      CallKeepsCover(goal, before[key], rest, result);
    }
  }

  lemma CallIsUnderway(goal: Goal, queue: seq<Call>, made: seq<Logged>, counts: Counts, start: map<Key, set<RoleId>>,
                       before: map<Key, set<RoleId>>, after: map<Key, set<RoleId>>, key: Key, entry: Logged)
    requires Underway(goal, queue, made, counts, start, before, key)
    requires |made| < |queue| && queue[|made|] == entry.call && Towards(goal, entry.call)
    requires OnlyTouches(before, after, key)
    requires key in after ==> after[key] == Applied(before[key], entry.call, entry.result)
    requires key in before && !entry.result.NotFound? ==> key in after
    ensures Underway(goal, queue, made + [entry], Plus(counts, One(entry.call, entry.result)), start, after, key)
  {
    TallyGrows(made, entry);
    OneMoreMade(queue, made, entry);
    TallyIsBounded(made);
    OtherIdsStay(goal, start, before, after, key, entry.call, entry.result);
    if goal.Possible() {
      CallIsPromising(goal, queue[|made|..], |made|, counts, before, after, key, entry.result);
    }
  }

  lemma OtherIdsStay(goal: Goal, start: map<Key, set<RoleId>>, before: map<Key, set<RoleId>>, after: map<Key, set<RoleId>>,
                     key: Key, call: Call, result: CallResult)
    requires OthersStay(goal, start, before, key) && Towards(goal, call)
    requires OnlyTouches(before, after, key)
    requires key in after ==> after[key] == Applied(before[key], call, result)
    ensures OthersStay(goal, start, after, key)
  {
  }

  /** The diff is queued: its additions first, then its removals. */
  lemma QueueStarts(goal: Goal, members: map<Key, set<RoleId>>, key: Key)
    requires key in members
    ensures var queue := Queue(goal, members[key]);
            var add := Additions(goal.desired, goal.roles, members[key]);
            var remove := Removals(goal.desired, goal.roles, members[key], goal.revoke);
            && |queue| == |add| + |remove|
            && Next(goal, queue, 0, add, true) && Next(goal, queue, |add|, remove, false)
            && Underway(goal, queue, [], ZERO, members, members, key)
  {
    var queue := Queue(goal, members[key]);
    var add := Additions(goal.desired, goal.roles, members[key]);
    QueueIsTheDiff(goal, members[key]);
    assert queue[0..] == queue;
    forall i | 0 <= i < |queue| ensures Towards(goal, queue[i]) {
      assert queue[i] in queue;
      assert queue[i] == AddRole(queue[i].id) || queue[i] == RemoveRole(queue[i].id);
    }
  }

  /** From position `from` of the log come the calls of one sync: the diff against what the member held, in
      order, and the counts are how they were answered. Ids the goal does not speak of are as they were; when
      nothing was refused or failed the member holds no unwanted id, and when all were answered ok the goal is
      met. */
  ghost predicate Done(goal: Goal, held: set<RoleId>, log: seq<Logged>, from: nat, counts: Counts,
                       members: map<Key, set<RoleId>>, key: Key) {
    var n := |Queue(goal, held)|;
    && from + n <= |log|
    && CallsOf(log[from..from + n]) == Queue(goal, held) && counts == Tally(log[from..from + n])
    && (key in members ==> Apart(goal, held, members[key]))
    && (goal.Possible() && Quiet(counts) ==> Rid(members, key, goal.Unwanted()))
    && (goal.Possible() && AllOk(counts, n) ==> key in members && goal.Met(members[key]))
  }

  /** What one sync came to: the read failed, or the member is not there, or the diff was made. `start` is what
      the member held. */
  ghost predicate Synced(goal: Goal, start: Option<set<RoleId>>, unreadable: set<GuildId>, outcome: SyncOutcome,
                         log: seq<Logged>, members: map<Key, set<RoleId>>, key: Key) {
    && outcome.guildId == key.guild
    && (outcome.absent <==> key.guild !in unreadable && start.None?)
    && if key.guild in unreadable then outcome.counts == Counts(0, 0, 0, 1) && outcome.membership.None?
       else if start.None? then outcome.counts == ZERO && outcome.membership.None? && key !in members
       else
         && MembershipIs(goal.roles, start.value, outcome.membership)
         && exists from: nat :: Done(goal, start.value, log, from, outcome.counts, members, key)
  }

  /** The one membership role held, if exactly one is. */
  ghost predicate MembershipIs(roles: RoleMap, held: set<RoleId>, found: Option<ManagedRole>) {
    match found
    case Some(role) =>
      && role in MEMBERSHIP_ROLES && Configured(roles, role) && roles[role] in held
      && forall r :: r in MEMBERSHIP_ROLES && r != role && Configured(roles, r) ==> roles[r] !in held
    case None =>
      forall role :: role in MEMBERSHIP_ROLES && Configured(roles, role) && roles[role] in held ==>
        exists r :: r in MEMBERSHIP_ROLES && r != role && Configured(roles, r) && roles[r] in held
  }

  function HeldBy(members: map<Key, set<RoleId>>, key: Key): Option<set<RoleId>> {
    if key in members then Some(members[key]) else None
  }

  /** Later calls about others change nothing of it. */
  lemma StillSynced(goal: Goal, start: Option<set<RoleId>>, unreadable: set<GuildId>, outcome: SyncOutcome,
                    log: seq<Logged>, more: seq<Logged>, before: map<Key, set<RoleId>>, after: map<Key, set<RoleId>>, key: Key)
    requires Synced(goal, start, unreadable, outcome, log, before, key)
    requires HeldBy(after, key) == HeldBy(before, key)
    ensures Synced(goal, start, unreadable, outcome, log + more, after, key)
  {
    if key.guild !in unreadable && start.Some? {
      var from: nat :| Done(goal, start.value, log, from, outcome.counts, before, key);
      var n := |Queue(goal, start.value)|;
      assert (log + more)[from..from + n] == log[from..from + n];
      assert Done(goal, start.value, log + more, from, outcome.counts, after, key);
    }
  }

  lemma SyncedIsRid(goal: Goal, start: Option<set<RoleId>>, unreadable: set<GuildId>, outcome: SyncOutcome,
                    log: seq<Logged>, members: map<Key, set<RoleId>>, key: Key)
    requires Synced(goal, start, unreadable, outcome, log, members, key) && goal.Possible() && Quiet(outcome.counts)
    ensures Rid(members, key, goal.Unwanted())
  {
  }

  /** `syncMemberInGuild`. The calls made are the diff, in order, and the counts are how they were
      answered. When nothing was refused or failed the member holds no unwanted id. */
  method SyncMemberInGuild(api: DiscordApi, guildId: GuildId, user: UserId, goal: Goal, unreadable: set<GuildId>)
    returns (outcome: SyncOutcome)
    modifies api
    ensures guildId in unreadable || outcome.absent ==> api.log == old(api.log) && api.members == old(api.members)
    ensures OnlyTouches(old(api.members), api.members, Key(guildId, user))
    ensures guildId !in unreadable && Key(guildId, user) in old(api.members) ==>
      exists made :: api.log == old(api.log) + made
        && CallsOf(made) == Queue(goal, old(api.members)[Key(guildId, user)]) && outcome.counts == Tally(made)
    ensures old(api.log) <= api.log
    ensures Synced(goal, HeldBy(old(api.members), Key(guildId, user)), unreadable, outcome, api.log, api.members,
                   Key(guildId, user))
  {
    var key := Key(guildId, user);
    if guildId in unreadable {
      return SyncOutcome(guildId, Counts(0, 0, 0, 1), false, None);
    }
    var current := api.GetMemberRoles(key);
    if current.None? {
      return SyncOutcome(guildId, ZERO, true, None);
    }
    var membership := MembershipFromRoles(goal.roles, current.value);
    MembershipRead(goal.roles, current.value, membership);
    var counts;
    ghost var made;
    counts, made := MakeDiff(api, key, goal, current.value);
    assert old(api.log) + made == api.log;
    MadeIsDone(goal, old(api.members)[key], old(api.log), made, counts, api.members, key);
    outcome := SyncOutcome(guildId, counts, false, membership);
  }

  lemma MembershipRead(roles: RoleMap, ids: seq<RoleId>, found: Option<ManagedRole>)
    requires found.Some? <==>
      exists role :: role in MEMBERSHIP_ROLES && Configured(roles, role) && roles[role] in ids
        && forall r :: r in MEMBERSHIP_ROLES && r != role && Configured(roles, r) ==> roles[r] !in ids
    requires found.Some? ==> found.value in MEMBERSHIP_ROLES && Configured(roles, found.value) && roles[found.value] in ids
    ensures MembershipIs(roles, (set id | id in ids), found)
  {
  }

  lemma {:induction false} MadeIsDone(goal: Goal, held: set<RoleId>, log: seq<Logged>, made: seq<Logged>, counts: Counts,
                   members: map<Key, set<RoleId>>, key: Key)
    requires CallsOf(made) == Queue(goal, held) && counts == Tally(made)
    requires key in members ==> Apart(goal, held, members[key])
    requires goal.Possible() && Quiet(counts) ==> Rid(members, key, goal.Unwanted())
    requires goal.Possible() && AllOk(counts, |made|) ==> key in members && goal.Met(members[key])
    ensures Done(goal, held, log + made, |log|, counts, members, key)
  {
    assert |CallsOf(made)| == |made|;
    assert (log + made)[|log|..|log| + |made|] == made;
  }

  /** The diff, and the calls that make it. */
  method MakeDiff(api: DiscordApi, key: Key, goal: Goal, currentRoleIds: seq<RoleId>)
    returns (counts: Counts, ghost made: seq<Logged>)
    requires key in api.members && api.members[key] == set id | id in currentRoleIds
    modifies api
    ensures api.log == old(api.log) + made
    ensures CallsOf(made) == Queue(goal, old(api.members)[key]) && counts == Tally(made)
    ensures OnlyTouches(old(api.members), api.members, key) && OthersStay(goal, old(api.members), api.members, key)
    ensures goal.Possible() && Quiet(counts) ==> Rid(api.members, key, goal.Unwanted())
    ensures goal.Possible() && AllOk(counts, |made|) ==> key in api.members && goal.Met(api.members[key])
  {
    var add, remove := RoleDiff(goal.desired, goal.roles, currentRoleIds, goal.revoke);
    ghost var queue := Queue(goal, api.members[key]);
    QueueStarts(goal, api.members, key);
    counts, made := ApplyDiff(api, key, goal, queue, add, remove);
    AllMade(goal, queue, made, counts, old(api.members), api.members, key);
  }

  lemma AllMade(goal: Goal, queue: seq<Call>, made: seq<Logged>, counts: Counts,
                before: map<Key, set<RoleId>>, members: map<Key, set<RoleId>>, key: Key)
    requires Underway(goal, queue, made, counts, before, members, key) && |made| == |queue|
    ensures CallsOf(made) == queue && counts == Tally(made)
    ensures OnlyTouches(before, members, key) && OthersStay(goal, before, members, key)
    ensures goal.Possible() && Quiet(counts) ==> Rid(members, key, goal.Unwanted())
    ensures goal.Possible() && AllOk(counts, |made|) ==> key in members && goal.Met(members[key])
  {
    assert queue[..|queue|] == queue && queue[|queue|..] == [];
  }

  /** The two call loops: the additions, then the removals. */
  method ApplyDiff(api: DiscordApi, key: Key, ghost goal: Goal, ghost queue: seq<Call>,
                   add: seq<RoleId>, remove: seq<RoleId>)
    returns (counts: Counts, ghost made: seq<Logged>)
    requires |queue| == |add| + |remove|
    requires Next(goal, queue, 0, add, true) && Next(goal, queue, |add|, remove, false)
    requires Underway(goal, queue, [], ZERO, api.members, api.members, key)
    modifies api
    ensures api.log == old(api.log) + made && |made| == |queue|
    ensures Underway(goal, queue, made, counts, old(api.members), api.members, key)
  {
    counts, made := ApplyCalls(api, key, goal, queue, add, true, ZERO, [], api.members);
    counts, made := ApplyCalls(api, key, goal, queue, remove, false, counts, made, old(api.members));
  }

  /** One call loop, one awaited call at a time. */
  method ApplyCalls(api: DiscordApi, key: Key, ghost goal: Goal, ghost queue: seq<Call>, ids: seq<RoleId>,
                    adding: bool, counts: Counts, ghost made: seq<Logged>, ghost start: map<Key, set<RoleId>>)
    returns (counts': Counts, ghost made': seq<Logged>)
    requires Underway(goal, queue, made, counts, start, api.members, key) && Next(goal, queue, |made|, ids, adding)
    modifies api
    ensures |made'| == |made| + |ids| && made'[..|made|] == made && api.log == old(api.log) + made'[|made|..]
    ensures Underway(goal, queue, made', counts', start, api.members, key)
  {
    counts', made' := counts, made;
    for i := 0 to |ids|
      invariant |made'| == |made| + i && made'[..|made|] == made && api.log == old(api.log) + made'[|made|..]
      invariant Underway(goal, queue, made', counts', start, api.members, key)
    {
      ghost var before := api.members;
      var call := ToCall(ids[i], adding);
      var result := api.RoleCall(key, call);
      CallIsUnderway(goal, queue, made', counts', start, before, api.members, key, Logged(key, call, result));
      counts', made' := Plus(counts', One(call, result)), made' + [Logged(key, call, result)];
    }
  }

  // ---- Every guild ----

  /** The registered guilds, in the order the Map holds them. */
  type Registry = seq<(GuildId, RoleMap)>

  ghost predicate DistinctGuilds(registry: Registry) {
    forall i, j :: 0 <= i < j < |registry| ==> registry[i].0 != registry[j].0
  }

  function GoalFor(state: Option<MemberState>, roles: RoleMap): Goal {
    Goal(Desired(state), roles, Revokes(state))
  }

  ghost predicate OthersKept(before: map<Key, set<RoleId>>, after: map<Key, set<RoleId>>, user: UserId) {
    forall key: Key :: key.user != user ==>
      (key in after <==> key in before) && (key in before ==> after[key] == before[key])
  }

  /** Every guild so far, from what the member held there. */
  ghost predicate AllSynced(registry: Registry, outcomes: seq<SyncOutcome>, state: Option<MemberState>, user: UserId,
                            unreadable: set<GuildId>, start: map<Key, set<RoleId>>, log: seq<Logged>,
                            members: map<Key, set<RoleId>>)
    requires |outcomes| <= |registry|
  {
    forall i :: 0 <= i < |outcomes| ==>
      var key := Key(registry[i].0, user);
      Synced(GoalFor(state, registry[i].1), HeldBy(start, key), unreadable, outcomes[i], log, members, key)
  }

  /** The member's entries in the guilds still to come are as they were. */
  ghost predicate Untouched(registry: Registry, n: nat, user: UserId, start: map<Key, set<RoleId>>,
                            members: map<Key, set<RoleId>>) {
    forall i :: n <= i < |registry| ==> HeldBy(members, Key(registry[i].0, user)) == HeldBy(start, Key(registry[i].0, user))
  }

  /** `syncMemberEverywhere` */
  method SyncMemberEverywhere(api: DiscordApi, registry: Registry, user: UserId, state: Option<MemberState>,
                              unreadable: set<GuildId>)
    returns (outcomes: seq<SyncOutcome>)
    requires DistinctGuilds(registry)
    modifies api
    ensures |outcomes| == |registry| && old(api.log) <= api.log
    ensures OthersKept(old(api.members), api.members, user)
    ensures AllSynced(registry, outcomes, state, user, unreadable, old(api.members), api.log, api.members)
  {
    outcomes := [];
    for i := 0 to |registry|
      invariant |outcomes| == i && old(api.log) <= api.log
      invariant OthersKept(old(api.members), api.members, user)
      invariant Untouched(registry, i, user, old(api.members), api.members)
      invariant AllSynced(registry, outcomes, state, user, unreadable, old(api.members), api.log, api.members)
    {
      var (guildId, roles) := registry[i];
      ghost var before, log := api.members, api.log;
      var outcome := SyncMemberInGuild(api, guildId, user, GoalFor(state, roles), unreadable);
      OneMoreGuild(registry, outcomes, outcome, state, user, unreadable, old(api.members), log, api.log, before, api.members);
      OnlyThatKey(before, api.members, Key(guildId, user));
      outcomes := outcomes + [outcome];
    }
  }

  lemma OneMoreGuild(registry: Registry, outcomes: seq<SyncOutcome>, outcome: SyncOutcome, state: Option<MemberState>,
                     user: UserId, unreadable: set<GuildId>, start: map<Key, set<RoleId>>, log: seq<Logged>,
                     log': seq<Logged>, before: map<Key, set<RoleId>>, after: map<Key, set<RoleId>>)
    requires DistinctGuilds(registry) && |outcomes| < |registry| && log <= log'
    requires AllSynced(registry, outcomes, state, user, unreadable, start, log, before)
    requires Untouched(registry, |outcomes|, user, start, before)
    requires OnlyTouches(before, after, Key(registry[|outcomes|].0, user))
    requires
      var key := Key(registry[|outcomes|].0, user);
      Synced(GoalFor(state, registry[|outcomes|].1), HeldBy(before, key), unreadable, outcome, log', after, key)
    ensures AllSynced(registry, outcomes + [outcome], state, user, unreadable, start, log', after)
    ensures Untouched(registry, |outcomes| + 1, user, start, after)
  {
    OnlyThatKey(before, after, Key(registry[|outcomes|].0, user));
    var more := log'[|log|..];
    assert log' == log + more;
    forall i | 0 <= i < |outcomes|
      ensures
        var key := Key(registry[i].0, user);
        Synced(GoalFor(state, registry[i].1), HeldBy(start, key), unreadable, outcomes[i], log', after, key)
    {
      var key := Key(registry[i].0, user);
      StillSynced(GoalFor(state, registry[i].1), HeldBy(start, key), unreadable, outcomes[i], log, more,
                  before, after, key);
    }
  }

  lemma OnlyThatKey(before: map<Key, set<RoleId>>, after: map<Key, set<RoleId>>, key: Key)
    requires OnlyTouches(before, after, key)
    ensures forall k: Key :: k != key ==> (k in after <==> k in before) && (k in before ==> after[k] == before[k])
  {
    forall k: Key | k != key
      ensures (k in after <==> k in before) && (k in before ==> after[k] == before[k])
    {
      assert k in after - {key} <==> k in before - {key};
      assert k in before ==> (before - {key})[k] == before[k];
      assert k in after ==> (after - {key})[k] == after[k];
    }
  }

  // ---- Every member ----

  function TotalOf(outcomes: seq<SyncOutcome>): Counts {
    if outcomes == [] then ZERO else
    Plus(TotalOf(outcomes[..|outcomes| - 1]), outcomes[|outcomes| - 1].counts)
  }

  function AbsentIn(outcomes: seq<SyncOutcome>): nat {
    if outcomes == [] then 0 else
    AbsentIn(outcomes[..|outcomes| - 1]) + if outcomes[|outcomes| - 1].absent then 1 else 0
  }

  function CountsOf(attempt: Attempt): Counts {
    if attempt.Unexpected? then Counts(0, 0, 0, 1) else TotalOf(attempt.outcomes)
  }

  /** `!o.forbidden && !o.failed` in every guild, for a member with no state. */
  predicate ReportsCleared(member: LinkedMember, attempt: Attempt) {
    member.state.None? && attempt.Returned?
    && forall i :: 0 <= i < |attempt.outcomes| ==> Quiet(attempt.outcomes[i].counts)
  }

  function AsChange(user: UserId, counts: Counts): seq<MemberChange> {
    if counts == ZERO then [] else [MemberChange(user, counts)]
  }

  function Changed(member: LinkedMember, attempt: Attempt): seq<MemberChange> {
    AsChange(member.discordUserId, CountsOf(attempt))
  }

  const NOTHING_SWEPT := SweepSummary([], [], 0, ZERO, 0)

  function Summarized(summary: SweepSummary, member: LinkedMember, attempt: Attempt): SweepSummary {
    SweepSummary(
      summary.cleared + (if ReportsCleared(member, attempt) then [member.discordUserId] else []),
      summary.changes + Changed(member, attempt),
      summary.members + 1,
      Plus(summary.counts, CountsOf(attempt)),
      summary.absent + if attempt.Returned? then AbsentIn(attempt.outcomes) else 0)
  }

  function Summary(members: seq<LinkedMember>, attempts: seq<Attempt>): SweepSummary
    requires |attempts| == |members|
  {
    if members == [] then NOTHING_SWEPT else
    Summarized(Summary(members[..|members| - 1], attempts[..|members| - 1]),
               members[|members| - 1], attempts[|members| - 1])
  }

  /** Every id the guild has configured for a managed role. */
  ghost function ManagedIds(roles: RoleMap): set<RoleId> {
    set role | role in roles && roles[role] != "" :: roles[role]
  }

  lemma NobodyWantsATombstone(roles: RoleMap)
    ensures GoalFor(None, roles).Possible() && GoalFor(None, roles).Unwanted() == ManagedIds(roles)
  {
    forall role | role in roles && roles[role] != "" ensures roles[role] in GoalFor(None, roles).Unwanted() {
      SweptAreTheRest(role);
    }
  }

  /** A tombstoned member whose later entries the sweep does not reach. */
  predicate LastOf(members: seq<LinkedMember>, i: nat)
    requires i < |members|
  {
    forall j :: i < j < |members| ==> members[j].discordUserId != members[i].discordUserId
  }

  /** Members reported cleared so far hold nothing managed anywhere. */
  ghost predicate ClearedIsClear(registry: Registry, swept: seq<LinkedMember>, attempts: seq<Attempt>,
                                 held: map<Key, set<RoleId>>)
    requires |attempts| == |swept|
  {
    forall i, g :: 0 <= i < |swept| && ReportsCleared(swept[i], attempts[i]) && LastOf(swept, i) && 0 <= g < |registry|
      ==> Rid(held, Key(registry[g].0, swept[i].discordUserId), ManagedIds(registry[g].1))
  }

  /** In this guild the member's sync went for the goal of the state it was given, whatever was held. */
  ghost predicate SweptIn(guild: (GuildId, RoleMap), member: LinkedMember, unreadable: set<GuildId>, outcome: SyncOutcome,
                          log: seq<Logged>, held: map<Key, set<RoleId>>) {
    exists start: Option<set<RoleId>> ::
      Synced(GoalFor(member.state, guild.1), start, unreadable, outcome, log, held, Key(guild.0, member.discordUserId))
  }

  ghost predicate Swept(registry: Registry, member: LinkedMember, attempt: Attempt, unreadable: set<GuildId>,
                        log: seq<Logged>, held: map<Key, set<RoleId>>) {
    attempt.Returned? ==>
      && |attempt.outcomes| == |registry|
      && forall g :: 0 <= g < |registry| ==>
           SweptIn(registry[g], member, unreadable, attempt.outcomes[g], log, held)
  }

  /** So at every member's last entry. */
  ghost predicate AllSwept(registry: Registry, swept: seq<LinkedMember>, attempts: seq<Attempt>,
                           unreadable: nat -> set<GuildId>, log: seq<Logged>, held: map<Key, set<RoleId>>)
    requires |attempts| == |swept|
  {
    forall i: nat :: i < |swept| && LastOf(swept, i) ==> Swept(registry, swept[i], attempts[i], unreadable(i), log, held)
  }

  lemma SweptStays(registry: Registry, member: LinkedMember, attempt: Attempt, unreadable: set<GuildId>,
                   log: seq<Logged>, log': seq<Logged>, before: map<Key, set<RoleId>>, after: map<Key, set<RoleId>>,
                   other: UserId)
    requires Swept(registry, member, attempt, unreadable, log, before) && log <= log'
    requires OthersKept(before, after, other) && other != member.discordUserId
    ensures Swept(registry, member, attempt, unreadable, log', after)
  {
    if attempt.Returned? {
      forall g | 0 <= g < |registry|
        ensures SweptIn(registry[g], member, unreadable, attempt.outcomes[g], log', after)
      {
        SweptInStays(registry[g], member, unreadable, attempt.outcomes[g], log, log', before, after, other);
      }
    }
  }

  lemma SweptInStays(guild: (GuildId, RoleMap), member: LinkedMember, unreadable: set<GuildId>, outcome: SyncOutcome,
                     log: seq<Logged>, log': seq<Logged>, before: map<Key, set<RoleId>>, after: map<Key, set<RoleId>>,
                     other: UserId)
    requires SweptIn(guild, member, unreadable, outcome, log, before) && log <= log'
    requires OthersKept(before, after, other) && other != member.discordUserId
    ensures SweptIn(guild, member, unreadable, outcome, log', after)
  {
    var goal, key := GoalFor(member.state, guild.1), Key(guild.0, member.discordUserId);
    var start: Option<set<RoleId>> :| Synced(goal, start, unreadable, outcome, log, before, key);
    var more := log'[|log|..];
    assert log' == log + more;
    StillSynced(goal, start, unreadable, outcome, log, more, before, after, key);
  }

  lemma {:induction false} SweptOn(
      registry: Registry, swept: seq<LinkedMember>, attempts: seq<Attempt>, unreadable: nat -> set<GuildId>,
      log: seq<Logged>, log': seq<Logged>, before: map<Key, set<RoleId>>, after: map<Key, set<RoleId>>,
      member: LinkedMember, attempt: Attempt)
    requires |attempts| == |swept| && AllSwept(registry, swept, attempts, unreadable, log, before) && log <= log'
    requires OthersKept(before, after, member.discordUserId)
    requires Swept(registry, member, attempt, unreadable(|swept|), log', after)
    ensures AllSwept(registry, swept + [member], attempts + [attempt], unreadable, log', after)
  {
    var swept' := swept + [member];
    forall i: nat | i < |swept| && LastOf(swept', i)
      ensures Swept(registry, swept[i], attempts[i], unreadable(i), log', after)
    {
      assert swept'[|swept|] == member;
      assert LastOf(swept, i) by {
        assert forall j :: i < j < |swept| ==> swept'[j] == swept[j];
      }
      SweptStays(registry, swept[i], attempts[i], unreadable(i), log, log', before, after, member.discordUserId);
    }
  }

  lemma SweptIsClear(registry: Registry, swept: seq<LinkedMember>, attempts: seq<Attempt>,
                     unreadable: nat -> set<GuildId>, log: seq<Logged>, held: map<Key, set<RoleId>>)
    requires |attempts| == |swept| && AllSwept(registry, swept, attempts, unreadable, log, held)
    ensures ClearedIsClear(registry, swept, attempts, held)
  {
    forall i, g | 0 <= i < |swept| && ReportsCleared(swept[i], attempts[i]) && LastOf(swept, i) && 0 <= g < |registry|
      ensures Rid(held, Key(registry[g].0, swept[i].discordUserId), ManagedIds(registry[g].1))
    {
      var outcome, failed := attempts[i].outcomes[g], unreadable(i);
      assert SweptIn(registry[g], swept[i], failed, outcome, log, held);
      var goal, key := GoalFor(None, registry[g].1), Key(registry[g].0, swept[i].discordUserId);
      var start: Option<set<RoleId>> :| Synced(goal, start, failed, outcome, log, held, key);
      NobodyWantsATombstone(registry[g].1);
      SyncedIsRid(goal, start, failed, outcome, log, held, key);
    }
  }

  /** `reconcile`. `attempts` is what each member's sync came to; the rest of the result is told from it. */
  method RunReconcile(api: DiscordApi, registry: Registry, members: seq<LinkedMember>,
                      unreadable: nat -> set<GuildId>, unexpected: set<nat>)
    returns (summary: SweepSummary, attempts: seq<Attempt>)
    requires DistinctGuilds(registry)
    modifies api
    ensures registry == [] ==>
      summary == NOTHING_SWEPT && attempts == [] && api.members == old(api.members) && api.log == old(api.log)
    ensures registry != [] ==>
      && |attempts| == |members| && summary == Summary(members, attempts)
      && (forall i :: 0 <= i < |members| ==> (attempts[i].Unexpected? <==> i in unexpected))
      && AllSwept(registry, members, attempts, unreadable, api.log, api.members)
      && ClearedIsClear(registry, members, attempts, api.members)
  {
    summary, attempts := NOTHING_SWEPT, [];
    if registry == [] {
      return;
    }
    for i := 0 to |members|
      invariant SweptSoFar(members[..i], unexpected, summary, attempts)
      invariant AllSwept(registry, members[..i], attempts, unreadable, api.log, api.members)
    {
      assert members[..i + 1] == members[..i] + [members[i]];
      summary, attempts := SweepMember(api, registry, members[..i], members[i], i, unreadable, unexpected, summary, attempts);
    }
    assert members[..|members|] == members;
    SweptIsClear(registry, members, attempts, unreadable, api.log, api.members);
  }

  /** So many members have been swept, and are accounted for. */
  ghost predicate SweptSoFar(swept: seq<LinkedMember>, unexpected: set<nat>, summary: SweepSummary,
                             attempts: seq<Attempt>) {
    && |attempts| == |swept|
    && summary == Summary(swept, attempts)
    && forall j :: 0 <= j < |swept| ==> (attempts[j].Unexpected? <==> j in unexpected)
  }

  /** One turn of the loop. */
  method SweepMember(api: DiscordApi, registry: Registry, ghost swept: seq<LinkedMember>, member: LinkedMember, i: nat,
                     unreadable: nat -> set<GuildId>, unexpected: set<nat>, summary: SweepSummary, attempts: seq<Attempt>)
    returns (summary': SweepSummary, attempts': seq<Attempt>)
    requires DistinctGuilds(registry) && i == |swept|
    requires SweptSoFar(swept, unexpected, summary, attempts)
    requires AllSwept(registry, swept, attempts, unreadable, api.log, api.members)
    modifies api
    ensures SweptSoFar(swept + [member], unexpected, summary', attempts')
    ensures AllSwept(registry, swept + [member], attempts', unreadable, api.log, api.members)
  {
    ghost var held, log := api.members, api.log;
    var attempt := Attempted(api, registry, member, unreadable(i), i in unexpected);
    SweptOn(registry, swept, attempts, unreadable, log, api.log, held, api.members, member, attempt);
    summary' := Account(summary, member, attempt);
    attempts' := attempts + [attempt];
    SweptFurther(swept, member, unexpected, summary, attempts, attempt);
  }

  lemma {:induction false} SweptFurther(swept: seq<LinkedMember>, member: LinkedMember, unexpected: set<nat>,
                                        summary: SweepSummary, attempts: seq<Attempt>, attempt: Attempt)
    requires SweptSoFar(swept, unexpected, summary, attempts) && (attempt.Unexpected? <==> |swept| in unexpected)
    ensures SweptSoFar(swept + [member], unexpected, Summarized(summary, member, attempt), attempts + [attempt])
  {
    assert (swept + [member])[..|swept|] == swept && (attempts + [attempt])[..|swept|] == attempts;
  }

  /** The `try` around one member. */
  method Attempted(api: DiscordApi, registry: Registry, member: LinkedMember, unreadable: set<GuildId>, throws: bool)
    returns (attempt: Attempt)
    requires DistinctGuilds(registry)
    modifies api
    ensures attempt.Unexpected? <==> throws
    ensures throws ==> api.members == old(api.members) && api.log == old(api.log)
    ensures old(api.log) <= api.log
    ensures Swept(registry, member, attempt, unreadable, api.log, api.members)
    ensures OthersKept(old(api.members), api.members, member.discordUserId)
  {
    if throws {
      return Unexpected;
    }
    var outcomes := SyncMemberEverywhere(api, registry, member.discordUserId, member.state, unreadable);
    attempt := Returned(outcomes);
    AllSyncedIsSwept(registry, outcomes, member, unreadable, old(api.members), api.log, api.members);
  }

  lemma AllSyncedIsSwept(registry: Registry, outcomes: seq<SyncOutcome>, member: LinkedMember, unreadable: set<GuildId>,
                         start: map<Key, set<RoleId>>, log: seq<Logged>, held: map<Key, set<RoleId>>)
    requires |outcomes| == |registry|
    requires AllSynced(registry, outcomes, member.state, member.discordUserId, unreadable, start, log, held)
    ensures Swept(registry, member, Returned(outcomes), unreadable, log, held)
  {
    forall g | 0 <= g < |registry|
      ensures SweptIn(registry[g], member, unreadable, outcomes[g], log, held)
    {
      var key := Key(registry[g].0, member.discordUserId);
      assert Synced(GoalFor(member.state, registry[g].1), HeldBy(start, key), unreadable, outcomes[g], log, held, key);
    }
  }

  /** What one member adds to the summary. */
  method Account(summary: SweepSummary, member: LinkedMember, attempt: Attempt) returns (s: SweepSummary)
    ensures s == Summarized(summary, member, attempt)
  {
    s := summary.(members := summary.members + 1);
    if attempt.Unexpected? {
      var failed := Counts(0, 0, 0, 1);
      return s.(counts := Plus(s.counts, failed), changes := s.changes + [MemberChange(member.discordUserId, failed)]);
    }
    var change, absent, quiet := AddUp(attempt.outcomes);
    s := s.(counts := Plus(s.counts, change), absent := s.absent + absent);
    if change != ZERO {
      s := s.(changes := s.changes + [MemberChange(member.discordUserId, change)]);
    }
    if member.state.None? && quiet {
      s := s.(cleared := s.cleared + [member.discordUserId]);
    }
  }

  /** The loop over one member's outcomes. */
  method AddUp(outcomes: seq<SyncOutcome>) returns (change: Counts, absent: nat, quiet: bool)
    ensures change == TotalOf(outcomes) && absent == AbsentIn(outcomes)
    ensures quiet <==> forall i :: 0 <= i < |outcomes| ==> Quiet(outcomes[i].counts)
  {
    change, absent, quiet := ZERO, 0, true;
    for i := 0 to |outcomes|
      invariant change == TotalOf(outcomes[..i]) && absent == AbsentIn(outcomes[..i])
      invariant quiet <==> forall j :: 0 <= j < i ==> Quiet(outcomes[j].counts)
    {
      assert outcomes[..i + 1][..i] == outcomes[..i];
      change := Plus(change, outcomes[i].counts);
      absent := absent + if outcomes[i].absent then 1 else 0;
      quiet := quiet && outcomes[i].counts.forbidden == 0 && outcomes[i].counts.failed == 0;
    }
    assert outcomes[..|outcomes|] == outcomes;
  }

  // ---- What the summary says ----

  function ChangeTotal(changes: seq<MemberChange>): Counts {
    if changes == [] then ZERO else Plus(ChangeTotal(changes[..|changes| - 1]), changes[|changes| - 1].counts)
  }

  lemma ChangeTotalGrows(changes: seq<MemberChange>, user: UserId, counts: Counts)
    ensures ChangeTotal(changes + AsChange(user, counts)) == Plus(ChangeTotal(changes), counts)
  {
    if counts == ZERO {
      assert changes + AsChange(user, counts) == changes;
    } else {
      assert (changes + AsChange(user, counts))[..|changes|] == changes;
    }
  }

  /** The totals are the sums over the changes listed. */
  lemma {:induction false} TotalsMatchChanges(members: seq<LinkedMember>, attempts: seq<Attempt>)
    requires |attempts| == |members|
    ensures var summary := Summary(members, attempts);
            summary.counts == ChangeTotal(summary.changes) && summary.members == |members|
  {
    if members != [] {
      var n := |members| - 1;
      TotalsMatchChanges(members[..n], attempts[..n]);
      ChangeTotalGrows(Summary(members[..n], attempts[..n]).changes, members[n].discordUserId, CountsOf(attempts[n]));
    }
  }

  predicate ChangedAt(members: seq<LinkedMember>, attempts: seq<Attempt>, change: MemberChange, i: int)
    requires |attempts| == |members|
  {
    0 <= i < |members| && members[i].discordUserId == change.discordUserId && CountsOf(attempts[i]) == change.counts
  }

  lemma ChangedSooner(members: seq<LinkedMember>, attempts: seq<Attempt>, change: MemberChange)
    requires |attempts| == |members| && members != []
    ensures var n := |members| - 1;
            (exists i :: ChangedAt(members, attempts, change, i))
            <==> (exists i :: ChangedAt(members[..n], attempts[..n], change, i)) || ChangedAt(members, attempts, change, n)
  {
    var n := |members| - 1;
    if i :| ChangedAt(members[..n], attempts[..n], change, i) {
      assert ChangedAt(members, attempts, change, i);
    }
    if i :| ChangedAt(members, attempts, change, i) {
      assert i == n || ChangedAt(members[..n], attempts[..n], change, i);
    }
  }

  /** The changes listed are exactly those of the members something happened to. */
  lemma {:induction false} ChangesAreExact(members: seq<LinkedMember>, attempts: seq<Attempt>, change: MemberChange)
    requires |attempts| == |members|
    ensures change in Summary(members, attempts).changes
      <==> change.counts != ZERO && exists i :: ChangedAt(members, attempts, change, i)
  {
    if members != [] {
      var n := |members| - 1;
      ChangesAreExact(members[..n], attempts[..n], change);
      ChangedSooner(members, attempts, change);
      var before := Summary(members[..n], attempts[..n]).changes;
      assert Summary(members, attempts).changes == before + Changed(members[n], attempts[n]);
    }
  }

  /** The cleared list is exactly the tombstones nothing was refused or failed for. */
  lemma {:induction false} ClearedIsExact(members: seq<LinkedMember>, attempts: seq<Attempt>, user: UserId)
    requires |attempts| == |members|
    ensures user in Summary(members, attempts).cleared
      <==> exists i :: 0 <= i < |members| && members[i].discordUserId == user && ReportsCleared(members[i], attempts[i])
  {
    if members != [] {
      var n := |members| - 1;
      ClearedIsExact(members[..n], attempts[..n], user);
      var before := Summary(members[..n], attempts[..n]).cleared;
      assert Summary(members, attempts).cleared
        == before + if ReportsCleared(members[n], attempts[n]) then [members[n].discordUserId] else [];
    }
  }

  /** The membership roles of a member who is neither banned nor gone are theirs: no goal speaks of them, unless
      the guild gave a swept role the same id. */
  lemma MembershipIsTheirOwn(state: MemberState, roles: RoleMap, role: ManagedRole)
    requires !state.isBanned && role in MEMBERSHIP_ROLES && Configured(roles, role)
    requires forall r :: r in SWEPT_ROLES && Configured(roles, r) ==> roles[r] != roles[role]
    ensures
      var goal := GoalFor(Some(state), roles);
      roles[role] !in goal.Wanted() && roles[role] !in goal.Unwanted()
  {
  }

  /** A banned member whose sync was answered ok throughout is left with `linked` alone of everything
      the guild's map names. */
  lemma BannedKeepsOnlyLinked(state: MemberState, roles: RoleMap, held: set<RoleId>)
    requires state.isBanned && NoClash(roles) && GoalFor(Some(state), roles).Met(held)
    ensures held * ManagedIds(roles) == if Configured(roles, Linked) then {roles[Linked]} else {}
  {
    var goal := GoalFor(Some(state), roles);
    forall role | role in roles && roles[role] != "" && role != Linked ensures roles[role] in goal.Unwanted() {
      SweptAreTheRest(role);
    }
    if Configured(roles, Linked) {
      assert roles[Linked] in goal.Wanted();
    }
  }

  // ---- What the counters count ----

  function Number<T>(items: seq<T>, f: T -> bool): nat {
    if items == [] then 0 else Number(items[..|items| - 1], f) + if f(items[|items| - 1]) then 1 else 0
  }

  function Sum<T>(items: seq<T>, f: T -> nat): nat {
    if items == [] then 0 else Sum(items[..|items| - 1], f) + f(items[|items| - 1])
  }

  predicate AddedOne(e: Logged) {
    e.call.AddRole? && e.result.CallOk?
  }

  predicate RemovedOne(e: Logged) {
    e.call.RemoveRole? && e.result.CallOk?
  }

  predicate WasForbidden(e: Logged) {
    e.result.Forbidden?
  }

  predicate HasFailed(e: Logged) {
    e.result.CallFailed?
  }

  lemma OneIsExact(e: Logged)
    ensures One(e.call, e.result) ==
      Counts(if AddedOne(e) then 1 else 0, if RemovedOne(e) then 1 else 0,
             if WasForbidden(e) then 1 else 0, if HasFailed(e) then 1 else 0)
  {
  }

  /** The calls answered ok, by what they did, those refused and those that failed; a 404 counts as none. */
  lemma {:induction false} TallyIsExact(log: seq<Logged>)
    ensures Tally(log) ==
      Counts(Number(log, AddedOne), Number(log, RemovedOne), Number(log, WasForbidden), Number(log, HasFailed))
  {
    if log != [] {
      TallyIsExact(log[..|log| - 1]);
      OneIsExact(log[|log| - 1]);
    }
  }

  /** Over a member's guilds, and over all sweeps, everything is added up. */
  lemma {:induction false} TotalIsExact(outcomes: seq<SyncOutcome>)
    ensures TotalOf(outcomes).added == Sum(outcomes, (o: SyncOutcome) => o.counts.added)
    ensures TotalOf(outcomes).removed == Sum(outcomes, (o: SyncOutcome) => o.counts.removed)
    ensures TotalOf(outcomes).forbidden == Sum(outcomes, (o: SyncOutcome) => o.counts.forbidden)
    ensures TotalOf(outcomes).failed == Sum(outcomes, (o: SyncOutcome) => o.counts.failed)
    ensures AbsentIn(outcomes) == Number(outcomes, (o: SyncOutcome) => o.absent)
  {
    if outcomes != [] {
      TotalIsExact(outcomes[..|outcomes| - 1]);
    }
  }

  /** A sync that threw is reported as one failure of its member. */
  lemma ThrowsAreReported(members: seq<LinkedMember>, attempts: seq<Attempt>, i: nat)
    requires |attempts| == |members| && i < |members| && attempts[i].Unexpected?
    ensures MemberChange(members[i].discordUserId, Counts(0, 0, 0, 1)) in Summary(members, attempts).changes
  {
    var change := MemberChange(members[i].discordUserId, Counts(0, 0, 0, 1));
    assert ChangedAt(members, attempts, change, i);
    ChangesAreExact(members, attempts, change);
  }

  function AbsencesOf(attempt: Attempt): nat {
    if attempt.Returned? then Number(attempt.outcomes, (o: SyncOutcome) => o.absent) else 0
  }

  lemma {:induction false} AbsencesAreCounted(members: seq<LinkedMember>, attempts: seq<Attempt>)
    requires |attempts| == |members|
    ensures Summary(members, attempts).absent == Sum(attempts, AbsencesOf)
  {
    if members != [] {
      var n := |members| - 1;
      AbsencesAreCounted(members[..n], attempts[..n]);
      if attempts[n].Returned? {
        TotalIsExact(attempts[n].outcomes);
      }
    }
  }
}
