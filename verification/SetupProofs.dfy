/** What /setup's plan promises: every role placed once, ids never shared, nothing left to make. */
module SetupProofs {
  import opened Basics
  import opened Roles
  import opened Setup

  function Times(rs: seq<ManagedRole>, r: ManagedRole): nat {
    if rs == [] then 0 else Times(rs[..|rs| - 1], r) + if rs[|rs| - 1] == r then 1 else 0
  }

  function TimesMatched(ms: seq<MatchedRole>, r: ManagedRole): nat {
    if ms == [] then 0 else TimesMatched(ms[..|ms| - 1], r) + if ms[|ms| - 1].role == r then 1 else 0
  }

  function TimesAmbiguous(ms: seq<AmbiguousRole>, r: ManagedRole): nat {
    if ms == [] then 0 else TimesAmbiguous(ms[..|ms| - 1], r) + if ms[|ms| - 1].role == r then 1 else 0
  }

  function TimesUnusable(ms: seq<UnusableRole>, r: ManagedRole): nat {
    if ms == [] then 0 else TimesUnusable(ms[..|ms| - 1], r) + if ms[|ms| - 1].role == r then 1 else 0
  }

  /** How often the plan's four lists speak of a role. */
  function Mentions(plan: SetupPlan, r: ManagedRole): nat {
    TimesMatched(plan.matched, r) + Times(plan.toCreate, r) + TimesAmbiguous(plan.ambiguous, r)
    + TimesUnusable(plan.unusable, r)
  }

  lemma MatchedGrows(plan: SetupPlan, m: MatchedRole, r: ManagedRole)
    ensures Mentions(plan.(matched := plan.matched + [m]), r) == Mentions(plan, r) + if m.role == r then 1 else 0
  {
    assert (plan.matched + [m])[..|plan.matched|] == plan.matched;
  }

  lemma CreatedGrows(plan: SetupPlan, role: ManagedRole, r: ManagedRole)
    ensures Mentions(plan.(toCreate := plan.toCreate + [role]), r) == Mentions(plan, r) + if role == r then 1 else 0
  {
    assert (plan.toCreate + [role])[..|plan.toCreate|] == plan.toCreate;
  }

  lemma AmbiguousGrows(plan: SetupPlan, m: AmbiguousRole, r: ManagedRole)
    ensures Mentions(plan.(ambiguous := plan.ambiguous + [m]), r) == Mentions(plan, r) + if m.role == r then 1 else 0
  {
    assert (plan.ambiguous + [m])[..|plan.ambiguous|] == plan.ambiguous;
  }

  lemma UnusableGrows(plan: SetupPlan, m: UnusableRole, r: ManagedRole)
    ensures Mentions(plan.(unusable := plan.unusable + [m]), r) == Mentions(plan, r) + if m.role == r then 1 else 0
  {
    assert (plan.unusable + [m])[..|plan.unusable|] == plan.unusable;
  }

  lemma PlacedOnce(plan: SetupPlan, managed: ManagedRole, candidates: seq<DiscordRole>, botPosition: int, r: ManagedRole)
    ensures Mentions(Placed(plan, managed, candidates, botPosition), r)
         == Mentions(plan, r) + if managed == r then 1 else 0
  {
    var plan' := Placed(plan, managed, candidates, botPosition);
    if candidates == [] {
      CreatedGrows(plan, managed, r);
      assert plan' == plan.(toCreate := plan.toCreate + [managed]);
      return;
    }
    if |candidates| > 1 {
      AmbiguousGrows(plan, AmbiguousRole(managed, Names(candidates)), r);
      return;
    }
    var role := candidates[0];
    if role.managed || role.position >= botPosition {
      UnusableGrows(plan, UnusableRole(managed, role.name, if role.managed then DiscordManaged else AboveBot), r);
    } else {
      MatchedGrows(plan, MatchedRole(managed, role.id, role.name), r);
    }
  }

  lemma {:induction false} PlanMentions(rs: seq<ManagedRole>, name: Naming, existing: seq<DiscordRole>, botPosition: int,
                                        r: ManagedRole)
    ensures Mentions(PlanFor(rs, name, existing, botPosition), r) == Times(rs, r)
  {
    if rs != [] {
      var (before, role) := (rs[..|rs| - 1], rs[|rs| - 1]);
      PlanMentions(before, name, existing, botPosition, r);
      PlacedOnce(PlanFor(before, name, existing, botPosition), role, Candidates(existing, Normalize(name(role))),
                 botPosition, r);
    }
  }

  lemma {:induction false} OnceWhenDistinct(rs: seq<ManagedRole>, r: ManagedRole)
    requires Distinct(rs)
    ensures Times(rs, r) == if r in rs then 1 else 0
  {
    if rs != [] {
      OnceWhenDistinct(rs[..|rs| - 1], r);
      assert rs == rs[..|rs| - 1] + [rs[|rs| - 1]];
    }
  }

  /** Every managed role is in exactly one of the plan's four lists, once. */
  lemma PlanCoversOnce(name: Naming, existing: seq<DiscordRole>, botPosition: int, r: ManagedRole)
    ensures Mentions(PlanFor(MANAGED_ROLES, name, existing, botPosition), r) == 1
  {
    PlanMentions(MANAGED_ROLES, name, existing, botPosition, r);
    ManagedDistinct();
    OnceWhenDistinct(MANAGED_ROLES, r);
    SweptAreTheRest(r);
  }

  ghost predicate DistinctIds(existing: seq<DiscordRole>) {
    forall i, j :: 0 <= i < j < |existing| ==> existing[i].id != existing[j].id
  }

  lemma {:induction false} CandidatesAreExactly(existing: seq<DiscordRole>, key: string, role: DiscordRole)
    ensures role in Candidates(existing, key)
      <==> role in existing && role.name != "@everyone" && Normalize(role.name) == key
  {
    if existing != [] {
      CandidatesAreExactly(existing[..|existing| - 1], key, role);
      assert existing == existing[..|existing| - 1] + [existing[|existing| - 1]];
    }
  }

  /** The guild has exactly this one usable role under the managed name. */
  predicate Adoptable(candidates: seq<DiscordRole>, botPosition: int, m: MatchedRole) {
    |candidates| == 1 && candidates[0].id == m.id && candidates[0].name == m.name
    && !candidates[0].managed && candidates[0].position < botPosition
  }

  lemma PlacedIsExact(plan: SetupPlan, managed: ManagedRole, candidates: seq<DiscordRole>, botPosition: int, m: MatchedRole)
    ensures var plan' := Placed(plan, managed, candidates, botPosition);
            && (m in plan'.matched <==> m in plan.matched || (m.role == managed && Adoptable(candidates, botPosition, m)))
            && (m.role in plan'.toCreate <==> m.role in plan.toCreate || (m.role == managed && candidates == []))
  {
  }

  lemma {:induction false} MatchedIsExact(rs: seq<ManagedRole>, name: Naming, existing: seq<DiscordRole>,
                                          botPosition: int, m: MatchedRole)
    ensures m in PlanFor(rs, name, existing, botPosition).matched
      <==> m.role in rs && Adoptable(Candidates(existing, Normalize(name(m.role))), botPosition, m)
  {
    if rs != [] {
      var (before, role) := (rs[..|rs| - 1], rs[|rs| - 1]);
      MatchedIsExact(before, name, existing, botPosition, m);
      var plan := PlanFor(before, name, existing, botPosition);
      PlacedIsExact(plan, role, Candidates(existing, Normalize(name(role))), botPosition, m);
      assert m.role in rs <==> m.role in before || m.role == role;
    }
  }

  lemma {:induction false} CreatedIsExact(rs: seq<ManagedRole>, name: Naming, existing: seq<DiscordRole>,
                                          botPosition: int, m: MatchedRole)
    ensures m.role in PlanFor(rs, name, existing, botPosition).toCreate
      <==> m.role in rs && Candidates(existing, Normalize(name(m.role))) == []
  {
    if rs != [] {
      var (before, role) := (rs[..|rs| - 1], rs[|rs| - 1]);
      CreatedIsExact(before, name, existing, botPosition, m);
      var plan := PlanFor(before, name, existing, botPosition);
      PlacedIsExact(plan, role, Candidates(existing, Normalize(name(role))), botPosition, m);
      assert m.role in rs <==> m.role in before || m.role == role;
    }
  }

  /** A role is matched exactly when the guild has one usable role of its name, created exactly when it
      has none. */
  lemma PlanIsExact(rs: seq<ManagedRole>, name: Naming, existing: seq<DiscordRole>, botPosition: int, m: MatchedRole)
    ensures m in PlanFor(rs, name, existing, botPosition).matched
      <==> m.role in rs && Adoptable(Candidates(existing, Normalize(name(m.role))), botPosition, m)
    ensures m.role in PlanFor(rs, name, existing, botPosition).toCreate
      <==> m.role in rs && Candidates(existing, Normalize(name(m.role))) == []
  {
    MatchedIsExact(rs, name, existing, botPosition, m);
    CreatedIsExact(rs, name, existing, botPosition, m);
  }

  /** The one role of that name is Discord's own, or it stands at or above the bot. */
  predicate Unfit(candidates: seq<DiscordRole>, botPosition: int, u: UnusableRole) {
    && |candidates| == 1 && u.name == candidates[0].name
    && if u.reason == DiscordManaged then candidates[0].managed
       else !candidates[0].managed && botPosition <= candidates[0].position
  }

  /** There are several, and these are their names. */
  predicate Several(candidates: seq<DiscordRole>, a: AmbiguousRole) {
    && |a.names| == |candidates| > 1
    && forall i :: 0 <= i < |candidates| ==> a.names[i] == candidates[i].name
  }

  lemma PlacedIsExplained(plan: SetupPlan, managed: ManagedRole, candidates: seq<DiscordRole>, botPosition: int,
                          u: UnusableRole, a: AmbiguousRole)
    ensures
      var placed := Placed(plan, managed, candidates, botPosition);
      && (u in placed.unusable <==> u in plan.unusable || (u.role == managed && Unfit(candidates, botPosition, u)))
      && (a in placed.ambiguous <==> a in plan.ambiguous || (a.role == managed && Several(candidates, a)))
  {
    if |candidates| > 1 && a.role == managed && Several(candidates, a) {
      assert a.names == Names(candidates);
    }
  }

  /** A role is refused, for this reason, exactly when the one role of its name is Discord's own or too high, and
      left to be chosen exactly when several have its name. */
  lemma {:induction false} RefusalsAreExact(rs: seq<ManagedRole>, name: Naming, existing: seq<DiscordRole>, botPosition: int,
                                            u: UnusableRole, a: AmbiguousRole)
    ensures
      var plan := PlanFor(rs, name, existing, botPosition);
      && (u in plan.unusable <==> u.role in rs && Unfit(Candidates(existing, Normalize(name(u.role))), botPosition, u))
      && (a in plan.ambiguous <==> a.role in rs && Several(Candidates(existing, Normalize(name(a.role))), a))
  {
    if rs != [] {
      var before, role := rs[..|rs| - 1], rs[|rs| - 1];
      RefusalsAreExact(before, name, existing, botPosition, u, a);
      PlacedIsExplained(PlanFor(before, name, existing, botPosition), role, Candidates(existing, Normalize(name(role))),
                        botPosition, u, a);
      assert rs == before + [role];
    }
  }

  /** In a guild whose role ids are distinct no id is matched to two managed roles. */
  lemma MatchedIdsAreDistinct(name: Naming, existing: seq<DiscordRole>, botPosition: int, m: MatchedRole, m': MatchedRole)
    requires DistinctIds(existing) && Proper(name)
    requires m in PlanFor(MANAGED_ROLES, name, existing, botPosition).matched
    requires m' in PlanFor(MANAGED_ROLES, name, existing, botPosition).matched
    ensures m.id == m'.id ==> m == m'
  {
    PlanIsExact(MANAGED_ROLES, name, existing, botPosition, m);
    PlanIsExact(MANAGED_ROLES, name, existing, botPosition, m');
    var role := Candidates(existing, Normalize(name(m.role)))[0];
    var role' := Candidates(existing, Normalize(name(m'.role)))[0];
    CandidatesAreExactly(existing, Normalize(name(m.role)), role);
    CandidatesAreExactly(existing, Normalize(name(m'.role)), role');
  }

  // ---- After the missing roles are made ----

  /** The roles /setup asks Discord for, with the ids and places it gave them. */
  function Made(toCreate: seq<ManagedRole>, name: Naming, ids: seq<RoleId>, positions: seq<int>): seq<DiscordRole>
    requires |ids| == |positions| == |toCreate|
  {
    seq(|toCreate|, i requires 0 <= i < |toCreate| => DiscordRole(ids[i], name(toCreate[i]), positions[i], false))
  }

  /** The same roles; their places may shift, but not past the bot. */
  ghost predicate SameRoles(existing: seq<DiscordRole>, bot: int, existing': seq<DiscordRole>, bot': int) {
    |existing'| == |existing|
    && forall i :: 0 <= i < |existing| ==>
         existing'[i] == existing[i].(position := existing'[i].position)
         && (existing'[i].position < bot' <==> existing[i].position < bot)
  }

  lemma {:induction false} SameCandidates(existing: seq<DiscordRole>, bot: int, existing': seq<DiscordRole>, bot': int, key: string)
    requires SameRoles(existing, bot, existing', bot')
    ensures SameRoles(Candidates(existing, key), bot, Candidates(existing', key), bot')
  {
    if existing != [] {
      SameCandidates(existing[..|existing| - 1], bot, existing'[..|existing| - 1], bot', key);
    }
  }

  lemma {:induction false} CandidatesAppend(existing: seq<DiscordRole>, made: seq<DiscordRole>, key: string)
    ensures Candidates(existing + made, key) == Candidates(existing, key) + Candidates(made, key)
  {
    if made == [] {
      assert existing + made == existing;
    } else {
      CandidatesAppend(existing, made[..|made| - 1], key);
      assert (existing + made)[..|existing + made| - 1] == existing + made[..|made| - 1];
    }
  }

  lemma LastCandidate(toCreate: seq<ManagedRole>, name: Naming, ids: seq<RoleId>, positions: seq<int>, role: ManagedRole)
    requires |ids| == |positions| == |toCreate| && toCreate != [] && Proper(name)
    ensures
      var n, made := |toCreate| - 1, Made(toCreate, name, ids, positions);
      Candidates(made, Normalize(name(role))) ==
        Candidates(Made(toCreate[..n], name, ids[..n], positions[..n]), Normalize(name(role)))
        + if toCreate[n] == role then [made[n]] else []
  {
    var n, made := |toCreate| - 1, Made(toCreate, name, ids, positions);
    assert made[..n] == Made(toCreate[..n], name, ids[..n], positions[..n]);
  }

  /** What was made for this role. */
  function CarriedBy(toCreate: seq<ManagedRole>, made: seq<DiscordRole>, role: ManagedRole): seq<DiscordRole>
    requires |made| == |toCreate|
  {
    if toCreate == [] then []
    else
      var n := |toCreate| - 1;
      CarriedBy(toCreate[..n], made[..n], role) + if toCreate[n] == role then [made[n]] else []
  }

  lemma {:induction false} CandidatesAreMade(toCreate: seq<ManagedRole>, name: Naming, ids: seq<RoleId>, positions: seq<int>, role: ManagedRole)
    requires |ids| == |positions| == |toCreate| && Proper(name)
    ensures
      var made := Made(toCreate, name, ids, positions);
      Candidates(made, Normalize(name(role))) == CarriedBy(toCreate, made, role)
  {
    if toCreate != [] {
      var n, made := |toCreate| - 1, Made(toCreate, name, ids, positions);
      CandidatesAreMade(toCreate[..n], name, ids[..n], positions[..n], role);
      LastCandidate(toCreate, name, ids, positions, role);
      assert made[..n] == Made(toCreate[..n], name, ids[..n], positions[..n]);
    }
  }

  lemma {:induction false} CarriedOnce(toCreate: seq<ManagedRole>, made: seq<DiscordRole>, role: ManagedRole)
    requires |made| == |toCreate| && Distinct(toCreate)
    ensures role !in toCreate ==> CarriedBy(toCreate, made, role) == []
    ensures forall i :: 0 <= i < |toCreate| && toCreate[i] == role ==> CarriedBy(toCreate, made, role) == [made[i]]
  {
    if toCreate != [] {
      var n := |toCreate| - 1;
      CarriedOnce(toCreate[..n], made[..n], role);
      assert toCreate == toCreate[..n] + [toCreate[n]];
    }
  }

  /** Of the roles just made, one carries each created name and none another managed name. */
  lemma MadeCandidates(toCreate: seq<ManagedRole>, name: Naming, ids: seq<RoleId>, positions: seq<int>, role: ManagedRole)
    requires |ids| == |positions| == |toCreate| && Distinct(toCreate) && Proper(name)
    ensures role !in toCreate ==> Candidates(Made(toCreate, name, ids, positions), Normalize(name(role))) == []
    ensures forall i :: 0 <= i < |toCreate| && toCreate[i] == role
              ==> Candidates(Made(toCreate, name, ids, positions), Normalize(name(role))) == [Made(toCreate, name, ids, positions)[i]]
  {
    CandidatesAreMade(toCreate, name, ids, positions, role);
    CarriedOnce(toCreate, Made(toCreate, name, ids, positions), role);
  }

  ghost predicate Distinct(rs: seq<ManagedRole>) {
    forall i, j :: 0 <= i < j < |rs| ==> rs[i] != rs[j]
  }

  lemma {:induction false} CreatedOnce(rs: seq<ManagedRole>, name: Naming, existing: seq<DiscordRole>, botPosition: int)
    requires Distinct(rs)
    ensures Distinct(PlanFor(rs, name, existing, botPosition).toCreate)
    ensures forall r :: r in PlanFor(rs, name, existing, botPosition).toCreate ==> r in rs
  {
    if rs != [] {
      var (before, role) := (rs[..|rs| - 1], rs[|rs| - 1]);
      CreatedOnce(before, name, existing, botPosition);
      assert rs == before + [role];
      var created := PlanFor(before, name, existing, botPosition).toCreate;
      var created' := PlanFor(rs, name, existing, botPosition).toCreate;
      assert role !in created;
      assert created' == created || created' == created + [role];
    }
  }

  /** The second plan sees the same candidates, and one more for each role created. */
  lemma SecondCandidates(name: Naming, existing: seq<DiscordRole>, bot: int, existing': seq<DiscordRole>, bot': int,
                         toCreate: seq<ManagedRole>, ids: seq<RoleId>, positions: seq<int>, role: ManagedRole)
    requires SameRoles(existing, bot, existing', bot') && |ids| == |positions| == |toCreate| && Distinct(toCreate)
    requires Proper(name)
    ensures var now := Candidates(existing' + Made(toCreate, name, ids, positions), Normalize(name(role)));
            var before := Candidates(existing', Normalize(name(role)));
            && SameRoles(Candidates(existing, Normalize(name(role))), bot, before, bot')
            && (role !in toCreate ==> now == before)
            && forall i :: 0 <= i < |toCreate| && toCreate[i] == role
                 ==> now == before + [DiscordRole(ids[i], name(role), positions[i], false)]
  {
    SameCandidates(existing, bot, existing', bot', Normalize(name(role)));
    CandidatesAppend(existing', Made(toCreate, name, ids, positions), Normalize(name(role)));
    MadeCandidates(toCreate, name, ids, positions, role);
  }

  ghost predicate MadeFor(toCreate: seq<ManagedRole>, name: Naming, ids: seq<RoleId>, m: MatchedRole)
    requires |ids| == |toCreate|
  {
    exists i :: 0 <= i < |ids| && m == MatchedRole(toCreate[i], ids[i], name(toCreate[i]))
  }

  /** After everything missing was made below the bot, a second plan makes nothing and adopts exactly
      the roles the first one matched and the ones made for it. */
  lemma SecondPlanAdopts(name: Naming, existing: seq<DiscordRole>, bot: int, existing': seq<DiscordRole>, bot': int,
                         ids: seq<RoleId>, positions: seq<int>, m: MatchedRole)
    requires SameRoles(existing, bot, existing', bot') && Proper(name)
    requires var toCreate := PlanFor(MANAGED_ROLES, name, existing, bot).toCreate;
             |ids| == |positions| == |toCreate| && forall i :: 0 <= i < |positions| ==> positions[i] < bot'
    ensures var plan := PlanFor(MANAGED_ROLES, name, existing, bot);
            var plan' := PlanFor(MANAGED_ROLES, name, existing' + Made(plan.toCreate, name, ids, positions), bot');
            && m.role !in plan'.toCreate
            && (m in plan'.matched <==> (m in plan.matched || MadeFor(plan.toCreate, name, ids, m)))
  {
    var toCreate := PlanFor(MANAGED_ROLES, name, existing, bot).toCreate;
    ManagedDistinct();
    CreatedOnce(MANAGED_ROLES, name, existing, bot);
    SweptAreTheRest(m.role);
    SecondCandidates(name, existing, bot, existing', bot', toCreate, ids, positions, m.role);
    PlanIsExact(MANAGED_ROLES, name, existing, bot, m);
    PlanIsExact(MANAGED_ROLES, name, existing' + Made(toCreate, name, ids, positions), bot', m);
    if m.role in toCreate {
      OnlyMadeFor(toCreate, name, ids, m);
    }
  }

  lemma OnlyMadeFor(toCreate: seq<ManagedRole>, name: Naming, ids: seq<RoleId>, m: MatchedRole)
    requires |ids| == |toCreate| && Distinct(toCreate) && m.role in toCreate
    ensures exists i ::
              && 0 <= i < |toCreate| && toCreate[i] == m.role
              && (MadeFor(toCreate, name, ids, m) <==> m == MatchedRole(m.role, ids[i], name(m.role)))
  {
    var i :| 0 <= i < |toCreate| && toCreate[i] == m.role;
    if MadeFor(toCreate, name, ids, m) {
      var j :| 0 <= j < |ids| && m == MatchedRole(toCreate[j], ids[j], name(toCreate[j]));
      assert i == j;
    }
  }

  lemma ManagedDistinct()
    ensures Distinct(MANAGED_ROLES)
  {
  }

  // ---- The map /setup writes ----

  /** `roles[r.role] = r.id`, over what was matched and then what was made. */
  function Resolved(resolved: seq<MatchedRole>): RoleMap {
    if resolved == [] then map[]
    else Resolved(resolved[..|resolved| - 1])[resolved[|resolved| - 1].role := resolved[|resolved| - 1].id]
  }

  lemma {:induction false} ResolvedComesFrom(resolved: seq<MatchedRole>, role: ManagedRole)
    requires role in Resolved(resolved)
    ensures exists m :: m in resolved && m.role == role && m.id == Resolved(resolved)[role]
  {
    var n := |resolved| - 1;
    if resolved[n].role != role {
      ResolvedComesFrom(resolved[..n], role);
      var m :| m in resolved[..n] && m.role == role && m.id == Resolved(resolved[..n])[role];
      assert m in resolved;
    } else {
      assert resolved[n] in resolved;
    }
  }

  /** Discord gives a new role an id of its own: the map /setup writes never gives two managed roles one
      id, so no sweep over it can alternate. */
  lemma SetupMapIsInjective(name: Naming, existing: seq<DiscordRole>, bot: int, made: seq<MatchedRole>)
    requires DistinctIds(existing) && Proper(name)
    requires forall i, j :: 0 <= i < j < |made| ==> made[i].id != made[j].id
    requires forall m, r :: m in made && r in existing ==> m.id != r.id
    ensures var roles := Resolved(PlanFor(MANAGED_ROLES, name, existing, bot).matched + made);
            Injective(roles) && NoClash(roles)
  {
    var matched := PlanFor(MANAGED_ROLES, name, existing, bot).matched;
    var roles := Resolved(matched + made);
    forall r, r' | r in roles && r' in roles && r != r' ensures roles[r] != roles[r'] {
      ResolvedComesFrom(matched + made, r);
      ResolvedComesFrom(matched + made, r');
      var m :| m in matched + made && m.role == r && m.id == roles[r];
      var m' :| m' in matched + made && m'.role == r' && m'.id == roles[r'];
      OriginsDiffer(name, existing, bot, made, m, m');
    }
    InjectiveHasNoClash(roles);
  }

  lemma OriginsDiffer(name: Naming, existing: seq<DiscordRole>, bot: int, made: seq<MatchedRole>, m: MatchedRole, m': MatchedRole)
    requires DistinctIds(existing) && Proper(name) && m.role != m'.role
    requires forall i, j :: 0 <= i < j < |made| ==> made[i].id != made[j].id
    requires forall k, r :: k in made && r in existing ==> k.id != r.id
    requires m in PlanFor(MANAGED_ROLES, name, existing, bot).matched + made
    requires m' in PlanFor(MANAGED_ROLES, name, existing, bot).matched + made
    ensures m.id != m'.id
  {
    var matched := PlanFor(MANAGED_ROLES, name, existing, bot).matched;
    if m in matched {
      MatchedExists(name, existing, bot, m);
    }
    if m' in matched {
      MatchedExists(name, existing, bot, m');
    }
    if m in matched && m' in matched {
      MatchedIdsAreDistinct(name, existing, bot, m, m');
    }
  }

  lemma MatchedExists(name: Naming, existing: seq<DiscordRole>, bot: int, m: MatchedRole)
    requires m in PlanFor(MANAGED_ROLES, name, existing, bot).matched
    ensures exists r :: r in existing && r.id == m.id
  {
    PlanIsExact(MANAGED_ROLES, name, existing, bot, m);
    var role := Candidates(existing, Normalize(name(m.role)))[0];
    CandidatesAreExactly(existing, Normalize(name(m.role)), role);
    assert role in existing;
  }
}
