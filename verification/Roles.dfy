/** App state to Discord roles (apps/bot/src/roles.ts): which roles a member should hold, and what to
    change. */
module Roles {
  import opened Basics

  type RoleId = string

  datatype ManagedRole =
    | Linked | SessionStaff | Vp | Executives | Competitive | Recreation | Internal | Alumni | External

  const MANAGED_ROLES := [Linked, SessionStaff, Vp, Executives, Competitive, Recreation, Internal, Alumni, External]
  const MEMBERSHIP_ROLES := [Internal, Alumni, External]
  const SWEPT_ROLES := [Linked, SessionStaff, Vp, Executives, Competitive, Recreation]

  datatype Status = IsCompetitive | IsRecreational | PendingApproval | Suspended
  datatype PermissionRole = Finance | Tournaments | InternalVp | ExternalVp | Custom

  datatype MemberState = MemberState(
    status: Status,
    isExec: bool,
    isBanned: bool,
    permissionRole: Option<PermissionRole>,
    capabilities: set<string>)

  const SESSION_STAFF_CAPABILITIES := {"sessions.attendance.write", "sessions.checkin.token.write"}

  predicate IsMembershipRole(role: ManagedRole) {
    role in MEMBERSHIP_ROLES
  }

  /** The sweep covers every managed role but the members' own. */
  lemma SweptAreTheRest(role: ManagedRole)
    ensures role in MANAGED_ROLES
    ensures role in SWEPT_ROLES <==> !IsMembershipRole(role)
  {
    assert MANAGED_ROLES == SWEPT_ROLES + MEMBERSHIP_ROLES;
    assert MANAGED_ROLES[0] == Linked && MANAGED_ROLES[1] == SessionStaff && MANAGED_ROLES[2] == Vp;
    assert MANAGED_ROLES[3] == Executives && MANAGED_ROLES[4] == Competitive && MANAGED_ROLES[5] == Recreation;
    assert MANAGED_ROLES[6] == Internal && MANAGED_ROLES[7] == Alumni && MANAGED_ROLES[8] == External;
    assert SWEPT_ROLES[0] == Linked && SWEPT_ROLES[1] == SessionStaff && SWEPT_ROLES[2] == Vp;
    assert SWEPT_ROLES[3] == Executives && SWEPT_ROLES[4] == Competitive && SWEPT_ROLES[5] == Recreation;
    assert MEMBERSHIP_ROLES[0] == Internal && MEMBERSHIP_ROLES[1] == Alumni && MEMBERSHIP_ROLES[2] == External;
  }

  function DesiredRoles(state: MemberState): set<ManagedRole> {
    if state.isBanned then {Linked} else
    {Linked}
    + (if state.isExec then {Executives} else {})
    + (if state.isExec && state.permissionRole.Some? && state.permissionRole.value != Custom then {Vp} else {})
    + (if SESSION_STAFF_CAPABILITIES <= state.capabilities then {SessionStaff} else {})
    + (if state.status == IsCompetitive then {Competitive} else {})
    + (if state.status == IsRecreational then {Recreation} else {})
  }

  /** What each managed role stands for: a ban leaves `linked` alone, a job needs an executive to hold it, a team
      needs a member who is let in to it, and nobody is given a membership role. */
  lemma RolesAreEarned(state: MemberState, role: ManagedRole)
    ensures role in DesiredRoles(state) <==>
      match role
      case Linked => true
      case Executives => !state.isBanned && state.isExec
      case Vp =>
        && !state.isBanned && state.isExec
        && state.permissionRole in {Some(Finance), Some(Tournaments), Some(InternalVp), Some(ExternalVp)}
      case SessionStaff =>
        && !state.isBanned && "sessions.attendance.write" in state.capabilities
        && "sessions.checkin.token.write" in state.capabilities
      case Competitive => !state.isBanned && state.status == IsCompetitive
      case Recreation => !state.isBanned && state.status == IsRecreational
      case Internal => false
      case Alumni => false
      case External => false
  {
    if role == Vp && state.permissionRole.Some? {
      match state.permissionRole.value
      case _ =>
    }
  }

  /** What the sweep asks for: nothing for somebody who is not linked. */
  function Desired(state: Option<MemberState>): Option<set<ManagedRole>> {
    if state.Some? then Some(DesiredRoles(state.value)) else None
  }

  /** A ban or a tombstone takes the membership roles off as well. */
  predicate Revokes(state: Option<MemberState>) {
    state.None? || state.value.isBanned
  }

  /** One guild's role ids; a role the guild has not configured is absent. */
  type RoleMap = map<ManagedRole, RoleId>

  predicate Configured(roles: RoleMap, role: ManagedRole) {
    role in roles && roles[role] != ""
  }

  predicate Wanted(desired: Option<set<ManagedRole>>, role: ManagedRole) {
    desired.Some? && role in desired.value
  }

  // ---- What a diff is for ----

  /** The ids the member should hold. */
  ghost function WantedIds(desired: Option<set<ManagedRole>>, roles: RoleMap): set<RoleId> {
    set role | role in SWEPT_ROLES && Configured(roles, role) && Wanted(desired, role) :: roles[role]
  }

  /** The ids the member should not hold. */
  ghost function UnwantedIds(desired: Option<set<ManagedRole>>, roles: RoleMap, revoke: bool): set<RoleId> {
    (set role | role in SWEPT_ROLES && Configured(roles, role) && !Wanted(desired, role) :: roles[role])
    + set role | role in MEMBERSHIP_ROLES && Configured(roles, role) && revoke :: roles[role]
  }

  ghost predicate Correct(held: set<RoleId>, desired: Option<set<ManagedRole>>, roles: RoleMap, revoke: bool) {
    WantedIds(desired, roles) <= held && held !! UnwantedIds(desired, roles, revoke)
  }

  /** No id is asked for both ways. */
  ghost predicate Consistent(desired: Option<set<ManagedRole>>, roles: RoleMap, revoke: bool) {
    WantedIds(desired, roles) !! UnwantedIds(desired, roles, revoke)
  }

  // ---- The diff ----

  function ToAdd(rs: seq<ManagedRole>, desired: Option<set<ManagedRole>>, roles: RoleMap, held: set<RoleId>): seq<RoleId> {
    if rs == [] then [] else
    var (before, role) := (rs[..|rs| - 1], rs[|rs| - 1]);
    ToAdd(before, desired, roles, held)
    + if Configured(roles, role) && Wanted(desired, role) && roles[role] !in held then [roles[role]] else []
  }

  function ToRemove(rs: seq<ManagedRole>, desired: Option<set<ManagedRole>>, roles: RoleMap, held: set<RoleId>): seq<RoleId> {
    if rs == [] then [] else
    var (before, role) := (rs[..|rs| - 1], rs[|rs| - 1]);
    ToRemove(before, desired, roles, held)
    + if Configured(roles, role) && !Wanted(desired, role) && roles[role] in held then [roles[role]] else []
  }

  function Additions(desired: Option<set<ManagedRole>>, roles: RoleMap, held: set<RoleId>): seq<RoleId> {
    ToAdd(SWEPT_ROLES, desired, roles, held)
  }

  /** Membership roles are removed by the loop that asks for none of them. */
  function Removals(desired: Option<set<ManagedRole>>, roles: RoleMap, held: set<RoleId>, revoke: bool): seq<RoleId> {
    ToRemove(SWEPT_ROLES, desired, roles, held)
    + if revoke then ToRemove(MEMBERSHIP_ROLES, None, roles, held) else []
  }

  /** `roleDiff` */
  method RoleDiff(desired: Option<set<ManagedRole>>, roles: RoleMap, currentRoleIds: seq<RoleId>, revoke: bool)
    returns (add: seq<RoleId>, remove: seq<RoleId>)
    ensures var held := set id | id in currentRoleIds;
            add == Additions(desired, roles, held) && remove == Removals(desired, roles, held, revoke)
  {
    var held := set id | id in currentRoleIds;
    add, remove := [], [];
    for i := 0 to |SWEPT_ROLES|
      invariant add == ToAdd(SWEPT_ROLES[..i], desired, roles, held)
      invariant remove == ToRemove(SWEPT_ROLES[..i], desired, roles, held)
    {
      var role := SWEPT_ROLES[i];
      assert SWEPT_ROLES[..i + 1][..i] == SWEPT_ROLES[..i];
      if !Configured(roles, role) {
        continue;
      }
      var id := roles[role];
      var shouldHold := desired.Some? && role in desired.value;
      if shouldHold && id !in held {
        add := add + [id];
      }
      if !shouldHold && id in held {
        remove := remove + [id];
      }
    }
    assert SWEPT_ROLES[..|SWEPT_ROLES|] == SWEPT_ROLES;
    if revoke {
      ghost var swept := remove;
      for i := 0 to |MEMBERSHIP_ROLES|
        invariant remove == swept + ToRemove(MEMBERSHIP_ROLES[..i], None, roles, held)
      {
        var role := MEMBERSHIP_ROLES[i];
        assert MEMBERSHIP_ROLES[..i + 1][..i] == MEMBERSHIP_ROLES[..i];
        if Configured(roles, role) && roles[role] in held {
          remove := remove + [roles[role]];
        }
      }
      assert MEMBERSHIP_ROLES[..|MEMBERSHIP_ROLES|] == MEMBERSHIP_ROLES;
    }
  }

  lemma {:induction false} ToAddHolds(rs: seq<ManagedRole>, desired: Option<set<ManagedRole>>, roles: RoleMap, held: set<RoleId>, id: RoleId)
    ensures id in ToAdd(rs, desired, roles, held)
      <==> id !in held && exists role :: role in rs && Configured(roles, role) && Wanted(desired, role) && roles[role] == id
  {
    if rs != [] {
      ToAddHolds(rs[..|rs| - 1], desired, roles, held, id);
      assert rs == rs[..|rs| - 1] + [rs[|rs| - 1]];
    }
  }

  lemma {:induction false} ToRemoveHolds(rs: seq<ManagedRole>, desired: Option<set<ManagedRole>>, roles: RoleMap, held: set<RoleId>, id: RoleId)
    ensures id in ToRemove(rs, desired, roles, held)
      <==> id in held && exists role :: role in rs && Configured(roles, role) && !Wanted(desired, role) && roles[role] == id
  {
    if rs != [] {
      ToRemoveHolds(rs[..|rs| - 1], desired, roles, held, id);
      assert rs == rs[..|rs| - 1] + [rs[|rs| - 1]];
    }
  }

  /** The diff adds exactly the wanted ids that are missing and removes exactly the unwanted ids that
      are held. */
  lemma DiffIsTheDifference(desired: Option<set<ManagedRole>>, roles: RoleMap, held: set<RoleId>, revoke: bool, id: RoleId)
    ensures id in Additions(desired, roles, held) <==> id in WantedIds(desired, roles) - held
    ensures id in Removals(desired, roles, held, revoke) <==> id in UnwantedIds(desired, roles, revoke) * held
  {
    ToAddHolds(SWEPT_ROLES, desired, roles, held, id);
    ToRemoveHolds(SWEPT_ROLES, desired, roles, held, id);
    ToRemoveHolds(MEMBERSHIP_ROLES, None, roles, held, id);
  }

  /** `membershipFromRoles`: the one membership role held, or none when none or several are. */
  method MembershipFromRoles(roles: RoleMap, currentRoleIds: seq<RoleId>) returns (found: Option<ManagedRole>)
    ensures found.Some? <==>
      exists role :: role in MEMBERSHIP_ROLES && Configured(roles, role) && roles[role] in currentRoleIds
        && forall r :: r in MEMBERSHIP_ROLES && r != role && Configured(roles, r) ==> roles[r] !in currentRoleIds
    ensures found.Some? ==>
      && found.value in MEMBERSHIP_ROLES && Configured(roles, found.value)
      && roles[found.value] in currentRoleIds
  {
    found := None;
    for i := 0 to |MEMBERSHIP_ROLES|
      invariant found.None? ==> forall j :: 0 <= j < i && Configured(roles, MEMBERSHIP_ROLES[j])
                                  ==> roles[MEMBERSHIP_ROLES[j]] !in currentRoleIds
      invariant found.Some? ==>
        && found.value in MEMBERSHIP_ROLES[..i] && Configured(roles, found.value)
        && roles[found.value] in currentRoleIds
        && forall j :: 0 <= j < i && MEMBERSHIP_ROLES[j] != found.value && Configured(roles, MEMBERSHIP_ROLES[j])
             ==> roles[MEMBERSHIP_ROLES[j]] !in currentRoleIds
    {
      var role := MEMBERSHIP_ROLES[i];
      if !Configured(roles, role) || roles[role] !in currentRoleIds {
        continue;
      }
      if found.Some? {
        return None;
      }
      found := Some(role);
    }
  }

  // ---- When the sweep can converge ----

  /** Swept roles have ids of their own, and `linked` shares none with a membership role. */
  ghost predicate NoClash(roles: RoleMap) {
    && (forall r, r' :: r in SWEPT_ROLES && r' in SWEPT_ROLES && r != r' && Configured(roles, r) && Configured(roles, r')
          ==> roles[r] != roles[r'])
    && forall r :: r in MEMBERSHIP_ROLES && Configured(roles, r) && Configured(roles, Linked)
         ==> roles[r] != roles[Linked]
  }

  ghost predicate Injective(roles: RoleMap) {
    forall r, r' :: r in roles && r' in roles && r != r' ==> roles[r] != roles[r']
  }

  /** A member who wants `linked` and `role` and nothing else. */
  function OnlyWith(role: ManagedRole): MemberState
    requires role in SWEPT_ROLES && role != Vp
  {
    MemberState(if role == Competitive then IsCompetitive else if role == Recreation then IsRecreational else Suspended,
                role == Executives, role == Linked, None,
                if role == SessionStaff then SESSION_STAFF_CAPABILITIES else {})
  }

  lemma OnlyWithWants(role: ManagedRole)
    requires role in SWEPT_ROLES && role != Vp
    ensures DesiredRoles(OnlyWith(role)) == {Linked, role}
  {
  }

  lemma ClashIsInconsistent(roles: RoleMap, r: ManagedRole, r': ManagedRole, state: MemberState)
    requires r in SWEPT_ROLES && r' in SWEPT_ROLES && Configured(roles, r) && Configured(roles, r') && roles[r] == roles[r']
    requires r in DesiredRoles(state) && r' !in DesiredRoles(state)
    ensures !Consistent(Desired(Some(state)), roles, Revokes(Some(state)))
  {
    var desired := Desired(Some(state));
    assert roles[r] in WantedIds(desired, roles);
    assert roles[r] in UnwantedIds(desired, roles, Revokes(Some(state)));
  }

  lemma NoClashIsConsistent(roles: RoleMap, state: Option<MemberState>)
    requires NoClash(roles)
    ensures Consistent(Desired(state), roles, Revokes(state))
  {
    if state.Some? && state.value.isBanned {
      assert Desired(state) == Some({Linked});
    }
  }

  lemma SweptClash(roles: RoleMap, r: ManagedRole, r': ManagedRole) returns (state: MemberState)
    requires r in SWEPT_ROLES && r' in SWEPT_ROLES && r != r' && r != Vp
    requires Configured(roles, r) && Configured(roles, r') && roles[r] == roles[r']
    ensures !Consistent(Desired(Some(state)), roles, Revokes(Some(state)))
  {
    state := OnlyWith(if r' == Linked then Linked else r);
    if r == Linked || r' == Linked {
      OnlyWithWants(Linked);
      ClashIsInconsistent(roles, Linked, if r == Linked then r' else r, state);
    } else {
      OnlyWithWants(r);
      ClashIsInconsistent(roles, r, r', state);
    }
  }

  lemma LinkedClash(roles: RoleMap, r: ManagedRole)
    requires r in MEMBERSHIP_ROLES && Configured(roles, r) && Configured(roles, Linked) && roles[r] == roles[Linked]
    ensures !Consistent(Desired(Some(OnlyWith(Linked))), roles, Revokes(Some(OnlyWith(Linked))))
  {
    OnlyWithWants(Linked);
    assert roles[Linked] in WantedIds(Desired(Some(OnlyWith(Linked))), roles);
    assert roles[r] in UnwantedIds(Desired(Some(OnlyWith(Linked))), roles, true);
  }

  /** A guild's map asks for something possible of every member exactly when no ids clash. */
  lemma ConsistentForAllIffNoClash(roles: RoleMap)
    ensures NoClash(roles)
      <==> forall state: Option<MemberState> :: Consistent(Desired(state), roles, Revokes(state))
  {
    if NoClash(roles) {
      forall state: Option<MemberState> ensures Consistent(Desired(state), roles, Revokes(state)) {
        NoClashIsConsistent(roles, state);
      }
    } else if r, r' :| r in SWEPT_ROLES && r' in SWEPT_ROLES && r != r' && Configured(roles, r) && Configured(roles, r')
                       && roles[r] == roles[r'] {
      var state := SweptClash(roles, if r == Vp then r' else r, if r == Vp then r else r');
    } else {
      var r :| r in MEMBERSHIP_ROLES && Configured(roles, r) && Configured(roles, Linked) && roles[r] == roles[Linked];
      LinkedClash(roles, r);
    }
  }

  lemma InjectiveHasNoClash(roles: RoleMap)
    requires Injective(roles)
    ensures NoClash(roles)
  {
  }
}
