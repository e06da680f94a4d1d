/** Reading the guilds' role maps from their setting (apps/bot/src/roles.ts), after its text is JSON. */
module Registry {
  import opened Basics
  import opened Roles
  import Json

  datatype GuildId = GuildId(id: string)

  datatype Refusal = NotJson | NotAnObject | GuildNotAnObject | UnmanagedRole | NoRoleId

  datatype Result<T> = Parsed(value: T) | Refused(why: Refusal)

  /** The setting: missing or blank, text that is no JSON, or a value. */
  datatype Setting = Blank | Garbled | Holds(value: Json.Value)

  function NameOf(role: ManagedRole): string {
    match role
    case Linked => "linked"
    case SessionStaff => "session_staff"
    case Vp => "vp"
    case Executives => "executives"
    case Competitive => "competitive"
    case Recreation => "recreation"
    case Internal => "internal"
    case Alumni => "alumni"
    case External => "external"
  }

  function RoleNamed(name: string): (role: Option<ManagedRole>)
    ensures forall r: ManagedRole :: role == Some(r) <==> name == NameOf(r)
  {
    match name
    case "linked" => Some(Linked)
    case "session_staff" => Some(SessionStaff)
    case "vp" => Some(Vp)
    case "executives" => Some(Executives)
    case "competitive" => Some(Competitive)
    case "recreation" => Some(Recreation)
    case "internal" => Some(Internal)
    case "alumni" => Some(Alumni)
    case "external" => Some(External)
    case _ => None
  }

  predicate IsRoleId(v: Json.Value) {
    v.Text? && v.text != ""
  }

  function WithEntry(roles: RoleMap, f: Json.Field): Result<RoleMap> {
    if RoleNamed(f.name).None? then Refused(UnmanagedRole)
    else if !IsRoleId(f.value) then Refused(NoRoleId)
    else Parsed(roles[RoleNamed(f.name).value := f.value.text])
  }

  /** One guild's entries, in order; a repeated name keeps its last id. */
  function RoleMapOf(fields: seq<Json.Field>): Result<RoleMap> {
    if fields == [] then Parsed(map[])
    else
      match RoleMapOf(fields[..|fields| - 1])
      case Refused(why) => Refused(why)
      case Parsed(roles) => WithEntry(roles, fields[|fields| - 1])
  }

  type Guilds = map<GuildId, RoleMap>

  function WithGuild(guilds: Guilds, f: Json.Field): Result<Guilds> {
    if !f.value.Object? then Refused(GuildNotAnObject)
    else
      match RoleMapOf(f.value.fields)
      case Refused(why) => Refused(why)
      case Parsed(roles) => Parsed(guilds[GuildId(f.name) := roles])
  }

  function GuildsOf(fields: seq<Json.Field>): Result<Guilds> {
    if fields == [] then Parsed(map[])
    else
      match GuildsOf(fields[..|fields| - 1])
      case Refused(why) => Refused(why)
      case Parsed(guilds) => WithGuild(guilds, fields[|fields| - 1])
  }

  function RegistryOf(s: Setting): Result<Guilds> {
    match s
    case Blank => Parsed(map[])
    case Garbled => Refused(NotJson)
    case Holds(v) => if v.Object? then GuildsOf(v.fields) else Refused(NotAnObject)
  }

  method ParseRoleMap(fields: seq<Json.Field>) returns (r: Result<RoleMap>)
    ensures r == RoleMapOf(fields)
  {
    var roles: RoleMap := map[];
    for i := 0 to |fields|
      invariant RoleMapOf(fields[..i]) == Parsed(roles)
    {
      assert fields[..i + 1][..i] == fields[..i];
      var role := RoleNamed(fields[i].name);
      if role.None? {
        RefusalStays(fields, i + 1);
        return Refused(UnmanagedRole);
      }
      if !fields[i].value.Text? || fields[i].value.text == "" {
        RefusalStays(fields, i + 1);
        return Refused(NoRoleId);
      }
      roles := roles[role.value := fields[i].value.text];
    }
    assert fields[..|fields|] == fields;
    r := Parsed(roles);
  }

  lemma {:induction false} RefusalStays(fields: seq<Json.Field>, n: nat)
    requires n <= |fields| && RoleMapOf(fields[..n]).Refused?
    ensures RoleMapOf(fields) == RoleMapOf(fields[..n])
    decreases |fields|
  {
    if n == |fields| {
      assert fields[..n] == fields;
    } else {
      assert fields[..|fields| - 1][..n] == fields[..n];
      RefusalStays(fields[..|fields| - 1], n);
    }
  }

  lemma {:induction false} GuildRefusalStays(fields: seq<Json.Field>, n: nat)
    requires n <= |fields| && GuildsOf(fields[..n]).Refused?
    ensures GuildsOf(fields) == GuildsOf(fields[..n])
    decreases |fields|
  {
    if n == |fields| {
      assert fields[..n] == fields;
    } else {
      assert fields[..|fields| - 1][..n] == fields[..n];
      GuildRefusalStays(fields[..|fields| - 1], n);
    }
  }

  method ParseGuildRegistry(s: Setting) returns (r: Result<Guilds>)
    ensures r == RegistryOf(s)
  {
    if s.Blank? {
      return Parsed(map[]);
    }
    if s.Garbled? {
      return Refused(NotJson);
    }
    if !s.value.Object? {
      return Refused(NotAnObject);
    }
    var fields := s.value.fields;
    var guilds: Guilds := map[];
    for i := 0 to |fields|
      invariant GuildsOf(fields[..i]) == Parsed(guilds)
    {
      assert fields[..i + 1][..i] == fields[..i];
      if !fields[i].value.Object? {
        GuildRefusalStays(fields, i + 1);
        return Refused(GuildNotAnObject);
      }
      var roles := ParseRoleMap(fields[i].value.fields);
      if roles.Refused? {
        GuildRefusalStays(fields, i + 1);
        return Refused(roles.why);
      }
      guilds := guilds[GuildId(fields[i].name) := roles.value];
    }
    assert fields[..|fields|] == fields;
    r := Parsed(guilds);
  }

  // ----- what is accepted -----

  predicate Proper(f: Json.Field) {
    RoleNamed(f.name).Some? && IsRoleId(f.value)
  }

  /** A guild's entries are accepted exactly when each names a managed role and holds an id, whatever ids. */
  lemma {:induction false} AcceptedIffProper(fields: seq<Json.Field>)
    ensures RoleMapOf(fields).Parsed? <==> forall f :: f in fields ==> Proper(f)
  {
    if fields != [] {
      var before, last := fields[..|fields| - 1], fields[|fields| - 1];
      assert fields == before + [last];
      AcceptedIffProper(before);
      LastIsAccepted(before, last);
      assert forall f :: f in fields <==> f in before || f == last;
    }
  }

  lemma LastIsAccepted(before: seq<Json.Field>, last: Json.Field)
    ensures RoleMapOf(before + [last]).Parsed? <==> RoleMapOf(before).Parsed? && Proper(last)
  {
    assert (before + [last])[..|before|] == before;
  }

  function Written(rs: seq<ManagedRole>, roles: RoleMap): seq<Json.Field> {
    if rs == [] then []
    else
      var before, r := rs[..|rs| - 1], rs[|rs| - 1];
      Written(before, roles) + if r in roles then [Json.Field(NameOf(r), Json.Text(roles[r]))] else []
  }

  ghost predicate Identified(roles: RoleMap) {
    forall r :: r in roles ==> roles[r] != ""
  }

  lemma {:induction false} WrittenReads(rs: seq<ManagedRole>, roles: RoleMap)
    requires Identified(roles)
    ensures RoleMapOf(Written(rs, roles)) == Parsed(map r | r in roles && r in rs :: roles[r])
  {
    if rs == [] {
      assert (map r | r in roles && r in rs :: roles[r]) == map[];
    } else {
      var before, r := rs[..|rs| - 1], rs[|rs| - 1];
      WrittenReads(before, roles);
      assert rs == before + [r];
      var read := map x | x in roles && x in before :: roles[x];
      if r in roles {
        var f := Json.Field(NameOf(r), Json.Text(roles[r]));
        assert (Written(before, roles) + [f])[..|Written(before, roles)|] == Written(before, roles);
        assert WithEntry(read, f) == Parsed(read[r := roles[r]]);
        assert read[r := roles[r]] == map x | x in roles && x in rs :: roles[x];
      } else {
        assert Written(rs, roles) == Written(before, roles) + [] == Written(before, roles);
        assert read == map x | x in roles && x in rs :: roles[x];
      }
    }
  }

  /** Every role map with an id for each role it names can be configured, ids that clash included. */
  lemma EveryMapIsAccepted(roles: RoleMap)
    requires Identified(roles)
    ensures RoleMapOf(Written(MANAGED_ROLES, roles)) == Parsed(roles)
  {
    WrittenReads(MANAGED_ROLES, roles);
    forall r | r in roles ensures r in MANAGED_ROLES {
      SweptAreTheRest(r);
    }
    assert roles == map r | r in roles && r in MANAGED_ROLES :: roles[r];
  }
}
