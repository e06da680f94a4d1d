/** What a setting says, field by field, and what the registry makes of it. */
module RegistryProofs {
  import opened Basics
  import opened Roles
  import opened Registry
  import Json

  const ROLE_NAMES := {"linked", "session_staff", "vp", "executives", "competitive", "recreation",
                       "internal", "alumni", "external"}

  lemma NamesAreManaged(name: string)
    ensures name in ROLE_NAMES <==> RoleNamed(name).Some?
  {
    if RoleNamed(name).Some? {
      assert name == NameOf(RoleNamed(name).value);
    }
  }

  /** An entry that assigns a nonempty id to a managed role. */
  predicate Assigns(f: Json.Field) {
    f.name in ROLE_NAMES && f.value.Text? && f.value.text != ""
  }

  /** A guild's field: an object of such entries. */
  ghost predicate IsGuild(f: Json.Field) {
    f.value.Object? && forall k :: 0 <= k < |f.value.fields| ==> Assigns(f.value.fields[k])
  }

  /** Of the fields of this name, the last. */
  ghost predicate LastNamed(fields: seq<Json.Field>, k: nat, name: string) {
    && k < |fields| && fields[k].name == name
    && forall j :: k < j < |fields| ==> fields[j].name != name
  }

  ghost predicate Names(fields: seq<Json.Field>, name: string) {
    exists k :: 0 <= k < |fields| && fields[k].name == name
  }

  // ----- one guild -----

  lemma AssigningIsProper(f: Json.Field)
    ensures Assigns(f) <==> Proper(f)
  {
    NamesAreManaged(f.name);
  }

  lemma EntriesParse(fields: seq<Json.Field>)
    ensures RoleMapOf(fields).Parsed? <==> forall k :: 0 <= k < |fields| ==> Assigns(fields[k])
  {
    AcceptedIffProper(fields);
    forall k | 0 <= k < |fields| ensures Assigns(fields[k]) <==> Proper(fields[k]) {
      AssigningIsProper(fields[k]);
    }
  }

  lemma EntryReads(before: seq<Json.Field>, last: Json.Field, role: ManagedRole)
    requires RoleMapOf(before + [last]).Parsed?
    ensures RoleMapOf(before).Parsed?
    ensures
      var roles, roles' := RoleMapOf(before).value, RoleMapOf(before + [last]).value;
      if last.name == NameOf(role) then last.value.Text? && role in roles' && roles'[role] == last.value.text
      else (role in roles' <==> role in roles) && (role in roles ==> roles'[role] == roles[role])
  {
    assert (before + [last])[..|before|] == before;
    assert RoleNamed(last.name) == Some(role) <==> last.name == NameOf(role);
  }

  lemma NamesAppend(before: seq<Json.Field>, last: Json.Field, name: string)
    ensures Names(before + [last], name) <==> Names(before, name) || last.name == name
  {
    var fields := before + [last];
    if Names(before, name) {
      var k :| 0 <= k < |before| && before[k].name == name;
      assert fields[k].name == name;
    }
    if last.name == name {
      assert fields[|before|].name == name;
    }
  }

  lemma LastNamedInit(before: seq<Json.Field>, last: Json.Field, k: nat, name: string)
    ensures LastNamed(before + [last], k, name) <==>
      if last.name == name then k == |before| else LastNamed(before, k, name)
  {
    var fields := before + [last];
    assert fields[|before|] == last;
    assert forall j :: 0 <= j < |before| ==> fields[j] == before[j];
  }

  /** A role is mapped exactly when some entry names it, and to the id of the last. */
  lemma {:induction false} EntriesRead(fields: seq<Json.Field>, role: ManagedRole, name: string, k: nat)
    requires RoleMapOf(fields).Parsed? && name == NameOf(role)
    ensures role in RoleMapOf(fields).value <==> Names(fields, name)
    ensures LastNamed(fields, k, name) ==>
      && fields[k].value.Text? && role in RoleMapOf(fields).value
      && RoleMapOf(fields).value[role] == fields[k].value.text
  {
    if fields != [] {
      var before, last := fields[..|fields| - 1], fields[|fields| - 1];
      assert fields == before + [last];
      EntryReads(before, last, role);
      EntriesRead(before, role, name, k);
      NamesAppend(before, last, name);
      LastNamedInit(before, last, k, name);
    }
  }

  /** The complaint about the first entry that assigns nothing. */
  lemma {:induction false} EntriesComplain(fields: seq<Json.Field>, k: nat)
    requires k < |fields| && !Assigns(fields[k]) && forall j :: 0 <= j < k ==> Assigns(fields[j])
    ensures RoleMapOf(fields) == Refused(if fields[k].name !in ROLE_NAMES then UnmanagedRole else NoRoleId)
  {
    EntriesParse(fields[..k]);
    NamesAreManaged(fields[k].name);
    assert fields[..k + 1][..k] == fields[..k];
    RefusalStays(fields, k + 1);
  }

  // ----- all guilds -----

  lemma FieldParses(guilds: Guilds, f: Json.Field)
    ensures WithGuild(guilds, f).Parsed? <==> IsGuild(f)
  {
    if f.value.Object? {
      EntriesParse(f.value.fields);
    }
  }

  lemma {:induction false} FieldsParse(fields: seq<Json.Field>)
    ensures GuildsOf(fields).Parsed? <==> forall i :: 0 <= i < |fields| ==> IsGuild(fields[i])
  {
    if fields != [] {
      var before, last := fields[..|fields| - 1], fields[|fields| - 1];
      FieldsParse(before);
      if GuildsOf(before).Parsed? {
        FieldParses(GuildsOf(before).value, last);
      }
      assert forall i :: 0 <= i < |before| ==> before[i] == fields[i];
    }
  }

  lemma FieldReads(before: seq<Json.Field>, last: Json.Field, g: GuildId)
    requires GuildsOf(before + [last]).Parsed?
    ensures GuildsOf(before).Parsed? && last.value.Object?
    ensures
      var guilds, guilds' := GuildsOf(before).value, GuildsOf(before + [last]).value;
      if GuildId(last.name) == g then g in guilds' && RoleMapOf(last.value.fields) == Parsed(guilds'[g])
      else (g in guilds' <==> g in guilds) && (g in guilds ==> guilds'[g] == guilds[g])
  {
    assert (before + [last])[..|before|] == before;
  }

  /** Of the fields of one name the last is read. */
  lemma {:induction false} FieldsRead(fields: seq<Json.Field>, id: string, i: nat)
    requires GuildsOf(fields).Parsed?
    ensures GuildId(id) in GuildsOf(fields).value <==> Names(fields, id)
    ensures LastNamed(fields, i, id) ==>
      && fields[i].value.Object? && GuildId(id) in GuildsOf(fields).value
      && RoleMapOf(fields[i].value.fields) == Parsed(GuildsOf(fields).value[GuildId(id)])
  {
    if fields != [] {
      var before, last := fields[..|fields| - 1], fields[|fields| - 1];
      assert fields == before + [last];
      FieldReads(before, last, GuildId(id));
      FieldsRead(before, id, i);
      NamesAppend(before, last, id);
      LastNamedInit(before, last, i, id);
    }
  }

  /** A setting that holds an object is accepted exactly when every field is a guild's; its guilds are then
      the names of the fields. */
  lemma RegistryParses(fields: seq<Json.Field>, id: string)
    ensures
      var r := RegistryOf(Holds(Json.Object(fields)));
      && (r.Parsed? <==> forall i :: 0 <= i < |fields| ==> IsGuild(fields[i]))
      && (r.Parsed? ==> (GuildId(id) in r.value <==> Names(fields, id)))
  {
    FieldsParse(fields);
    if GuildsOf(fields).Parsed? {
      FieldsRead(fields, id, 0);
    }
  }

  /** Then a guild has a role exactly when an entry of its last field names it, and the id is that of the last
      such entry. */
  lemma RegistryReads(fields: seq<Json.Field>, i: nat, role: ManagedRole)
    requires RegistryOf(Holds(Json.Object(fields))).Parsed?
    requires i < |fields| && LastNamed(fields, i, fields[i].name)
    ensures
      var guilds, id := RegistryOf(Holds(Json.Object(fields))).value, GuildId(fields[i].name);
      && IsGuild(fields[i]) && id in guilds
      && (role in guilds[id] <==> Names(fields[i].value.fields, NameOf(role)))
      && forall k: nat :: LastNamed(fields[i].value.fields, k, NameOf(role)) ==>
           role in guilds[id] && guilds[id][role] == fields[i].value.fields[k].value.text
  {
    FieldsParse(fields);
    FieldsRead(fields, fields[i].name, i);
    var entries := fields[i].value.fields;
    EntriesRead(entries, role, NameOf(role), 0);
    forall k: nat | LastNamed(entries, k, NameOf(role)) {
      EntriesRead(entries, role, NameOf(role), k);
    }
  }

  /** Otherwise the complaint is about the first field that is no guild's: that it is no object, or what is
      wrong with its first entry that assigns nothing. */
  lemma RegistryComplains(fields: seq<Json.Field>, i: nat)
    requires i < |fields| && !IsGuild(fields[i]) && forall j :: 0 <= j < i ==> IsGuild(fields[j])
    ensures
      var r := RegistryOf(Holds(Json.Object(fields)));
      if !fields[i].value.Object? then r == Refused(GuildNotAnObject)
      else
        var entries := fields[i].value.fields;
        forall k: nat :: k < |entries| && !Assigns(entries[k]) && (forall j :: 0 <= j < k ==> Assigns(entries[j])) ==>
          r == Refused(if entries[k].name !in ROLE_NAMES then UnmanagedRole else NoRoleId)
  {
    FieldsParse(fields[..i]);
    assert fields[..i + 1][..i] == fields[..i];
    if !fields[i].value.Object? {
      GuildRefusalStays(fields, i + 1);
      return;
    }
    var entries := fields[i].value.fields;
    EntriesParse(entries);
    GuildRefusalStays(fields, i + 1);
    forall k: nat | k < |entries| && !Assigns(entries[k]) && forall j :: 0 <= j < k ==> Assigns(entries[j])
      ensures RoleMapOf(entries) == Refused(if entries[k].name !in ROLE_NAMES then UnmanagedRole else NoRoleId)
    {
      EntriesComplain(entries, k);
    }
  }

  /** A setting that is blank has no guilds; one that holds no object is refused. */
  lemma OtherSettings(s: Setting)
    ensures s.Blank? ==> RegistryOf(s) == Parsed(map[])
    ensures s.Garbled? ==> RegistryOf(s) == Refused(NotJson)
    ensures s.Holds? && !s.value.Object? ==> RegistryOf(s) == Refused(NotAnObject)
  {
  }
}
