/** Which of a guild's roles /setup adopts and which it creates (apps/bot/src/setup.ts). */
module Setup {
  import opened Basics
  import opened Roles

  datatype DiscordRole = DiscordRole(id: RoleId, name: string, position: int, managed: bool)

  datatype MatchedRole = MatchedRole(role: ManagedRole, id: RoleId, name: string)
  datatype AmbiguousRole = AmbiguousRole(role: ManagedRole, names: seq<string>)
  datatype Reason = DiscordManaged | AboveBot
  datatype UnusableRole = UnusableRole(role: ManagedRole, name: string, reason: Reason)

  datatype SetupPlan = SetupPlan(
    matched: seq<MatchedRole>, toCreate: seq<ManagedRole>, ambiguous: seq<AmbiguousRole>, unusable: seq<UnusableRole>)

  const EVERYONE := "@everyone"

  function DisplayName(role: ManagedRole): string {
    match role
    case Linked => "Linked"
    case SessionStaff => "Session Staff"
    case Vp => "VP"
    case Executives => "Executives"
    case Competitive => "Competitive"
    case Recreation => "Recreation"
    case Internal => "Internal"
    case Alumni => "Alumni"
    case External => "External"
  }

  /** What `toLowerCase` and the strip of everything but a-z and 0-9 leave of one character. Besides
      A to Z only the Kelvin sign and the dotted capital I lower to a letter that is kept. */
  function Kept(c: char): string {
    if 'a' <= c <= 'z' || '0' <= c <= '9' then [c]
    else if 'A' <= c <= 'Z' then [(c as int - 'A' as int + 'a' as int) as char]
    else if c == '\U{212A}' then "k"
    else if c == '\U{0130}' then "i"
    else ""
  }

  function Normalize(name: string): string {
    if name == "" then "" else Kept(name[0]) + Normalize(name[1..])
  }

  function KeyOf(role: ManagedRole): string {
    Normalize(DisplayName(role))
  }

  /** What each managed role is called: DISPLAY_NAMES, for /setup. */
  type Naming = ManagedRole -> string

  /** No two managed roles share a key, and none is called @everyone. */
  ghost predicate Proper(name: Naming) {
    (forall r, r' :: r != r' ==> Normalize(name(r)) != Normalize(name(r')))
    && forall r :: name(r) != EVERYONE
  }

  lemma FirstKept(name: string)
    requires name != "" && |Kept(name[0])| == 1
    ensures Normalize(name) == Kept(name[0]) + Normalize(name[1..])
  {
  }

  function Initial(role: ManagedRole): char {
    match role
    case Linked => 'l'
    case SessionStaff => 's'
    case Vp => 'v'
    case Executives => 'e'
    case Competitive => 'c'
    case Recreation => 'r'
    case Internal => 'i'
    case Alumni => 'a'
    case External => 'e'
  }

  lemma FirstOf(name: string, first: char)
    requires name != "" && Kept(name[0]) == [first]
    ensures Normalize(name) != "" && Normalize(name)[0] == first
  {
    FirstKept(name);
  }

  lemma InitialKept(role: ManagedRole)
    ensures DisplayName(role) != "" && Kept(DisplayName(role)[0]) == [Initial(role)]
  {
  }

  lemma StartsWith(role: ManagedRole)
    ensures KeyOf(role) != "" && KeyOf(role)[0] == Initial(role)
  {
    InitialKept(role);
    FirstOf(DisplayName(role), Initial(role));
  }

  lemma ThirdOf(name: string, third: char)
    requires |name| >= 3 && |Kept(name[0])| == |Kept(name[1])| == 1 && Kept(name[2]) == [third]
    ensures |Normalize(name)| >= 3 && Normalize(name)[2] == third
  {
    FirstKept(name);
    FirstKept(name[1..]);
    FirstKept(name[1..][1..]);
    assert name[1..][0] == name[1] && name[1..][1..][0] == name[2];
  }

  lemma ThirdIs(role: ManagedRole)
    requires role == Executives || role == External
    ensures |KeyOf(role)| >= 3 && KeyOf(role)[2] == if role == Executives then 'e' else 't'
  {
    ThirdOf(DisplayName(role), if role == Executives then 'e' else 't');
  }

  lemma ThirdsDiffer(r: ManagedRole, r': ManagedRole)
    requires r != r' && Initial(r) == Initial(r')
    ensures KeyOf(r) != KeyOf(r')
  {
    ThirdIs(Executives);
    ThirdIs(External);
    assert (r == Executives && r' == External) || (r == External && r' == Executives);
  }

  lemma InitialsDiffer(r: ManagedRole, r': ManagedRole)
    requires Initial(r) != Initial(r')
    ensures KeyOf(r) != KeyOf(r')
  {
    StartsWith(r);
    StartsWith(r');
  }

  lemma KeysAreDistinct(r: ManagedRole, r': ManagedRole)
    requires r != r'
    ensures KeyOf(r) != KeyOf(r')
  {
    if Initial(r) == Initial(r') {
      ThirdsDiffer(r, r');
    } else {
      InitialsDiffer(r, r');
    }
  }

  lemma DisplayNamesAreProper()
    ensures Proper(DisplayName)
  {
    forall r, r' | r != r' ensures Normalize(DisplayName(r)) != Normalize(DisplayName(r')) {
      KeysAreDistinct(r, r');
    }
    forall r ensures DisplayName(r) != EVERYONE {
      assert DisplayName(r)[0] != EVERYONE[0];
    }
  }

  // ---- The plan ----

  /** The roles that carry the key, in the order the guild lists them; `@everyone` never does. */
  function Candidates(existing: seq<DiscordRole>, key: string): seq<DiscordRole> {
    if existing == [] then [] else
    var (before, role) := (existing[..|existing| - 1], existing[|existing| - 1]);
    Candidates(before, key) + if role.name != EVERYONE && Normalize(role.name) == key then [role] else []
  }

  /** The one place in the plan a managed role goes to. */
  function Placed(plan: SetupPlan, managed: ManagedRole, candidates: seq<DiscordRole>, botPosition: int): SetupPlan {
    if candidates == [] then plan.(toCreate := plan.toCreate + [managed])
    else if |candidates| > 1 then plan.(ambiguous := plan.ambiguous + [AmbiguousRole(managed, Names(candidates))])
    else
      var role := candidates[0];
      if role.managed then plan.(unusable := plan.unusable + [UnusableRole(managed, role.name, DiscordManaged)])
      else if role.position >= botPosition then
        plan.(unusable := plan.unusable + [UnusableRole(managed, role.name, AboveBot)])
      else plan.(matched := plan.matched + [MatchedRole(managed, role.id, role.name)])
  }

  function Names(roles: seq<DiscordRole>): seq<string> {
    seq(|roles|, i requires 0 <= i < |roles| => roles[i].name)
  }

  function PlanFor(rs: seq<ManagedRole>, name: Naming, existing: seq<DiscordRole>, botPosition: int): SetupPlan {
    if rs == [] then SetupPlan([], [], [], []) else
    var (before, role) := (rs[..|rs| - 1], rs[|rs| - 1]);
    Placed(PlanFor(before, name, existing, botPosition), role, Candidates(existing, Normalize(name(role))), botPosition)
  }

  /** The roles of the guild under their keys, as the first loop buckets them. */
  method Bucket(existing: seq<DiscordRole>) returns (byKey: map<string, seq<DiscordRole>>)
    ensures forall key :: Candidates(existing, key) == if key in byKey then byKey[key] else []
  {
    byKey := map[];
    for i := 0 to |existing|
      invariant forall key :: Candidates(existing[..i], key) == if key in byKey then byKey[key] else []
    {
      assert existing[..i + 1][..i] == existing[..i];
      if existing[i].name == EVERYONE {
        continue;
      }
      var key := Normalize(existing[i].name);
      byKey := byKey[key := (if key in byKey then byKey[key] else []) + [existing[i]]];
    }
    assert existing[..|existing|] == existing;
  }

  /** The body of the second loop. */
  method Place(plan: SetupPlan, managed: ManagedRole, candidates: seq<DiscordRole>, botPosition: int)
    returns (placed: SetupPlan)
    ensures placed == Placed(plan, managed, candidates, botPosition)
  {
    if candidates == [] {
      return plan.(toCreate := plan.toCreate + [managed]);
    }
    if |candidates| > 1 {
      return plan.(ambiguous := plan.ambiguous + [AmbiguousRole(managed, Names(candidates))]);
    }
    var role := candidates[0];
    if role.managed {
      return plan.(unusable := plan.unusable + [UnusableRole(managed, role.name, DiscordManaged)]);
    }
    if role.position >= botPosition {
      return plan.(unusable := plan.unusable + [UnusableRole(managed, role.name, AboveBot)]);
    }
    placed := plan.(matched := plan.matched + [MatchedRole(managed, role.id, role.name)]);
  }

  /** `planSetup` */
  method PlanSetup(existing: seq<DiscordRole>, botPosition: int) returns (plan: SetupPlan)
    ensures plan == PlanFor(MANAGED_ROLES, DisplayName, existing, botPosition)
  {
    plan := PlanAll(MANAGED_ROLES, DisplayName, existing, botPosition);
  }

  method PlanAll(rs: seq<ManagedRole>, name: Naming, existing: seq<DiscordRole>, botPosition: int) returns (plan: SetupPlan)
    ensures plan == PlanFor(rs, name, existing, botPosition)
  {
    var byKey := Bucket(existing);
    plan := SetupPlan([], [], [], []);
    for i := 0 to |rs|
      invariant plan == PlanFor(rs[..i], name, existing, botPosition)
    {
      assert rs[..i + 1][..i] == rs[..i];
      var key := Normalize(name(rs[i]));
      plan := Place(plan, rs[i], if key in byKey then byKey[key] else [], botPosition);
    }
    assert rs[..|rs|] == rs;
  }
}
