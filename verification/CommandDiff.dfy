/** The comparison that decides whether the slash commands must be registered again
    (apps/bot/src/register-commands.ts). */
module CommandDiff {
  import opened Basics
  import opened InsertionOrder
  import opened Json

  type Record = seq<Field>

  datatype Name = Name(text: string)

  datatype Command = Command(name: Name, record: Record)

  /** A line of the report. */
  datatype Reason =
    | NotRegistered(name: Name)
    | Differs(name: Name, difference: Difference)
    | NoLongerDefined(name: Name)
    | AndMore(count: int)

  datatype Difference =
    | Description
    | DefaultMemberPermissions
    | OptionCount(defined: nat, registered: nat)
    | OptionAt(index: nat)
    | DmPermissionNotReported
    | DmPermission

  const MAX_REASONS: nat := 5
  const UNNAMED: Name := Name("(unnamed)")

  function AsRecord(v: Value): Record {
    if v.Object? then v.fields else []
  }

  function AsArray(v: Option<Value>): (items: seq<Value>)
    ensures v.Some? ==> ItemsSize(items) < Size(v.value)
    ensures v.Some? && v.value.Array? ==> items == v.value.items
    ensures v.None? || !v.value.Array? ==> items == []
  {
    if v.Some? && v.value.Array? then v.value.items else []
  }

  /** `value ?? null`. */
  function OrNull(v: Option<Value>): Value {
    v.GetOr(Null)
  }

  /** `===`: two objects or arrays that were parsed apart are never the same. */
  predicate Identical(a: Value, b: Value) {
    a == b && !a.Array? && !a.Object?
  }

  function Choice(raw: Value): Value {
    var choice := AsRecord(raw);
    Object([Field("name", OrNull(Get(choice, "name"))), Field("value", OrNull(Get(choice, "value")))])
  }

  function Choices(items: seq<Value>): seq<Value> {
    if items == [] then [] else [Choice(items[0])] + Choices(items[1..])
  }

  datatype NormalizedOption = NormalizedOption(
    kind: Value,
    name: Value,
    description: Value,
    required: bool,
    autocomplete: bool,
    minValue: Value,
    maxValue: Value,
    channelTypes: seq<Value>,
    choices: seq<Value>,
    options: seq<Value>)

  /** A fixed key order, so that the text is a fingerprint. */
  function AsJson(o: NormalizedOption): Value {
    Object([
      Field("type", o.kind),
      Field("name", o.name),
      Field("description", o.description),
      Field("required", Bool(o.required)),
      Field("autocomplete", Bool(o.autocomplete)),
      Field("min_value", o.minValue),
      Field("max_value", o.maxValue),
      Field("channel_types", Array(o.channelTypes)),
      Field("choices", Array(o.choices)),
      Field("options", Array(o.options))
    ])
  }

  /** The compared keys of one option, before the options below it. */
  function Flat(option: Record, options: seq<Value>): NormalizedOption {
    NormalizedOption(
      OrNull(Get(option, "type")),
      OrNull(Get(option, "name")),
      OrNull(Get(option, "description")),
      Get(option, "required") == Some(Bool(true)),
      Get(option, "autocomplete") == Some(Bool(true)),
      OrNull(Get(option, "min_value")),
      OrNull(Get(option, "max_value")),
      AsArray(Get(option, "channel_types")),
      Choices(AsArray(Get(option, "choices"))),
      options)
  }

  /** One option, reduced to the compared keys. */
  function NormalizeOption(raw: Value): Value
    decreases Size(raw), 0
  {
    var option := AsRecord(raw);
    AsJson(Flat(option, NormalizeOptions(AsArray(Get(option, "options")))))
  }

  function NormalizeOptions(items: seq<Value>): (r: seq<Value>)
    ensures |r| == |items|
    decreases ItemsSize(items), 1
  {
    if items == [] then [] else [NormalizeOption(items[0])] + NormalizeOptions(items[1..])
  }

  /** The first position from `i` at which two equally long lists print differently. */
  function FirstUnequal(a: seq<Value>, b: seq<Value>, i: nat): Option<nat>
    requires |a| == |b|
    decreases |a| - i
  {
    if i >= |a| then None else if Stringify(a[i]) != Stringify(b[i]) then Some(i) else FirstUnequal(a, b, i + 1)
  }

  function FirstDifference(defined: Record, registered: Record): Option<Difference> {
    var a := NormalizeOptions(AsArray(Get(defined, "options")));
    var b := NormalizeOptions(AsArray(Get(registered, "options")));
    if !Identical(OrNull(Get(defined, "description")), OrNull(Get(registered, "description"))) then Some(Description)
    else if !Identical(OrNull(Get(defined, "default_member_permissions")),
                       OrNull(Get(registered, "default_member_permissions"))) then Some(DefaultMemberPermissions)
    else if |a| != |b| then Some(OptionCount(|a|, |b|))
    else if FirstUnequal(a, b, 0).Some? then Some(OptionAt(FirstUnequal(a, b, 0).value))
    else DmDifference(Get(defined, "dm_permission"), Get(registered, "dm_permission"))
  }

  /** Leaving the key out asks for true; a response without it is not trusted to mean that. */
  function DmDifference(defined: Option<Value>, registered: Option<Value>): Option<Difference> {
    if OrNull(registered) == Null then Some(DmPermissionNotReported)
    else if !Identical(defined.GetOr(Bool(true)), registered.value) then Some(DmPermission)
    else None
  }

  // ----- two sets -----

  function NameOf(command: Value): Option<Name> {
    match Get(AsRecord(command), "name")
    case Some(Text(name)) => Some(Name(name))
    case _ => None
  }

  /** The commands defined here; one without a name gets a stand-in. */
  function Defined(commands: seq<Value>): seq<Command> {
    if commands == [] then []
    else Defined(commands[..|commands| - 1]) + [CommandOf(commands[|commands| - 1])]
  }

  function CommandOf(command: Value): Command {
    Command(NameOf(command).GetOr(UNNAMED), AsRecord(command))
  }

  /** The commands Discord reports; one without a name is skipped. */
  function Registered(commands: seq<Value>): seq<Command> {
    if commands == [] then []
    else
      var last := commands[|commands| - 1];
      Registered(commands[..|commands| - 1]) +
      if NameOf(last).Some? then [Command(NameOf(last).value, AsRecord(last))] else []
  }

  function ByName(commands: seq<Command>): Table<Name, Record> {
    if commands == [] then Empty()
    else
      var last := commands[|commands| - 1];
      Set(ByName(commands[..|commands| - 1]), last.name, last.record)
  }

  type Compare = (Record, Record) -> Option<Difference>

  function ReasonFor(c: Command, byName: map<Name, Record>, compare: Compare): seq<Reason> {
    if c.name !in byName then [NotRegistered(c.name)]
    else
      match compare(c.record, byName[c.name])
      case Some(d) => [Differs(c.name, d)]
      case None => []
  }

  function ReasonsFor(defined: seq<Command>, byName: map<Name, Record>, compare: Compare): seq<Reason> {
    if defined == [] then []
    else
      ReasonsFor(defined[..|defined| - 1], byName, compare) +
      ReasonFor(defined[|defined| - 1], byName, compare)
  }

  function Names(commands: seq<Command>): set<Name> {
    if commands == [] then {} else Names(commands[..|commands| - 1]) + {commands[|commands| - 1].name}
  }

  function Leftovers(names: seq<Name>, defined: set<Name>): seq<Reason> {
    if names == [] then []
    else
      Leftovers(names[..|names| - 1], defined) +
      if names[|names| - 1] in defined then [] else [NoLongerDefined(names[|names| - 1])]
  }

  function AllReasons(defined: seq<Command>, registered: seq<Command>, compare: Compare): seq<Reason> {
    var byName := ByName(registered);
    ReasonsFor(defined, byName.at, compare) + Leftovers(byName.order, Names(defined))
  }

  function Truncated(reasons: seq<Reason>): seq<Reason> {
    if |reasons| > MAX_REASONS then reasons[..MAX_REASONS] + [AndMore(|reasons| - MAX_REASONS)] else reasons
  }

  function Differences(defined: seq<Value>, registered: seq<Value>): seq<Reason> {
    Truncated(AllReasons(Defined(defined), Registered(registered), FirstDifference))
  }

  // ----- the loops -----

  lemma DefinedStep(defined: seq<Value>, i: nat)
    requires i < |defined|
    ensures Defined(defined[..i + 1]) == Defined(defined[..i]) + [CommandOf(defined[i])]
  {
    assert defined[..i + 1][..i] == defined[..i];
  }

  lemma ReasonsStep(before: seq<Command>, c: Command, byName: map<Name, Record>, compare: Compare)
    ensures ReasonsFor(before + [c], byName, compare) ==
            ReasonsFor(before, byName, compare) + ReasonFor(c, byName, compare)
    ensures Names(before + [c]) == Names(before) + {c.name}
  {
    assert (before + [c])[..|before|] == before;
  }

  method IndexByName(registered: seq<Value>) returns (byName: Table<Name, Record>)
    ensures byName == ByName(Registered(registered))
  {
    byName := Empty();
    for i := 0 to |registered|
      invariant byName == ByName(Registered(registered[..i]))
    {
      assert registered[..i + 1][..i] == registered[..i];
      var name, before := NameOf(registered[i]), Registered(registered[..i]);
      if name.Some? {
        byName := Set(byName, name.value, AsRecord(registered[i]));
        assert (before + [Command(name.value, AsRecord(registered[i]))])[..|before|] == before;
      } else {
        assert before + [] == before;
      }
    }
    assert registered[..|registered|] == registered;
  }

  method CompareDefined(defined: seq<Value>, byName: map<Name, Record>, compare: Compare)
    returns (reasons: seq<Reason>, names: set<Name>)
    ensures reasons == ReasonsFor(Defined(defined), byName, compare) && names == Names(Defined(defined))
  {
    reasons, names := [], {};
    for i := 0 to |defined|
      invariant reasons == ReasonsFor(Defined(defined[..i]), byName, compare)
      invariant names == Names(Defined(defined[..i]))
    {
      var command := CommandOf(defined[i]);
      DefinedStep(defined, i);
      ReasonsStep(Defined(defined[..i]), command, byName, compare);
      names := names + {command.name};
      if command.name !in byName {
        reasons := reasons + [NotRegistered(command.name)];
        continue;
      }
      var field := compare(command.record, byName[command.name]);
      if field.Some? {
        reasons := reasons + [Differs(command.name, field.value)];
      }
    }
    assert defined[..|defined|] == defined;
  }

  method ListLeftovers(names: seq<Name>, defined: set<Name>) returns (reasons: seq<Reason>)
    ensures reasons == Leftovers(names, defined)
  {
    reasons := [];
    for i := 0 to |names|
      invariant reasons == Leftovers(names[..i], defined)
    {
      assert names[..i + 1][..i] == names[..i];
      if names[i] !in defined {
        reasons := reasons + [NoLongerDefined(names[i])];
      }
    }
    assert names[..|names|] == names;
  }

  method ListReasons(defined: seq<Value>, registered: seq<Value>, compare: Compare) returns (reasons: seq<Reason>)
    ensures reasons == AllReasons(Defined(defined), Registered(registered), compare)
  {
    var byName := IndexByName(registered);
    var changed, names := CompareDefined(defined, byName.at, compare);
    var leftovers := ListLeftovers(byName.order, names);
    reasons := changed + leftovers;
  }

  method DiffCommandSets(defined: seq<Value>, registered: seq<Value>) returns (reasons: seq<Reason>)
    ensures reasons == Differences(defined, registered)
  {
    reasons := ListReasons(defined, registered, FirstDifference);
    if |reasons| > MAX_REASONS {
      reasons := reasons[..MAX_REASONS] + [AndMore(|reasons| - MAX_REASONS)];
    }
  }
}
