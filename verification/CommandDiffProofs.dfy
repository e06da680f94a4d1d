/** When the comparison says that nothing has to be registered. */
module CommandDiffProofs {
  import opened Basics
  import opened InsertionOrder
  import opened Json
  import opened CommandDiff

  // ----- what it means for two options to agree, key by key -----

  predicate SameField(a: Record, b: Record, name: string) {
    OrNull(Get(a, name)) == OrNull(Get(b, name))
  }

  predicate SameFlag(a: Record, b: Record, name: string) {
    Get(a, name) == Some(Bool(true)) <==> Get(b, name) == Some(Bool(true))
  }

  function ListOf(a: Record, name: string): seq<Value> {
    AsArray(Get(a, name))
  }

  /** The same null, boolean, number or text; arrays and objects that were parsed apart are never the same. */
  predicate SameScalar(a: Value, b: Value) {
    a == b && (a.Null? || a.Bool? || a.Number? || a.Text?)
  }

  predicate SameChoices(a: seq<Value>, b: seq<Value>) {
    && |a| == |b|
    && forall i :: 0 <= i < |a| ==>
         SameField(AsRecord(a[i]), AsRecord(b[i]), "name") && SameField(AsRecord(a[i]), AsRecord(b[i]), "value")
  }

  /** Every compared key agrees, and so do the options below, at every depth. */
  predicate SameOption(a: Value, b: Value)
    decreases Size(a), 0
  {
    var x, y := AsRecord(a), AsRecord(b);
    && SameFlat(x, y)
    && SameOptions(ListOf(x, "options"), ListOf(y, "options"))
  }

  predicate SameOptions(a: seq<Value>, b: seq<Value>)
    decreases ItemsSize(a), 1
  {
    && |a| == |b|
    && (a != [] ==> SameOption(a[0], b[0]) && SameOptions(a[1..], b[1..]))
  }

  lemma {:induction false} ChoicesAgree(a: seq<Value>, b: seq<Value>)
    ensures Choices(a) == Choices(b) <==> SameChoices(a, b)
    ensures |Choices(a)| == |a|
  {
    if a != [] && b != [] {
      ChoicesAgree(a[1..], b[1..]);
      var x, y := Choices(a), Choices(b);
      assert x == y <==> x[0] == y[0] && x[1..] == y[1..];
      assert x[1..] == Choices(a[1..]) && y[1..] == Choices(b[1..]);
      assert SameChoices(a, b) <==> Choice(a[0]) == Choice(b[0]) && SameChoices(a[1..], b[1..]) by {
      }
    } else {
      ChoicesLength(a);
      ChoicesLength(b);
    }
  }

  lemma {:induction false} ChoicesLength(a: seq<Value>)
    ensures |Choices(a)| == |a|
  {
    if a != [] {
      ChoicesLength(a[1..]);
    }
  }

  /** The keys of one option agree, those below it aside. */
  predicate SameFlat(x: Record, y: Record) {
    && SameField(x, y, "type") && SameField(x, y, "name") && SameField(x, y, "description")
    && SameField(x, y, "min_value") && SameField(x, y, "max_value")
    && SameFlag(x, y, "required") && SameFlag(x, y, "autocomplete")
    && ListOf(x, "channel_types") == ListOf(y, "channel_types")
    && SameChoices(ListOf(x, "choices"), ListOf(y, "choices"))
  }

  lemma FlatsAgree(x: Record, y: Record, a: seq<Value>, b: seq<Value>)
    ensures AsJson(Flat(x, a)) == AsJson(Flat(y, b)) <==> SameFlat(x, y) && a == b
  {
    ChoicesAgree(ListOf(x, "choices"), ListOf(y, "choices"));
  }

  /** Normalising loses exactly what is not compared. */
  lemma {:induction false} NormalizedAgree(a: Value, b: Value)
    ensures NormalizeOption(a) == NormalizeOption(b) <==> SameOption(a, b)
    decreases Size(a), 0
  {
    var x, y := AsRecord(a), AsRecord(b);
    OptionsAgree(ListOf(x, "options"), ListOf(y, "options"));
    FlatsAgree(x, y, NormalizeOptions(ListOf(x, "options")), NormalizeOptions(ListOf(y, "options")));
  }

  lemma {:induction false} OptionsAgree(a: seq<Value>, b: seq<Value>)
    ensures NormalizeOptions(a) == NormalizeOptions(b) <==> SameOptions(a, b)
    decreases ItemsSize(a), 1
  {
    if a != [] && b != [] {
      NormalizedAgree(a[0], b[0]);
      OptionsAgree(a[1..], b[1..]);
      var x, y := NormalizeOptions(a), NormalizeOptions(b);
      assert x == y <==> x[0] == y[0] && x[1..] == y[1..];
      assert x[1..] == NormalizeOptions(a[1..]) && y[1..] == NormalizeOptions(b[1..]);
    }
  }

  // ----- one command -----

  lemma {:induction false} ChoicesAreSound(items: seq<Value>)
    requires AllSound(items)
    ensures AllSound(Choices(items))
  {
    if items != [] {
      ChoicesAreSound(items[1..]);
      var choice := AsRecord(items[0]);
      assert FieldsSound(choice);
      GetIsSound(choice, "name");
      GetIsSound(choice, "value");
      assert Sound(Choice(items[0]));
    }
  }

  lemma ListIsSound(fields: Record, name: string)
    requires FieldsSound(fields)
    ensures AllSound(ListOf(fields, name))
  {
    GetIsSound(fields, name);
  }

  lemma FlatIsSound(fields: Record, options: seq<Value>)
    requires FieldsSound(fields) && AllSound(options)
    ensures Sound(AsJson(Flat(fields, options)))
  {
    GetIsSound(fields, "type");
    GetIsSound(fields, "name");
    GetIsSound(fields, "description");
    GetIsSound(fields, "min_value");
    GetIsSound(fields, "max_value");
    ListIsSound(fields, "channel_types");
    ListIsSound(fields, "choices");
    ChoicesAreSound(ListOf(fields, "choices"));
  }

  lemma {:induction false} NormalizedIsSound(raw: Value)
    requires Sound(raw)
    ensures Sound(NormalizeOption(raw))
    decreases Size(raw), 0
  {
    var option := AsRecord(raw);
    assert FieldsSound(option);
    ListIsSound(option, "options");
    OptionsAreSound(ListOf(option, "options"));
    FlatIsSound(option, NormalizeOptions(ListOf(option, "options")));
  }

  lemma {:induction false} OptionsAreSound(items: seq<Value>)
    requires AllSound(items)
    ensures AllSound(NormalizeOptions(items))
    decreases ItemsSize(items), 1
  {
    if items != [] {
      NormalizedIsSound(items[0]);
      OptionsAreSound(items[1..]);
    }
  }

  lemma {:induction false} UnequalIsExact(a: seq<Value>, b: seq<Value>, i: nat)
    requires |a| == |b| && AllSound(a) && AllSound(b)
    ensures FirstUnequal(a, b, i).None? <==> forall k :: i <= k < |a| ==> a[k] == b[k]
    decreases |a| - i
  {
    if i < |a| {
      StringifyIsInjective(a[i], b[i]);
      UnequalIsExact(a, b, i + 1);
    }
  }

  /** Every compared field of the command agrees, and Discord says which way `dm_permission` is set. */
  predicate SameCommand(defined: Record, registered: Record) {
    && SameScalar(OrNull(Get(defined, "description")), OrNull(Get(registered, "description")))
    && SameScalar(OrNull(Get(defined, "default_member_permissions")),
                  OrNull(Get(registered, "default_member_permissions")))
    && SameOptions(ListOf(defined, "options"), ListOf(registered, "options"))
    && SameDm(Get(defined, "dm_permission"), Get(registered, "dm_permission"))
  }

  predicate SameDm(defined: Option<Value>, registered: Option<Value>) {
    OrNull(registered) != Null && SameScalar(defined.GetOr(Bool(true)), OrNull(registered))
  }

  lemma NoneIsUnequal(a: seq<Value>, b: seq<Value>)
    requires AllSound(a) && AllSound(b)
    ensures |a| == |b| && FirstUnequal(a, b, 0).None? <==> a == b
  {
    if |a| == |b| {
      UnequalIsExact(a, b, 0);
    }
  }

  /** The walk over two option lists finds nothing exactly when they agree. */
  lemma WalkIsExact(x: seq<Value>, y: seq<Value>)
    requires AllSound(x) && AllSound(y)
    ensures
      var a, b := NormalizeOptions(x), NormalizeOptions(y);
      |a| == |b| && FirstUnequal(a, b, 0).None? <==> SameOptions(x, y)
  {
    OptionsAreSound(x);
    OptionsAreSound(y);
    OptionsAgree(x, y);
    NoneIsUnequal(NormalizeOptions(x), NormalizeOptions(y));
  }

  /** A command has no difference exactly when it agrees. */
  lemma FirstDifferenceIsExact(defined: Record, registered: Record)
    requires FieldsSound(defined) && FieldsSound(registered)
    ensures FirstDifference(defined, registered).None? <==> SameCommand(defined, registered)
  {
    ListIsSound(defined, "options");
    ListIsSound(registered, "options");
    WalkIsExact(ListOf(defined, "options"), ListOf(registered, "options"));
  }

  // ----- two sets -----

  ghost predicate Unique(commands: seq<Command>) {
    forall i, j :: 0 <= i < j < |commands| ==> commands[i].name != commands[j].name
  }

  ghost predicate Has(commands: seq<Command>, name: Name) {
    exists i :: 0 <= i < |commands| && commands[i].name == name
  }

  lemma HasInit(before: seq<Command>, last: Command, name: Name)
    ensures Has(before + [last], name) <==> Has(before, name) || last.name == name
  {
    var commands := before + [last];
    assert commands[|before|] == last;
    if Has(before, name) {
      var i :| 0 <= i < |before| && before[i].name == name;
      assert commands[i] == before[i];
    }
  }

  lemma {:induction false} IndexIsExact(commands: seq<Command>, name: Name)
    requires Unique(commands)
    ensures InsertionOrder.Valid(ByName(commands))
    ensures name in ByName(commands).at <==> Has(commands, name)
    ensures forall i :: 0 <= i < |commands| && commands[i].name == name && name in ByName(commands).at ==>
      ByName(commands).at[name] == commands[i].record
  {
    if commands != [] {
      var before, last := commands[..|commands| - 1], commands[|commands| - 1];
      IndexIsExact(before, name);
      assert commands == before + [last];
      HasInit(before, last, name);
      SetIsValid(ByName(before), last.name, last.record);
    }
  }

  lemma {:induction false} NamesAreExact(commands: seq<Command>, name: Name)
    ensures name in Names(commands) <==> Has(commands, name)
  {
    if commands != [] {
      var before, last := commands[..|commands| - 1], commands[|commands| - 1];
      NamesAreExact(before, name);
      assert commands == before + [last];
      HasInit(before, last, name);
    }
  }

  lemma {:induction false} NoReasons(defined: seq<Command>, byName: map<Name, Record>, compare: Compare)
    ensures ReasonsFor(defined, byName, compare) == [] <==>
            forall i :: 0 <= i < |defined| ==> ReasonFor(defined[i], byName, compare) == []
  {
    if defined != [] {
      var before, last := defined[..|defined| - 1], defined[|defined| - 1];
      NoReasons(before, byName, compare);
      assert ReasonsFor(defined, byName, compare) == ReasonsFor(before, byName, compare) + ReasonFor(last, byName, compare);
      assert forall i :: 0 <= i < |before| ==> defined[i] == before[i];
    }
  }

  lemma {:induction false} NoLeftovers(names: seq<Name>, defined: set<Name>)
    ensures Leftovers(names, defined) == [] <==> forall i :: 0 <= i < |names| ==> names[i] in defined
  {
    if names != [] {
      NoLeftovers(names[..|names| - 1], defined);
    }
  }

  /** The command is registered under its name, without a difference. */
  ghost predicate Paired(c: Command, registered: seq<Command>, compare: Compare) {
    exists j :: 0 <= j < |registered| && registered[j].name == c.name && compare(c.record, registered[j].record) == None
  }

  ghost predicate SamePairs(defined: seq<Command>, registered: seq<Command>, compare: Compare) {
    && (forall i :: 0 <= i < |defined| ==> Paired(defined[i], registered, compare))
    && (forall j :: 0 <= j < |registered| ==> Has(defined, registered[j].name))
  }

  lemma ReasonIsExact(c: Command, registered: seq<Command>, compare: Compare)
    requires Unique(registered)
    ensures ReasonFor(c, ByName(registered).at, compare) == [] <==> Paired(c, registered, compare)
  {
    IndexIsExact(registered, c.name);
    if c.name in ByName(registered).at {
      var j :| 0 <= j < |registered| && registered[j].name == c.name;
      assert ByName(registered).at[c.name] == registered[j].record;
    }
  }

  lemma LeftoversAreExact(defined: seq<Command>, registered: seq<Command>)
    requires Unique(registered)
    ensures Leftovers(ByName(registered).order, Names(defined)) == [] <==>
            forall j :: 0 <= j < |registered| ==> Has(defined, registered[j].name)
  {
    var byName, names := ByName(registered), Names(defined);
    NoLeftovers(byName.order, names);
    forall j | 0 <= j < |registered| && Leftovers(byName.order, names) == [] ensures Has(defined, registered[j].name) {
      IndexIsExact(registered, registered[j].name);
      assert registered[j].name in byName.order;
      NamesAreExact(defined, registered[j].name);
    }
    if forall j :: 0 <= j < |registered| ==> Has(defined, registered[j].name) {
      forall k | 0 <= k < |byName.order| ensures byName.order[k] in names {
        var name := byName.order[k];
        IndexIsExact(registered, name);
        assert name in byName.order;
        var j :| 0 <= j < |registered| && registered[j].name == name;
        NamesAreExact(defined, name);
      }
    }
  }

  lemma NoReasonsMeansPairs(defined: seq<Command>, registered: seq<Command>, compare: Compare)
    requires Unique(registered)
    ensures AllReasons(defined, registered, compare) == [] <==> SamePairs(defined, registered, compare)
  {
    NoReasons(defined, ByName(registered).at, compare);
    forall i | 0 <= i < |defined|
      ensures ReasonFor(defined[i], ByName(registered).at, compare) == [] <==> Paired(defined[i], registered, compare)
    {
      ReasonIsExact(defined[i], registered, compare);
    }
    LeftoversAreExact(defined, registered);
  }

  /** Shortening the report never makes it say that nothing changed. */
  lemma TruncationIsHonest(reasons: seq<Reason>)
    ensures Truncated(reasons) == [] <==> reasons == []
    ensures |Truncated(reasons)| <= MAX_REASONS + 1
  {
  }

  ghost predicate AllFieldsSound(commands: seq<Command>) {
    forall i :: 0 <= i < |commands| ==> FieldsSound(commands[i].record)
  }

  /** Each command of either side is on the other, and where the names meet every compared field agrees. */
  ghost predicate SameSets(defined: seq<Command>, registered: seq<Command>) {
    && (forall i :: 0 <= i < |defined| ==> Has(registered, defined[i].name))
    && (forall j :: 0 <= j < |registered| ==> Has(defined, registered[j].name))
    && (forall i, j :: 0 <= i < |defined| && 0 <= j < |registered| && defined[i].name == registered[j].name ==>
        SameCommand(defined[i].record, registered[j].record))
  }

  lemma PairedIsSame(c: Command, registered: seq<Command>)
    requires Unique(registered) && AllFieldsSound(registered) && FieldsSound(c.record)
    ensures Paired(c, registered, FirstDifference) <==>
            (Has(registered, c.name) &&
             forall j :: 0 <= j < |registered| && c.name == registered[j].name ==>
               SameCommand(c.record, registered[j].record))
  {
    forall j | 0 <= j < |registered|
      ensures FirstDifference(c.record, registered[j].record) == None <==> SameCommand(c.record, registered[j].record)
    {
      FirstDifferenceIsExact(c.record, registered[j].record);
    }
    if Has(registered, c.name) {
      var j :| 0 <= j < |registered| && registered[j].name == c.name;
      assert registered[j].name == c.name;
    }
  }

  lemma PairsAreSame(ds: seq<Command>, rs: seq<Command>)
    requires Unique(rs) && AllFieldsSound(ds) && AllFieldsSound(rs)
    ensures SamePairs(ds, rs, FirstDifference) <==> SameSets(ds, rs)
  {
    forall i | 0 <= i < |ds| {
      PairedIsSame(ds[i], rs);
    }
  }

  /** Nothing is written exactly when the registered set is the defined set, as far as it is compared. */
  lemma EmptyMeansSame(defined: seq<Value>, registered: seq<Value>)
    requires Unique(Registered(registered))
    requires AllFieldsSound(Defined(defined)) && AllFieldsSound(Registered(registered))
    ensures Differences(defined, registered) == [] <==> SameSets(Defined(defined), Registered(registered))
  {
    var ds, rs := Defined(defined), Registered(registered);
    NoReasonsMeansPairs(ds, rs, FirstDifference);
    PairsAreSame(ds, rs);
    TruncationIsHonest(AllReasons(ds, rs, FirstDifference));
  }

  // ----- what is sent and not compared -----

  lemma {:induction false} GetIgnores(fields: Record, extra: Field, name: string)
    requires extra.name != name
    ensures Get(fields + [extra], name) == Get(fields, name)
  {
    if fields != [] {
      assert (fields + [extra])[1..] == fields[1..] + [extra];
      GetIgnores(fields[1..], extra, name);
    } else {
      assert fields + [extra] == [extra];
    }
  }

  /** A length limit is sent to Discord, and adding, changing or dropping it is never noticed. */
  lemma MaxLengthIsNotCompared(option: Record, limit: Value)
    ensures NormalizeOption(Object(option + [Field("max_length", limit)])) == NormalizeOption(Object(option))
  {
    var extra := Field("max_length", limit);
    assert extra.name[4] == 'l';
    GetIgnores(option, extra, "type");
    GetIgnores(option, extra, "name");
    GetIgnores(option, extra, "description");
    GetIgnores(option, extra, "required");
    GetIgnores(option, extra, "autocomplete");
    GetIgnores(option, extra, "min_value");
    GetIgnores(option, extra, "max_value");
    GetIgnores(option, extra, "channel_types");
    GetIgnores(option, extra, "choices");
    GetIgnores(option, extra, "options");
  }

  /** A command with one option, written out as both sides write it. */
  function Slash(name: string, option: Value): Value {
    Object([Field("name", Text(name)), Field("options", Array([option])), Field("dm_permission", Bool(true))])
  }

  lemma GetFirst(f: Field, rest: Record, name: string)
    ensures Get([f] + rest, name) == if f.name == name then Some(f.value) else Get(rest, name)
  {
    assert ([f] + rest)[1..] == rest;
  }

  lemma GetOfThree(f: Field, g: Field, h: Field, name: string)
    ensures Get([f, g, h], name) ==
            if f.name == name then Some(f.value) else if g.name == name then Some(g.value)
            else if h.name == name then Some(h.value) else None
  {
    assert [f, g, h] == [f] + ([g] + ([h] + []));
    GetFirst(f, [g] + ([h] + []), name);
    GetFirst(g, [h] + [], name);
    GetFirst(h, [], name);
  }

  lemma SlashShape(name: string, option: Value)
    ensures
      var record := AsRecord(Slash(name, option));
      && Get(record, "name") == Some(Text(name)) && Get(record, "options") == Some(Array([option]))
      && Get(record, "dm_permission") == Some(Bool(true))
      && Get(record, "description") == None && Get(record, "default_member_permissions") == None
  {
    var f, g, h := Field("name", Text(name)), Field("options", Array([option])), Field("dm_permission", Bool(true));
    assert |f.name| == 4 && |g.name| == 7 && |h.name| == 13;
    assert |"description"| == 11 && |"default_member_permissions"| == 26;
    GetOfThree(f, g, h, "name");
    GetOfThree(f, g, h, "options");
    GetOfThree(f, g, h, "dm_permission");
    GetOfThree(f, g, h, "description");
    GetOfThree(f, g, h, "default_member_permissions");
  }

  lemma OneCommand(name: string, option: Value)
    ensures
      var slash := Slash(name, option);
      Defined([slash]) == Registered([slash]) == [Command(Name(name), AsRecord(slash))]
  {
    var slash := Slash(name, option);
    SlashShape(name, option);
    assert [slash][..0] == [];
    assert Defined([slash]) == [] + [CommandOf(slash)];
  }

  lemma OneOptionAgrees(a: Value, b: Value)
    requires NormalizeOption(a) == NormalizeOption(b)
    ensures SameOptions([a], [b])
  {
    NormalizedAgree(a, b);
    assert [a][1..] == [] && [b][1..] == [];
  }

  /** Neither has a description or permissions, and both hold one option. */
  lemma ShapesAreSame(d: Record, r: Record, a: Value, b: Value)
    requires Get(d, "options") == Some(Array([a])) && Get(r, "options") == Some(Array([b]))
    requires Get(d, "dm_permission") == Get(r, "dm_permission") == Some(Bool(true))
    requires Get(d, "description") == Get(r, "description") == None
    requires Get(d, "default_member_permissions") == Get(r, "default_member_permissions") == None
    requires SameOptions([a], [b])
    ensures SameCommand(d, r)
  {
  }

  lemma SlashesAreSame(name: string, a: Value, b: Value)
    requires NormalizeOption(a) == NormalizeOption(b)
    ensures SameCommand(AsRecord(Slash(name, a)), AsRecord(Slash(name, b)))
  {
    SlashShape(name, a);
    SlashShape(name, b);
    OneOptionAgrees(a, b);
    ShapesAreSame(AsRecord(Slash(name, a)), AsRecord(Slash(name, b)), a, b);
  }

  lemma SlashIsSound(name: string, option: Value)
    requires Sound(option)
    ensures FieldsSound(AsRecord(Slash(name, option)))
  {
    assert AllSound([option]);
  }

  lemma OneAgainstOne(ds: seq<Command>, rs: seq<Command>)
    requires |ds| == 1 && |rs| == 1 && ds[0].name == rs[0].name && SameCommand(ds[0].record, rs[0].record)
    ensures SameSets(ds, rs) && Unique(rs)
  {
    assert ds[0].name == rs[0].name;
  }

  lemma SlashSetsMatch(name: string, a: Value, b: Value)
    requires NormalizeOption(a) == NormalizeOption(b)
    ensures
      var ds, rs := Defined([Slash(name, a)]), Registered([Slash(name, b)]);
      SameSets(ds, rs) && Unique(rs)
  {
    SlashesAreSame(name, a, b);
    OneCommand(name, a);
    OneCommand(name, b);
    OneAgainstOne(Defined([Slash(name, a)]), Registered([Slash(name, b)]));
  }

  lemma SlashesMatch(name: string, a: Value, b: Value)
    requires Sound(a) && Sound(b) && NormalizeOption(a) == NormalizeOption(b)
    ensures Differences([Slash(name, a)], [Slash(name, b)]) == []
  {
    var d, r := Slash(name, a), Slash(name, b);
    SlashIsSound(name, a);
    SlashIsSound(name, b);
    OneCommand(name, a);
    OneCommand(name, b);
    SlashSetsMatch(name, a, b);
    EmptyMeansSame([d], [r]);
  }

  /** Two sets that differ only in a length limit count as unchanged, so the new limit is never registered. */
  lemma MaxLengthChangeIsMissed(name: string, option: Record, limit: Value)
    requires FieldsSound(option) && Sound(limit)
    ensures
      var before, after := Object(option), Object(option + [Field("max_length", limit)]);
      before != after && Differences([Slash(name, after)], [Slash(name, before)]) == []
  {
    var before, after := Object(option), Object(option + [Field("max_length", limit)]);
    assert |option + [Field("max_length", limit)]| == |option| + 1;
    MaxLengthIsNotCompared(option, limit);
    SlashesMatch(name, after, before);
  }
}
