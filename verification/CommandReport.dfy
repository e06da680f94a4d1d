/** What the comparison reports: line by line, and which field it names. */
module CommandReport {
  import opened Basics
  import opened InsertionOrder
  import opened Json
  import opened CommandDiff
  import opened CommandDiffProofs

  // ----- one pair of commands -----

  predicate SameDescription(defined: Record, registered: Record) {
    SameScalar(OrNull(Get(defined, "description")), OrNull(Get(registered, "description")))
  }

  predicate SamePermissions(defined: Record, registered: Record) {
    SameScalar(OrNull(Get(defined, "default_member_permissions")), OrNull(Get(registered, "default_member_permissions")))
  }

  /** The first options that do not agree are those at `i`. */
  predicate FirstApart(x: seq<Value>, y: seq<Value>, i: nat) {
    && i < |x| == |y| && !SameOption(x[i], y[i])
    && forall j :: 0 <= j < i ==> SameOption(x[j], y[j])
  }

  /** This is the first field, in the order they are compared, that does not agree. */
  ghost predicate FirstToDiffer(defined: Record, registered: Record, d: Difference) {
    var x, y := ListOf(defined, "options"), ListOf(registered, "options");
    if !SameDescription(defined, registered) then d == Description
    else if !SamePermissions(defined, registered) then d == DefaultMemberPermissions
    else
      match d
      case Description => false
      case DefaultMemberPermissions => false
      case OptionCount(m, n) => m == |x| && n == |y| && m != n
      case OptionAt(i) => FirstApart(x, y, i)
      case DmPermissionNotReported => SameOptions(x, y) && OrNull(Get(registered, "dm_permission")) == Null
      case DmPermission =>
        && SameOptions(x, y) && OrNull(Get(registered, "dm_permission")) != Null
        && !SameScalar(Get(defined, "dm_permission").GetOr(Bool(true)), OrNull(Get(registered, "dm_permission")))
  }

  lemma {:induction false} NormalizedAt(items: seq<Value>, i: nat)
    requires i < |items|
    ensures NormalizeOptions(items)[i] == NormalizeOption(items[i])
    decreases i
  {
    if i > 0 {
      NormalizedAt(items[1..], i - 1);
    }
  }

  lemma {:induction false} FirstUnequalIsFirst(a: seq<Value>, b: seq<Value>, i: nat)
    requires |a| == |b| && AllSound(a) && AllSound(b) && FirstUnequal(a, b, i).Some?
    ensures
      var k := FirstUnequal(a, b, i).value;
      i <= k < |a| && a[k] != b[k] && forall j :: i <= j < k ==> a[j] == b[j]
    decreases |a| - i
  {
    StringifyIsInjective(a[i], b[i]);
    if Stringify(a[i]) == Stringify(b[i]) {
      FirstUnequalIsFirst(a, b, i + 1);
    }
  }

  /** The walk stops at the first two options that do not agree. */
  lemma {:induction false} WalkStops(x: seq<Value>, y: seq<Value>)
    requires AllSound(x) && AllSound(y) && |x| == |y|
    requires FirstUnequal(NormalizeOptions(x), NormalizeOptions(y), 0).Some?
    ensures FirstApart(x, y, FirstUnequal(NormalizeOptions(x), NormalizeOptions(y), 0).value)
  {
    var a, b := NormalizeOptions(x), NormalizeOptions(y);
    OptionsAreSound(x);
    OptionsAreSound(y);
    FirstUnequalIsFirst(a, b, 0);
    var k := FirstUnequal(a, b, 0).value;
    forall j: nat | j <= k ensures SameOption(x[j], y[j]) <==> a[j] == b[j] {
      NormalizedAt(x, j);
      NormalizedAt(y, j);
      NormalizedAgree(x[j], y[j]);
    }
  }

  lemma {:induction false} SameAt(x: seq<Value>, y: seq<Value>, i: nat)
    requires SameOptions(x, y) && i < |x|
    ensures |x| == |y| && SameOption(x[i], y[i])
  {
    OptionsAgree(x, y);
    NormalizedAt(x, i);
    NormalizedAt(y, i);
    NormalizedAgree(x[i], y[i]);
  }

  lemma {:induction false} ApartIsNotSame(x: seq<Value>, y: seq<Value>, i: nat)
    requires FirstApart(x, y, i)
    ensures !SameOptions(x, y)
  {
    if SameOptions(x, y) {
      SameAt(x, y, i);
    }
  }

  /** The walk ends at `i` exactly when the options there are the first apart. */
  lemma {:induction false} OptionsTell(x: seq<Value>, y: seq<Value>, i: nat)
    requires AllSound(x) && AllSound(y) && |x| == |y|
    ensures FirstUnequal(NormalizeOptions(x), NormalizeOptions(y), 0) == Some(i) <==> FirstApart(x, y, i)
  {
    var stop := FirstUnequal(NormalizeOptions(x), NormalizeOptions(y), 0);
    if stop.Some? {
      WalkStops(x, y);
    }
    if FirstApart(x, y, i) {
      ApartIsNotSame(x, y, i);
      WalkIsExact(x, y);
    }
  }

  lemma {:induction false} OptionsDiffer(defined: Record, registered: Record, d: Difference)
    requires FieldsSound(defined) && FieldsSound(registered)
    requires SameDescription(defined, registered) && SamePermissions(defined, registered)
    requires !SameOptions(ListOf(defined, "options"), ListOf(registered, "options"))
    ensures FirstDifference(defined, registered) == Some(d) <==> FirstToDiffer(defined, registered, d)
  {
    var x, y := ListOf(defined, "options"), ListOf(registered, "options");
    ListIsSound(defined, "options");
    ListIsSound(registered, "options");
    WalkIsExact(x, y);
    if |x| == |y| {
      OptionsTell(x, y, if d.OptionAt? then d.index else 0);
    }
  }

  lemma {:induction false} SameIsNotApart(x: seq<Value>, y: seq<Value>)
    requires SameOptions(x, y)
    ensures |x| == |y| && forall i: nat :: !FirstApart(x, y, i)
  {
    forall i: nat | FirstApart(x, y, i) ensures false {
      ApartIsNotSame(x, y, i);
    }
  }

  lemma OnlyDmIsLeft(defined: Record, registered: Record)
    requires FieldsSound(defined) && FieldsSound(registered)
    requires SameDescription(defined, registered) && SamePermissions(defined, registered)
    requires SameOptions(ListOf(defined, "options"), ListOf(registered, "options"))
    ensures FirstDifference(defined, registered) ==
            DmDifference(Get(defined, "dm_permission"), Get(registered, "dm_permission"))
  {
    ListIsSound(defined, "options");
    ListIsSound(registered, "options");
    WalkIsExact(ListOf(defined, "options"), ListOf(registered, "options"));
  }

  lemma DmDiffers(defined: Record, registered: Record, d: Difference)
    requires SameDescription(defined, registered) && SamePermissions(defined, registered)
    requires SameOptions(ListOf(defined, "options"), ListOf(registered, "options"))
    ensures DmDifference(Get(defined, "dm_permission"), Get(registered, "dm_permission")) == Some(d) <==>
            FirstToDiffer(defined, registered, d)
  {
    SameIsNotApart(ListOf(defined, "options"), ListOf(registered, "options"));
  }

  /** The difference reported is exactly the first field that does not agree. */
  lemma DifferenceIsTheFirst(defined: Record, registered: Record, d: Difference)
    requires FieldsSound(defined) && FieldsSound(registered)
    ensures FirstDifference(defined, registered) == Some(d) <==> FirstToDiffer(defined, registered, d)
  {
    if SameDescription(defined, registered) && SamePermissions(defined, registered) {
      if SameOptions(ListOf(defined, "options"), ListOf(registered, "options")) {
        OnlyDmIsLeft(defined, registered);
        DmDiffers(defined, registered, d);
      } else {
        OptionsDiffer(defined, registered, d);
      }
    }
  }

  // ----- the lines -----

  /** Some command gives this line. */
  ghost predicate Given(defined: seq<Command>, byName: map<Name, Record>, compare: Compare, line: Reason) {
    exists i :: 0 <= i < |defined| && line in ReasonFor(defined[i], byName, compare)
  }

  lemma {:induction false} GivenInit(before: seq<Command>, last: Command, byName: map<Name, Record>, compare: Compare,
                                     line: Reason)
    ensures Given(before + [last], byName, compare, line) <==>
            Given(before, byName, compare, line) || line in ReasonFor(last, byName, compare)
  {
    var defined := before + [last];
    assert defined[|before|] == last;
    if Given(before, byName, compare, line) {
      var i :| 0 <= i < |before| && line in ReasonFor(before[i], byName, compare);
      assert defined[i] == before[i];
    }
  }

  lemma {:induction false} ReasonsHold(defined: seq<Command>, byName: map<Name, Record>, compare: Compare, line: Reason)
    ensures line in ReasonsFor(defined, byName, compare) <==> Given(defined, byName, compare, line)
  {
    if defined != [] {
      var before, last := defined[..|defined| - 1], defined[|defined| - 1];
      ReasonsHold(before, byName, compare, line);
      GivenInit(before, last, byName, compare, line);
      assert defined == before + [last];
    }
  }

  lemma {:induction false} LeftoversHold(names: seq<Name>, defined: set<Name>, line: Reason)
    ensures line in Leftovers(names, defined) <==>
            line.NoLongerDefined? && line.name in names && line.name !in defined
  {
    if names != [] {
      LeftoversHold(names[..|names| - 1], defined, line);
    }
  }

  /** A command is registered under this name and differs first in this field. */
  ghost predicate DiffersFirst(defined: seq<Command>, registered: seq<Command>, name: Name, d: Difference) {
    exists i, j :: 0 <= i < |defined| && 0 <= j < |registered| && defined[i].name == registered[j].name == name
      && FirstToDiffer(defined[i].record, registered[j].record, d)
  }

  /** What a line says is so. */
  ghost predicate Applies(defined: seq<Command>, registered: seq<Command>, line: Reason) {
    if line.NotRegistered? then Has(defined, line.name) && !Has(registered, line.name)
    else if line.Differs? then DiffersFirst(defined, registered, line.name, line.difference)
    else line.NoLongerDefined? && Has(registered, line.name) && !Has(defined, line.name)
  }

  lemma {:induction false} ChangesHold(defined: seq<Command>, registered: seq<Command>, line: Reason)
    requires Unique(registered) && AllFieldsSound(defined) && AllFieldsSound(registered)
    ensures line in ReasonsFor(defined, ByName(registered).at, FirstDifference) <==>
      !line.NoLongerDefined? && Applies(defined, registered, line)
  {
    var byName := ByName(registered).at;
    ReasonsHold(defined, byName, FirstDifference, line);
    forall i | 0 <= i < |defined| {
      IndexIsExact(registered, defined[i].name);
    }
    if line.Differs? {
      DifferencesHold(defined, registered, line);
    }
  }

  lemma {:induction false} DifferencesHold(defined: seq<Command>, registered: seq<Command>, line: Reason)
    requires Unique(registered) && AllFieldsSound(defined) && AllFieldsSound(registered) && line.Differs?
    ensures Given(defined, ByName(registered).at, FirstDifference, line) <==>
            DiffersFirst(defined, registered, line.name, line.difference)
  {
    var byName := ByName(registered).at;
    if i :| 0 <= i < |defined| && line in ReasonFor(defined[i], byName, FirstDifference) {
      IndexIsExact(registered, line.name);
      var j :| 0 <= j < |registered| && registered[j].name == line.name;
      DifferenceIsTheFirst(defined[i].record, registered[j].record, line.difference);
      assert DiffersFirst(defined, registered, line.name, line.difference);
    }
    if DiffersFirst(defined, registered, line.name, line.difference) {
      var i, j :| 0 <= i < |defined| && 0 <= j < |registered| && defined[i].name == registered[j].name == line.name
        && FirstToDiffer(defined[i].record, registered[j].record, line.difference);
      IndexIsExact(registered, line.name);
      assert Has(registered, line.name);
      DifferenceIsTheFirst(defined[i].record, registered[j].record, line.difference);
      assert line in ReasonFor(defined[i], byName, FirstDifference);
    }
  }

  /** Before it is shortened the report holds a line for every command that is missing, that differs, naming the
      first field that does, or that is no longer defined, and no other line. */
  lemma LinesAreExact(defined: seq<Command>, registered: seq<Command>, line: Reason)
    requires Unique(registered) && AllFieldsSound(defined) && AllFieldsSound(registered)
    ensures line in AllReasons(defined, registered, FirstDifference) <==> Applies(defined, registered, line)
  {
    ChangesHold(defined, registered, line);
    LeftoversHold(ByName(registered).order, Names(defined), line);
    if line.NoLongerDefined? {
      IndexIsExact(registered, line.name);
      NamesAreExact(defined, line.name);
    }
  }

  /** A report of more than five lines is its first five and how many there were besides. */
  lemma ReportIsShortened(reasons: seq<Reason>)
    ensures |reasons| <= 5 ==> Truncated(reasons) == reasons
    ensures |reasons| > 5 ==>
      && |Truncated(reasons)| == 6 && Truncated(reasons)[..5] == reasons[..5]
      && Truncated(reasons)[5] == AndMore(|reasons| - 5)
  {
  }

  // ----- whose commands -----

  /** The command's name, if it has one that is text. */
  predicate IsCalled(command: Value, name: string) {
    Get(AsRecord(command), "name") == Some(Text(name))
  }

  ghost predicate Calls(commands: seq<Value>, name: string) {
    exists i :: 0 <= i < |commands| && IsCalled(commands[i], name)
  }

  lemma CallsInit(before: seq<Value>, last: Value, name: string)
    ensures Calls(before + [last], name) <==> Calls(before, name) || IsCalled(last, name)
  {
    var commands := before + [last];
    assert commands[|before|] == last;
    if Calls(before, name) {
      var i :| 0 <= i < |before| && IsCalled(before[i], name);
      assert IsCalled(commands[i], name);
    }
  }

  /** The commands Discord reports are those that have a name. */
  lemma {:induction false} RegisteredAreNamed(commands: seq<Value>, name: string)
    ensures Has(Registered(commands), Name(name)) <==> Calls(commands, name)
  {
    if commands != [] {
      var before, last := commands[..|commands| - 1], commands[|commands| - 1];
      RegisteredAreNamed(before, name);
      assert commands == before + [last];
      CallsInit(before, last, name);
      if CommandDiff.NameOf(last).Some? {
        HasInit(Registered(before), Command(CommandDiff.NameOf(last).value, AsRecord(last)), Name(name));
      } else {
        assert Registered(before) + [] == Registered(before);
      }
    }
  }

  /** Those defined here are all compared, one without a name under the stand-in. */
  lemma {:induction false} DefinedAreAll(commands: seq<Value>)
    ensures |Defined(commands)| == |commands|
    ensures forall i :: 0 <= i < |commands| ==>
      && Defined(commands)[i].record == AsRecord(commands[i])
      && (if CommandDiff.NameOf(commands[i]).Some? then IsCalled(commands[i], Defined(commands)[i].name.text)
          else Defined(commands)[i].name == Name("(unnamed)"))
  {
    if commands != [] {
      DefinedAreAll(commands[..|commands| - 1]);
    }
  }
}
