/**
 * The registered elements of a command line: flags, options, command
 * groups and their commands, with the validation their constructors
 * perform, and the partition of a command's sub-elements by kind.
 */
module Elements {
  import opened Wrappers
  import opened Values

  /** An option's `length`: a number, or a non-numeric string such as `'*'` or `'+'`. */
  datatype Length = Count(n: int) | Star | Plus

  /** The value a flag stores when it is triggered. */
  datatype FlagValue = FBool(b: bool) | FInt(i: int)

  datatype FlagDef = FlagDef(name: string, shortTrigger: Option<string>, longTrigger: Option<string>, value: FlagValue)

  datatype OptionDef = OptionDef(
    name: string,
    shortTrigger: Option<string>,
    longTrigger: Option<string>,
    typeName: string,
    length: Length,
    required: bool)

  /** A command; `name` is `None` when the command was built without one. */
  datatype Command = Command(name: Option<string>, hasCallback: bool, subElements: seq<Element>)

  /** A command group. Its callback is always a function (a no-op by default), so it is not represented. */
  datatype CommandGroup = CommandGroup(name: string, commands: seq<Command>, required: bool)

  /** Anything that may be listed as a command's sub-element; `Foreign` is any other object. */
  datatype Element =
    | OptionEl(option: OptionDef)
    | FlagEl(flag: FlagDef)
    | GroupEl(group: CommandGroup)
    | Foreign

  /** The `{options, flags, commandGroups}` record a parse works on. */
  datatype Registry = Registry(options: seq<OptionDef>, flags: seq<FlagDef>, groups: seq<CommandGroup>)

  /** Whether `c` is one UTF-16 code unit (it lies in the Basic Multilingual Plane). */
  predicate SingleUnit(c: char) {
    c as int < 0x1_0000
  }

  /** The length of `s` counted in UTF-16 code units, as a JavaScript string reports it. */
  function Utf16Length(s: string): nat {
    if s == [] then 0 else (if SingleUnit(s[0]) then 1 else 2) + Utf16Length(s[1..])
  }

  /**
   * A short trigger, when given, is `-` and exactly one more UTF-16 code unit,
   * so a character outside the Basic Multilingual Plane (two units) is refused.
   */
  predicate ShortTriggerOk(t: Option<string>) {
    t.None? || (|t.value| == 2 && t.value[0] == '-' && SingleUnit(t.value[1]))
  }

  /** A long trigger, when given, is `--` and at least one more character. */
  predicate LongTriggerOk(t: Option<string>) {
    t.None? || (|t.value| > 2 && t.value[..2] == "--")
  }

  /** The trigger invariant every constructed flag and option satisfies. */
  predicate TriggersOk(shortTrigger: Option<string>, longTrigger: Option<string>) {
    ShortTriggerOk(shortTrigger) && LongTriggerOk(longTrigger) && (shortTrigger.Some? || longTrigger.Some?)
  }

  predicate Blank(t: Option<string>) {
    t.None? || |t.value| == 0
  }

  /** The three trigger checks shared by the flag and option constructors, in the order they run. */
  function CheckTriggers(kind: string, name: string, shortTrigger: Option<string>, longTrigger: Option<string>): (r: Outcome<()>)
    ensures r.Ok? <==> TriggersOk(shortTrigger, longTrigger)
    ensures r.Err? ==> r.error.Admiral?
  {
    if !ShortTriggerOk(shortTrigger) then
      Err(Admiral("The " + kind + ": " + name + "'s short property must start with a '-' and be one more character."))
    else if !LongTriggerOk(longTrigger) then
      Err(Admiral("The " + kind + ": " + name + "'s long property must start with '--' and be one or more character"))
    else if Blank(shortTrigger) && Blank(longTrigger) then
      Err(Admiral("The " + kind + ": " + name + "'s must have a shortFlag or longFlag property"))
    else
      Ok(())
  }

  lemma {:induction false} Utf16LengthAtLeast(s: string)
    ensures Utf16Length(s) >= |s|
  {
    if s != [] {
      Utf16LengthAtLeast(s[1..]);
    }
  }

  /**
   * The short-trigger check read in UTF-16 code units: the trigger's length is
   * two units and its first unit is `-` (a first character outside the Basic
   * Multilingual Plane begins with a surrogate, never `-`).
   */
  lemma ShortTriggerIsTwoUnits(t: string)
    ensures ShortTriggerOk(Some(t)) <==> (Utf16Length(t) == 2 && t != [] && t[0] == '-')
  {
    if t != [] && t[0] == '-' {
      Utf16LengthAtLeast(t[1..]);
      if |t| >= 3 {
        Utf16LengthAtLeast(t[2..]);
      } else if |t| == 2 {
        assert t[1..][1..] == [];
      }
    }
  }

  /**
   * The long-trigger check read in UTF-16 code units: more than two units, the
   * first two being `--`. Since `-` is one unit, the first two units are `--`
   * exactly when the first two characters are.
   */
  lemma LongTriggerIsUnits(t: string)
    ensures LongTriggerOk(Some(t)) <==> (Utf16Length(t) > 2 && |t| >= 2 && t[..2] == "--")
  {
    Utf16LengthAtLeast(t);
    if |t| == 2 && t[..2] == "--" {
      assert t == "--";
      assert Utf16Length(t) == 2;
    }
  }


  predicate FlagValueTruthy(v: FlagValue) {
    match v
    case FBool(b) => b
    case FInt(i) => i != 0
  }

  /** `new Flag(options)`. */
  function NewFlag(name: string, shortTrigger: Option<string>, longTrigger: Option<string>, value: Option<FlagValue>): (r: Outcome<FlagDef>)
    ensures r.Ok? <==> TriggersOk(shortTrigger, longTrigger)
    ensures r.Err? ==> r.error.Admiral?
    ensures r.Ok? ==> r.value.name == name && r.value.shortTrigger == shortTrigger && r.value.longTrigger == longTrigger
    ensures r.Ok? ==> FlagValueTruthy(r.value.value)
    ensures r.Ok? && value.Some? && FlagValueTruthy(value.value) ==> r.value.value == value.value
    ensures r.Ok? && (value.None? || !FlagValueTruthy(value.value)) ==> r.value.value == FBool(true)
  {
    var v := if value.Some? && FlagValueTruthy(value.value) then value.value else FBool(true);
    var _ :- CheckTriggers("flag", name, shortTrigger, longTrigger);
    Ok(FlagDef(name, shortTrigger, longTrigger, v))
  }

  /** `new Option(options)`; an absent `options` object is the call with every argument `None`. */
  function NewOption(
    name: string,
    shortTrigger: Option<string>,
    longTrigger: Option<string>,
    typeName: Option<string>,
    length: Option<Length>,
    required: Option<bool>): (r: Outcome<OptionDef>)
    ensures r.Ok? <==> length != Some(Count(0)) && TriggersOk(shortTrigger, longTrigger)
    ensures r.Err? ==> r.error.Admiral?
    ensures length == Some(Count(0)) ==>
      r == Err(Admiral("A length of 0 doesn't make sense for an option, use a flag instead or set required to false. Option " + name))
    ensures r.Ok? ==> r.value.name == name && r.value.shortTrigger == shortTrigger && r.value.longTrigger == longTrigger
    ensures r.Ok? && (typeName.None? || typeName == Some("")) ==> r.value.typeName == "string"
    ensures r.Ok? && typeName.Some? && typeName.value != "" ==> r.value.typeName == typeName.value
    ensures r.Ok? ==> r.value.length == (if length.Some? then length.value else Count(1))
    ensures r.Ok? ==> r.value.required == (required.None? || required.value)
  {
    var t := if typeName.Some? && typeName.value != "" then typeName.value else "string";
    var len := if length.Some? then length.value else Count(1);
    var req := if required.Some? then required.value else true;
    if len == Count(0) then
      Err(Admiral("A length of 0 doesn't make sense for an option, use a flag instead or set required to false. Option " + name))
    else
      var _ :- CheckTriggers("option", name, shortTrigger, longTrigger);
      Ok(OptionDef(name, shortTrigger, longTrigger, t, len, req))
  }

  /** `new Command(options)`: a record whose sub-elements default to none. */
  function NewCommand(name: Option<string>, hasCallback: bool, subElements: Option<seq<Element>>): (c: Command)
    ensures c.name == name && c.hasCallback == hasCallback
    ensures subElements.None? ==> c.subElements == []
    ensures subElements.Some? ==> c.subElements == subElements.value
  {
    Command(name, hasCallback, if subElements.Some? then subElements.value else [])
  }

  /**
   * `new CommandGroup(options)`. The constructor's per-command check is
   * written `!command instanceof Command`, which tests a boolean and is
   * never true, so construction never fails.
   */
  function NewCommandGroup(name: string, commands: Option<seq<Command>>, required: Option<bool>): (g: CommandGroup)
    ensures g.name == name
    ensures commands.None? ==> g.commands == []
    ensures commands.Some? ==> g.commands == commands.value
    ensures g.required <==> required == Some(true)
  {
    CommandGroup(name, if commands.Some? then commands.value else [], if required.Some? then required.value else false)
  }

  /** The options among `es`, in order. */
  function OptionsOf(es: seq<Element>): seq<OptionDef> {
    if es == [] then [] else (if es[0].OptionEl? then [es[0].option] else []) + OptionsOf(es[1..])
  }

  /** The flags among `es`, in order. */
  function FlagsOf(es: seq<Element>): seq<FlagDef> {
    if es == [] then [] else (if es[0].FlagEl? then [es[0].flag] else []) + FlagsOf(es[1..])
  }

  /** The command groups among `es`, in order. */
  function GroupsOf(es: seq<Element>): seq<CommandGroup> {
    if es == [] then [] else (if es[0].GroupEl? then [es[0].group] else []) + GroupsOf(es[1..])
  }

  const SubElementMessage := "Command subElements can only be Options, Flags, or CommandGroups"

  lemma NoForeignCons(es: seq<Element>)
    requires es != []
    ensures (forall i :: 0 <= i < |es| ==> !es[i].Foreign?) <==>
            !es[0].Foreign? && forall i :: 0 <= i < |es[1..]| ==> !es[1..][i].Foreign?
  {
    assert forall i :: 1 <= i < |es| ==> es[i] == es[1..][i - 1];
  }

  /** One element's contribution to each of the three lists. */
  lemma KindsOfCons(es: seq<Element>)
    requires es != []
    ensures OptionsOf(es) == (if es[0].OptionEl? then [es[0].option] else []) + OptionsOf(es[1..])
    ensures FlagsOf(es) == (if es[0].FlagEl? then [es[0].flag] else []) + FlagsOf(es[1..])
    ensures GroupsOf(es) == (if es[0].GroupEl? then [es[0].group] else []) + GroupsOf(es[1..])
  {
  }

  /** The `reduce` over a command's sub-elements, continuing from the record built so far. */
  function PartitionFrom(es: seq<Element>, acc: Registry): (r: Outcome<Registry>)
    ensures r.Ok? <==> forall i :: 0 <= i < |es| ==> !es[i].Foreign?
    ensures r.Err? ==> r.error == Admiral(SubElementMessage)
    ensures r.Ok? ==> r.value == Registry(acc.options + OptionsOf(es), acc.flags + FlagsOf(es), acc.groups + GroupsOf(es))
  {
    if es == [] then
      assert acc.options + [] == acc.options && acc.flags + [] == acc.flags && acc.groups + [] == acc.groups;
      Ok(acc)
    else
      NoForeignCons(es);
      KindsOfCons(es);
      match es[0]
      case OptionEl(o) =>
        assert acc.options + [o] + OptionsOf(es[1..]) == acc.options + OptionsOf(es);
        assert FlagsOf(es) == FlagsOf(es[1..]) && GroupsOf(es) == GroupsOf(es[1..]);
        PartitionFrom(es[1..], acc.(options := acc.options + [o]))
      case FlagEl(f) =>
        assert acc.flags + [f] + FlagsOf(es[1..]) == acc.flags + FlagsOf(es);
        assert OptionsOf(es) == OptionsOf(es[1..]) && GroupsOf(es) == GroupsOf(es[1..]);
        PartitionFrom(es[1..], acc.(flags := acc.flags + [f]))
      case GroupEl(g) =>
        assert acc.groups + [g] + GroupsOf(es[1..]) == acc.groups + GroupsOf(es);
        assert OptionsOf(es) == OptionsOf(es[1..]) && FlagsOf(es) == FlagsOf(es[1..]);
        PartitionFrom(es[1..], acc.(groups := acc.groups + [g]))
      case Foreign => Err(Admiral(SubElementMessage))
  }

  /**
   * A command's `subElements` split by kind into options, flags and command
   * groups, each in the order given; any other element is a configuration error.
   */
  function Partition(es: seq<Element>): (r: Outcome<Registry>)
    ensures r.Ok? <==> forall i :: 0 <= i < |es| ==> !es[i].Foreign?
    ensures r.Err? ==> r.error == Admiral(SubElementMessage)
    ensures r.Ok? ==> r.value == Registry(OptionsOf(es), FlagsOf(es), GroupsOf(es))
  {
    PartitionFrom(es, Registry([], [], []))
  }

  // Sizes of the element tree: every nested parse works on a strictly smaller tree.

  function SizeGroups(gs: seq<CommandGroup>): nat {
    if gs == [] then 0 else SizeGroup(gs[0]) + SizeGroups(gs[1..])
  }

  function SizeGroup(g: CommandGroup): nat {
    1 + SizeCommands(g.commands)
  }

  function SizeCommands(cs: seq<Command>): nat {
    if cs == [] then 0 else 1 + SizeElements(cs[0].subElements) + SizeCommands(cs[1..])
  }

  function SizeElements(es: seq<Element>): nat {
    if es == [] then 0 else SizeElement(es[0]) + SizeElements(es[1..])
  }

  function SizeElement(e: Element): nat {
    if e.GroupEl? then SizeGroup(e.group) else 0
  }

  lemma {:induction false} SizeOfGroupsOf(es: seq<Element>)
    ensures SizeGroups(GroupsOf(es)) == SizeElements(es)
  {
    if es != [] {
      SizeOfGroupsOf(es[1..]);
      var rest := GroupsOf(es[1..]);
      if es[0].GroupEl? {
        assert GroupsOf(es) == [es[0].group] + rest;
        assert GroupsOf(es)[1..] == rest;
      } else {
        assert GroupsOf(es) == rest;
      }
    }
  }

  lemma {:induction false} SizeGroupBound(gs: seq<CommandGroup>, i: nat)
    requires i < |gs|
    ensures SizeGroup(gs[i]) <= SizeGroups(gs)
  {
    if i > 0 {
      SizeGroupBound(gs[1..], i - 1);
    }
  }

  lemma {:induction false} SizeCommandBound(cs: seq<Command>, j: nat)
    requires j < |cs|
    ensures SizeElements(cs[j].subElements) < SizeCommands(cs)
  {
    if j > 0 {
      SizeCommandBound(cs[1..], j - 1);
    }
  }

  /** The groups a command's sub-elements partition into form a smaller tree than the command's group. */
  lemma SubScopeIsSmaller(g: CommandGroup, j: nat)
    requires j < |g.commands|
    ensures SizeGroups(GroupsOf(g.commands[j].subElements)) < SizeGroup(g)
  {
    SizeOfGroupsOf(g.commands[j].subElements);
    SizeCommandBound(g.commands, j);
  }
}
