/**
 * `Cli.parseParams` and `CommandGroup.parse`: the flag phase, the help
 * check, the option phase, command routing (which re-enters the whole
 * pipeline for a command's sub-elements on the same stream and results),
 * and the check for leftover tokens.
 */
module Parser {
  import opened Wrappers
  import opened Values
  import opened Elements
  import opened Streams
  import opened Helpers
  import Flags
  import Options

  /** A callback invocation, in the order the callbacks run. */
  datatype Event =
    | CommandCallback(group: string, command: Option<string>)
    | GroupCallback(group: string, command: Option<string>)

  /** The token stream as the caller sees it, the results, and the callbacks fired so far. */
  datatype State = State(args: seq<string>, params: Params, trace: seq<Event>)

  /** The `options` argument of `Cli.parseParams`; an absent entry is `false`. */
  datatype ParseOptions = ParseOptions(cloneArgs: bool, verboseEnabled: bool, helpEnabled: bool, allowExtraArgs: bool)

  /** What `CommandGroup.parse` passes to a nested parse: `{cloneArgs: false}` and nothing else. */
  const Nested := ParseOptions(false, false, false, false)

  /** How a parse ends: with results, by showing help (results so far included), or with an error. */
  datatype Step =
    | Parsed(state: State)
    | HelpRequested(state: State)
    | Failed(error: Error)

  /** `args[0]`, `undefined` on an empty stream. */
  function Head(args: seq<string>): (r: Option<string>)
    ensures r.Some? <==> args != []
    ensures args != [] ==> r.value == args[0]
  {
    if args == [] then None else Some(args[0])
  }

  /** What `params[group] = command.name` stores. */
  function NameValue(name: Option<string>): (v: Value)
    ensures name.None? <==> v == Undef
    ensures name.Some? ==> v == Str(name.value)
  {
    match name
    case None => Undef
    case Some(s) => Str(s)
  }

  function ExtrasMessage(rest: seq<string>): string {
    "Invalid extra params supplied: " + Join(rest, ", ")
  }

  function RequiredGroupMessage(g: CommandGroup): string {
    "Command Group " + g.name + " is required and cannot be omitted"
  }

  /** The flag results of one call: the flag phase on its stream with its working list. */
  function FlagResults(args: seq<string>, reg: Registry, opts: ParseOptions): (r: (seq<string>, Params))
    ensures r == Flags.FlagPhase(args, reg.flags, opts.verboseEnabled, opts.helpEnabled)
    ensures opts.helpEnabled ==> "help" in r.1
  {
    SyntheticFlagsAreWorking(reg.flags, opts.verboseEnabled, opts.helpEnabled);
    Flags.FlagPhase(args, reg.flags, opts.verboseEnabled, opts.helpEnabled)
  }

  /** The synthetic flags are in the working list exactly when they are enabled. */
  lemma SyntheticFlagsAreWorking(flags: seq<FlagDef>, verboseEnabled: bool, helpEnabled: bool)
    ensures helpEnabled ==> "help" in Flags.Names(Flags.WorkingFlags(flags, verboseEnabled, helpEnabled))
    ensures verboseEnabled ==> "verbose" in Flags.Names(Flags.WorkingFlags(flags, verboseEnabled, helpEnabled))
  {
    var w := Flags.WorkingFlags(flags, verboseEnabled, helpEnabled);
    if helpEnabled {
      assert w[|w| - 1] == Flags.HelpFlag;
    }
    if verboseEnabled {
      assert w[|flags|] == Flags.VerboseFlag;
    }
  }

  /**
   * The last callback recorded is the group callback of `g`, and
   * `params[g.name]` holds the name of the command it was fired for.
   */
  predicate Recorded(st: State, g: CommandGroup) {
    && |st.trace| > 0
    && st.trace[|st.trace| - 1].GroupCallback?
    && st.trace[|st.trace| - 1].group == g.name
    && g.name in st.params
    && st.params[g.name] == NameValue(st.trace[|st.trace| - 1].command)
  }

  /**
   * `Cli.parseParams(args, params, elements, options)`. The phases run in
   * order on one stream: flags (merged into the results), the help check,
   * options (merged), command groups, and, unless extra arguments are
   * allowed, the check that nothing is left. With `cloneArgs` the caller's
   * array is left as it was; otherwise the caller sees the consumed stream.
   */
  function ParseParams(args: seq<string>, params: Params, trace: seq<Event>, reg: Registry, opts: ParseOptions): (r: Step)
    ensures r.HelpRequested? <==> opts.helpEnabled && Truthy(FlagResults(args, reg, opts).1["help"])
    ensures r.HelpRequested? ==> r.state.params == Merge(params, FlagResults(args, reg, opts).1) && r.state.trace == trace
    ensures !r.Failed? ==> IsSubseq(r.state.args, args)
    ensures !r.Failed? && opts.cloneArgs ==> r.state.args == args
    ensures r.Parsed? && !opts.cloneArgs && !opts.allowExtraArgs ==> r.state.args == []
    ensures r.Parsed? ==> params.Keys <= r.state.params.Keys
    ensures r.Parsed? ==> Flags.Names(Flags.WorkingFlags(reg.flags, opts.verboseEnabled, opts.helpEnabled)) <= r.state.params.Keys
    ensures r.Parsed? ==> forall o :: o in reg.options && o.required ==> o.name in r.state.params
    ensures r.Parsed? ==> forall g :: g in reg.groups && g.required ==> g.name in r.state.params
    ensures r.Parsed? ==> trace <= r.state.trace
    decreases SizeGroups(reg.groups), 3, 0, 0
  {
    var fr := FlagResults(args, reg, opts);
    var p1 := Merge(params, fr.1);
    HelpValue(params, fr.1);
    SubseqRefl(args);
    if "help" in p1 && Truthy(p1["help"]) && opts.helpEnabled then
      HelpRequested(State(if opts.cloneArgs then args else fr.0, p1, trace))
    else
      match AfterFlags(fr.0, p1, trace, reg, opts.allowExtraArgs)
      case Err(e) => Failed(e)
      case Ok(st) =>
        SubseqTrans(st.args, fr.0, args);
        Parsed(State(if opts.cloneArgs then args else st.args, st.params, st.trace))
  }

  /** The value of `help` after merging the flag results is the flag phase's. */
  lemma HelpValue(params: Params, flagResults: Params)
    requires Flags.FlagResult(flagResults)
    ensures "help" in flagResults ==> Merge(params, flagResults)["help"] == flagResults["help"]
  {
  }

  /** The options phase (merged into the results) and then the command groups, on one stream. */
  function OptionsAndGroups(args: seq<string>, params: Params, trace: seq<Event>, reg: Registry): (r: Outcome<State>)
    ensures r.Ok? ==> IsSubseq(r.value.args, args)
    ensures r.Ok? ==> params.Keys <= r.value.params.Keys
    ensures r.Ok? ==> forall o :: o in reg.options && o.required ==> o.name in r.value.params
    ensures r.Ok? ==> forall g :: g in reg.groups && g.required ==> g.name in r.value.params
    ensures r.Ok? ==> trace <= r.value.trace
    decreases SizeGroups(reg.groups), 2, 0, 1
  {
    match Options.OptionPhase(args, reg.options)
    case Err(e) => Err(e)
    case Ok(op) =>
      var p2 := Merge(params, op.1);
      match RouteGroups(op.0, p2, trace, reg.groups, 0)
      case Err(e) => Err(e)
      case Ok(st) =>
        SubseqTrans(st.args, op.0, args);
        Ok(st)
  }

  /**
   * The rest of `Cli.parseParams` after the help check: options and
   * command groups, then the leftover check. With extra arguments allowed
   * the check is skipped and whatever tokens remain stay; without, any
   * remaining token fails the parse with a message listing all of them.
   */
  function AfterFlags(args: seq<string>, params: Params, trace: seq<Event>, reg: Registry, allowExtraArgs: bool): (r: Outcome<State>)
    ensures allowExtraArgs ==> r == OptionsAndGroups(args, params, trace, reg)
    ensures !allowExtraArgs ==>
      var routed := OptionsAndGroups(args, params, trace, reg);
      && (routed.Ok? && routed.value.args != [] ==> r == Err(Admiral(ExtrasMessage(routed.value.args))))
      && (routed.Ok? && routed.value.args == [] ==> r == routed)
      && (routed.Err? ==> r == routed)
    ensures r.Ok? ==> IsSubseq(r.value.args, args)
    ensures r.Ok? && !allowExtraArgs ==> r.value.args == []
    ensures r.Ok? ==> params.Keys <= r.value.params.Keys
    ensures r.Ok? ==> forall o :: o in reg.options && o.required ==> o.name in r.value.params
    ensures r.Ok? ==> forall g :: g in reg.groups && g.required ==> g.name in r.value.params
    ensures r.Ok? ==> trace <= r.value.trace
    decreases SizeGroups(reg.groups), 2, 0, 2
  {
    match OptionsAndGroups(args, params, trace, reg)
    case Err(e) => Err(e)
    case Ok(st) =>
      if !allowExtraArgs && st.args != [] then
        Err(Admiral(ExtrasMessage(st.args)))
      else
        Ok(st)
  }

  /**
   * With nothing registered, the options and command groups consume
   * nothing, so the leftover check rejects exactly the non-empty streams,
   * listing every token.
   */
  lemma NothingRegisteredRejectsLeftovers(args: seq<string>, params: Params, trace: seq<Event>)
    ensures AfterFlags(args, params, trace, Registry([], [], []), false)
         == if args == [] then Ok(State([], params, trace)) else Err(Admiral(ExtrasMessage(args)))
  {
    MergeWithEmpty(params);
    assert Options.OptionPhase(args, []) == Ok((args, map[]));
    assert RouteGroups(args, params, trace, [], 0) == Ok(State(args, params, trace));
    assert OptionsAndGroups(args, params, trace, Registry([], [], [])) == Ok(State(args, params, trace));
  }

  /** The outer loop of `CommandGroup.parse` from the `i`-th group on. */
  function RouteGroups(args: seq<string>, params: Params, trace: seq<Event>, groups: seq<CommandGroup>, i: nat): (r: Outcome<State>)
    requires i <= |groups|
    ensures r.Ok? ==> IsSubseq(r.value.args, args)
    ensures r.Ok? ==> params.Keys <= r.value.params.Keys
    ensures r.Ok? ==> trace <= r.value.trace
    ensures r.Ok? ==> forall k :: i <= k < |groups| && groups[k].required ==> groups[k].name in r.value.params
    ensures i < |groups| && groups[i].required && (forall c :: c in groups[i].commands ==> c.name != Head(args)) ==>
      r == Err(Admiral(RequiredGroupMessage(groups[i])))
    decreases SizeGroups(groups), 1, |groups| - i, 0
  {
    if i == |groups| then
      SubseqRefl(args);
      Ok(State(args, params, trace))
    else
      var g := groups[i];
      SizeGroupBound(groups, i);
      assert (forall c :: c in g.commands ==> c.name != Head(args)) ==>
        forall k :: 0 <= k < |g.commands| ==> g.commands[k].name != Head(args);
      match ScanCommands(args, params, trace, g, 0, false)
      case Err(e) => Err(e)
      case Ok(sc) =>
        if !sc.1 && g.required then
          Err(Admiral(RequiredGroupMessage(g)))
        else
          match RouteGroups(sc.0.args, sc.0.params, sc.0.trace, groups, i + 1)
          case Err(e) => Err(e)
          case Ok(st) =>
            SubseqTrans(st.args, sc.0.args, args);
            Ok(st)
  }

  /** The routing of `groups` continued with the groups of `rest` on the stream, results and callbacks it leaves. */
  function RouteOn(o: Outcome<State>, rest: seq<CommandGroup>): Outcome<State> {
    match o
    case Err(e) => Err(e)
    case Ok(st) => RouteGroups(st.args, st.params, st.trace, rest, 0)
  }

  /**
   * The groups run one after another, each on the stream, results and
   * callbacks the previous ones left: routing `first + rest` is routing
   * `first`, then routing `rest` on what it left, and an error in `first`
   * stops everything.
   */
  lemma RouteGroupsInOrder(args: seq<string>, params: Params, trace: seq<Event>, first: seq<CommandGroup>, rest: seq<CommandGroup>)
    ensures RouteGroups(args, params, trace, first + rest, 0) == RouteOn(RouteGroups(args, params, trace, first, 0), rest)
  {
    RouteGroupsSplit(args, params, trace, first, rest, 0);
  }

  lemma {:induction false} RouteGroupsSplit(args: seq<string>, params: Params, trace: seq<Event>, first: seq<CommandGroup>, rest: seq<CommandGroup>, i: nat)
    requires i <= |first|
    ensures RouteGroups(args, params, trace, first + rest, i) == RouteOn(RouteGroups(args, params, trace, first, i), rest)
    decreases |first| - i
  {
    if i == |first| {
      RouteGroupsShifted(args, params, trace, first, rest, 0);
    } else {
      assert (first + rest)[i] == first[i];
      match ScanCommands(args, params, trace, first[i], 0, false)
      case Err(e) =>
      case Ok(sc) =>
        if sc.1 || !first[i].required {
          RouteGroupsSplit(sc.0.args, sc.0.params, sc.0.trace, first, rest, i + 1);
        }
    }
  }

  /** Routing from position `|first| + m` of `first + rest` is routing `rest` from position `m`. */
  lemma {:induction false} RouteGroupsShifted(args: seq<string>, params: Params, trace: seq<Event>, first: seq<CommandGroup>, rest: seq<CommandGroup>, m: nat)
    requires m <= |rest|
    ensures RouteGroups(args, params, trace, first + rest, |first| + m) == RouteGroups(args, params, trace, rest, m)
    decreases |rest| - m
  {
    if m < |rest| {
      assert (first + rest)[|first| + m] == rest[m];
      match ScanCommands(args, params, trace, rest[m], 0, false)
      case Err(e) =>
      case Ok(sc) =>
        if sc.1 || !rest[m].required {
          RouteGroupsShifted(sc.0.args, sc.0.params, sc.0.trace, first, rest, m + 1);
        }
    }
  }

  /**
   * The `forEach` over one group's commands from the `j`-th on. Each
   * command is compared with the current head (`args[0] == command.name`,
   * so a nameless command matches an empty stream); a match removes the
   * head, runs the nested parse of the command's sub-elements, records the
   * command under the group's name and fires the command's and then the
   * group's callback. The scan goes on after a match.
   */
  function ScanCommands(args: seq<string>, params: Params, trace: seq<Event>, g: CommandGroup, j: nat, found: bool): (r: Outcome<(State, bool)>)
    requires j <= |g.commands|
    ensures r.Ok? ==> IsSubseq(r.value.0.args, args)
    ensures r.Ok? ==> params.Keys <= r.value.0.params.Keys
    ensures r.Ok? ==> trace <= r.value.0.trace
    ensures r.Ok? && found ==> r.value.1
    ensures r.Ok? && !r.value.1 ==> r.value.0 == State(args, params, trace)
    ensures r.Ok? && r.value.1 && !found ==> exists k :: j <= k < |g.commands| && g.commands[k].name == Head(args)
    ensures r.Ok? && r.value.1 && !found ==> IsSubseq(r.value.0.args, Shift(args))
    ensures (forall k :: j <= k < |g.commands| ==> g.commands[k].name != Head(args)) ==>
      r == Ok((State(args, params, trace), found))
    ensures r.Ok? && r.value.1 && !found ==> Recorded(r.value.0, g)
    ensures r.Ok? && found && Recorded(State(args, params, trace), g) ==> Recorded(r.value.0, g)
    decreases SizeGroup(g), 0, |g.commands| - j, 1
  {
    if j == |g.commands| then
      SubseqRefl(args);
      Ok((State(args, params, trace), found))
    else
      var c := g.commands[j];
      if Head(args) == c.name then
        var after := Shift(args);
        match EnterCommand(after, params, trace, g, j)
        case Err(e) => Err(e)
        case Ok(st) =>
          var st' := Record(st, g, c);
          match ScanCommands(st'.args, st'.params, st'.trace, g, j + 1, true)
          case Err(e) => Err(e)
          case Ok(sc) =>
            SubseqTrans(st.args, after, args);
            SubseqTrans(sc.0.args, st.args, args);
            Ok(sc)
      else
        ScanCommands(args, params, trace, g, j + 1, found)
  }

  /**
   * After a match: `params[group] = command.name`, then the command's
   * callback (if it has one) and the group's callback fire.
   */
  function Record(st: State, g: CommandGroup, c: Command): (r: State)
    ensures Recorded(r, g)
    ensures r.args == st.args
    ensures r.params.Keys == st.params.Keys + {g.name}
    ensures r.params[g.name] == NameValue(c.name)
    ensures forall k :: k in st.params && k != g.name ==> r.params[k] == st.params[k]
    ensures st.trace <= r.trace
    ensures r.trace[|st.trace|..] ==
      (if c.hasCallback then [CommandCallback(g.name, c.name), GroupCallback(g.name, c.name)] else [GroupCallback(g.name, c.name)])
  {
    var events := (if c.hasCallback then [CommandCallback(g.name, c.name)] else []) + [GroupCallback(g.name, c.name)];
    State(st.args, st.params[g.name := NameValue(c.name)], st.trace + events)
  }

  /**
   * The part of a match between removing the head and recording the
   * command: a command with sub-elements partitions them and parses them
   * on the same stream and results, with only `cloneArgs: false` set, so
   * that nested parse adds no verbose or help flag and rejects whatever
   * tokens it leaves.
   */
  function EnterCommand(after: seq<string>, params: Params, trace: seq<Event>, g: CommandGroup, j: nat): (r: Outcome<State>)
    requires j < |g.commands|
    ensures g.commands[j].subElements == [] ==> r == Ok(State(after, params, trace))
    ensures Partition(g.commands[j].subElements).Err? ==> r == Err(Admiral(SubElementMessage))
    ensures r.Ok? ==> IsSubseq(r.value.args, after)
    ensures r.Ok? ==> params.Keys <= r.value.params.Keys
    ensures r.Ok? ==> trace <= r.value.trace
    ensures r.Ok? && g.commands[j].subElements != [] ==> r.value.args == []
    decreases SizeGroup(g), 0, |g.commands| - j, 0
  {
    var c := g.commands[j];
    if |c.subElements| == 0 then
      SubseqRefl(after);
      Ok(State(after, params, trace))
    else
      match Partition(c.subElements)
      case Err(e) => Err(e)
      case Ok(reg) =>
        SubScopeIsSmaller(g, j);
        match ParseParams(after, params, trace, reg, Nested)
        case Failed(e) => Err(e)
        // a nested parse has help disabled, so it never asks for help
        case HelpRequested(st) => Ok(st)
        case Parsed(st) => Ok(st)
  }
}
