/**
 * The `Cli` object: its configuration defaults, registration of elements,
 * `_getScriptArgs` and `parse`, which runs the top-level `parseParams` on
 * a copy of the script arguments and turns an error on an empty command
 * line into help when `helpOnNoArgs` is set.
 */
module Cli {
  import opened Wrappers
  import opened Values
  import opened Elements
  import opened Streams
  import opened Parser
  import Flags
  import Options
  import opened Helpers

  /** The options given to `new Cli(...)`; `None` is an absent entry. */
  datatype Config = Config(
    scriptName: Option<string>,
    verboseEnabled: Option<bool>,
    helpEnabled: Option<bool>,
    helpOnNoArgs: Option<bool>,
    exitOnHelp: Option<bool>,
    allowExtraArgs: Option<bool>)

  const NoConfig := Config(None, None, None, None, None, None)

  datatype Cli = Cli(
    scriptName: Option<string>,
    verboseEnabled: bool,
    helpEnabled: bool,
    helpOnNoArgs: bool,
    exitOnHelp: bool,
    allowExtraArgs: bool,
    elements: Registry,
    params: Params)

  /** How `parse` ends: it returns results, shows help (and exits or returns what it had), or throws. */
  datatype Result =
    | Success(params: Params, trace: seq<Event>)
    | Help(exitProcess: bool, returned: Option<Params>)
    | Failure(error: Error)

  function OrElse(b: Option<bool>, default: bool): bool {
    if b.Some? then b.value else default
  }

  /**
   * `new Cli(cliOptions)`: verbose, help, help-on-no-arguments and
   * exit-on-help default to on, extra arguments default to rejected, and
   * the results hold `verbose = 0` when verbosity is on.
   */
  function NewCli(config: Config): (cli: Cli)
    ensures cli.scriptName == config.scriptName
    ensures cli.verboseEnabled <==> config.verboseEnabled != Some(false)
    ensures cli.helpEnabled <==> config.helpEnabled != Some(false)
    ensures cli.helpOnNoArgs <==> config.helpOnNoArgs != Some(false)
    ensures cli.exitOnHelp <==> config.exitOnHelp != Some(false)
    ensures cli.allowExtraArgs <==> config.allowExtraArgs == Some(true)
    ensures cli.elements == Registry([], [], [])
    ensures cli.params == if cli.verboseEnabled then map["verbose" := Int(0)] else map[]
  {
    var verbose := OrElse(config.verboseEnabled, true);
    Cli(config.scriptName, verbose, OrElse(config.helpEnabled, true), OrElse(config.helpOnNoArgs, true),
        OrElse(config.exitOnHelp, true), OrElse(config.allowExtraArgs, false),
        Registry([], [], []), if verbose then map["verbose" := Int(0)] else map[])
  }

  /** `cli.option(...)`: the option is validated and appended; a constructor error is thrown. */
  function AddOption(cli: Cli, name: string, shortTrigger: Option<string>, longTrigger: Option<string>,
                     typeName: Option<string>, length: Option<Length>, required: Option<bool>): (r: Outcome<Cli>)
    ensures r.Ok? <==> NewOption(name, shortTrigger, longTrigger, typeName, length, required).Ok?
    ensures r.Ok? ==> r.value == cli.(elements := cli.elements.(options :=
      cli.elements.options + [NewOption(name, shortTrigger, longTrigger, typeName, length, required).value]))
  {
    var o :- NewOption(name, shortTrigger, longTrigger, typeName, length, required);
    Ok(cli.(elements := cli.elements.(options := cli.elements.options + [o])))
  }

  /** `cli.flag(...)`: the flag is validated and appended; a constructor error is thrown. */
  function AddFlag(cli: Cli, name: string, shortTrigger: Option<string>, longTrigger: Option<string>, value: Option<FlagValue>): (r: Outcome<Cli>)
    ensures r.Ok? <==> NewFlag(name, shortTrigger, longTrigger, value).Ok?
    ensures r.Ok? ==> r.value == cli.(elements := cli.elements.(flags :=
      cli.elements.flags + [NewFlag(name, shortTrigger, longTrigger, value).value]))
  {
    var f :- NewFlag(name, shortTrigger, longTrigger, value);
    Ok(cli.(elements := cli.elements.(flags := cli.elements.flags + [f])))
  }

  /** `cli.commandGroup(...)`: the group is appended. */
  function AddCommandGroup(cli: Cli, name: string, commands: Option<seq<Command>>, required: Option<bool>): (r: Cli)
    ensures r.elements.groups == cli.elements.groups + [NewCommandGroup(name, commands, required)]
    ensures r == cli.(elements := r.elements) && r.elements == cli.elements.(groups := r.elements.groups)
  {
    cli.(elements := cli.elements.(groups := cli.elements.groups + [NewCommandGroup(name, commands, required)]))
  }

  /**
   * `_getScriptArgs(argv)`: the interpreter path and the script name are
   * dropped; the script name is remembered only if none was configured.
   */
  function GetScriptArgs(cli: Cli, argv: seq<string>): (r: (Cli, seq<string>))
    ensures r.1 == argv[if |argv| < 2 then |argv| else 2..]
    ensures cli.scriptName.Some? ==> r.0 == cli
    ensures cli.scriptName.None? ==> r.0 == cli.(scriptName := if |argv| >= 2 then Some(argv[1]) else None)
  {
    var input := Shift(argv);
    if cli.scriptName.None? then
      (cli.(scriptName := Head(input)), Shift(input))
    else
      (cli, Shift(input))
  }

  /** The options the top-level `parseParams` receives from `parse`. */
  function TopLevel(cli: Cli): ParseOptions {
    ParseOptions(true, cli.verboseEnabled, cli.helpEnabled, cli.allowExtraArgs)
  }

  /** The elements a parse works on: the ones given, or the registered ones. */
  function ElementsFor(cli: Cli, elements: Option<Registry>): Registry {
    if elements.Some? then elements.value else cli.elements
  }

  /** An error on an empty command line is shown as help when `helpOnNoArgs` is on and the error is this library's own. */
  predicate HelpInsteadOfError(cli: Cli, scriptArgs: seq<string>, e: Error) {
    scriptArgs == [] && cli.helpOnNoArgs && e.Admiral?
  }

  /**
   * `cli.parse(argv, elements)`: the results start empty on every call,
   * the registered elements (or the ones given) are parsed from the script
   * arguments, and an error of this library on an empty command line shows
   * help instead when `helpOnNoArgs` is on. Only the results and the
   * script name of the `Cli` change.
   */
  function Parse(cli: Cli, argv: seq<string>, elements: Option<Registry>): (r: (Cli, Result))
    ensures r.0 == GetScriptArgs(cli, argv).0.(params := r.0.params)
    ensures r.0.elements == cli.elements
    ensures r.1.Success? ==> r.0.params == r.1.params
    ensures r.1.Help? ==> r.1.exitProcess == cli.exitOnHelp
  {
    var sa := GetScriptArgs(cli, argv);
    var cli1 := sa.0;
    var scriptArgs := sa.1;
    var result := Conclude(TopLevelStep(scriptArgs, ElementsFor(cli, elements), TopLevel(cli)), scriptArgs, cli);
    (cli1.(params := if result.Success? then result.params else if result.Help? && result.returned.Some? then result.returned.value else map[]),
     result)
  }

  /** The top-level `parseParams` call of `parse`: fresh results, no callbacks yet. */
  function TopLevelStep(scriptArgs: seq<string>, reg: Registry, opts: ParseOptions): Step {
    ParseParams(scriptArgs, map[], [], reg, opts)
  }

  /** What `parse` makes of the outcome of the top-level `parseParams`. */
  function Conclude(step: Step, scriptArgs: seq<string>, cli: Cli): (r: Result)
    ensures step.Parsed? ==> r == Success(step.state.params, step.state.trace)
    ensures step.HelpRequested? ==> r == Help(cli.exitOnHelp, if cli.exitOnHelp then None else Some(step.state.params))
    ensures step.Failed? ==> (r.Help? <==> HelpInsteadOfError(cli, scriptArgs, step.error))
    ensures step.Failed? && !r.Help? ==> r == Failure(step.error)
    ensures r.Failure? ==> !HelpInsteadOfError(cli, scriptArgs, r.error)
    ensures r.Help? ==> r.exitProcess == cli.exitOnHelp && (cli.exitOnHelp ==> r.returned.None?)
  {
    match step
    case Parsed(st) => Success(st.params, st.trace)
    case HelpRequested(st) => Help(cli.exitOnHelp, if cli.exitOnHelp then None else Some(st.params))
    case Failed(e) =>
      if HelpInsteadOfError(cli, scriptArgs, e) then Help(cli.exitOnHelp, None) else Failure(e)
  }

  /**
   * A successful parse reports every required option and required group,
   * and `verbose` and `help` whenever they are enabled (`false` when not
   * given).
   */
  lemma ParseReportsRequired(cli: Cli, argv: seq<string>, elements: Option<Registry>)
    ensures var r := Parse(cli, argv, elements).1;
      && (r.Success? ==> forall o :: o in ElementsFor(cli, elements).options && o.required ==> o.name in r.params)
      && (r.Success? ==> forall g :: g in ElementsFor(cli, elements).groups && g.required ==> g.name in r.params)
      && (r.Success? && cli.verboseEnabled ==> "verbose" in r.params)
      && (r.Success? && cli.helpEnabled ==> "help" in r.params)
  {
    var reg := ElementsFor(cli, elements);
    SyntheticFlagsAreWorking(reg.flags, cli.verboseEnabled, cli.helpEnabled);
    var scriptArgs := GetScriptArgs(cli, argv).1;
    var step := TopLevelStep(scriptArgs, reg, TopLevel(cli));
    assert Parse(cli, argv, elements).1 == Conclude(step, scriptArgs, cli);
  }

  /** Two `Cli`s with the same settings and elements parse the same arguments the same way, whatever their results and script names. */
  lemma ParseDependsOnSettingsOnly(c1: Cli, c2: Cli, argv: seq<string>, elements: Option<Registry>)
    requires c1.(params := c2.params, scriptName := c2.scriptName) == c2
    ensures Parse(c1, argv, elements).1 == Parse(c2, argv, elements).1
  {
    var args := GetScriptArgs(c1, argv).1;
    var reg := ElementsFor(c1, elements);
    var step := TopLevelStep(args, reg, TopLevel(c1));
    assert c1.exitOnHelp == c2.exitOnHelp && c1.helpOnNoArgs == c2.helpOnNoArgs;
    assert GetScriptArgs(c2, argv).1 == args;
    assert TopLevel(c1) == TopLevel(c2);
    assert ElementsFor(c2, elements) == reg;
    assert Parse(c1, argv, elements).1 == Conclude(step, args, c1);
    assert Parse(c2, argv, elements).1 == Conclude(step, args, c2);
    SameConclusion(step, args, c1, c2);
  }

  lemma SameConclusion(step: Step, args: seq<string>, c1: Cli, c2: Cli)
    requires c1.exitOnHelp == c2.exitOnHelp && c1.helpOnNoArgs == c2.helpOnNoArgs
    ensures Conclude(step, args, c1) == Conclude(step, args, c2)
  {
  }

  /** A parse does not depend on the results of earlier parses: the same arguments give the same outcome again. */
  lemma ParseForgetsEarlierResults(cli: Cli, first: seq<string>, second: seq<string>, elements: Option<Registry>)
    ensures Parse(Parse(cli, first, elements).0, second, elements).1 == Parse(cli, second, elements).1
  {
    ParseDependsOnSettingsOnly(Parse(cli, first, elements).0, cli, second, elements);
  }

  /**
   * A command line without script arguments that misses a required option
   * shows help when `helpOnNoArgs` is on, and fails with the option's
   * "is required" error when it is off.
   */
  lemma EmptyCommandLineShowsHelp(cli: Cli, argv: seq<string>, elements: Option<Registry>, k: nat)
    requires |argv| <= 2
    requires k < |ElementsFor(cli, elements).options| && ElementsFor(cli, elements).options[k].required
    ensures cli.helpOnNoArgs ==> Parse(cli, argv, elements).1 == Help(cli.exitOnHelp, None)
    ensures !cli.helpOnNoArgs ==> Parse(cli, argv, elements).1.Failure?
  {
    var reg := ElementsFor(cli, elements);
    assert GetScriptArgs(cli, argv).1 == [];
    var step := TopLevelStep([], reg, TopLevel(cli));
    MissingOptionFailsTopLevel(reg, TopLevel(cli), k);
    assert Parse(cli, argv, elements).1 == Conclude(step, [], cli);
    ConcludeOwnErrorOnEmpty(step, cli);
  }

  /** With no script arguments, a missing required option fails the top-level parse with this library's error. */
  lemma MissingOptionFailsTopLevel(reg: Registry, opts: ParseOptions, k: nat)
    requires k < |reg.options| && reg.options[k].required
    ensures TopLevelStep([], reg, opts).Failed? && TopLevelStep([], reg, opts).error.Admiral?
  {
    var fr := FlagResults([], reg, opts);
    assert fr.0 == [];
    HelpValue(map[], fr.1);
    assert !opts.helpEnabled || Merge(map[], fr.1)["help"] == Bool(false);
    Options.MissingRequiredFails([], reg.options, 0, map[], k);
    Options.EmptyStreamErrorIsMissing(reg.options, 0, map[]);
    assert Options.OptionPhase([], reg.options).Err?;
    assert AfterFlags([], Merge(map[], fr.1), [], reg, opts.allowExtraArgs).Err?;
  }

  /** On an empty command line this library's error becomes help exactly when `helpOnNoArgs` is on. */
  lemma ConcludeOwnErrorOnEmpty(step: Step, cli: Cli)
    requires step.Failed? && step.error.Admiral?
    ensures Conclude(step, [], cli) == if cli.helpOnNoArgs then Help(cli.exitOnHelp, None) else Failure(step.error)
  {
  }
}
