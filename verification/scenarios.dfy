/**
 * Whole command lines worked through the model, following the usage the
 * library's own integration tests describe.
 */
module Scenarios {
  import opened Wrappers
  import opened Values
  import opened Elements
  import opened Streams
  import opened Helpers
  import opened Parser
  import Flags
  import Options
  import Coerce

  const Force := FlagDef("force", Some("-f"), Some("--force"), FBool(true))
  const Remote := OptionDef("remote", Some("-r"), Some("--remote"), "string", Count(1), true)
  const Push := Command(Some("push"), false, [])
  const Pull := Command(Some("pull"), false, [])
  const Cmd := CommandGroup("cmd", [Push, Pull], true)
  const Git := Registry([Remote], [Force], [Cmd])
  const Defaults := ParseOptions(true, true, true, false)

  /** The flag list the git-style command line is scanned against. */
  const GitWorking := [Force, Flags.VerboseFlag, Flags.HelpFlag]

  lemma GitWorkingList()
    ensures Flags.WorkingFlags([Force], true, true) == GitWorking
  {
  }

  /** The bundle "-f" names the force flag and takes out exactly that token. */
  lemma GitBundle()
    ensures Flags.Bundle(["push", "-f", "-r", "origin"], 1, "f", GitWorking, map[])
         == (["push", "-r", "origin"], map["force" := Bool(true)])
  {
    var w := GitWorking;
    var args := ["push", "-f", "-r", "origin"];
    assert Flags.Triggers(Force, "-f");
    assert Flags.FindFlagFrom("-f", w, 0) == Some(0);
    assert "-" + ['f'] == "-f";
    assert "f"[1..] == "";
    assert Flags.FindFlag("-" + ["f"[0]], w) == Some(Force);
    assert RemoveAt(args, 1) == ["push", "-r", "origin"];
    assert Flags.Accumulate(map[], Force) == map["force" := Bool(true)];
  }

  lemma GitScan()
    ensures Flags.Scan(["push", "-f", "-r", "origin"], 0, GitWorking, map[])
         == (["push", "-r", "origin"], map["force" := Bool(true)])
  {
    var w := GitWorking;
    var args := ["push", "-f", "-r", "origin"];
    var rest := ["push", "-r", "origin"];
    assert "-f"[..2] == "-f" && "-f"[1..] == "f";
    assert !StartsWith("-f", "--");
    GitBundle();
    assert Flags.Scan(args, 0, w, map[]) == Flags.Scan(args, 1, w, map[]);
    assert Flags.Scan(args, 1, w, map[]) == Flags.Scan(rest, 2, w, map["force" := Bool(true)]);
    assert !DashLed(rest[2]);
  }

  /**
   * `push -f -r origin` against a force flag: the flag phase takes out the
   * "-f" token and reports every working flag, the unset ones as false.
   */
  lemma GitFlags()
    ensures Flags.FlagPhase(["push", "-f", "-r", "origin"], [Force], true, true)
         == (["push", "-r", "origin"], map["force" := Bool(true), "verbose" := Bool(false), "help" := Bool(false)])
  {
    GitWorkingList();
    GitScan();
    GitFill();
  }

  lemma GitFill()
    ensures Flags.FillUnset(GitWorking, map["force" := Bool(true)])
         == map["force" := Bool(true), "verbose" := Bool(false), "help" := Bool(false)]
  {
    var p1 := map["force" := Bool(true)];
    var p2 := p1["verbose" := Bool(false)];
    var p3 := p2["help" := Bool(false)];
    assert GitWorking[1..] == [Flags.VerboseFlag, Flags.HelpFlag];
    assert Flags.FillUnset(GitWorking, p1) == Flags.FillUnset([Flags.VerboseFlag, Flags.HelpFlag], p1);
    assert [Flags.VerboseFlag, Flags.HelpFlag][1..] == [Flags.HelpFlag];
    assert Flags.FillUnset([Flags.VerboseFlag, Flags.HelpFlag], p1) == Flags.FillUnset([Flags.HelpFlag], p2);
    assert Flags.FillUnset([Flags.HelpFlag], p2) == Flags.FillUnset([], p3);
  }

  /** `-r origin` is taken out of the stream and "origin" kept as a string. */
  lemma GitOptions()
    ensures Options.OptionPhase(["push", "-r", "origin"], [Remote])
         == Ok((["push"], map["remote" := Str("origin")]))
  {
    var args := ["push", "-r", "origin"];
    assert Options.TriggerIndex(args, Remote) == Some(1);
    assert Coerce.Lower("string") == "string";
    assert Coerce.ValidateType("string", "origin") == Ok(Str("origin"));
    assert Splice(args, 1, 2) == ["push"];
    assert Options.SingleValue(args, 1, Remote) == Ok((["push"], Str("origin")));
    assert Options.OptionStep(args, map[], Remote) == Ok((["push"], map["remote" := Str("origin")]));
    assert Options.OptionPhaseFrom(["push"], [Remote], 1, map["remote" := Str("origin")])
        == Ok((["push"], map["remote" := Str("origin")]));
  }

  /** The flag results of the git-style command line. */
  const GitFlagResults := map["force" := Bool(true), "verbose" := Bool(false), "help" := Bool(false)]

  /** The results once the remote option is merged in. */
  const GitOptionResults := GitFlagResults["remote" := Str("origin")]

  /** "push" is the head: it is taken out and recorded under "cmd". */
  lemma GitRoute()
    ensures RouteGroups(["push"], GitOptionResults, [], [Cmd], 0)
         == Ok(State([], GitOptionResults["cmd" := Str("push")], [GroupCallback("cmd", Some("push"))]))
  {
    var p := GitOptionResults;
    var done := State([], p["cmd" := Str("push")], [GroupCallback("cmd", Some("push"))]);
    assert EnterCommand([], p, [], Cmd, 0) == Ok(State([], p, []));
    assert Record(State([], p, []), Cmd, Push) == done;
    assert ScanCommands([], done.params, done.trace, Cmd, 1, true) == Ok((done, true));
    assert ScanCommands(["push"], p, [], Cmd, 0, false) == Ok((done, true));
    assert RouteGroups([], done.params, done.trace, [Cmd], 1) == Ok(done);
  }

  /**
   * `push -f -r origin` against the force flag, the required remote option
   * and the required "cmd" group: every token is consumed and the results
   * hold all three, the unset synthetic flags as false.
   */
  lemma GitParse()
    ensures ParseParams(["push", "-f", "-r", "origin"], map[], [], Git, Defaults)
         == Parsed(State(["push", "-f", "-r", "origin"],
                         map["force" := Bool(true), "verbose" := Bool(false), "help" := Bool(false),
                             "remote" := Str("origin"), "cmd" := Str("push")],
                         [GroupCallback("cmd", Some("push"))]))
  {
    var args := ["push", "-f", "-r", "origin"];
    GitFlags();
    assert FlagResults(args, Git, Defaults) == (["push", "-r", "origin"], GitFlagResults);
    GitMergeFlags();
    assert !Truthy(Bool(false));
    GitAfterFlags();
  }

  lemma GitMergeFlags()
    ensures Merge(map[], GitFlagResults) == GitFlagResults
  {
  }

  lemma GitAfterFlags()
    ensures AfterFlags(["push", "-r", "origin"], GitFlagResults, [], Git, false)
         == Ok(State([], GitOptionResults["cmd" := Str("push")], [GroupCallback("cmd", Some("push"))]))
  {
    GitOptions();
    GitMergeOptions();
    GitRoute();
  }

  lemma GitMergeOptions()
    ensures Merge(GitFlagResults, map["remote" := Str("origin")]) == GitOptionResults
  {
  }

  const NoElements := Registry([], [], [])

  /**
   * Tokens nothing consumes are rejected, listed in order and separated by
   * ", ".
   */
  lemma ExtrasAreListed()
    ensures ParseParams(["hello", "world"], map[], [], NoElements, Defaults)
         == Failed(Admiral("Invalid extra params supplied: hello, world"))
  {
    var args := ["hello", "world"];
    var fr := FlagResults(args, NoElements, Defaults);
    PlainLineFlags();
    MergeWithEmpty(fr.1);
    NothingRegisteredRejectsLeftovers(args, fr.1, []);
    HelloWorldMessage();
  }

  /** Neither token starts with `-`, so the flag phase keeps both and sets nothing. */
  lemma PlainLineFlags()
    ensures var fr := FlagResults(["hello", "world"], NoElements, Defaults);
      fr.0 == ["hello", "world"] && "help" in fr.1 && !Truthy(fr.1["help"])
  {
    var args := ["hello", "world"];
    assert !DashLed(args[0]) && !DashLed(args[1]);
  }

  lemma HelloWorldMessage()
    ensures ExtrasMessage(["hello", "world"]) == "Invalid extra params supplied: hello, world"
  {
    assert ["hello", "world"][1..] == ["world"];
    assert Join(["hello", "world"], ", ") == "hello" + ", " + "world";
  }

  /** The flag phase with verbose disabled neither takes nor counts "-v". */
  lemma DisabledVerboseFlags()
    ensures Flags.FlagPhase(["-v"], [], false, true) == (["-v"], map["help" := Bool(false)])
  {
    var w := Flags.WorkingFlags([], false, true);
    assert w == [Flags.HelpFlag];
    LoneVIsUnknown();
    assert "-v"[..2] == "-v";
    assert "-v"[1..] == "v";
    assert Flags.Scan(["-v"], 0, w, map[]) == Flags.Scan(["-v"], 1, w, map[]);
    assert Flags.Scan(["-v"], 1, w, map[]) == (["-v"], map[]);
    assert Flags.FillUnset(w, map[]) == Flags.FillUnset([], map["help" := Bool(false)]);
  }

  lemma LoneVIsUnknown()
    ensures Flags.Bundle(["-v"], 0, "v", [Flags.HelpFlag], map[]) == (["-v"], map[])
  {
    var w := [Flags.HelpFlag];
    assert !Flags.Triggers(Flags.HelpFlag, "-v");
    assert Flags.FindFlagFrom("-v", w, 1) == None;
    assert Flags.FindFlag("-" + ['v'], w) == None;
    assert "v"[1..] == "";
  }

  /** With the verbose flag disabled, "-v" is an extra parameter like any other. */
  lemma DisabledVerboseIsExtra()
    ensures ParseParams(["-v"], map[], [], NoElements, ParseOptions(true, false, true, false))
         == Failed(Admiral("Invalid extra params supplied: -v"))
  {
    DisabledVerboseFlags();
    MergeWithEmpty(map["help" := Bool(false)]);
    NothingRegisteredRejectsLeftovers(["-v"], map["help" := Bool(false)], []);
    var opts := ParseOptions(true, false, true, false);
    assert FlagResults(["-v"], NoElements, opts) == (["-v"], map["help" := Bool(false)]);
    assert !Truthy(Bool(false));
    assert Join(["-v"], ", ") == "-v";
    assert ExtrasMessage(["-v"]) == "Invalid extra params supplied: -v";
    assert AfterFlags(["-v"], map["help" := Bool(false)], [], NoElements, false)
        == Err(Admiral("Invalid extra params supplied: -v"));
  }

  /** "--help" is found by the flag phase and sets help to true. */
  lemma HelpFlagFound()
    ensures Flags.FlagPhase(["--help"], [Force], true, true).1["help"] == Bool(true)
  {
    var w := GitWorking;
    GitWorkingList();
    assert !Flags.Triggers(Force, "--help") && !Flags.Triggers(Flags.VerboseFlag, "--help");
    assert Flags.Triggers(Flags.HelpFlag, "--help");
    assert Flags.FindFlagFrom("--help", w, 0) == Some(2);
    assert "--help"[..2] == "--";
    assert Flags.Scan(["--help"], 0, w, map[]) == Flags.Scan([], 0, w, map["help" := Bool(true)]);
  }

  /**
   * Asking for help wins over missing required elements: `--help` alone
   * against the git-style registry, whose remote option and command group
   * are required, asks for help instead of failing.
   */
  lemma HelpBeatsRequired()
    ensures ParseParams(["--help"], map[], [], Git, Defaults).HelpRequested?
  {
    HelpFlagFound();
    assert Truthy(Bool(true));
  }

  const Pair := OptionDef("pair", Some("-p"), Some("--pair"), "string", Count(2), false)

  /**
   * A fixed-count option shifts from the front of the stream, not from its
   * trigger: with "a" before "--pair", "a" is dropped, "--pair" itself is
   * then the first token, and the error names the token two places on.
   */
  lemma FixedCountShiftsFront()
    ensures Options.OptionPhase(["a", "--pair", "x", "y"], [Pair])
         == Err(Admiral("Option pair requires 2 but stopped at y"))
  {
    var args := ["a", "--pair", "x", "y"];
    PairStops();
    assert Options.TriggerIndex(args, Pair) == Some(1);
    assert Shift(args) == ["--pair", "x", "y"];
    assert Options.OptionStep(args, map[], Pair) == Err(Admiral("Option pair requires 2 but stopped at y"));
  }

  lemma PairStops()
    ensures Options.FixedTake(["--pair", "x", "y"], 1, 2, 1, Pair)
         == Err(Admiral("Option pair requires 2 but stopped at y"))
  {
    var rest := ["--pair", "x", "y"];
    assert !Options.IsValueToken(rest[0]);
    assert Options.LeadingValues(rest) == 0;
    Options.FixedTakeStops(rest, 1, 2, 1, Pair);
    assert rest[0..] == rest;
    PairMessage();
  }

  lemma PairMessage()
    ensures Options.FixedMessage(Pair, Some("y")) == "Option pair requires 2 but stopped at y"
  {
    assert DigitChar(2) == '2';
    assert NatToString(2) == [DigitChar(2)];
    assert Options.LengthText(Pair.length) == "2";
    assert Show(Some("y")) == "y";
  }

  const Files := OptionDef("files", Some("-f"), Some("--files"), "string", Count(-1), true)

  /** A required "-1" option whose trigger is followed by a dash token fails. */
  lemma RequiredRunNeedsAValue()
    ensures Options.OptionPhase(["--files", "-x"], [Files])
         == Err(Admiral("Option files requires at least one argument."))
  {
    FilesStep();
    FilesMessage();
    assert Options.OptionPhaseFrom(["--files", "-x"], [Files], 0, map[]) == Err(Admiral(Options.RunMessage(Files)));
  }

  lemma FilesMessage()
    ensures Options.RunMessage(Files) == "Option files requires at least one argument."
  {
  }

  lemma FilesStep()
    ensures Options.OptionStep(["--files", "-x"], map[], Files) == Err(Admiral(Options.RunMessage(Files)))
  {
    FilesRunEmpty();
    assert Options.TriggerIndex(["--files", "-x"], Files) == Some(0);
  }

  lemma FilesRunEmpty()
    ensures Options.RunValues(["--files", "-x"], 0, Files) == Err(Admiral(Options.RunMessage(Files)))
  {
    var args := ["--files", "-x"];
    assert RemoveAt(args, 0) == ["-x"];
    assert RemoveAt(args, 0)[0..] == ["-x"];
    assert !Options.IsValueToken("-x");
    assert Options.LeadingValues(["-x"]) == 0;
    assert ["-x"][..0] == [];
    assert Options.AllOfType("string", []);
  }

  const Name := OptionDef("name", Some("-n"), Some("--name"), "string", Count(1), false)
  const Add := Command(Some("add"), true, [OptionEl(Name)])
  const Action := CommandGroup("action", [Add], true)
  const AddScope := Registry([Name], [], [])

  lemma AddScopeIsPartitioned()
    ensures Partition(Add.subElements) == Ok(AddScope)
  {
    assert OptionsOf([OptionEl(Name)]) == [Name];
    assert FlagsOf([OptionEl(Name)]) == [];
    assert GroupsOf([OptionEl(Name)]) == [];
  }

  /** The nested parse has no synthetic flags, so its flag phase changes nothing. */
  lemma AddFlags()
    ensures FlagResults(["--name", "x"], AddScope, Nested) == (["--name", "x"], map[])
  {
    var args := ["--name", "x"];
    assert Flags.WorkingFlags([], false, false) == [];
    assert Flags.FindFlag("--name", []) == None;
    assert "--name"[..2] == "--";
    assert Flags.Scan(args, 0, [], map[]) == Flags.Scan(args, 1, [], map[]);
    assert !DashLed(args[1]);
    assert Flags.Scan(args, 1, [], map[]) == (args, map[]);
  }

  lemma AddOptions()
    ensures Options.OptionPhase(["--name", "x"], [Name]) == Ok(([], map["name" := Str("x")]))
  {
    var args := ["--name", "x"];
    assert Options.TriggerIndex(args, Name) == Some(0);
    assert Coerce.Lower("string") == "string";
    assert Splice(args, 0, 2) == [];
    assert Options.SingleValue(args, 0, Name) == Ok(([], Str("x")));
    assert Options.OptionStep(args, map[], Name) == Ok(([], map["name" := Str("x")]));
    assert Options.OptionPhaseFrom([], [Name], 1, map["name" := Str("x")]) == Ok(([], map["name" := Str("x")]));
  }

  /** The sub-elements of "add" are parsed on the rest of the stream. */
  lemma AddNestedParse()
    ensures ParseParams(["--name", "x"], map[], [], AddScope, Nested)
         == Parsed(State([], map["name" := Str("x")], []))
  {
    AddFlags();
    AddOptions();
    MergeWithEmpty(map[]);
    MergeWithEmpty(map["name" := Str("x")]);
    assert RouteGroups([], map["name" := Str("x")], [], [], 0) == Ok(State([], map["name" := Str("x")], []));
    assert AfterFlags(["--name", "x"], map[], [], AddScope, false) == Ok(State([], map["name" := Str("x")], []));
  }

  /**
   * `add --name x` against a required "action" group whose "add" command
   * holds a name option and has a callback: the nested parse consumes the
   * option, the group records "add", and the command's callback fires
   * before the group's.
   */
  lemma NestedCommand()
    ensures RouteGroups(["add", "--name", "x"], map[], [], [Action], 0)
         == Ok(State([], map["name" := Str("x"), "action" := Str("add")],
                     [CommandCallback("action", Some("add")), GroupCallback("action", Some("add"))]))
  {
    var done := State([], map["name" := Str("x"), "action" := Str("add")],
                      [CommandCallback("action", Some("add")), GroupCallback("action", Some("add"))]);
    AddScopeIsPartitioned();
    AddNestedParse();
    assert Shift(["add", "--name", "x"]) == ["--name", "x"];
    assert EnterCommand(["--name", "x"], map[], [], Action, 0) == Ok(State([], map["name" := Str("x")], []));
    assert Record(State([], map["name" := Str("x")], []), Action, Add) == done;
    assert ScanCommands([], done.params, done.trace, Action, 1, true) == Ok((done, true));
    assert ScanCommands(["add", "--name", "x"], map[], [], Action, 0, false) == Ok((done, true));
    assert RouteGroups([], done.params, done.trace, [Action], 1) == Ok(done);
  }

  const First := CommandGroup("cmd1", [Command(Some("test1"), false, []), Command(Some("test2"), false, [])], true)
  const Second := CommandGroup("cmd2", [Command(Some("testA"), false, []), Command(Some("testB"), false, [])], true)

  /** Each group looks only at the head the groups before it left: "test1" goes to the first, "testB" to the second. */
  lemma GroupsTakeTurns()
    ensures RouteGroups(["test1", "testB"], map[], [], [First, Second], 0)
         == Ok(State([], map["cmd1" := Str("test1"), "cmd2" := Str("testB")],
                     [GroupCallback("cmd1", Some("test1")), GroupCallback("cmd2", Some("testB"))]))
  {
    var s1 := State(["testB"], map["cmd1" := Str("test1")], [GroupCallback("cmd1", Some("test1"))]);
    var s2 := State([], map["cmd1" := Str("test1"), "cmd2" := Str("testB")],
                    [GroupCallback("cmd1", Some("test1")), GroupCallback("cmd2", Some("testB"))]);
    FirstGroupTakesHead();
    SecondGroupTakesHead();
    assert RouteGroups([], s2.params, s2.trace, [First, Second], 2) == Ok(s2);
  }

  lemma FirstGroupTakesHead()
    ensures ScanCommands(["test1", "testB"], map[], [], First, 0, false)
         == Ok((State(["testB"], map["cmd1" := Str("test1")], [GroupCallback("cmd1", Some("test1"))]), true))
  {
    var s1 := State(["testB"], map["cmd1" := Str("test1")], [GroupCallback("cmd1", Some("test1"))]);
    assert Shift(["test1", "testB"]) == ["testB"];
    assert EnterCommand(["testB"], map[], [], First, 0) == Ok(State(["testB"], map[], []));
    assert Record(State(["testB"], map[], []), First, First.commands[0]) == s1;
    assert ScanCommands(s1.args, s1.params, s1.trace, First, 2, true) == Ok((s1, true));
    assert ScanCommands(s1.args, s1.params, s1.trace, First, 1, true) == Ok((s1, true));
  }

  lemma SecondGroupTakesHead()
    ensures ScanCommands(["testB"], map["cmd1" := Str("test1")], [GroupCallback("cmd1", Some("test1"))], Second, 0, false)
         == Ok((State([], map["cmd1" := Str("test1"), "cmd2" := Str("testB")],
                      [GroupCallback("cmd1", Some("test1")), GroupCallback("cmd2", Some("testB"))]), true))
  {
    var p := map["cmd1" := Str("test1")];
    var t := [GroupCallback("cmd1", Some("test1"))];
    var s2 := State([], map["cmd1" := Str("test1"), "cmd2" := Str("testB")],
                    [GroupCallback("cmd1", Some("test1")), GroupCallback("cmd2", Some("testB"))]);
    assert ScanCommands(["testB"], p, t, Second, 0, false) == ScanCommands(["testB"], p, t, Second, 1, false);
    assert EnterCommand([], p, t, Second, 1) == Ok(State([], p, t));
    assert Record(State([], p, t), Second, Second.commands[1]) == s2;
    assert ScanCommands([], s2.params, s2.trace, Second, 2, true) == Ok((s2, true));
  }

  const Steps := CommandGroup("step", [Command(Some("a"), false, []), Command(Some("b"), false, [])], false)

  /**
   * A match does not end the scan of its group: after "a" is taken, the
   * next command is compared with the new head "b", which is taken too and
   * overwrites the recorded command.
   */
  lemma ScanGoesOnAfterMatch()
    ensures ScanCommands(["a", "b"], map[], [], Steps, 0, false)
         == Ok((State([], map["step" := Str("b")], [GroupCallback("step", Some("a")), GroupCallback("step", Some("b"))]), true))
  {
    var s1 := State(["b"], map["step" := Str("a")], [GroupCallback("step", Some("a"))]);
    var s2 := State([], map["step" := Str("b")], [GroupCallback("step", Some("a")), GroupCallback("step", Some("b"))]);
    assert Shift(["a", "b"]) == ["b"];
    assert EnterCommand(["b"], map[], [], Steps, 0) == Ok(State(["b"], map[], []));
    assert Record(State(["b"], map[], []), Steps, Steps.commands[0]) == s1;
    assert EnterCommand([], s1.params, s1.trace, Steps, 1) == Ok(State([], s1.params, s1.trace));
    assert Record(State([], s1.params, s1.trace), Steps, Steps.commands[1]) == s2;
    assert ScanCommands([], s2.params, s2.trace, Steps, 2, true) == Ok((s2, true));
    assert ScanCommands(s1.args, s1.params, s1.trace, Steps, 1, true) == Ok((s2, true));
  }
}
