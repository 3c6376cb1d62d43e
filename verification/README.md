# admiral-cli argument consumption, modelled in Dafny

admiral-cli is a declarative command-line parser for Node.js. A program
registers options, flags and command groups on a `Cli`, and `cli.parse(argv)`
turns the process arguments into a results object. This project models the
engine behind that call as pure functions over a token stream
(`seq<string>`) and a results map (`map<string, Value>`):

- **Flag phase** (`lib/Flag.js`). Long flags (`--name`) and short bundles
  (`-abc`) are taken out of the stream. Numeric flag values accumulate, so
  `-vvv` gives 3. Every flag that was not seen is reported as `false`. The
  synthetic `verbose` and `help` flags are added for the current call only.
- **Option phase** (`lib/Option.js`). Each option's trigger is located and
  value tokens are consumed according to its length: one value, a run of
  values (`-1`), or a fixed count. Each value is type-checked and converted.
- **Command routing** (`lib/CommandGroup.js`). Each group compares the head
  token with its command names. A match consumes the token, re-enters the
  whole pipeline on the command's sub-elements over the same stream and
  results, records the command under the group's name, and fires the
  callbacks.
- **Orchestration** (`lib/Cli.js`). `parse` strips the interpreter and
  script name and runs the phases on a copy of the arguments. It stops at
  `--help`, rejects leftover tokens unless extra arguments are allowed, and
  turns an error on an empty command line into help.
- **Merging** (`lib/Helpers.js` `merge`). A recursive key-override merge
  folds each phase's results into the shared results.

Modules, one per source file plus shared pieces:

- `wrappers.dfy` (`Wrappers`) holds `Option` and `Result`.
- `values.dfy` (`Values`) holds JavaScript values, truthiness, the error type, and string helpers.
- `helpers.dfy` (`Helpers`) holds `merge`.
- `coerce.dfy` (`Coerce`) holds `validateType`.
- `elements.dfy` (`Elements`) holds the element records and their constructors, and the partition of sub-elements.
- `streams.dfy` (`Streams`) holds the array edits the parser performs (`splice`, `shift`, `indexOf`) and the subsequence relation they keep.
- `flags.dfy` (`Flags`) holds `Flag.parse` and `findFlag`.
- `options.dfy` (`Options`) holds `Option.parse`.
- `parser.dfy` (`Parser`) holds `Cli.parseParams`, `CommandGroup.parse` and `checkForExtras`, as mutually recursive functions.
- `cli.dfy` (`Cli`) holds the `Cli` object: defaults, registration, `_getScriptArgs` and `parse`.
- `scenarios.dfy` (`Scenarios`) works whole command lines through the model, after the library's integration tests.

A parse step ends in one of three ways: `Parsed` (the stream and results
after the step), `HelpRequested` (the flag phase set `help`), or `Failed`.
Errors are `Admiral(message)` or `Fault(message)`:

- `Admiral` stands for the library's own `ConfigError`/`InvalidInputError`. These are one constructor in the source.
- `Fault` stands for a JavaScript `TypeError`. Within the modelled domain, the only one the engine can raise is reading `.toString()` of a missing value after a one-value option trigger that ends the line. The domain holds commands built by the `Command` constructor and string type names.

Callbacks are foreign code, so the model records an ordered trace of callback
events instead of calling them.

Termination of the mutual recursion is structural: every nested parse works
on the sub-elements of a command of the current scope. The stream does not
have to shrink. A command without a name matches an empty stream, because
`undefined == undefined` in the source.

Behaviour kept as the code has it, each exhibited by a lemma:

- A short bundle removes one token at its own position per matched
  character. The bundle `-tu` naming two flags therefore also removes the
  token after it (`Flags.BundleSwallowsNextToken`).
- The scan index is not stepped back after a bundle, so the token that
  moves into its place is never examined (`Flags.BundleSkipsNextToken`).
- A fixed-count option shifts tokens from the front of the stream, not from
  after its trigger (`Scenarios.FixedCountShiftsFront`). `*` and `+` lengths
  loop zero times and yield `null` (`Options.StarAndPlusTakeNothing`).
- `return false` inside `forEach` does not stop the command scan. A later
  command of the same group can take the next token and overwrite the
  recorded command (`Scenarios.ScanGoesOnAfterMatch`).
- The constructor check `!command instanceof Command` tests a boolean and is
  never true, so a command group is never rejected (`Elements.NewCommandGroup`).

Where the code and its description disagree, the model follows the code:

- An unknown `--name` token is not rejected by the flag phase. It stays in
  the stream and is rejected by the leftover check, or kept when extra
  arguments are allowed (`Flags.UnknownLongFlagStays`, `Parser.AfterFlags`).
- `helpOnNoArgs` does not itself show help for an empty command line. Only
  an error of the library's own kind raised while parsing an empty command
  line is turned into help (`Cli.Conclude`, `Cli.EmptyCommandLineShowsHelp`).
  An empty command line that parses cleanly is a normal success.
- `parse` empties the results before parsing, so the constructor's
  `verbose = 0` never survives a parse. The flag phase reports an unused
  verbose flag as `false`, and the library's test that verbose "defaults to
  0" holds only because `false == 0` in JavaScript.
- The tests describe option defaults and a `path` type, but
  `lib/Option.js` implements neither.
- `lib/CommandGroup.js`, `lib/Cli.js` and `lib/Flag.js` load `./helpers` in lower case.
  The module modelled is `lib/Helpers.js`.

## Model

| member | source | states |
|---|---|---|
| Helpers.Merge | lib/Helpers.js:10-22 | The key set is the union of both key sets. Keys only in A keep A's value. A key of B where either side is not an object gets B's value. A key holding two plain objects, or two arrays, gets the recursive merge. |
| Helpers.MergeIsOverrideWithoutSharedObjects | lib/Helpers.js:10-22 | When no key holds objects on both sides, merging is plain map override `a + b`. |
| Helpers.MergeIdempotent | lib/Helpers.js:10-22 | Merging a results map with itself gives it back, at any nesting depth. |
| Coerce.KindOf | lib/Option.js:63-91 | The `switch` branch a type name selects, compared case-insensitively: `int`/`integer` for the integer check, `number`/`float`/`double` for the number check, everything else passes through. |
| Coerce.IntSyntaxIsRegex | lib/Option.js:66-67 | The left-to-right reading of a token accepts exactly the strings matching `^[-+]?[0-9]+$`. |
| Coerce.NumberSyntaxIsRegex | lib/Option.js:77-78 | The left-to-right reading accepts exactly the strings matching `^[-+]?[0-9]*([.,][0-9]+)?$`. |
| Coerce.ValidateType | lib/Option.js:61-92 | Integer types accept exactly the integer pattern. They give the double `parseInt` yields for the decimal value read, so `+5` gives 5 and `007` gives 7. Number types accept exactly the number pattern. Any other type returns the token unchanged. A rejection is the library's error "Option with … wasn't of type …". |
| Coerce.IntRoundTrip | lib/Option.js:64-69 | Every integer of magnitude at most 2^53, written in decimal, passes an `int` option and converts back to itself. |
| Coerce.NearestDouble | lib/Option.js:68 | The value `parseInt` gives is the integer itself up to 2^53 in magnitude. Beyond that it is rounded, within half a unit of the 53rd significant bit, keeping its sign. |
| Coerce.LargeIntIsRounded | lib/Option.js:64-69 | `9007199254740993` (2^53 + 1) passes an `int` option and reads as 2^53, the nearest double. |
| Coerce.SignAndZerosRead | lib/Option.js:64-69 | A sign, any run of leading zeros and a decimal numeral of at most 2^53 read as the signed value of the numeral. |
| Coerce.CommaDecimalIsNumberNotInt | lib/Option.js:64-83 | `12,5` is accepted by the number types and rejected by `int`. |
| Elements.CheckTriggers | lib/Flag.js:34-44 | Triggers are accepted exactly when three things hold. The short trigger, if given, is `-` plus one UTF-16 code unit, so a character outside the Basic Multilingual Plane is refused. The long trigger, if given, is `--` plus at least one character. One of them is given. Otherwise the error is the library's own. |
| Elements.ShortTriggerIsTwoUnits | lib/Flag.js:34 | The short-trigger check is the JavaScript test read in UTF-16 units: the length is 2 units and the first unit is `-`. |
| Elements.LongTriggerIsUnits | lib/Flag.js:38 | The long-trigger check is the JavaScript test read in UTF-16 units: the length is more than 2 units and the first two units are `--`. |
| Elements.NewFlag | lib/Flag.js:26-45 | Construction succeeds exactly when the triggers are well formed. It keeps name and triggers. A missing or falsy value becomes `true`, and a truthy value is kept. |
| Elements.NewOption | lib/Option.js:26-52 | Length 0 is rejected with its own message before the trigger checks. Otherwise construction succeeds exactly when the triggers are well formed. Defaults are type `string`, length 1 and required. |
| Elements.NewCommand | lib/Command.js:16-22 | A command keeps its name and callback, and its sub-elements default to none. |
| Elements.NewCommandGroup | lib/CommandGroup.js:30-43 | Commands default to none and `required` to false. Construction never fails. |
| Elements.Partition | lib/CommandGroup.js:70-88 | Sub-elements split into options, flags and groups in their original order. The split fails with the sub-element message exactly when some element is none of the three. |
| Streams.IndexOf | lib/Option.js:103-104 | `indexOf`: the first position holding the token, or none when no position holds it. |
| Flags.WorkingFlags | lib/Flag.js:63-81 | The working list is the registered flags, then `verbose` (`-v`/`--verbose`, value 1) if enabled, then `help` (`--help`) if enabled. |
| Flags.FindFlag | lib/Flag.js:132-143 | The first flag in list order whose short or long trigger is the key. None exactly when no flag has that trigger. |
| Flags.Accumulate | lib/Flag.js:103-108 | A flag already holding a numeric value adds the new value. Otherwise the value is set. No other key changes. |
| Flags.Bundle | lib/Flag.js:99-111 | A bundle removes one token at its own position for each character that names a flag, and the index does not move back. The results are the flags its characters name, accumulated in character order. |
| Flags.Matched | lib/Flag.js:100-101 | The flags a bundle names are one per matching character, and all come from the list. |
| Flags.AccumulateAllKeeps | lib/Flag.js:103-108 | Accumulating flags sets exactly their names. It leaves every other key alone and stores only booleans and integers. |
| Flags.AstralNeverMatches | lib/Flag.js:100-101 | A bundle character outside the Basic Multilingual Plane names no validly constructed flag. Walking a bundle by characters therefore finds the same flags as walking it by UTF-16 units. |
| Flags.BundleKeeps | lib/Flag.js:100-108 | A bundle never drops a result key, writes only names of flags of the list, and leaves every value a boolean or an integer. |
| Flags.Scan | lib/Flag.js:83-113 | The stream after the scan is a subsequence of the input. A stream with no `-` token is left as it is and sets nothing. |
| Flags.ScanFrame | lib/Flag.js:83-113 | The scan never drops a result key and writes only names of listed flags. It stores only booleans and integers. |
| Flags.ScanLongOnly | lib/Flag.js:83-95 | On a stream without short bundles, the scan keeps exactly the tokens that name no flag. Its results are the reference left-to-right reading, where each `--` token naming a flag stores that flag's value. |
| Flags.ScanUnmentioned | lib/Flag.js:83-113 | A flag no token mentions, by long trigger or by a bundle character, keeps its status and value through the scan. |
| Flags.ScanKeeps | lib/Flag.js:83-113 | As long as no bundle names two flags, every token the scan does not act on survives, in order. Such tokens are non-dash tokens and `--` tokens naming no flag. |
| Flags.FillUnset | lib/Flag.js:114-119 | Every working flag not set by the scan is reported as `false`. Set values are kept. |
| Flags.FlagPhase | lib/Flag.js:56-121 | The flag phase returns a subsequence of the stream. Its results hold exactly the names of the working flags. Without `-` tokens it changes nothing and reports every flag as `false`. |
| Flags.FlagPhaseKeepsPlain | lib/Flag.js:83-113 | Tokens not starting with `-` survive in order, provided no bundle names two flags. |
| Flags.FlagPhaseLongOnly | lib/Flag.js:56-121 | Without short bundles, the flag phase leaves exactly the tokens naming no flag. A working flag no token names is `false`. Any other flag holds the value of the flag the last token naming it names. |
| Flags.FlagPhaseUnseenIsFalse | lib/Flag.js:114-119 | A working flag that no token mentions ends the flag phase as `false`, whatever else the stream holds. |
| Flags.BundleCountsVerbose | lib/Flag.js:100-110 | Each further `v` in a bundle adds 1 to the verbosity. |
| Flags.VerboseCount | test/IntegrationTest.js:16-32 | A lone `-v…v` with n `v`s gives verbosity n and is consumed. |
| Flags.UnknownShortFlagStays | test/IntegrationTest.js:40-45 | With verbose disabled, `-v` is left in the stream. |
| Flags.UnknownLongFlagStays | lib/Flag.js:86-95 | A `--` token naming no working flag stays in the stream as often as it occurs, provided no bundle names two flags. |
| Flags.BundleSwallowsNextToken | lib/Flag.js:100-112 | `-tu x` with flags `-t` and `-u` loses `x` as well. |
| Flags.BundleSkipsNextToken | lib/Flag.js:83-112 | `-v --verbose` counts 1 and leaves `--verbose` unexamined. |
| Options.Run | lib/Option.js:114-125 | A run takes the longest prefix of tokens that are present, non-empty and not `-`-led. It succeeds exactly when all of them pass the type check, and leaves the rest. |
| Options.FixedTake | lib/Option.js:143-152 | Taking N from the front succeeds exactly when the first N tokens are value tokens of the right type, and leaves what follows them. |
| Options.FixedTakeStops | lib/Option.js:144-150 | When the values run out early, the error names the token at the trigger's index plus the loop count in the shifted stream, or `undefined`. |
| Options.TriggerIndex | lib/Option.js:101-106 | The index used is the short trigger's first occurrence if there is one, else the long trigger's first occurrence. None exactly when neither occurs. |
| Options.SingleValue | lib/Option.js:131-137 | A one-value option takes the next token whatever it looks like, converts it, and removes exactly the trigger and that token. A trigger at the end is a `TypeError`. |
| Options.RunValues | lib/Option.js:110-130 | A `-1` option removes its trigger and then the value run. A required option with an empty run fails. An empty run is stored as `null`. |
| Options.FixedValues | lib/Option.js:138-156 | A fixed-count option removes the stream's first token, then exactly N value tokens of the right type from the front. Zero iterations give `null`. |
| Options.OptionStep | lib/Option.js:101-161 | An absent trigger fails for a required option and changes nothing otherwise. A found option sets exactly its own name, and the stream only loses tokens. |
| Options.OptionPhase | lib/Option.js:99-165 | On success the stream is a subsequence of the input, only option names are set, and every required option is set. |
| Options.AbsentOptionalsLeaveAll | lib/Option.js:157-161 | Optional options whose triggers do not occur leave the stream and results unchanged. |
| Options.StarAndPlusTakeNothing | lib/Option.js:138-156 | A found `*` or `+` option drops the stream's first token and is set to `null`. |
| Options.MissingRequiredFails | lib/Option.js:157-161 | A required option none of whose triggers occurs makes the phase fail, whatever options precede it. |
| Options.EmptyStreamErrorIsMissing | lib/Option.js:101-161 | On an empty stream the only possible failure is the "is required, and wasn't found" error of a required option. |
| Parser.FlagResults | lib/Cli.js:211-215 | The flag phase receives the registered flags and both switches, and reports `help` whenever help is enabled. |
| Parser.ParseParams | lib/Cli.js:197-234 | Help is requested exactly when help is enabled and the flag phase set `help`. Help returns the merged flag results with no options or commands parsed. A cloning parse leaves the caller's stream unchanged. A non-cloning parse without extras consumes the whole stream. Required options and groups and all working flags are reported. Earlier callback events are kept. |
| Parser.OptionsAndGroups | lib/Cli.js:222-226 | Options, then command groups, on one stream. Required options and groups are set, keys are kept and the stream only loses tokens. |
| Parser.AfterFlags | lib/Cli.js:222-233 | With extra arguments allowed, the result is that of options and groups, leftovers included. Without, a routing that leaves tokens fails with "Invalid extra params supplied: " and all of them. Any other outcome is unchanged. |
| Parser.NothingRegisteredRejectsLeftovers | lib/Cli.js:222-249 | With no elements, an empty stream succeeds unchanged. Any other stream fails with "Invalid extra params supplied: " and the tokens joined by ", ". |
| Parser.RouteGroups | lib/CommandGroup.js:56-108 | Every required group is recorded. A required group with no command named like the head fails with "Command Group … is required and cannot be omitted". The stream only loses tokens. |
| Parser.RouteGroupsInOrder | lib/CommandGroup.js:56-108 | The groups run in order: routing `first + rest` is routing `first`, then routing `rest` on the stream, results and events it left. An error stops the rest. |
| Parser.ScanCommands | lib/CommandGroup.js:62-102 | With no command matching the head, nothing changes. A scan that matches starts at a command named like the head, removes the head, and records the group. |
| Parser.Record | lib/CommandGroup.js:92-98 | A match sets the group's key to the command's name, changes no other key, and appends the command's callback event (if any) before the group's. |
| Parser.EnterCommand | lib/CommandGroup.js:69-90 | A command without sub-elements leaves everything alone. Bad sub-elements give the configuration error. A nested parse must consume the whole rest of the stream. |
| Cli.NewCli | lib/Cli.js:25-54 | Verbose, help, help-on-no-args and exit-on-help default to on, and extras to rejected. The results start as `verbose = 0` exactly when verbose is on. |
| Cli.AddOption | lib/Cli.js:79-82 | Registration appends the constructed option and fails exactly when construction fails. |
| Cli.AddFlag | lib/Cli.js:92-95 | Registration appends the constructed flag and fails exactly when construction fails. |
| Cli.AddCommandGroup | lib/Cli.js:65-68 | Registration appends the constructed group and changes nothing else. |
| Cli.GetScriptArgs | lib/Cli.js:159-175 | The script arguments are `argv` without its first two entries. The second becomes the script name only when none was set. |
| Cli.Parse | lib/Cli.js:119-152 | Only the results and the script name of the `Cli` change, and the elements stay as registered. A success stores its results. Help exits exactly when exit-on-help is on. |
| Cli.Conclude | lib/Cli.js:127-151 | A failure becomes help exactly when the script arguments are empty, help-on-no-args is on and the error is the library's own. Any other failure is rethrown. Help without exiting returns the results merged so far. |
| Cli.ParseReportsRequired | lib/Cli.js:119-152 | A successful parse reports every required option and group, and `verbose`/`help` when enabled. |
| Cli.ParseDependsOnSettingsOnly | lib/Cli.js:119-125 | The outcome does not depend on the results or script name a `Cli` already holds. |
| Cli.ParseForgetsEarlierResults | test/FlagTest.js:49-55 | Parsing again gives the same outcome as on a fresh `Cli`: earlier results do not leak. |
| Cli.EmptyCommandLineShowsHelp | lib/Cli.js:139-149 | An empty command line missing a required option shows help when help-on-no-args is on, and fails otherwise. |
| Scenarios.GitParse | test/IntegrationTest.js:48-76 | `push -f -r origin` consumes every token and gives `cmd = push`, `force = true`, `remote = origin`, with the unused synthetic flags `false`. |
| Scenarios.ExtrasAreListed | lib/Cli.js:245-249 | Unconsumed `hello world` fails with "Invalid extra params supplied: hello, world". |
| Scenarios.DisabledVerboseIsExtra | test/IntegrationTest.js:40-45 | With verbose disabled, `-v` fails as an extra parameter. |
| Scenarios.HelpBeatsRequired | lib/Cli.js:217-220 | `--help` asks for help even though required elements are missing. |
| Scenarios.FixedCountShiftsFront | lib/Option.js:138-153 | `a --pair x y` with a two-value option drops `a`, then stops at `--pair` and reports `y`. |
| Scenarios.RequiredRunNeedsAValue | lib/Option.js:126-128 | A required `-1` option followed by a dash token fails with "requires at least one argument". |
| Scenarios.NestedCommand | lib/CommandGroup.js:62-101 | `add --name x` parses the command's option in the nested scope, records `action = add`, and fires the command's callback before the group's. |
| Scenarios.GroupsTakeTurns | test/CommandTest.js:26-51 | `test1 testB` goes to the first group and then the second. |
| Scenarios.ScanGoesOnAfterMatch | lib/CommandGroup.js:62-101 | After `a` matches, `b` is compared with the next command and taken too, overwriting the group's value. |

## Left out

- `lib/EnvVar.js` and the environment merge in `parse` are left out. EnvVar reads the process environment and calls a `validateType` that `lib/Helpers.js` does not define.
- `getHelpText` and `lib/output-parsers/tty.js` are left out. They print to the terminal and call `process.exit`, so help is a result carrying whether the process would exit.
- `helpers.deepCopy` is left out. The flag list is an immutable value, so copying it is the identity.
- User callbacks are foreign code. They are recorded as an ordered trace of events and not run, so registration done inside a callback is not modelled.
- When `argv` is absent, `process.argv` is read. That default is left out, and `argv` is always given.
- Descriptions, used only in help text, are not modelled.
- Option defaults and the `path` type are not implemented by the source.
- The lower-case files (`lib/cli.js`, `lib/option.js`, `lib/flag.js`, `lib/command.js`, `lib/command-group.js`, `lib/abstract-parameter.js`, `lib/error.js`) are an older, unreachable revision and are not part of this model. The same goes for the error classes, which are one constructor.
- Coerce.ValidateType: a number keeps its accepted text instead of the floating-point value `parseFloat` gives, because floating point is out of scope.
- Flags.Accumulate: flag values are booleans or integers only, so `isNaN` and `+=` on strings or objects are not modelled.
- Cli.Parse: after a failure, or when help exits, the model's results are empty. The source keeps whatever the phases before the error had merged into `cli.params`.
- Elements.NewOption: the length is an integer, `*` or `+`. Fractional or other non-integer lengths are not modelled.
- Options.SingleValue: `value.toString()` on a present token is the identity, since tokens are strings.
- Helpers.Merge: a key holding an array on one side and a plain object on the other gets B's value. The source merges the two recursively, copying B's keys onto A. An array carrying named keys has no counterpart among the model's values. No phase of a parse produces an object, so the pair does not arise inside a parse.
- Elements.CheckTriggers: the long trigger's length and a bundle's characters are counted in characters, not UTF-16 code units. For the long trigger this decides nothing (`Elements.LongTriggerIsUnits`). For bundles, the source looks up each surrogate half of a character outside the Basic Multilingual Plane, and the model looks up the whole character. Neither names a valid flag (`Flags.AstralNeverMatches`).
- Coerce.ValidateType: an integer text beyond the largest finite double, more than 308 digits long, reads as `Infinity` in the source. The model keeps the rounded integer.
- Commands are built by the `Command` constructor, so each has sub-elements. A command object without `subElements` would raise a `TypeError` at `lib/CommandGroup.js:69`, and is not modelled.
- Option type names are strings. A non-string `type` would raise a `TypeError` at `lib/Option.js:63`, and is not modelled.
