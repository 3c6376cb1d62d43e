/**
 * The flag phase (`Flag.parse`): removes long flags (`--name`) and short
 * bundles (`-abc`) from the token stream and reports every flag of the
 * working list, `false` when it was not seen.
 */
module Flags {
  import opened Wrappers
  import opened Values
  import opened Elements
  import opened Streams

  /** Added to the working list when verbosity is enabled; repeated `-v` counts up. */
  const VerboseFlag := FlagDef("verbose", Some("-v"), Some("--verbose"), FInt(1))

  /** Added to the working list when help is enabled. */
  const HelpFlag := FlagDef("help", None, Some("--help"), FBool(true))

  /** The flags one call works with: the registered ones, then the enabled synthetic ones. */
  function WorkingFlags(flags: seq<FlagDef>, verboseEnabled: bool, helpEnabled: bool): (w: seq<FlagDef>)
    ensures |w| == |flags| + (if verboseEnabled then 1 else 0) + (if helpEnabled then 1 else 0)
    ensures w[..|flags|] == flags
    ensures verboseEnabled ==> w[|flags|] == VerboseFlag
    ensures helpEnabled ==> w[|w| - 1] == HelpFlag
  {
    flags + (if verboseEnabled then [VerboseFlag] else []) + (if helpEnabled then [HelpFlag] else [])
  }

  function Names(flags: seq<FlagDef>): set<string> {
    set f | f in flags :: f.name
  }

  /** `flag.shortFlag == key || flag.longFlag == key`. */
  predicate Triggers(f: FlagDef, key: string) {
    f.shortTrigger == Some(key) || f.longTrigger == Some(key)
  }

  /** The loop of `findFlag`, from position `i` on. */
  function FindFlagFrom(key: string, flags: seq<FlagDef>, i: nat): (r: Option<nat>)
    requires i <= |flags|
    ensures r.Some? ==> i <= r.value < |flags| && Triggers(flags[r.value], key)
    ensures r.Some? ==> forall j :: i <= j < r.value ==> !Triggers(flags[j], key)
    ensures r.None? ==> forall j :: i <= j < |flags| ==> !Triggers(flags[j], key)
    decreases |flags| - i
  {
    if i == |flags| then None
    else if Triggers(flags[i], key) then Some(i)
    else FindFlagFrom(key, flags, i + 1)
  }

  /** `findFlag(key, flags)`: the first flag, in list order, whose short or long trigger is `key`. */
  function FindFlag(key: string, flags: seq<FlagDef>): (r: Option<FlagDef>)
    ensures r.None? <==> forall j :: 0 <= j < |flags| ==> !Triggers(flags[j], key)
    ensures r.Some? ==> exists j :: 0 <= j < |flags| && flags[j] == r.value && Triggers(r.value, key)
                          && forall i :: 0 <= i < j ==> !Triggers(flags[i], key)
  {
    match FindFlagFrom(key, flags, 0)
    case None => None
    case Some(j) => Some(flags[j])
  }

  function ValueOf(v: FlagValue): Value {
    match v
    case FBool(b) => Bool(b)
    case FInt(i) => Int(i)
  }

  /** The values a flag phase stores: booleans and numbers. */
  predicate FlagResult(p: Params) {
    forall k :: k in p ==> p[k].Bool? || p[k].Int?
  }

  /** `!isNaN(v)` for the values a flag phase can hold (`null` reads as 0). */
  predicate NotNaN(v: Value) {
    v.Bool? || v.Int? || v.Null?
  }

  function ToNumber(v: Value): int
    requires NotNaN(v)
  {
    match v
    case Bool(b) => if b then 1 else 0
    case Int(i) => i
    case Null => 0
  }

  /**
   * One matched character of a short bundle: a name that already holds a
   * number-like value adds the flag's value to it (so `true + true` is 2),
   * otherwise the flag's value is stored.
   */
  function Accumulate(params: Params, f: FlagDef): (r: Params)
    ensures r.Keys == params.Keys + {f.name}
    ensures forall k :: k in params && k != f.name ==> r[k] == params[k]
    ensures f.name !in params ==> r[f.name] == ValueOf(f.value)
    ensures f.name in params && NotNaN(params[f.name]) ==>
      r[f.name] == Int(ToNumber(params[f.name]) + ToNumber(ValueOf(f.value)))
  {
    if f.name in params && NotNaN(params[f.name]) then
      params[f.name := Int(ToNumber(params[f.name]) + ToNumber(ValueOf(f.value)))]
    else
      params[f.name := ValueOf(f.value)]
  }

  /** How many characters of a bundle name a flag of the list. */
  function MatchCount(chars: string, flags: seq<FlagDef>): nat {
    if chars == [] then 0
    else (if FindFlag("-" + [chars[0]], flags).Some? then 1 else 0) + MatchCount(chars[1..], flags)
  }

  /** The flags a bundle's characters name, in character order; a character naming no flag contributes nothing. */
  function Matched(chars: string, flags: seq<FlagDef>): (r: seq<FlagDef>)
    ensures |r| == MatchCount(chars, flags)
    ensures forall f :: f in r ==> f in flags
  {
    if chars == [] then []
    else
      var key := "-" + [chars[0]];
      match FindFlag(key, flags)
      case None => Matched(chars[1..], flags)
      case Some(f) =>
        FoundIsNamed(key, flags);
        [f] + Matched(chars[1..], flags)
  }

  /** Every flag of the list passed the constructor's trigger checks. */
  predicate ValidTriggers(flags: seq<FlagDef>) {
    forall f :: f in flags ==> TriggersOk(f.shortTrigger, f.longTrigger)
  }

  /** The synthetic flags pass the trigger checks too, so the working list of valid flags is valid. */
  lemma WorkingFlagsValid(flags: seq<FlagDef>, verboseEnabled: bool, helpEnabled: bool)
    requires ValidTriggers(flags)
    ensures ValidTriggers(WorkingFlags(flags, verboseEnabled, helpEnabled))
  {
    assert TriggersOk(VerboseFlag.shortTrigger, VerboseFlag.longTrigger);
    assert TriggersOk(HelpFlag.shortTrigger, HelpFlag.longTrigger);
  }

  /**
   * A bundle character outside the Basic Multilingual Plane names no valid
   * flag: no short trigger holds such a character and no long trigger is
   * `-` and one character. JavaScript reads that character as two
   * surrogate halves, which no trigger holds either, so walking a bundle
   * by characters finds the same flags as walking it by code units.
   */
  lemma AstralNeverMatches(c: char, flags: seq<FlagDef>)
    requires ValidTriggers(flags) && !SingleUnit(c)
    ensures FindFlag("-" + [c], flags).None?
  {
    forall j | 0 <= j < |flags|
      ensures !Triggers(flags[j], "-" + [c])
    {
      assert flags[j] in flags;
    }
  }

  /** The results after each flag of `fs`, in turn, has been accumulated into them. */
  function AccumulateAll(params: Params, fs: seq<FlagDef>): Params
    decreases |fs|
  {
    if fs == [] then params else AccumulateAll(Accumulate(params, fs[0]), fs[1..])
  }

  /** Accumulating flags sets exactly their names, leaves every other key alone, and stores only booleans and integers. */
  lemma {:induction false} AccumulateAllKeeps(params: Params, fs: seq<FlagDef>)
    ensures AccumulateAll(params, fs).Keys == params.Keys + Names(fs)
    ensures forall k :: k in params && k !in Names(fs) ==> AccumulateAll(params, fs)[k] == params[k]
    ensures FlagResult(params) ==> FlagResult(AccumulateAll(params, fs))
    decreases |fs|
  {
    if fs != [] {
      assert Names(fs) == {fs[0].name} + Names(fs[1..]);
      AccumulateAllKeeps(Accumulate(params, fs[0]), fs[1..]);
      if FlagResult(params) {
        AccumulateKeepsFlagResult(params, fs[0]);
      }
    }
  }

  lemma AccumulateKeepsFlagResult(params: Params, f: FlagDef)
    requires FlagResult(params)
    ensures FlagResult(Accumulate(params, f))
  {
  }

  lemma SpliceAfterRemove(args: seq<string>, i: nat, n: nat)
    ensures Splice(RemoveAt(args, i), i, n) == Splice(args, i, n + 1)
  {
    if i < |args| {
      var r := RemoveAt(args, i);
      var j := if i + n <= |r| then i + n else |r|;
      assert r[..i] == args[..i];
      assert r[j..] == args[j + 1..];
    }
  }

  /**
   * The inner loop over a short bundle's characters (after the `-`). Each
   * character naming a flag updates the result and removes one token at
   * the bundle's position, so a bundle matching `n` flags removes itself
   * and the `n - 1` tokens after it.
   */
  function Bundle(args: seq<string>, i: nat, chars: string, flags: seq<FlagDef>, params: Params): (r: (seq<string>, Params))
    ensures r.0 == Splice(args, i, MatchCount(chars, flags))
    ensures r.1 == AccumulateAll(params, Matched(chars, flags))
    decreases |chars|
  {
    if chars == [] then
      (args, params)
    else
      var key := "-" + [chars[0]];
      match FindFlag(key, flags)
      case None =>
        assert MatchCount(chars, flags) == MatchCount(chars[1..], flags);
        assert Matched(chars, flags) == Matched(chars[1..], flags);
        Bundle(args, i, chars[1..], flags, params)
      case Some(f) =>
        assert MatchCount(chars, flags) == MatchCount(chars[1..], flags) + 1;
        SpliceAfterRemove(args, i, MatchCount(chars[1..], flags));
        var m := Matched(chars[1..], flags);
        assert Matched(chars, flags) == [f] + m;
        assert ([f] + m)[0] == f && ([f] + m)[1..] == m;
        Bundle(RemoveAt(args, i), i, chars[1..], flags, Accumulate(params, f))
  }

  /**
   * A bundle only writes the names of flags of the list, never drops a
   * key, and keeps every value boolean or integer.
   */
  lemma {:induction false} BundleKeeps(args: seq<string>, i: nat, chars: string, flags: seq<FlagDef>, params: Params)
    ensures params.Keys <= Bundle(args, i, chars, flags, params).1.Keys <= params.Keys + Names(flags)
    ensures forall k :: k in params && k !in Names(flags) ==> Bundle(args, i, chars, flags, params).1[k] == params[k]
    ensures FlagResult(params) ==> FlagResult(Bundle(args, i, chars, flags, params).1)
    decreases |chars|
  {
    if chars != [] {
      var key := "-" + [chars[0]];
      match FindFlag(key, flags)
      case None =>
        BundleKeeps(args, i, chars[1..], flags, params);
      case Some(f) =>
        FoundIsNamed(key, flags);
        BundleKeeps(RemoveAt(args, i), i, chars[1..], flags, Accumulate(params, f));
    }
  }

  lemma FoundIsNamed(key: string, flags: seq<FlagDef>)
    ensures FindFlag(key, flags).Some? ==> FindFlag(key, flags).value in flags
    ensures FindFlag(key, flags).Some? ==> FindFlag(key, flags).value.name in Names(flags)
  {
    if FindFlag(key, flags).Some? {
      var j := FindFlagFrom(key, flags, 0).value;
      assert flags[j] in flags;
    }
  }

  /**
   * The scan of `Flag.parse` from index `i`. A recognised long flag is
   * stored (no accumulation), removed, and the same index is examined
   * again; an unrecognised one stays. A short bundle is processed by
   * `Bundle` and the index advances by one whatever it removed.
   */
  function Scan(args: seq<string>, i: nat, flags: seq<FlagDef>, params: Params): (r: (seq<string>, Params))
    ensures IsSubseq(r.0, args)
    ensures (forall j :: i <= j < |args| ==> !DashLed(args[j])) ==> r == (args, params)
    decreases |args|, |args| - i
  {
    if i >= |args| then
      SubseqRefl(args);
      (args, params)
    else
      var arg := args[i];
      if StartsWith(arg, "--") then
        match FindFlag(arg, flags)
        case Some(f) =>
          var r := Scan(RemoveAt(args, i), i, flags, params[f.name := ValueOf(f.value)]);
          SubseqTrans(r.0, RemoveAt(args, i), args);
          r
        case None =>
          Scan(args, i + 1, flags, params)
      else if DashLed(arg) then
        var b := Bundle(args, i, arg[1..], flags, params);
        var r := Scan(b.0, i + 1, flags, b.1);
        SubseqTrans(r.0, b.0, args);
        r
      else
        Scan(args, i + 1, flags, params)
  }

  /** The scan writes only names of flags of the list, never drops a key, and stores only booleans and integers. */
  lemma {:induction false} ScanFrame(args: seq<string>, i: nat, flags: seq<FlagDef>, params: Params)
    ensures params.Keys <= Scan(args, i, flags, params).1.Keys <= params.Keys + Names(flags)
    ensures forall k :: k in params && k !in Names(flags) ==> Scan(args, i, flags, params).1[k] == params[k]
    ensures FlagResult(params) ==> FlagResult(Scan(args, i, flags, params).1)
    decreases |args|, |args| - i
  {
    if i < |args| {
      var arg := args[i];
      if StartsWith(arg, "--") {
        match FindFlag(arg, flags)
        case Some(f) =>
          FoundIsNamed(arg, flags);
          ScanFrame(RemoveAt(args, i), i, flags, params[f.name := ValueOf(f.value)]);
        case None =>
          ScanFrame(args, i + 1, flags, params);
      } else if DashLed(arg) {
        var b := Bundle(args, i, arg[1..], flags, params);
        BundleKeeps(args, i, arg[1..], flags, params);
        ScanFrame(b.0, i + 1, flags, b.1);
      } else {
        ScanFrame(args, i + 1, flags, params);
      }
    }
  }

  /** The final loop of `Flag.parse`: every flag of the list that was not set becomes `false`. */
  function FillUnset(flags: seq<FlagDef>, params: Params): (r: Params)
    ensures r.Keys == params.Keys + Names(flags)
    ensures forall k :: k in params ==> r[k] == params[k]
    ensures forall k :: k in r && k !in params ==> r[k] == Bool(false)
  {
    if flags == [] then params
    else
      var f := flags[0];
      assert Names(flags) == {f.name} + Names(flags[1..]);
      FillUnset(flags[1..], if f.name in params then params else params[f.name := Bool(false)])
  }

  /**
   * `Flag.parse(args, flags, options)`: the remaining stream and the flag
   * results. Flags are never an error.
   */
  function FlagPhase(args: seq<string>, flags: seq<FlagDef>, verboseEnabled: bool, helpEnabled: bool): (r: (seq<string>, Params))
    ensures IsSubseq(r.0, args)
    ensures r.1.Keys == Names(WorkingFlags(flags, verboseEnabled, helpEnabled))
    ensures FlagResult(r.1)
    ensures (forall j :: 0 <= j < |args| ==> !DashLed(args[j])) ==>
      r.0 == args && forall k :: k in r.1 ==> r.1[k] == Bool(false)
  {
    var w := WorkingFlags(flags, verboseEnabled, helpEnabled);
    var s := Scan(args, 0, w, map[]);
    ScanFrame(args, 0, w, map[]);
    (s.0, FillUnset(w, s.1))
  }

  /** A short token (`-x…` but not `--x…`). */
  predicate IsBundle(t: string) {
    DashLed(t) && !StartsWith(t, "--")
  }

  /** Every short bundle of the stream names at most one flag of the list. */
  predicate SingleMatchBundles(args: seq<string>, flags: seq<FlagDef>) {
    forall j :: 0 <= j < |args| && IsBundle(args[j]) ==> MatchCount(args[j][1..], flags) <= 1
  }

  /** A token the flag phase leaves alone: one not starting with `-`, or a `--` token naming no flag. */
  predicate Inert(t: string, flags: seq<FlagDef>) {
    !DashLed(t) || (StartsWith(t, "--") && FindFlag(t, flags).None?)
  }

  /**
   * As long as no bundle names two or more flags, the flag phase removes
   * no inert token: any choice of inert tokens survives, in order.
   */
  lemma {:induction false} ScanKeeps(args: seq<string>, i: nat, flags: seq<FlagDef>, params: Params, keep: string -> bool)
    requires SingleMatchBundles(args, flags)
    requires forall t :: keep(t) ==> Inert(t, flags)
    ensures Filter(Scan(args, i, flags, params).0, keep) == Filter(args, keep)
    decreases |args|, |args| - i, 1
  {
    if i < |args| {
      var arg := args[i];
      if StartsWith(arg, "--") && FindFlag(arg, flags).Some? {
        KeepsPastLongFlag(args, i, flags, params, keep);
      } else if IsBundle(arg) {
        KeepsPastBundle(args, i, flags, params, keep);
      } else {
        KeptTokenStep(args, i, flags, params);
        ScanKeeps(args, i + 1, flags, params, keep);
      }
    }
  }

  lemma {:induction false} KeepsPastLongFlag(args: seq<string>, i: nat, flags: seq<FlagDef>, params: Params, keep: string -> bool)
    requires SingleMatchBundles(args, flags)
    requires forall t :: keep(t) ==> Inert(t, flags)
    requires i < |args| && StartsWith(args[i], "--") && FindFlag(args[i], flags).Some?
    ensures Filter(Scan(args, i, flags, params).0, keep) == Filter(args, keep)
    decreases |args|, |args| - i, 0
  {
    var f := FindFlag(args[i], flags).value;
    var a := RemoveAt(args, i);
    NamingIsNotInert(args[i], flags);
    RemoveKeepsFilter(args, i, keep);
    SubseqMembers(a, args);
    KeepsSingleMatch(a, args, flags);
    LongFlagStep(args, i, flags, params);
    ScanKeeps(a, i, flags, params[f.name := ValueOf(f.value)], keep);
  }

  lemma {:induction false} KeepsPastBundle(args: seq<string>, i: nat, flags: seq<FlagDef>, params: Params, keep: string -> bool)
    requires SingleMatchBundles(args, flags)
    requires forall t :: keep(t) ==> Inert(t, flags)
    requires i < |args| && IsBundle(args[i])
    ensures Filter(Scan(args, i, flags, params).0, keep) == Filter(args, keep)
    decreases |args|, |args| - i, 0
  {
    var arg := args[i];
    var b := Bundle(args, i, arg[1..], flags, params);
    assert Scan(args, i, flags, params) == Scan(b.0, i + 1, flags, b.1);
    if MatchCount(arg[1..], flags) == 1 {
      assert b.0 == RemoveAt(args, i);
      RemoveKeepsFilter(args, i, keep);
    } else {
      assert b.0 == args;
    }
    SubseqMembers(b.0, args);
    KeepsSingleMatch(b.0, args, flags);
    ScanKeeps(b.0, i + 1, flags, b.1, keep);
  }

  lemma KeepsSingleMatch(a: seq<string>, b: seq<string>, flags: seq<FlagDef>)
    requires forall t :: t in a ==> t in b
    requires SingleMatchBundles(b, flags)
    ensures SingleMatchBundles(a, flags)
  {
    forall j | 0 <= j < |a| && IsBundle(a[j])
      ensures MatchCount(a[j][1..], flags) <= 1
    {
      assert a[j] in b;
    }
  }

  /** `Flag.parse` leaves every token that does not start with `-` in place when no bundle names two flags. */
  lemma FlagPhaseKeepsPlain(args: seq<string>, flags: seq<FlagDef>, verboseEnabled: bool, helpEnabled: bool)
    requires SingleMatchBundles(args, WorkingFlags(flags, verboseEnabled, helpEnabled))
    ensures Plain(FlagPhase(args, flags, verboseEnabled, helpEnabled).0) == Plain(args)
  {
    ScanKeeps(args, 0, WorkingFlags(flags, verboseEnabled, helpEnabled), map[], NotDashLed);
  }

  /** A `--` token that names a flag of the list called `k`. */
  predicate SetsName(t: string, flags: seq<FlagDef>, k: string) {
    StartsWith(t, "--") && FindFlag(t, flags).Some? && FindFlag(t, flags).value.name == k
  }

  /** A token that can change the result for `k`: a `--` token naming it, or a bundle with a character naming it. */
  predicate Mentions(t: string, flags: seq<FlagDef>, k: string) {
    SetsName(t, flags, k) || (IsBundle(t) && k in Names(Matched(t[1..], flags)))
  }

  /** The inert tokens of a stream, as a filter. */
  function InertIn(flags: seq<FlagDef>): string -> bool {
    t => Inert(t, flags)
  }

  /**
   * Reference reading of a stream without short bundles, left to right:
   * each `--` token naming a flag stores that flag's value.
   */
  function LongSettings(args: seq<string>, flags: seq<FlagDef>, params: Params): Params {
    if args == [] then params
    else if StartsWith(args[0], "--") && FindFlag(args[0], flags).Some? then
      var f := FindFlag(args[0], flags).value;
      LongSettings(args[1..], flags, params[f.name := ValueOf(f.value)])
    else LongSettings(args[1..], flags, params)
  }

  /** Tokens that set nothing for `k` leave it as it was. */
  lemma {:induction false} LongSettingsUnset(args: seq<string>, flags: seq<FlagDef>, params: Params, k: string)
    requires forall j :: 0 <= j < |args| ==> !SetsName(args[j], flags, k)
    ensures k in LongSettings(args, flags, params) <==> k in params
    ensures k in params ==> LongSettings(args, flags, params)[k] == params[k]
    decreases |args|
  {
    if args != [] {
      assert !SetsName(args[0], flags, k);
      if StartsWith(args[0], "--") && FindFlag(args[0], flags).Some? {
        var f := FindFlag(args[0], flags).value;
        LongSettingsUnset(args[1..], flags, params[f.name := ValueOf(f.value)], k);
      } else {
        LongSettingsUnset(args[1..], flags, params, k);
      }
    }
  }

  /** The last token that sets `k` decides its value. */
  lemma {:induction false} LongSettingsLast(args: seq<string>, flags: seq<FlagDef>, params: Params, k: string, j: nat)
    requires j < |args| && SetsName(args[j], flags, k)
    requires forall m :: j < m < |args| ==> !SetsName(args[m], flags, k)
    ensures k in LongSettings(args, flags, params)
    ensures LongSettings(args, flags, params)[k] == ValueOf(FindFlag(args[j], flags).value.value)
    decreases |args|
  {
    var next := if StartsWith(args[0], "--") && FindFlag(args[0], flags).Some? then
                  params[FindFlag(args[0], flags).value.name := ValueOf(FindFlag(args[0], flags).value.value)]
                else params;
    assert LongSettings(args, flags, params) == LongSettings(args[1..], flags, next);
    if j == 0 {
      LongSettingsUnset(args[1..], flags, next, k);
    } else {
      LongSettingsLast(args[1..], flags, next, k, j - 1);
    }
  }

  /** A stream without short bundles: every token starting with `-` starts with `--`. */
  predicate LongOnly(s: seq<string>) {
    forall j :: 0 <= j < |s| && DashLed(s[j]) ==> StartsWith(s[j], "--")
  }

  lemma LongOnlyTail(s: seq<string>, i: nat)
    requires i < |s| && LongOnly(s[i..])
    ensures LongOnly(s[i + 1..]) && (DashLed(s[i]) ==> StartsWith(s[i], "--"))
  {
    var t := s[i + 1..];
    assert s[i..][0] == s[i];
    forall j | 0 <= j < |t| && DashLed(t[j])
      ensures StartsWith(t[j], "--")
    {
      assert t[j] == s[i..][j + 1];
    }
  }

  /**
   * On a stream whose `-` tokens all start with `--`, the scan from `i`
   * removes exactly the tokens naming a flag and reads the rest left to
   * right as `LongSettings` does.
   */
  lemma ScanLongOnly(args: seq<string>, i: nat, flags: seq<FlagDef>, params: Params)
    requires i <= |args| && LongOnly(args[i..])
    ensures Scan(args, i, flags, params) == (args[..i] + Filter(args[i..], InertIn(flags)), LongSettings(args[i..], flags, params))
  {
    ScanLongOnlyStream(args, i, flags, params);
    ScanLongOnlySettings(args, i, flags, params);
  }

  lemma FilterStep(s: seq<string>, i: nat, keep: string -> bool)
    requires i < |s|
    ensures Filter(s[i..], keep) == (if keep(s[i]) then [s[i]] else []) + Filter(s[i + 1..], keep)
  {
    assert s[i..][0] == s[i] && s[i..][1..] == s[i + 1..];
  }

  lemma {:induction false} ScanLongOnlyStream(args: seq<string>, i: nat, flags: seq<FlagDef>, params: Params)
    requires i <= |args| && LongOnly(args[i..])
    ensures Scan(args, i, flags, params).0 == args[..i] + Filter(args[i..], InertIn(flags))
    decreases |args|, |args| - i, 1
  {
    if i == |args| {
      assert args[..i] == args && args[i..] == [];
    } else if StartsWith(args[i], "--") && FindFlag(args[i], flags).Some? {
      StreamDropsFlag(args, i, flags, params);
    } else {
      StreamKeepsToken(args, i, flags, params);
    }
  }

  lemma {:induction false} StreamDropsFlag(args: seq<string>, i: nat, flags: seq<FlagDef>, params: Params)
    requires i < |args| && LongOnly(args[i..])
    requires StartsWith(args[i], "--") && FindFlag(args[i], flags).Some?
    ensures Scan(args, i, flags, params).0 == args[..i] + Filter(args[i..], InertIn(flags))
    decreases |args|, |args| - i, 0
  {
    var f := FindFlag(args[i], flags).value;
    var a, next, keep := RemoveAt(args, i), params[f.name := ValueOf(f.value)], InertIn(flags);
    LongOnlyTail(args, i);
    NamingIsNotInert(args[i], flags);
    FilterStep(args, i, keep);
    assert Filter(args[i..], keep) == Filter(args[i + 1..], keep);
    LongFlagStep(args, i, flags, params);
    ScanLongOnlyStream(a, i, flags, next);
  }

  lemma NamingIsNotInert(t: string, flags: seq<FlagDef>)
    requires StartsWith(t, "--") && FindFlag(t, flags).Some?
    ensures !InertIn(flags)(t)
  {
    assert t[0] == t[..2][0];
  }

  lemma {:induction false} StreamKeepsToken(args: seq<string>, i: nat, flags: seq<FlagDef>, params: Params)
    requires i < |args| && LongOnly(args[i..])
    requires !(StartsWith(args[i], "--") && FindFlag(args[i], flags).Some?)
    ensures Scan(args, i, flags, params).0 == args[..i] + Filter(args[i..], InertIn(flags))
    decreases |args|, |args| - i, 0
  {
    var arg := args[i];
    var pre, later := args[..i], Filter(args[i + 1..], InertIn(flags));
    LongOnlyTail(args, i);
    FilterStep(args, i, InertIn(flags));
    KeptTokenStep(args, i, flags, params);
    assert InertIn(flags)(arg);
    assert pre + ([arg] + later) == args[..i + 1] + later;
    ScanLongOnlyStream(args, i + 1, flags, params);
  }

  lemma {:induction false} ScanLongOnlySettings(args: seq<string>, i: nat, flags: seq<FlagDef>, params: Params)
    requires i <= |args| && LongOnly(args[i..])
    ensures Scan(args, i, flags, params).1 == LongSettings(args[i..], flags, params)
    decreases |args|, |args| - i
  {
    if i == |args| {
      assert args[i..] == [];
    } else {
      var arg := args[i];
      assert args[i..][0] == arg && args[i..][1..] == args[i + 1..];
      LongOnlyTail(args, i);
      if StartsWith(arg, "--") && FindFlag(arg, flags).Some? {
        var f := FindFlag(arg, flags).value;
        LongFlagStep(args, i, flags, params);
        ScanLongOnlySettings(RemoveAt(args, i), i, flags, params[f.name := ValueOf(f.value)]);
      } else {
        KeptTokenStep(args, i, flags, params);
        ScanLongOnlySettings(args, i + 1, flags, params);
      }
    }
  }

  /** A `--` token naming a flag is removed and the scan stays at its index. */
  lemma LongFlagStep(args: seq<string>, i: nat, flags: seq<FlagDef>, params: Params)
    requires i < |args| && StartsWith(args[i], "--") && FindFlag(args[i], flags).Some?
    ensures var f := FindFlag(args[i], flags).value;
            Scan(args, i, flags, params) == Scan(RemoveAt(args, i), i, flags, params[f.name := ValueOf(f.value)])
    ensures RemoveAt(args, i)[..i] == args[..i] && RemoveAt(args, i)[i..] == args[i + 1..]
  {
  }

  /** A token the scan does not remove moves it on by one. */
  lemma KeptTokenStep(args: seq<string>, i: nat, flags: seq<FlagDef>, params: Params)
    requires i < |args| && (StartsWith(args[i], "--") || !DashLed(args[i]))
    requires !(StartsWith(args[i], "--") && FindFlag(args[i], flags).Some?)
    ensures Scan(args, i, flags, params) == Scan(args, i + 1, flags, params)
  {
  }

  /**
   * `Flag.parse` on a stream without short bundles: the tokens naming a
   * working flag are removed and all others stay in order; a flag no token
   * names is `false`, and any other flag holds the value of the flag named
   * by the last token naming it.
   */
  lemma FlagPhaseLongOnly(args: seq<string>, flags: seq<FlagDef>, verboseEnabled: bool, helpEnabled: bool)
    requires LongOnly(args)
    ensures LongOnlyOutcome(args, WorkingFlags(flags, verboseEnabled, helpEnabled), FlagPhase(args, flags, verboseEnabled, helpEnabled))
  {
    var w := WorkingFlags(flags, verboseEnabled, helpEnabled);
    ScanFromStart(args, w);
    var r := FlagPhase(args, flags, verboseEnabled, helpEnabled);
    assert r == (Filter(args, InertIn(w)), FillUnset(w, LongSettings(args, w, map[])));
    FillLongSettings(args, w, r);
  }

  lemma ScanFromStart(args: seq<string>, w: seq<FlagDef>)
    requires LongOnly(args)
    ensures Scan(args, 0, w, map[]) == (Filter(args, InertIn(w)), LongSettings(args, w, map[]))
  {
    assert args[0..] == args;
    ScanLongOnly(args, 0, w, map[]);
    assert args[..0] + Filter(args, InertIn(w)) == Filter(args, InertIn(w));
  }

  /**
   * What the flag phase yields on a stream without short bundles: the
   * stream without its tokens naming a flag; `false` for a flag no token
   * names; otherwise the value of the flag the last token naming it names.
   */
  ghost predicate LongOnlyOutcome(args: seq<string>, w: seq<FlagDef>, r: (seq<string>, Params)) {
    && r.0 == Filter(args, InertIn(w))
    && (forall k :: k in Names(w) && (forall j :: 0 <= j < |args| ==> !SetsName(args[j], w, k))
          ==> k in r.1 && r.1[k] == Bool(false))
    && (forall k, j :: 0 <= j < |args| && SetsName(args[j], w, k) && (forall m :: j < m < |args| ==> !SetsName(args[m], w, k))
          ==> k in r.1 && r.1[k] == ValueOf(FindFlag(args[j], w).value.value))
  }

  lemma FillLongSettings(args: seq<string>, w: seq<FlagDef>, r: (seq<string>, Params))
    requires r == (Filter(args, InertIn(w)), FillUnset(w, LongSettings(args, w, map[])))
    ensures LongOnlyOutcome(args, w, r)
  {
    var s := LongSettings(args, w, map[]);
    var p := r.1;
    forall k | k in Names(w) && (forall j :: 0 <= j < |args| ==> !SetsName(args[j], w, k))
      ensures k in p && p[k] == Bool(false)
    {
      LongSettingsUnset(args, w, map[], k);
    }
    forall k, j | 0 <= j < |args| && SetsName(args[j], w, k) && (forall m :: j < m < |args| ==> !SetsName(args[m], w, k))
      ensures k in p && p[k] == ValueOf(FindFlag(args[j], w).value.value)
    {
      LongSettingsLast(args, w, map[], k, j);
    }
  }

  /** A scan over tokens none of which mentions `k` leaves `k` as it was. */
  lemma {:induction false} ScanUnmentioned(args: seq<string>, i: nat, flags: seq<FlagDef>, params: Params, k: string)
    requires forall t :: t in args ==> !Mentions(t, flags, k)
    ensures k in Scan(args, i, flags, params).1 <==> k in params
    ensures k in params ==> Scan(args, i, flags, params).1[k] == params[k]
    decreases |args|, |args| - i
  {
    if i < |args| {
      var arg := args[i];
      assert !Mentions(arg, flags, k);
      if StartsWith(arg, "--") {
        match FindFlag(arg, flags)
        case Some(f) =>
          SubseqMembers(RemoveAt(args, i), args);
          ScanUnmentioned(RemoveAt(args, i), i, flags, params[f.name := ValueOf(f.value)], k);
        case None =>
          ScanUnmentioned(args, i + 1, flags, params, k);
      } else if DashLed(arg) {
        var b := Bundle(args, i, arg[1..], flags, params);
        assert IsBundle(arg);
        AccumulateAllKeeps(params, Matched(arg[1..], flags));
        SubseqMembers(b.0, args);
        ScanUnmentioned(b.0, i + 1, flags, b.1, k);
      } else {
        ScanUnmentioned(args, i + 1, flags, params, k);
      }
    }
  }

  /** A working flag that no token of the stream mentions ends the flag phase as `false`, whatever else the stream holds. */
  lemma FlagPhaseUnseenIsFalse(args: seq<string>, flags: seq<FlagDef>, verboseEnabled: bool, helpEnabled: bool, k: string)
    requires k in Names(WorkingFlags(flags, verboseEnabled, helpEnabled))
    requires forall t :: t in args ==> !Mentions(t, WorkingFlags(flags, verboseEnabled, helpEnabled), k)
    ensures FlagPhase(args, flags, verboseEnabled, helpEnabled).1[k] == Bool(false)
  {
    ScanUnmentioned(args, 0, WorkingFlags(flags, verboseEnabled, helpEnabled), map[], k);
  }

  function Repeat(c: char, n: nat): (s: string)
    ensures |s| == n && forall j :: 0 <= j < n ==> s[j] == c
  {
    if n == 0 then "" else [c] + Repeat(c, n - 1)
  }

  /** Each further `v` of a bundle adds the verbose flag's value 1 to the count. */
  lemma {:induction false} BundleCountsVerbose(args: seq<string>, i: nat, n: nat, flags: seq<FlagDef>, params: Params)
    requires FindFlag("-v", flags) == Some(VerboseFlag)
    requires "verbose" in params && params["verbose"].Int?
    ensures "verbose" in Bundle(args, i, Repeat('v', n), flags, params).1
    ensures Bundle(args, i, Repeat('v', n), flags, params).1["verbose"] == Int(params["verbose"].i + n)
  {
    if n > 0 {
      var chars := Repeat('v', n);
      assert "-" + [chars[0]] == "-v";
      assert chars[1..] == Repeat('v', n - 1);
      var next := Accumulate(params, VerboseFlag);
      assert next["verbose"] == Int(params["verbose"].i + 1);
      assert Bundle(args, i, chars, flags, params) == Bundle(RemoveAt(args, i), i, chars[1..], flags, next);
      BundleCountsVerbose(RemoveAt(args, i), i, n - 1, flags, next);
    }
  }

  /** `-v`, `-vv`, `-vvv`, … alone on the line give a verbosity equal to the number of `v`s and consume the token. */
  lemma VerboseCount(n: nat)
    requires n >= 1
    ensures FlagPhase(["-" + Repeat('v', n)], [], true, false) == ([], map["verbose" := Int(n)])
  {
    var args := ["-" + Repeat('v', n)];
    var w := WorkingFlags([], true, false);
    VerboseOnlyList();
    var chars := args[0][1..];
    assert chars == Repeat('v', n);
    assert args[0][..2] == "-v";
    VerboseBundle(args, n, w);
    var p := map["verbose" := Int(n)];
    assert Scan(args, 0, w, map[]) == Scan([], 1, w, p);
    assert Scan([], 1, w, p) == ([], p);
    assert FillUnset(w, p) == p;
  }

  lemma VerboseOnlyList()
    ensures WorkingFlags([], true, false) == [VerboseFlag]
    ensures Names([VerboseFlag]) == {"verbose"}
    ensures FindFlag("-v", [VerboseFlag]) == Some(VerboseFlag)
  {
    assert Triggers(VerboseFlag, "-v");
    assert FindFlagFrom("-v", [VerboseFlag], 0) == Some(0);
  }

  lemma VerboseBundle(args: seq<string>, n: nat, w: seq<FlagDef>)
    requires n >= 1 && w == [VerboseFlag] && |args| == 1
    ensures Bundle(args, 0, Repeat('v', n), w, map[]) == ([], map["verbose" := Int(n)])
  {
    VerboseOnlyList();
    var p1 := map["verbose" := Int(1)];
    var rest := Bundle(RemoveAt(args, 0), 0, Repeat('v', n - 1), w, p1);
    VerboseBundleStep(args, n, w);
    BundleCountsVerbose(RemoveAt(args, 0), 0, n - 1, w, p1);
    BundleKeeps(RemoveAt(args, 0), 0, Repeat('v', n - 1), w, p1);
    VerboseBundleEmpties(args, Repeat('v', n), w);
    SingletonMap(rest.1, "verbose", Int(n));
  }

  lemma VerboseBundleStep(args: seq<string>, n: nat, w: seq<FlagDef>)
    requires n >= 1 && w == [VerboseFlag]
    ensures Bundle(args, 0, Repeat('v', n), w, map[])
         == Bundle(RemoveAt(args, 0), 0, Repeat('v', n - 1), w, map["verbose" := Int(1)])
  {
    VerboseOnlyList();
    var chars := Repeat('v', n);
    assert "-" + [chars[0]] == "-v";
    assert chars[1..] == Repeat('v', n - 1);
    assert Accumulate(map[], VerboseFlag) == map["verbose" := Int(1)];
  }

  lemma SingletonMap(m: Params, k: string, v: Value)
    requires m.Keys == {k} && m[k] == v
    ensures m == map[k := v]
  {
  }

  lemma VerboseBundleEmpties(args: seq<string>, chars: string, w: seq<FlagDef>)
    requires chars != [] && chars[0] == 'v' && w == [VerboseFlag] && |args| == 1
    ensures Bundle(args, 0, chars, w, map[]).0 == []
  {
    VerboseOnlyList();
    assert "-" + [chars[0]] == "-v";
    assert MatchCount(chars, w) >= 1;
  }

  /** Without the synthetic verbose flag, `-v` is not recognised and stays in the stream. */
  lemma UnknownShortFlagStays()
    ensures FlagPhase(["-v"], [], false, true).0 == ["-v"]
  {
    var w := WorkingFlags([], false, true);
    assert w == [HelpFlag];
    assert !Triggers(HelpFlag, "-v");
    assert FindFlagFrom("-v", w, 1) == None;
    assert FindFlag("-" + ['v'], w) == None;
    assert "-v"[..2] == "-v";
    assert "-v"[1..] == "v";
  }

  /**
   * A `--` token that names no flag of the working list stays in the
   * stream, every occurrence of it, unless a bundle naming two flags
   * splices it away (`BundleSwallowsNextToken`).
   */
  lemma UnknownLongFlagStays(args: seq<string>, flags: seq<FlagDef>, verboseEnabled: bool, helpEnabled: bool, u: string)
    requires SingleMatchBundles(args, WorkingFlags(flags, verboseEnabled, helpEnabled))
    requires StartsWith(u, "--") && FindFlag(u, WorkingFlags(flags, verboseEnabled, helpEnabled)).None?
    ensures multiset(FlagPhase(args, flags, verboseEnabled, helpEnabled).0)[u] == multiset(args)[u]
  {
    var w := WorkingFlags(flags, verboseEnabled, helpEnabled);
    assert forall t :: Is(u)(t) ==> t == u;
    ScanKeeps(args, 0, w, map[], Is(u));
    OccurrencesAreCount(args, u);
    OccurrencesAreCount(FlagPhase(args, flags, verboseEnabled, helpEnabled).0, u);
  }

  /** A bundle naming two flags removes itself and the token after it: `-tu x` loses `x`. */
  lemma BundleSwallowsNextToken()
    ensures var flags := [FlagDef("t", Some("-t"), None, FBool(true)), FlagDef("u", Some("-u"), None, FBool(true))];
            FlagPhase(["-tu", "x"], flags, false, false).0 == []
  {
    var flags := [FlagDef("t", Some("-t"), None, FBool(true)), FlagDef("u", Some("-u"), None, FBool(true))];
    var args := ["-tu", "x"];
    assert WorkingFlags(flags, false, false) == flags;
    TwoFlagsMatch(flags);
    var b := Bundle(args, 0, "tu", flags, map[]);
    assert b.0 == Splice(args, 0, 2) == [];
    assert args[0][..2] == "-t" && args[0][1..] == "tu";
    assert Scan(args, 0, flags, map[]) == Scan(b.0, 1, flags, b.1);
  }

  lemma TwoFlagsMatch(flags: seq<FlagDef>)
    requires flags == [FlagDef("t", Some("-t"), None, FBool(true)), FlagDef("u", Some("-u"), None, FBool(true))]
    ensures MatchCount("tu", flags) == 2
  {
    assert Triggers(flags[0], "-t") && Triggers(flags[1], "-u") && !Triggers(flags[0], "-u");
    assert FindFlagFrom("-t", flags, 0) == Some(0);
    assert FindFlagFrom("-u", flags, 1) == Some(1);
    assert "-" + ['t'] == "-t" && "-" + ['u'] == "-u";
    assert "tu"[1..] == "u" && "u"[1..] == "";
    assert MatchCount("u", flags) == 1;
  }

  /** After a bundle the index moves on although the bundle was removed, so the next token is not examined: `-v --verbose` leaves `--verbose`. */
  lemma BundleSkipsNextToken()
    ensures FlagPhase(["-v", "--verbose"], [], true, false) == (["--verbose"], map["verbose" := Int(1)])
  {
    var w := WorkingFlags([], true, false);
    VerboseOnlyList();
    assert "-" + ['v'] == "-v";
    assert "-v"[..2] == "-v";
    assert "-v"[1..] == "v" && "v"[1..] == "";
    var b := Bundle(["-v", "--verbose"], 0, "v", w, map[]);
    assert b == Bundle(["--verbose"], 0, "", w, map["verbose" := Int(1)]);
    assert b == (["--verbose"], map["verbose" := Int(1)]);
    assert Scan(["-v", "--verbose"], 0, w, map[]) == Scan(b.0, 1, w, b.1);
    assert FillUnset(w, b.1) == b.1;
  }
}
