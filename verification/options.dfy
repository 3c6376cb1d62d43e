/**
 * The option phase (`Option.parse`): for each option in registration order,
 * find its trigger and consume its value tokens according to its length.
 */
module Options {
  import opened Wrappers
  import opened Values
  import opened Elements
  import opened Streams
  import opened Coerce

  /** `args[k] && args[k][0] != '-'`: a token that can be an option value. */
  predicate IsValueToken(t: string) {
    t != "" && !DashLed(t)
  }

  /** The number of value tokens at the front of `s`. */
  function LeadingValues(s: seq<string>): (k: nat)
    ensures k <= |s|
    ensures forall j :: 0 <= j < k ==> IsValueToken(s[j])
    ensures k < |s| ==> !IsValueToken(s[k])
  {
    if |s| > 0 && IsValueToken(s[0]) then 1 + LeadingValues(s[1..]) else 0
  }

  /** Every token of `s` passes the option's type check. */
  predicate AllOfType(typeName: string, s: seq<string>) {
    forall j :: 0 <= j < |s| ==> ValidateType(typeName, s[j]).Ok?
  }

  /** The converted values of tokens that all pass the type check. */
  predicate ValuesOf(typeName: string, s: seq<string>, vs: seq<Value>)
    requires AllOfType(typeName, s)
  {
    |vs| == |s| && forall j :: 0 <= j < |s| ==> vs[j] == ValidateType(typeName, s[j]).value
  }

  lemma OfTypeCons(typeName: string, t: string, s: seq<string>)
    ensures AllOfType(typeName, [t] + s) <==> ValidateType(typeName, t).Ok? && AllOfType(typeName, s)
    ensures forall vs :: AllOfType(typeName, [t] + s) && ValuesOf(typeName, s, vs) ==>
      ValuesOf(typeName, [t] + s, [ValidateType(typeName, t).value] + vs)
  {
    var u := [t] + s;
    if ValidateType(typeName, t).Ok? && AllOfType(typeName, s) {
      forall j | 0 <= j < |u|
        ensures ValidateType(typeName, u[j]).Ok?
      {
        if j > 0 { assert u[j] == s[j - 1]; }
      }
    }
    if AllOfType(typeName, u) {
      assert ValidateType(typeName, u[0]).Ok?;
      forall j | 0 <= j < |s|
        ensures ValidateType(typeName, s[j]).Ok?
      {
        assert s[j] == u[j + 1];
      }
    }
    forall vs | AllOfType(typeName, u) && ValuesOf(typeName, s, vs)
      ensures ValuesOf(typeName, u, [ValidateType(typeName, t).value] + vs)
    {
      var ws := [ValidateType(typeName, t).value] + vs;
      forall j | 0 <= j < |u|
        ensures ws[j] == ValidateType(typeName, u[j]).value
      {
        if j > 0 { assert u[j] == s[j - 1] && ws[j] == vs[j - 1]; }
      }
    }
  }

  /** An empty collection is stored as `null`. */
  function ListOrNull(vs: seq<Value>): (v: Value)
    ensures vs == [] <==> v == Null
    ensures vs != [] ==> v == List(vs)
  {
    if vs == [] then Null else List(vs)
  }

  /** The element at `k`, `undefined` when out of range. */
  function At(s: seq<string>, k: nat): (r: Option<string>)
    ensures r.Some? <==> k < |s|
    ensures k < |s| ==> r.value == s[k]
  {
    if k < |s| then Some(s[k]) else None
  }

  /**
   * The `while (true)` loop of length -1, on the part of the stream from
   * the trigger's position on: while its first token is a value token, it
   * is removed, converted and appended. A conversion failure ends the
   * whole parse.
   */
  function Run(s: seq<string>, typeName: string): (r: Outcome<(seq<string>, seq<Value>)>)
    ensures var k := LeadingValues(s);
      && (r.Ok? <==> AllOfType(typeName, s[..k]))
      && (r.Ok? ==> r.value.0 == s[k..] && ValuesOf(typeName, s[..k], r.value.1))
  {
    if |s| > 0 && IsValueToken(s[0]) then
      var k := LeadingValues(s[1..]);
      assert s[..k + 1] == [s[0]] + s[1..][..k];
      assert s[k + 1..] == s[1..][k..];
      OfTypeCons(typeName, s[0], s[1..][..k]);
      match ValidateType(typeName, s[0])
      case Err(e) => Err(e)
      case Ok(v) =>
        match Run(s[1..], typeName)
        case Err(e) => Err(e)
        case Ok(p) => Ok((p.0, [v] + p.1))
    else
      Ok((s, []))
  }

  /** How often the fixed-count loop `for (i = 1; i <= length; i++)` runs: never for `'*'` and `'+'`. */
  function Iterations(length: Length): (n: nat)
    ensures length.Count? && length.n >= 0 ==> n == length.n
    ensures length.Count? && length.n < 0 ==> n == 0
    ensures !length.Count? ==> n == 0
  {
    match length
    case Count(n) => if n >= 0 then n else 0
    case Star => 0
    case Plus => 0
  }

  /** `option.length` in a message. */
  function LengthText(length: Length): string {
    match length
    case Count(n) => IntToString(n)
    case Star => "*"
    case Plus => "+"
  }

  function FixedMessage(o: OptionDef, stoppedAt: Option<string>): string {
    "Option " + o.name + " requires " + LengthText(o.length) + " but stopped at " + Show(stoppedAt)
  }

  /**
   * Iteration `i` (of `n`) of the fixed-count loop on the current stream:
   * the first token must be a value token; it is shifted off and converted.
   * The message of a missing value names the token at `index + i` of the
   * stream as it is at that point.
   */
  function FixedTake(args: seq<string>, i: nat, n: nat, index: nat, o: OptionDef): (r: Outcome<(seq<string>, seq<Value>)>)
    requires 1 <= i <= n + 1
    ensures var m := n + 1 - i;
      && (r.Ok? <==> m <= LeadingValues(args) && AllOfType(o.typeName, args[..m]))
      && (r.Ok? ==> r.value.0 == args[m..] && ValuesOf(o.typeName, args[..m], r.value.1))
    decreases n + 1 - i
  {
    if i > n then
      Ok((args, []))
    else if |args| > 0 && IsValueToken(args[0]) then
      var m := n - i;
      assert LeadingValues(args) == 1 + LeadingValues(args[1..]);
      FrontStep(args, m);
      OfTypeCons(o.typeName, args[0], args[1..][..if m <= |args| - 1 then m else |args| - 1]);
      OfTypeCons(o.typeName, args[0], args[1..][..LeadingValues(args[1..])]);
      match ValidateType(o.typeName, args[0])
      case Err(e) => Err(e)
      case Ok(v) =>
        match FixedTake(args[1..], i + 1, n, index, o)
        case Err(e) => Err(e)
        case Ok(p) => Ok((p.0, [v] + p.1))
    else
      Err(Admiral(FixedMessage(o, At(args, index + i))))
  }

  /**
   * When the fixed-count loop runs out of value tokens after `l` good ones,
   * it fails naming the token at `index + i` of the stream of that moment.
   */
  lemma {:induction false} FixedTakeStops(args: seq<string>, i: nat, n: nat, index: nat, o: OptionDef)
    requires 1 <= i <= n + 1
    requires LeadingValues(args) < n + 1 - i
    requires AllOfType(o.typeName, args[..LeadingValues(args)])
    ensures var l := LeadingValues(args);
      FixedTake(args, i, n, index, o) == Err(Admiral(FixedMessage(o, At(args[l..], index + i + l))))
    decreases n + 1 - i
  {
    var l := LeadingValues(args);
    if l > 0 {
      assert l == 1 + LeadingValues(args[1..]);
      assert ValidateType(o.typeName, args[..l][0]).Ok?;
      assert args[1..][..l - 1] == args[..l][1..];
      assert args[1..][l - 1..] == args[l..];
      FixedTakeStops(args[1..], i + 1, n, index, o);
    }
  }

  lemma FrontStep(args: seq<string>, m: nat)
    requires |args| > 0
    ensures m + 1 <= |args| ==> args[..m + 1] == [args[0]] + args[1..][..m] && args[m + 1..] == args[1..][m..]
    ensures var l := LeadingValues(args[1..]);
      args[..l + 1] == [args[0]] + args[1..][..l] && args[l + 1..] == args[1..][l..]
  {
  }

  /** `option.shortFlag` or `option.longFlag`. */
  predicate IsTrigger(o: OptionDef, t: string) {
    o.shortTrigger == Some(t) || o.longTrigger == Some(t)
  }

  /**
   * Where the option's trigger is: the first occurrence of the short
   * trigger if there is one, otherwise the first occurrence of the long one.
   */
  function TriggerIndex(args: seq<string>, o: OptionDef): (r: Option<nat>)
    ensures r.None? <==> forall j :: 0 <= j < |args| ==> !IsTrigger(o, args[j])
    ensures r.Some? ==> r.value < |args| && IsTrigger(o, args[r.value])
    ensures o.shortTrigger.Some? && o.shortTrigger.value in args ==>
      r.Some? && args[r.value] == o.shortTrigger.value && o.shortTrigger.value !in args[..r.value]
    ensures (o.shortTrigger.None? || o.shortTrigger.value !in args) && r.Some? ==>
      o.longTrigger.Some? && args[r.value] == o.longTrigger.value && o.longTrigger.value !in args[..r.value]
  {
    match IndexOf(args, o.shortTrigger)
    case Some(k) => Some(k)
    case None => IndexOf(args, o.longTrigger)
  }

  function MissingMessage(o: OptionDef): string {
    Show(o.shortTrigger) + "/" + Show(o.longTrigger) + " is required, and wasn't found"
  }

  function RunMessage(o: OptionDef): string {
    "Option " + o.name + " requires at least one argument."
  }

  /** `value.toString()` on the missing token after a length-1 trigger at the end of the stream. */
  const UndefinedValue := Fault("Cannot read properties of undefined (reading 'toString')")

  /**
   * Length 1: the token right after the trigger is the value, whatever it
   * looks like, and exactly the trigger and that token are removed.
   */
  function SingleValue(args: seq<string>, index: nat, o: OptionDef): (r: Outcome<(seq<string>, Value)>)
    requires index < |args|
    ensures index + 1 == |args| ==> r == Err(UndefinedValue)
    ensures index + 1 < |args| ==> (r.Ok? <==> ValidateType(o.typeName, args[index + 1]).Ok?)
    ensures index + 1 < |args| && r.Ok? ==>
      r.value == (args[..index] + args[index + 2..], ValidateType(o.typeName, args[index + 1]).value)
    ensures r.Ok? ==> IsSubseq(r.value.0, args)
  {
    if index + 1 < |args| then
      match ValidateType(o.typeName, args[index + 1])
      case Err(e) => Err(e)
      case Ok(v) => Ok((Splice(args, index, 2), v))
    else
      Err(UndefinedValue)
  }

  /**
   * Length -1: the trigger is removed, then the run of value tokens that
   * follows it; an empty run is an error for a required option and `null`
   * otherwise.
   */
  function RunValues(args: seq<string>, index: nat, o: OptionDef): (r: Outcome<(seq<string>, Value)>)
    requires index < |args|
    ensures var rest := RemoveAt(args, index);
      var tail := rest[index..];
      var k := LeadingValues(tail);
      && (r.Ok? <==> AllOfType(o.typeName, tail[..k]) && !(o.required && k == 0))
      && (AllOfType(o.typeName, tail[..k]) && o.required && k == 0 ==> r == Err(Admiral(RunMessage(o))))
      && (r.Ok? ==> r.value.0 == rest[..index] + tail[k..]
                    && (k == 0 <==> r.value.1 == Null)
                    && (k > 0 ==> r.value.1.List? && ValuesOf(o.typeName, tail[..k], r.value.1.items)))
    ensures r.Ok? ==> IsSubseq(r.value.0, args)
  {
    var rest := RemoveAt(args, index);
    match Run(rest[index..], o.typeName)
    case Err(e) => Err(e)
    case Ok(p) =>
      if o.required && p.1 == [] then Err(Admiral(RunMessage(o)))
      else
        var k := LeadingValues(rest[index..]);
        assert rest[index..][k..] == rest[index + k..];
        SubseqCut(rest, index, index + k);
        SubseqTrans(rest[..index] + p.0, rest, args);
        Ok((rest[..index] + p.0, ListOrNull(p.1)))
  }

  /**
   * Any other length: the stream's first token is removed (not necessarily
   * the trigger), then `Iterations(length)` value tokens from the front;
   * none collected gives `null`.
   */
  function FixedValues(args: seq<string>, index: nat, o: OptionDef): (r: Outcome<(seq<string>, Value)>)
    ensures var rest := Shift(args);
      var n := Iterations(o.length);
      && (r.Ok? <==> n <= LeadingValues(rest) && AllOfType(o.typeName, rest[..n]))
      && (r.Ok? ==> r.value.0 == rest[n..]
                    && (n == 0 <==> r.value.1 == Null)
                    && (n > 0 ==> r.value.1.List? && ValuesOf(o.typeName, rest[..n], r.value.1.items)))
    ensures r.Ok? ==> IsSubseq(r.value.0, args)
  {
    var rest := Shift(args);
    var n := Iterations(o.length);
    match FixedTake(rest, 1, n, index, o)
    case Err(e) => Err(e)
    case Ok(p) =>
      SubseqSuffix(rest, n);
      SubseqTrans(p.0, rest, args);
      Ok((p.0, ListOrNull(p.1)))
  }

  /**
   * The body of the `forEach` of `Option.parse` for one option: an absent
   * trigger is an error only for a required option; a present one is
   * handled according to the option's length and the value stored under
   * the option's name.
   */
  function OptionStep(args: seq<string>, params: Params, o: OptionDef): (r: Outcome<(seq<string>, Params)>)
    ensures TriggerIndex(args, o).None? ==>
      r == if o.required then Err(Admiral(MissingMessage(o))) else Ok((args, params))
    ensures r.Ok? ==> IsSubseq(r.value.0, args)
    ensures r.Ok? ==> r.value.1.Keys == params.Keys + (if TriggerIndex(args, o).Some? then {o.name} else {})
    ensures r.Ok? ==> forall k :: k in params && k != o.name ==> r.value.1[k] == params[k]
    ensures r.Ok? && o.required ==> o.name in r.value.1
  {
    match TriggerIndex(args, o)
    case None =>
      SubseqRefl(args);
      if o.required then Err(Admiral(MissingMessage(o))) else Ok((args, params))
    case Some(index) =>
      var taken :=
        if o.length == Count(-1) then RunValues(args, index, o)
        else if o.length == Count(1) then SingleValue(args, index, o)
        else FixedValues(args, index, o);
      match taken
      case Err(e) => Err(e)
      case Ok(p) => Ok((p.0, params[o.name := p.1]))
  }

  function Names(options: seq<OptionDef>): set<string> {
    set o | o in options :: o.name
  }

  /** The `forEach` of `Option.parse` from the `i`-th option on; the first failure ends it. */
  function OptionPhaseFrom(args: seq<string>, options: seq<OptionDef>, i: nat, params: Params): (r: Outcome<(seq<string>, Params)>)
    requires i <= |options|
    ensures r.Ok? ==> IsSubseq(r.value.0, args)
    ensures r.Ok? ==> params.Keys <= r.value.1.Keys <= params.Keys + Names(options[i..])
    ensures r.Ok? ==> forall j :: i <= j < |options| && options[j].required ==> options[j].name in r.value.1
    decreases |options| - i
  {
    if i == |options| then
      SubseqRefl(args);
      Ok((args, params))
    else
      match OptionStep(args, params, options[i])
      case Err(e) => Err(e)
      case Ok(p) =>
        match OptionPhaseFrom(p.0, options, i + 1, p.1)
        case Err(e) => Err(e)
        case Ok(q) =>
          SubseqTrans(q.0, p.0, args);
          assert options[i..] == [options[i]] + options[i + 1..];
          Ok(q)
  }

  /** `Option.parse(args, options)`: the remaining stream and the option results. */
  function OptionPhase(args: seq<string>, options: seq<OptionDef>): (r: Outcome<(seq<string>, Params)>)
    ensures r.Ok? ==> IsSubseq(r.value.0, args)
    ensures r.Ok? ==> r.value.1.Keys <= Names(options)
    ensures r.Ok? ==> forall o :: o in options && o.required ==> o.name in r.value.1
  {
    OptionPhaseFrom(args, options, 0, map[])
  }

  /**
   * Options whose triggers do not occur and that are not required leave
   * the stream and the results alone.
   */
  lemma {:induction false} AbsentOptionalsLeaveAll(args: seq<string>, options: seq<OptionDef>, i: nat, params: Params)
    requires i <= |options|
    requires forall k :: i <= k < |options| ==> !options[k].required
    requires forall k, j :: i <= k < |options| && 0 <= j < |args| ==> !IsTrigger(options[k], args[j])
    ensures OptionPhaseFrom(args, options, i, params) == Ok((args, params))
    decreases |options| - i
  {
    if i < |options| {
      assert OptionStep(args, params, options[i]) == Ok((args, params));
      AbsentOptionalsLeaveAll(args, options, i + 1, params);
    }
  }

  /**
   * A "*" or "+" option that is found takes no values (the fixed-count loop
   * runs zero times) and is set to null, and the token taken out of the
   * stream is the first one, not the trigger.
   */
  lemma StarAndPlusTakeNothing(args: seq<string>, params: Params, o: OptionDef)
    requires o.length == Star || o.length == Plus
    requires TriggerIndex(args, o).Some?
    ensures OptionStep(args, params, o) == Ok((Shift(args), params[o.name := Null]))
  {
    var index := TriggerIndex(args, o).value;
    assert Iterations(o.length) == 0;
    assert Shift(args)[0..] == Shift(args);
    assert FixedValues(args, index, o) == Ok((Shift(args), Null));
  }

  /**
   * A required option none of whose triggers occurs makes the option phase
   * fail, whichever options come before it: they only take tokens away.
   */
  lemma {:induction false} MissingRequiredFails(args: seq<string>, options: seq<OptionDef>, i: nat, params: Params, k: nat)
    requires i <= k < |options| && options[k].required
    requires forall j :: 0 <= j < |args| ==> !IsTrigger(options[k], args[j])
    ensures OptionPhaseFrom(args, options, i, params).Err?
    decreases |options| - i
  {
    if i == k {
      assert TriggerIndex(args, options[k]).None?;
      assert OptionStep(args, params, options[k]).Err?;
    } else {
      match OptionStep(args, params, options[i])
      case Err(_) =>
      case Ok(p) =>
        SubseqMembers(p.0, args);
        forall j | 0 <= j < |p.0|
          ensures !IsTrigger(options[k], p.0[j])
        {
          assert p.0[j] in args;
        }
        MissingRequiredFails(p.0, options, i + 1, p.1, k);
    }
  }

  /** On an empty stream no option is found, so the only possible error is a missing required option. */
  lemma {:induction false} EmptyStreamErrorIsMissing(options: seq<OptionDef>, i: nat, params: Params)
    requires i <= |options|
    ensures var r := OptionPhaseFrom([], options, i, params);
      r.Err? ==> exists k :: i <= k < |options| && options[k].required && r.error == Admiral(MissingMessage(options[k]))
    decreases |options| - i
  {
    if i < |options| {
      assert TriggerIndex([], options[i]).None?;
      if !options[i].required {
        assert OptionStep([], params, options[i]) == Ok(([], params));
        EmptyStreamErrorIsMissing(options, i + 1, params);
      }
    }
  }
}
