/** One call of a command-line tool: the tool's template is checked when it is parsed, the
    call's arguments when it is made, and what passes both is rendered. */
module CliAdapter {
  import opened Wrappers
  import opened Argv

  datatype Value = StringV(text: string) | NumberV(number: real) | BoolV(flag: bool) | StructuredV(json: string)

  datatype Property = Property(choices: Option<seq<Value>>, typeName: Option<string>)

  datatype Schema = Schema(properties: map<string, Property>, required: seq<string>, allowAdditional: bool)

  datatype ArgError =
    | Missing(key: string)
    | Unexpected(key: string)
    | NotAChoice(key: string)
    | WrongType(key: string, typeName: string)

  predicate MatchesType(v: Value, typeName: string) {
    if typeName == "string" then v.StringV?
    else if typeName == "number" then v.NumberV?
    else if typeName == "integer" then v.NumberV? && v.number.Floor as real == v.number
    else if typeName == "boolean" then v.BoolV?
    else true
  }

  /** What may be said against a call. */
  predicate Complaint(args: map<string, Value>, schema: Schema, e: ArgError) {
    match e
    case Missing(key) =>
      key in schema.required && key !in args
    case Unexpected(key) =>
      key in args && key !in schema.properties && !schema.allowAdditional
    case NotAChoice(key) =>
      && key in args && key in schema.properties
      && schema.properties[key].choices.Some? && args[key] !in schema.properties[key].choices.value
    case WrongType(key, typeName) =>
      && key in args && key in schema.properties && schema.properties[key].choices.None?
      && schema.properties[key].typeName == Some(typeName) && !MatchesType(args[key], typeName)
  }

  /** A number with a fraction is no integer. */
  lemma IntegersAreWhole(n: int, fraction: real)
    requires 0.0 <= fraction < 1.0
    ensures MatchesType(NumberV(n as real + fraction), "integer") <==> fraction == 0.0
    ensures MatchesType(NumberV(n as real + fraction), "number")
  {
    var v := n as real + fraction;
    assert v.Floor == n;
  }

  /** The argument is one the schema knows, or allows all the same; if it lists choices it is one of
      them, and otherwise of the type it names, if it names one. */
  predicate Suits(args: map<string, Value>, schema: Schema, key: string)
    requires key in args
  {
    if key !in schema.properties then schema.allowAdditional
    else
      match schema.properties[key]
      case Property(Some(choices), _) => args[key] in choices
      case Property(None, Some(typeName)) => MatchesType(args[key], typeName)
      case Property(None, None) => true
  }

  /** There is nothing to say against a call exactly if every required argument is there and every
      argument suits the schema. */
  lemma NoComplaintIff(args: map<string, Value>, schema: Schema)
    ensures (forall e :: !Complaint(args, schema, e)) <==>
            && (forall key :: key in schema.required ==> key in args)
            && (forall key :: key in args ==> Suits(args, schema, key))
  {
    if forall e :: !Complaint(args, schema, e) {
      forall key | key in schema.required
        ensures key in args
      {
        assert !Complaint(args, schema, Missing(key));
      }
      forall key | key in args
        ensures Suits(args, schema, key)
      {
        assert !Complaint(args, schema, Unexpected(key)) && !Complaint(args, schema, NotAChoice(key));
        if key in schema.properties && schema.properties[key].typeName.Some? {
          assert !Complaint(args, schema, WrongType(key, schema.properties[key].typeName.value));
        }
      }
    }
  }

  /** `keys` are the argument's keys in the order they are listed. Every complaint is found, and
      nothing else is reported. */
  method ValidateArgs(args: map<string, Value>, keys: seq<string>, schema: Schema) returns (errors: seq<ArgError>)
    requires forall key :: key in keys <==> key in args
    ensures forall e :: e in errors <==> Complaint(args, schema, e)
  {
    errors := [];
    for i := 0 to |schema.required|
      invariant forall e :: e in errors <==> e.Missing? && e.key in schema.required[..i] && e.key !in args
    {
      if schema.required[i] !in args {
        errors := errors + [Missing(schema.required[i])];
      }
      assert schema.required[..i + 1] == schema.required[..i] + [schema.required[i]];
    }
    for i := 0 to |keys|
      invariant forall e :: e in errors <==> Complaint(args, schema, e) && (e.Missing? || e.key in keys[..i])
    {
      assert keys[..i + 1] == keys[..i] + [keys[i]];
      var found := Check(args, keys[i], schema);
      if found.Some? {
        errors := errors + [found.value];
      }
    }
    assert keys[..|keys|] == keys;
  }

  /** One argument: there is at most one thing to say against it. */
  method Check(args: map<string, Value>, key: string, schema: Schema) returns (error: Option<ArgError>)
    requires key in args
    ensures forall e :: error == Some(e) <==> !e.Missing? && e.key == key && Complaint(args, schema, e)
  {
    if key !in schema.properties {
      return if schema.allowAdditional then None else Some(Unexpected(key));
    }
    var property := schema.properties[key];
    if property.choices.Some? {
      return if args[key] in property.choices.value then None else Some(NotAChoice(key));
    }
    if property.typeName.Some? && !MatchesType(args[key], property.typeName.value) {
      return Some(WrongType(key, property.typeName.value));
    }
    return None;
  }

  function RefNames(ps: seq<Piece>): set<string> {
    if ps == [] then {} else (if ps[0].Ref? then {ps[0].name} else {}) + RefNames(ps[1..])
  }

  function MatchNames(ms: seq<Match>): set<string> {
    if ms == [] then {} else {ms[0].name} + MatchNames(ms[1..])
  }

  lemma {:induction false} MatchesNameTheRefs(s: string, at: nat)
    ensures MatchNames(Matches(s, at)) == RefNames(Pieces(s))
  {
    if s != "" {
      match PlaceholderLength(s)
      case Some(n) => MatchesNameTheRefs(s[n..], at + n);
      case None => MatchesNameTheRefs(s[1..], at + 1);
    }
  }

  lemma {:induction false} ResolvesIffNamed(ps: seq<Piece>, args: map<string, string>)
    ensures Resolves(ps, args) <==> RefNames(ps) <= args.Keys
  {
    if ps != [] {
      ResolvesCons(ps, args);
      ResolvesIffNamed(ps[1..], args);
    }
  }

  /** Parsing refuses a template that names an undeclared parameter, and only such a one. */
  method FirstUndeclared(argv: seq<string>, declared: set<string>) returns (name: Option<string>)
    ensures name.None? <==> forall i :: 0 <= i < |argv| ==> RefNames(Pieces(argv[i])) <= declared
    ensures name.Some? ==>
              name.value !in declared && exists i :: 0 <= i < |argv| && name.value in RefNames(Pieces(argv[i]))
  {
    for i := 0 to |argv|
      invariant forall j :: 0 <= j < i ==> RefNames(Pieces(argv[j])) <= declared
    {
      var found := Matches(argv[i], 0);
      MatchesNameTheRefs(argv[i], 0);
      for k := 0 to |found|
        invariant MatchNames(found) - MatchNames(found[k..]) <= declared
        invariant MatchNames(found[k..]) <= MatchNames(found)
      {
        if found[k].name !in declared {
          return Some(found[k].name);
        }
      }
    }
    name := None;
  }

  lemma {:induction false} RenderedReadsOnlyRefs(ps: seq<Piece>, a: map<string, string>, b: map<string, string>)
    requires forall name :: name in RefNames(ps) ==> name in a && name in b && a[name] == b[name]
    ensures Resolves(ps, a) && Resolves(ps, b) && Rendered(ps, a) == Rendered(ps, b)
  {
    if ps != [] {
      RenderedReadsOnlyRefs(ps[1..], a, b);
      ResolvesCons(ps, a);
      ResolvesCons(ps, b);
    }
  }

  /** Rendering reads nothing but the parameters the template names: two calls that agree on
      those, and on which of them are missing, run the same command. */
  lemma {:induction false} UnnamedArgumentsNeverReachArgv(
    template: seq<string>, a: map<string, string>, b: map<string, string>)
    requires forall i, name :: 0 <= i < |template| && name in RefNames(Pieces(template[i])) ==>
                                 (name in a <==> name in b) && (name in a ==> a[name] == b[name])
    ensures RenderedArgv(template, a) == RenderedArgv(template, b)
  {
    if template != [] {
      UnnamedArgumentsNeverReachArgv(template[..|template| - 1], a, b);
      var ps := Pieces(template[|template| - 1]);
      ResolvesIffNamed(ps, a);
      ResolvesIffNamed(ps, b);
      if Resolves(ps, a) {
        RenderedReadsOnlyRefs(ps, a, b);
      }
    }
  }

  /** A call validation accepts supplies every required parameter, so a template that names only
      required ones loses no element. */
  lemma RequiredElementsAreNeverDropped(
    template: seq<string>, args: map<string, Value>, schema: Schema, text: Value -> string)
    requires forall e :: !Complaint(args, schema, e)
    requires forall i, name :: 0 <= i < |template| && name in RefNames(Pieces(template[i])) ==> name in schema.required
    ensures var shown := map key | key in args :: text(args[key]);
      && |RenderedArgv(template, shown)| == |template|
      && forall i: nat :: i < |template| ==> IsTokenOf(template, shown, i, RenderedArgv(template, shown)[i])
  {
    var shown := map key | key in args :: text(args[key]);
    forall i | 0 <= i < |template|
      ensures Resolves(Pieces(template[i]), shown)
    {
      forall name | name in RefNames(Pieces(template[i]))
        ensures name in shown
      {
        assert !Complaint(args, schema, Missing(name));
      }
      ResolvesIffNamed(Pieces(template[i]), shown);
    }
    KeptAll(template, shown);
    OneTokenPerKeptElement(template, shown);
  }

  lemma {:induction false} KeptAll(template: seq<string>, args: map<string, string>)
    requires forall i :: 0 <= i < |template| ==> Resolves(Pieces(template[i]), args)
    ensures Kept(template, args) == seq(|template|, (i: int) requires 0 <= i => i as nat)
  {
    if template != [] {
      KeptAll(template[..|template| - 1], args);
    }
  }

  datatype RunResult = RunResult(exitCode: Option<int>, timedOut: bool, truncated: bool)

  datatype Outcome = Refused(errors: seq<ArgError>) | Ran(argv: seq<string>, isError: bool)

  /** Nothing runs while there is a complaint. A run is an error if the sandbox threw (no result),
      if it timed out, or if it did not exit cleanly, unless the only reason is that its output
      was cut. */
  method RunCliTool(template: seq<string>, schema: Schema, args: map<string, Value>, keys: seq<string>,
                    text: Value -> string, result: Option<RunResult>)
    returns (outcome: Outcome)
    requires forall key :: key in keys <==> key in args
    ensures outcome.Refused? <==> exists e :: Complaint(args, schema, e)
    ensures outcome.Refused? ==> forall e :: e in outcome.errors <==> Complaint(args, schema, e)
    ensures outcome.Ran? ==>
              && outcome.argv == RenderedArgv(template, map key | key in args :: text(args[key]))
              && (!outcome.isError <==>
                  && result.Some? && !result.value.timedOut
                  && (result.value.exitCode == Some(0) || (result.value.exitCode.None? && result.value.truncated)))
  {
    var errors := ValidateArgs(args, keys, schema);
    if |errors| > 0 {
      assert errors[0] in errors;
      return Refused(errors);
    }
    var argv := RenderArgv(template, map key | key in args :: text(args[key]));
    match result
    case None =>
      outcome := Ran(argv, true);
    case Some(run) =>
      var exited := run.exitCode.Some?;
      outcome := Ran(argv, run.timedOut || (if exited then run.exitCode.value != 0 else !run.truncated));
  }
}
