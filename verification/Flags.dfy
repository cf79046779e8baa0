/** Flags and the environment (config.go): `envParse` fills flags that the command line left alone. */
module Flags {
  import opened Text

  // ----- names -----

  function UpperChar(c: char): char {
    if 'a' <= c <= 'z' then (c as int - 32) as char else c
  }

  function Upper(s: string): (r: string)
    ensures |r| == |s| && forall i :: 0 <= i < |s| ==> r[i] == UpperChar(s[i])
  {
    seq(|s|, i requires 0 <= i < |s| => UpperChar(s[i]))
  }

  /** `variableName`. */
  function VariableName(name: string): string { "LBEX_" + Upper(ReplaceChar(name, '-', '_')) }

  /** Neither an upper-case letter nor an underscore. */
  predicate PlainName(s: string) { forall c :: c in s ==> !('A' <= c <= 'Z') && c != '_' }

  /** Different plain names have different variables. */
  lemma VariableNameInjective(a: string, b: string)
    requires PlainName(a) && PlainName(b) && VariableName(a) == VariableName(b)
    ensures a == b
  {
    var x, y := Upper(ReplaceChar(a, '-', '_')), Upper(ReplaceChar(b, '-', '_'));
    assert x == VariableName(a)[5..] == VariableName(b)[5..] == y;
    forall i | 0 <= i < |a| ensures a[i] == b[i] {
      assert a[i] in a && b[i] in b;
      assert x[i] == y[i];
    }
  }

  function Lower(s: string): (r: string)
    ensures |r| == |s|
  {
    seq(|s|, i requires 0 <= i < |s| => LowerChar(s[i]))
  }

  /** The variable of a plain name is `LBEX_` followed by text without lower-case letters and hyphens, from which the
      name can be read back. */
  lemma VariableNameReadsBack(name: string)
    requires PlainName(name)
    ensures HasPrefix(VariableName(name), "LBEX_")
    ensures var rest := VariableName(name)[5..];
            && ReplaceChar(Lower(rest), '_', '-') == name
            && forall c :: c in rest ==> !('a' <= c <= 'z') && c != '-'
  {
    var rest := Upper(ReplaceChar(name, '-', '_'));
    assert VariableName(name)[5..] == rest;
    forall i | 0 <= i < |name| ensures ReplaceChar(Lower(rest), '_', '-')[i] == name[i] {
      assert name[i] in name;
    }
  }

  /** The hypothesis is needed. */
  lemma VariableNameCollision()
    ensures VariableName("a-b") == VariableName("a_b")
  {
    assert ReplaceChar("a-b", '-', '_') == "a_b" == ReplaceChar("a_b", '-', '_');
  }

  // ----- the flags of this program -----

  const NAMES: seq<string> :=
    ["kubeconfig", "proxy", "service-name", "service-pool", "strict-affinity", "anti-affinity", "version",
     "health-check", "health-port", "require-port"]

  /** All of them but `version` can come from the environment. */
  const SUPPORTED: set<string> := set name | name in NAMES && name != "version"

  lemma VariableSpelled(name: string, variable: string)
    requires |variable| == |name| + 5 && variable[..5] == "LBEX_"
    requires forall i :: 0 <= i < |name| ==>
               variable[5 + i] == if name[i] == '-' then '_' else UpperChar(name[i])
    ensures VariableName(name) == variable
  {
    var rest := Upper(ReplaceChar(name, '-', '_'));
    assert forall i :: 0 <= i < |name| ==> rest[i] == variable[5..][i];
    assert rest == variable[5..];
  }

  /** The flag can come from this variable. */
  predicate ReadFrom(name: string, variable: string) { name in SUPPORTED && VariableName(name) == variable }

  lemma FlagReadFrom(k: nat, variable: string)
    requires k < |NAMES| && k != 6
    requires |variable| == |NAMES[k]| + 5 && variable[..5] == "LBEX_"
    requires forall i :: 0 <= i < |NAMES[k]| ==>
               variable[5 + i] == if NAMES[k][i] == '-' then '_' else UpperChar(NAMES[k][i])
    ensures ReadFrom(NAMES[k], variable)
  {
    VariableSpelled(NAMES[k], variable);
    OnlyVersion(k);
  }

  lemma OnlyVersion(k: nat)
    requires k < |NAMES|
    ensures NAMES[k] in SUPPORTED <==> k != 6
  {
    assert NAMES[6] == "version" && (k != 6 ==> |NAMES[k]| != 7);
  }

  lemma Variables0()
    ensures ReadFrom("kubeconfig", "LBEX_KUBECONFIG") && ReadFrom("proxy", "LBEX_PROXY")
  {
    FlagReadFrom(0, "LBEX_KUBECONFIG");
    FlagReadFrom(1, "LBEX_PROXY");
  }

  lemma Variables1()
    ensures ReadFrom("service-name", "LBEX_SERVICE_NAME") && ReadFrom("service-pool", "LBEX_SERVICE_POOL")
  {
    FlagReadFrom(2, "LBEX_SERVICE_NAME");
    FlagReadFrom(3, "LBEX_SERVICE_POOL");
  }

  lemma Variables2()
    ensures ReadFrom("strict-affinity", "LBEX_STRICT_AFFINITY") && ReadFrom("anti-affinity", "LBEX_ANTI_AFFINITY")
  {
    FlagReadFrom(4, "LBEX_STRICT_AFFINITY");
    FlagReadFrom(5, "LBEX_ANTI_AFFINITY");
  }

  lemma Variables3()
    ensures ReadFrom("health-check", "LBEX_HEALTH_CHECK") && ReadFrom("health-port", "LBEX_HEALTH_PORT")
    ensures ReadFrom("require-port", "LBEX_REQUIRE_PORT")
  {
    FlagReadFrom(7, "LBEX_HEALTH_CHECK");
    FlagReadFrom(8, "LBEX_HEALTH_PORT");
    FlagReadFrom(9, "LBEX_REQUIRE_PORT");
  }

  /** The variables of the program's flags; `version` has none. */
  lemma ProgramVariables()
    ensures ReadFrom("kubeconfig", "LBEX_KUBECONFIG") && ReadFrom("proxy", "LBEX_PROXY")
    ensures ReadFrom("service-name", "LBEX_SERVICE_NAME") && ReadFrom("service-pool", "LBEX_SERVICE_POOL")
    ensures ReadFrom("strict-affinity", "LBEX_STRICT_AFFINITY") && ReadFrom("anti-affinity", "LBEX_ANTI_AFFINITY")
    ensures ReadFrom("health-check", "LBEX_HEALTH_CHECK") && ReadFrom("health-port", "LBEX_HEALTH_PORT")
    ensures ReadFrom("require-port", "LBEX_REQUIRE_PORT") && "version" !in SUPPORTED
  {
    Variables0();
    Variables1();
    Variables2();
    Variables3();
    OnlyVersion(6);
  }

  lemma PlainNames1()
    ensures PlainName("kubeconfig") && PlainName("proxy") && PlainName("service-name") && PlainName("service-pool")
  {
  }

  lemma PlainNames2()
    ensures PlainName("strict-affinity") && PlainName("anti-affinity") && PlainName("version")
  {
  }

  lemma PlainNames3()
    ensures PlainName("health-check") && PlainName("health-port") && PlainName("require-port")
  {
  }

  lemma NamesArePlain(name: string)
    requires name in NAMES
    ensures PlainName(name)
  {
    PlainNames1();
    PlainNames2();
    PlainNames3();
  }

  // ----- which flags the environment decides -----

  function Getenv(env: map<string, string>, key: string): string { if key in env then env[key] else "" }

  /** The variables of the supported flags that were given on the command line. */
  function Blocked(supported: set<string>, given: set<string>): set<string> {
    set g | g in given && g in supported :: VariableName(g)
  }

  /** What the code does: a supported flag is taken from the environment unless its variable is blocked or empty. */
  predicate Taken(supported: set<string>, given: set<string>, env: map<string, string>, name: string) {
    name in supported && VariableName(name) !in Blocked(supported, given) && Getenv(env, VariableName(name)) != ""
  }

  /** What is promised: it is taken from the environment unless it was itself given, or the variable is empty. */
  predicate FromEnv(supported: set<string>, given: set<string>, env: map<string, string>, name: string) {
    name in supported && name !in given && VariableName(name) in env && env[VariableName(name)] != ""
  }

  /** Different names have different variables. */
  predicate Unambiguous(names: set<string>) {
    forall a, b :: a in names && b in names && VariableName(a) == VariableName(b) ==> a == b
  }

  /** The code decides every flag as promised, whatever was given and whatever the environment holds. */
  ghost predicate AsPromised(supported: set<string>, flags: set<string>) {
    forall given, env, name :: given <= flags && name in flags ==>
      (Taken(supported, given, env, name) <==> FromEnv(supported, given, env, name))
  }

  lemma PromiseKept(supported: set<string>, flags: set<string>, given: set<string>, env: map<string, string>,
                    name: string)
    requires Unambiguous(flags * supported) && given <= flags && name in flags
    ensures Taken(supported, given, env, name) <==> FromEnv(supported, given, env, name)
  {
    if name in supported && VariableName(name) in Blocked(supported, given) {
      var g :| g in given && g in supported && VariableName(g) == VariableName(name);
      assert g in flags * supported && name in flags * supported;
    }
  }

  /** Giving one of two flags with the same variable keeps the environment from the other. */
  lemma PromiseBroken(supported: set<string>, a: string, b: string, val: string)
    requires a in supported && b in supported && a != b && VariableName(a) == VariableName(b) && val != ""
    ensures var env := map[VariableName(a) := val];
            FromEnv(supported, {b}, env, a) && !Taken(supported, {b}, env, a)
  {
    assert b in {b} && VariableName(b) in Blocked(supported, {b});
  }

  /** Exactly when flags are decided as promised: no two supported flags of the set share a variable. The names of
      flags that are not supported do not matter. */
  lemma AsPromisedIff(supported: set<string>, flags: set<string>)
    ensures AsPromised(supported, flags) <==> Unambiguous(flags * supported)
  {
    if Unambiguous(flags * supported) {
      forall given, env, name | given <= flags && name in flags
        ensures Taken(supported, given, env, name) <==> FromEnv(supported, given, env, name)
      {
        PromiseKept(supported, flags, given, env, name);
      }
    }
    if AsPromised(supported, flags) {
      forall a, b | a in flags * supported && b in flags * supported && VariableName(a) == VariableName(b)
        ensures a == b
      {
        if a != b {
          assert {b} <= flags;
          PromiseBroken(supported, a, b, "x");
        }
      }
    }
  }

  lemma PlainUnambiguous(names: set<string>)
    requires forall name :: name in names ==> PlainName(name)
    ensures Unambiguous(names)
  {
    forall a, b | a in names && b in names && VariableName(a) == VariableName(b) ensures a == b {
      VariableNameInjective(a, b);
    }
  }

  /** The flags of this program are decided as promised, whatever flags other packages add to the set. */
  lemma ProgramAsPromised(flags: set<string>)
    ensures AsPromised(SUPPORTED, flags)
  {
    forall name | name in flags * SUPPORTED ensures PlainName(name) {
      NamesArePlain(name);
    }
    PlainUnambiguous(flags * SUPPORTED);
    AsPromisedIff(SUPPORTED, flags);
  }

  // ----- parsing the environment -----

  /** What assigning a text to a flag leaves in it, and whether the text was valid for it. */
  type Assign = (string, string) -> (string, bool)

  /** The value of a flag afterwards, for any rule by which the environment decides flags. */
  function Resolved(assign: Assign, taken: bool, env: map<string, string>, values: map<string, string>, name: string)
    : string
    requires name in values
  {
    if taken then assign(name, Getenv(env, VariableName(name))).0 else values[name]
  }

  predicate Valid(assign: Assign, supported: set<string>, given: set<string>, env: map<string, string>, name: string) {
    Taken(supported, given, env, name) ==> assign(name, Getenv(env, VariableName(name))).1
  }

  predicate AllValid(assign: Assign, supported: set<string>, given: set<string>, env: map<string, string>,
                     names: seq<string>) {
    forall name :: name in names ==> Valid(assign, supported, given, env, name)
  }

  lemma AllValidStep(assign: Assign, supported: set<string>, given: set<string>, env: map<string, string>,
                     names: seq<string>, name: string)
    ensures AllValid(assign, supported, given, env, names + [name]) <==>
            AllValid(assign, supported, given, env, names) && Valid(assign, supported, given, env, name)
  {
    assert name in names + [name];
  }

  /** The values part of the way through a visit. */
  predicate Halfway(assign: Assign, supported: set<string>, given: set<string>, env: map<string, string>,
                    start: map<string, string>, done: seq<string>, values: map<string, string>) {
    && values.Keys == start.Keys
    && forall name :: name in values ==>
         values[name] == Resolved(assign, name in done && Taken(supported, given, env, name), env, start, name)
  }

  lemma HalfwayStep(assign: Assign, supported: set<string>, given: set<string>, env: map<string, string>,
                    start: map<string, string>, done: seq<string>,
                    values: map<string, string>, name: string, after: map<string, string>)
    requires Halfway(assign, supported, given, env, start, done, values) && name in start
    requires after == if Taken(supported, given, env, name)
                      then values[name := assign(name, Getenv(env, VariableName(name))).0] else values
    ensures Halfway(assign, supported, given, env, start, done + [name], after)
  {
  }

  /** One more flag visited. */
  lemma VisitStep(assign: Assign, supported: set<string>, given: set<string>, env: map<string, string>,
                  start: map<string, string>, order: seq<string>, i: nat, values: map<string, string>,
                  after: map<string, string>)
    requires i < |order| && order[i] in start
    requires Halfway(assign, supported, given, env, start, order[..i], values)
    requires after == if Taken(supported, given, env, order[i])
                      then values[order[i] := assign(order[i], Getenv(env, VariableName(order[i]))).0] else values
    ensures Halfway(assign, supported, given, env, start, order[..i + 1], after)
    ensures AllValid(assign, supported, given, env, order[..i + 1]) <==>
            AllValid(assign, supported, given, env, order[..i]) && Valid(assign, supported, given, env, order[i])
  {
    assert order[..i + 1] == order[..i] + [order[i]];
    HalfwayStep(assign, supported, given, env, start, order[..i], values, order[i], after);
    AllValidStep(assign, supported, given, env, order[..i], order[i]);
  }

  /** Every flag has the value the code's rule gives it. */
  predicate Outcome(assign: Assign, supported: set<string>, given: set<string>, env: map<string, string>,
                    start: map<string, string>, values: map<string, string>) {
    && values.Keys == start.Keys
    && forall name :: name in values ==>
         values[name] == Resolved(assign, Taken(supported, given, env, name), env, start, name)
  }

  /** Every flag has the value it was promised: that of the command line if it was given, else a non-empty one from
      its variable if it is supported, else its default. */
  predicate PromisedOutcome(assign: Assign, supported: set<string>, given: set<string>, env: map<string, string>,
                            start: map<string, string>, values: map<string, string>) {
    && values.Keys == start.Keys
    && forall name :: name in values ==>
         values[name] == if FromEnv(supported, given, env, name) then assign(name, env[VariableName(name)]).0
                         else start[name]
  }

  lemma AllVisited(assign: Assign, supported: set<string>, given: set<string>, env: map<string, string>,
                   start: map<string, string>, order: seq<string>, values: map<string, string>)
    requires Halfway(assign, supported, given, env, start, order, values)
    requires (forall name :: name in start <==> name in order) && given <= start.Keys
    ensures Outcome(assign, supported, given, env, start, values)
    ensures Unambiguous(start.Keys * supported) ==> PromisedOutcome(assign, supported, given, env, start, values)
  {
    if Unambiguous(start.Keys * supported) {
      forall name | name in values
        ensures Taken(supported, given, env, name) <==> FromEnv(supported, given, env, name)
      {
        PromiseKept(supported, start.Keys, given, env, name);
      }
    }
  }

  /** Two supported flags with one variable: when the second is given and the variable would change the first, the
      first does not have the value it was promised. */
  lemma SharedVariableBreaks(assign: Assign, supported: set<string>, start: map<string, string>, a: string, b: string,
                             val: string, values: map<string, string>)
    requires a in supported && b in supported && a != b && VariableName(a) == VariableName(b) && a in start
    requires val != "" && assign(a, val).0 != start[a]
    requires Outcome(assign, supported, {b}, map[VariableName(a) := val], start, values)
    ensures !PromisedOutcome(assign, supported, {b}, map[VariableName(a) := val], start, values)
  {
    PromiseBroken(supported, a, b, val);
  }

  class FlagSet {
    var values: map<string, string>
    var given: set<string>
    const supported: set<string>
    const assign: Assign

    constructor (values: map<string, string>, given: set<string>, supported: set<string>, assign: Assign)
      ensures this.values == values && this.given == given && this.supported == supported && this.assign == assign
    {
      this.values, this.given, this.supported, this.assign := values, given, supported, assign;
    }

    /** `alreadySet`: the variables of the flags given on the command line. */
    method AlreadySet(order: seq<string>) returns (keys: set<string>)
      requires forall name :: name in given ==> name in order
      ensures keys == Blocked(supported, given)
    {
      keys := {};
      for i := 0 to |order|
        invariant keys == set name | name in order[..i] && name in given && name in supported :: VariableName(name)
      {
        assert order[..i + 1] == order[..i] + [order[i]];
        if order[i] in given && order[i] in supported {
          keys := keys + {VariableName(order[i])};
        }
      }
      assert order[..|order|] == order;
      assert forall name :: name in given && name in supported <==> name in order && name in given && name in supported;
    }

    /** What is done with one visited flag. */
    method Visit(env: map<string, string>, alreadySet: set<string>, name: string) returns (valid: bool)
      requires name in values && alreadySet == Blocked(supported, given)
      modifies this`values
      ensures values == if Taken(supported, given, env, name)
                        then old(values)[name := assign(name, Getenv(env, VariableName(name))).0] else old(values)
      ensures valid == Valid(assign, supported, given, env, name)
    {
      valid := true;
      if name in supported {
        var key := VariableName(name);
        if key !in alreadySet {
          var val := Getenv(env, key);
          if val != "" {
            var (stored, ok) := assign(name, val);
            values := values[name := stored];
            valid := ok;
          }
        }
      }
    }

    /** For every order in which the flags are visited, the values are those of the code's rule; if no two supported
        flags share a variable, they are those promised. The result says whether every value taken was valid. */
    method EnvParse(env: map<string, string>, order: seq<string>) returns (ok: bool)
      requires (forall name :: name in values <==> name in order) && given <= values.Keys
      modifies this`values
      ensures Outcome(assign, supported, given, env, old(values), values)
      ensures Unambiguous(values.Keys * supported) ==>
                PromisedOutcome(assign, supported, given, env, old(values), values)
      ensures ok <==> AllValid(assign, supported, given, env, order)
    {
      ok := true;
      var alreadySet := AlreadySet(order);
      for i := 0 to |order|
        invariant Halfway(assign, supported, given, env, old(values), order[..i], values)
        invariant ok <==> AllValid(assign, supported, given, env, order[..i])
      {
        ghost var before := values;
        var valid := Visit(env, alreadySet, order[i]);
        VisitStep(assign, supported, given, env, old(values), order, i, before, values);
        ok := ok && valid;
      }
      assert order[..|order|] == order;
      AllVisited(assign, supported, given, env, old(values), order, values);
    }
  }
}
