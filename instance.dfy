/**
 * Ntswf::Instance: an object that extends itself with the modules its
 * symbol arguments select (all default modules when none is given) and is
 * then configured with its last other argument. Which modules an instance
 * has is recorded by name; what they contribute is modelled by the other
 * modules of this project.
 */
module Instances {
  import opened RubyValues
  import opened Base
  import opened Ntswf

  // ---------------------------------------------------------------------
  // Arguments

  /** `args.grep Symbol`, by name. */
  function Selectors(args: seq<Value>): (r: seq<string>)
    ensures |r| <= |args|
    ensures forall n :: n in r <==> Sym(n) in args
  {
    if args == [] then []
    else
      var rest := Selectors(args[1..]);
      assert forall v :: v in args <==> v == args[0] || v in args[1..];
      if args[0].Sym? then [args[0].name] + rest else rest
  }

  /** `args - symbols`: the arguments that are not symbols. */
  function Configs(args: seq<Value>): (r: seq<Value>)
    ensures |r| <= |args|
    ensures forall v :: v in r <==> v in args && !v.Sym?
  {
    if args == [] then []
    else
      var rest := Configs(args[1..]);
      assert forall v :: v in args <==> v == args[0] || v in args[1..];
      if args[0].Sym? then rest else [args[0]] + rest
  }

  /** `(^|_)(.)` replaced by the upper-case second group, scanning from a
      position where `^` matches (`lineStart`) or not. `.` matches any
      character but a line break, and `^` also matches after a line break;
      `^` is tried before `_`. */
  function CamelFrom(s: string, lineStart: bool): (r: string)
    ensures |r| <= |s|
    ensures |s| > 0 ==> |r| > 0
  {
    if s == [] then ""
    else if lineStart && s[0] != '\n' then [Upcase(s[0])] + CamelFrom(s[1..], false)
    else if s[0] == '_' && |s| > 1 && s[1] != '\n' then [Upcase(s[1])] + CamelFrom(s[2..], false)
    else [s[0]] + CamelFrom(s[1..], s[0] == '\n')
  }

  /** `s.gsub(/(^|_)(.)/) { $2.upcase }`: snake_case to CamelCase. */
  function Camelize(s: string): (r: string)
    ensures |r| <= |s| && (|s| > 0 ==> |r| > 0)
    ensures |s| > 0 && s[0] != '\n' ==> r[0] == Upcase(s[0])
  {
    CamelFrom(s, true)
  }

  /** The names of the modules an instance is extended with: the
      camelised selectors, or the default modules when there are none. */
  function ModuleNames(args: seq<Value>): (r: seq<string>)
    ensures Selectors(args) == [] ==> r == DefaultModules
    ensures Selectors(args) != [] ==>
      |r| == |Selectors(args)| && forall i :: 0 <= i < |r| ==> r[i] == Camelize(Selectors(args)[i])
  {
    var selected := Selectors(args);
    if selected == [] then DefaultModules else seq(|selected|, i requires 0 <= i < |selected| => Camelize(selected[i]))
  }

  /** `configs.last || {}`. */
  function ConfigArgument(args: seq<Value>): (r: Value)
    ensures var configs := Configs(args);
      |configs| > 0 && Truthy(configs[|configs| - 1]) ==> r == configs[|configs| - 1]
    ensures var configs := Configs(args);
      !(|configs| > 0 && Truthy(configs[|configs| - 1])) ==> r == Hash([])
  {
    var configs := Configs(args);
    if |configs| > 0 && Truthy(configs[|configs| - 1]) then configs[|configs| - 1] else Hash([])
  }

  // ---------------------------------------------------------------------
  // Instances

  /** The modules an object has after extending `modules` with each of
      `names` in turn: a module it already has is not added again. */
  function Extending(modules: seq<string>, names: seq<string>): (r: seq<string>)
    ensures |r| >= |modules| && r[..|modules|] == modules
    ensures forall n :: n in r <==> n in modules || n in names
    ensures (forall i, j :: 0 <= i < j < |modules| ==> modules[i] != modules[j]) ==>
      forall i, j :: 0 <= i < j < |r| ==> r[i] != r[j]
    decreases |names|
  {
    if names == [] then modules
    else
      var front := names[..|names| - 1];
      var last := names[|names| - 1];
      assert forall n :: n in names <==> n in front || n == last;
      var m := Extending(modules, front);
      if last in m then m else m + [last]
  }

  class Instance {
    /** The modules the object was extended with, each once. */
    var modules: seq<string>
    var config: Config

    constructor()
      ensures modules == [] && config == EmptyConfig
    {
      modules := [];
      config := EmptyConfig;
    }

    /** Object#is_a? for a module. */
    predicate IsA(name: string)
      reads this
    {
      name in modules
    }

    /** Object#extend. */
    method Extend(name: string)
      modifies this
      ensures modules == if name in old(modules) then old(modules) else old(modules) + [name]
      ensures IsA(name) && forall n :: old(IsA(n)) ==> IsA(n)
      ensures config == old(config)
    {
      if name !in modules {
        modules := modules + [name];
      }
    }

    /** Instance#initialize: extends the object with the selected modules,
        then configures it with the configuration argument (the
        configuration is stored before the task lists are checked). */
    method Initialize(args: seq<Value>) returns (raised: Option<Exception>)
      modifies this
      ensures modules == Extending(old(modules), ModuleNames(args))
      ensures forall n :: IsA(n) <==> old(IsA(n)) || n in ModuleNames(args)
      ensures raised.None? <==> Configure(ConfigArgument(args)).Ok?
      ensures raised.Some? ==> raised.value == Configure(ConfigArgument(args)).error
      ensures raised.None? ==> config == Configure(ConfigArgument(args)).value
    {
      var names := ModuleNames(args);
      for i := 0 to |names|
        invariant modules == Extending(old(modules), names[..i])
      {
        assert names[..i + 1][..i] == names[..i];
        Extend(names[i]);
      }
      assert names[..|names|] == names;
      var structure := ConfigOf(ConfigArgument(args));
      if structure.Err? {
        return Some(structure.error);
      }
      config := structure.value;
      raised := ValidationError(config);
    }
  }

  /** Ntswf.create and Instance.new: a new instance, or the exception its
      initialisation raised. */
  method Create(args: seq<Value>) returns (r: Result<Instance>)
    ensures r.Ok? <==> Configure(ConfigArgument(args)).Ok?
    ensures r.Err? ==> r.error == Configure(ConfigArgument(args)).error
    ensures r.Ok? ==> (fresh(r.value) && r.value.modules == Extending([], ModuleNames(args)) &&
      r.value.config == Configure(ConfigArgument(args)).value)
  {
    var instance := new Instance();
    var raised := instance.Initialize(args);
    if raised.Some? {
      return Err(raised.value);
    }
    return Ok(instance);
  }

  // ---------------------------------------------------------------------
  // Properties

  /** The partition keeps the order of the arguments: it distributes over
      concatenation. */
  lemma {:induction false} PartitionAppend(a: seq<Value>, b: seq<Value>)
    ensures Selectors(a + b) == Selectors(a) + Selectors(b)
    ensures Configs(a + b) == Configs(a) + Configs(b)
  {
    if a == [] {
      assert a + b == b;
    } else {
      assert (a + b)[0] == a[0];
      DropAppend(a, b, 1);
      PartitionAppend(a[1..], b);
      if a[0].Sym? {
        Associates([a[0].name], Selectors(a[1..]), Selectors(b));
      } else {
        Associates([a[0]], Configs(a[1..]), Configs(b));
      }
    }
  }

  /** Every argument is either a selector or a configuration. */
  lemma {:induction false} PartitionSizes(args: seq<Value>)
    ensures |Selectors(args)| + |Configs(args)| == |args|
  {
    if args != [] {
      PartitionSizes(args[1..]);
    }
  }

  /** An instance is exactly the selected modules (or the default ones). */
  lemma ExtendedWith(args: seq<Value>, name: string)
    ensures name in Extending([], ModuleNames(args)) <==>
      if Selectors(args) == [] then name in DefaultModules
      else exists s :: s in Selectors(args) && Camelize(s) == name
  {
    var selected := Selectors(args);
    if selected != [] {
      var names := ModuleNames(args);
      if name in names {
        var i :| 0 <= i < |names| && names[i] == name;
        assert selected[i] in selected;
      }
      if exists s :: s in selected && Camelize(s) == name {
        var s :| s in selected && Camelize(s) == name;
        var i :| 0 <= i < |selected| && selected[i] == s;
        assert names[i] == name;
      }
    }
  }

  /** An underscore before a snake-case text that starts with a lowered
      capital: the capital comes back. */
  lemma CamelUnderscore(snake: string, capital: char)
    requires |snake| > 0 && IsUpper(capital) && snake[0] == Downcase(capital)
    ensures CamelFrom("_" + snake, false) == [capital] + CamelFrom(snake[1..], false)
  {
    var s := "_" + snake;
    assert s[0] == '_' && s[1] == Downcase(capital) && s[2..] == snake[1..];
    UpcaseDowncase(capital);
  }

  /** The snake-case form of a name starting with a lower-case letter or
      a digit keeps that character. */
  lemma CamelKeeps(rest: string)
    requires |rest| > 0 && (IsLower(rest[0]) || IsDigit(rest[0]))
    ensures CamelFrom(Snake(rest), false) == [rest[0]] + CamelFrom(Snake(rest)[1..], false)
  {
    assert Snake(rest)[0] == rest[0];
  }

  /** One step of CamelSnakeTail: from the name without its first
      character to the whole name. */
  lemma CamelSnakeStep(name: string)
    requires |name| > 1
    requires name[0] != '\n' && (IsUpper(name[1]) || IsLower(name[1]) || IsDigit(name[1]))
    requires CamelFrom(Snake(name[1..])[1..], false) == name[2..]
    ensures CamelFrom(Snake(name)[1..], false) == name[1..]
  {
    var rest := name[1..];
    SnakeAfterFirst(name);
    if IsUpper(rest[0]) {
      CamelUnderscore(Snake(rest), rest[0]);
    } else {
      CamelKeeps(rest);
    }
    assert rest == [rest[0]] + name[2..];
  }

  /** `snake` of a CamelCase name scanned from its second character;
      CamelFrom turns it back. */
  lemma {:induction false} CamelSnakeTail(name: string)
    requires |name| > 0
    requires forall i :: 0 <= i < |name| ==> IsUpper(name[i]) || IsLower(name[i]) || IsDigit(name[i])
    ensures CamelFrom(Snake(name)[1..], false) == name[1..]
    decreases |name|
  {
    if |name| == 1 {
      assert Snake(name) == [Downcase(name[0])];
    } else {
      var rest := name[1..];
      assert forall i :: 0 <= i < |rest| ==> rest[i] == name[i + 1];
      CamelSnakeTail(rest);
      assert rest[1..] == name[2..];
      CamelSnakeStep(name);
    }
  }

  /** Camelizing the snake-case form of a CamelCase name (an upper-case
      letter, then letters and digits) gives the name back, so a module can
      be selected by the name of the file it is loaded from. */
  lemma CamelSnake(name: string)
    requires |name| > 0 && IsUpper(name[0])
    requires forall i :: 0 <= i < |name| ==> IsUpper(name[i]) || IsLower(name[i]) || IsDigit(name[i])
    ensures Camelize(Snake(name)) == name
  {
    CamelSnakeTail(name);
    UpcaseDowncase(name[0]);
    assert CamelFrom(Snake(name), true) == [name[0]] + CamelFrom(Snake(name)[1..], false);
    assert name == [name[0]] + name[1..];
  }

  /** Every default module is selected by its snake-case name. */
  lemma DefaultModulesSelectable(name: string)
    requires name in DefaultModules
    ensures ModuleNames([Sym(Snake(name))]) == [name]
  {
    CamelSnake(name);
    assert Selectors([Sym(Snake(name))]) == [Snake(name)];
  }

  /** The symbols naming `names`. */
  function Symbols(names: seq<string>): seq<Value> {
    seq(|names|, i requires 0 <= i < |names| => Sym(names[i]))
  }

  /** Symbols are all selectors, in their order. */
  lemma {:induction false} SymbolsSelect(names: seq<string>)
    ensures Selectors(Symbols(names)) == names && Configs(Symbols(names)) == []
  {
    if names != [] {
      assert Symbols(names)[1..] == Symbols(names[1..]);
      SymbolsSelect(names[1..]);
      assert names == [names[0]] + names[1..];
    }
  }

  /** Camelizing a concatenation part by part: no match spans the split
      when the first part ends in neither an underscore nor a line break. */
  lemma {:induction false} CamelAppend(a: string, b: string, lineStart: bool)
    requires |a| > 0 && a[|a| - 1] != '_' && a[|a| - 1] != '\n'
    ensures CamelFrom(a + b, lineStart) == CamelFrom(a, lineStart) + CamelFrom(b, false)
    decreases |a|, 1
  {
    var s := a + b;
    assert s[0] == a[0];
    if lineStart && a[0] != '\n' {
      DropAppend(a, b, 1);
      CamelAppendAfter(Upcase(a[0]), a[1..], b, false);
    } else if a[0] == '_' && a[1] != '\n' {
      assert s[1] == a[1];
      DropAppend(a, b, 2);
      CamelAppendAfter(Upcase(a[1]), a[2..], b, false);
    } else {
      DropAppend(a, b, 1);
      if |a| > 1 {
        assert s[1] == a[1];
      }
      CamelAppendAfter(a[0], a[1..], b, a[0] == '\n');
    }
  }

  /** CamelAppend after the first match: what the scan emits first, then
      the rest of the first part and the second part camelized on their
      own. */
  lemma {:induction false} CamelAppendAfter(head: char, rest: string, b: string, next: bool)
    requires rest == [] ==> !next
    requires rest != [] ==> rest[|rest| - 1] != '_' && rest[|rest| - 1] != '\n'
    ensures [head] + CamelFrom(rest + b, next) == [head] + CamelFrom(rest, next) + CamelFrom(b, false)
    decreases |rest|, 2
  {
    if rest != [] {
      CamelAppend(rest, b, next);
    } else {
      assert rest + b == b;
    }
    Associates([head], CamelFrom(rest, next), CamelFrom(b, false));
  }

  /** `:client` selects the client only. */
  lemma ClientSelection(client: seq<Value>)
    requires client == [Sym("client")]
    ensures ModuleNames(client) == ["Client"]
  {
    SymbolsSelect(["client"]);
    assert Symbols(["client"]) == client;
    assert Camelize("client") == "Client";
  }

  /** Away from the start of a line, text without underscores or line
      breaks is left as it is. */
  lemma {:induction false} CamelPlain(s: string)
    requires forall i :: 0 <= i < |s| ==> s[i] != '_' && s[i] != '\n'
    ensures CamelFrom(s, false) == s
  {
    if s != [] {
      CamelPlain(s[1..]);
      assert s == [s[0]] + s[1..];
    }
  }

  /** A lower-case word followed by an underscore and a second word
      becomes both words capitalised. */
  lemma CamelTwoWords(first: string, second: string)
    requires |first| > 0 && |second| > 0
    requires forall i :: 0 <= i < |first| ==> IsLower(first[i])
    requires forall i :: 0 <= i < |second| ==> IsLower(second[i])
    ensures Camelize(first + "_" + second) == [Upcase(first[0])] + first[1..] + [Upcase(second[0])] + second[1..]
  {
    var u := "_" + second;
    assert first + "_" + second == first + u;
    CamelAppend(first, u, true);
    CamelPlain(first[1..]);
    assert CamelFrom(first, true) == [Upcase(first[0])] + first[1..];
    assert u[1] == second[0] && u[2..] == second[1..];
    CamelPlain(second[1..]);
    assert CamelFrom(u, false) == [Upcase(second[0])] + second[1..];
  }

  /** "activity_worker" becomes "ActivityWorker". */
  lemma ActivityWorkerCamelized(activity: string, worker: string)
    requires activity == "activity" && worker == "worker"
    ensures Camelize(activity + "_" + worker) == "ActivityWorker"
  {
    CamelTwoWords(activity, worker);
  }

  /** "decision_worker" becomes "DecisionWorker". */
  lemma DecisionWorkerCamelized(decision: string, worker: string)
    requires decision == "decision" && worker == "worker"
    ensures Camelize(decision + "_" + worker) == "DecisionWorker"
  {
    CamelTwoWords(decision, worker);
  }

  /** `:activity_worker, :decision_worker` selects both workers and not the
      client. */
  lemma WorkerSelection(activity: string, decision: string, worker: string)
    requires activity == "activity" && decision == "decision" && worker == "worker"
    ensures ModuleNames(Symbols([activity + "_" + worker, decision + "_" + worker])) == ["ActivityWorker", "DecisionWorker"]
  {
    SymbolsSelect([activity + "_" + worker, decision + "_" + worker]);
    ActivityWorkerCamelized(activity, worker);
    DecisionWorkerCamelized(decision, worker);
  }

  /** Without a selector (a configuration alone, or nothing) an instance
      has all default modules. */
  lemma {:induction false} NoSelectorSelectsDefaults(configs: seq<Value>)
    requires forall i :: 0 <= i < |configs| ==> !configs[i].Sym?
    ensures Selectors(configs) == [] && ModuleNames(configs) == DefaultModules
  {
    if configs != [] {
      NoSelectorSelectsDefaults(configs[1..]);
    }
  }

  /** The configuration passed after the selectors is the one used. */
  lemma LastConfigurationUsed(selectors: seq<string>, config: Value)
    requires Truthy(config) && !config.Sym?
    ensures ConfigArgument(Symbols(selectors) + [config]) == config
  {
    SymbolsSelect(selectors);
    PartitionAppend(Symbols(selectors), [config]);
    assert Configs([config]) == [config];
  }
}
