/**
 * What every role of the library shares (Ntswf::Base): the configuration as
 * OpenStruct exposes it, the names derived from the configured unit, the
 * decoding of a task's input options, and the check of configured task list
 * names that runs at construction.
 */
module Base {
  import opened RubyValues
  import opened Json

  /** The configuration entries the core reads; each is whatever the
      configuration hash bound to that name (nil when absent). */
  datatype Config = Config(
    activityTaskLists: Value,
    decisionTaskList: Value,
    decisionTaskLists: Value,
    unit: Value,
    executionIdPrefix: Value)

  const EmptyConfig := Config(Nil, Nil, Nil, Nil, Nil)

  /** A record handed to `notify`: an exception or a message, and the
      context parameters passed with it (the inspected workflow execution
      for the decision worker; the inspected activity type and the task's
      input for the activity worker). */
  datatype Notice = ExceptionNotice(exception: Exception) | MessageNotice(message: string)
  datatype Context = ExecutionContext(workflowExecution: string) | ActivityContext(activityType: string, input: Option<Text>)
  datatype Notification = Notification(notice: Notice, context: Context)

  /** Whether a hash key names the OpenStruct field `name` (String#to_sym
      and Symbol#to_sym agree). */
  predicate Names(key: Value, name: string) {
    key == Sym(name) || key == Str(name)
  }

  /** The OpenStruct field `name`: the last binding made for it. */
  function Field(entries: seq<(Value, Value)>, name: string): (r: Value)
    ensures (forall i :: 0 <= i < |entries| ==> !Names(entries[i].0, name)) ==> r == Nil
    ensures (exists i :: 0 <= i < |entries| && Names(entries[i].0, name)) ==>
      exists i :: 0 <= i < |entries| && Names(entries[i].0, name) && entries[i].1 == r &&
        forall j :: i < j < |entries| ==> !Names(entries[j].0, name)
    decreases |entries|
  {
    if entries == [] then Nil
    else
      var front := entries[..|entries| - 1];
      var last := entries[|entries| - 1];
      if Names(last.0, name) then last.1
      else
        assert forall i :: 0 <= i < |front| ==> front[i] == entries[i];
        Field(front, name)
  }

  /** The index of the first key that has no to_sym, if any. */
  function FirstBadKey(entries: seq<(Value, Value)>): (r: Option<nat>)
    ensures r.None? <==> forall i :: 0 <= i < |entries| ==> entries[i].0.Str? || entries[i].0.Sym?
    ensures r.Some? ==> r.value < |entries| && !(entries[r.value].0.Str? || entries[r.value].0.Sym?)
    decreases |entries|
  {
    if entries == [] then None
    else if !(entries[0].0.Str? || entries[0].0.Sym?) then Some(0)
    else
      match FirstBadKey(entries[1..])
      case None =>
        assert forall i :: 1 <= i < |entries| ==> entries[i] == entries[1..][i - 1];
        None
      case Some(j) => Some(j + 1)
  }

  /** OpenStruct.new(config): nil or false gives an empty structure, a hash
      binds each key's symbol, anything else has no each_pair. */
  function ConfigOf(config: Value): (r: Result<Config>)
    ensures !Truthy(config) ==> r == Ok(EmptyConfig)
    ensures Truthy(config) && !config.Hash? ==> r.Err? && r.error.className == "NoMethodError"
    ensures config.Hash? ==> (r.Ok? <==> forall i :: 0 <= i < |config.entries| ==>
                                config.entries[i].0.Str? || config.entries[i].0.Sym?)
    ensures config.Hash? && r.Ok? ==>
      r.value.unit == Field(config.entries, "unit") &&
      r.value.activityTaskLists == Field(config.entries, "activity_task_lists") &&
      r.value.decisionTaskList == Field(config.entries, "decision_task_list") &&
      r.value.decisionTaskLists == Field(config.entries, "decision_task_lists") &&
      r.value.executionIdPrefix == Field(config.entries, "execution_id_prefix")
  {
    if !Truthy(config) then Ok(EmptyConfig)
    else if !config.Hash? then Err(NoMethodError("each_pair", config))
    else
      match FirstBadKey(config.entries)
      case Some(i) => Err(NoMethodError("to_sym", config.entries[i].0))
      case None =>
        var es := config.entries;
        Ok(Config(Field(es, "activity_task_lists"), Field(es, "decision_task_list"),
                  Field(es, "decision_task_lists"), Field(es, "unit"), Field(es, "execution_id_prefix")))
  }

  // ---------------------------------------------------------------------
  // Names

  /** The separator of composite workflow ids. */
  const Separator := ";"

  const WorkflowVersion := "v1"

  /** Base#default_unit: the configured unit as a string. */
  function DefaultUnit(cfg: Config): (r: string)
    ensures cfg.unit.Str? ==> r == cfg.unit.s
    ensures cfg.unit.Sym? ==> r == cfg.unit.name
    ensures cfg.unit.Nil? ==> r == ""
  {
    ToS(cfg.unit)
  }

  function WorkflowName(cfg: Config): (r: string)
    ensures |r| == |DefaultUnit(cfg)| + 9
    ensures r[..|DefaultUnit(cfg)|] == DefaultUnit(cfg) && r[|DefaultUnit(cfg)|..] == "-workflow"
  {
    DefaultUnit(cfg) + "-workflow"
  }

  function ActivityName(cfg: Config): (r: string)
    ensures |r| == |DefaultUnit(cfg)| + 9
    ensures r[..|DefaultUnit(cfg)|] == DefaultUnit(cfg) && r[|DefaultUnit(cfg)|..] == "-activity"
  {
    DefaultUnit(cfg) + "-activity"
  }

  /** Base#decision_task_list. */
  function DecisionTaskList(cfg: Config): (r: Result<Value>)
    ensures r.Ok? <==> Truthy(cfg.decisionTaskList)
    ensures r.Ok? ==> r.value == cfg.decisionTaskList
    ensures r.Err? ==> r.error == RuntimeError("Missing decision task list configuration")
  {
    if Truthy(cfg.decisionTaskList) then Ok(cfg.decisionTaskList)
    else Err(RuntimeError("Missing decision task list configuration"))
  }

  /** `activity_task_lists[key]`; only a hash answers `[]` here (nil and
      false have no such method, and the construction-time check refuses
      every other kind of value). */
  function LookUpActivityTaskList(cfg: Config, key: Value): (r: Result<Value>)
    ensures cfg.activityTaskLists.Hash? ==> r == Ok(Fetch(cfg.activityTaskLists.entries, key))
    ensures !cfg.activityTaskLists.Hash? ==> r.Err?
  {
    if cfg.activityTaskLists.Hash? then Ok(Fetch(cfg.activityTaskLists.entries, key))
    else Err(NoMethodError("[]", cfg.activityTaskLists))
  }

  /** Base#activity_task_list: the default unit's list. */
  function ActivityTaskList(cfg: Config): (r: Result<Value>)
    ensures r.Ok? <==> cfg.activityTaskLists.Hash? && Truthy(Fetch(cfg.activityTaskLists.entries, Str(DefaultUnit(cfg))))
    ensures r.Ok? ==> r.value == Fetch(cfg.activityTaskLists.entries, Str(DefaultUnit(cfg)))
    ensures cfg.activityTaskLists.Hash? && r.Err? ==> r.error == RuntimeError("Missing activity task list configuration")
  {
    var list :- LookUpActivityTaskList(cfg, Str(DefaultUnit(cfg)));
    if Truthy(list) then Ok(list) else Err(RuntimeError("Missing activity task list configuration"))
  }

  // ---------------------------------------------------------------------
  // Input options

  /** Base#parse_input: the options hash stored in a task's input. A legacy
      input `[name, params]` (or any non-object) is brought into the hash
      form; a truthy second element becomes "params". */
  function ParseInput(input: Option<Text>): (r: Result<JsonValue>)
    ensures r.Ok? <==> Parse(input).Ok?
    ensures r.Err? ==> r == Parse(input)
    ensures r.Ok? ==> r.value.Hash?
    ensures var p := Parse(input);
      p.Ok? && p.value.Hash? ==> r.value == p.value
    ensures var p := Parse(input);
      p.Ok? && !p.value.Hash? && !p.value.List? ==> r.value == Hash([(Str("name"), p.value)])
    ensures var p := Parse(input);
      p.Ok? && p.value.List? && |p.value.items| >= 1 && !p.value.items[0].Hash? ==>
        Get(r.value.entries, Str("name")) == Some(p.value.items[0])
    ensures var p := Parse(input);
      p.Ok? && p.value.List? && |p.value.items| >= 2 && Truthy(p.value.items[1]) ==>
        Get(r.value.entries, Str("params")) == Some(p.value.items[1])
    ensures var p := Parse(input);
      p.Ok? && p.value.List? && |p.value.items| >= 1 && p.value.items[0].Hash? ==>
        forall k :: k != Str("params") ==> Get(r.value.entries, k) == Get(p.value.items[0].entries, k)
    ensures var p := Parse(input);
      p.Ok? && p.value.List? && !(|p.value.items| >= 2 && Truthy(p.value.items[1])) ==>
        r.value == (if |p.value.items| >= 1 && p.value.items[0].Hash? then p.value.items[0]
                    else Hash([(Str("name"), if |p.value.items| >= 1 then p.value.items[0] else Nil)]))
  {
    var parsed :- Parse(input);
    var options := if parsed.List? then (if |parsed.items| >= 1 then parsed.items[0] else Nil) else parsed;
    var legacy := if parsed.List? && |parsed.items| >= 2 then parsed.items[1] else Nil;
    assert IsJson(options) by {
      if parsed.List? && |parsed.items| >= 1 {
        assert IsJson(parsed.items[0]);
      }
    }
    assert IsJson(legacy) by {
      if parsed.List? && |parsed.items| >= 2 {
        assert IsJson(parsed.items[1]);
      }
    }
    var asHash := if options.Hash? then options.entries else [(Str("name"), options)];
    assert JsonPairs(asHash);
    var merged := if Truthy(legacy) then Put(asHash, Str("params"), legacy) else asHash;
    assert JsonPairs(merged);
    Ok(Hash(merged))
  }

  /** `options[key]` on parsed input options (nil for a missing key). */
  function OptionValue(options: Value, key: string): Value {
    if options.Hash? then Fetch(options.entries, Str(key)) else Nil
  }

  // ---------------------------------------------------------------------
  // Task list names

  function ReservedError(list: Value): Exception {
    RuntimeError("Invalid config '" + ToS(list) + "': Separator '" + Separator + "' is reserved for internal use.")
  }

  function DotsError(list: Value): Exception {
    RuntimeError("Invalid config '" + ToS(list) + "': Dots and spaces not allowed.")
  }

  /** `[*atl_values, *decision_task_list]`: the values of the activity task
      list hash (when it is set), then the decision task list(s). */
  function TaskListsToCheck(cfg: Config): (r: Result<seq<Value>>)
    ensures cfg.activityTaskLists.Hash? ==> (
      r.Ok? &&
      |r.value| == |cfg.activityTaskLists.entries| + |ArrayOf(cfg.decisionTaskList)| &&
      (forall i :: 0 <= i < |cfg.activityTaskLists.entries| ==> r.value[i] == cfg.activityTaskLists.entries[i].1) &&
      r.value[|cfg.activityTaskLists.entries|..] == ArrayOf(cfg.decisionTaskList))
    ensures !Truthy(cfg.activityTaskLists) ==> r == Ok(ArrayOf(cfg.decisionTaskList))
    ensures Truthy(cfg.activityTaskLists) && !cfg.activityTaskLists.Hash? ==> r.Err?
  {
    var atl := cfg.activityTaskLists;
    if !Truthy(atl) then Ok(ArrayOf(cfg.decisionTaskList))
    else if !atl.Hash? then Err(NoMethodError("values", atl))
    else
      var values := seq(|atl.entries|, i requires 0 <= i < |atl.entries| => atl.entries[i].1);
      Ok(values + ArrayOf(cfg.decisionTaskList))
  }

  /** The error one configured task list raises, if any: `include?(";")`
      and then `count(". ")`, which on a string counts the characters '.'
      and ' ', on an array the elements equal to ". ", and on a hash is 0. */
  function TaskListProblem(list: Value): (r: Option<Exception>)
    ensures list.Str? ==> (r.None? <==> forall c :: c in list.s ==> c != ';' && c != '.' && c != ' ')
    ensures list.Str? && ';' in list.s ==> r == Some(ReservedError(list))
    ensures list.Str? && ';' !in list.s && r.Some? ==> r == Some(DotsError(list))
    ensures list.List? ==> (r.None? <==> Str(";") !in list.items && Str(". ") !in list.items)
    ensures list.Hash? ==> (r.None? <==> Get(list.entries, Str(";")).None?)
    ensures !(list.Str? || list.List? || list.Hash?) ==> r.Some? && r.value.className == "NoMethodError"
  {
    match list
    case Str(s) =>
      if ';' in s then Some(ReservedError(list))
      else if '.' in s || ' ' in s then Some(DotsError(list))
      else None
    case List(items) =>
      if Str(";") in items then Some(ReservedError(list))
      else if Str(". ") in items then Some(DotsError(list))
      else None
    case Hash(entries) =>
      if Get(entries, Str(";")).Some? then Some(ReservedError(list)) else None
    case _ => Some(NoMethodError("include?", list))
  }

  /** The error of the first task list that has one. */
  function FirstProblem(lists: seq<Value>): Option<Exception> {
    if lists == [] then None
    else if TaskListProblem(lists[0]).Some? then TaskListProblem(lists[0])
    else FirstProblem(lists[1..])
  }

  /** What Base#raise_if_invalid_task_list raises for a configuration. */
  function ValidationError(cfg: Config): (r: Option<Exception>)
    ensures TaskListsToCheck(cfg).Err? ==> r == Some(TaskListsToCheck(cfg).error)
    ensures TaskListsToCheck(cfg).Ok? ==> var lists := TaskListsToCheck(cfg).value;
      (r.None? <==> forall i :: 0 <= i < |lists| ==> TaskListProblem(lists[i]).None?) &&
      (r.Some? ==> exists i :: 0 <= i < |lists| && r == TaskListProblem(lists[i]) &&
                              forall j :: 0 <= j < i ==> TaskListProblem(lists[j]).None?)
  {
    match TaskListsToCheck(cfg)
    case Err(e) => Some(e)
    case Ok(lists) =>
      FirstProblemNone(lists);
      if FirstProblem(lists).None? then None
      else
        FirstProblemFirst(lists);
        FirstProblem(lists)
  }

  /** Base#raise_if_invalid_task_list: checks the lists in order and raises
      the first problem found. */
  method RaiseIfInvalidTaskList(cfg: Config) returns (raised: Option<Exception>)
    ensures raised == ValidationError(cfg)
    ensures raised.None? <==> (
      TaskListsToCheck(cfg).Ok? &&
      forall i :: 0 <= i < |TaskListsToCheck(cfg).value| ==> TaskListProblem(TaskListsToCheck(cfg).value[i]).None?)
  {
    var checked := TaskListsToCheck(cfg);
    if checked.Err? {
      return Some(checked.error);
    }
    var lists := checked.value;
    FirstProblemNone(lists);
    var i := 0;
    while i < |lists|
      invariant 0 <= i <= |lists|
      invariant FirstProblem(lists[i..]) == FirstProblem(lists)
    {
      var problem := TaskListProblem(lists[i]);
      if problem.Some? {
        return problem;
      }
      DropOneMore(lists, i);
      i := i + 1;
    }
    return None;
  }

  /** Base#initialize (and `configure`): the OpenStruct, then the check. */
  function Configure(config: Value): (r: Result<Config>)
    ensures r.Ok? <==> ConfigOf(config).Ok? && ValidationError(ConfigOf(config).value).None?
    ensures r.Ok? ==> r.value == ConfigOf(config).value
  {
    var cfg :- ConfigOf(config);
    match ValidationError(cfg)
    case Some(e) => Err(e)
    case None => Ok(cfg)
  }

  // ---------------------------------------------------------------------
  // Properties

  lemma {:induction false} FirstProblemNone(lists: seq<Value>)
    ensures FirstProblem(lists).None? <==> forall i :: 0 <= i < |lists| ==> TaskListProblem(lists[i]).None?
  {
    if lists != [] {
      FirstProblemNone(lists[1..]);
      assert forall i :: 1 <= i < |lists| ==> lists[i] == lists[1..][i - 1];
    }
  }

  /** The problem found is that of a task list all of whose predecessors
      are free of problems. */
  lemma {:induction false} FirstProblemFirst(lists: seq<Value>)
    requires FirstProblem(lists).Some?
    ensures exists i :: 0 <= i < |lists| && FirstProblem(lists) == TaskListProblem(lists[i]) &&
                        forall j :: 0 <= j < i ==> TaskListProblem(lists[j]).None?
  {
    if TaskListProblem(lists[0]).Some? {
      assert FirstProblem(lists) == TaskListProblem(lists[0]);
    } else {
      FirstProblemFirst(lists[1..]);
      var k :| 0 <= k < |lists[1..]| && FirstProblem(lists[1..]) == TaskListProblem(lists[1..][k]) &&
               forall j :: 0 <= j < k ==> TaskListProblem(lists[1..][j]).None?;
      assert forall j :: 1 <= j < k + 1 ==> lists[j] == lists[1..][j - 1];
      assert FirstProblem(lists) == TaskListProblem(lists[k + 1]);
    }
  }

  /** A configuration is accepted exactly when every configured task list
      name is a string free of ';', '.' and ' ' (given activity task lists
      in a hash, or none). */
  lemma NamesAccepted(cfg: Config)
    requires !Truthy(cfg.activityTaskLists) || cfg.activityTaskLists.Hash?
    requires forall v :: v in TaskListsToCheck(cfg).value ==> v.Str?
    ensures ValidationError(cfg).None? <==>
      forall v, c :: v in TaskListsToCheck(cfg).value && c in v.s ==> c != ';' && c != '.' && c != ' '
  {
    var lists := TaskListsToCheck(cfg).value;
    FirstProblemNone(lists);
    if ValidationError(cfg).None? {
      forall v, c | v in lists && c in v.s
        ensures c != ';' && c != '.' && c != ' '
      {
        var i :| 0 <= i < |lists| && lists[i] == v;
        assert TaskListProblem(lists[i]).None?;
      }
    } else {
      var i :| 0 <= i < |lists| && TaskListProblem(lists[i]).Some?;
      assert lists[i] in lists;
    }
  }

  /** A configured task list containing the separator is refused. */
  lemma SeparatorRejected(cfg: Config, i: nat)
    requires TaskListsToCheck(cfg).Ok? && i < |TaskListsToCheck(cfg).value|
    requires TaskListsToCheck(cfg).value[i].Str? && ';' in TaskListsToCheck(cfg).value[i].s
    ensures ValidationError(cfg).Some?
  {
    FirstProblemNone(TaskListsToCheck(cfg).value);
  }

  /** The configuration `{activity_task_lists: {key => list}}` holds one
      task list to check. */
  lemma SingleListConfig(key: Value, list: Value)
    requires key.Str? || key.Sym?
    ensures ConfigOf(Hash([(Sym("activity_task_lists"), Hash([(key, list)]))])) ==
      Ok(Config(Hash([(key, list)]), Nil, Nil, Nil, Nil))
    ensures TaskListsToCheck(Config(Hash([(key, list)]), Nil, Nil, Nil, Nil)) == Ok([list])
  {
    var entries := [(Sym("activity_task_lists"), Hash([(key, list)]))];
    assert entries[..0] == [];
    assert Field(entries, "activity_task_lists") == Hash([(key, list)]);
    assert Field(entries, "decision_task_list") == Nil;
    assert Field(entries, "decision_task_lists") == Nil;
    assert Field(entries, "unit") == Nil;
    assert Field(entries, "execution_id_prefix") == Nil;
    var lists := TaskListsToCheck(Config(Hash([(key, list)]), Nil, Nil, Nil, Nil)).value;
    assert ArrayOf(Nil) == [];
    assert |lists| == 1 && lists[0] == list;
    assert lists == [list];
  }

  /** A task list name holding the separator (such as "a;b") is refused
      with the "reserved" message. */
  lemma ReservedNameRefused(key: Value, name: string)
    requires key.Str? || key.Sym?
    requires ';' in name
    ensures Configure(Hash([(Sym("activity_task_lists"), Hash([(key, Str(name))]))])) ==
      Err(ReservedError(Str(name)))
  {
    SingleListConfig(key, Str(name));
    assert FirstProblem([Str(name)]) == TaskListProblem(Str(name));
  }

  /** A task list name holding a space but no separator (such as
      "not valid") is refused: `count(". ")` counts spaces as well as
      dots. */
  lemma SpaceInNameRefused(key: Value, name: string)
    requires key.Str? || key.Sym?
    requires ';' !in name && ' ' in name
    ensures Configure(Hash([(Sym("activity_task_lists"), Hash([(key, Str(name))]))])) ==
      Err(DotsError(Str(name)))
  {
    SingleListConfig(key, Str(name));
    assert FirstProblem([Str(name)]) == TaskListProblem(Str(name));
  }

  /** The names derived from a unit. */
  lemma DerivedNames(cfg: Config)
    ensures WorkflowName(cfg)[..|DefaultUnit(cfg)|] == DefaultUnit(cfg)
    ensures ActivityName(cfg)[..|DefaultUnit(cfg)|] == DefaultUnit(cfg)
    ensures WorkflowName(cfg) != ActivityName(cfg)
    ensures cfg.unit.Str? ==> DefaultUnit(cfg) == cfg.unit.s
    ensures cfg.unit.Sym? ==> DefaultUnit(cfg) == cfg.unit.name
    ensures cfg.unit.Nil? ==> WorkflowName(cfg) == "-workflow"
  {
    var u := DefaultUnit(cfg);
    assert WorkflowName(cfg)[|u| + 1] == 'w' && ActivityName(cfg)[|u| + 1] == 'a';
  }

  /** The configuration `{unit: unit}` (such as "test") names the
      workflow "<unit>-workflow" and the activity "<unit>-activity". */
  lemma UnitNames(unit: string)
    ensures ConfigOf(Hash([(Sym("unit"), Str(unit))])) == Ok(Config(Nil, Nil, Nil, Str(unit), Nil))
    ensures WorkflowName(Config(Nil, Nil, Nil, Str(unit), Nil)) == unit + "-workflow"
    ensures ActivityName(Config(Nil, Nil, Nil, Str(unit), Nil)) == unit + "-activity"
  {
    var entries := [(Sym("unit"), Str(unit))];
    assert entries[..0] == [];
    assert Field(entries, "activity_task_lists") == Nil;
    assert Field(entries, "decision_task_list") == Nil;
    assert Field(entries, "decision_task_lists") == Nil;
    assert Field(entries, "unit") == Str(unit);
    assert Field(entries, "execution_id_prefix") == Nil;
  }

  /** The legacy input form `[name, params]` (such as
      `["legacy", [1, 2, 3]]`) with truthy params. */
  lemma LegacyInput(name: string, params: JsonValue)
    requires Truthy(params)
    requires IsJson(List([Str(name), params]))
    ensures ParseInput(Some(Encoded(List([Str(name), params])))) ==
      Ok(Hash([(Str("name"), Str(name)), (Str("params"), params)]))
  {
    var input := List([Str(name), params]);
    assert Parse(Some(Encoded(input))) == Ok(input);
    assert ParseInput(Some(Encoded(input))).value == Hash(Put([(Str("name"), Str(name))], Str("params"), params));
    PutParams(Str(name), params);
  }

  /** Merging "params" into the hash of a legacy name appends it. */
  lemma PutParams(name: Value, params: Value)
    ensures Put([(Str("name"), name)], Str("params"), params) == [(Str("name"), name), (Str("params"), params)]
  {
    var asHash := [(Str("name"), name)];
    assert Put([], Str("params"), params) == [(Str("params"), params)];
    assert Put(asHash, Str("params"), params) == [asHash[0]] + Put([], Str("params"), params);
  }

  /** `[name, {}]` (such as `["interval", {}]`) names the task and sets no
      interval: an empty params hash is truthy and becomes "params". */
  lemma LegacyInputSetsNoInterval(name: string)
    requires IsJson(List([Str(name), Hash([])]))
    ensures ParseInput(Some(Encoded(List([Str(name), Hash([])])))).Ok?
    ensures OptionValue(ParseInput(Some(Encoded(List([Str(name), Hash([])])))).value, "interval") == Nil
    ensures OptionValue(ParseInput(Some(Encoded(List([Str(name), Hash([])])))).value, "name") == Str(name)
  {
    LegacyInput(name, Hash([]));
  }
}
