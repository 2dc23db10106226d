/**
 * The client side (Ntswf::Client): starting a workflow execution from a hash
 * of options, and summarising an execution from its history. The service
 * that starts an execution is a parameter; everything else is computed from
 * the configuration and the options.
 */
module Client {
  import opened RubyValues
  import opened Json
  import opened Base
  import opened History

  // ---------------------------------------------------------------------
  // Starting an execution

  const ChildPolicy := Sym("terminate")
  const ExecutionStartToCloseTimeout := 48 * 3600
  const TaskStartToCloseTimeout := 10 * 60

  /** A call of WorkflowType#start_execution: the workflow type's name and
      version, and the arguments passed. */
  datatype StartRequest = StartRequest(
    workflowName: string,
    workflowVersion: string,
    childPolicy: Value,
    executionStartToCloseTimeout: int,
    input: Text,
    tagList: seq<Value>,
    taskList: Value,
    taskStartToCloseTimeout: int,
    workflowId: string)

  /** What the service answers when it starts an execution: its ids. */
  datatype Started = Started(workflowId: string, runId: string)

  /** `decision_task_lists[unit]`: the entry of the configured hash of
      per-unit decision task lists, nil when none is configured. */
  function UnitDecisionTaskList(cfg: Config, unit: Value): Value {
    if cfg.decisionTaskLists.Hash? then Fetch(cfg.decisionTaskLists.entries, unit) else Nil
  }

  /** The decision task list an execution of `unit` runs on: the unit's
      own, else the configured one, else an error. */
  function DecisionTaskListFor(cfg: Config, unit: Value): (r: Result<Value>)
    ensures r.Ok? <==> Truthy(UnitDecisionTaskList(cfg, unit)) || Truthy(cfg.decisionTaskList)
    ensures Truthy(UnitDecisionTaskList(cfg, unit)) ==> r == Ok(UnitDecisionTaskList(cfg, unit))
    ensures !Truthy(UnitDecisionTaskList(cfg, unit)) && r.Ok? ==> r.value == cfg.decisionTaskList
    ensures r.Err? ==> r.error == RuntimeError("Missing decision task list configuration")
  {
    var own := UnitDecisionTaskList(cfg, unit);
    if Truthy(own) then Ok(own) else DecisionTaskList(cfg)
  }

  /** The prefix of the workflow ids this client makes: the configured one,
      or else the default unit. */
  function ExecutionIdPrefix(cfg: Config): (r: Value)
    ensures Truthy(cfg.executionIdPrefix) ==> r == cfg.executionIdPrefix
    ensures !Truthy(cfg.executionIdPrefix) ==> r == Str(DefaultUnit(cfg))
  {
    if Truthy(cfg.executionIdPrefix) then cfg.executionIdPrefix else Str(DefaultUnit(cfg))
  }

  /** Client#workflow_id: prefix and suffix joined by the separator. */
  function WorkflowId(prefix: Value, suffix: Value): (r: string)
    ensures !prefix.List? && !suffix.List? ==> r == ToS(prefix) + Separator + ToS(suffix)
  {
    if !prefix.List? && !suffix.List? then JoinPair(prefix, suffix, Separator); JoinValue(List([prefix, suffix]), Separator)
    else JoinValue(List([prefix, suffix]), Separator)
  }

  /** The tag list of an execution: the unit and the name as strings,
      then `Array(options[:tag_list])`. */
  function Tags(options: seq<(Value, Value)>): seq<Value> {
    [Str(ToS(Fetch(options, Sym("unit")))), Str(ToS(Fetch(options, Sym("name"))))] + ArrayOf(Fetch(options, Sym("tag_list")))
  }

  /** The call Client#start_swf_workflow_execution makes for `options`: the
      options, without :execution_id, as the input; the unit and the name
      followed by the extra tags as the tag list; the unit's decision task
      list; the workflow id made from the prefix and the execution id. */
  function StartRequestFor(cfg: Config, options: seq<(Value, Value)>): (r: Result<StartRequest>)
    ensures r.Ok? <==> DecisionTaskListFor(cfg, Fetch(options, Sym("unit"))).Ok?
    ensures r.Err? ==> r.error == DecisionTaskListFor(cfg, Fetch(options, Sym("unit"))).error
  {
    var rest := Delete(options, Sym("execution_id"));
    DeleteKeeps(options, Sym("execution_id"), Sym("unit"));
    var unit := Fetch(rest, Sym("unit"));
    var taskList :- DecisionTaskListFor(cfg, unit);
    Ok(StartRequest(WorkflowName(cfg), WorkflowVersion, ChildPolicy, ExecutionStartToCloseTimeout, Dump(Hash(rest)),
                    Tags(rest), taskList, TaskStartToCloseTimeout,
                    WorkflowId(ExecutionIdPrefix(cfg), Fetch(options, Sym("execution_id")))))
  }

  /** A request names the configured workflow type, version 1, the
      terminate child policy, the fixed timeouts and the decision task list
      of the options' unit. */
  lemma StartRequestFields(cfg: Config, options: seq<(Value, Value)>)
    requires StartRequestFor(cfg, options).Ok?
    ensures var request := StartRequestFor(cfg, options).value;
      request.workflowName == WorkflowName(cfg) && request.workflowVersion == WorkflowVersion &&
      request.childPolicy == Sym("terminate") &&
      request.executionStartToCloseTimeout == 172800 && request.taskStartToCloseTimeout == 600 &&
      request.taskList == DecisionTaskListFor(cfg, Fetch(options, Sym("unit"))).value
  {
    DeleteKeeps(options, Sym("execution_id"), Sym("unit"));
  }

  /** The input of a request parses to the options without :execution_id. */
  lemma StartRequestInput(cfg: Config, options: seq<(Value, Value)>)
    requires StartRequestFor(cfg, options).Ok?
    ensures Parse(Some(StartRequestFor(cfg, options).value.input)) == Ok(Normalise(Hash(Delete(options, Sym("execution_id")))))
  {
  }

  /** A request is tagged with the unit and the name, then the extra tags. */
  lemma StartRequestTags(cfg: Config, options: seq<(Value, Value)>)
    requires StartRequestFor(cfg, options).Ok?
    ensures var tags := StartRequestFor(cfg, options).value.tagList;
      |tags| >= 2 &&
      tags[..2] == [Str(ToS(Fetch(options, Sym("unit")))), Str(ToS(Fetch(options, Sym("name"))))] &&
      tags[2..] == ArrayOf(Fetch(options, Sym("tag_list")))
  {
    var rest := Delete(options, Sym("execution_id"));
    DeleteKeeps(options, Sym("execution_id"), Sym("unit"));
    DeleteKeeps(options, Sym("execution_id"), Sym("name"));
    DeleteKeeps(options, Sym("execution_id"), Sym("tag_list"));
    var head := [Str(ToS(Fetch(rest, Sym("unit")))), Str(ToS(Fetch(rest, Sym("name"))))];
    SplitAt(head, ArrayOf(Fetch(rest, Sym("tag_list"))));
  }

  /** A request's workflow id is made from the prefix and the execution id. */
  lemma StartRequestWorkflowId(cfg: Config, options: seq<(Value, Value)>)
    requires StartRequestFor(cfg, options).Ok?
    ensures StartRequestFor(cfg, options).value.workflowId == WorkflowId(ExecutionIdPrefix(cfg), Fetch(options, Sym("execution_id")))
  {
  }

  /** The hash Client#start_execution returns: the name and the params
      given, status :open, and the started execution's ids. */
  function ExecutionProperties(name: Value, params: Value, started: Started): (r: Value)
    ensures r.Hash?
    ensures Get(r.entries, Sym("name")) == Some(Str(ToS(name)))
    ensures Get(r.entries, Sym("params")) == Some(params)
    ensures Get(r.entries, Sym("status")) == Some(Sym("open"))
    ensures Get(r.entries, Sym("workflow_id")) == Some(Str(started.workflowId))
    ensures Get(r.entries, Sym("run_id")) == Some(Str(started.runId))
  {
    var properties := [(Sym("name"), Str(ToS(name))),
                       (Sym("params"), params),
                       (Sym("status"), Sym("open")),
                       (Sym("workflow_id"), Str(started.workflowId)),
                       (Sym("run_id"), Str(started.runId))];
    GetFive(properties[0], properties[1], properties[2], properties[3], properties[4], Sym("name"));
    GetFive(properties[0], properties[1], properties[2], properties[3], properties[4], Sym("params"));
    GetFive(properties[0], properties[1], properties[2], properties[3], properties[4], Sym("status"));
    GetFive(properties[0], properties[1], properties[2], properties[3], properties[4], Sym("workflow_id"));
    GetFive(properties[0], properties[1], properties[2], properties[3], properties[4], Sym("run_id"));
    Hash(properties)
  }

  /** The caller's options hash, which starting an execution changes: its
      :execution_id is deleted. */
  class Options {
    var entries: seq<(Value, Value)>

    constructor(entries: seq<(Value, Value)>)
      ensures this.entries == entries
    {
      this.entries := entries;
    }
  }

  /** What starting an execution for `options` gives: the error of the
      request, or the service's answer to it. */
  function StartOutcome(cfg: Config, options: seq<(Value, Value)>, service: StartRequest -> Result<Started>): (r: Result<Started>)
    ensures DecisionTaskListFor(cfg, Fetch(options, Sym("unit"))).Err? ==>
      r == Err(DecisionTaskListFor(cfg, Fetch(options, Sym("unit"))).error)
    ensures DecisionTaskListFor(cfg, Fetch(options, Sym("unit"))).Ok? ==> r == service(StartRequestFor(cfg, options).value)
  {
    match StartRequestFor(cfg, options)
    case Err(e) => Err(e)
    case Ok(request) => service(request)
  }

  /** Client#start_swf_workflow_execution; `service` stands for the
      workflow type's start_execution. */
  method StartSwfWorkflowExecution(cfg: Config, options: Options, service: StartRequest -> Result<Started>)
    returns (r: Result<Started>)
    modifies options
    ensures options.entries == Delete(old(options.entries), Sym("execution_id"))
    ensures r == StartOutcome(cfg, old(options.entries), service)
  {
    var executionId := Fetch(options.entries, Sym("execution_id"));
    options.entries := Delete(options.entries, Sym("execution_id"));
    var unit := Fetch(options.entries, Sym("unit"));
    var taskList := DecisionTaskListFor(cfg, unit);
    if taskList.Err? {
      return Err(taskList.error);
    }
    var tags := [Str(ToS(unit)), Str(ToS(Fetch(options.entries, Sym("name"))))] + ArrayOf(Fetch(options.entries, Sym("tag_list")));
    var request := StartRequest(WorkflowName(cfg), WorkflowVersion, ChildPolicy, ExecutionStartToCloseTimeout,
                                Dump(Hash(options.entries)), tags, taskList.value, TaskStartToCloseTimeout,
                                WorkflowId(ExecutionIdPrefix(cfg), executionId));
    r := service(request);
  }

  /** Client#start_execution: the properties of the started execution,
      with the name and the params of the options given. */
  method StartExecution(cfg: Config, options: Options, service: StartRequest -> Result<Started>)
    returns (r: Result<Value>)
    modifies options
    ensures options.entries == Delete(old(options.entries), Sym("execution_id"))
    ensures StartOutcome(cfg, old(options.entries), service).Err? ==> r == Err(StartOutcome(cfg, old(options.entries), service).error)
    ensures StartOutcome(cfg, old(options.entries), service).Ok? ==>
      r == Ok(ExecutionProperties(Fetch(old(options.entries), Sym("name")), Fetch(old(options.entries), Sym("params")),
                                  StartOutcome(cfg, old(options.entries), service).value))
  {
    // read before the call, which deletes only :execution_id, so they are
    // the values the hash holds afterwards
    var name, params := Fetch(options.entries, Sym("name")), Fetch(options.entries, Sym("params"));
    var started := StartSwfWorkflowExecution(cfg, options, service);
    if started.Err? {
      return Err(started.error);
    }
    r := Ok(ExecutionProperties(name, params, started.value));
  }

  // ---------------------------------------------------------------------
  // Summarising an execution

  /** A workflow execution as Client#find sees it: its ids, its status (the
      name of the symbol the service reports) and its history. */
  datatype WorkflowExecution = WorkflowExecution(workflowId: string, runId: string, status: string, history: seq<Event>)

  const WorkflowExecutionCompleted := "WorkflowExecutionCompleted"
  const WorkflowExecutionFailed := "WorkflowExecutionFailed"

  /** Client::TERMINAL_EVENT_TYPES_ON_FAILURE. */
  const TerminalEventTypesOnFailure :=
    {"WorkflowExecutionFailed", "WorkflowExecutionTimedOut", "WorkflowExecutionCanceled", "WorkflowExecutionTerminated"}

  /** `history_events.reverse_order.detect`: the last event whose type is
      one of `types`. */
  function FindLast(history: seq<Event>, types: set<string>): (r: Option<nat>)
    ensures r.Some? ==> r.value < |history| && history[r.value].eventType in types
    ensures r.Some? ==> forall j :: r.value < j < |history| ==> history[j].eventType !in types
    ensures r.None? ==> forall j :: 0 <= j < |history| ==> history[j].eventType !in types
    decreases |history|
  {
    if history == [] then None
    else if history[|history| - 1].eventType in types then Some(|history| - 1)
    else
      var front := history[..|history| - 1];
      assert forall j :: 0 <= j < |front| ==> front[j] == history[j];
      FindLast(front, types)
  }

  /** Client#parse_attribute: the attribute's JSON object; an empty hash
      when the event lacks the attribute, the text is not JSON, or it is
      not an object. */
  function ParseAttribute(attribute: Option<Text>): (r: JsonValue)
    ensures r.Hash?
    ensures attribute.Some? && attribute.value.Encoded? && attribute.value.value.Hash? ==> r == attribute.value.value
    ensures !(attribute.Some? && attribute.value.Encoded? && attribute.value.value.Hash?) ==> r == Hash([])
  {
    match attribute
    case None => Hash([])
    case Some(text) =>
      match Parse(Some(text))
      case Ok(v) => if v.Hash? then v else Hash([])
      case Err(_) => Hash([])
  }

  /** Client#completion_details: the outcome stored by the last completion
      event, or, with no such event, the status :open. */
  function CompletionDetails(history: seq<Event>): (r: seq<(Value, Value)>)
    ensures FindLast(history, {WorkflowExecutionCompleted}).Some? ==>
      r == [(Sym("outcome"), Fetch(ParseAttribute(history[FindLast(history, {WorkflowExecutionCompleted}).value].attributes.result).entries,
                                   Str("outcome")))]
    ensures FindLast(history, {WorkflowExecutionCompleted}).None? ==> r == [(Sym("status"), Sym("open"))]
  {
    match FindLast(history, {WorkflowExecutionCompleted})
    case Some(i) => [(Sym("outcome"), Fetch(ParseAttribute(history[i].attributes.result).entries, Str("outcome")))]
    case None => [(Sym("status"), Sym("open"))]
  }

  function NoDetailsMessage(status: string): string {
    "Execution has finished with status " + status + ", but did not provide details."
  }

  /** Client#failure_details, by the last terminal event: a failure reports
      the error and the exception its details name; a time-out, a
      cancellation or a termination reports its event type as both; with no
      terminal event there is only a generic error. */
  function FailureDetails(execution: WorkflowExecution): (r: seq<(Value, Value)>)
    ensures var last := FindLast(execution.history, TerminalEventTypesOnFailure);
      (last.Some? && execution.history[last.value].eventType == WorkflowExecutionFailed ==>
         var details := ParseAttribute(execution.history[last.value].attributes.details).entries;
         r == [(Sym("error"), Fetch(details, Str("error"))), (Sym("exception"), Fetch(details, Str("exception")))]) &&
      (last.Some? && execution.history[last.value].eventType != WorkflowExecutionFailed ==>
         r == [(Sym("error"), Str(execution.history[last.value].eventType)),
               (Sym("exception"), Str(execution.history[last.value].eventType))]) &&
      (last.None? ==> r == [(Sym("error"), Str(NoDetailsMessage(execution.status)))])
  {
    match FindLast(execution.history, TerminalEventTypesOnFailure)
    case Some(i) =>
      var eventType := execution.history[i].eventType;
      if eventType == WorkflowExecutionFailed then
        var details := ParseAttribute(execution.history[i].attributes.details).entries;
        [(Sym("error"), Fetch(details, Str("error"))), (Sym("exception"), Fetch(details, Str("exception")))]
      else [(Sym("error"), Str(eventType)), (Sym("exception"), Str(eventType))]
    case None => [(Sym("error"), Str(NoDetailsMessage(execution.status)))]
  }

  /** The five properties every summary starts with. */
  function Summary(execution: WorkflowExecution, options: Value): seq<(Value, Value)>
    requires options.Hash?
  {
    [(Sym("status"), Sym(execution.status)),
     (Sym("workflow_id"), Str(execution.workflowId)),
     (Sym("run_id"), Str(execution.runId)),
     (Sym("name"), Str(ToS(Fetch(options.entries, Str("name"))))),
     (Sym("params"), Fetch(options.entries, Str("params")))]
  }

  /** What the status adds to the summary. */
  function Details(execution: WorkflowExecution): seq<(Value, Value)> {
    if execution.status == "open" then []
    else if execution.status == "completed" then CompletionDetails(execution.history)
    else FailureDetails(execution)
  }

  /** Client#history_details: the summary of an execution. Its name and
      params come from the options of the first event; the details its
      status calls for are merged over it, so a key they bind takes their
      last value and every other key keeps the summary's. */
  function HistoryDetails(execution: WorkflowExecution): (r: Result<Value>)
    ensures r.Ok? <==>
      |execution.history| > 0 && execution.history[0].attributes.input.Some? &&
      ParseInput(execution.history[0].attributes.input).Ok?
    ensures |execution.history| == 0 ==> r == Err(NoMethodError("attributes", Nil))
    ensures |execution.history| > 0 && execution.history[0].attributes.input.None? ==>
      r == Err(MissingAttribute("input"))
    ensures r.Ok? ==> r.value.Hash? && forall k ::
      Get(r.value.entries, k) ==
        if GetLast(Details(execution), k).Some? then GetLast(Details(execution), k)
        else Get(Summary(execution, ParseInput(execution.history[0].attributes.input).value), k)
  {
    var first :- FirstEvent(execution.history);
    var input :- Read(first.attributes.input, "input");
    var options :- ParseInput(Some(input));
    Ok(Hash(Merge(Summary(execution, options), Details(execution))))
  }

  // ---------------------------------------------------------------------
  // Properties

  /** The details a status calls for are about the outcome, the status,
      the error and the exception only. */
  lemma DetailsKeys(execution: WorkflowExecution)
    ensures var d := Details(execution);
      forall i :: 0 <= i < |d| ==>
        d[i].0 == Sym("outcome") || d[i].0 == Sym("status") || d[i].0 == Sym("error") || d[i].0 == Sym("exception")
  {
  }

  /** Which keys the five common properties bind, and to what. */
  lemma SummaryGet(execution: WorkflowExecution, options: Value, key: Value)
    requires options.Hash?
    ensures Get(Summary(execution, options), key) ==
      if key == Sym("status") then Some(Sym(execution.status))
      else if key == Sym("workflow_id") then Some(Str(execution.workflowId))
      else if key == Sym("run_id") then Some(Str(execution.runId))
      else if key == Sym("name") then Some(Str(ToS(Fetch(options.entries, Str("name")))))
      else if key == Sym("params") then Some(Fetch(options.entries, Str("params")))
      else None
  {
    var s := Summary(execution, options);
    GetFive(s[0], s[1], s[2], s[3], s[4], key);
  }

  /** The workflow id starts with the prefix and ends with the execution
      id, separated by ";". */
  lemma WorkflowIdJoins(cfg: Config, options: seq<(Value, Value)>, executionId: string)
    requires StartRequestFor(cfg, options).Ok?
    requires Fetch(options, Sym("execution_id")) == Str(executionId)
    requires !ExecutionIdPrefix(cfg).List?
    ensures StartRequestFor(cfg, options).value.workflowId == ToS(ExecutionIdPrefix(cfg)) + ";" + executionId
  {
    StartRequestWorkflowId(cfg, options);
  }

  const SampleOptions := [(Sym("execution_id"), Str("the_id")), (Sym("name"), Sym("the_worker")), (Sym("unit"), Str("test"))]
  const SampleConfig := Config(Hash([(Str("test"), Str("atl"))]), Str("dtl"), Nil, Str("test"), Nil)

  /** What the sample options bind. */
  lemma SampleGet(key: Value)
    ensures Get(SampleOptions, key) ==
      if key == Sym("execution_id") then Some(Str("the_id"))
      else if key == Sym("name") then Some(Sym("the_worker"))
      else if key == Sym("unit") then Some(Str("test"))
      else None
  {
    var s := SampleOptions;
    assert s == [s[0]] + ([s[1]] + ([s[2]] + []));
  }

  /** Without extra tags an execution is tagged with its unit and its
      name only. */
  lemma TagsWithoutExtra(cfg: Config, options: seq<(Value, Value)>)
    requires StartRequestFor(cfg, options).Ok?
    requires Get(options, Sym("tag_list")) == None
    ensures StartRequestFor(cfg, options).value.tagList ==
      [Str(ToS(Fetch(options, Sym("unit")))), Str(ToS(Fetch(options, Sym("name"))))]
  {
    var tags := StartRequestFor(cfg, options).value.tagList;
    StartRequestTags(cfg, options);
    TakeDrop(tags, 2);
  }

  /** The sample options are started with the sample configuration. */
  lemma SampleStarts(cfg: Config, options: seq<(Value, Value)>)
    requires cfg == SampleConfig && options == SampleOptions
    ensures StartRequestFor(cfg, options).Ok?
  {
    SampleGet(Sym("unit"));
  }

  /** Starting "the_id" of :the_worker for unit "test" tags the execution
      ["test", "the_worker"] (the request's tags are these by
      StartRequestTags). */
  lemma SampleTags(options: seq<(Value, Value)>)
    requires options == SampleOptions
    ensures Tags(options) == [Str("test"), Str("the_worker")]
  {
    SampleGet(Sym("unit"));
    SampleGet(Sym("name"));
    SampleGet(Sym("tag_list"));
  }

  /** That execution runs on the configured decision task list (the
      request's, by StartRequestFields). */
  lemma SampleTaskList(cfg: Config, options: seq<(Value, Value)>)
    requires cfg == SampleConfig && options == SampleOptions
    ensures DecisionTaskListFor(cfg, Fetch(options, Sym("unit"))) == Ok(Str("dtl"))
  {
    SampleGet(Sym("unit"));
  }

  /** On a client of unit "test" that execution is named "test;the_id",
      and with execution_id_prefix "cms" it is named "cms;the_id" (the
      request's workflow id, by StartRequestWorkflowId). */
  lemma SampleWorkflowIds(cfg: Config, options: seq<(Value, Value)>)
    requires cfg == SampleConfig && options == SampleOptions
    ensures WorkflowId(ExecutionIdPrefix(cfg), Fetch(options, Sym("execution_id"))) == "test;the_id"
    ensures WorkflowId(ExecutionIdPrefix(cfg.(executionIdPrefix := Str("cms"))), Fetch(options, Sym("execution_id"))) == "cms;the_id"
  {
    SampleGet(Sym("execution_id"));
    SampleIdsSpelled();
  }

  /** The sample ids, spelt out. */
  lemma SampleIdsSpelled()
    ensures "test" + ";" + "the_id" == "test;the_id"
    ensures "cms" + ";" + "the_id" == "cms;the_id"
  {
  }

  /** The stored input gives the options back as parse_input reads them,
      without :execution_id when every option key is a symbol. */
  lemma InputOmitsExecutionId(cfg: Config, options: seq<(Value, Value)>)
    requires StartRequestFor(cfg, options).Ok?
    requires forall i :: 0 <= i < |options| ==> options[i].0.Sym?
    ensures ParseInput(Some(StartRequestFor(cfg, options).value.input)) == Ok(Normalise(Hash(Delete(options, Sym("execution_id")))))
    ensures Get(Normalise(Hash(Delete(options, Sym("execution_id")))).entries, Str("execution_id")) == None
  {
    StartRequestInput(cfg, options);
    DeletedSymbolAbsent(options, "execution_id");
  }

  /** A symbol deleted from a symbol-keyed hash has no string form left
      in the parsed text. */
  lemma DeletedSymbolAbsent(options: seq<(Value, Value)>, name: string)
    requires forall i :: 0 <= i < |options| ==> options[i].0.Sym?
    ensures Normalise(Hash(Delete(options, Sym(name)))).Hash?
    ensures Get(Normalise(Hash(Delete(options, Sym(name)))).entries, Str(name)) == None
  {
    var rest := Delete(options, Sym(name));
    DeleteDrops(options, Sym(name));
    forall j | 0 <= j < |rest| ensures ToS(rest[j].0) != name {
      assert rest[j] in options;
    }
    DumpLacksKey(rest, name);
  }

  /** Deleting a key keeps the remaining keys distinct. */
  lemma {:induction false} DeleteKeepsDistinct(entries: seq<(Value, Value)>, key: Value)
    requires DistinctKeys(entries)
    ensures DistinctKeys(Delete(entries, key))
  {
    if entries != [] {
      var tail := entries[1..];
      assert forall i :: 0 <= i < |tail| ==> tail[i] == entries[i + 1];
      DeleteKeepsDistinct(tail, key);
      var rest := Delete(tail, key);
      if entries[0].0 != key {
        forall j | 0 <= j < |rest| ensures rest[j].0 != entries[0].0 {
          var a :| 0 <= a < |tail| && tail[a] == rest[j];
          assert entries[a + 1] == tail[a];
        }
        var r := [entries[0]] + rest;
        assert Delete(entries, key) == r;
        forall i, j | 0 <= i < j < |r| ensures r[i].0 != r[j].0 {
          assert r[j] == rest[j - 1];
          if i > 0 {
            assert r[i] == rest[i - 1];
          } else {
            assert r[i] == entries[0];
          }
        }
      } else {
        assert Delete(entries, key) == rest;
      }
    }
  }

  /** A symbol-keyed hash whose :name is a symbol serialises the name to
      its string under "name". */
  lemma NameSerialised(entries: seq<(Value, Value)>, name: string)
    requires forall i :: 0 <= i < |entries| ==> entries[i].0.Sym?
    requires DistinctKeys(entries)
    requires Get(entries, Sym("name")) == Some(Sym(name))
    ensures Normalise(Hash(entries)).Hash?
    ensures Get(Normalise(Hash(entries)).entries, Str("name")) == Some(Str(name))
  {
    var k :| 0 <= k < |entries| && entries[k] == (Sym("name"), Sym(name));
    forall j | 0 <= j < |entries| && j != k ensures ToS(entries[j].0) != "name" {
      assert entries[j].0 != entries[k].0;
    }
    DumpKeepsKey(entries, k);
  }

  /** Deleting :execution_id keeps the keys symbols, distinct, and the
      name where it was. */
  lemma DeleteKeepsName(options: seq<(Value, Value)>, name: string)
    requires forall i :: 0 <= i < |options| ==> options[i].0.Sym?
    requires DistinctKeys(options)
    requires Get(options, Sym("name")) == Some(Sym(name))
    ensures var rest := Delete(options, Sym("execution_id"));
      (forall i :: 0 <= i < |rest| ==> rest[i].0.Sym?) && DistinctKeys(rest) &&
      Get(rest, Sym("name")) == Some(Sym(name))
  {
    var rest := Delete(options, Sym("execution_id"));
    DeleteKeepsDistinct(options, Sym("execution_id"));
    forall i | 0 <= i < |rest| ensures rest[i].0.Sym? {
      assert rest[i] in options;
    }
  }

  /** The name option survives the trip through the input: the workers
      read back the name's string. */
  lemma InputKeepsName(cfg: Config, options: seq<(Value, Value)>, name: string)
    requires StartRequestFor(cfg, options).Ok?
    requires forall i :: 0 <= i < |options| ==> options[i].0.Sym?
    requires DistinctKeys(options)
    requires Get(options, Sym("name")) == Some(Sym(name))
    ensures var parsed := ParseInput(Some(StartRequestFor(cfg, options).value.input));
      parsed.Ok? && Get(parsed.value.entries, Str("name")) == Some(Str(name))
  {
    NameSurvivesDelete(options, name);
    InputOmitsExecutionId(cfg, options);
  }

  /** The options without :execution_id serialise the name's string. */
  lemma NameSurvivesDelete(options: seq<(Value, Value)>, name: string)
    requires forall i :: 0 <= i < |options| ==> options[i].0.Sym?
    requires DistinctKeys(options)
    requires Get(options, Sym("name")) == Some(Sym(name))
    ensures Normalise(Hash(Delete(options, Sym("execution_id")))).Hash?
    ensures Get(Normalise(Hash(Delete(options, Sym("execution_id")))).entries, Str("name")) == Some(Str(name))
  {
    DeleteKeepsName(options, name);
    NameSerialised(Delete(options, Sym("execution_id")), name);
  }

  // -- history summaries

  /** The details never bind a key other than the outcome, the status,
      the error and the exception. */
  lemma DetailsLack(execution: WorkflowExecution, key: Value)
    requires key != Sym("outcome") && key != Sym("status") && key != Sym("error") && key != Sym("exception")
    ensures GetLast(Details(execution), key) == None
  {
    DetailsKeys(execution);
    GetLastAbsent(Details(execution), key);
  }

  /** A key the details do not bind keeps the summary's value. */
  lemma SummaryKept(execution: WorkflowExecution, key: Value)
    requires HistoryDetails(execution).Ok?
    requires key != Sym("outcome") && key != Sym("status") && key != Sym("error") && key != Sym("exception")
    ensures Get(HistoryDetails(execution).value.entries, key) ==
      Get(Summary(execution, ParseInput(execution.history[0].attributes.input).value), key)
  {
    DetailsLack(execution, key);
  }

  /** The ids, the name and the params are never overridden by the
      details: every summary reports them as the execution and the first
      event's options give them. */
  lemma SummaryIdentifies(execution: WorkflowExecution)
    requires HistoryDetails(execution).Ok?
    ensures var e := HistoryDetails(execution).value.entries;
      var options := ParseInput(execution.history[0].attributes.input).value;
      Get(e, Sym("workflow_id")) == Some(Str(execution.workflowId)) &&
      Get(e, Sym("run_id")) == Some(Str(execution.runId)) &&
      Get(e, Sym("name")) == Some(Str(ToS(Fetch(options.entries, Str("name"))))) &&
      Get(e, Sym("params")) == Some(Fetch(options.entries, Str("params")))
  {
    var e := HistoryDetails(execution).value.entries;
    var options := ParseInput(execution.history[0].attributes.input).value;
    var s := Summary(execution, options);
    SummaryKept(execution, Sym("workflow_id"));
    SummaryKept(execution, Sym("run_id"));
    SummaryKept(execution, Sym("name"));
    SummaryKept(execution, Sym("params"));
    SummaryGet(execution, options, Sym("workflow_id"));
    SummaryGet(execution, options, Sym("run_id"));
    SummaryGet(execution, options, Sym("name"));
    SummaryGet(execution, options, Sym("params"));
  }

  /** An open execution's summary holds the five common properties and
      nothing else. */
  lemma OpenAddsNothing(execution: WorkflowExecution, key: Value)
    requires execution.status == "open" && HistoryDetails(execution).Ok?
    ensures Get(HistoryDetails(execution).value.entries, key) ==
      Get(Summary(execution, ParseInput(execution.history[0].attributes.input).value), key)
  {
  }

  /** A completed execution reports the outcome stored by its last
      completion event and keeps the status :completed. */
  lemma CompletedReportsOutcome(execution: WorkflowExecution, i: nat)
    requires execution.status == "completed" && HistoryDetails(execution).Ok?
    requires FindLast(execution.history, {WorkflowExecutionCompleted}) == Some(i)
    ensures var e := HistoryDetails(execution).value.entries;
      Get(e, Sym("outcome")) == Some(Fetch(ParseAttribute(execution.history[i].attributes.result).entries, Str("outcome"))) &&
      Get(e, Sym("status")) == Some(Sym("completed"))
  {
    var d := Details(execution);
    assert d[..0] == [];
    SummaryGet(execution, ParseInput(execution.history[0].attributes.input).value, Sym("status"));
  }

  /** A completed execution whose history has no completion event is
      reported as open, with no outcome. */
  lemma CompletedWithoutEventIsOpen(execution: WorkflowExecution)
    requires execution.status == "completed" && HistoryDetails(execution).Ok?
    requires FindLast(execution.history, {WorkflowExecutionCompleted}).None?
    ensures var e := HistoryDetails(execution).value.entries;
      Get(e, Sym("status")) == Some(Sym("open")) && Get(e, Sym("outcome")) == None
  {
    var open := (Sym("status"), Sym("open"));
    assert Details(execution) == [open];
    OneDetail(execution, open, Sym("status"));
    OneDetail(execution, open, Sym("outcome"));
    SummaryGet(execution, ParseInput(execution.history[0].attributes.input).value, Sym("outcome"));
  }

  /** With a single detail, a key takes the detail's value when it names
      it and the summary's otherwise. */
  lemma OneDetail(execution: WorkflowExecution, detail: (Value, Value), k: Value)
    requires HistoryDetails(execution).Ok? && Details(execution) == [detail]
    ensures Get(HistoryDetails(execution).value.entries, k) ==
      if detail.0 == k then Some(detail.1)
      else Get(Summary(execution, ParseInput(execution.history[0].attributes.input).value), k)
  {
    GetLastOne(detail, k);
  }

  /** With two details, a key takes the value of the last detail that
      names it, and the summary's when neither does. */
  lemma TwoDetails(execution: WorkflowExecution, first: (Value, Value), second: (Value, Value), k: Value)
    requires HistoryDetails(execution).Ok? && Details(execution) == [first, second]
    ensures Get(HistoryDetails(execution).value.entries, k) ==
      if second.0 == k then Some(second.1)
      else if first.0 == k then Some(first.1)
      else Get(Summary(execution, ParseInput(execution.history[0].attributes.input).value), k)
  {
    GetLastTwo(first, second, k);
  }

  /** An execution that failed reports the error and the exception its
      failure event's details name, and keeps its status. */
  lemma FailureReportsDetails(execution: WorkflowExecution, i: nat)
    requires execution.status != "open" && execution.status != "completed" && HistoryDetails(execution).Ok?
    requires FindLast(execution.history, TerminalEventTypesOnFailure) == Some(i)
    requires execution.history[i].eventType == WorkflowExecutionFailed
    ensures var e := HistoryDetails(execution).value.entries;
      var details := ParseAttribute(execution.history[i].attributes.details).entries;
      Get(e, Sym("error")) == Some(Fetch(details, Str("error"))) &&
      Get(e, Sym("exception")) == Some(Fetch(details, Str("exception"))) &&
      Get(e, Sym("status")) == Some(Sym(execution.status))
  {
    var details := ParseAttribute(execution.history[i].attributes.details).entries;
    var error := (Sym("error"), Fetch(details, Str("error")));
    var exception := (Sym("exception"), Fetch(details, Str("exception")));
    assert Details(execution) == [error, exception];
    TwoDetails(execution, error, exception, Sym("error"));
    TwoDetails(execution, error, exception, Sym("exception"));
    TwoDetails(execution, error, exception, Sym("status"));
    SummaryGet(execution, ParseInput(execution.history[0].attributes.input).value, Sym("status"));
  }

  /** An execution that timed out, was cancelled or was terminated reports
      that event type as its error and its exception. */
  lemma TerminationReportsEventType(execution: WorkflowExecution, i: nat)
    requires execution.status != "open" && execution.status != "completed" && HistoryDetails(execution).Ok?
    requires FindLast(execution.history, TerminalEventTypesOnFailure) == Some(i)
    requires execution.history[i].eventType != WorkflowExecutionFailed
    ensures var e := HistoryDetails(execution).value.entries;
      Get(e, Sym("error")) == Some(Str(execution.history[i].eventType)) &&
      Get(e, Sym("exception")) == Some(Str(execution.history[i].eventType))
  {
    var eventType := Str(execution.history[i].eventType);
    var error := (Sym("error"), eventType);
    var exception := (Sym("exception"), eventType);
    assert Details(execution) == [error, exception];
    TwoDetails(execution, error, exception, Sym("error"));
    TwoDetails(execution, error, exception, Sym("exception"));
  }

  /** With no terminal event the summary carries only a generic error
      naming the status, and no exception. */
  lemma NoTerminalEventGenericError(execution: WorkflowExecution)
    requires execution.status != "open" && execution.status != "completed" && HistoryDetails(execution).Ok?
    requires FindLast(execution.history, TerminalEventTypesOnFailure).None?
    ensures var e := HistoryDetails(execution).value.entries;
      Get(e, Sym("error")) == Some(Str(NoDetailsMessage(execution.status))) &&
      Get(e, Sym("exception")) == None
  {
    var error := (Sym("error"), Str(NoDetailsMessage(execution.status)));
    assert Details(execution) == [error];
    OneDetail(execution, error, Sym("error"));
    OneDetail(execution, error, Sym("exception"));
    SummaryGet(execution, ParseInput(execution.history[0].attributes.input).value, Sym("exception"));
  }
}
