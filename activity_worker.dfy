/**
 * The activity side (Ntswf::ActivityWorker). The configured callback is
 * given a description of the task (its input options with symbol keys, plus
 * the task itself and its execution's ids) and answers with a hash; the
 * worker turns the answer into exactly one report to the service: complete
 * the task with the hash as JSON, or fail it. Anything the callback or the
 * description raises (a StandardError) is notified and then reported as a
 * failure with reason "Exception".
 *
 * `SingleTaskOutcome` says what processing one task does, as an ordered
 * trace of notifications and reports; the `ActivityWorker` methods make the
 * same changes to a task and to the worker.
 */
module Activities {
  import opened RubyValues
  import opened Json
  import opened Base
  import opened Worker
  import Decisions
  import History

  /** What the worker tells the service about a task: `complete!` with a
      result text, or `fail!` with a details text and a reason. */
  datatype Report = Completion(result: Text) | Failure(details: Text, reason: string)

  /** What the task callback does with the description it is given. */
  datatype Reply = Returned(value: Value) | Raised(exception: Exception)

  /** One step of processing a task, in the order it happens. */
  datatype Step = Notifying(notification: Notification) | Reporting(report: Report)

  /** The steps processing a task takes, and what it raises at the end. */
  datatype Outcome = Outcome(steps: seq<Step>, raised: Option<Exception>)

  /** The reports among the steps, in order. */
  function ReportsIn(steps: seq<Step>): (r: seq<Report>)
    ensures |r| <= |steps|
    ensures forall report :: report in r <==> Reporting(report) in steps
  {
    if steps == [] then []
    else (if steps[0].Reporting? then [steps[0].report] else []) + ReportsIn(steps[1..])
  }

  /** The notifications among the steps, in order. */
  function NotificationsIn(steps: seq<Step>): (r: seq<Notification>)
    ensures |r| <= |steps|
    ensures forall n :: n in r <==> Notifying(n) in steps
  {
    if steps == [] then []
    else (if steps[0].Notifying? then [steps[0].notification] else []) + NotificationsIn(steps[1..])
  }

  // ---------------------------------------------------------------------
  // The activity task list

  function InvalidArgument(message: string): Exception {
    Exception("Ntswf::Errors::InvalidArgument", message, true)
  }

  /** ActivityWorker#activity_task_list: the default unit's list, or an
      InvalidArgument error naming the unit. */
  function WorkerTaskList(cfg: Config): (r: Result<Value>)
    ensures r.Ok? <==> cfg.activityTaskLists.Hash? && Truthy(Fetch(cfg.activityTaskLists.entries, Str(DefaultUnit(cfg))))
    ensures r.Ok? ==> r.value == Fetch(cfg.activityTaskLists.entries, Str(DefaultUnit(cfg)))
    ensures cfg.activityTaskLists.Hash? && r.Err? ==>
      r.error == InvalidArgument("Missing activity task list configuration for default unit '" + DefaultUnit(cfg) + "'")
  {
    var list :- LookUpActivityTaskList(cfg, Str(DefaultUnit(cfg)));
    if Truthy(list) then Ok(list)
    else Err(InvalidArgument("Missing activity task list configuration for default unit '" + DefaultUnit(cfg) + "'"))
  }

  // ---------------------------------------------------------------------
  // Describing a task

  /** The task object itself, as the callback sees it. */
  const ActivityTaskObject := Object("AWS::SimpleWorkflow::ActivityTask")

  /** `k.to_sym` on a key of the options hash. */
  function Symbolise(k: Value): (r: Value)
    ensures k.Str? ==> r == Sym(k.s)
    ensures !k.Str? ==> r == k
  {
    if k.Str? then Sym(k.s) else k
  }

  function SymbolisedPairs(pairs: seq<(Value, Value)>): (r: seq<(Value, Value)>)
    ensures |r| == |pairs|
    ensures forall i :: 0 <= i < |r| ==> r[i] == (Symbolise(pairs[i].0), pairs[i].1)
  {
    seq(|pairs|, i requires 0 <= i < |pairs| => (Symbolise(pairs[i].0), pairs[i].1))
  }

  predicate Extra(name: string) {
    name == "activity_task" || name == "run_id" || name == "workflow_id"
  }

  /** The options with the task and its execution's ids merged in. */
  function Merged(entries: seq<(Value, Value)>, runId: string, workflowId: string): seq<(Value, Value)> {
    Put(Put(Put(entries, Sym("activity_task"), ActivityTaskObject), Sym("run_id"), Str(runId)),
        Sym("workflow_id"), Str(workflowId))
  }

  /** ActivityWorker#describe: the task's input options, with the task, its
      run id and its workflow id added under symbol keys that take
      precedence over same-named options, and every key a symbol. */
  function Describe(input: Option<Text>, runId: string, workflowId: string): (r: Result<Value>)
    ensures r.Ok? <==> ParseInput(input).Ok?
    ensures r.Err? ==> r.error == ParseInput(input).error
    ensures r.Ok? ==> r.value.Hash? && (forall i :: 0 <= i < |r.value.entries| ==> r.value.entries[i].0.Sym?)
    ensures r.Ok? ==> Get(r.value.entries, Sym("activity_task")) == Some(ActivityTaskObject)
    ensures r.Ok? ==> Get(r.value.entries, Sym("run_id")) == Some(Str(runId))
    ensures r.Ok? ==> Get(r.value.entries, Sym("workflow_id")) == Some(Str(workflowId))
    ensures r.Ok? ==> forall k :: !Extra(k) ==>
      Get(r.value.entries, Sym(k)) == GetLast(ParseInput(input).value.entries, Str(k))
  {
    var options :- ParseInput(input);
    assert JsonPairs(options.entries);
    var described := MergePairs(SymbolisedPairs(Merged(options.entries, runId, workflowId)));
    DescribedKeys(options.entries, runId, workflowId);
    Ok(Hash(described))
  }

  // ---------------------------------------------------------------------
  // Reports

  /** `{error: message}.to_json` and friends: the JSON text of a hash of
      string fields. */
  function ErrorDetails(error: string): (t: Text)
    ensures Parse(Some(t)) == Ok(Hash([(Str("error"), Str(error))]))
  {
    var fields := [(Sym("error"), Str(error))];
    NormaliseFields(fields);
    assert seq(|fields|, i requires 0 <= i < |fields| => (Str(fields[i].0.name), fields[i].1)) == [(Str("error"), Str(error))];
    Dump(Hash(fields))
  }

  function CallbackFailure(result: Value): Exception {
    RuntimeError("task callback returned " + ClassName(result) + " instead of Hash")
  }

  /** ActivityWorker#process_result: what the callback's answer is reported
      as. No answer (nil or false) completes the task with "{}"; a hash with
      an :error key fails it, with reason "Retry" when :seconds_until_retry
      is truthy and "Error" otherwise, and details holding the error's text
      cut to 1000 characters; any other hash completes the task with its
      JSON; anything else raises. */
  function ResultReport(result: Value): (r: Result<Report>)
    ensures r.Err? <==> Truthy(result) && !result.Hash?
    ensures r.Err? ==> r.error == CallbackFailure(result)
    ensures !Truthy(result) ==> r == Ok(Completion(Encoded(Hash([]))))
    ensures result.Hash? && Get(result.entries, Sym("error")).Some? ==>
      r.Ok? && r.value.Failure? &&
      r.value.reason == (if Truthy(Fetch(result.entries, Sym("seconds_until_retry"))) then Retry else "Error") &&
      Parse(Some(r.value.details)) == Ok(Hash([(Str("error"), Str(Prefix(ToS(Fetch(result.entries, Sym("error"))), 1000)))]))
    ensures result.Hash? && Get(result.entries, Sym("error")).None? ==>
      r.Ok? && r.value.Completion? && Parse(Some(r.value.result)) == Ok(Normalise(result))
  {
    var answer := if Truthy(result) then result else Hash([]);
    if !answer.Hash? then Err(CallbackFailure(answer))
    else if Get(answer.entries, Sym("error")).Some? then
      var reason := if Truthy(Fetch(answer.entries, Sym("seconds_until_retry"))) then Retry else "Error";
      Ok(Failure(ErrorDetails(Prefix(ToS(Fetch(answer.entries, Sym("error"))), 1000)), reason))
    else
      assert Normalise(Hash([])) == Hash([]) by {
        assert MergePairs([]) == [];
      }
      Ok(Completion(Dump(answer)))
  }

  /** The `fail!` report of ActivityWorker#fail_with_exception: reason
      "Exception", details naming the message and the class, each cut to
      1000 characters. */
  function ExceptionReport(e: Exception): (r: Report)
    ensures r.Failure? && r.reason == "Exception"
    ensures Parse(Some(r.details)) ==
      Ok(Hash([(Str("error"), Str(Prefix(e.message, 1000))), (Str("exception"), Str(Prefix(e.className, 1000)))]))
  {
    var message := Str(Prefix(e.message, 1000));
    var className := Str(Prefix(e.className, 1000));
    var fields := [(Sym("error"), message), (Sym("exception"), className)];
    NormaliseFields(fields);
    assert seq(|fields|, i requires 0 <= i < |fields| => (Str(fields[i].0.name), fields[i].1)) ==
           [(Str("error"), message), (Str("exception"), className)];
    Failure(Dump(Hash(fields)), "Exception")
  }

  function ExceptionNotification(e: Exception, activityType: string, input: Option<Text>): Notification {
    Notification(ExceptionNotice(e), ActivityContext(activityType, input))
  }

  // ---------------------------------------------------------------------
  // Processing a task

  /** What the callback answers for the task, if one is set; with no
      callback the answer is nil. */
  function CallbackResult(callback: Option<Value -> Reply>, input: Option<Text>, runId: string, workflowId: string)
    : (r: Result<Value>)
    ensures callback.None? ==> r == Ok(Nil)
    ensures callback.Some? && Describe(input, runId, workflowId).Err? ==> r == Err(Describe(input, runId, workflowId).error)
  {
    match callback
    case None => Ok(Nil)
    case Some(call) =>
      var description :- Describe(input, runId, workflowId);
      match call(description)
      case Returned(v) => Ok(v)
      case Raised(e) => Err(e)
  }

  /** What becomes of the callback's answer (or of what was raised on the
      way to it): one report, preceded by a notification when a
      StandardError is rescued; an exception of another kind is raised with
      nothing reported. */
  function ResultOutcome(result: Result<Value>, activityType: string, input: Option<Text>): (r: Outcome)
    ensures r.raised.None? ==> |ReportsIn(r.steps)| == 1 && r.steps[|r.steps| - 1].Reporting?
    ensures r.raised.None? ==> forall i :: 0 <= i < |r.steps| - 1 ==> r.steps[i].Notifying?
    ensures r.raised.Some? ==> r.steps == [] && !r.raised.value.standard
  {
    var reported := (var answer :- result; ResultReport(answer));
    match reported
    case Ok(report) =>
      assert ReportsIn([Reporting(report)]) == [report];
      Outcome([Reporting(report)], None)
    case Err(e) =>
      if e.standard then
        var steps := [Notifying(ExceptionNotification(e, activityType, input)), Reporting(ExceptionReport(e))];
        assert steps[1..] == [Reporting(ExceptionReport(e))];
        assert ReportsIn(steps) == [ExceptionReport(e)];
        Outcome(steps, None)
      else Outcome([], Some(e))
  }

  /** ActivityWorker#process_single_task: exactly one report and no
      exception, or an exception other than a StandardError and no report;
      any notification comes before the report. */
  function SingleTaskOutcome(callback: Option<Value -> Reply>, input: Option<Text>, activityType: string,
                             runId: string, workflowId: string): (r: Outcome)
    ensures r.raised.None? ==> |ReportsIn(r.steps)| == 1 && r.steps[|r.steps| - 1].Reporting?
    ensures r.raised.None? ==> forall i :: 0 <= i < |r.steps| - 1 ==> r.steps[i].Notifying?
    ensures r.raised.Some? ==> r.steps == [] && !r.raised.value.standard
  {
    ResultOutcome(CallbackResult(callback, input, runId, workflowId), activityType, input)
  }

  /** An activity task as the worker sees it: its input, how its activity
      type inspects, its execution's ids, and the reports made on it. */
  class ActivityTask {
    const input: Option<Text>
    const activityType: string
    const runId: string
    const workflowId: string
    var reports: seq<Report>

    constructor(input: Option<Text>, activityType: string, runId: string, workflowId: string)
      ensures this.input == input && this.activityType == activityType
      ensures this.runId == runId && this.workflowId == workflowId
      ensures reports == []
    {
      this.input := input;
      this.activityType := activityType;
      this.runId := runId;
      this.workflowId := workflowId;
      reports := [];
    }

    /** ActivityTask#complete!. */
    method Complete(result: Text)
      modifies this
      ensures reports == old(reports) + [Completion(result)]
    {
      reports := reports + [Completion(result)];
    }

    /** ActivityTask#fail!. */
    method Fail(details: Text, reason: string)
      modifies this
      ensures reports == old(reports) + [Failure(details, reason)]
    {
      reports := reports + [Failure(details, reason)];
    }
  }

  class ActivityWorker {
    const config: Config
    var taskCallback: Option<Value -> Reply>
    var notifications: seq<Notification>
    /** Every notification and report, in order. */
    ghost var trace: seq<Step>

    constructor(config: Config)
      ensures this.config == config && taskCallback == None
      ensures notifications == [] && trace == []
    {
      this.config := config;
      taskCallback := None;
      notifications := [];
      trace := [];
    }

    /** The effect of `steps` on the task's reports, the worker's
        notifications and the trace. */
    ghost predicate Records(task: ActivityTask, trace0: seq<Step>, reports0: seq<Report>,
                            notifications0: seq<Notification>, steps: seq<Step>)
      reads this, task
    {
      trace == trace0 + steps && task.reports == reports0 + ReportsIn(steps) &&
      notifications == notifications0 + NotificationsIn(steps)
    }

    /** ActivityWorker#on_activity. */
    method OnActivity(callback: Option<Value -> Reply>)
      modifies this
      ensures taskCallback == callback
      ensures notifications == old(notifications) && trace == old(trace)
    {
      taskCallback := callback;
    }

    /** Base#notify. */
    method Notify(n: Notification)
      modifies this
      ensures notifications == old(notifications) + [n] && trace == old(trace) + [Notifying(n)]
      ensures taskCallback == old(taskCallback)
    {
      notifications := notifications + [n];
      trace := trace + [Notifying(n)];
    }

    method Send(task: ActivityTask, report: Report)
      modifies this, task
      ensures Records(task, old(trace), old(task.reports), old(notifications), [Reporting(report)])
      ensures taskCallback == old(taskCallback)
    {
      match report {
        case Completion(result) => task.Complete(result);
        case Failure(details, reason) => task.Fail(details, reason);
      }
      trace := trace + [Reporting(report)];
      assert ReportsIn([Reporting(report)]) == [report];
    }

    /** ActivityWorker#process_result. */
    method ProcessResult(task: ActivityTask, result: Value) returns (raised: Option<Exception>)
      modifies this, task
      ensures ResultReport(result).Ok? ==>
        raised.None? && Records(task, old(trace), old(task.reports), old(notifications), [Reporting(ResultReport(result).value)])
      ensures ResultReport(result).Err? ==>
        raised == Some(ResultReport(result).error) &&
        trace == old(trace) && task.reports == old(task.reports) && notifications == old(notifications)
      ensures taskCallback == old(taskCallback)
    {
      var answer := if Truthy(result) then result else Hash([]);
      if !answer.Hash? {
        return Some(CallbackFailure(answer));
      }
      if Get(answer.entries, Sym("error")).Some? {
        var reason := if Truthy(Fetch(answer.entries, Sym("seconds_until_retry"))) then Retry else "Error";
        Send(task, Failure(ErrorDetails(Prefix(ToS(Fetch(answer.entries, Sym("error"))), 1000)), reason));
      } else {
        Send(task, Completion(Dump(answer)));
      }
      raised := None;
    }

    /** ActivityWorker#fail_with_exception: notify, then fail the task. */
    method FailWithException(task: ActivityTask, e: Exception)
      modifies this, task
      ensures Records(task, old(trace), old(task.reports), old(notifications),
                      [Notifying(ExceptionNotification(e, task.activityType, task.input)), Reporting(ExceptionReport(e))])
      ensures taskCallback == old(taskCallback)
    {
      var n := ExceptionNotification(e, task.activityType, task.input);
      Notify(n);
      Send(task, ExceptionReport(e));
      ghost var steps := [Notifying(n), Reporting(ExceptionReport(e))];
      assert steps[1..] == [Reporting(ExceptionReport(e))];
      assert ReportsIn(steps) == [ExceptionReport(e)];
      assert NotificationsIn(steps) == [n];
    }

    /** The `rescue` clause of ActivityWorker#process_single_task: a
        StandardError fails the task, any other exception propagates. */
    method Rescue(task: ActivityTask, e: Exception) returns (raised: Option<Exception>)
      modifies this, task
      ensures e.standard ==> (raised.None? &&
        Records(task, old(trace), old(task.reports), old(notifications),
                [Notifying(ExceptionNotification(e, task.activityType, task.input)), Reporting(ExceptionReport(e))]))
      ensures !e.standard ==> (raised == Some(e) &&
        trace == old(trace) && task.reports == old(task.reports) && notifications == old(notifications))
      ensures taskCallback == old(taskCallback)
    {
      if e.standard {
        FailWithException(task, e);
        return None;
      }
      return Some(e);
    }

    /** The `process_result` call of ActivityWorker#process_single_task
        and its `rescue` clause. */
    method ReportOrRescue(task: ActivityTask, result: Result<Value>) returns (raised: Option<Exception>)
      modifies this, task
      ensures var outcome := ResultOutcome(result, task.activityType, task.input);
        raised == outcome.raised && Records(task, old(trace), old(task.reports), old(notifications), outcome.steps)
      ensures taskCallback == old(taskCallback)
    {
      if result.Ok? {
        raised := ProcessResult(task, result.value);
        if raised.Some? {
          raised := Rescue(task, raised.value);
        }
      } else {
        raised := Rescue(task, result.error);
      }
    }

    /** ActivityWorker#process_single_task. */
    method ProcessSingleTask(task: ActivityTask) returns (raised: Option<Exception>)
      modifies this, task
      ensures var outcome := SingleTaskOutcome(old(taskCallback), task.input, task.activityType, task.runId, task.workflowId);
        raised == outcome.raised && Records(task, old(trace), old(task.reports), old(notifications), outcome.steps)
      ensures taskCallback == old(taskCallback)
    {
      var result := CallbackResult(taskCallback, task.input, task.runId, task.workflowId);
      raised := ReportOrRescue(task, result);
    }
  }

  // ---------------------------------------------------------------------
  // Properties of describe

  lemma {:induction false} GetLastAppend(p: seq<(Value, Value)>, q: seq<(Value, Value)>, key: Value)
    ensures GetLast(p + q, key) == if GetLast(q, key).Some? then GetLast(q, key) else GetLast(p, key)
    decreases |q|
  {
    if q == [] {
      assert p + q == p;
    } else {
      var front := q[..|q| - 1];
      assert (p + q)[..|p + q| - 1] == p + front;
      GetLastAppend(p, front, key);
    }
  }

  lemma {:induction false} GetLastSymbolised(pairs: seq<(Value, Value)>, name: string)
    requires forall i :: 0 <= i < |pairs| ==> pairs[i].0.Str?
    ensures GetLast(SymbolisedPairs(pairs), Sym(name)) == GetLast(pairs, Str(name))
    decreases |pairs|
  {
    if pairs != [] {
      var front := pairs[..|pairs| - 1];
      assert SymbolisedPairs(pairs)[..|pairs| - 1] == SymbolisedPairs(front);
      GetLastSymbolised(front, name);
    }
  }

  function Extras(runId: string, workflowId: string): seq<(Value, Value)> {
    [(Sym("activity_task"), ActivityTaskObject), (Sym("run_id"), Str(runId)), (Sym("workflow_id"), Str(workflowId))]
  }

  /** A JSON options hash has no symbol key. */
  lemma NoSymbolKeys(entries: seq<(Value, Value)>, name: string)
    requires JsonPairs(entries)
    ensures forall i :: 0 <= i < |entries| ==> entries[i].0 != Sym(name)
  {
    assert forall i :: 0 <= i < |entries| ==> entries[i].0.Str?;
  }

  /** None of the three keys is in a JSON options hash, so merging them in
      appends them. */
  lemma MergedAppends(entries: seq<(Value, Value)>, runId: string, workflowId: string)
    requires JsonPairs(entries)
    ensures Merged(entries, runId, workflowId) == entries + Extras(runId, workflowId)
  {
    var a := (Sym("activity_task"), ActivityTaskObject);
    var b := (Sym("run_id"), Str(runId));
    var c := (Sym("workflow_id"), Str(workflowId));
    NoSymbolKeys(entries, "activity_task");
    NoSymbolKeys(entries, "run_id");
    NoSymbolKeys(entries, "workflow_id");
    PutAppends(entries, a.0, a.1);
    AppendLacks(entries, a, b.0);
    AppendLacks(entries, a, c.0);
    PutAppends(entries + [a], b.0, b.1);
    AppendLacks(entries + [a], b, c.0);
    PutAppends(entries + [a] + [b], c.0, c.1);
    AppendThree(entries, a, b, c);
  }

  lemma SymbolisedExtras(entries: seq<(Value, Value)>, runId: string, workflowId: string)
    ensures SymbolisedPairs(entries + Extras(runId, workflowId)) == SymbolisedPairs(entries) + Extras(runId, workflowId)
  {
    var extras := Extras(runId, workflowId);
    var all := entries + extras;
    assert forall i :: |entries| <= i < |all| ==> all[i] == extras[i - |entries|];
  }

  lemma ExtrasLast(runId: string, workflowId: string, k: string)
    ensures GetLast(Extras(runId, workflowId), Sym(k)) ==
      if k == "workflow_id" then Some(Str(workflowId))
      else if k == "run_id" then Some(Str(runId))
      else if k == "activity_task" then Some(ActivityTaskObject)
      else None
  {
    var extras := Extras(runId, workflowId);
    var key := Sym(k);
    var e2 := extras[..2];
    var e1 := e2[..1];
    assert e2 == [(Sym("activity_task"), ActivityTaskObject), (Sym("run_id"), Str(runId))];
    assert e1 == [(Sym("activity_task"), ActivityTaskObject)];
    assert e1[..0] == [];
    assert GetLast(e1, key) == if k == "activity_task" then Some(ActivityTaskObject) else GetLast(e1[..0], key);
    assert GetLast(e2, key) == if k == "run_id" then Some(Str(runId)) else GetLast(e1, key);
    assert GetLast(extras, key) == if k == "workflow_id" then Some(Str(workflowId)) else GetLast(e2, key);
  }

  lemma SymbolKeys(entries: seq<(Value, Value)>, runId: string, workflowId: string)
    requires JsonPairs(entries)
    ensures var r := MergePairs(SymbolisedPairs(entries) + Extras(runId, workflowId));
      forall i :: 0 <= i < |r| ==> r[i].0.Sym?
  {
    var p := SymbolisedPairs(entries);
    var extras := Extras(runId, workflowId);
    var symbolised := p + extras;
    assert forall j :: 0 <= j < |symbolised| ==> symbolised[j].0.Sym? by {
      forall j | 0 <= j < |symbolised| ensures symbolised[j].0.Sym? {
        if j < |p| {
          assert symbolised[j] == p[j];
        } else {
          assert symbolised[j] == extras[j - |p|];
        }
      }
    }
    var r := MergePairs(symbolised);
    forall i | 0 <= i < |r| ensures r[i].0.Sym? {
      assert r[i] in symbolised;
    }
  }

  /** The keys `describe` produces from a JSON options hash. */
  lemma DescribedKeys(entries: seq<(Value, Value)>, runId: string, workflowId: string)
    requires JsonPairs(entries)
    ensures var r := MergePairs(SymbolisedPairs(Merged(entries, runId, workflowId)));
      (forall i :: 0 <= i < |r| ==> r[i].0.Sym?) &&
      Get(r, Sym("activity_task")) == Some(ActivityTaskObject) &&
      Get(r, Sym("run_id")) == Some(Str(runId)) &&
      Get(r, Sym("workflow_id")) == Some(Str(workflowId)) &&
      forall k :: !Extra(k) ==> Get(r, Sym(k)) == GetLast(entries, Str(k))
  {
    var extras := Extras(runId, workflowId);
    MergedAppends(entries, runId, workflowId);
    SymbolisedExtras(entries, runId, workflowId);
    var p := SymbolisedPairs(entries);
    assert SymbolisedPairs(Merged(entries, runId, workflowId)) == p + extras;
    SymbolKeys(entries, runId, workflowId);
    var r := MergePairs(p + extras);
    GetLastAppend(p, extras, Sym("activity_task"));
    ExtrasLast(runId, workflowId, "activity_task");
    GetLastAppend(p, extras, Sym("run_id"));
    ExtrasLast(runId, workflowId, "run_id");
    GetLastAppend(p, extras, Sym("workflow_id"));
    ExtrasLast(runId, workflowId, "workflow_id");
    forall k | !Extra(k) ensures Get(r, Sym(k)) == GetLast(entries, Str(k)) {
      GetLastAppend(p, extras, Sym(k));
      ExtrasLast(runId, workflowId, k);
      GetLastSymbolised(entries, k);
    }
  }

  // ---------------------------------------------------------------------
  // Properties of processing a task

  /** With no callback the task is completed with an empty JSON object. */
  lemma NoCallbackCompletesEmpty(input: Option<Text>, activityType: string, runId: string, workflowId: string)
    ensures SingleTaskOutcome(None, input, activityType, runId, workflowId) ==
      Outcome([Reporting(Completion(Encoded(Hash([]))))], None)
  {
  }

  /** A callback answering with something other than a hash fails the task
      with reason "Exception", after notifying the RuntimeError that names
      the answer's class. */
  lemma NonHashAnswerFails(call: Value -> Reply, input: Option<Text>, activityType: string, runId: string, workflowId: string)
    requires Describe(input, runId, workflowId).Ok?
    requires call(Describe(input, runId, workflowId).value).Returned?
    requires var v := call(Describe(input, runId, workflowId).value).value; Truthy(v) && !v.Hash?
    ensures var v := call(Describe(input, runId, workflowId).value).value;
      var e := CallbackFailure(v);
      SingleTaskOutcome(Some(call), input, activityType, runId, workflowId) ==
        Outcome([Notifying(ExceptionNotification(e, activityType, input)), Reporting(ExceptionReport(e))], None) &&
      e.message == "task callback returned " + ClassName(v) + " instead of Hash"
  {
  }

  /** A StandardError raised by the callback is notified first, then the
      task is failed with its message and class. */
  lemma RaisingCallbackFails(call: Value -> Reply, input: Option<Text>, activityType: string, runId: string, workflowId: string)
    requires Describe(input, runId, workflowId).Ok?
    requires call(Describe(input, runId, workflowId).value).Raised?
    requires call(Describe(input, runId, workflowId).value).exception.standard
    ensures var e := call(Describe(input, runId, workflowId).value).exception;
      SingleTaskOutcome(Some(call), input, activityType, runId, workflowId) ==
        Outcome([Notifying(ExceptionNotification(e, activityType, input)), Reporting(ExceptionReport(e))], None)
  {
    var e := call(Describe(input, runId, workflowId).value).exception;
    assert CallbackResult(Some(call), input, runId, workflowId) == Err(e);
  }

  /** An input that cannot be described still produces a report: the
      parse error is notified and the task failed. */
  lemma UndescribableInputFails(call: Value -> Reply, input: Option<Text>, activityType: string, runId: string, workflowId: string)
    requires !(input.Some? && input.value.Encoded?)
    ensures var e := ParseInput(input).error;
      SingleTaskOutcome(Some(call), input, activityType, runId, workflowId) ==
        Outcome([Notifying(ExceptionNotification(e, activityType, input)), Reporting(ExceptionReport(e))], None)
  {
  }

  /** A callback answering nil or false completes the task with an empty
      JSON object, as if there were no callback. */
  lemma FalsyAnswerCompletesEmpty(call: Value -> Reply, input: Option<Text>, activityType: string, runId: string, workflowId: string)
    requires Describe(input, runId, workflowId).Ok?
    requires call(Describe(input, runId, workflowId).value).Returned?
    requires !Truthy(call(Describe(input, runId, workflowId).value).value)
    ensures SingleTaskOutcome(Some(call), input, activityType, runId, workflowId) ==
      Outcome([Reporting(Completion(Encoded(Hash([]))))], None)
  {
  }

  /** An exception other than a StandardError raised by the callback is
      raised again as it is, with nothing notified or reported. */
  lemma NonStandardRaisePropagates(call: Value -> Reply, input: Option<Text>, activityType: string, runId: string, workflowId: string)
    requires Describe(input, runId, workflowId).Ok?
    requires call(Describe(input, runId, workflowId).value).Raised?
    requires !call(Describe(input, runId, workflowId).value).exception.standard
    ensures SingleTaskOutcome(Some(call), input, activityType, runId, workflowId) ==
      Outcome([], Some(call(Describe(input, runId, workflowId).value).exception))
  {
    var e := call(Describe(input, runId, workflowId).value).exception;
    assert CallbackResult(Some(call), input, runId, workflowId) == Err(e);
  }

  /** A hash answer is reported as it is: failed when it has :error,
      completed with all of it otherwise, and never notified. */
  lemma HashAnswerReported(call: Value -> Reply, input: Option<Text>, activityType: string, runId: string, workflowId: string)
    requires Describe(input, runId, workflowId).Ok?
    requires call(Describe(input, runId, workflowId).value).Returned?
    requires call(Describe(input, runId, workflowId).value).value.Hash?
    ensures var v := call(Describe(input, runId, workflowId).value).value;
      SingleTaskOutcome(Some(call), input, activityType, runId, workflowId) ==
        Outcome([Reporting(ResultReport(v).value)], None)
  {
  }

  // ---------------------------------------------------------------------
  // How reports reach the decision engine

  /** A completion whose hash holds :seconds_until_retry => n (and no other
      key with that name) makes the decision worker start an n-second
      timer when the completion event arrives. */
  lemma RetrySecondsStartTimer(result: Value, i: nat, n: nat, cfg: Config, history: seq<History.Event>,
                               event: History.Event, execution: string)
    requires result.Hash? && Get(result.entries, Sym("error")).None?
    requires i < |result.entries| && result.entries[i] == (Sym("seconds_until_retry"), Int(n))
    requires forall j :: 0 <= j < |result.entries| && j != i ==> ToS(result.entries[j].0) != "seconds_until_retry"
    requires event.eventType == Decisions.ActivityTaskCompleted
    requires event.attributes.result == Some(Dump(result))
    ensures ResultReport(result) == Ok(Completion(Dump(result)))
    ensures Decisions.EventEffect(cfg, history, event, execution) ==
      Decisions.Effect([Decisions.Decided(Decisions.StartTimer(n))], None)
  {
    DumpKeepsKey(result.entries, i);
    Decisions.CompletedRetrySeconds(cfg, history, event, execution, n);
  }

  /** A failure the callback asks to retry (:error with a truthy
      :seconds_until_retry) carries reason "Retry", which makes the
      decision worker schedule the activity again rather than fail the
      execution. */
  lemma RetryErrorReschedules(result: Value, cfg: Config, history: seq<History.Event>,
                              event: History.Event, execution: string)
    requires result.Hash? && Get(result.entries, Sym("error")).Some?
    requires Truthy(Fetch(result.entries, Sym("seconds_until_retry")))
    requires event.eventType == Decisions.ActivityTaskFailed
    requires event.attributes.reason == Some(ResultReport(result).value.reason)
    ensures ResultReport(result).value.reason == Retry
    ensures Decisions.EventEffect(cfg, history, event, execution) ==
      Decisions.Deciding(Decisions.RescheduleDecision(cfg, history))
  {
  }
}
