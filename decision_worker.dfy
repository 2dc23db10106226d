/**
 * The decision engine (Ntswf::DecisionWorker). A decision task carries the
 * execution's whole history (`events`) and the events that are new since the
 * last decision (`new_events`). The worker walks the new events in order and
 * turns each into at most one decision on the task, reading only the event
 * itself and the first history event, which holds the execution's start
 * input.
 *
 * `EventEffect` and `Run` say what processing does, as an ordered trace of
 * decisions and notifications plus the exception raised, if any; the
 * `DecisionWorker` methods make the same changes to a task step by step.
 */
module Decisions {
  import opened RubyValues
  import opened Json
  import opened Base
  import opened Worker
  import opened History

  // ---------------------------------------------------------------------
  // Event types

  const WorkflowExecutionStarted := "WorkflowExecutionStarted"
  const TimerFired := "TimerFired"
  const ActivityTaskCompleted := "ActivityTaskCompleted"
  const ActivityTaskFailed := "ActivityTaskFailed"
  const ActivityTaskTimedOut := "ActivityTaskTimedOut"

  predicate Handled(eventType: string) {
    eventType in {WorkflowExecutionStarted, TimerFired, ActivityTaskCompleted, ActivityTaskFailed, ActivityTaskTimedOut}
  }

  // ---------------------------------------------------------------------
  // Decisions

  datatype ActivityType = ActivityType(name: string, version: string)

  datatype Decision =
    | ScheduleActivityTask(activityType: ActivityType, heartbeatTimeout: Value, input: Text, taskList: Value,
                           scheduleToCloseTimeout: int, scheduleToStartTimeout: int, startToCloseTimeout: int)
    | StartTimer(seconds: int)
    | CompleteWorkflowExecution(result: Text)
    | FailWorkflowExecution(details: Option<Text>, reason: Option<string>)
    | CancelWorkflowExecution(cancelDetails: string)
    | ContinueAsNewWorkflowExecution(childPolicy: Option<Value>, executionStartToCloseTimeout: Option<Value>,
                                     continueInput: Option<Text>, tagList: Option<Value>,
                                     continueTaskList: Option<Value>, taskStartToCloseTimeout: Option<Value>)

  /** One step of the engine, in the order it happens. */
  datatype Action = Decided(decision: Decision) | Notified(notification: Notification)

  /** The steps a piece of processing takes, and what it raises at the end. */
  datatype Effect = Effect(actions: seq<Action>, raised: Option<Exception>)

  function DecisionsOf(actions: seq<Action>): (r: seq<Decision>)
    ensures |r| <= |actions|
  {
    if actions == [] then []
    else (if actions[0].Decided? then [actions[0].decision] else []) + DecisionsOf(actions[1..])
  }

  function NotificationsOf(actions: seq<Action>): (r: seq<Notification>)
    ensures |r| <= |actions|
  {
    if actions == [] then []
    else (if actions[0].Notified? then [actions[0].notification] else []) + NotificationsOf(actions[1..])
  }

  /** A step that makes one decision or raises. */
  function Deciding(d: Result<Decision>): (r: Effect)
    ensures d.Ok? ==> r == Effect([Decided(d.value)], None)
    ensures d.Err? ==> r == Effect([], Some(d.error))
  {
    match d
    case Ok(decision) => Effect([Decided(decision)], None)
    case Err(e) => Effect([], Some(e))
  }

  // ---------------------------------------------------------------------
  // The pure parts

  function LeadingWord(s: string): (r: string)
    ensures |r| <= |s| && r == s[..|r|]
    ensures forall i :: 0 <= i < |r| ==> IsWordChar(r[i])
    ensures |r| < |s| ==> !IsWordChar(s[|r|])
  {
    if s != [] && IsWordChar(s[0]) then
      var rest := LeadingWord(s[1..]);
      assert s[..|rest| + 1] == [s[0]] + s[1..][..|rest|];
      [s[0]] + rest
    else []
  }

  function SkipNonWord(s: string): (i: nat)
    ensures i <= |s|
    ensures forall j :: 0 <= j < i ==> !IsWordChar(s[j])
    ensures i < |s| ==> IsWordChar(s[i])
  {
    if s != [] && !IsWordChar(s[0]) then
      var i := SkipNonWord(s[1..]);
      assert forall j :: 1 <= j < i + 1 ==> s[j] == s[1..][j - 1];
      i + 1
    else 0
  }

  /** `w` is the first maximal run of word characters of `name`, at `i`. */
  predicate FirstWordAt(name: string, i: nat, w: string) {
    i + |w| <= |name| && name[i..i + |w|] == w &&
    (forall j :: 0 <= j < |w| ==> IsWordChar(w[j])) &&
    (forall j :: 0 <= j < i ==> !IsWordChar(name[j])) &&
    (i + |w| == |name| || !IsWordChar(name[i + |w|]))
  }

  /** `name[/\w+/]`: the first maximal run of word characters, nil when the
      name has none. */
  function GuessUnit(name: string): (r: Option<string>)
    ensures r.None? <==> forall j :: 0 <= j < |name| ==> !IsWordChar(name[j])
    ensures r.Some? ==> |r.value| > 0 && exists i :: FirstWordAt(name, i, r.value)
  {
    var i := SkipNonWord(name);
    if i == |name| then None
    else
      var w := LeadingWord(name[i..]);
      assert w[0] == name[i];
      assert name[i..i + |w|] == w;
      assert FirstWordAt(name, i, w);
      Some(w)
  }

  /** `options['unit'] || guess_app_from(event)`. */
  function AppInCharge(options: Value, event: Event): (r: Value)
    ensures Truthy(OptionValue(options, "unit")) ==> r == OptionValue(options, "unit")
    ensures !Truthy(OptionValue(options, "unit")) ==>
      (r.Str? <==> GuessUnit(event.workflowTypeName).Some?) && (r.Str? ==> r.s == GuessUnit(event.workflowTypeName).value) &&
      (!r.Str? ==> r == Nil)
  {
    var unit := OptionValue(options, "unit");
    if Truthy(unit) then unit
    else match GuessUnit(event.workflowTypeName)
      case Some(u) => Str(u)
      case None => Nil
  }

  const HeartbeatTimeout := Sym("none")
  const ScheduleToCloseTimeout := 12 * 3600
  const ScheduleToStartTimeout := 10 * 60
  const StartToCloseTimeout := 12 * 3600

  function MissingTaskListError(app: Value): Exception {
    RuntimeError("Missing activity task list config for " + Inspect(app))
  }

  /** The decision DecisionWorker#schedule makes for the event that provides
      the input. */
  function ScheduleDecision(cfg: Config, event: Event): (r: Result<Decision>)
    ensures r.Ok? <==>
      event.attributes.input.Some? && ParseInput(event.attributes.input).Ok? &&
      cfg.activityTaskLists.Hash? &&
      Truthy(Fetch(cfg.activityTaskLists.entries, AppInCharge(ParseInput(event.attributes.input).value, event)))
    ensures r.Ok? ==> r.value == ScheduleActivityTask(
      ActivityType(ActivityName(cfg), WorkflowVersion), Sym("none"), event.attributes.input.value,
      Fetch(cfg.activityTaskLists.entries, AppInCharge(ParseInput(event.attributes.input).value, event)),
      43200, 600, 43200)
    ensures (event.attributes.input.Some? && ParseInput(event.attributes.input).Ok? && cfg.activityTaskLists.Hash? &&
             r.Err?) ==> r.error == MissingTaskListError(AppInCharge(ParseInput(event.attributes.input).value, event))
  {
    var input :- Read(event.attributes.input, "input");
    var options :- ParseInput(Some(input));
    var app := AppInCharge(options, event);
    var taskList :- LookUpActivityTaskList(cfg, app);
    if !Truthy(taskList) then Err(MissingTaskListError(app))
    else
      Ok(ScheduleActivityTask(ActivityType(ActivityName(cfg), WorkflowVersion), HeartbeatTimeout, input, taskList,
                              ScheduleToCloseTimeout, ScheduleToStartTimeout, StartToCloseTimeout))
  }

  /** DecisionWorker#parse_result: the result's JSON object, or an empty
      hash when the result is not JSON or not an object. */
  function ParseResult(result: Text): (r: JsonValue)
    ensures r.Hash?
    ensures result.Encoded? && result.value.Hash? ==> r == result.value
    ensures !(result.Encoded? && result.value.Hash?) ==> r == Hash([])
  {
    match Parse(Some(result))
    case Ok(v) => if v.Hash? then v else Hash([])
    case Err(_) => Hash([])
  }

  /** The interval start_timer falls back to: the first event's `interval`
      option. */
  function OriginalInterval(history: seq<Event>): (r: Result<Value>)
    ensures r.Ok? <==> |history| > 0 && history[0].attributes.input.Some? && ParseInput(history[0].attributes.input).Ok?
    ensures r.Ok? ==> r.value == OptionValue(ParseInput(history[0].attributes.input).value, "interval")
  {
    var first :- FirstEvent(history);
    var input :- Read(first.attributes.input, "input");
    var options :- ParseInput(Some(input));
    Ok(OptionValue(options, "interval"))
  }

  /** DecisionWorker#start_timer: the interval in effect (the given one, or
      else the original one) and the timer started for it, which is one
      exactly when that interval is truthy. */
  function Timer(history: seq<Event>, interval: Value): (r: Result<(Option<Decision>, Value)>)
    ensures Truthy(interval) ==> r.Ok? ==> r.value.1 == interval
    ensures !Truthy(interval) ==> OriginalInterval(history).Err? ==> r == Err(OriginalInterval(history).error)
    ensures !Truthy(interval) ==> r.Ok? ==> r.value.1 == OriginalInterval(history).value
    ensures r.Ok? ==> (r.value.0.Some? <==> Truthy(r.value.1))
    ensures r.Ok? && r.value.0.Some? ==> ToI(r.value.1).Ok? && r.value.0.value == StartTimer(ToI(r.value.1).value)
    ensures Truthy(interval) ==> (r.Err? <==> ToI(interval).Err?)
  {
    var effective :- if Truthy(interval) then Ok(interval) else OriginalInterval(history);
    if Truthy(effective) then
      var seconds :- ToI(effective);
      Ok((Some(StartTimer(seconds)), effective))
    else Ok((None, effective))
  }

  /** The decision `retry_or_continue_as_new` makes for the first event:
      continue as new, copying six of its attributes, if the original
      options have an interval, else schedule the activity again. */
  function RetryOrContinueDecision(cfg: Config, original: Event): (r: Result<Decision>)
    ensures original.attributes.input.Some? && ParseInput(original.attributes.input).Ok? ==>
      var a := original.attributes;
      if Truthy(OptionValue(ParseInput(a.input).value, "interval")) then
        r == Ok(ContinueAsNewWorkflowExecution(a.childPolicy, a.executionStartToCloseTimeout, a.input,
                                               a.tagList, a.taskList, a.taskStartToCloseTimeout))
      else r == ScheduleDecision(cfg, original)
    ensures !(original.attributes.input.Some? && ParseInput(original.attributes.input).Ok?) ==> r.Err?
  {
    var a := original.attributes;
    var input :- Read(a.input, "input");
    var options :- ParseInput(Some(input));
    if Truthy(OptionValue(options, "interval")) then
      Ok(ContinueAsNewWorkflowExecution(a.childPolicy, a.executionStartToCloseTimeout, a.input,
                                        a.tagList, a.taskList, a.taskStartToCloseTimeout))
    else ScheduleDecision(cfg, original)
  }

  const TimeoutMessage := "Timeout in Simple Workflow. Possible cause: all workers busy"

  function TimeoutNotification(execution: string): Notification {
    Notification(MessageNotice(TimeoutMessage), ExecutionContext(execution))
  }

  /** `start_timer(task, interval) or <fallback>`: the timer, or else the
      fallback decision. */
  function TimerOr(history: seq<Event>, interval: Value, fallback: Decision): (r: Result<Decision>)
    ensures Timer(history, interval).Err? ==> r == Err(Timer(history, interval).error)
    ensures Timer(history, interval).Ok? ==>
      r == Ok(if Timer(history, interval).value.0.Some? then Timer(history, interval).value.0.value else fallback)
  {
    var timer :- Timer(history, interval);
    Ok(if timer.0.Some? then timer.0.value else fallback)
  }

  /** The first event, scheduled again. */
  function RescheduleDecision(cfg: Config, history: seq<Event>): (r: Result<Decision>)
    ensures |history| == 0 ==> r.Err?
    ensures |history| > 0 ==> r == ScheduleDecision(cfg, history[0])
  {
    var first :- FirstEvent(history);
    ScheduleDecision(cfg, first)
  }

  /** The `when 'TimerFired'` branch. */
  function TimerFiredDecision(cfg: Config, history: seq<Event>): (r: Result<Decision>)
    ensures |history| == 0 ==> r.Err?
    ensures |history| > 0 ==> r == RetryOrContinueDecision(cfg, history[0])
  {
    var original :- FirstEvent(history);
    RetryOrContinueDecision(cfg, original)
  }

  /** The `when 'ActivityTaskCompleted'` branch. */
  function CompletedEffect(history: seq<Event>, event: Event): (r: Effect)
    ensures |DecisionsOf(r.actions)| <= 1
  {
    match Read(event.attributes.result, "result")
    case Err(e) => Effect([], Some(e))
    case Ok(text) =>
      Deciding(TimerOr(history, OptionValue(ParseResult(text), "seconds_until_retry"), CompleteWorkflowExecution(text)))
  }

  /** The `when 'ActivityTaskFailed'` branch. */
  function FailedEffect(cfg: Config, history: seq<Event>, event: Event): (r: Effect)
    ensures |DecisionsOf(r.actions)| <= 1
  {
    match Read(event.attributes.reason, "reason")
    case Err(e) => Effect([], Some(e))
    case Ok(reason) =>
      if reason == Retry then Deciding(RescheduleDecision(cfg, history))
      else Deciding(TimerOr(history, Nil, FailWorkflowExecution(event.attributes.details, event.attributes.reason)))
  }

  /** The `when 'ActivityTaskTimedOut'` branch. */
  function TimedOutEffect(history: seq<Event>, execution: string): (r: Effect)
    ensures |DecisionsOf(r.actions)| <= 1
    ensures |r.actions| >= 1 && r.actions[0] == Notified(TimeoutNotification(execution))
  {
    var rest := Deciding(TimerOr(history, Nil, CancelWorkflowExecution("activity task timeout")));
    assert DecisionsOf([Notified(TimeoutNotification(execution))] + rest.actions) == DecisionsOf(rest.actions) by {
      assert ([Notified(TimeoutNotification(execution))] + rest.actions)[1..] == rest.actions;
    }
    Effect([Notified(TimeoutNotification(execution))] + rest.actions, rest.raised)
  }

  /** DecisionWorker#process_decision_event for one event of a task whose
      history is `history`; `execution` is how the task's workflow execution
      inspects. */
  function EventEffect(cfg: Config, history: seq<Event>, event: Event, execution: string): (r: Effect)
    ensures |DecisionsOf(r.actions)| <= 1
  {
    var t := event.eventType;
    if t == WorkflowExecutionStarted then Deciding(ScheduleDecision(cfg, event))
    else if t == TimerFired then Deciding(TimerFiredDecision(cfg, history))
    else if t == ActivityTaskCompleted then CompletedEffect(history, event)
    else if t == ActivityTaskFailed then FailedEffect(cfg, history, event)
    else if t == ActivityTaskTimedOut then TimedOutEffect(history, execution)
    else Effect([], None)
  }

  /** The new events processed in order, stopping at the first that raises. */
  function Run(cfg: Config, history: seq<Event>, events: seq<Event>, execution: string): (r: Effect)
    decreases |events|
  {
    if events == [] then Effect([], None)
    else
      var before := Run(cfg, history, events[..|events| - 1], execution);
      if before.raised.Some? then before
      else
        var last := EventEffect(cfg, history, events[|events| - 1], execution);
        Effect(before.actions + last.actions, last.raised)
  }

  /** DecisionWorker#process_decision_task once the task is polled: the run,
      and for a StandardError a notification before it is raised again. */
  function TaskEffect(cfg: Config, history: seq<Event>, newEvents: seq<Event>, execution: string): (r: Effect)
    ensures r.raised == Run(cfg, history, newEvents, execution).raised
  {
    var run := Run(cfg, history, newEvents, execution);
    if run.raised.Some? && run.raised.value.standard then
      Effect(run.actions + [Notified(Notification(ExceptionNotice(run.raised.value), ExecutionContext(execution)))],
             run.raised)
    else run
  }

  // ---------------------------------------------------------------------
  // The task and the worker

  /** AWS::SimpleWorkflow::DecisionTask as the engine uses it: the history,
      the new events, and the decisions made so far. */
  class DecisionTask {
    const events: seq<Event>
    const newEvents: seq<Event>
    const execution: string
    var decisions: seq<Decision>

    constructor(events: seq<Event>, newEvents: seq<Event>, execution: string)
      ensures this.events == events && this.newEvents == newEvents && this.execution == execution
      ensures decisions == []
    {
      this.events := events;
      this.newEvents := newEvents;
      this.execution := execution;
      decisions := [];
    }

    /** schedule_activity_task, start_timer, complete_, fail_, cancel_ and
        continue_as_new_workflow_execution: each adds one decision. */
    method AddDecision(d: Decision)
      modifies this
      ensures decisions == old(decisions) + [d]
    {
      decisions := decisions + [d];
    }
  }

  class DecisionWorker {
    const config: Config
    /** What `notify` was handed, in order. */
    var notifications: seq<Notification>
    /** Every decision made and notification sent by this worker, in order. */
    ghost var trace: seq<Action>

    constructor(config: Config)
      ensures this.config == config && notifications == [] && trace == []
    {
      this.config := config;
      notifications := [];
      trace := [];
    }

    /** The worker's trace, the task's decisions and the notifications have
        grown from the given values by exactly `actions`. */
    ghost predicate Records(task: DecisionTask, trace0: seq<Action>, decisions0: seq<Decision>,
                            notifications0: seq<Notification>, actions: seq<Action>)
      reads this, task
    {
      Grew(trace, task.decisions, notifications, trace0, decisions0, notifications0, actions)
    }

    method Notify(n: Notification)
      modifies this
      ensures notifications == old(notifications) + [n]
      ensures trace == old(trace) + [Notified(n)]
    {
      notifications := notifications + [n];
      trace := trace + [Notified(n)];
    }

    method Decide(task: DecisionTask, d: Decision)
      modifies this, task
      ensures Records(task, old(trace), old(task.decisions), old(notifications), [Decided(d)])
    {
      task.AddDecision(d);
      trace := trace + [Decided(d)];
    }

    /** DecisionWorker#schedule. */
    method Schedule(task: DecisionTask, event: Event) returns (raised: Option<Exception>)
      modifies this, task
      ensures raised == Deciding(ScheduleDecision(config, event)).raised
      ensures Records(task, old(trace), old(task.decisions), old(notifications),
                      Deciding(ScheduleDecision(config, event)).actions)
    {
      var input := Read(event.attributes.input, "input");
      if input.Err? {
        return Some(input.error);
      }
      var options := ParseInput(Some(input.value));
      if options.Err? {
        return Some(options.error);
      }
      var app := AppInCharge(options.value, event);
      var taskList := LookUpActivityTaskList(config, app);
      if taskList.Err? {
        return Some(taskList.error);
      }
      if !Truthy(taskList.value) {
        return Some(MissingTaskListError(app));
      }
      Decide(task, ScheduleActivityTask(ActivityType(ActivityName(config), WorkflowVersion), HeartbeatTimeout,
                                        input.value, taskList.value,
                                        ScheduleToCloseTimeout, ScheduleToStartTimeout, StartToCloseTimeout));
      return None;
    }

    /** DecisionWorker#start_timer: returns the interval in effect. */
    method StartTimer(task: DecisionTask, interval: Value) returns (r: Result<Value>)
      modifies this, task
      ensures var t := Timer(task.events, interval);
        r == (if t.Err? then Err(t.error) else Ok(t.value.1)) &&
        Records(task, old(trace), old(task.decisions), old(notifications),
                if t.Ok? && t.value.0.Some? then [Decided(t.value.0.value)] else [])
    {
      var effective := interval;
      if !Truthy(interval) {
        var original := OriginalInterval(task.events);
        if original.Err? {
          return Err(original.error);
        }
        effective := original.value;
      }
      if Truthy(effective) {
        var seconds := ToI(effective);
        if seconds.Err? {
          return Err(seconds.error);
        }
        Decide(task, Decision.StartTimer(seconds.value));
      }
      return Ok(effective);
    }

    /** `start_timer(task, interval) or <fallback>`, as three branches of
        process_decision_event write it. */
    method StartTimerOr(task: DecisionTask, interval: Value, fallback: Decision) returns (raised: Option<Exception>)
      modifies this, task
      ensures raised == Deciding(TimerOr(task.events, interval, fallback)).raised
      ensures Records(task, old(trace), old(task.decisions), old(notifications),
                      Deciding(TimerOr(task.events, interval, fallback)).actions)
    {
      var timer := StartTimer(task, interval);
      if timer.Err? {
        return Some(timer.error);
      }
      if !Truthy(timer.value) {
        Decide(task, fallback);
      }
      return None;
    }

    /** DecisionWorker#retry_or_continue_as_new. */
    method RetryOrContinueAsNew(task: DecisionTask, original: Event) returns (raised: Option<Exception>)
      modifies this, task
      ensures raised == Deciding(RetryOrContinueDecision(config, original)).raised
      ensures Records(task, old(trace), old(task.decisions), old(notifications),
                      Deciding(RetryOrContinueDecision(config, original)).actions)
    {
      var a := original.attributes;
      var input := Read(a.input, "input");
      if input.Err? {
        return Some(input.error);
      }
      var options := ParseInput(Some(input.value));
      if options.Err? {
        return Some(options.error);
      }
      if Truthy(OptionValue(options.value, "interval")) {
        Decide(task, ContinueAsNewWorkflowExecution(a.childPolicy, a.executionStartToCloseTimeout, a.input,
                                                    a.tagList, a.taskList, a.taskStartToCloseTimeout));
        return None;
      }
      raised := Schedule(task, original);
    }

    /** The `when 'TimerFired'` branch. */
    method OnTimerFired(task: DecisionTask) returns (raised: Option<Exception>)
      modifies this, task
      ensures raised == Deciding(TimerFiredDecision(config, task.events)).raised
      ensures Records(task, old(trace), old(task.decisions), old(notifications),
                      Deciding(TimerFiredDecision(config, task.events)).actions)
    {
      var first := FirstEvent(task.events);
      if first.Err? {
        return Some(first.error);
      }
      raised := RetryOrContinueAsNew(task, first.value);
    }

    /** The `when 'ActivityTaskCompleted'` branch. */
    method OnActivityTaskCompleted(task: DecisionTask, event: Event) returns (raised: Option<Exception>)
      modifies this, task
      ensures raised == CompletedEffect(task.events, event).raised
      ensures Records(task, old(trace), old(task.decisions), old(notifications), CompletedEffect(task.events, event).actions)
    {
      var text := Read(event.attributes.result, "result");
      if text.Err? {
        return Some(text.error);
      }
      var result := ParseResult(text.value);
      raised := StartTimerOr(task, OptionValue(result, "seconds_until_retry"), CompleteWorkflowExecution(text.value));
    }

    /** The `when 'ActivityTaskFailed'` branch. */
    method OnActivityTaskFailed(task: DecisionTask, event: Event) returns (raised: Option<Exception>)
      modifies this, task
      ensures raised == FailedEffect(config, task.events, event).raised
      ensures Records(task, old(trace), old(task.decisions), old(notifications), FailedEffect(config, task.events, event).actions)
    {
      var reason := Read(event.attributes.reason, "reason");
      if reason.Err? {
        return Some(reason.error);
      }
      if reason.value == Retry {
        var first := FirstEvent(task.events);
        if first.Err? {
          return Some(first.error);
        }
        raised := Schedule(task, first.value);
      } else {
        raised := StartTimerOr(task, Nil, FailWorkflowExecution(event.attributes.details, event.attributes.reason));
      }
    }

    /** The `when 'ActivityTaskTimedOut'` branch. */
    method OnActivityTaskTimedOut(task: DecisionTask) returns (raised: Option<Exception>)
      modifies this, task
      ensures raised == TimedOutEffect(task.events, task.execution).raised
      ensures Records(task, old(trace), old(task.decisions), old(notifications), TimedOutEffect(task.events, task.execution).actions)
    {
      var n := TimeoutNotification(task.execution);
      Notify(n);
      ghost var t1, d1, n1 := trace, task.decisions, notifications;
      assert Grew(t1, d1, n1, old(trace), old(task.decisions), old(notifications), [Notified(n)]);
      raised := StartTimerOr(task, Nil, CancelWorkflowExecution("activity task timeout"));
      ghost var rest := Deciding(TimerOr(task.events, Nil, CancelWorkflowExecution("activity task timeout")));
      GrewCompose(trace, task.decisions, notifications, t1, d1, n1,
                  old(trace), old(task.decisions), old(notifications), [Notified(n)], rest.actions);
    }

    /** DecisionWorker#process_decision_event. */
    method ProcessDecisionEvent(task: DecisionTask, event: Event) returns (raised: Option<Exception>)
      modifies this, task
      ensures raised == EventEffect(config, task.events, event, task.execution).raised
      ensures Records(task, old(trace), old(task.decisions), old(notifications),
                      EventEffect(config, task.events, event, task.execution).actions)
    {
      var t := event.eventType;
      if t == WorkflowExecutionStarted {
        raised := Schedule(task, event);
      } else if t == TimerFired {
        raised := OnTimerFired(task);
      } else if t == ActivityTaskCompleted {
        raised := OnActivityTaskCompleted(task, event);
      } else if t == ActivityTaskFailed {
        raised := OnActivityTaskFailed(task, event);
      } else if t == ActivityTaskTimedOut {
        raised := OnActivityTaskTimedOut(task);
      } else {
        raised := None;
      }
    }

    /** DecisionWorker#process_decision_task for a polled task: the new
        events in order; an exception stops the walk, is notified when it is
        a StandardError, and is raised again. */
    method ProcessDecisionTask(task: DecisionTask) returns (raised: Option<Exception>)
      modifies this, task
      ensures raised == TaskEffect(config, task.events, task.newEvents, task.execution).raised
      ensures Records(task, old(trace), old(task.decisions), old(notifications),
                      TaskEffect(config, task.events, task.newEvents, task.execution).actions)
    {
      var i := 0;
      raised := None;
      while i < |task.newEvents|
        invariant 0 <= i <= |task.newEvents|
        invariant raised.None?
        invariant Run(config, task.events, task.newEvents[..i], task.execution).raised.None?
        invariant Records(task, old(trace), old(task.decisions), old(notifications),
                          Run(config, task.events, task.newEvents[..i], task.execution).actions)
      {
        ghost var before := Run(config, task.events, task.newEvents[..i], task.execution);
        ghost var t1, d1, n1 := trace, task.decisions, notifications;
        raised := ProcessDecisionEvent(task, task.newEvents[i]);
        ghost var step := EventEffect(config, task.events, task.newEvents[i], task.execution);
        RunSnoc(config, task.events, task.newEvents, i, task.execution);
        GrewCompose(trace, task.decisions, notifications, t1, d1, n1,
                    old(trace), old(task.decisions), old(notifications), before.actions, step.actions);
        if raised.Some? {
          RunStops(config, task.events, task.newEvents, i, task.execution);
          if raised.value.standard {
            var n := Notification(ExceptionNotice(raised.value), ExecutionContext(task.execution));
            ghost var t2, d2, n2 := trace, task.decisions, notifications;
            Notify(n);
            assert Grew(trace, task.decisions, notifications, t2, d2, n2, [Notified(n)]);
            GrewCompose(trace, task.decisions, notifications, t2, d2, n2,
                        old(trace), old(task.decisions), old(notifications), before.actions + step.actions, [Notified(n)]);
          }
          return;
        }
        i := i + 1;
      }
      assert task.newEvents[..i] == task.newEvents;
    }
  }

  // ---------------------------------------------------------------------
  // Properties

  lemma {:induction false} DecisionsAppend(a: seq<Action>, b: seq<Action>)
    ensures DecisionsOf(a + b) == DecisionsOf(a) + DecisionsOf(b)
  {
    if a == [] {
      assert a + b == b;
    } else {
      assert (a + b)[0] == a[0];
      assert (a + b)[1..] == a[1..] + b;
      DecisionsAppend(a[1..], b);
      var head := if a[0].Decided? then [a[0].decision] else [];
      assert DecisionsOf(a + b) == head + DecisionsOf(a[1..] + b);
      assert DecisionsOf(a) == head + DecisionsOf(a[1..]);
      assert head + (DecisionsOf(a[1..]) + DecisionsOf(b)) == head + DecisionsOf(a[1..]) + DecisionsOf(b);
    }
  }

  lemma {:induction false} NotificationsAppend(a: seq<Action>, b: seq<Action>)
    ensures NotificationsOf(a + b) == NotificationsOf(a) + NotificationsOf(b)
  {
    if a == [] {
      assert a + b == b;
    } else {
      assert (a + b)[0] == a[0];
      assert (a + b)[1..] == a[1..] + b;
      NotificationsAppend(a[1..], b);
      var head := if a[0].Notified? then [a[0].notification] else [];
      assert NotificationsOf(a + b) == head + NotificationsOf(a[1..] + b);
      assert NotificationsOf(a) == head + NotificationsOf(a[1..]);
      assert head + (NotificationsOf(a[1..]) + NotificationsOf(b)) == head + NotificationsOf(a[1..]) + NotificationsOf(b);
    }
  }

  /** The trace, decisions and notifications (t, d, n) are (t0, d0, n0)
      extended by `actions`. */
  ghost predicate Grew(t: seq<Action>, d: seq<Decision>, n: seq<Notification>,
                       t0: seq<Action>, d0: seq<Decision>, n0: seq<Notification>, actions: seq<Action>)
  {
    t == t0 + actions && d == d0 + DecisionsOf(actions) && n == n0 + NotificationsOf(actions)
  }

  lemma Regroup<T>(s: seq<T>, s1: seq<T>, s0: seq<T>, x: seq<T>, y: seq<T>)
    requires s1 == s0 + x && s == s1 + y
    ensures s == s0 + (x + y)
  {
  }

  lemma GrewCompose(t: seq<Action>, d: seq<Decision>, n: seq<Notification>,
                    t1: seq<Action>, d1: seq<Decision>, n1: seq<Notification>,
                    t0: seq<Action>, d0: seq<Decision>, n0: seq<Notification>, x: seq<Action>, y: seq<Action>)
    requires Grew(t1, d1, n1, t0, d0, n0, x) && Grew(t, d, n, t1, d1, n1, y)
    ensures Grew(t, d, n, t0, d0, n0, x + y)
  {
    DecisionsAppend(x, y);
    NotificationsAppend(x, y);
    Regroup(t, t1, t0, x, y);
    Regroup(d, d1, d0, DecisionsOf(x), DecisionsOf(y));
    Regroup(n, n1, n0, NotificationsOf(x), NotificationsOf(y));
  }

  /** The run up to index i + 1 extends the run up to index i by event i. */
  lemma RunSnoc(cfg: Config, history: seq<Event>, events: seq<Event>, i: nat, execution: string)
    requires i < |events|
    requires Run(cfg, history, events[..i], execution).raised.None?
    ensures var before := Run(cfg, history, events[..i], execution);
      var step := EventEffect(cfg, history, events[i], execution);
      Run(cfg, history, events[..i + 1], execution) == Effect(before.actions + step.actions, step.raised)
  {
    assert events[..i + 1][..i] == events[..i];
  }

  /** When the event at index i raises, the run over all events is the run
      up to and including it. */
  lemma {:induction false} RunStops(cfg: Config, history: seq<Event>, events: seq<Event>, i: nat, execution: string)
    requires i < |events|
    requires Run(cfg, history, events[..i + 1], execution).raised.Some?
    ensures Run(cfg, history, events, execution) == Run(cfg, history, events[..i + 1], execution)
    decreases |events|
  {
    if i + 1 < |events| {
      var front := events[..|events| - 1];
      assert front[..i + 1] == events[..i + 1];
      RunStops(cfg, history, front, i, execution);
    } else {
      assert events[..i + 1] == events;
    }
  }

  /** When event i is the first to raise, the task's effect is the run up
      to and including it; a StandardError is then notified with the
      execution as context and raised again, anything else is raised as is. */
  lemma TaskNotifiesThenReraises(cfg: Config, history: seq<Event>, events: seq<Event>, i: nat, execution: string)
    requires i < |events|
    requires Run(cfg, history, events[..i], execution).raised.None?
    requires EventEffect(cfg, history, events[i], execution).raised.Some?
    ensures var e := EventEffect(cfg, history, events[i], execution).raised.value;
      var upTo := Run(cfg, history, events[..i + 1], execution);
      var r := TaskEffect(cfg, history, events, execution);
      (e.standard ==>
         r == Effect(upTo.actions + [Notified(Notification(ExceptionNotice(e), ExecutionContext(execution)))], Some(e))) &&
      (!e.standard ==> r == upTo && r.raised == Some(e))
  {
    RunSnoc(cfg, history, events, i, execution);
    RunStops(cfg, history, events, i, execution);
  }

  /** Running two batches of events one after the other is running them
      together: the second batch starts only if the first raised nothing. */
  lemma {:induction false} RunAppend(cfg: Config, history: seq<Event>, a: seq<Event>, b: seq<Event>, execution: string)
    ensures var first := Run(cfg, history, a, execution);
      Run(cfg, history, a + b, execution) ==
        if first.raised.Some? then first
        else var second := Run(cfg, history, b, execution); Effect(first.actions + second.actions, second.raised)
    decreases |b|
  {
    if b == [] {
      assert a + b == a;
    } else {
      var b' := b[..|b| - 1];
      AppendFront(a, b);
      RunAppend(cfg, history, a, b', execution);
      RunAppendStep(cfg, history, a, b, execution);
    }
  }

  /** The step of RunAppend: the last event of `b` extends both runs. */
  lemma RunAppendStep(cfg: Config, history: seq<Event>, a: seq<Event>, b: seq<Event>, execution: string)
    requires |b| > 0
    requires (a + b)[..|a + b| - 1] == a + b[..|b| - 1] && (a + b)[|a + b| - 1] == b[|b| - 1]
    requires var first := Run(cfg, history, a, execution);
      Run(cfg, history, a + b[..|b| - 1], execution) ==
        if first.raised.Some? then first
        else var second := Run(cfg, history, b[..|b| - 1], execution); Effect(first.actions + second.actions, second.raised)
    ensures var first := Run(cfg, history, a, execution);
      Run(cfg, history, a + b, execution) ==
        if first.raised.Some? then first
        else var second := Run(cfg, history, b, execution); Effect(first.actions + second.actions, second.raised)
  {
    var first := Run(cfg, history, a, execution);
    var second := Run(cfg, history, b[..|b| - 1], execution);
    if first.raised.None? && second.raised.None? {
      var last := EventEffect(cfg, history, b[|b| - 1], execution);
      Associates(first.actions, second.actions, last.actions);
    }
  }

  /** Events are handled strictly in order, and each makes at most one
      decision. */
  lemma {:induction false} RunDecisionCount(cfg: Config, history: seq<Event>, events: seq<Event>, execution: string)
    ensures |DecisionsOf(Run(cfg, history, events, execution).actions)| <= |events|
    decreases |events|
  {
    if events != [] {
      var front := events[..|events| - 1];
      RunDecisionCount(cfg, history, front, execution);
      var before := Run(cfg, history, front, execution);
      if before.raised.None? {
        DecisionsAppend(before.actions, EventEffect(cfg, history, events[|events| - 1], execution).actions);
      }
    }
  }

  /** Processing one event alone makes the decisions EventEffect names, so
      a done run is the concatenation of each event's decisions. */
  lemma RunSingle(cfg: Config, history: seq<Event>, event: Event, execution: string)
    ensures Run(cfg, history, [event], execution) == EventEffect(cfg, history, event, execution)
  {
    assert [event][..0] == [];
  }

  /** An event of any other type changes nothing. */
  lemma UnhandledIgnored(cfg: Config, history: seq<Event>, event: Event, execution: string)
    requires !Handled(event.eventType)
    ensures EventEffect(cfg, history, event, execution) == Effect([], None)
  {
  }

  /** Every handled event that raises nothing makes exactly one decision. */
  lemma HandledDecidesOnce(cfg: Config, history: seq<Event>, event: Event, execution: string)
    requires Handled(event.eventType)
    requires EventEffect(cfg, history, event, execution).raised.None?
    ensures |DecisionsOf(EventEffect(cfg, history, event, execution).actions)| == 1
  {
    var r := EventEffect(cfg, history, event, execution);
    if event.eventType == ActivityTaskTimedOut {
      assert r.actions[1..] == r.actions[1..];
      assert DecisionsOf(r.actions) == DecisionsOf(r.actions[1..]);
    }
  }

  /** WorkflowExecutionStarted schedules the activity with the event's own
      input, the unit's task list and the fixed timeouts, or raises. */
  lemma StartedSchedules(cfg: Config, history: seq<Event>, event: Event, execution: string)
    requires event.eventType == WorkflowExecutionStarted
    ensures var r := EventEffect(cfg, history, event, execution);
      r == Deciding(ScheduleDecision(cfg, event)) &&
      (r.raised.None? ==> r.actions[0].decision.ScheduleActivityTask? &&
                          Some(r.actions[0].decision.input) == event.attributes.input)
  {
  }

  /** A missing task list raises before any decision is made. */
  lemma MissingTaskListRaises(cfg: Config, history: seq<Event>, event: Event, execution: string)
    requires event.eventType == WorkflowExecutionStarted
    requires event.attributes.input.Some? && ParseInput(event.attributes.input).Ok?
    requires cfg.activityTaskLists.Hash?
    requires !Truthy(Fetch(cfg.activityTaskLists.entries, AppInCharge(ParseInput(event.attributes.input).value, event)))
    ensures EventEffect(cfg, history, event, execution) ==
      Effect([], Some(MissingTaskListError(AppInCharge(ParseInput(event.attributes.input).value, event))))
  {
  }

  /** A completed activity whose result asks for a retry in n seconds
      starts that timer. */
  lemma CompletedRetrySeconds(cfg: Config, history: seq<Event>, event: Event, execution: string, n: nat)
    requires event.eventType == ActivityTaskCompleted
    requires event.attributes.result.Some? && event.attributes.result.value.Encoded?
    requires event.attributes.result.value.value.Hash?
    requires Get(event.attributes.result.value.value.entries, Str("seconds_until_retry")) == Some(Int(n))
    ensures EventEffect(cfg, history, event, execution) == Effect([Decided(StartTimer(n))], None)
  {
  }

  /** Without seconds_until_retry, a completed activity starts a timer for
      the original interval when there is one and completes the execution
      with the raw result text otherwise. */
  lemma CompletedWithoutRetry(cfg: Config, history: seq<Event>, event: Event, execution: string)
    requires event.eventType == ActivityTaskCompleted && event.attributes.result.Some?
    requires !Truthy(OptionValue(ParseResult(event.attributes.result.value), "seconds_until_retry"))
    requires OriginalInterval(history).Ok?
    ensures var interval := OriginalInterval(history).value;
      var r := EventEffect(cfg, history, event, execution);
      (!Truthy(interval) ==> r == Effect([Decided(CompleteWorkflowExecution(event.attributes.result.value))], None)) &&
      (Truthy(interval) && ToI(interval).Ok? ==> r == Effect([Decided(StartTimer(ToI(interval).value))], None))
  {
  }

  /** A result that is not a JSON object counts as an empty hash, so it
      asks for no retry. */
  lemma MalformedResultIgnored(raw: string)
    ensures ParseResult(Malformed(raw)) == Hash([])
    ensures OptionValue(ParseResult(Malformed(raw)), "seconds_until_retry") == Nil
  {
  }

  /** A failure with reason "Retry" schedules the activity again from the
      first event and never fails the execution. */
  lemma FailedRetryReschedules(cfg: Config, history: seq<Event>, event: Event, execution: string)
    requires event.eventType == ActivityTaskFailed && event.attributes.reason == Some(Retry)
    ensures var r := EventEffect(cfg, history, event, execution);
      r == Deciding(var first :- FirstEvent(history); ScheduleDecision(cfg, first)) &&
      forall i :: 0 <= i < |r.actions| ==> !(r.actions[i].Decided? && r.actions[i].decision.FailWorkflowExecution?)
  {
  }

  /** Any other failure starts a timer for the original interval, or fails
      the execution with just the event's details and reason. */
  lemma FailedOtherwise(cfg: Config, history: seq<Event>, event: Event, execution: string)
    requires event.eventType == ActivityTaskFailed && event.attributes.reason.Some?
    requires event.attributes.reason.value != Retry
    requires OriginalInterval(history).Ok?
    ensures var interval := OriginalInterval(history).value;
      var r := EventEffect(cfg, history, event, execution);
      (!Truthy(interval) ==>
         r == Effect([Decided(FailWorkflowExecution(event.attributes.details, event.attributes.reason))], None)) &&
      (Truthy(interval) && ToI(interval).Ok? ==> r == Effect([Decided(StartTimer(ToI(interval).value))], None))
  {
  }

  /** A timeout is notified before anything else happens; then a timer for
      the original interval is started, or the execution is cancelled. */
  lemma TimedOutNotifiesThenCancels(cfg: Config, history: seq<Event>, event: Event, execution: string)
    requires event.eventType == ActivityTaskTimedOut
    ensures var r := EventEffect(cfg, history, event, execution);
      |r.actions| >= 1 && r.actions[0] == Notified(TimeoutNotification(execution)) &&
      (OriginalInterval(history).Ok? && !Truthy(OriginalInterval(history).value) ==>
         r == Effect([Notified(TimeoutNotification(execution)), Decided(CancelWorkflowExecution("activity task timeout"))], None)) &&
      (OriginalInterval(history).Ok? && Truthy(OriginalInterval(history).value) && ToI(OriginalInterval(history).value).Ok? ==>
         r == Effect([Notified(TimeoutNotification(execution)), Decided(StartTimer(ToI(OriginalInterval(history).value).value))], None))
  {
  }

  /** A fired timer continues the execution as new when it runs at an
      interval, copying exactly six attributes of the first event, and
      otherwise schedules the activity again with the first event's input. */
  lemma TimerFiredContinuesOrReschedules(cfg: Config, history: seq<Event>, event: Event, execution: string)
    requires event.eventType == TimerFired && |history| > 0
    requires history[0].attributes.input.Some? && ParseInput(history[0].attributes.input).Ok?
    ensures var a := history[0].attributes;
      var r := EventEffect(cfg, history, event, execution);
      (Truthy(OptionValue(ParseInput(a.input).value, "interval")) ==>
         r == Effect([Decided(ContinueAsNewWorkflowExecution(a.childPolicy, a.executionStartToCloseTimeout, a.input,
                                                               a.tagList, a.taskList, a.taskStartToCloseTimeout))], None)) &&
      (!Truthy(OptionValue(ParseInput(a.input).value, "interval")) ==>
         r == Deciding(ScheduleDecision(cfg, history[0])))
  {
  }

  /** A zero interval is truthy in Ruby and starts a zero-second timer. */
  lemma ZeroIntervalStartsTimer(history: seq<Event>)
    ensures Timer(history, Int(0)) == Ok((Some(StartTimer(0)), Int(0)))
  {
  }

  /** The unit is guessed from the workflow name "test-wf" as "test". */
  lemma GuessExample()
    ensures GuessUnit("test-wf") == Some("test")
  {
    var w := LeadingWord("test-wf"[0..]);
    assert "test-wf"[0..] == "test-wf";
    assert "test-wf"[4] == '-';
    assert w == "test";
  }

  /** Guessing recovers a unit made of word characters from its workflow
      name. */
  lemma GuessRecoversUnit(cfg: Config)
    requires |DefaultUnit(cfg)| > 0
    requires forall i :: 0 <= i < |DefaultUnit(cfg)| ==> IsWordChar(DefaultUnit(cfg)[i])
    ensures GuessUnit(WorkflowName(cfg)) == Some(DefaultUnit(cfg))
  {
    var u := DefaultUnit(cfg);
    var name := WorkflowName(cfg);
    assert name[0] == u[0];
    assert SkipNonWord(name) == 0;
    assert name[0..] == name;
    var w := LeadingWord(name);
    assert name[|u|] == '-';
    LeadingWordOfPrefix(name, u);
  }

  lemma {:induction false} LeadingWordOfPrefix(s: string, u: string)
    requires |u| < |s| && s[..|u|] == u && !IsWordChar(s[|u|])
    requires forall i :: 0 <= i < |u| ==> IsWordChar(u[i])
    ensures LeadingWord(s) == u
  {
    if u != [] {
      assert s[1..][..|u| - 1] == u[1..];
      LeadingWordOfPrefix(s[1..], u[1..]);
    }
  }
}
