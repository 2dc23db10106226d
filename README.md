# ntswf in Dafny

A model of the control-flow kernel of ntswf, a Ruby client library for
Amazon Simple Workflow (SWF). The library has three roles, each of which
an `Ntswf::Instance` includes as a module:

- **The decision worker** takes a polled decision task and walks its new
  history events in order. For each event it adds at most one decision to
  the task: schedule the activity, start a timer, complete, fail, cancel,
  or continue the execution as new. It reads only the event and the first
  history event, which holds the execution's start input.
- **The activity worker** gives a configured callback a description of an
  activity task. It reports exactly one `complete!` or `fail!` for the
  callback's answer or for what it raised.
- **The client** starts executions, building the service call from its
  options. It also summarises a finished or running execution from its
  history.

All three share the configuration (an OpenStruct), its task-list check at
construction, the decoding of a task's input options (including the legacy
`[name, params]` form), the names derived from the configured unit, the
`"Retry"` sentinel and the bounded `with_retry` combinator. `Ntswf::Instance`
picks its modules from symbol arguments by converting snake_case to
CamelCase. `lib/ntswf.rb` lists the default modules and converts CamelCase
to the file they are autoloaded from.

The project has these modules:

- `RubyValues` (values.dfy): Ruby data and the core methods the library relies on.
- `Json` (json.dfy): JSON as an abstract codec.
- `Base` (base.dfy): configuration, names, input options and task-list validation.
- `Worker` (worker.dfy): `RETRY` and `with_retry`.
- `History` (history.dfy): history events and their attributes.
- `Decisions` (decision_worker.dfy): the decision engine.
- `Activities` (activity_worker.dfy): the activity-result protocol.
- `Client` (client.dfy): the start request and the history summary.
- `Ntswf` (ntswf.dfy): the default modules and the autoload paths.
- `Instances` (instance.dfy): module selection, `Instance#initialize` and `Ntswf.create`.

Where the source changes state, the model does too:

- `Decisions.DecisionTask` appends to its `decisions`.
- `Decisions.DecisionWorker` and `Activities.ActivityWorker` append to their `notifications`.
- `Activities.ActivityTask` appends to its `reports`.
- `Client.Options` loses `:execution_id`.
- `Instances.Instance` gains modules and a configuration.

Each such method is proved against a specification function:
`EventEffect`/`Run`/`TaskEffect` for decisions, `SingleTaskOutcome` for
activities, `StartOutcome` for starting and `Configure` for construction.
The lemmas state what the library promises about those functions.

The code is followed wherever a test expects something the code does not
do:

- spec/errors_spec.rb:47-58 expects `Ntswf::Errors::InvalidArgument`
  for a task-list name holding `;`, `.` or a space. lib/ntswf/base.rb:100-103
  raises RuntimeError, which is what the model raises.
- spec/errors_spec.rb:60-64 expects `Ntswf::Errors::InvalidArgument` for
  a missing activity task list, as lib/ntswf/activity_worker.rb:51 raises.
  The lib/ntswf/errors.rb shown defines only NotFound and AlreadyStarted;
  the model assumes the InvalidArgument class exists.
- spec/client_spec.rb:23-29 expects the workflow type 'master-workflow'.
  lib/ntswf/client.rb:177 with lib/ntswf/base.rb:25-27 uses
  "#{default_unit}-workflow", which is what the model names.
- instance.rb calls `configure`, which the base.rb modelled here does not
  define. The model uses the body of `Base#initialize` (the OpenStruct,
  then the check) for it.
- `decision_task_lists` and `execution_id_prefix` are not defined in the
  files modelled here. They are read as configuration entries:
  - the per-unit hash, where nil means no entry;
  - the prefix, which defaults to the default unit, as
    spec/client_spec.rb:56-61 expects ("test;the_id").

## Model

| member | source | states |
|---|---|---|
| RubyValues.Put | lib/ntswf/activity_worker.rb:74-78 | `merge!` with one pair: the key is bound to the new value, every other key keeps its binding, nothing else appears |
| RubyValues.Delete | lib/ntswf/client.rb:73 | `Hash#delete`: the key is gone, every other key keeps its binding, and only existing pairs remain |
| RubyValues.Merge | lib/ntswf/client.rb:103-105 | `merge!` with a hash: a key the merged hash binds takes its last value there, any other key keeps its old binding |
| RubyValues.ArrayOf | lib/ntswf/client.rb:78 | `Kernel#Array`: nil gives [], an array stays, a hash becomes its [key, value] pairs in order, a scalar is wrapped |
| RubyValues.Prefix | lib/ntswf/activity_worker.rb:66-67 | `[0, 1000]`: the first n characters, or all of a shorter string |
| RubyValues.ToS | lib/ntswf/client.rb:42 | `to_s` gives a string itself, a symbol's name, "" for nil |
| RubyValues.ToI | lib/ntswf/decision_worker.rb:68 | `to_i` keeps an integer and maps nil to 0; a string always converts: after its leading white space, a text that starts with neither a digit nor a sign gives 0 and one that starts without '-' gives a non-negative number; classes without to_i raise NoMethodError |
| RubyValues.SpaceSkipped | lib/ntswf/decision_worker.rb:68 | `String#to_i` ignores leading white space |
| RubyValues.SignApplied | lib/ntswf/decision_worker.rb:68 | a leading '-' negates and a leading '+' keeps the number the following digits give |
| RubyValues.UnderscoreDropped | lib/ntswf/decision_worker.rb:68 | an underscore between two digits is skipped, as in "1_000" |
| RubyValues.DecimalRoundTrip | lib/ntswf/decision_worker.rb:68 | `to_i` reads back every count of seconds `to_s` writes |
| RubyValues.GetAt | lib/ntswf/client.rb:41-47 | a hash literal's key that no earlier pair shares is found with its value |
| RubyValues.JoinPair | lib/ntswf/client.rb:85-87 | `[a, b].join(sep)` of two non-arrays is `a.to_s + sep + b.to_s` |
| Json.Parse | lib/ntswf/decision_worker.rb:109 | `JSON.parse` succeeds exactly on a JSON text and gives back its value |
| Json.Normalise | lib/ntswf/client.rb:77 | what a `to_json` text parses back to is JSON, and arrays and hashes keep their kind |
| Json.MergePairs | lib/ntswf/activity_worker.rb:79 | an object built pair by pair binds each key to its last value, using only the given pairs |
| Json.Dump | lib/ntswf/activity_worker.rb:93 | `to_json` round-trips: parsing the text gives the normalised value |
| Json.DumpKeepsKey | lib/ntswf/activity_worker.rb:93 | a key no other key shares after `to_s` survives the round trip with its serialised value |
| Json.DumpLacksKey | lib/ntswf/client.rb:77 | a key whose string no key of the hash has is absent from the parsed text |
| Json.MergeDistinct | lib/ntswf/activity_worker.rb:79 | pairs with distinct keys are kept as they are |
| Json.NormaliseFields | lib/ntswf/activity_worker.rb:65-69 | a hash of strings under distinct symbols serialises to the same strings under the symbols' names |
| History.Read | lib/ntswf/decision_worker.rb:91 | reading an attribute succeeds exactly when the event carries it, with its value |
| History.FirstEvent | lib/ntswf/decision_worker.rb:43 | `events.first` is the first event, and an empty history fails |
| Base.Field | lib/ntswf/base.rb:15 | an OpenStruct field is nil when no key names it, else the value of the last key naming it |
| Base.FirstBadKey | lib/ntswf/base.rb:15 | finds a key without `to_sym` exactly when there is one |
| Base.ConfigOf | lib/ntswf/base.rb:15 | `OpenStruct.new`: nil or false gives an empty structure, a non-hash raises, a hash fails exactly on a bad key and otherwise binds each of the five fields to the value the hash gives its name |
| Base.DefaultUnit | lib/ntswf/base.rb:49-51 | the unit's `to_s`: a string itself, a symbol's name, "" when no unit is configured |
| Base.WorkflowName | lib/ntswf/base.rb:25-27 | the default unit followed by "-workflow" |
| Base.ActivityName | lib/ntswf/base.rb:79-81 | the default unit followed by "-activity" |
| Base.DecisionTaskList | lib/ntswf/base.rb:41-43 | the configured list when truthy, else "Missing decision task list configuration" |
| Base.LookUpActivityTaskList | lib/ntswf/base.rb:37-39 | only a hash of activity task lists answers `[]` |
| Base.ActivityTaskList | lib/ntswf/base.rb:45-47 | the default unit's list when truthy, else "Missing activity task list configuration" |
| Base.ParseInput | lib/ntswf/base.rb:61-66 | an object comes back unchanged; any other value, or the first element of an array, becomes `{"name" => x}`; a truthy second element becomes "params", overriding; parse errors propagate |
| Base.TaskListsToCheck | lib/ntswf/base.rb:97-98 | the lists checked are the activity list values, then `Array(decision_task_list)` |
| Base.TaskListProblem | lib/ntswf/base.rb:99-104 | a string fails exactly when it holds ';', '.' or ' ', with the reserved message first; arrays and hashes follow `include?`/`count` |
| Base.RaiseIfInvalidTaskList | lib/ntswf/base.rb:96-106 | the loop raises the first problem, and raises nothing exactly when no checked list has one |
| Base.ValidationError | lib/ntswf/base.rb:96-106 | a failing list collection raises its error; otherwise nothing is raised exactly when no checked list has a problem, and what is raised is the problem of a list all of whose predecessors have none |
| Base.FirstProblemFirst | lib/ntswf/base.rb:98-105 | the problem found belongs to a list preceded only by lists without problems |
| Base.Configure | lib/ntswf/base.rb:14-17 | construction succeeds exactly when the OpenStruct builds and validation passes, and keeps that structure |
| Base.NamesAccepted | lib/ntswf/base.rb:96-106 | with string lists, a configuration is accepted exactly when no list holds ';', '.' or ' ' |
| Base.SeparatorRejected | lib/ntswf/base.rb:99-101 | any checked list holding the separator is refused |
| Base.ReservedNameRefused | spec/errors_spec.rb:54-58 | a single activity task list whose name holds ';' (such as `{a: "a;b"}`) is refused with the reserved message |
| Base.SpaceInNameRefused | spec/errors_spec.rb:47-52 | a single activity task list whose name holds a space and no ';' (such as `{a: "not valid"}`) is refused with the dots-and-spaces message |
| Base.DerivedNames | lib/ntswf/base.rb:25-27 | the workflow and activity names start with the unit, differ, and use `unit.to_s` |
| Base.UnitNames | spec/utils_spec.rb:4-20 | the configuration `{unit: u}` (such as "test") builds a structure holding only that unit, which gives "u-workflow" and "u-activity" |
| Base.LegacyInput | spec/client_spec.rb:145-159 | a legacy input `[name, params]` with truthy params (such as `["legacy", [1,2,3]]`) gives exactly the hash of that name and those params |
| Base.LegacyInputSetsNoInterval | spec/decision_worker_spec.rb:243-251 | `[name, {}]` (such as `["interval", {}]`) names the task and sets no interval |
| Worker.WithRetry | lib/ntswf/worker.rb:29-36 | runs the block at most k+1 times; every earlier run raised a StandardError; returns iff the last run returned; otherwise re-raises the last exception, which is non-standard or came after k retries |
| Worker.RetryFailTwice | spec/worker_spec.rb:63-97 | a block failing twice raises "forced exception" after k+1 runs for k < 2, and returns after 3 runs otherwise |
| Worker.RetryNonStandard | lib/ntswf/worker.rb:30 | an exception that is not a StandardError is raised after one run whatever k is |
| Decisions.GuessUnit | lib/ntswf/decision_worker.rb:118-120 | `name[/\w+/]`: nil exactly when there is no word character, else the first maximal run of word characters |
| Decisions.AppInCharge | lib/ntswf/decision_worker.rb:93 | the options' truthy unit, else the unit guessed from the workflow type name, else nil |
| Decisions.ScheduleDecision | lib/ntswf/decision_worker.rb:90-105 | schedules exactly when input, options and unit task list are present, with the event's input text, that list, heartbeat :none and 43200/600/43200; a missing list raises "Missing activity task list config for …" |
| Decisions.ParseResult | lib/ntswf/decision_worker.rb:107-113 | a JSON object result is kept, anything else is {} |
| Decisions.OriginalInterval | lib/ntswf/decision_worker.rb:64-67 | the first event's `interval` option, and an error when it cannot be read |
| Decisions.Timer | lib/ntswf/decision_worker.rb:63-70 | the interval is the given one when truthy, else the original one; a timer of `to_i` seconds starts exactly when that is truthy |
| Decisions.RetryOrContinueDecision | lib/ntswf/decision_worker.rb:72-88 | continues as new with the six listed attributes when the options have an interval, else schedules |
| Decisions.TimerOr | lib/ntswf/decision_worker.rb:46 | `start_timer(...) or fallback`: the timer when one starts, else the fallback |
| Decisions.RescheduleDecision | lib/ntswf/decision_worker.rb:50 | schedules from the first event |
| Decisions.TimerFiredDecision | lib/ntswf/decision_worker.rb:42-43 | retry or continue from the first event |
| Decisions.CompletedEffect | lib/ntswf/decision_worker.rb:44-47 | at most one decision |
| Decisions.FailedEffect | lib/ntswf/decision_worker.rb:48-54 | at most one decision |
| Decisions.TimedOutEffect | lib/ntswf/decision_worker.rb:55-59 | the timeout notification comes first, and at most one decision follows |
| Decisions.EventEffect | lib/ntswf/decision_worker.rb:37-61 | every event makes at most one decision |
| Decisions.TaskEffect | lib/ntswf/decision_worker.rb:26-31 | raises what the run raised |
| Decisions.TaskNotifiesThenReraises | lib/ntswf/decision_worker.rb:27-31 | when event i is the first to raise, the task's actions are those of the events up to i; a StandardError then adds its notification with the execution as context and is raised again, any other exception is raised as is |
| Decisions.DecisionTask.AddDecision | lib/ntswf/decision_worker.rb:97 | appends exactly one decision |
| Decisions.DecisionWorker.Notify | lib/ntswf/decision_worker.rb:56-57 | appends exactly one notification |
| Decisions.DecisionWorker.Decide | lib/ntswf/decision_worker.rb:46-59 | adds one decision to the task and records it, nothing else |
| Decisions.DecisionWorker.Schedule | lib/ntswf/decision_worker.rb:90-105 | makes the ScheduleDecision decision or raises its error, and changes nothing else |
| Decisions.DecisionWorker.StartTimer | lib/ntswf/decision_worker.rb:63-70 | adds the timer Timer names, and returns the interval in effect |
| Decisions.DecisionWorker.StartTimerOr | lib/ntswf/decision_worker.rb:46-47 | adds the TimerOr decision or raises |
| Decisions.DecisionWorker.RetryOrContinueAsNew | lib/ntswf/decision_worker.rb:72-88 | adds the RetryOrContinueDecision decision or raises |
| Decisions.DecisionWorker.OnTimerFired | lib/ntswf/decision_worker.rb:42-43 | acts as TimerFiredDecision says |
| Decisions.DecisionWorker.OnActivityTaskCompleted | lib/ntswf/decision_worker.rb:44-47 | acts as CompletedEffect says |
| Decisions.DecisionWorker.OnActivityTaskFailed | lib/ntswf/decision_worker.rb:48-54 | acts as FailedEffect says |
| Decisions.DecisionWorker.OnActivityTaskTimedOut | lib/ntswf/decision_worker.rb:55-59 | notifies, then acts as TimedOutEffect says |
| Decisions.DecisionWorker.ProcessDecisionEvent | lib/ntswf/decision_worker.rb:37-61 | the task's decisions and the notifications grow by exactly EventEffect's actions, in order |
| Decisions.DecisionWorker.ProcessDecisionTask | lib/ntswf/decision_worker.rb:22-33 | the new events are processed in order until one raises; a StandardError is notified, then raised again; the decisions and notifications made are exactly TaskEffect's |
| Decisions.RunSnoc | lib/ntswf/decision_worker.rb:27 | when the events before index i raised nothing, event i's actions follow theirs |
| Decisions.RunStops | lib/ntswf/decision_worker.rb:27 | once an event raises, the events after it are not processed |
| Decisions.RunAppend | lib/ntswf/decision_worker.rb:27 | processing two batches in turn is processing them together; the second starts only if the first raised nothing |
| Decisions.RunDecisionCount | lib/ntswf/decision_worker.rb:27 | a run makes at most one decision per event |
| Decisions.RunSingle | lib/ntswf/decision_worker.rb:27 | a run over one event is that event's effect |
| Decisions.UnhandledIgnored | lib/ntswf/decision_worker.rb:39-60 | an event type outside the `case` changes nothing |
| Decisions.HandledDecidesOnce | lib/ntswf/decision_worker.rb:39-60 | a handled event that raises nothing makes exactly one decision |
| Decisions.StartedSchedules | lib/ntswf/decision_worker.rb:40-41 | WorkflowExecutionStarted schedules the activity with the event's own input, or raises |
| Decisions.MissingTaskListRaises | lib/ntswf/decision_worker.rb:93-95 | a unit without a task list raises and decides nothing |
| Decisions.CompletedRetrySeconds | lib/ntswf/decision_worker.rb:44-47 | a result with `seconds_until_retry` n starts an n-second timer |
| Decisions.CompletedWithoutRetry | lib/ntswf/decision_worker.rb:44-47 | otherwise the original interval starts a timer, else the execution completes with the raw result text |
| Decisions.MalformedResultIgnored | lib/ntswf/decision_worker.rb:107-113 | a malformed result counts as {} and asks for no retry |
| Decisions.FailedRetryReschedules | lib/ntswf/decision_worker.rb:49-50 | reason "Retry" schedules from the first event and never fails the execution |
| Decisions.FailedOtherwise | lib/ntswf/decision_worker.rb:51-53 | other reasons start the original-interval timer, else fail with only details and reason |
| Decisions.TimedOutNotifiesThenCancels | lib/ntswf/decision_worker.rb:55-59 | the timeout is notified first; without an interval the execution is cancelled with "activity task timeout", with one a timer of its `to_i` seconds starts |
| Decisions.TimerFiredContinuesOrReschedules | lib/ntswf/decision_worker.rb:72-88 | with an interval, continue as new copying exactly the six attributes; otherwise schedule from the first event |
| Decisions.ZeroIntervalStartsTimer | lib/ntswf/decision_worker.rb:68 | interval 0 is truthy and starts a 0-second timer |
| Decisions.GuessExample | spec/decision_worker_spec.rb:108-115 | "test-wf" gives unit "test" |
| Decisions.GuessRecoversUnit | lib/ntswf/decision_worker.rb:118-120 | a word-character unit is recovered from its workflow name |
| Activities.WorkerTaskList | lib/ntswf/activity_worker.rb:50-53 | the default unit's list, or InvalidArgument naming the unit |
| Activities.SymbolisedPairs | lib/ntswf/activity_worker.rb:79 | each pair's key is converted with `to_sym`, in order |
| Activities.Describe | lib/ntswf/activity_worker.rb:72-80 | every key is a symbol; the task, run id and workflow id are bound and override options; every other option keeps its last value; parse errors propagate |
| Activities.ErrorDetails | lib/ntswf/activity_worker.rb:89 | the details text parses to `{"error" => message}` |
| Activities.ResultReport | lib/ntswf/activity_worker.rb:83-95 | nil/false completes with {}; a non-hash raises naming its class; `:error` fails with reason "Retry" or "Error" and the error cut to 1000 chars; any other hash completes with its JSON |
| Activities.ExceptionReport | lib/ntswf/activity_worker.rb:65-69 | reason "Exception", details with message and class cut to 1000 chars |
| Activities.CallbackResult | lib/ntswf/activity_worker.rb:56 | no callback answers nil; describe errors propagate |
| Activities.ResultOutcome | lib/ntswf/activity_worker.rb:57-59 | exactly one report after any notification, or a non-standard exception and no step |
| Activities.SingleTaskOutcome | lib/ntswf/activity_worker.rb:55-60 | exactly one report after any notification, or a non-standard exception and no step |
| Activities.ActivityTask.Complete | lib/ntswf/activity_worker.rb:93 | appends one completion |
| Activities.ActivityTask.Fail | lib/ntswf/activity_worker.rb:88-91 | appends one failure |
| Activities.ActivityWorker.OnActivity | lib/ntswf/activity_worker.rb:31-33 | sets the callback and nothing else |
| Activities.ActivityWorker.Notify | lib/ntswf/base.rb:68-70 | appends one notification |
| Activities.ActivityWorker.Send | lib/ntswf/activity_worker.rb:88-93 | makes exactly the one report, on the task and in the trace |
| Activities.ActivityWorker.ProcessResult | lib/ntswf/activity_worker.rb:83-95 | reports exactly ResultReport's report or raises its error with nothing reported |
| Activities.ActivityWorker.FailWithException | lib/ntswf/activity_worker.rb:62-70 | notifies, then fails with ExceptionReport, in that order |
| Activities.ActivityWorker.Rescue | lib/ntswf/activity_worker.rb:58-59 | a StandardError notifies and then fails the task with ExceptionReport; any other exception propagates with nothing done |
| Activities.ActivityWorker.ReportOrRescue | lib/ntswf/activity_worker.rb:57-59 | makes exactly ResultOutcome's steps |
| Activities.ActivityWorker.ProcessSingleTask | lib/ntswf/activity_worker.rb:55-60 | makes exactly SingleTaskOutcome's steps |
| Activities.MergedAppends | lib/ntswf/activity_worker.rb:74-78 | the three extras are appended to parsed options |
| Activities.DescribedKeys | lib/ntswf/activity_worker.rb:72-80 | the keys and values `describe` produces from JSON options |
| Activities.NoCallbackCompletesEmpty | lib/ntswf/activity_worker.rb:56-57 | no callback completes with "{}" |
| Activities.NonHashAnswerFails | lib/ntswf/activity_worker.rb:55-60 | a non-hash answer is notified and failed with reason "Exception" |
| Activities.RaisingCallbackFails | lib/ntswf/activity_worker.rb:58-70 | a raising callback is notified, then failed with its message and class |
| Activities.UndescribableInputFails | lib/ntswf/activity_worker.rb:55-60 | an unparsable input is still reported, as a failure |
| Activities.HashAnswerReported | lib/ntswf/activity_worker.rb:83-95 | a hash answer is reported as ResultReport says, without a notification |
| Activities.FalsyAnswerCompletesEmpty | lib/ntswf/activity_worker.rb:84 | a callback answering nil or false completes with "{}" |
| Activities.NonStandardRaisePropagates | lib/ntswf/activity_worker.rb:58 | an exception that is not a StandardError, raised by the callback, is raised again as it is and nothing is reported |
| Activities.RetrySecondsStartTimer | lib/ntswf/decision_worker.rb:44-47 | a completion carrying `seconds_until_retry: n` makes the decision worker start an n-second timer |
| Activities.RetryErrorReschedules | lib/ntswf/activity_worker.rb:86-87 | an error with a truthy `seconds_until_retry` fails with "Retry", and the decision worker reschedules |
| Client.DecisionTaskListFor | lib/ntswf/client.rb:79 | the unit's own decision task list, else the configured one, else the missing-list error |
| Client.ExecutionIdPrefix | spec/client_spec.rb:75-79 | the configured prefix, else the default unit |
| Client.WorkflowId | lib/ntswf/client.rb:85-87 | prefix, ";" and suffix joined |
| Client.StartRequestFor | lib/ntswf/client.rb:72-83 | fails exactly on a missing decision task list, with its error |
| Client.StartRequestFields | lib/ntswf/client.rb:74-80 | the workflow type and version, the terminate child policy, the fixed timeouts and the unit's decision task list |
| Client.StartRequestInput | lib/ntswf/client.rb:73-77 | the input parses to the options without :execution_id |
| Client.StartRequestTags | lib/ntswf/client.rb:78 | tags `[unit, name] + Array(tag_list)` of the options given |
| Client.StartRequestWorkflowId | lib/ntswf/client.rb:81 | the workflow id from the prefix and the execution id |
| Client.ExecutionProperties | lib/ntswf/client.rb:41-47 | name as a string, params unchanged, status :open and the service's ids |
| Client.StartSwfWorkflowExecution | lib/ntswf/client.rb:72-83 | deletes :execution_id from the options, and returns the service's answer to StartRequestFor |
| Client.StartOutcome | lib/ntswf/client.rb:72-83 | a missing decision task list gives its error without calling the service; otherwise the service's answer to the request |
| Client.StartExecution | lib/ntswf/client.rb:39-48 | the properties of the started execution from the original name and params, or the error |
| Client.FindLast | lib/ntswf/client.rb:111-113 | the last event of the given types, or none exists |
| Client.ParseAttribute | lib/ntswf/client.rb:158-174 | a JSON object attribute, else {} (missing, malformed, non-object) |
| Client.CompletionDetails | lib/ntswf/client.rb:110-119 | the last completion's outcome, else status :open |
| Client.FailureDetails | lib/ntswf/client.rb:128-156 | by the last terminal event: the failure's error and exception, the event type twice, or a generic error |
| Client.HistoryDetails | lib/ntswf/client.rb:89-108 | fails exactly without a first event input; the details override the summary key by key and nothing else changes |
| Client.DetailsKeys | lib/ntswf/client.rb:99-106 | the details bind only outcome, status, error and exception |
| Client.SummaryGet | lib/ntswf/client.rb:91-97 | the summary binds status, the ids, name as a string and params |
| Client.WorkflowIdJoins | lib/ntswf/client.rb:81 | the workflow id is prefix + ";" + execution id |
| Client.TagsWithoutExtra | lib/ntswf/client.rb:78 | without tag_list the tags are unit and name |
| Client.SampleGet | spec/client_spec.rb:56 | what the sample options bind |
| Client.SampleStarts | spec/client_spec.rb:56-59 | the sample request is made |
| Client.SampleTags | spec/client_spec.rb:56-60 | the sample is tagged ["test", "the_worker"] |
| Client.SampleTaskList | spec/client_spec.rb:56-59 | the sample runs on the configured decision task list |
| Client.SampleWorkflowIds | spec/client_spec.rb:56-79 | the sample's workflow id is "test;the_id", and "cms;the_id" with prefix "cms" |
| Client.InputOmitsExecutionId | lib/ntswf/client.rb:73-77 | the stored input is the options without :execution_id |
| Client.NameSerialised | lib/ntswf/client.rb:77 | a symbol name is stored as its string under "name" |
| Client.DeleteKeepsName | lib/ntswf/client.rb:73 | the delete keeps the name option |
| Client.InputKeepsName | lib/ntswf/client.rb:73-77 | the workers read back the name as a string |
| Client.DetailsLack | lib/ntswf/client.rb:99-106 | the details bind no other key |
| Client.SummaryKept | lib/ntswf/client.rb:89-108 | keys the details do not bind keep the summary's value |
| Client.OneDetail | lib/ntswf/client.rb:98-105 | with one detail, a key takes its value when it names it and the summary's otherwise |
| Client.TwoDetails | lib/ntswf/client.rb:98-105 | with two details, a key takes the last one naming it, else the summary's |
| Client.SummaryIdentifies | lib/ntswf/client.rb:91-97 | the ids, name and params are always the execution's and the first input's |
| Client.OpenAddsNothing | lib/ntswf/client.rb:99-101 | an open execution's summary is the summary alone |
| Client.CompletedReportsOutcome | lib/ntswf/client.rb:110-116 | outcome from the last completion, status :completed |
| Client.CompletedWithoutEventIsOpen | lib/ntswf/client.rb:114-118 | without a completion event the status is :open and there is no outcome |
| Client.FailureReportsDetails | lib/ntswf/client.rb:132-140 | a failure reports its details' error and exception, and keeps the status |
| Client.TerminationReportsEventType | lib/ntswf/client.rb:141-146 | the event type is reported as error and exception |
| Client.NoTerminalEventGenericError | lib/ntswf/client.rb:147-155 | only a generic error naming the status, no exception |
| Ntswf.Snake | lib/ntswf.rb:24 | the snake form has no upper-case letter, is no shorter, and starts with the name's first letter in lower case |
| Ntswf.AutoloadPath | lib/ntswf.rb:24 | "ntswf/", the snake form, ".rb": a file name without upper-case letters |
| Ntswf.AutoloadedConstants | lib/ntswf.rb:13-22 | the autoloaded constants are the four default modules in order, then Instance |
| Ntswf.WordPath | lib/ntswf.rb:24 | a one-word constant (Utils, Instance) loads from its name with the capital lowered |
| Ntswf.ActivityWorkerPath | lib/ntswf.rb:24 | "ActivityWorker" loads from "ntswf/activity_worker.rb" |
| Ntswf.SnakeAppend | lib/ntswf.rb:24 | two parts are joined with "_" exactly when the second starts with an upper-case letter |
| Ntswf.SnakeWord | lib/ntswf.rb:24 | a word with no capital after its first letter only has that letter lowered |
| Ntswf.SnakeTwoWords | lib/ntswf.rb:24 | two such words, the second capitalised, are joined by "_" in lower case |
| Ntswf.ClientPath | lib/ntswf.rb:24 | "Client" loads from "ntswf/client.rb" |
| Ntswf.DecisionWorkerSnake | lib/ntswf.rb:24 | "DecisionWorker" becomes "decision_worker" |
| Ntswf.DecisionWorkerPath | lib/ntswf.rb:24 | "DecisionWorker" loads from "ntswf/decision_worker.rb" |
| Instances.Selectors | lib/ntswf/instance.rb:9 | exactly the symbol arguments, by name |
| Instances.Configs | lib/ntswf/instance.rb:10 | exactly the non-symbol arguments |
| Instances.Camelize | lib/ntswf/instance.rb:12 | the first character is upper-cased and the result is no longer |
| Instances.ModuleNames | lib/ntswf/instance.rb:12-13 | the default modules without selectors, else each selector camelized |
| Instances.ConfigArgument | lib/ntswf/instance.rb:16 | the last non-symbol argument when truthy, else {} |
| Instances.Extending | lib/ntswf/instance.rb:14 | extending keeps existing modules, adds exactly the given names, and never duplicates |
| Instances.Instance.Extend | lib/ntswf/instance.rb:14 | adds a module once; afterwards the object `is_a?` it, and still is every module it was |
| Instances.Instance.Initialize | lib/ntswf/instance.rb:8-17 | extends with ModuleNames, so the object `is_a?` exactly its earlier modules and the selected ones, then configures with ConfigArgument, raising what Configure raises |
| Instances.Create | lib/ntswf.rb:9-11 | a fresh instance with the selected modules and the configuration, or the error |
| Instances.PartitionAppend | lib/ntswf/instance.rb:9-10 | both partitions keep the arguments' order |
| Instances.PartitionSizes | lib/ntswf/instance.rb:9-10 | every argument lands in exactly one partition |
| Instances.ExtendedWith | spec/instance_spec.rb:9-27 | an instance has exactly the selected (or default) modules |
| Instances.CamelSnake | lib/ntswf.rb:24 | camelizing the snake form of a CamelCase name gives it back |
| Instances.DefaultModulesSelectable | spec/instance_spec.rb:15-20 | each default module is selected by its snake-case name |
| Instances.SymbolsSelect | lib/ntswf/instance.rb:9-10 | symbols are all selectors, in order |
| Instances.CamelAppend | lib/ntswf/instance.rb:12 | camelizing splits at a part not ending in "_" or a line break |
| Instances.CamelPlain | lib/ntswf/instance.rb:12 | text holding no "_" and no line break after the start of a line is left as it is |
| Instances.CamelTwoWords | lib/ntswf/instance.rb:12 | two lower-case words joined by "_" become the two words capitalised, without the "_" |
| Instances.ClientSelection | spec/instance_spec.rb:9-13 | `:client` selects only Client |
| Instances.ActivityWorkerCamelized | lib/ntswf/instance.rb:12 | "activity_worker" becomes "ActivityWorker" |
| Instances.DecisionWorkerCamelized | lib/ntswf/instance.rb:12 | "decision_worker" becomes "DecisionWorker" |
| Instances.WorkerSelection | spec/instance_spec.rb:15-20 | the two workers are selected, not the client |
| Instances.NoSelectorSelectsDefaults | spec/instance_spec.rb:22-27 | without selectors the default modules are used |
| Instances.LastConfigurationUsed | spec/instance_spec.rb:29-32 | the configuration after the selectors is used |

## Left out

- The AWS SDK: polling, `domain`, `swf`, workflow and activity type lookup, registration, `find`'s lookup. Service answers (ids, status, events) are inputs, and the service's `start_execution` is a function parameter.
- Process plumbing: `in_subprocess` (fork, wait, `exit!`, `srand`, the clock), the endless worker loops, `announce`, `log` and the retry log line. Their output is not modelled.
- `notify` is modelled as an appended record of the exception or message and its context. The backtrace text is not produced.
- JSON text: JSON is an abstract codec. A text is either a JSON value's encoding or malformed, and no character grammar is modelled.
- RubyValues.ToI: covers integers, nil and strings (leading ASCII white space, one sign, ASCII digits with single underscores between them); Floats, Rationals and other classes with their own `to_i` are not modelled, because interval values come from JSON strings and numbers.
- `[0, 1000]` is a character prefix; byte counting is not modelled.
- Case mapping is ASCII only; `upcase`, `downcase` and `\w` on other characters are not modelled.
- `extend`, `const_get` and `autoload` are not executed: an instance records module names, and the autoload paths are computed but not registered.
- A selector that names no module (such as `:foo`) makes `const_get` raise NameError before `configure` runs; the model extends with the name and does not raise.
- `default_unit`'s memoisation is not modelled, since the configuration never changes after construction.
- `complete!` and `fail!` always succeed in the model; an SDK error from them is not modelled.
- lib/ntswf/errors.rb and the AlreadyStarted/NotFound wrapping of SDK errors are not part of this model.
- Features the shown source does not implement are not part of this model: `seconds_until_restart`, the timer `control` payload, `perform_again`, `activity_group`, `on_notify`, isolation prefixes, task-list suffixes and PID files.
- The module collision test relies on reflection and is not modelled.
- Worker.WithRetry: takes a non-negative count. With a negative `subprocess_retries` `zero?` is never true, so the source retries a failing block without end; a terminating method cannot express that run.
- Decisions.EventEffect: its ensures bounds the decisions only; what each event type does is stated by the event lemmas beside it.
