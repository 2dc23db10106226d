/**
 * History events as the AWS SDK presents them: an event type and the
 * attributes the event carries. Reading an attribute an event does not
 * carry raises ArgumentError.
 */
module History {
  import opened RubyValues
  import opened Json

  /** The attributes of a history event the library reads; None for an
      attribute the event does not carry. */
  datatype Attributes = Attributes(
    input: Option<Text>,
    result: Option<Text>,
    details: Option<Text>,
    reason: Option<string>,
    childPolicy: Option<Value>,
    executionStartToCloseTimeout: Option<Value>,
    tagList: Option<Value>,
    taskList: Option<Value>,
    taskStartToCloseTimeout: Option<Value>)

  /** A history event: its type, its attributes, and the name of the
      workflow type of the execution it belongs to. */
  datatype Event = Event(eventType: string, attributes: Attributes, workflowTypeName: string)

  /** Reading an attribute the event does not carry raises ArgumentError. */
  function MissingAttribute(name: string): Exception {
    Exception("ArgumentError", "invalid key '" + name + "'", true)
  }

  function Read<T>(attribute: Option<T>, name: string): (r: Result<T>)
    ensures r.Ok? <==> attribute.Some?
    ensures r.Ok? ==> r.value == attribute.value
  {
    match attribute
    case Some(v) => Ok(v)
    case None => Err(MissingAttribute(name))
  }

  /** `task.events.first`, whose attributes are read next: an empty history
      gives nil, which has no `attributes`. */
  function FirstEvent(history: seq<Event>): (r: Result<Event>)
    ensures r.Ok? <==> |history| > 0
    ensures r.Ok? ==> r.value == history[0]
  {
    if history == [] then Err(NoMethodError("attributes", Nil)) else Ok(history[0])
  }
}
