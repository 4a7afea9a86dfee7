/**
 * The realtime tool dispatcher, `ToolExecutor`: built once from the available tools
 * and a shared context, then asked to run the tool named by each tool-call event.
 * Execution never raises: an unknown name, arguments `json.dumps` cannot encode, an
 * exception from the tool or an output that cannot be encoded all come back as the
 * same two-field error object.
 */
module ToolExec {
  import opened Wrappers
  import opened PyJson
  import opened Registry

  /** The `RunContextWrapper` a context-aware tool receives; only the context it wraps matters here. */
  datatype RunContextWrapper<C> = RunContextWrapper(context: C)

  /** A `RealtimeEventToolCall`: the requested tool's name and its arguments dict. */
  datatype ToolCallEvent = ToolCallEvent(toolName: string, arguments: seq<(string, PyValue)>)

  /**
   * One call of a tool's `on_invoke_tool`: which tool, the context argument (`None`,
   * or a wrapper around the shared context) and the arguments as JSON text.
   */
  datatype Invocation<C> = Invocation(tool: Tool, context: Option<RunContextWrapper<C>>, argumentsJson: string)

  /** What awaiting `on_invoke_tool` gives: a returned value, or an exception whose `str()` is `message`. */
  datatype Outcome = Returned(value: PyValue) | Raised(message: string)

  /** The object `{"error": ..., "tool_name": ...}` returned in place of every failure. */
  datatype ErrorPayload = ErrorPayload(error: string, toolName: string)

  /** What `execute` returns: the tool's output as a string, or the error object. */
  datatype Reply = Output(text: string) | Failure(payload: ErrorPayload)

  function NotFoundMessage(name: string): string
  {
    "Tool '" + name + "' not found in ToolExecutor."
  }

  function SerializationMessage(name: string, detail: string): string
  {
    "Failed to serialize arguments for tool '" + name + "': " + detail
  }

  /**
   * The coercion of a tool's result to a string: a string is kept, a dict or a list
   * is JSON-encoded (which fails on an object JSON has no form for), and anything
   * else goes through `str()`.
   */
  function Coerce(v: PyValue): (r: Result<string, string>)
    ensures v.PStr? ==> r == Ok(v.s)
    ensures (v.PList? || v.PDict?) ==> r == Dumps(v)
    ensures r.Err? ==> (v.PList? || v.PDict?) && !Serializable(v)
    ensures !(v.PStr? || v.PList? || v.PDict?) ==> r == Ok(PyStr(v))
  {
    match v
    case PStr(s) => Ok(s)
    case PList(_) => DumpsOkIffSerializable(v); Dumps(v)
    case PDict(_) => DumpsOkIffSerializable(v); Dumps(v)
    case _ => Ok(PyStr(v))
  }

  /** The dict `{"error": ..., "tool_name": ...}` as it is handed to `json.dumps`. */
  function ErrorObject(p: ErrorPayload): PyValue
  {
    StringDict([("error", p.error), ("tool_name", p.toolName)])
  }

  /**
   * The string the caller receives for a reply: an output as it is, an error object
   * as its `json.dumps` text, which never fails and is printable ASCII.
   */
  function Render(r: Reply): (s: string)
    ensures r.Output? ==> s == r.text
    ensures r.Failure? ==> Dumps(ErrorObject(r.payload)) == Ok(s) && PrintableAscii(s)
  {
    match r
    case Output(text) => text
    case Failure(p) =>
      StringObjectRoundTrip([("error", p.error), ("tool_name", p.toolName)]);
      DumpsIsPrintableAscii(ErrorObject(p));
      Dumps(ErrorObject(p)).value
  }

  class ToolExecutor<C> {
    var toolMap: map<string, Tool>
    var contextAwareTools: set<string>
    var sharedContext: C

    /** The tools the executor was built from. */
    ghost var suppliedTools: seq<Tool>

    /** The map and the set are what the construction loop makes of `suppliedTools`. */
    ghost predicate Valid()
      reads this
    {
      && toolMap == Registered(suppliedTools)
      && contextAwareTools == ContextAwareNames(suppliedTools)
    }

    /**
     * Registers every function tool by name, the later of two same-named tools
     * replacing the earlier, skips every other kind of tool, and marks the names of
     * the tools that take a context.
     */
    constructor (tools: seq<Tool>, sharedContext: C)
      ensures Valid() && suppliedTools == tools
      ensures toolMap == Registered(tools)
      ensures contextAwareTools == ContextAwareNames(tools)
      ensures this.sharedContext == sharedContext
    {
      this.sharedContext := sharedContext;
      suppliedTools := tools;
      toolMap := map[];
      contextAwareTools := {};
      new;
      for i := 0 to |tools|
        invariant suppliedTools == tools && this.sharedContext == sharedContext
        invariant toolMap == Registered(tools[..i])
        invariant contextAwareTools == ContextAwareNames(tools[..i])
      {
        var tool := tools[i];
        assert tools[..i + 1][..i] == tools[..i];
        if tool.isFunctionTool {
          toolMap := toolMap[tool.name := tool];
          match tool.func {
            case Callable(parameters) =>
              if |parameters| > 0 && parameters[0] == "context" {
                contextAwareTools := contextAwareTools + {tool.name};
              }
            case NotCallable =>
            case NoFunction =>
              if tool.name in NameMarkedTools {
                contextAwareTools := contextAwareTools + {tool.name};
              }
          }
        }
      }
      assert tools[..|tools|] == tools;
    }

    /** The context argument for a call of the named tool. */
    function ContextFor(name: string): (c: Option<RunContextWrapper<C>>)
      reads this
      ensures c.Some? <==> name in contextAwareTools
      ensures c.Some? ==> c.value.context == sharedContext
    {
      if name in contextAwareTools then Some(RunContextWrapper(sharedContext)) else None
    }

    /**
     * The call `execute` makes for an event: none when the name is unknown or the
     * arguments cannot be encoded, otherwise the registered tool with its context
     * argument and the encoded arguments.
     */
    function CallFor(event: ToolCallEvent): (call: Option<Invocation<C>>)
      reads this
      ensures call.Some? <==> event.toolName in toolMap && Serializable(PDict(event.arguments))
      ensures call.Some? ==> call.value.tool == toolMap[event.toolName]
      ensures call.Some? ==> call.value.context == ContextFor(event.toolName)
      ensures call.Some? ==> Dumps(PDict(event.arguments)) == Ok(call.value.argumentsJson)
    {
      DumpsOkIffSerializable(PDict(event.arguments));
      if event.toolName !in toolMap then None
      else
        match Dumps(PDict(event.arguments))
        case Err(_) => None
        case Ok(json) => Some(Invocation(toolMap[event.toolName], ContextFor(event.toolName), json))
    }

    /**
     * `execute`: runs the named tool through `invoke`, which stands for awaiting its
     * `on_invoke_tool`, and turns every failure into the error object.
     */
    function Execute(event: ToolCallEvent, invoke: Invocation<C> -> Outcome): (r: Reply)
      reads this
      ensures r.Failure? ==> r.payload.toolName == event.toolName
      ensures event.toolName !in toolMap ==>
        r == Failure(ErrorPayload(NotFoundMessage(event.toolName), event.toolName))
      ensures event.toolName in toolMap && !Serializable(PDict(event.arguments)) ==>
        Dumps(PDict(event.arguments)).Err? &&
        r == Failure(ErrorPayload(SerializationMessage(event.toolName, Dumps(PDict(event.arguments)).error), event.toolName))
      ensures r.Output? ==>
        CallFor(event).Some? && invoke(CallFor(event).value).Returned? &&
        Coerce(invoke(CallFor(event).value).value) == Ok(r.text)
    {
      var name := event.toolName;
      if name !in toolMap then
        Failure(ErrorPayload(NotFoundMessage(name), name))
      else
        match CallFor(event)
        case None =>
          DumpsOkIffSerializable(PDict(event.arguments));
          Failure(ErrorPayload(SerializationMessage(name, Dumps(PDict(event.arguments)).error), name))
        case Some(call) =>
          match invoke(call)
          case Raised(message) => Failure(ErrorPayload(message, name))
          case Returned(v) =>
            match Coerce(v)
            case Ok(text) => Output(text)
            case Err(message) => Failure(ErrorPayload(message, name))
    }
  }

  // What a call of `execute` does, stated against the call it makes.

  /**
   * The reply depends on the tool only through the one call `execute` makes; when it
   * makes none (an unknown name, unencodable arguments), no tool behaviour matters.
   */
  lemma ExecuteDependsOnlyOnCall<C>(e: ToolExecutor<C>, event: ToolCallEvent,
                                    invoke: Invocation<C> -> Outcome, other: Invocation<C> -> Outcome)
    requires e.CallFor(event).None? || invoke(e.CallFor(event).value) == other(e.CallFor(event).value)
    ensures e.Execute(event, invoke) == e.Execute(event, other)
  {
  }

  /** What the awaited call's outcome becomes: the coerced output, or the error object with the exception's text. */
  lemma ExecuteOutcome<C>(e: ToolExecutor<C>, event: ToolCallEvent, invoke: Invocation<C> -> Outcome)
    requires e.CallFor(event).Some?
    ensures var outcome := invoke(e.CallFor(event).value);
      e.Execute(event, invoke) ==
        match outcome
        case Raised(message) => Failure(ErrorPayload(message, event.toolName))
        case Returned(v) =>
          if Coerce(v).Ok? then Output(Coerce(v).value) else Failure(ErrorPayload(Coerce(v).error, event.toolName))
  {
  }

  /**
   * A string result comes back unchanged; a dict or list result comes back as its
   * JSON text, or as the encoder's error; any other result comes back as its `str()`.
   */
  lemma ExecuteCoercesOutput<C>(e: ToolExecutor<C>, event: ToolCallEvent, invoke: Invocation<C> -> Outcome)
    requires e.CallFor(event).Some? && invoke(e.CallFor(event).value).Returned?
    ensures var v := invoke(e.CallFor(event).value).value;
      && (v.PStr? ==> e.Execute(event, invoke) == Output(v.s))
      && ((v.PList? || v.PDict?) && Serializable(v) ==>
            e.Execute(event, invoke).Output? && Dumps(v) == Ok(e.Execute(event, invoke).text) &&
            PrintableAscii(e.Execute(event, invoke).text))
      && ((v.PList? || v.PDict?) && !Serializable(v) ==>
            Dumps(v).Err? && e.Execute(event, invoke) == Failure(ErrorPayload(Dumps(v).error, event.toolName)))
      && (!(v.PStr? || v.PList? || v.PDict?) ==> e.Execute(event, invoke) == Output(PyStr(v)))
  {
    var v := invoke(e.CallFor(event).value).value;
    ExecuteOutcome(e, event, invoke);
    DumpsOkIffSerializable(v);
    DumpsIsPrintableAscii(v);
  }

  // What `execute` does on an executor built from a sequence of tools.

  /**
   * On an executor built from `tools`, a name that no function tool in `tools`
   * carries (including the name of a tool of another kind) is not found.
   */
  lemma UnregisteredNameNotFound<C>(e: ToolExecutor<C>, event: ToolCallEvent, invoke: Invocation<C> -> Outcome)
    requires e.Valid() && !HasFunctionTool(e.suppliedTools, event.toolName)
    ensures e.Execute(event, invoke) == Failure(ErrorPayload(NotFoundMessage(event.toolName), event.toolName))
  {
    RegisteredKeys(e.suppliedTools, event.toolName);
  }

  /**
   * On an executor built from `tools`, with encodable arguments, the call goes to the
   * last function tool of the requested name, with a wrapper around the shared context
   * exactly when some function tool of that name qualified as context-aware, and with
   * no context otherwise.
   */
  lemma CallGoesToLastTool<C>(e: ToolExecutor<C>, event: ToolCallEvent, i: int)
    requires e.Valid() && IsLastFunctionTool(e.suppliedTools, i)
    requires event.toolName == e.suppliedTools[i].name && Serializable(PDict(event.arguments))
    ensures e.CallFor(event).Some?
    ensures e.CallFor(event).value.tool == e.suppliedTools[i]
    ensures e.CallFor(event).value.context ==
      if exists j :: 0 <= j < |e.suppliedTools| && e.suppliedTools[j].isFunctionTool &&
                     e.suppliedTools[j].name == event.toolName && MarksContextAware(e.suppliedTools[j])
      then Some(RunContextWrapper(e.sharedContext)) else None
  {
    var tools := e.suppliedTools;
    LastWriteWins(tools, i);
    ContextAwareIff(tools, event.toolName);
  }

  // The string the caller receives.

  /**
   * Every error reply is a JSON object with exactly the members `error` and
   * `tool_name`, in that order, which reads back to the payload; and it is
   * printable ASCII.
   */
  lemma FailureRendersAsErrorObject(p: ErrorPayload)
    ensures ParseStringObject(Render(Failure(p))) == Some([("error", p.error), ("tool_name", p.toolName)])
    ensures PrintableAscii(Render(Failure(p)))
  {
    StringObjectRoundTrip([("error", p.error), ("tool_name", p.toolName)]);
    DumpsIsPrintableAscii(ErrorObject(p));
  }
}
