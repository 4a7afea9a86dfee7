# Realtime tool executor, modelled in Dafny

This project models `ToolExecutor`, the tool dispatcher of the realtime voice agents in
`src/agents/voice/realtime/tool_exec.py`. It has two parts:

- **Construction.** The constructor walks the supplied tools in order. It registers every
  `FunctionTool` by name, and a later tool with the same name replaces an earlier one. It
  skips every other kind of tool. It also builds the set of context-aware names. A tool is
  marked when its `function` is callable and its first parameter is called `context`. A tool
  with no `function` attribute is marked when its name is `greet_user_and_count` or
  `get_user_details`. The constructor is a Dafny `constructor` of the class
  `ToolExec.ToolExecutor`, with the source's `for` loop. The loop updates the fields
  `toolMap` (a `map`) and `contextAwareTools` (a `set`) in place. Its invariants tie the
  fields to two functions of the input prefix, `Registry.Registered` and
  `Registry.ContextAwareNames`. The lemmas in module `Registry` are about those functions.
- **Dispatch.** `execute` only reads the executor's state, so it is the function
  `ToolExecutor.Execute`. Its steps:
  - look up the name;
  - encode the arguments with `json.dumps`;
  - pick the context argument (a `RunContextWrapper` around the shared context, or `None`);
  - await the tool;
  - coerce its result to a string.

  Every failure becomes the error object `{"error": ..., "tool_name": ...}`. The tool's
  `on_invoke_tool` is the parameter `invoke`, a function from the call made
  (`Invocation`: the tool, the context argument, the JSON text of the arguments) to its
  outcome: a returned value or a raised exception's message. `ToolExecutor.CallFor` gives
  the one call `execute` makes, or none.

Module `PyJson` models the Python values involved and the part of `json.dumps` the
dispatcher depends on. That part is the default separators `", "` and `": "`, `ensure_ascii`,
and the `TypeError` on an object JSON cannot represent. Module `PyJson` also holds a decoder
for JSON objects whose members are strings. It is used to show that the error object reads
back to its two fields.

The docstring of `execute` (`tool_exec.py:77-78`) says that `AgentsException` is raised when
the tool is missing or fails. The code never raises. It returns the error object in every
such case, and the model follows the code. The name allow-list applies only when the
`function` attribute is absent. A tool whose `function`
exists but is not callable is never marked (`tool_exec.py:35-57`). The model follows the code.

## Model

| member | source | states |
|---|---|---|
| `ToolExec.ToolExecutor.constructor` | src/agents/voice/realtime/tool_exec.py:21-66 | after the loop the map is `Registered(tools)`, the context-aware set is `ContextAwareNames(tools)`, and the shared context is the one passed in |
| `Registry.RegisteredKeys` | src/agents/voice/realtime/tool_exec.py:27-29 | a name is a key of the map exactly when some `FunctionTool` in the input has that name |
| `Registry.RegisteredEntries` | src/agents/voice/realtime/tool_exec.py:27-64 | every stored value is a `FunctionTool` taken from the input and stored under its own name, so tools of other kinds are never stored |
| `Registry.LastWriteWins` | src/agents/voice/realtime/tool_exec.py:27-29 | a name maps to the last `FunctionTool` with that name in input order |
| `Registry.ContextAwareIff` | src/agents/voice/realtime/tool_exec.py:35-57 | a name is context-aware exactly when some `FunctionTool` of that name qualifies: a callable `function` whose first parameter is `context`, or no `function` attribute and one of the two allow-listed names; a non-callable `function` never qualifies |
| `Registry.ContextAwareAreRegistered` | src/agents/voice/realtime/tool_exec.py:25-57 | the context-aware set is a subset of the map's keys |
| `Registry.RegistrationGrows` | src/agents/voice/realtime/tool_exec.py:27-57 | processing more tools never removes a key or a context-aware name, so a later same-named tool that does not qualify leaves the name marked |
| `Registry.ContextAwareScenario` | src/agents/voice/realtime/tool_exec.py:35-45 | a tool with parameters `(context, x)` is marked and one with `(x, y)` is not; a marked tool followed by an unmarked one of the same name leaves the map holding the second and the name still marked |
| `ToolExec.Coerce` | src/agents/voice/realtime/tool_exec.py:117-125 | a string result is kept as it is; a dict or list result is its `json.dumps` text; coercion fails only on a dict or list that holds an unencodable object; any other result becomes its `str()` text |
| `ToolExec.ToolExecutor.ContextFor` | src/agents/voice/realtime/tool_exec.py:101-115 | a context-aware name gets a wrapper holding exactly the shared context; every other name gets `None` |
| `ToolExec.ToolExecutor.CallFor` | src/agents/voice/realtime/tool_exec.py:80-115 | a call is made exactly when the name is registered and the arguments can be encoded; the call uses the registered tool, the context argument for that name and the encoded arguments |
| `ToolExec.ToolExecutor.Execute` | src/agents/voice/realtime/tool_exec.py:68-134 | every error object names the requested tool; an unknown name gives the not-found message; unencodable arguments give the serialization message with the encoder's error; an output is returned only when the call returned a value whose coercion is that output |
| `ToolExec.ExecuteDependsOnlyOnCall` | src/agents/voice/realtime/tool_exec.py:80-115 | the reply depends on tool behaviour only through the one call made; when no call is made (unknown name, unencodable arguments), no tool behaviour affects the reply |
| `ToolExec.ExecuteOutcome` | src/agents/voice/realtime/tool_exec.py:108-134 | a raised exception becomes the error object with the exception's text; a returned value becomes its coerced string, or the error object with the coercion's error |
| `ToolExec.ExecuteCoercesOutput` | src/agents/voice/realtime/tool_exec.py:117-130 | a string result is returned unchanged; an encodable dict or list result is returned as its JSON text, which is printable ASCII; an unencodable one gives the error object with the encoder's message; any other result is returned as its `str()` text |
| `ToolExec.Render` | src/agents/voice/realtime/tool_exec.py:84-87 | an output is returned as it is; an error reply is the `json.dumps` text of the error dict, whose encoding never fails and is printable ASCII |
| `ToolExec.UnregisteredNameNotFound` | src/agents/voice/realtime/tool_exec.py:80-87 | on an executor built from `tools`, a name that no `FunctionTool` in `tools` carries gives the not-found error object, including the name of an ignored tool of another kind |
| `ToolExec.CallGoesToLastTool` | src/agents/voice/realtime/tool_exec.py:99-115 | on an executor built from `tools`, with encodable arguments, the call goes to the last `FunctionTool` of the requested name; it carries the shared-context wrapper exactly when some `FunctionTool` of that name qualified as context-aware, and `None` otherwise |
| `ToolExec.FailureRendersAsErrorObject` | src/agents/voice/realtime/tool_exec.py:84-87 | the string returned for any failure is a JSON object with exactly the members `error` and `tool_name`, which reads back to the payload; it is printable ASCII |
| `PyJson.Dumps` | src/agents/voice/realtime/tool_exec.py:90-95 | every failure of `json.dumps` is the `TypeError` message "Object of type ... is not JSON serializable" for some type name |
| `PyJson.DumpsOkIffSerializable` | src/agents/voice/realtime/tool_exec.py:90-95 | `json.dumps` succeeds exactly on values with no unencodable object inside; otherwise it yields the `TypeError` message for some type name |
| `PyJson.PyStr` | src/agents/voice/realtime/tool_exec.py:122-123 | `str()` of an integer is its `json.dumps` text and reads back (as `int()` would) to the same integer; `str()` of any other object is that object's own text |
| `PyJson.DumpsIsPrintableAscii` | src/agents/voice/realtime/tool_exec.py:120-121 | with `ensure_ascii` on, every successful encoding is printable ASCII |
| `PyJson.StringObjectRoundTrip` | src/agents/voice/realtime/tool_exec.py:87 | a dict of strings encodes to text that decodes back to the same members in the same order |
| `PyJson.EscapeStringDecodes` | src/agents/voice/realtime/tool_exec.py:87 | the escaped form of any string, closed by a quote, decodes back to that string, including control characters and characters beyond the Basic Multilingual Plane |

## Left out

- Logging (`logger.info`, `logger.warning`, `logger.error` and the `dir(tool)` dumps). It is a side channel with no effect on the results.
- `async`/`await` and the behaviour of `on_invoke_tool`. A tool call is the given function `invoke` from the call made to its outcome. Cancellation and interleaving of concurrent calls are not modelled. Exceptions outside `Exception`, such as `asyncio.CancelledError`, propagate out of `execute` in the source and are not modelled.
- Runtime reflection (`hasattr`, `callable`, `inspect.signature`). It is replaced by the explicit field `Tool.func`, one of three cases: absent, not callable, or callable with its parameter names.
- `ToolExec.ToolExecutor.constructor`: assumes every callable `function` has a signature. In the source, `inspect.signature` raises `ValueError` or `TypeError` for a callable without one (some built-ins), nothing catches it at `tool_exec.py:40`, and `__init__` fails. A Dafny constructor cannot fail, so this path is not modelled.
- `RunContextWrapper` internals. The model keeps only the context it wraps.
- `json.dumps` is modelled for `None`, booleans, integers, strings, lists, and dicts with string keys. Floats, tuples (`json.dumps` writes one as an array; a tuple returned by a tool at the top level goes through `str()`) and non-string dict keys are not modelled. Any other object is `POther`, which the encoder rejects with its `TypeError` message. Circular references cannot occur, because values are finite trees. In the source, a circular reference in the arguments raises `ValueError`, which the `except TypeError` at `tool_exec.py:92` does not catch.
- `PyJson.Dumps`, `PyJson.PyStr`: integers of any size convert to text. Recent CPython releases limit integer-to-text conversion to 4300 digits by default (`sys.set_int_max_str_digits`) and raise `ValueError` above it. For a tool result, the source turns that error into the error object (`tool_exec.py:131-134`); in the arguments, the error escapes `execute`, because `tool_exec.py:92` catches only `TypeError`. The model has no digit limit and no way for `execute` to raise, so it produces the digits in both cases.
- `str()` (`PyJson.PyStr`) is modelled for `None`, booleans and integers, the values the dispatcher hands to it apart from other objects. For any other object its text is given as `POther.text`. An exception raised from a user-defined `__str__` is not modelled.
- A dict is an ordered sequence of members. Key uniqueness is not enforced.
- `ToolExec.ToolExecutor.Execute` returns a `Reply` that tells an output apart from an error object. `Render` turns it into the single string the source returns. In that string, a tool output whose text equals an error object's JSON cannot be told apart from a real error.
- Strings are sequences of Unicode scalar values. A Python `str` can also hold a lone surrogate, which `json.dumps` with `ensure_ascii` writes as `\udXXX`. Tool names, arguments, exception messages and outputs holding one cannot be represented.
- The decoder in `PyJson` reads only objects whose members are all strings, in `json.dumps`'s layout. Like a strict `json.loads`, it rejects a raw control character inside a string. Unlike `json.loads`, it rejects a lone surrogate escape.
