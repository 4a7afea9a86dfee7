/**
 * What `ToolExecutor.__init__` computes from the tools it is given: the name-to-tool
 * map and the set of context-aware tool names. The two are defined here as functions
 * of the input sequence, folded from its first element to its last as the
 * constructor's loop runs, and the lemmas say what they hold.
 */
module Registry {

  /**
   * The `function` attribute of a tool, as `hasattr`, `callable` and
   * `inspect.signature` reveal it: absent, present but not callable, or a callable
   * with its parameter names in declaration order (a callable whose signature cannot
   * be retrieved is not modelled).
   */
  datatype FunctionAttr = NoFunction | NotCallable | Callable(parameters: seq<string>)

  /**
   * A tool handed to the executor. `isFunctionTool` tells whether it is a
   * `FunctionTool`, the only kind the executor registers; `handle` stands for the
   * object's identity, so two tools with equal names and attributes can still differ
   * in what their `on_invoke_tool` does.
   */
  datatype Tool = Tool(name: string, isFunctionTool: bool, func: FunctionAttr, handle: nat)

  /** The tools that are marked context-aware by name when they have no `function` attribute. */
  const NameMarkedTools: seq<string> := ["greet_user_and_count", "get_user_details"]

  /** Whether the constructor adds this function tool's name to the context-aware set. */
  predicate MarksContextAware(t: Tool)
  {
    match t.func
    case Callable(parameters) => |parameters| > 0 && parameters[0] == "context"
    case NotCallable => false
    case NoFunction => t.name in NameMarkedTools
  }

  /** The name-to-tool map after the loop has run over `tools`. */
  function Registered(tools: seq<Tool>): map<string, Tool>
  {
    if tools == [] then map[]
    else
      var previous := Registered(tools[..|tools| - 1]);
      var t := tools[|tools| - 1];
      if t.isFunctionTool then previous[t.name := t] else previous
  }

  /** The context-aware names after the loop has run over `tools`. */
  function ContextAwareNames(tools: seq<Tool>): set<string>
  {
    if tools == [] then {}
    else
      var previous := ContextAwareNames(tools[..|tools| - 1]);
      var t := tools[|tools| - 1];
      if t.isFunctionTool && MarksContextAware(t) then previous + {t.name} else previous
  }

  /** Some entry of `tools` is a function tool called `name`. */
  predicate HasFunctionTool(tools: seq<Tool>, name: string)
  {
    exists i :: 0 <= i < |tools| && tools[i].isFunctionTool && tools[i].name == name
  }

  /** `tools[i]` is a function tool and no later entry is a function tool of the same name. */
  predicate IsLastFunctionTool(tools: seq<Tool>, i: int)
  {
    && 0 <= i < |tools|
    && tools[i].isFunctionTool
    && forall j :: i < j < |tools| ==> !(tools[j].isFunctionTool && tools[j].name == tools[i].name)
  }

  /** A name is a key of the map exactly when some function tool in the input has that name. */
  lemma {:induction false} RegisteredKeys(tools: seq<Tool>, name: string)
    ensures name in Registered(tools) <==> HasFunctionTool(tools, name)
  {
    if tools != [] {
      var init := tools[..|tools| - 1];
      RegisteredKeys(init, name);
      if HasFunctionTool(init, name) {
        var i :| 0 <= i < |init| && init[i].isFunctionTool && init[i].name == name;
        assert tools[i] == init[i];
      }
    }
  }

  /**
   * Every value in the map is a function tool from the input, stored under its own
   * name: entries of any other kind are never stored.
   */
  lemma {:induction false} RegisteredEntries(tools: seq<Tool>, name: string)
    requires name in Registered(tools)
    ensures Registered(tools)[name].isFunctionTool
    ensures Registered(tools)[name].name == name
    ensures Registered(tools)[name] in tools
  {
    var init := tools[..|tools| - 1];
    var t := tools[|tools| - 1];
    if !(t.isFunctionTool && t.name == name) {
      RegisteredEntries(init, name);
      assert init[..] <= tools;
    }
  }

  /** Last write wins: a name maps to the last function tool in input order that carries it. */
  lemma {:induction false} LastWriteWins(tools: seq<Tool>, i: int)
    requires IsLastFunctionTool(tools, i)
    ensures tools[i].name in Registered(tools)
    ensures Registered(tools)[tools[i].name] == tools[i]
  {
    var init := tools[..|tools| - 1];
    if i < |tools| - 1 {
      assert IsLastFunctionTool(init, i);
      LastWriteWins(init, i);
    }
  }

  /**
   * A name is context-aware exactly when some function tool of that name in the
   * input qualifies: its `function` is callable and its first parameter is called
   * `context`, or it has no `function` attribute and its name is one of the two
   * names marked by hand. A tool whose `function` is not callable never qualifies.
   */
  lemma {:induction false} ContextAwareIff(tools: seq<Tool>, name: string)
    ensures name in ContextAwareNames(tools) <==>
      exists i :: 0 <= i < |tools| && tools[i].isFunctionTool && tools[i].name == name &&
        match tools[i].func
        case Callable(parameters) => |parameters| > 0 && parameters[0] == "context"
        case NotCallable => false
        case NoFunction => name == "greet_user_and_count" || name == "get_user_details"
  {
    if tools != [] {
      var init := tools[..|tools| - 1];
      ContextAwareIff(init, name);
      assert forall i :: 0 <= i < |init| ==> init[i] == tools[i];
    }
  }

  /** Only registered names are context-aware. */
  lemma {:induction false} ContextAwareAreRegistered(tools: seq<Tool>)
    ensures ContextAwareNames(tools) <= Registered(tools).Keys
  {
    if tools != [] {
      ContextAwareAreRegistered(tools[..|tools| - 1]);
    }
  }

  /**
   * Neither the map's keys nor the context-aware set ever shrink as more tools are
   * processed: once a name is marked, a later tool of the same name that does not
   * qualify does not unmark it.
   */
  lemma {:induction false} RegistrationGrows(tools: seq<Tool>, more: seq<Tool>)
    ensures Registered(tools).Keys <= Registered(tools + more).Keys
    ensures ContextAwareNames(tools) <= ContextAwareNames(tools + more)
  {
    if more != [] {
      var all := tools + more;
      var shorter := tools + more[..|more| - 1];
      assert all[..|all| - 1] == shorter;
      RegistrationGrows(tools, more[..|more| - 1]);
      assert Registered(shorter).Keys <= Registered(all).Keys;
      assert ContextAwareNames(shorter) <= ContextAwareNames(all);
    } else {
      assert tools + more == tools;
    }
  }

  /**
   * A tool with signature `(context, x)` is marked and one with `(x, y)` is not;
   * and when a marked tool is followed by an unmarked one of the same name, the map
   * holds the second while the name stays marked.
   */
  lemma ContextAwareScenario()
    ensures var tools := [Tool("lookup", true, Callable(["context", "x"]), 0),
                          Tool("add", true, Callable(["x", "y"]), 1)];
            "lookup" in ContextAwareNames(tools) && "add" !in ContextAwareNames(tools)
    ensures var first := Tool("lookup", true, Callable(["context", "x"]), 0);
            var second := Tool("lookup", true, Callable(["x"]), 1);
            Registered([first, second])["lookup"] == second && !MarksContextAware(second) &&
            "lookup" in ContextAwareNames([first, second])
  {
  }
}
