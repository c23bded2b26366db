/**
 * The tool registry of both agent frameworks: `register_tool` checks that a
 * class defines `_run` and has a non-empty `name` and `description`, then
 * stores a tool under its name in the module-level `_tool_registry`. One
 * variant stores a callable that builds a fresh instance per call; the other
 * stores the unbound `cls._run`.
 */
module ToolRegistry {
  import opened Wrappers

  /**
   * What `register_tool` and a later call can see of a decorated class: its
   * name, whether it defines `_run`, its `name`, `description` and
   * `args_schema` attributes (`None` when absent or `None`), and how many
   * arguments its `__init__` and its `_run` take besides `self`.
   */
  datatype ToolClass = ToolClass(
    className: string,
    definesRun: bool,
    name: Option<string>,
    description: Option<string>,
    argsSchema: Option<string>,
    initArity: nat,
    runArity: nat)

  /** The function a registered tool calls. */
  datatype Callable =
    | FreshInstance(cls: ToolClass)  // `_callable`: `cls()._run(*args)`
    | UnboundRun(cls: ToolClass)     // `cls._run`, the first argument taking the place of `self`

  /** How a variant of `register_tool` wraps the class. */
  datatype Binding = PerCallInstance | Unbound

  /** A registered `Tool`. */
  datatype Tool = Tool(name: string, description: string, func: Callable, argsSchema: Option<string>)

  /** A present, non-empty attribute (`not x` is false for it). */
  predicate Truthy(x: Option<string>) {
    x.Some? && x.value != ""
  }

  function RunMissing(className: string): string {
    "Class " + className + " must define a '_run' method."
  }

  function AttributesMissing(className: string): string {
    "Class " + className + " must define 'name' and 'description' attributes."
  }

  /** The checks of `register_tool`, in order: the message of the TypeError it raises, or `None`. */
  function Validate(cls: ToolClass): (error: Option<string>)
    ensures error.None? <==> cls.definesRun && Truthy(cls.name) && Truthy(cls.description)
    ensures !cls.definesRun ==> error == Some(RunMissing(cls.className))
    ensures cls.definesRun && !(Truthy(cls.name) && Truthy(cls.description)) ==>
      error == Some(AttributesMissing(cls.className))
  {
    if !cls.definesRun then Some(RunMissing(cls.className))
    else if !Truthy(cls.name) || !Truthy(cls.description) then Some(AttributesMissing(cls.className))
    else None
  }

  /** The tool stored for a valid class: the class's own name, description and schema, and a callable that reaches its `_run`. */
  function MakeTool(cls: ToolClass, binding: Binding): (t: Tool)
    requires Truthy(cls.name) && Truthy(cls.description)
    ensures t.name == cls.name.value && t.description == cls.description.value && t.argsSchema == cls.argsSchema
    ensures t.func.cls == cls
    ensures t.func.FreshInstance? <==> binding == PerCallInstance
  {
    var func := if binding == PerCallInstance then FreshInstance(cls) else UnboundRun(cls);
    Tool(cls.name.value, cls.description.value, func, cls.argsSchema)
  }

  /** The module-level `_tool_registry` of one variant. */
  class Registry {
    const binding: Binding
    var tools: map<string, Tool>

    /** The empty registry a module starts with. */
    constructor (binding: Binding)
      ensures this.binding == binding && tools == map[]
    {
      this.binding := binding;
      tools := map[];
    }

    /**
     * `register_tool(cls)`: on a failed check the TypeError and an unchanged
     * registry; otherwise the tool is stored under its name, replacing any
     * tool of that name, and the class itself is returned.
     */
    method Register(cls: ToolClass) returns (r: Result<ToolClass>)
      modifies this`tools
      ensures Validate(cls).Some? ==> r == Failure(Validate(cls).value) && tools == old(tools)
      ensures Validate(cls).None? ==>
        r == Success(cls) && tools == old(tools)[cls.name.value := MakeTool(cls, binding)]
    {
      if !cls.definesRun {
        return Failure(RunMissing(cls.className));
      }
      var name := cls.name;
      var description := cls.description;
      if !Truthy(name) || !Truthy(description) {
        return Failure(AttributesMissing(cls.className));
      }
      var tool := MakeTool(cls, binding);
      tools := tools[name.value := tool];
      return Success(cls);
    }
  }

  /**
   * After a successful registration the name maps to a tool with that name
   * and description, and every other name maps to what it did before; a
   * failed one changes nothing.
   */
  lemma RegistrationEffect(tools: map<string, Tool>, cls: ToolClass, binding: Binding)
    requires Validate(cls).None?
    ensures var after := tools[cls.name.value := MakeTool(cls, binding)];
      && cls.name.value in after
      && after[cls.name.value].name == cls.name.value
      && after[cls.name.value].description == cls.description.value
      && after.Keys == tools.Keys + {cls.name.value}
      && forall n :: n in tools && n != cls.name.value ==> after[n] == tools[n]
  {
  }

  /** The `_run` check comes first: a class without `_run` is refused for that, whatever its attributes. */
  lemma RunCheckFirst(cls: ToolClass)
    requires !cls.definesRun
    ensures Validate(cls) == Validate(cls.(name := None, description := None))
  {
  }

  /**
   * A call of a registered tool with `args` positional arguments: `run` is
   * what `_run` gives when it is called properly; a call that does not fit
   * the signatures raises a TypeError (whose text is not modelled).
   */
  function Call(func: Callable, args: nat, run: Result<string>): Result<string> {
    match func
    case FreshInstance(cls) =>
      if cls.initArity != 0 || args != cls.runArity then Failure(TypeErrorText) else run
    case UnboundRun(cls) =>
      if args != cls.runArity + 1 then Failure(TypeErrorText) else run
  }

  const TypeErrorText: string := "TypeError"

  /**
   * A class whose `__init__` needs arguments (the policy retrieval tool
   * takes `db_path`) registers fine under the per-call variant, but every
   * call of its tool raises, since `cls()` is called with none.
   */
  lemma InitWithArgumentsAlwaysFails(cls: ToolClass, args: nat, run: Result<string>)
    requires Validate(cls).None? && cls.initArity > 0
    ensures Call(MakeTool(cls, PerCallInstance).func, args, run) == Failure(TypeErrorText)
  {
  }

  /**
   * Under the unbound variant, a call with exactly the arguments `_run`
   * declares raises: the first argument is taken as `self`, leaving the last
   * parameter unfilled.
   */
  lemma UnboundCallNeedsExtraArgument(cls: ToolClass, run: Result<string>)
    requires Validate(cls).None?
    ensures Call(MakeTool(cls, Unbound).func, cls.runArity, run) == Failure(TypeErrorText)
  {
  }

  /** The definition tool of the analytics tools: it defines `run`, not `_run`. */
  const RagDefinitionToolClass: ToolClass := ToolClass(
    "RAGDefinitionTool", false, Some("rag_definition_tool"),
    Some("Provides definitions and explanations from a predefined knowledge base. Use this for general queries about ERP concepts or policies. Input should be a specific term or topic."),
    None, 0, 1)

  /** Decorating a class that defines only `run` raises at import, and nothing is registered. */
  lemma RunOnlyClassIsRefused()
    ensures Validate(RagDefinitionToolClass) == Some(RunMissing("RAGDefinitionTool"))
  {
  }
}
