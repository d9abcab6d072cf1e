/**
 * The capability contract every plugin satisfies (the abstract base class
 * `ToolPlugin`): class attributes with defaults, the `on_load` and `register`
 * hooks, introspection through `describe` and execution through `execute`.
 *
 * Plugin objects are values of a type parameter `P`; what the host can do with
 * them is the record `Hooks<P>` of functions. A hook call either returns or
 * raises, and the host only ever looks at that distinction.
 */
module Contract {

  import opened Wrappers
  import opened Py

  /** How a hook call that returns `None` ended. */
  datatype Outcome = Returned | Threw(e: Exception)

  /** The read-only context `on_load` receives: the project root and the
      configuration. */
  datatype LoadContext = LoadContext(projectRoot: string, config: map<string, Value>)

  /** The duck-typed surface of plugin objects of type `P`: the two hooks, whether
      `describe` / `execute` exist and are callable, and what calling them does. */
  datatype Hooks<!P> = Hooks(
    onLoad: (P, LoadContext) -> Outcome,
    register: P -> Outcome,
    hasDescribe: P -> bool,
    describe: P -> Result<Value, Exception>,
    hasExecute: P -> bool,
    execute: (P, string, Args) -> Result<Value, Exception>)

  /** Class attribute `version` of `ToolPlugin`. */
  const DefaultVersion: string := "0.1.0"

  /** Class attribute `description` of `ToolPlugin`. */
  const DefaultDescription: string := ""

  /** The message of the default `execute`. */
  const NotImplementedMessage: string := "execute() nicht implementiert"

  /** The inherited `on_load`: it returns `None` and does nothing. */
  function DefaultOnLoad(ctx: LoadContext): (r: Outcome)
    ensures r == Returned
  {
    Returned
  }

  /** The inherited `describe`: no commands. */
  function DefaultDescribe(): (r: Result<Value, Exception>)
    ensures r == Success(List([]))
  {
    Success(List([]))
  }

  /** The inherited `execute` raises `NotImplementedError` for every command; in
      particular it never raises the documented unknown-command signal `KeyError`. */
  function DefaultExecute(command: string, args: Args): (r: Result<Value, Exception>)
    ensures r.Failure? && r.error == NotImplementedError(NotImplementedMessage)
    ensures !r.error.KeyError?
  {
    Failure(NotImplementedError(NotImplementedMessage))
  }

  /** The hooks of a plugin class that implements only the abstract `register`
      and inherits every other method. */
  function InheritingHooks<P>(register: P -> Outcome): Hooks<P> {
    Hooks(
      (p, ctx) => DefaultOnLoad(ctx),
      register,
      p => true,
      p => DefaultDescribe(),
      p => true,
      (p, c, a) => DefaultExecute(c, a))
  }

  /** A subclass of `ToolPlugin` as written: whether it implements the abstract
      `register`, and the class attributes it sets (`None` when it inherits them). */
  datatype PluginClass = PluginClass(
    implementsRegister: bool,
    versionOverride: Option<Option<string>>,
    descriptionOverride: Option<Option<string>>)

  /** The attribute values an instance reads through `getattr`. */
  datatype Attributes = Attributes(version: Option<string>, description: Option<string>)

  /** Instantiating a plugin class (what `get_plugin()` does): an abstract
      `register` makes the constructor raise `TypeError`; otherwise the instance
      carries the class attributes, falling back to the base-class defaults. */
  function Instantiate(cls: PluginClass): (r: Result<Attributes, Exception>)
    ensures r.Failure? <==> !cls.implementsRegister
    ensures r.Failure? ==> r.error.TypeError?
    ensures r.Success? && cls.versionOverride.None? ==> r.value.version == Some(DefaultVersion)
    ensures r.Success? && cls.descriptionOverride.None? ==> r.value.description == Some(DefaultDescription)
    ensures r.Success? && cls.versionOverride.Some? ==> r.value.version == cls.versionOverride.value
    ensures r.Success? && cls.descriptionOverride.Some? ==> r.value.description == cls.descriptionOverride.value
  {
    if !cls.implementsRegister then
      Failure(TypeError("Can't instantiate abstract class with abstract method register"))
    else
      Success(Attributes(
        if cls.versionOverride.Some? then cls.versionOverride.value else Some(DefaultVersion),
        if cls.descriptionOverride.Some? then cls.descriptionOverride.value else Some(DefaultDescription)))
  }

  /** Unless a subclass overrides it, the version an instance reports is never `None`. */
  lemma VersionPresentUnlessOverridden(cls: PluginClass)
    requires cls.implementsRegister && cls.versionOverride.None?
    ensures Instantiate(cls).Success? && Instantiate(cls).value.version.Some?
  {
  }
}
