/**
 * The bundled example plugin (`werkstatt_plugins/example_tool`): class
 * attributes, the `describe()` table and the `execute` dispatcher.
 */
module ExampleTool {

  import opened Wrappers
  import opened Py

  /** The plugin's own `name` attribute (not its catalog key, which is the
      directory name `example_tool`). */
  const ClassName: string := "example"
  const Version: string := "0.1.0"
  const Description: string := "Beispiel-Tool: Begrüßung und Echo"

  /** The default of `greet`'s `name`, both in `describe()` and in `execute`. */
  const DefaultName: string := "Welt"

  const EchoMissingMessage: string := "'msg' ist erforderlich"

  /** `execute(command, args)`: `greet` greets `args.get("name", "Welt")`; `echo`
      returns `str(args["msg"])` and raises `ValueError` without it; every other
      command raises `KeyError(command)`. */
  function Execute(command: string, args: Args): (r: Result<Value, Exception>)
    ensures command == "greet" && "name" !in args ==> r == Success(Str("Hallo, " + DefaultName + "!"))
    ensures command == "greet" && "name" in args ==> r == Success(Str("Hallo, " + ToStr(args["name"]) + "!"))
    ensures command == "echo" && "msg" !in args ==> r == Failure(ValueError(EchoMissingMessage))
    ensures command == "echo" && "msg" in args ==> r == Success(Str(ToStr(args["msg"])))
    ensures r.Failure? && r.error.KeyError? <==> command != "greet" && command != "echo"
    ensures command != "greet" && command != "echo" ==> r == Failure(KeyError(command))
  {
    if command == "greet" then
      var name := Get(args, "name", Str(DefaultName));
      Success(Str("Hallo, " + ToStr(name) + "!"))
    else if command == "echo" then
      if "msg" !in args then Failure(ValueError(EchoMissingMessage))
      else Success(Str(ToStr(args["msg"])))
    else Failure(KeyError(command))
  }

  /** One parameter entry of `describe()`. */
  function Param(name: string, required: bool, description: string): map<string, Value> {
    map["name" := Str(name), "type" := Str("string"), "required" := Bool(required), "description" := Str(description)]
  }

  /** The `greet` entry of `describe()`: an optional `name` defaulting to `"Welt"`. */
  function GreetEntry(): map<string, Value> {
    map[
      "name" := Str("greet"),
      "description" := Str("Gibt eine Begrüßung aus."),
      "params" := List([Dict(Param("name", false, "Name zum Grüßen")["default" := Str(DefaultName)])])]
  }

  /** The `echo` entry of `describe()`: a required `msg`. */
  function EchoEntry(): map<string, Value> {
    map[
      "name" := Str("echo"),
      "description" := Str("Gibt die Nachricht 1:1 zurück."),
      "params" := List([Dict(Param("msg", true, "Nachricht"))])]
  }

  /** `describe()`: the `greet` and `echo` entries, in that order. */
  function Describe(): Value {
    List([Dict(GreetEntry()), Dict(EchoEntry())])
  }

  /** A greeting for a string name is that name between `Hallo, ` and `!`; a
      name given as `None` is printed as `None`, not replaced by the default. */
  lemma GreetNames(name: string)
    ensures Execute("greet", map["name" := Str(name)]) == Success(Str("Hallo, " + name + "!"))
    ensures Execute("greet", map["name" := Null]) == Success(Str("Hallo, None!"))
  {
    var args: Args := map["name" := Null];
    assert Get(args, "name", Str(DefaultName)) == Null;
    assert ToStr(Null) == "None";
    assert "Hallo, " + "None" + "!" == "Hallo, None!";
  }

  /** `echo` returns exactly the message it is given. */
  lemma EchoRoundTrip(msg: string, args: Args)
    ensures Execute("echo", args["msg" := Str(msg)]) == Success(Str(msg))
  {
  }
}
