/**
 * The bundled KDP formatting plugin (`werkstatt_plugins/kdpformat`): its
 * `describe()` table and the `extract` command. `json.loads` is a parameter:
 * a partial function from text to a value.
 */
module KdpFormat {

  import opened Wrappers
  import opened Py

  const ClassName: string := "kdpformat"
  const Version: string := "0.1.0"
  const Description: string := "Bereitet extrahierte Inhalte für KDP auf (Dummy)"

  /** `json.loads`: the value a text denotes, or `None` when it raises. */
  type JsonParser = string -> Option<Value>

  /** `execute(command, args)`: `extract` takes `args.get("data")`; a string is
      parsed, and replaced by `{"raw": text}` when parsing fails; `None` then
      becomes `{}`; the result is `{"kdp": data}`. Every other command raises
      `KeyError(command)`. */
  function Execute(command: string, args: Args, parse: JsonParser): (r: Result<Value, Exception>)
    ensures command != "extract" <==> r.Failure?
    ensures r.Failure? ==> r.error == KeyError(command)
    ensures command == "extract" && ("data" !in args || args["data"] == Null) ==>
      r == Success(Dict(map["kdp" := Dict(map[])]))
    ensures command == "extract" && "data" in args && args["data"].Str? ==>
      var text := args["data"].s;
      r == Success(Dict(map["kdp" :=
        match parse(text)
        case None => Dict(map["raw" := Str(text)])
        case Some(v) => if v == Null then Dict(map[]) else v]))
    ensures command == "extract" && "data" in args && !args["data"].Str? && args["data"] != Null ==>
      r == Success(Dict(map["kdp" := args["data"]]))
  {
    if command == "extract" then
      var data := Get(args, "data", Null);
      var data := if data.Str? then
          match parse(data.s)
          case Some(v) => v
          case None => Dict(map["raw" := data])
        else data;
      var data := if data == Null then Dict(map[]) else data;
      Success(Dict(map["kdp" := data]))
    else Failure(KeyError(command))
  }

  /** `describe()`: `extract` with a required `data` parameter. */
  function Describe(): Value {
    List([
      Dict(map[
        "name" := Str("extract"),
        "description" := Str("Bereitet Daten für KDP auf (Dummy)"),
        "params" := List([Dict(map[
          "name" := Str("data"), "type" := Str("string"), "required" := Bool(true),
          "description" := Str("JSON-String der Eingabedaten")])])])])
  }

  /** The parameter `describe()` marks as required may be left out: `extract`
      then answers `{"kdp": {}}` instead of failing. */
  lemma RequiredDataMayBeMissing(parse: JsonParser)
    ensures var p := Describe().items[0].entries["params"].items[0].entries;
      p["name"] == Str("data") && p["required"] == Bool(true)
    ensures Execute("extract", map[], parse) == Success(Dict(map["kdp" := Dict(map[])]))
  {
  }

  /** Text that parses to `null` is treated like a missing `data`. */
  lemma NullTextIsEmpty(text: string, args: Args, parse: JsonParser)
    requires parse(text) == Some(Null)
    ensures Execute("extract", args["data" := Str(text)], parse) == Execute("extract", map[], parse)
  {
  }
}
