/**
 * The frontend client against the backend: the JSON that carries values
 * between them, what the client makes of every reply of `POST /run` and of
 * `POST /files/upload`, and where the mock service and the backend disagree.
 */
module WebBackend {

  import opened Wrappers
  import opened Text
  import opened Py
  import opened Registry
  import opened Api
  import opened WebApi
  import Uri
  import ExampleTool
  import KdpFormat
  import Builtins

  // ---------------------------------------------------------------------------
  // JSON between the two sides

  /** A backend value as the page's `res.json()` sees it. */
  function ToJs(v: Value): JsValue
    decreases v
  {
    match v
    case Null => JsNull
    case Bool(b) => JsBool(b)
    case Int(i) => JsNum(i)
    case Str(s) => JsStr(s)
    case List(items) => JsArray(seq(|items|, k requires 0 <= k < |items| => ToJs(items[k])))
    case Dict(entries) => JsObject(map k | k in entries :: ToJs(entries[k]))
  }

  /** A page value as the backend parses it after `JSON.stringify`: `undefined`
      has no JSON form, so it is dropped from objects, becomes `null` inside
      arrays, and leaves no value at the top. */
  function FromJs(v: JsValue): (r: Option<Value>)
    ensures r.None? <==> v.Undefined?
    decreases v, 1
  {
    match v
    case Undefined => None
    case JsNull => Some(Null)
    case JsBool(b) => Some(Bool(b))
    case JsNum(n) => Some(Int(n))
    case JsStr(s) => Some(Str(s))
    case JsArray(items) =>
      Some(List(seq(|items|, k requires 0 <= k < |items| => var e := FromJs(items[k]); if e.Some? then e.value else Null)))
    case JsObject(props) => Some(Dict(FromJsProps(props)))
  }

  function FromJsProps(props: map<string, JsValue>): (d: map<string, Value>)
    ensures forall k :: k in d <==> k in props && !props[k].Undefined?
    decreases JsObject(props), 0
  {
    map k | k in props && !props[k].Undefined? :: FromJs(props[k]).value
  }

  lemma ToJsSingle(key: string, v: Value)
    ensures ToJs(Dict(map[key := v])) == JsObject(map[key := ToJs(v)])
  {
    assert (map k | k in map[key := v] :: ToJs(map[key := v][k])) == map[key := ToJs(v)];
  }

  /** What the page sends survives the trip whenever it holds no `undefined`. */
  lemma {:induction false} JsonRoundTrip(v: Value)
    ensures FromJs(ToJs(v)) == Some(v)
    decreases v
  {
    match v
    case List(items) =>
      forall k | 0 <= k < |items| {
        JsonRoundTrip(items[k]);
      }
      assert FromJs(ToJs(v)).value.items == items;
    case Dict(entries) =>
      forall k | k in entries {
        JsonRoundTrip(entries[k]);
      }
      assert FromJsProps(ToJs(v).props) == entries;
    case _ =>
  }

  /** The response the page receives for a reply of `POST /run`; the plain-text
      error page is not JSON. */
  function RunResponse(r: Reply): (res: WebApi.Response)
    ensures res.status == Status(r)
    ensures res.body.None? <==> r.Unhandled?
  {
    var body := ResponseBody(r);
    WebApi.Response(Status(r), if body.Some? then Some(ToJs(body.value)) else None)
  }

  // ---------------------------------------------------------------------------
  // What the client makes of the backend's replies

  lemma DecimalStatus()
    ensures "POST /run failed: " + Decimal(404) == "POST /run failed: 404"
    ensures "POST /run failed: " + Decimal(500) == "POST /run failed: 500"
    ensures "POST /files/upload failed: " + Decimal(500) == "POST /files/upload failed: 500"
  {
    assert Decimal(404) == "404" && Decimal(500) == "500";
  }

  /** A successful run resolves to the plugin's output; every failure rejects
      with the backend's `detail` when that is a non-empty string, with the
      status line when it is empty or missing, and with `[object Object]` for a
      body the backend refused to validate. */
  lemma ClientRunOutcome(r: Reply)
    ensures r.Ok? ==> RunResult(RunResponse(r)) == Success(ToJs(r.output))
    ensures r.PluginNotFound? ==> RunResult(RunResponse(r)) == Failure(Error(PluginNotFoundDetail))
    ensures r.NoExecute? ==> RunResult(RunResponse(r)) == Failure(Error(NoExecuteDetail))
    ensures (r.CommandNotFound? || r.ExecutionFailed?) && r.detail != "" ==>
      RunResult(RunResponse(r)) == Failure(Error(r.detail))
    ensures r.CommandNotFound? && r.detail == "" ==> RunResult(RunResponse(r)) == Failure(Error("POST /run failed: 404"))
    ensures r.ExecutionFailed? && r.detail == "" ==> RunResult(RunResponse(r)) == Failure(Error("POST /run failed: 500"))
    ensures r.Unhandled? ==> RunResult(RunResponse(r)) == Failure(Error("POST /run failed: 500"))
    ensures r.InvalidBody? ==> RunResult(RunResponse(r)) == Failure(Error("[object Object]"))
  {
    match r
    case Ok(v) => OkOutcome(v);
    case InvalidBody(msg) => InvalidBodyOutcome(msg);
    case Unhandled(_) => DecimalStatus();
    case PluginNotFound => StringDetailOutcome(r, PluginNotFoundDetail);
    case NoExecute => StringDetailOutcome(r, NoExecuteDetail);
    case CommandNotFound(d) => StringDetailOutcome(r, d); DecimalStatus();
    case ExecutionFailed(d) => StringDetailOutcome(r, d); DecimalStatus();
  }

  /** A successful reply resolves to the plugin's output. */
  lemma OkOutcome(v: Value)
    ensures RunResult(RunResponse(Ok(v))) == Success(ToJs(v))
  {
    var d := map["ok" := Bool(true), "output" := v];
    assert ResponseBody(Ok(v)) == Some(Dict(d));
    var j := ToJs(Dict(d));
    assert "output" in d && j.props["output"] == ToJs(v);
  }

  /** A reply whose detail is a string. */
  lemma StringDetailOutcome(r: Reply, d: string)
    requires ResponseBody(r) == Some(Dict(map["detail" := Str(d)])) && !r.Ok?
    ensures RunResult(RunResponse(r)) == Failure(Error(if d != "" then d else "POST /run failed: " + Decimal(Status(r))))
  {
    ToJsSingle("detail", Str(d));
  }

  /** The 422 detail is a list of error objects, which `String` renders as
      `[object Object]`. */
  lemma InvalidBodyOutcome(msg: string)
    ensures RunResult(RunResponse(InvalidBody(msg))) == Failure(Error("[object Object]"))
  {
    var inner := Dict(map["msg" := Str(msg)]);
    ToJsSingle("detail", List([inner]));
    ToJsSingle("msg", Str(msg));
    var detail := ToJs(List([inner]));
    assert detail == JsArray([ToJs(inner)]);
    var parts := seq(1, k requires 0 <= k < 1 => if Nullish(detail.items[k]) then "" else ToString(detail.items[k]));
    assert parts == ["[object Object]"];
    assert ToString(detail) == Join(",", parts) == "[object Object]";
  }

  /** The request body `{ args }` reaches the handler as the argument bag when
      `args` is an object (its `undefined` entries dropped), as no arguments when
      it is `undefined`, and is refused with 422 otherwise. */
  lemma ClientArgsReachHandler(args: JsValue)
    ensures FromJs(RunRequestBody(args)).Some?
    ensures args.JsObject? ==> ParseRunRequest(FromJs(RunRequestBody(args)).value) == Success(FromJsProps(args.props))
    ensures args.Undefined? ==> ParseRunRequest(FromJs(RunRequestBody(args)).value) == Success(map[])
    ensures !args.JsObject? && !args.Undefined? ==> ParseRunRequest(FromJs(RunRequestBody(args)).value).Failure?
  {
    var body := FromJs(RunRequestBody(args)).value;
    assert body == Dict(FromJsProps(map["args" := args]));
  }

  /** The real round trip of `runCommand`: the page's arguments reach the
      handler, and what it replies is what the call resolves or rejects with. */
  function ClientRun<P>(m: Manager, hooks: Contract.Hooks<P>, discovered: seq<Record<P>>,
                        plugin: string, command: string, args: JsValue): Result<JsValue, JsError>
    requires FromJs(RunRequestBody(args)).Some?
  {
    RunResult(RunResponse(RunEndpoint(m, hooks, discovered, plugin, command, FromJs(RunRequestBody(args)).value)))
  }

  // ---------------------------------------------------------------------------
  // The mock against the backend

  /** Arguments given as an object reach `run_command` as the bag of their
      defined entries, and its reply is what the call settles with. */
  lemma ClientSees<P>(m: Manager, hooks: Contract.Hooks<P>, discovered: seq<Record<P>>,
                      plugin: string, command: string, props: map<string, JsValue>, reply: Reply)
    requires RunCommand(m, hooks, discovered, plugin, command, FromJsProps(props)) == reply
    ensures FromJs(RunRequestBody(JsObject(props))).Some?
    ensures ClientRun(m, hooks, discovered, plugin, command, JsObject(props)) == RunResult(RunResponse(reply))
  {
    ClientArgsReachHandler(JsObject(props));
  }

  /** A run the backend answers with "not found" rejects with its detail. */
  lemma ClientSeesNotFound<P>(m: Manager, hooks: Contract.Hooks<P>, discovered: seq<Record<P>>,
                              plugin: string, command: string, props: map<string, JsValue>)
    requires RunCommand(m, hooks, discovered, plugin, command, FromJsProps(props)) == PluginNotFound
    ensures FromJs(RunRequestBody(JsObject(props))).Some?
    ensures ClientRun(m, hooks, discovered, plugin, command, JsObject(props)) == Failure(Error(PluginNotFoundDetail))
  {
    ClientSees(m, hooks, discovered, plugin, command, props, PluginNotFound);
    StringDetailOutcome(PluginNotFound, PluginNotFoundDetail);
  }

  /** A run the plugin answers resolves to its output. */
  lemma ClientSeesOutput<P>(m: Manager, hooks: Contract.Hooks<P>, discovered: seq<Record<P>>,
                            plugin: string, command: string, props: map<string, JsValue>, v: Value)
    requires RunCommand(m, hooks, discovered, plugin, command, FromJsProps(props)) == Ok(v)
    ensures FromJs(RunRequestBody(JsObject(props))).Some?
    ensures ClientRun(m, hooks, discovered, plugin, command, JsObject(props)) == Success(ToJs(v))
  {
    ClientSees(m, hooks, discovered, plugin, command, props, Ok(v));
    OkOutcome(v);
  }

  /** An empty object reaches the handler as no arguments. */
  lemma NoProps()
    ensures FromJsProps(map[]) == map[]
  {
    var none: map<string, JsValue> := map[];
    assert forall k :: k !in FromJsProps(none);
  }

  /** A run the plugin answers with a string resolves to that string. */
  lemma ClientSeesText<P>(m: Manager, hooks: Contract.Hooks<P>, discovered: seq<Record<P>>,
                          plugin: string, command: string, props: map<string, JsValue>, text: string)
    requires RunCommand(m, hooks, discovered, plugin, command, FromJsProps(props)) == Ok(Str(text))
    ensures FromJs(RunRequestBody(JsObject(props))).Some?
    ensures ClientRun(m, hooks, discovered, plugin, command, JsObject(props)) == Success(JsStr(text))
  {
    ClientSeesOutput(m, hooks, discovered, plugin, command, props, Str(text));
  }

  /** A run under a name the catalog lacks, and one that greets, as the client sees them. */
  lemma ClientSeesGreeting<P>(m: Manager, hooks: Contract.Hooks<P>, discovered: seq<Record<P>>, absent: string, present: string)
    requires RunCommand(m, hooks, discovered, absent, "greet", map[]) == PluginNotFound
    requires RunCommand(m, hooks, discovered, present, "greet", map[]) == Ok(Str("Hallo, Welt!"))
    ensures ClientRun(m, hooks, discovered, absent, "greet", JsObject(map[])) == Failure(Error(PluginNotFoundDetail))
    ensures ClientRun(m, hooks, discovered, present, "greet", JsObject(map[])) == Success(JsStr("Hallo, Welt!"))
  {
    var none: map<string, JsValue> := map[];
    NoProps();
    ClientSeesNotFound(m, hooks, discovered, absent, "greet", none);
    ClientSeesText(m, hooks, discovered, present, "greet", none, "Hallo, Welt!");
  }

  /** The backend finds the example plugin under its directory name only. */
  lemma BackendNamesExampleByDirectory(m: Manager, parse: KdpFormat.JsonParser)
    requires IsEnabled(m, "example_tool") == Success(true)
    ensures ClientRun(m, Builtins.HooksFor(parse), Builtins.ShippedCatalog(m), ExampleTool.ClassName, "greet", JsObject(map[]))
      == Failure(Error(PluginNotFoundDetail))
    ensures ClientRun(m, Builtins.HooksFor(parse), Builtins.ShippedCatalog(m), "example_tool", "greet", JsObject(map[]))
      == Success(JsStr("Hallo, Welt!"))
  {
    Builtins.ExampleUnknownUnderClassName(m, parse, "greet", map[]);
    Builtins.ExampleGreets(m, parse);
    ClientSeesGreeting(m, Builtins.HooksFor(parse), Builtins.ShippedCatalog(m), ExampleTool.ClassName, "example_tool");
  }

  /** The mock answers to the example plugin's own `name` attribute, the backend
      to its directory name, so each rejects the name the other accepts. */
  lemma MockAndBackendNameTheExampleDifferently(m: Manager, parse: KdpFormat.JsonParser)
    requires IsEnabled(m, "example_tool") == Success(true)
    ensures MockPluginName == ExampleTool.ClassName
    ensures MockRunCommand(ExampleTool.ClassName, "greet", JsObject(map[])) == Success("Hallo, Welt!")
    ensures MockRunCommand("example_tool", "greet", JsObject(map[])) == Failure(Error("Plugin not found"))
    ensures ClientRun(m, Builtins.HooksFor(parse), Builtins.ShippedCatalog(m), ExampleTool.ClassName, "greet", JsObject(map[]))
      == Failure(Error(PluginNotFoundDetail))
    ensures ClientRun(m, Builtins.HooksFor(parse), Builtins.ShippedCatalog(m), "example_tool", "greet", JsObject(map[]))
      == Success(JsStr("Hallo, Welt!"))
  {
    MockGreetNames("");
    BackendNamesExampleByDirectory(m, parse);
  }

  /** A `null` name: the mock's `??` falls back to `Welt`, the backend's
      `args.get("name", "Welt")` keeps the `None` and prints it. */
  lemma GreetWithNullNameDiverges(m: Manager, parse: KdpFormat.JsonParser)
    requires IsEnabled(m, "example_tool") == Success(true)
    ensures var args := JsObject(map["name" := JsNull]);
      && MockRunCommand(MockPluginName, "greet", args) == Success("Hallo, Welt!")
      && ClientRun(m, Builtins.HooksFor(parse), Builtins.ShippedCatalog(m), "example_tool", "greet", args)
        == Success(JsStr("Hallo, None!"))
  {
    MockGreetNames("");
    BackendGreetsNone(m, parse);
  }

  /** `null` is a JSON value, so the key survives serialisation. */
  lemma NullNameProps()
    ensures FromJsProps(map["name" := JsNull]) == map["name" := Null]
  {
    var props := map["name" := JsNull];
    assert forall k :: k in FromJsProps(props) <==> k == "name";
  }

  /** Python's greeting for an explicit `None`. */
  lemma GreetNone()
    ensures ReplyOf(ExampleTool.Execute("greet", map["name" := Null])) == Ok(Str("Hallo, None!"))
  {
    ExampleTool.GreetNames("");
  }

  lemma BackendGreetsNone(m: Manager, parse: KdpFormat.JsonParser)
    requires IsEnabled(m, "example_tool") == Success(true)
    ensures ClientRun(m, Builtins.HooksFor(parse), Builtins.ShippedCatalog(m), "example_tool", "greet", JsObject(map["name" := JsNull]))
      == Success(JsStr("Hallo, None!"))
  {
    assert RunCommand(m, Builtins.HooksFor(parse), Builtins.ShippedCatalog(m), "example_tool", "greet", map["name" := Null])
        == Ok(Str("Hallo, None!")) by {
      Builtins.ExampleRuns(m, parse, "greet", map["name" := Null]);
      GreetNone();
    }
    ClientSeesNull(m, Builtins.HooksFor(parse), Builtins.ShippedCatalog(m), "example_tool", "greet", "Hallo, None!");
  }

  /** A `null` argument reaches the handler as `None`. */
  lemma ClientSeesNull<P>(m: Manager, hooks: Contract.Hooks<P>, discovered: seq<Record<P>>,
                          plugin: string, command: string, text: string)
    requires RunCommand(m, hooks, discovered, plugin, command, map["name" := Null]) == Ok(Str(text))
    ensures FromJs(RunRequestBody(JsObject(map["name" := JsNull]))).Some?
    ensures ClientRun(m, hooks, discovered, plugin, command, JsObject(map["name" := JsNull])) == Success(JsStr(text))
  {
    NullNameProps();
    ClientSeesText(m, hooks, discovered, plugin, command, map["name" := JsNull], text);
  }



  /** How `GET /plugins` renders a descriptor as JSON. */
  function ParamJson(p: CommandParam): JsValue {
    JsObject(map[
      "name" := JsStr(p.name), "type" := JsStr(p.paramType), "required" := JsBool(p.required),
      "description" := JsStr(p.description), "default" := ToJs(p.default)])
  }

  function CommandJson(c: CommandDesc): JsValue {
    JsObject(map[
      "name" := JsStr(c.name), "description" := JsStr(c.description),
      "params" := JsArray(seq(|c.params|, k requires 0 <= k < |c.params| => ParamJson(c.params[k])))])
  }

  /** The backend lists the example plugin's commands as its `describe()`
      declares them. */
  lemma BackendListsExampleCommands(parse: KdpFormat.JsonParser)
    ensures CommandsFor(Builtins.HooksFor(parse), true, Some(Builtins.Example)) == Builtins.ExampleCommands()
  {
    Builtins.ExampleDescribeMatchesExecute("greet", map[]);
  }

  lemma CommandJsonOne(c: CommandDesc)
    requires |c.params| == 1
    ensures CommandJson(c) == JsObject(map[
      "name" := JsStr(c.name), "description" := JsStr(c.description), "params" := JsArray([ParamJson(c.params[0])])])
  {
    assert seq(|c.params|, k requires 0 <= k < |c.params| => ParamJson(c.params[k])) == [ParamJson(c.params[0])];
  }

  /** The example plugin describes itself to the backend as the mock describes
      it, except that the backend also sends `echo`'s `msg` an explicit
      `default: null` the mock leaves out. */
  lemma MockCommandsMatchBackend()
    ensures CommandJson(Builtins.ExampleCommands()[0]) == MockGreet()
    ensures CommandJson(Builtins.ExampleCommands()[1])
      == JsObject(MockEcho().props["params" := JsArray([JsObject(MockParam("msg", true, "Nachricht")["default" := JsNull])])])
  {
    var cs := Builtins.ExampleCommands();
    CommandJsonOne(cs[0]);
    CommandJsonOne(cs[1]);
    assert ParamJson(cs[0].params[0]) == JsObject(MockParam("name", false, "Name zum Grüßen")["default" := JsStr("Welt")]);
    assert ParamJson(cs[1].params[0]) == JsObject(MockParam("msg", true, "Nachricht")["default" := JsNull]);
  }

  // ---------------------------------------------------------------------------
  // Uploads

  /** The response the page receives for `POST /files/upload`; a failed write
      escapes the handler as the plain-text error page. */
  function UploadResponse(r: UploadReply): WebApi.Response {
    match r
    case Stored(name, path) =>
      WebApi.Response(200, Some(JsObject(map["ok" := JsBool(true), "filename" := JsStr(name), "path" := JsStr(path)])))
    case WriteFailed => WebApi.Response(500, None)
  }

  /** After a successful upload the client reports the name the server stored
      the file under, and its download URL carries that name, which the server
      then finds. A failed write rejects with the status line. */
  lemma UploadLinkFindsFile(base: string, localName: string, stored: set<string>)
    ensures var r := Upload(localName);
      r.Stored? ==>
        && UploadResult(base, localName, UploadResponse(r)) == Success((JsStr(r.filename), DownloadUrl(base, r.filename)))
        && Uri.Decode(DownloadUrl(base, r.filename)[|base + "/files/download/"|..]) == Some(Uri.Utf8Bytes(r.filename))
        && Download(r.filename, stored + {r.filename}) == FileFound(r.filename)
    ensures Upload(localName).WriteFailed? ==>
      UploadResult(base, localName, UploadResponse(Upload(localName))) == Failure(Error("POST /files/upload failed: 500"))
  {
    DecimalStatus();
    var r := Upload(localName);
    if r.Stored? {
      BasenameOfPlain(r.filename);
      Uri.DecodeEncode(r.filename);
      var prefix := base + "/files/download/";
      assert DownloadUrl(base, r.filename)[|prefix|..] == Uri.EncodeURIComponent(r.filename);
    } else {
      assert UploadResponse(r) == WebApi.Response(500, None);
    }
  }
}
