/**
 * The frontend's API client (`web/src/services/api.ts`): the JavaScript values
 * it handles, the two environment switches, the in-browser mock service with
 * its file store, and the rules the real client applies to the backend's
 * responses.
 */
module WebApi {

  import opened Wrappers
  import opened Text
  import Uri

  // ---------------------------------------------------------------------------
  // JavaScript values

  /** A JavaScript value as JSON can carry it, plus `undefined`. Numbers are
      integers here. */
  datatype JsValue =
    | Undefined
    | JsNull
    | JsBool(b: bool)
    | JsNum(n: int)
    | JsStr(s: string)
    | JsArray(items: seq<JsValue>)
    | JsObject(props: map<string, JsValue>)

  /** The errors a call rejects with. */
  datatype JsError = Error(message: string) | TypeError(message: string) | SyntaxError(message: string)

  /** `Boolean(v)`: objects and arrays are truthy even when empty. */
  predicate Truthy(v: JsValue) {
    match v
    case Undefined => false
    case JsNull => false
    case JsBool(b) => b
    case JsNum(n) => n != 0
    case JsStr(s) => s != ""
    case JsArray(_) => true
    case JsObject(_) => true
  }

  predicate Nullish(v: JsValue) {
    v.Undefined? || v.JsNull?
  }

  /** `a || b`. */
  function Or(a: JsValue, b: JsValue): (r: JsValue)
    ensures Truthy(a) ==> r == a
    ensures !Truthy(a) ==> r == b
  {
    if Truthy(a) then a else b
  }

  /** `a ?? b`. */
  function Coalesce(a: JsValue, b: JsValue): (r: JsValue)
    ensures Nullish(a) ==> r == b
    ensures !Nullish(a) ==> r == a
  {
    if Nullish(a) then b else a
  }

  /** `String(v)`, which is also what a template literal interpolates. An array
      is joined with commas, its `null` and `undefined` elements shown empty. */
  function ToString(v: JsValue): string
    decreases v
  {
    match v
    case Undefined => "undefined"
    case JsNull => "null"
    case JsBool(b) => if b then "true" else "false"
    case JsNum(n) => Decimal(n)
    case JsStr(s) => s
    case JsArray(items) =>
      Join(",", seq(|items|, k requires 0 <= k < |items| => if Nullish(items[k]) then "" else ToString(items[k])))
    case JsObject(_) => "[object Object]"
  }

  /** An array's own keys: its indices in canonical decimal form and `length`. */
  predicate IsArrayKey(items: seq<JsValue>, key: string) {
    key == "length" || exists k :: 0 <= k < |items| && Decimal(k) == key
  }

  /** The first index from `k` on below `n` whose decimal form is `key`, or `n`. */
  function IndexNamed(key: string, n: nat, k: nat): (i: nat)
    requires k <= n
    ensures k <= i <= n
    ensures i < n ==> Decimal(i) == key
    decreases n - k
  {
    if k == n || Decimal(k) == key then k else IndexNamed(key, n, k + 1)
  }

  /** `v?.key` for a key the prototypes of JSON values do not define. */
  function Prop(v: JsValue, key: string): (r: JsValue)
    ensures v.JsObject? && key in v.props ==> r == v.props[key]
    ensures !v.JsObject? && !v.JsArray? ==> r == Undefined
  {
    match v
    case JsObject(props) => if key in props then props[key] else Undefined
    case JsArray(items) =>
      if key == "length" then JsNum(|items|)
      else
        var k := IndexNamed(key, |items|, 0);
        if k < |items| then items[k] else Undefined
    case _ => Undefined
  }

  /** `v.key` without optional chaining: reading a property of `null` or
      `undefined` throws a `TypeError`; any other value answers as `v?.key`. */
  function Member(v: JsValue, key: string): (r: Result<JsValue, JsError>)
    ensures r.Failure? <==> v.JsNull? || v.Undefined?
    ensures r.Failure? ==> r.error.TypeError?
    ensures r.Success? ==> r.value == Prop(v, key)
  {
    match v
    case JsNull => Failure(TypeError("Cannot read properties of null (reading '" + key + "')"))
    case Undefined => Failure(TypeError("Cannot read properties of undefined (reading '" + key + "')"))
    case _ => Success(Prop(v, key))
  }

  /** `key in v`, which throws on a primitive. */
  function In(key: string, v: JsValue): (r: Result<bool, JsError>)
    ensures r.Failure? <==> !v.JsObject? && !v.JsArray?
    ensures v.JsObject? ==> r == Success(key in v.props)
    ensures v.JsArray? ==> r == Success(IsArrayKey(v.items, key))
  {
    match v
    case JsObject(props) => Success(key in props)
    case JsArray(items) => Success(IsArrayKey(items, key))
    case _ => Failure(TypeError("Cannot use 'in' operator to search for '" + key + "' in " + ToString(v)))
  }

  // ---------------------------------------------------------------------------
  // Environment

  /** The build-time variables of `import.meta.env`, all strings. */
  type Env = map<string, string>

  const DefaultApiBase: string := "http://localhost:8000"

  /** `ENV.VITE_API_BASE || 'http://localhost:8000'`. */
  function ApiBase(env: Env): (base: string)
    ensures "VITE_API_BASE" in env && env["VITE_API_BASE"] != "" ==> base == env["VITE_API_BASE"]
    ensures !("VITE_API_BASE" in env && env["VITE_API_BASE"] != "") ==> base == DefaultApiBase
    ensures base != ""
  {
    if "VITE_API_BASE" in env && env["VITE_API_BASE"] != "" then env["VITE_API_BASE"] else DefaultApiBase
  }

  /** `USE_MOCK`: the variable, lower-cased, is `1` or `true`. */
  function UseMock(env: Env): (on: bool)
    ensures on <==> "VITE_USE_MOCK" in env && Lower(env["VITE_USE_MOCK"]) in {"1", "true"}
  {
    var raw := if "VITE_USE_MOCK" in env then env["VITE_USE_MOCK"] else "";
    var t := Lower(raw);
    t == "1" || t == "true"
  }

  /** The mock is switched on by `1` and by `true` in any letter case, and by
      nothing else. */
  lemma UseMockWords(v: string)
    ensures UseMock(map["VITE_USE_MOCK" := v]) <==>
      v == "1" || (|v| == 4 && LowerChar(v[0]) == 't' && LowerChar(v[1]) == 'r' && LowerChar(v[2]) == 'u' && LowerChar(v[3]) == 'e')
    ensures !UseMock(map[])
  {
    var t := Lower(v);
    if t == "1" {
      assert LowerChar(v[0]) == '1';
    }
    if |v| == 4 && LowerChar(v[0]) == 't' && LowerChar(v[1]) == 'r' && LowerChar(v[2]) == 'u' && LowerChar(v[3]) == 'e' {
      assert t == "true";
    }
    if v == "1" {
      assert t == "1";
    }
  }

  // ---------------------------------------------------------------------------
  // The mock service

  /** An uploaded `File`: its name, its MIME type (empty when unknown) and its bytes. */
  datatype File = File(name: string, mime: string, bytes: seq<Uri.Byte>)

  datatype Blob = Blob(mime: string, bytes: seq<Uri.Byte>)

  const OctetStream: string := "application/octet-stream"

  /** `new Blob([await file.arrayBuffer()], { type: file.type || 'application/octet-stream' })`. */
  function BlobOf(f: File): (b: Blob)
    ensures b.bytes == f.bytes
    ensures f.mime != "" ==> b.mime == f.mime
    ensures f.mime == "" ==> b.mime == OctetStream
  {
    Blob(if f.mime != "" then f.mime else OctetStream, f.bytes)
  }

  /** A `blob:` URL minted by `URL.createObjectURL`; the `serial`-th one minted
      resolves to the blob it was minted for. */
  datatype ObjectUrl = BlobUrl(serial: nat)

  /** The file map after a sequence of uploads: `files.set(file.name, blob)` for each. */
  function FilesAfter(uploads: seq<File>): map<string, Blob> {
    if uploads == [] then map[]
    else
      var f := uploads[|uploads| - 1];
      FilesAfter(uploads[..|uploads| - 1])[f.name := BlobOf(f)]
  }

  /** A name is stored exactly when some upload carried it. */
  lemma {:induction false} StoredIffUploaded(uploads: seq<File>, name: string)
    ensures name in FilesAfter(uploads) <==> exists i :: 0 <= i < |uploads| && uploads[i].name == name
  {
    if uploads != [] {
      var init := uploads[..|uploads| - 1];
      StoredIffUploaded(init, name);
      if name in FilesAfter(init) {
        var i :| 0 <= i < |init| && init[i].name == name;
        assert uploads[i].name == name;
      }
      if exists i :: 0 <= i < |uploads| && uploads[i].name == name {
        var i :| 0 <= i < |uploads| && uploads[i].name == name;
        if i < |init| {
          assert init[i].name == name;
        }
      }
    }
  }

  /** The last upload under a name wins. */
  lemma {:induction false} LastUploadWins(uploads: seq<File>, i: int)
    requires 0 <= i < |uploads|
    requires forall j :: i < j < |uploads| ==> uploads[j].name != uploads[i].name
    ensures uploads[i].name in FilesAfter(uploads)
    ensures FilesAfter(uploads)[uploads[i].name] == BlobOf(uploads[i])
  {
    var init := uploads[..|uploads| - 1];
    if i < |uploads| - 1 {
      assert forall j :: i < j < |init| ==> init[j] == uploads[j];
      LastUploadWins(init, i);
      assert init[i] == uploads[i];
    }
  }

  /** The mock layer: the `files` map the closure holds, and the object URLs
      the page minted so far (the browser's blob URL store). */
  class MockService {
    var files: map<string, Blob>
    var objectUrls: seq<Blob>
    /** The uploads so far, oldest first. */
    ghost var uploads: seq<File>

    ghost predicate Valid()
      reads this
    {
      files == FilesAfter(uploads)
    }

    constructor()
      ensures Valid()
      ensures files == map[] && objectUrls == [] && uploads == []
    {
      files := map[];
      objectUrls := [];
      uploads := [];
    }

    /** What a minted URL resolves to. */
    function Resolve(url: ObjectUrl): (b: Option<Blob>)
      reads this
      ensures b.Some? <==> url.serial < |objectUrls|
      ensures b.Some? ==> b.value == objectUrls[url.serial]
    {
      if url.serial < |objectUrls| then Some(objectUrls[url.serial]) else None
    }

    /** `URL.createObjectURL(blob)`: a new URL for the blob. */
    method CreateObjectUrl(blob: Blob) returns (url: ObjectUrl)
      modifies this
      ensures objectUrls == old(objectUrls) + [blob]
      ensures url == BlobUrl(|old(objectUrls)|)
      ensures files == old(files) && uploads == old(uploads)
    {
      url := BlobUrl(|objectUrls|);
      objectUrls := objectUrls + [blob];
    }

    /** `uploadFile(file)`: stores the blob under `file.name`, replacing any
        earlier one, and answers with the name and a URL for the new blob. */
    method UploadFile(file: File) returns (filename: string, url: ObjectUrl)
      requires Valid()
      modifies this
      ensures Valid()
      ensures uploads == old(uploads) + [file]
      ensures files == old(files)[file.name := BlobOf(file)]
      ensures filename == file.name
      ensures objectUrls == old(objectUrls) + [BlobOf(file)]
      ensures Resolve(url) == Some(BlobOf(file))
    {
      var name := file.name;
      var blob := BlobOf(file);
      files := files[name := blob];
      uploads := uploads + [file];
      assert uploads[..|uploads| - 1] == old(uploads);
      url := CreateObjectUrl(blob);
      filename := name;
    }

    /** `getDownloadUrl(name)`: rejects with `File not found` for a name never
        stored, and otherwise mints a URL for the stored blob. */
    method GetDownloadUrl(name: string) returns (r: Result<ObjectUrl, JsError>)
      modifies this
      ensures name !in old(files) ==> r == Failure(Error("File not found")) && objectUrls == old(objectUrls)
      ensures name in old(files) ==> r.Success? && objectUrls == old(objectUrls) + [old(files)[name]]
      ensures name in old(files) ==> Resolve(r.value) == Some(old(files)[name])
      ensures files == old(files) && uploads == old(uploads)
    {
      if name !in files {
        return Failure(Error("File not found"));
      }
      var blob := files[name];
      var url := CreateObjectUrl(blob);
      r := Success(url);
    }
  }

  /** The mock's one plugin, as the object literal of the source. */
  function MockParam(name: string, required: bool, description: string): map<string, JsValue> {
    map["name" := JsStr(name), "type" := JsStr("string"), "required" := JsBool(required), "description" := JsStr(description)]
  }

  const MockPluginName: string := "example"
  const MockDescription: string := "Beispiel-Tool: Begrüßung und Echo (MOCK)"

  function MockGreet(): JsValue {
    JsObject(map[
      "name" := JsStr("greet"),
      "description" := JsStr("Gibt eine Begrüßung aus."),
      "params" := JsArray([JsObject(MockParam("name", false, "Name zum Grüßen")["default" := JsStr("Welt")])])])
  }

  function MockEcho(): JsValue {
    JsObject(map[
      "name" := JsStr("echo"),
      "description" := JsStr("Gibt die Nachricht 1:1 zurück."),
      "params" := JsArray([JsObject(MockParam("msg", true, "Nachricht"))])])
  }

  function MockPlugins(): JsValue {
    JsArray([JsObject(map[
      "name" := JsStr(MockPluginName),
      "version" := JsStr("0.1.0"),
      "description" := JsStr(MockDescription),
      "enabled" := JsBool(true),
      "commands" := JsArray([MockGreet(), MockEcho()])])])
  }

  /** The mock `getPlugins()`: a structured clone of the catalog. Values are
      copied, so a caller changing what it got cannot reach the mock. */
  method GetMockPlugins() returns (plugins: JsValue)
    ensures plugins.JsArray? && |plugins.items| == 1
    ensures Prop(plugins.items[0], "name") == JsStr(MockPluginName)
    ensures plugins == MockPlugins()
  {
    plugins := MockPlugins();
  }

  const MockGreetDefault: string := "Welt"
  const MockEchoMissing: string := "'msg' ist erforderlich"

  /** The mock `runCommand(plugin, command, args)`. */
  function MockRunCommand(plugin: string, command: string, args: JsValue): (r: Result<string, JsError>)
    ensures plugin != MockPluginName ==> r == Failure(Error("Plugin not found"))
    ensures plugin == MockPluginName && command == "greet" ==>
      r == Success("Hallo, " + ToString(Coalesce(Prop(args, "name"), JsStr(MockGreetDefault))) + "!")
    ensures plugin == MockPluginName && command == "echo" && !Truthy(args) ==> r == Failure(Error(MockEchoMissing))
    ensures plugin == MockPluginName && command == "echo" && Truthy(args) && !args.JsObject? && !args.JsArray? ==>
      r.Failure? && r.error.TypeError?
    ensures plugin == MockPluginName && command == "echo" && args.JsObject? ==>
      r == if "msg" in args.props then Success(ToString(args.props["msg"])) else Failure(Error(MockEchoMissing))
    ensures plugin == MockPluginName && command != "greet" && command != "echo" ==> r == Failure(Error("Command not found"))
  {
    if plugin != MockPluginName then Failure(Error("Plugin not found"))
    else if command == "greet" then
      Success("Hallo, " + ToString(Coalesce(Prop(args, "name"), JsStr(MockGreetDefault))) + "!")
    else if command == "echo" then
      match In("msg", Or(args, JsObject(map[])))
      case Failure(e) => Failure(e)
      case Success(present) =>
        if !present then Failure(Error(MockEchoMissing)) else Success(ToString(Prop(args, "msg")))
    else Failure(Error("Command not found"))
  }

  /** Mock `greet` falls back to `Welt` for a missing, `undefined` or `null`
      name, but keeps an empty one. */
  lemma MockGreetNames(name: string)
    ensures MockRunCommand(MockPluginName, "greet", JsObject(map[])) == Success("Hallo, Welt!")
    ensures MockRunCommand(MockPluginName, "greet", JsObject(map["name" := JsNull])) == Success("Hallo, Welt!")
    ensures MockRunCommand(MockPluginName, "greet", JsObject(map["name" := JsStr(name)])) == Success("Hallo, " + name + "!")
    ensures MockRunCommand(MockPluginName, "greet", Undefined) == Success("Hallo, Welt!")
  {
    assert "Hallo, " + "Welt" + "!" == "Hallo, Welt!";
  }

  /** Mock `echo` returns the message, however it is given. */
  lemma MockEchoRoundTrip(msg: string, props: map<string, JsValue>)
    ensures MockRunCommand(MockPluginName, "echo", JsObject(props["msg" := JsStr(msg)])) == Success(msg)
  {
  }

  // ---------------------------------------------------------------------------
  // The real client

  /** A `fetch` response: its status and its body parsed as JSON, `None` when
      the body is not JSON. */
  datatype Response = Response(status: int, body: Option<JsValue>)

  /** `res.ok`. */
  predicate OkStatus(status: int) {
    200 <= status <= 299
  }

  const NotJson: string := "Unexpected token in JSON"

  /** `${API_BASE}/run/${encodeURIComponent(plugin)}/${encodeURIComponent(command)}`. */
  function RunUrl(base: string, plugin: string, command: string): string {
    base + "/run/" + Uri.EncodeURIComponent(plugin) + "/" + Uri.EncodeURIComponent(command)
  }

  /** The text before the first `/`. */
  function Segment(s: string): string {
    if s == [] || s[0] == '/' then [] else [s[0]] + Segment(s[1..])
  }

  lemma {:induction false} SegmentOfJoined(x: string, y: string)
    requires '/' !in x
    ensures Segment(x + "/" + y) == x
  {
    if x != [] {
      assert x[0] in x;
      assert forall c :: c in x[1..] ==> c in x;
      assert (x + "/" + y)[1..] == x[1..] + "/" + y;
      SegmentOfJoined(x[1..], y);
      assert x == [x[0]] + x[1..];
    }
  }

  /** Two segments without `/` joined by one are split back in only one way. */
  lemma SplitAtSlash(x: string, y: string, x': string, y': string)
    requires '/' !in x && '/' !in x'
    requires x + "/" + y == x' + "/" + y'
    ensures x == x' && y == y'
  {
    SegmentOfJoined(x, y);
    SegmentOfJoined(x', y');
    PrefixCancel(x + "/", y, y');
  }

  lemma RunUrlShape(base: string, plugin: string, command: string)
    ensures RunUrl(base, plugin, command)
      == (base + "/run/") + (Uri.EncodeURIComponent(plugin) + "/" + Uri.EncodeURIComponent(command))
  {
  }

  lemma PrefixCancel(prefix: string, a: string, b: string)
    requires prefix + a == prefix + b
    ensures a == b
  {
    assert a == (prefix + a)[|prefix|..];
    assert b == (prefix + b)[|prefix|..];
  }

  /** Different plugin or command names never reach the same URL. */
  lemma RunUrlInjective(base: string, plugin: string, command: string, plugin': string, command': string)
    requires RunUrl(base, plugin, command) == RunUrl(base, plugin', command')
    ensures plugin == plugin' && command == command'
  {
    var p, c := Uri.EncodeURIComponent(plugin), Uri.EncodeURIComponent(command);
    var p', c' := Uri.EncodeURIComponent(plugin'), Uri.EncodeURIComponent(command');
    var prefix := base + "/run/";
    RunUrlShape(base, plugin, command);
    RunUrlShape(base, plugin', command');
    PrefixCancel(prefix, p + "/" + c, p' + "/" + c');
    Uri.EncodedIsSegment(plugin);
    Uri.EncodedIsSegment(plugin');
    SplitAtSlash(p, c, p', c');
    Uri.EncodeInjective(plugin, plugin');
    Uri.EncodeInjective(command, command');
  }

  /** `{ args }`, the request body. */
  function RunRequestBody(args: JsValue): JsValue {
    JsObject(map["args" := args])
  }

  /** The message of the error a failed `POST /run` rejects with:
      `body?.detail || \`POST /run failed: ${res.status}\``, where a body that is
      not JSON counts as `{}`. */
  function RunErrorMessage(body: Option<JsValue>, status: int): (msg: string)
    ensures var detail := if body.Some? then Prop(body.value, "detail") else Undefined;
      msg == if Truthy(detail) then ToString(detail) else "POST /run failed: " + Decimal(status)
  {
    var b := if body.Some? then body.value else JsObject(map[]);
    ToString(Or(Prop(b, "detail"), JsStr("POST /run failed: " + Decimal(status))))
  }

  /** The real `runCommand` once the response has arrived: a non-ok response
      rejects with the detail, an ok one resolves to `data.output`, which throws
      when the body is JSON `null`. */
  function RunResult(response: Response): (r: Result<JsValue, JsError>)
    ensures !OkStatus(response.status) ==> r == Failure(Error(RunErrorMessage(response.body, response.status)))
    ensures OkStatus(response.status) && response.body.Some? && !response.body.value.JsNull? && !response.body.value.Undefined?
      ==> r == Success(Prop(response.body.value, "output"))
    ensures OkStatus(response.status) && response.body.Some? && (response.body.value.JsNull? || response.body.value.Undefined?)
      ==> r.Failure? && r.error.TypeError?
    ensures OkStatus(response.status) && response.body.None? ==> r == Failure(SyntaxError(NotJson))
  {
    if !OkStatus(response.status) then Failure(Error(RunErrorMessage(response.body, response.status)))
    else if response.body.None? then Failure(SyntaxError(NotJson))
    else Member(response.body.value, "output")
  }

  function UploadUrl(base: string): string {
    base + "/files/upload"
  }

  /** `${API_BASE}/files/download/${encodeURIComponent(name)}`, the real `getDownloadUrl`. */
  function DownloadUrl(base: string, name: string): string {
    base + "/files/download/" + Uri.EncodeURIComponent(name)
  }

  /** The real `uploadFile` once the response has arrived: the file name is the
      server's `filename`, or the local name when that is missing or falsy, and
      the URL is the download URL for it. */
  function UploadResult(base: string, localName: string, response: Response): (r: Result<(JsValue, string), JsError>)
    ensures !OkStatus(response.status) ==> r == Failure(Error("POST /files/upload failed: " + Decimal(response.status)))
    ensures OkStatus(response.status) && response.body.None? ==> r == Failure(SyntaxError(NotJson))
    ensures OkStatus(response.status) && response.body.Some? ==>
      (r.Success? <==> !response.body.value.JsNull? && !response.body.value.Undefined?)
    ensures OkStatus(response.status) && response.body.Some? && r.Failure? ==> r.error.TypeError?
    ensures r.Success? ==>
      var served := Prop(response.body.value, "filename");
      && r.value.0 == (if Truthy(served) then served else JsStr(localName))
      && r.value.1 == DownloadUrl(base, ToString(r.value.0))
  {
    if !OkStatus(response.status) then Failure(Error("POST /files/upload failed: " + Decimal(response.status)))
    else if response.body.None? then Failure(SyntaxError(NotJson))
    else
      match Member(response.body.value, "filename")
      case Failure(e) => Failure(e)
      case Success(served) =>
        var filename := Or(served, JsStr(localName));
        Success((filename, DownloadUrl(base, ToString(filename))))
  }

  /** The download URL names exactly one file. */
  lemma DownloadUrlInjective(base: string, name: string, name': string)
    requires DownloadUrl(base, name) == DownloadUrl(base, name')
    ensures name == name'
  {
    var prefix := base + "/files/download/";
    assert Uri.EncodeURIComponent(name) == DownloadUrl(base, name)[|prefix|..];
    assert Uri.EncodeURIComponent(name') == DownloadUrl(base, name')[|prefix|..];
    Uri.EncodeInjective(name, name');
  }
}
