/**
 * The command-line front end (`werkstatt.cli`): the `list-plugins` table rows,
 * and `plugins create`, which normalises and validates the name, writes the
 * plugin skeleton and enables it in `werkstatt.toml` by editing its text.
 *
 * Files are not touched: the project is a value `Workspace` holding the
 * entries of `werkstatt_plugins/` and the text of `werkstatt.toml`.
 */
module Cli {

  import opened Wrappers
  import opened Text
  import opened Py
  import opened Registry

  // ---------------------------------------------------------------------------
  // list-plugins

  /** One row of the table: name, enabled, version, description. */
  datatype Row = Row(name: string, enabled: string, version: string, description: string)

  /** The row for one record: `"yes"`/`"no"` from `is_enabled`, `"?"` for a
      missing or empty version, `""` for a missing description. */
  function RowOf<P>(m: Manager, rec: Record<P>): (r: Result<Row, Exception>)
    ensures r.Failure? <==> IsEnabled(m, rec.name).Failure?
    ensures r.Success? ==>
      && r.value.name == rec.name
      && (r.value.enabled == "yes" <==> IsEnabled(m, rec.name).value)
      && (r.value.enabled == "no" <==> !IsEnabled(m, rec.name).value)
    ensures r.Success? && (rec.version.None? || rec.version == Some("")) ==> r.value.version == "?"
    ensures r.Success? && rec.version.Some? && rec.version.value != "" ==> r.value.version == rec.version.value
    ensures r.Success? && rec.description.None? ==> r.value.description == ""
    ensures r.Success? && rec.description.Some? ==> r.value.description == rec.description.value
  {
    match IsEnabled(m, rec.name)
    case Failure(e) => Failure(e)
    case Success(enabled) =>
      var ver := if rec.version.Some? && rec.version.value != "" then rec.version.value else "?";
      var desc := if rec.description.Some? then rec.description.value else "";
      Success(Row(rec.name, if enabled then "yes" else "no", ver, desc))
  }

  /** The rows of the table for the catalog; an exception from `is_enabled`
      ends the command. */
  function RowsOf<P>(m: Manager, rs: seq<Record<P>>): Result<seq<Row>, Exception> {
    if rs == [] then Success([])
    else match RowsOf(m, rs[..|rs| - 1])
      case Failure(e) => Failure(e)
      case Success(rows) =>
        match RowOf(m, rs[|rs| - 1])
        case Failure(e) => Failure(e)
        case Success(row) => Success(rows + [row])
  }

  lemma {:induction false} RowsStop<P>(m: Manager, rs: seq<Record<P>>, k: nat)
    requires k <= |rs| && RowsOf(m, rs[..k]).Failure?
    ensures RowsOf(m, rs) == RowsOf(m, rs[..k])
    decreases |rs| - k
  {
    if k < |rs| {
      assert rs[..|rs| - 1][..k] == rs[..k];
      RowsStop(m, rs[..|rs| - 1], k);
    } else {
      assert rs[..k] == rs;
    }
  }

  /** `list_plugins()`: one row added to the table per record, in catalog order. */
  method ListPluginRows<P>(m: Manager, discovered: seq<Record<P>>) returns (table: Result<seq<Row>, Exception>)
    ensures table == RowsOf(m, discovered)
  {
    var rows: seq<Row> := [];
    for i := 0 to |discovered|
      invariant RowsOf(m, discovered[..i]) == Success(rows)
    {
      var rec := discovered[i];
      assert discovered[..i + 1][..i] == discovered[..i];
      var row := RowOf(m, rec);
      if row.Failure? {
        RowsStop(m, discovered, i + 1);
        return Failure(row.error);
      }
      rows := rows + [row.value];
    }
    assert discovered[..|discovered|] == discovered;
    return Success(rows);
  }

  /** Under a well-formed configuration there is one row per record, in order. */
  lemma {:induction false} RowsShape<P>(m: Manager, rs: seq<Record<P>>)
    requires WellFormed(m)
    ensures RowsOf(m, rs).Success?
    ensures |RowsOf(m, rs).value| == |rs|
    ensures forall i :: 0 <= i < |rs| ==> RowsOf(m, rs).value[i] == RowOf(m, rs[i]).value
    decreases |rs|
  {
    if rs != [] {
      var init := rs[..|rs| - 1];
      RowsShape(m, init);
      assert forall i :: 0 <= i < |init| ==> init[i] == rs[i];
    }
  }

  // ---------------------------------------------------------------------------
  // plugins create: the name

  /** `name.strip().lower()`. */
  function NormalizeName(name: string): (pkg: string)
    ensures |pkg| <= |name|
    ensures pkg == [] || (!IsSpace(pkg[0]) && !IsSpace(pkg[|pkg| - 1]))
    ensures forall i :: 0 <= i < |pkg| ==> !('A' <= pkg[i] <= 'Z')
  {
    var s := Strip(name);
    var pkg := Lower(s);
    if pkg == [] then pkg
    else
      LowerCharSpace(s[0]);
      LowerCharSpace(s[|s| - 1]);
      pkg
  }

  lemma StripUnchanged(s: string)
    requires s == [] || (!IsSpace(s[0]) && !IsSpace(s[|s| - 1]))
    ensures Strip(s) == s
  {
  }

  lemma LowerUnchanged(s: string)
    requires forall i :: 0 <= i < |s| ==> !('A' <= s[i] <= 'Z')
    ensures Lower(s) == s
  {
  }

  /** Normalising a normalised name changes nothing. */
  lemma NormalizeIdempotent(name: string)
    ensures NormalizeName(NormalizeName(name)) == NormalizeName(name)
  {
    var pkg := NormalizeName(name);
    StripUnchanged(pkg);
    LowerUnchanged(pkg);
  }

  // ---------------------------------------------------------------------------
  // plugins create: the werkstatt.toml edit

  /** The line `create` makes sure is present. */
  function EnableLine(pkg: string): string {
    "\n" + pkg + " = true"
  }

  /** The text with a `[plugins]` header appended when it has none. */
  function WithHeader(content: string): string {
    if !Contains(content, "[plugins]") then content + "\n[plugins]\n" else content
  }

  lemma HeaderPresent(content: string)
    ensures Contains(WithHeader(content), "[plugins]")
    ensures |content| <= |WithHeader(content)| && WithHeader(content)[..|content|] == content
  {
    if !Contains(content, "[plugins]") {
      var c := content + "\n[plugins]\n";
      var i := |content| + 1;
      assert c[i..i + 9] == "[plugins]";
      assert OccursAt(c, "[plugins]", i);
      assert c[..|content|] == content;
    }
  }

  /** Reference definition of the edit: add a `[plugins]` header when the text
      has none, then, unless `"\n<pkg> = true"` already occurs, strip trailing
      whitespace and append that line. */
  function EnabledToml(content: string, pkg: string): string {
    var c := WithHeader(content);
    if !Contains(c, EnableLine(pkg)) then RStrip(c) + EnableLine(pkg) + "\n" else c
  }

  /** The edit as the source performs it, rebinding `content` step by step. */
  method EnableInToml(content: string, pkg: string) returns (result: string)
    ensures result == EnabledToml(content, pkg)
  {
    result := content;
    if !Contains(result, "[plugins]") {
      result := result + "\n[plugins]\n";
    }
    assert result == WithHeader(content);
    var line := "\n" + pkg + " = true";
    if !Contains(result, line) {
      result := RStrip(result) + line + "\n";
    }
  }

  /** After the edit the text has a `[plugins]` header and the enabling line. */
  lemma EditEnables(content: string, pkg: string)
    ensures Contains(EnabledToml(content, pkg), "[plugins]")
    ensures Contains(EnabledToml(content, pkg), EnableLine(pkg))
  {
    var c := WithHeader(content);
    HeaderPresent(content);
    if !Contains(c, EnableLine(pkg)) {
      var line := EnableLine(pkg);
      assert !IsSpace("[plugins]"[8]);
      ContainsRStrip(c, "[plugins]");
      ContainsAppend(RStrip(c), line + "\n", "[plugins]");
      assert RStrip(c) + (line + "\n") == RStrip(c) + line + "\n";
      ContainsMiddle(RStrip(c), line, "\n");
    }
  }

  /** The edit is idempotent: a second run leaves the text as the first left it. */
  lemma EditIdempotent(content: string, pkg: string)
    ensures EnabledToml(EnabledToml(content, pkg), pkg) == EnabledToml(content, pkg)
  {
    EditEnables(content, pkg);
  }

  /** The edit only appends: the input, without trailing whitespace, is a prefix
      of the output. */
  lemma EditAppends(content: string, pkg: string)
    ensures var r := EnabledToml(content, pkg);
      |RStrip(content)| <= |r| && r[..|RStrip(content)|] == RStrip(content)
  {
    var k := |RStrip(content)|;
    var c := WithHeader(content);
    var r := EnabledToml(content, pkg);
    assert c == content || c == content + "\n[plugins]\n";
    assert r == c || r == RStrip(c) + EnableLine(pkg) + "\n";
    HeaderPresent(content);
    HeaderKeepsStripped(content, c);
    var s := RStrip(c);
    assert c[..k] == RStrip(content);
    assert s[..k] == RStrip(content);
  }

  lemma HeaderKeepsStripped(content: string, c: string)
    requires c == content || c == content + "\n[plugins]\n"
    ensures |RStrip(content)| <= |RStrip(c)| && |content| <= |c|
    ensures RStrip(c)[..|RStrip(content)|] == RStrip(content)
    ensures c[..|RStrip(content)|] == RStrip(content)
  {
    if c != content {
      AppendedHeaderKeepsStripped(content);
    }
  }

  lemma AppendedHeaderKeepsStripped(content: string)
    ensures var c := content + "\n[plugins]\n";
      && |RStrip(content)| <= |RStrip(c)|
      && RStrip(c)[..|RStrip(content)|] == RStrip(content)
      && c[..|RStrip(content)|] == RStrip(content)
  {
    var c := content + "\n[plugins]\n";
    var t := RStrip(content);
    var k := |t|;
    var n := |content|;
    assert c[n + 9] == ']';
    RStripAtLeast(c, n + 9);
    var s := RStrip(c);
    assert content == c[..n];
    PrefixOfPrefix(content, c, k);
    PrefixOfPrefix(s, c, k);
  }

  lemma PrefixOfPrefix(a: string, c: string, k: nat)
    requires k <= |a| <= |c| && a == c[..|a|]
    ensures a[..k] == c[..k]
  {
  }

  // ---------------------------------------------------------------------------
  // plugins create: the command

  /** The project as `create` sees it: the entries of `werkstatt_plugins/` (for
      a directory, the names of the files in it) and the text of
      `werkstatt.toml`, if that file exists. */
  datatype Workspace = Workspace(plugins: map<string, set<string>>, toml: Option<string>)

  /** How `plugins create` ends. */
  datatype CreateOutcome =
    | InvalidName            // exit code 2
    | AlreadyExists(pkg: string)  // exit code 1
    | Created(pkg: string)   // exit code 0
    | Crashed(e: Exception)  // uncaught exception, exit code 1

  function ExitCode(o: CreateOutcome): (code: int)
    ensures code == 0 <==> o.Created?
    ensures code == 2 <==> o.InvalidName?
  {
    match o
    case InvalidName => 2
    case AlreadyExists(_) => 1
    case Created(_) => 0
    case Crashed(_) => 1
  }

  const InvalidNameMessage: string := "Ungültiger Name. Verwende nur Buchstaben, Ziffern und _."

  /** The plugin skeleton: the package marker and the module. */
  const SkeletonFiles: set<string> := {"__init__.py", "plugin.py"}

  /** The checks that come before anything is written. */
  function Precheck(ws: Workspace, name: string): (r: Option<CreateOutcome>)
    ensures r.Some? <==> !IsIdentifier(NormalizeName(name)) || NormalizeName(name) in ws.plugins
    ensures !IsIdentifier(NormalizeName(name)) ==> r == Some(InvalidName)
    ensures IsIdentifier(NormalizeName(name)) && NormalizeName(name) in ws.plugins ==>
      r == Some(AlreadyExists(NormalizeName(name)))
  {
    var pkg := NormalizeName(name);
    if !IsIdentifier(pkg) then Some(InvalidName)
    else if pkg in ws.plugins then Some(AlreadyExists(pkg))
    else None
  }

  /** `plugins create <name>` as written. The module template is an f-string
      in which the dict literals of the generated `describe()` and the
      expression `args.get('name') or 'World'` are replacement fields instead of
      text. Rendering it formats the string `"name"` with the specifier text
      that follows the colon inside the first of those dicts, which
      `str.__format__` rejects with `ValueError`. By then the directory and its
      `__init__.py` exist; `plugin.py` and `werkstatt.toml` are never written. */
  function ScaffoldAsWritten(ws: Workspace, name: string): (Workspace, CreateOutcome) {
    var pkg := NormalizeName(name);
    match Precheck(ws, name)
    case Some(o) => (ws, o)
    case None =>
      var ws := ws.(plugins := ws.plugins[pkg := {"__init__.py"}]);
      (ws, Crashed(ValueError("Invalid format specifier")))
  }

  /** `plugins create <name>` with the template's literal braces doubled: the
      skeleton is written and, when `werkstatt.toml` exists, the edit above
      enables the plugin. Nothing is written when a check fails. */
  function Scaffold(ws: Workspace, name: string): (r: (Workspace, CreateOutcome))
    ensures Precheck(ws, name).Some? ==> r == (ws, Precheck(ws, name).value)
    ensures Precheck(ws, name).None? ==>
      var pkg := NormalizeName(name);
      && r.1 == Created(pkg)
      && r.0.plugins == ws.plugins[pkg := SkeletonFiles]
      && (ws.toml.None? ==> r.0.toml.None?)
      && (ws.toml.Some? ==> r.0.toml == Some(EnabledToml(ws.toml.value, pkg)))
  {
    var pkg := NormalizeName(name);
    match Precheck(ws, name)
    case Some(o) => (ws, o)
    case None =>
      var toml := if ws.toml.Some? then Some(EnabledToml(ws.toml.value, pkg)) else None;
      (Workspace(ws.plugins[pkg := SkeletonFiles], toml), Created(pkg))
  }

  /** The scaffold as written never enables a plugin: for a fresh valid name it
      crashes, leaves `werkstatt.toml` as it was and leaves a directory without
      `plugin.py` (which discovery skips), and running it again then reports
      that the plugin already exists. */
  lemma ScaffoldAsWrittenStrands(ws: Workspace, name: string)
    requires IsIdentifier(NormalizeName(name)) && NormalizeName(name) !in ws.plugins
    ensures var (after, outcome) := ScaffoldAsWritten(ws, name);
      && outcome.Crashed? && ExitCode(outcome) == 1
      && after.toml == ws.toml
      && "plugin.py" !in after.plugins[NormalizeName(name)]
      && ScaffoldAsWritten(after, name).1 == AlreadyExists(NormalizeName(name))
  {
  }

  /** With the braces doubled, a fresh valid name is created with the full
      skeleton, enabled in an existing `werkstatt.toml`, and a second run is
      refused without changing anything. */
  lemma ScaffoldEnables(ws: Workspace, name: string)
    requires IsIdentifier(NormalizeName(name)) && NormalizeName(name) !in ws.plugins
    requires ws.toml.Some?
    ensures var (after, outcome) := Scaffold(ws, name);
      var pkg := NormalizeName(name);
      && outcome == Created(pkg) && ExitCode(outcome) == 0
      && "plugin.py" in after.plugins[pkg]
      && Contains(after.toml.value, "[plugins]")
      && Contains(after.toml.value, EnableLine(pkg))
      && Scaffold(after, name) == (after, AlreadyExists(pkg))
  {
    EditEnables(ws.toml.value, NormalizeName(name));
  }

  /** `execute` of a scaffolded plugin: `hello` greets `args.get('name') or
      'World'`; every other command raises `KeyError(command)`. */
  function TemplateExecute(command: string, args: Args): (r: Result<Value, Exception>)
    ensures command != "hello" <==> r.Failure?
    ensures r.Failure? ==> r.error == KeyError(command)
    ensures command == "hello" && ("name" !in args || !Truthy(args["name"])) ==> r == Success(Str("Hello, World!"))
    ensures command == "hello" && "name" in args && args["name"].Str? && args["name"].s != "" ==>
      r == Success(Str("Hello, " + args["name"].s + "!"))
  {
    if command == "hello" then
      var name := Get(args, "name", Null);
      assert "Hello, " + "World" + "!" == "Hello, World!";
      Success(Str("Hello, " + (if Truthy(name) then ToStr(name) else "World") + "!"))
    else Failure(KeyError(command))
  }

  /** `describe()` of a scaffolded plugin: `hello` with an optional `name`
      defaulting to `"World"`. */
  function TemplateDescribe(): Value {
    List([
      Dict(map[
        "name" := Str("hello"),
        "description" := Str("returns a greeting"),
        "params" := List([Dict(map[
          "name" := Str("name"), "type" := Str("string"), "required" := Bool(false),
          "description" := Str("Name"), "default" := Str("World")])])])])
  }
}
