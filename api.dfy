/**
 * The HTTP binder of `werkstatt.api` with the web framework taken away: the
 * response models and their validation defaults, `GET /plugins` (one
 * descriptor per catalog record), `POST /run/{plugin_name}/{command}` (every
 * request ends in exactly one reply class), and the file-name rule of the
 * upload and download endpoints.
 */
module Api {

  import opened Wrappers
  import opened Text
  import opened Py
  import opened Contract
  import opened Registry

  // ---------------------------------------------------------------------------
  // Response models and their validation

  /** `CommandParam`; the field `type` is called `paramType` here. */
  datatype CommandParam = CommandParam(
    name: string, paramType: string, required: bool, description: string, default: Value)

  /** `CommandDesc`. */
  datatype CommandDesc = CommandDesc(name: string, description: string, params: seq<CommandParam>)

  /** `PluginDesc`. */
  datatype PluginDesc = PluginDesc(
    name: string, version: Option<string>, description: string, enabled: bool, commands: seq<CommandDesc>)

  /** A `str` field: absent gives the default (`None` for a required field, which
      then fails), present must be a string (no coercion from other types). */
  function StrField(d: map<string, Value>, key: string, default: Option<string>): (r: Result<string, Exception>)
    ensures key !in d && default.Some? ==> r == Success(default.value)
    ensures key !in d && default.None? ==> r.Failure?
    ensures key in d ==> (r.Success? <==> d[key].Str?)
    ensures key in d && r.Success? ==> r.value == d[key].s
    ensures r.Failure? ==> r.error.ValidationError?
  {
    if key !in d then
      if default.Some? then Success(default.value) else Failure(ValidationError(key + ": Field required"))
    else if d[key].Str? then Success(d[key].s)
    else Failure(ValidationError(key + ": Input should be a valid string"))
  }

  /** Strings a `bool` field accepts, after lower-casing. */
  const TrueWords: set<string> := {"1", "on", "t", "true", "y", "yes"}
  const FalseWords: set<string> := {"0", "off", "f", "false", "n", "no"}

  /** A `bool` field in lax mode: a boolean, the integers 0 and 1, or one of the
      accepted words in any letter case. */
  function LaxBool(v: Value): (r: Option<bool>)
    ensures v.Bool? ==> r == Some(v.b)
    ensures v.Int? ==> (r.Some? <==> v.i == 0 || v.i == 1) && (r.Some? ==> r.value == (v.i == 1))
    ensures v.Str? ==> (r == Some(true) <==> Lower(v.s) in TrueWords) && (r == Some(false) <==> Lower(v.s) in FalseWords)
    ensures !v.Bool? && !v.Int? && !v.Str? ==> r.None?
  {
    match v
    case Bool(b) => Some(b)
    case Int(i) => if i == 0 then Some(false) else if i == 1 then Some(true) else None
    case Str(s) =>
      var t := Lower(s);
      if t in TrueWords then Some(true) else if t in FalseWords then Some(false) else None
    case _ => None
  }

  function BoolField(d: map<string, Value>, key: string, default: bool): (r: Result<bool, Exception>)
    ensures key !in d ==> r == Success(default)
    ensures key in d ==> (r.Success? <==> LaxBool(d[key]).Some?)
    ensures key in d && r.Success? ==> r.value == LaxBool(d[key]).value
    ensures r.Failure? ==> r.error.ValidationError?
  {
    if key !in d then Success(default)
    else match LaxBool(d[key])
      case Some(b) => Success(b)
      case None => Failure(ValidationError(key + ": Input should be a valid boolean"))
  }

  /** Validating one element of `params` into a `CommandParam`: it must be a dict;
      `name` is required; `type`, `required`, `description` and `default` fall
      back to `"string"`, `False`, `""` and `None`; other keys are ignored. */
  function ParseParam(v: Value): (r: Result<CommandParam, Exception>)
    ensures r.Failure? ==> r.error.ValidationError?
    ensures r.Success? <==>
      && v.Dict?
      && StrField(v.entries, "name", None).Success?
      && StrField(v.entries, "type", Some("string")).Success?
      && BoolField(v.entries, "required", false).Success?
      && StrField(v.entries, "description", Some("")).Success?
    ensures r.Success? ==>
      && r.value.name == v.entries["name"].s
      && r.value.paramType == StrField(v.entries, "type", Some("string")).value
      && r.value.required == BoolField(v.entries, "required", false).value
      && r.value.description == StrField(v.entries, "description", Some("")).value
      && r.value.default == Get(v.entries, "default", Null)
  {
    if !v.Dict? then Failure(ValidationError("params: Input should be a valid dictionary"))
    else
      var d := v.entries;
      var name := StrField(d, "name", None);
      var kind := StrField(d, "type", Some("string"));
      var required := BoolField(d, "required", false);
      var description := StrField(d, "description", Some(""));
      if name.Failure? then Failure(name.error)
      else if kind.Failure? then Failure(kind.error)
      else if required.Failure? then Failure(required.error)
      else if description.Failure? then Failure(description.error)
      else Success(CommandParam(name.value, kind.value, required.value, description.value, Get(d, "default", Null)))
  }

  /** Validating a list of parameters: every element must validate. */
  function ParseParams(items: seq<Value>): (r: Result<seq<CommandParam>, Exception>)
    ensures r.Success? <==> forall i :: 0 <= i < |items| ==> ParseParam(items[i]).Success?
    ensures r.Success? ==> |r.value| == |items| && forall i :: 0 <= i < |items| ==> r.value[i] == ParseParam(items[i]).value
    ensures r.Failure? ==> r.error.ValidationError?
  {
    if items == [] then Success([])
    else
      match ParseParam(items[0])
      case Failure(e) => Failure(e)
      case Success(p) =>
        match ParseParams(items[1..])
        case Failure(e) => Failure(e)
        case Success(ps) =>
          assert forall i :: 1 <= i < |items| ==> items[i] == items[1..][i - 1];
          Success([p] + ps)
  }

  /** `CommandDesc(**cmd)`: `name` is required, `description` defaults to `""`
      and `params` to `[]`. */
  function ParseCommand(d: map<string, Value>): (r: Result<CommandDesc, Exception>)
    ensures r.Failure? ==> r.error.ValidationError?
    ensures r.Success? <==>
      && StrField(d, "name", None).Success?
      && StrField(d, "description", Some("")).Success?
      && ("params" in d ==> d["params"].List? && ParseParams(d["params"].items).Success?)
    ensures r.Success? ==>
      && r.value.name == d["name"].s
      && r.value.description == StrField(d, "description", Some("")).value
      && r.value.params == (if "params" in d then ParseParams(d["params"].items).value else [])
  {
    var name := StrField(d, "name", None);
    var description := StrField(d, "description", Some(""));
    var params :=
      if "params" !in d then Success([])
      else if d["params"].List? then ParseParams(d["params"].items)
      else Failure(ValidationError("params: Input should be a valid list"));
    if name.Failure? then Failure(name.error)
    else if description.Failure? then Failure(description.error)
    else if params.Failure? then Failure(params.error)
    else Success(CommandDesc(name.value, description.value, params.value))
  }

  /** Omitted fields take the documented defaults. */
  lemma ValidationDefaults(name: string)
    ensures ParseParam(Dict(map["name" := Str(name)])) == Success(CommandParam(name, "string", false, "", Null))
    ensures ParseCommand(map["name" := Str(name)]) == Success(CommandDesc(name, "", []))
  {
  }

  // ---------------------------------------------------------------------------
  // GET /plugins

  /** The entries `for cmd in desc or []` goes through that can become commands.
      A falsy value gives none; a list gives its elements; a true boolean or a
      non-zero integer cannot be iterated and raises `TypeError`; a string or a
      dict iterates over strings (characters, keys), which are never commands,
      so they are omitted. */
  function DescribedItems(desc: Value): (r: Result<seq<Value>, Exception>)
    ensures desc.List? ==> r == Success(desc.items)
    ensures r.Failure? <==> desc == Bool(true) || (desc.Int? && desc.i != 0)
    ensures r.Failure? ==> r.error.TypeError?
    ensures !desc.List? && r.Success? ==> r.value == []
  {
    match desc
    case List(items) => Success(items)
    case Bool(b) => if b then Failure(TypeError("'bool' object is not iterable")) else Success([])
    case Int(i) => if i != 0 then Failure(TypeError("'int' object is not iterable")) else Success([])
    case _ => Success([])
  }

  /** The loop over the entries, inside one `try`: dicts are validated and
      appended, other values are skipped, and the first dict that fails
      validation ends the loop, keeping what was appended before. The flag says
      whether the loop ended that way. */
  function Collect(items: seq<Value>): (seq<CommandDesc>, bool) {
    if items == [] then ([], false)
    else
      var (cs, stopped) := Collect(items[..|items| - 1]);
      var x := items[|items| - 1];
      if stopped || !x.Dict? then (cs, stopped)
      else match ParseCommand(x.entries)
        case Failure(_) => (cs, true)
        case Success(c) => (cs + [c], false)
  }

  /** Every dict entry validates. */
  predicate DictsValid(items: seq<Value>) {
    forall i :: 0 <= i < |items| && items[i].Dict? ==> ParseCommand(items[i].entries).Success?
  }

  /** Reference definition: the validated dicts, in order, non-dicts dropped. */
  function ValidatedDicts(items: seq<Value>): seq<CommandDesc>
    requires DictsValid(items)
  {
    if items == [] then []
    else
      var x := items[|items| - 1];
      ValidatedDicts(items[..|items| - 1]) + if x.Dict? then [ParseCommand(x.entries).value] else []
  }

  lemma DictsValidPrefix(items: seq<Value>, k: nat)
    requires k <= |items| && DictsValid(items)
    ensures DictsValid(items[..k])
  {
    assert forall i :: 0 <= i < k ==> items[..k][i] == items[i];
  }

  /** When every dict validates, the commands are exactly the validated dicts. */
  lemma {:induction false} CollectAllValid(items: seq<Value>)
    requires DictsValid(items)
    ensures Collect(items) == (ValidatedDicts(items), false)
    decreases |items|
  {
    if items != [] {
      var x := items[|items| - 1];
      DictsValidPrefix(items, |items| - 1);
      CollectAllValid(items[..|items| - 1]);
      var init := items[..|items| - 1];
      assert ValidatedDicts(items) == ValidatedDicts(init) + if x.Dict? then [ParseCommand(x.entries).value] else [];
      if x.Dict? {
        assert ParseCommand(x.entries).Success?;
        assert Collect(items) == (ValidatedDicts(init) + [ParseCommand(x.entries).value], false);
      } else {
        assert Collect(items) == Collect(init);
        assert ValidatedDicts(items) == ValidatedDicts(init) + [];
        assert ValidatedDicts(init) + [] == ValidatedDicts(init);
      }
    }
  }

  /** Once the loop has stopped, later entries add nothing. */
  lemma {:induction false} CollectStops(items: seq<Value>, k: nat)
    requires k <= |items| && Collect(items[..k]).1
    ensures Collect(items) == Collect(items[..k])
    decreases |items| - k
  {
    if k < |items| {
      assert items[..|items| - 1][..k] == items[..k];
      CollectStops(items[..|items| - 1], k);
    } else {
      assert items[..k] == items;
    }
  }

  /** A dict that fails validation at position `k`, after entries that all
      validate, leaves exactly the commands validated before it. */
  lemma CollectUpToFailure(items: seq<Value>, k: nat)
    requires k < |items| && DictsValid(items[..k])
    requires items[k].Dict? && ParseCommand(items[k].entries).Failure?
    ensures Collect(items) == (ValidatedDicts(items[..k]), true)
  {
    CollectAllValid(items[..k]);
    assert items[..k + 1][..k] == items[..k];
    CollectStops(items, k + 1);
  }

  /** The loop as the source runs it: append validated dicts, skip the rest,
      leave the loop at the first dict that fails validation. */
  method CollectCommands(items: seq<Value>) returns (commands: seq<CommandDesc>)
    ensures commands == Collect(items).0
  {
    commands := [];
    var i := 0;
    while i < |items|
      invariant 0 <= i <= |items|
      invariant Collect(items[..i]) == (commands, false)
    {
      var cmd := items[i];
      assert items[..i + 1][..i] == items[..i];
      if cmd.Dict? {
        var parsed := ParseCommand(cmd.entries);
        if parsed.Failure? {
          CollectStops(items, i + 1);
          return;
        }
        commands := commands + [parsed.value];
      }
      i := i + 1;
    }
    assert items[..i] == items;
  }

  /** The commands listed for a record: none unless the plugin is enabled, live
      and has a callable `describe`; none when `describe` raises or returns
      something that cannot be iterated. */
  function CommandsFor<P>(hooks: Hooks<P>, enabled: bool, instance: Option<P>): (cs: seq<CommandDesc>)
    ensures !enabled || instance.None? ==> cs == []
    ensures instance.Some? && !hooks.hasDescribe(instance.value) ==> cs == []
    ensures instance.Some? && hooks.describe(instance.value).Failure? ==> cs == []
  {
    if enabled && instance.Some? && hooks.hasDescribe(instance.value) then
      match hooks.describe(instance.value)
      case Failure(_) => []
      case Success(desc) =>
        match DescribedItems(desc)
        case Failure(_) => []
        case Success(items) => Collect(items).0
    else []
  }

  /** The descriptor built for one record. */
  function DescriptorOf<P>(rec: Record<P>, enabled: bool, commands: seq<CommandDesc>): PluginDesc {
    PluginDesc(rec.name, rec.version, if rec.description.Some? then rec.description.value else "", enabled, commands)
  }

  /** What `GET /plugins` computes: one descriptor per record, in catalog order;
      an exception from `is_enabled` escapes the handler (an HTTP 500). */
  function ListingOf<P>(m: Manager, hooks: Hooks<P>, rs: seq<Record<P>>): Result<seq<PluginDesc>, Exception> {
    if rs == [] then Success([])
    else
      var rec := rs[|rs| - 1];
      match ListingOf(m, hooks, rs[..|rs| - 1])
      case Failure(e) => Failure(e)
      case Success(descs) =>
        match IsEnabled(m, rec.name)
        case Failure(e) => Failure(e)
        case Success(enabled) =>
          Success(descs + [DescriptorOf(rec, enabled, CommandsFor(hooks, enabled, rec.instance))])
  }

  lemma {:induction false} ListingStops<P>(m: Manager, hooks: Hooks<P>, rs: seq<Record<P>>, k: nat)
    requires k <= |rs| && ListingOf(m, hooks, rs[..k]).Failure?
    ensures ListingOf(m, hooks, rs) == ListingOf(m, hooks, rs[..k])
    decreases |rs| - k
  {
    if k < |rs| {
      assert rs[..|rs| - 1][..k] == rs[..k];
      ListingStops(m, hooks, rs[..|rs| - 1], k);
    } else {
      assert rs[..k] == rs;
    }
  }

  /** `list_plugins()`: the outer loop over the catalog, the inner loop over
      what `describe()` returned. */
  method ListPlugins<P>(m: Manager, hooks: Hooks<P>, discovered: seq<Record<P>>)
    returns (result: Result<seq<PluginDesc>, Exception>)
    ensures result == ListingOf(m, hooks, discovered)
  {
    var out: seq<PluginDesc> := [];
    for i := 0 to |discovered|
      invariant ListingOf(m, hooks, discovered[..i]) == Success(out)
    {
      var rec := discovered[i];
      assert discovered[..i + 1][..i] == discovered[..i];
      var enabled := IsEnabled(m, rec.name);
      if enabled.Failure? {
        ListingStops(m, hooks, discovered, i + 1);
        return Failure(enabled.error);
      }
      var plugin := rec.instance;
      var commands: seq<CommandDesc> := [];
      if enabled.value && plugin.Some? && hooks.hasDescribe(plugin.value) {
        var desc := hooks.describe(plugin.value);
        if desc.Success? {
          var items := DescribedItems(desc.value);
          if items.Success? {
            commands := CollectCommands(items.value);
          }
        }
      }
      out := out + [DescriptorOf(rec, enabled.value, commands)];
    }
    assert discovered[..|discovered|] == discovered;
    return Success(out);
  }

  /** `d` is the descriptor `list_plugins()` builds for `rec`: same name and
      version, the description or `""`, the enable flag, and commands only
      when the plugin is enabled and live. */
  predicate Lists<P>(m: Manager, hooks: Hooks<P>, rec: Record<P>, d: PluginDesc) {
    && IsEnabled(m, rec.name).Success?
    && var enabled := IsEnabled(m, rec.name).value;
    && d.name == rec.name
    && d.version == rec.version
    && d.description == (if rec.description.Some? then rec.description.value else "")
    && d.enabled == enabled
    && d.commands == CommandsFor(hooks, enabled, rec.instance)
  }

  /** Under a well-formed configuration the listing never fails and has one
      descriptor per record, in catalog order, each depending on its own
      record alone. */
  lemma {:induction false} ListingShape<P>(m: Manager, hooks: Hooks<P>, rs: seq<Record<P>>)
    requires WellFormed(m)
    ensures ListingOf(m, hooks, rs).Success?
    ensures var descs := ListingOf(m, hooks, rs).value;
      && |descs| == |rs|
      && forall i :: 0 <= i < |rs| ==> Lists(m, hooks, rs[i], descs[i])
    decreases |rs|
  {
    if rs != [] {
      var init := rs[..|rs| - 1];
      var rec := rs[|rs| - 1];
      ListingShape(m, hooks, init);
      var enabled := IsEnabled(m, rec.name).value;
      var d := DescriptorOf(rec, enabled, CommandsFor(hooks, enabled, rec.instance));
      assert Lists(m, hooks, rec, d);
      assert forall i :: 0 <= i < |init| ==> init[i] == rs[i];
    }
  }

  /** The listing fails exactly when `is_enabled` raises for some record. */
  lemma {:induction false} ListingFailure<P>(m: Manager, hooks: Hooks<P>, rs: seq<Record<P>>)
    ensures ListingOf(m, hooks, rs).Failure? <==> exists i :: 0 <= i < |rs| && IsEnabled(m, rs[i].name).Failure?
    decreases |rs|
  {
    if rs != [] {
      var init := rs[..|rs| - 1];
      ListingFailure(m, hooks, init);
      if exists i :: 0 <= i < |init| && IsEnabled(m, init[i].name).Failure? {
        var i :| 0 <= i < |init| && IsEnabled(m, init[i].name).Failure?;
        assert rs[i] == init[i];
      }
      if exists i :: 0 <= i < |rs| && IsEnabled(m, rs[i].name).Failure? {
        var i :| 0 <= i < |rs| && IsEnabled(m, rs[i].name).Failure?;
        if i < |init| {
          assert init[i] == rs[i];
        }
      }
    }
  }

  // ---------------------------------------------------------------------------
  // POST /run/{plugin_name}/{command}

  /** How a run request ends. */
  datatype Reply =
    | Ok(output: Value)                  // 200 {"ok": true, "output": output}
    | PluginNotFound                     // 404 "Plugin not found or disabled"
    | NoExecute                          // 400 "Plugin does not support execution"
    | CommandNotFound(detail: string)    // 404 str(KeyError)
    | ExecutionFailed(detail: string)    // 500 str(e)
    | InvalidBody(msg: string)           // 422, the body is not a valid RunRequest
    | Unhandled(e: Exception)            // 500, an exception escaped the handler

  function Status(r: Reply): (code: int)
    ensures code in {200, 400, 404, 422, 500}
    ensures code == 200 <==> r.Ok?
    ensures code == 404 <==> r.PluginNotFound? || r.CommandNotFound?
    ensures code == 500 <==> r.ExecutionFailed? || r.Unhandled?
  {
    match r
    case Ok(_) => 200
    case PluginNotFound => 404
    case NoExecute => 400
    case CommandNotFound(_) => 404
    case ExecutionFailed(_) => 500
    case InvalidBody(_) => 422
    case Unhandled(_) => 500
  }

  const PluginNotFoundDetail: string := "Plugin not found or disabled"
  const NoExecuteDetail: string := "Plugin does not support execution"

  /** The JSON body of the response; `None` for the framework's plain-text
      "Internal Server Error" page. */
  function ResponseBody(r: Reply): (b: Option<Value>)
    ensures b.None? <==> r.Unhandled?
    ensures r.Ok? ==> b == Some(Dict(map["ok" := Bool(true), "output" := r.output]))
    ensures r.CommandNotFound? || r.ExecutionFailed? ==> b == Some(Dict(map["detail" := Str(r.detail)]))
  {
    match r
    case Ok(v) => Some(Dict(map["ok" := Bool(true), "output" := v]))
    case PluginNotFound => Some(Dict(map["detail" := Str(PluginNotFoundDetail)]))
    case NoExecute => Some(Dict(map["detail" := Str(NoExecuteDetail)]))
    case CommandNotFound(d) => Some(Dict(map["detail" := Str(d)]))
    case ExecutionFailed(d) => Some(Dict(map["detail" := Str(d)]))
    case InvalidBody(msg) => Some(Dict(map["detail" := List([Dict(map["msg" := Str(msg)])])]))
    case Unhandled(_) => None
  }

  /** The position of the first record named `name`, or `|rs|` when there is none. */
  function FirstNamed<P>(rs: seq<Record<P>>, name: string): (k: nat)
    ensures k <= |rs|
    ensures forall j :: 0 <= j < k ==> rs[j].name != name
    ensures k < |rs| ==> rs[k].name == name
  {
    if rs == [] || rs[0].name == name then 0 else FirstNamed(rs[1..], name) + 1
  }

  /** `next((r for r in discovered if r.name == plugin_name), None)`: the first
      record with that name. */
  function FindRecord<P>(rs: seq<Record<P>>, name: string): (r: Option<Record<P>>)
    ensures r.None? <==> forall i :: 0 <= i < |rs| ==> rs[i].name != name
    ensures r.Some? ==> FirstNamed(rs, name) < |rs| && r.value == rs[FirstNamed(rs, name)]
  {
    var k := FirstNamed(rs, name);
    if k < |rs| then Some(rs[k]) else None
  }

  /** In a catalog with strictly increasing names the record found is the one
      with that name. */
  lemma FindInSorted<P>(rs: seq<Record<P>>, i: int)
    requires SortedRecords(rs) && 0 <= i < |rs|
    ensures FindRecord(rs, rs[i].name) == Some(rs[i])
  {
    SortedRecordsUnique(rs);
  }

  /** Dispatch sees the catalog only through the lookup of the requested name. */
  lemma DispatchByLookup<P>(m: Manager, hooks: Hooks<P>, d1: seq<Record<P>>, d2: seq<Record<P>>,
                            pluginName: string, command: string, args: Args)
    requires FindRecord(d1, pluginName) == FindRecord(d2, pluginName)
    ensures RunCommand(m, hooks, d1, pluginName, command, args) == RunCommand(m, hooks, d2, pluginName, command, args)
  {
  }

  /** How the outcome of `execute` is mapped: a return value is 200, a `KeyError`
      is 404 and any other exception is 500, each with `str(e)` as detail. */
  function ReplyOf(result: Result<Value, Exception>): (r: Reply)
    ensures r.Ok? <==> result.Success?
    ensures r.Ok? ==> r.output == result.value
    ensures r.CommandNotFound? <==> result.Failure? && result.error.KeyError?
    ensures r.ExecutionFailed? <==> result.Failure? && !result.error.KeyError?
    ensures result.Failure? ==> r.detail == ExceptionStr(result.error)
  {
    match result
    case Success(v) => Ok(v)
    case Failure(e) => if e.KeyError? then CommandNotFound(ExceptionStr(e)) else ExecutionFailed(ExceptionStr(e))
  }

  /** `run_command(plugin_name, command, body)` once the body is validated: the
      record is looked up, then `is_enabled` asked, then the instance checked,
      then `execute` looked for; only then is it called. */
  function RunCommand<P>(m: Manager, hooks: Hooks<P>, discovered: seq<Record<P>>,
                         pluginName: string, command: string, args: Args): (r: Reply)
    ensures FindRecord(discovered, pluginName).None? ==> r == PluginNotFound
    ensures r.Unhandled? <==> FindRecord(discovered, pluginName).Some? && IsEnabled(m, pluginName).Failure?
    ensures r.Unhandled? ==> r.e.TypeError?
    ensures !r.InvalidBody?
  {
    match FindRecord(discovered, pluginName)
    case None => PluginNotFound
    case Some(target) =>
      match IsEnabled(m, pluginName)
      case Failure(e) => Unhandled(e)
      case Success(enabled) =>
        if !enabled || target.instance.None? then PluginNotFound
        else
          var plugin := target.instance.value;
          if !hooks.hasExecute(plugin) then NoExecute
          else ReplyOf(hooks.execute(plugin, command, args))
  }

  /** Not found, disabled and instance-less all give the same reply, and it is
      decided before anything is executed: swapping in another `execute`
      changes nothing. */
  lemma NotFoundBeforeExecution<P>(m: Manager, hooks: Hooks<P>, discovered: seq<Record<P>>,
                                   pluginName: string, command: string, args: Args,
                                   other: (P, string, Args) -> Result<Value, Exception>)
    ensures RunCommand(m, hooks, discovered, pluginName, command, args) == PluginNotFound <==>
      || FindRecord(discovered, pluginName).None?
      || IsEnabled(m, pluginName) == Success(false)
      || (IsEnabled(m, pluginName).Success? && FindRecord(discovered, pluginName).value.instance.None?)
    ensures var r := RunCommand(m, hooks, discovered, pluginName, command, args);
      r.PluginNotFound? || r.NoExecute? || r.Unhandled? ==>
        RunCommand(m, hooks.(execute := other), discovered, pluginName, command, args) == r
  {
  }

  /** Dispatch cannot tell a disabled plugin from one that is not there. */
  lemma DisabledLooksAbsent<P>(m: Manager, hooks: Hooks<P>, discovered: seq<Record<P>>,
                               pluginName: string, command: string, args: Args)
    requires IsEnabled(m, pluginName) == Success(false)
    ensures RunCommand(m, hooks, discovered, pluginName, command, args)
      == RunCommand(m, hooks, [], pluginName, command, args)
      == PluginNotFound
  {
  }

  /** For a record of the catalog that is enabled, live and executable, the
      reply is exactly the classification of what its `execute` did. */
  lemma RunFound<P>(m: Manager, hooks: Hooks<P>, discovered: seq<Record<P>>, i: int,
                    command: string, args: Args)
    requires SortedRecords(discovered) && 0 <= i < |discovered|
    requires IsEnabled(m, discovered[i].name) == Success(true)
    requires discovered[i].instance.Some? && hooks.hasExecute(discovered[i].instance.value)
    ensures RunCommand(m, hooks, discovered, discovered[i].name, command, args)
      == ReplyOf(hooks.execute(discovered[i].instance.value, command, args))
  {
    FindInSorted(discovered, i);
  }

  /** A plugin that keeps the inherited `execute` answers 500, not 404, with the
      `NotImplementedError` message. */
  lemma DefaultExecuteIsServerError<P>(m: Manager, hooks: Hooks<P>, discovered: seq<Record<P>>, i: int,
                                       command: string, args: Args)
    requires SortedRecords(discovered) && 0 <= i < |discovered|
    requires IsEnabled(m, discovered[i].name) == Success(true)
    requires discovered[i].instance.Some? && hooks.hasExecute(discovered[i].instance.value)
    requires hooks.execute(discovered[i].instance.value, command, args) == DefaultExecute(command, args)
    ensures RunCommand(m, hooks, discovered, discovered[i].name, command, args) == ExecutionFailed(NotImplementedMessage)
    ensures Status(RunCommand(m, hooks, discovered, discovered[i].name, command, args)) == 500
  {
    RunFound(m, hooks, discovered, i, command, args);
  }

  /** `RunRequest`: the body must be an object; `args` defaults to `{}` and must
      be a dict when given. */
  function ParseRunRequest(body: Value): (r: Result<Args, Exception>)
    ensures body.Dict? && "args" !in body.entries ==> r == Success(map[])
    ensures body.Dict? && "args" in body.entries && body.entries["args"].Dict? ==> r == Success(body.entries["args"].entries)
    ensures r.Failure? <==> !body.Dict? || ("args" in body.entries && !body.entries["args"].Dict?)
    ensures r.Failure? ==> r.error.ValidationError?
  {
    if !body.Dict? then Failure(ValidationError("body: Input should be a valid dictionary"))
    else if "args" !in body.entries then Success(map[])
    else match body.entries["args"]
      case Dict(args) => Success(args)
      case _ => Failure(ValidationError("args: Input should be a valid dictionary"))
  }

  /** The endpoint: the framework validates the body before the handler runs. */
  function RunEndpoint<P>(m: Manager, hooks: Hooks<P>, discovered: seq<Record<P>>,
                          pluginName: string, command: string, body: Value): (r: Reply)
    ensures r.InvalidBody? <==> ParseRunRequest(body).Failure?
    ensures ParseRunRequest(body).Success? ==>
      r == RunCommand(m, hooks, discovered, pluginName, command, ParseRunRequest(body).value)
  {
    match ParseRunRequest(body)
    case Failure(e) => InvalidBody(ExceptionStr(e))
    case Success(args) => RunCommand(m, hooks, discovered, pluginName, command, args)
  }

  // ---------------------------------------------------------------------------
  // File upload and download

  /** The components of a POSIX path: split at `/`, dropping empty and `.` parts. */
  function Components(p: string): (cs: seq<string>)
    ensures forall i :: 0 <= i < |cs| ==> cs[i] != "" && cs[i] != "." && '/' !in cs[i]
    decreases |p|
  {
    if p == [] then []
    else
      var k := SlashIndex(p);
      var part := p[..k];
      var rest := if k < |p| then Components(p[k + 1..]) else [];
      if part == "" || part == "." then rest else [part] + rest
  }

  /** The index of the first `/` in `p`, or `|p|`. */
  function SlashIndex(p: string): (k: nat)
    ensures k <= |p| && '/' !in p[..k]
    ensures k < |p| ==> p[k] == '/'
  {
    if p == [] || p[0] == '/' then 0
    else
      var k := SlashIndex(p[1..]);
      assert p[..k + 1] == [p[0]] + p[1..][..k];
      k + 1
  }

  /** `Path(p).name`: the last component, `""` when there is none. */
  function Basename(p: string): (n: string)
    ensures '/' !in n
    ensures n != "."
  {
    var cs := Components(p);
    if cs == [] then "" else cs[|cs| - 1]
  }

  lemma {:induction false} SlashIndexNone(p: string)
    requires '/' !in p
    ensures SlashIndex(p) == |p|
  {
    if p != [] {
      assert p[0] in p;
      assert forall c :: c in p[1..] ==> c in p;
      SlashIndexNone(p[1..]);
    }
  }

  lemma ComponentsOfPlain(p: string)
    requires '/' !in p
    ensures Components(p) == if p == "" || p == "." then [] else [p]
  {
    if p != [] {
      SlashIndexNone(p);
      assert p[..|p|] == p;
    }
  }

  /** Taking the name of a name changes nothing. */
  lemma BasenameIdempotent(p: string)
    ensures Basename(Basename(p)) == Basename(p)
  {
    ComponentsOfPlain(Basename(p));
  }

  /** A name without `/` other than `.` is its own base name. */
  lemma BasenameOfPlain(p: string)
    requires '/' !in p && p != "."
    ensures Basename(p) == p
  {
    ComponentsOfPlain(p);
  }

  /** What `POST /files/upload` answers. Writing to `data/uploads/<name>` fails
      with `IsADirectoryError` when the name is empty (the target is the upload
      directory itself) or `..` (its parent). */
  datatype UploadReply =
    | Stored(filename: string, path: string)   // {"ok": true, "filename": ..., "path": ...}
    | WriteFailed                              // 500

  function Upload(filename: string): (r: UploadReply)
    ensures r.WriteFailed? <==> Basename(filename) in {"", ".."}
    ensures r.Stored? ==> r.filename == Basename(filename) && r.path == "data/uploads/" + r.filename
    ensures r.Stored? ==> '/' !in r.filename
  {
    var name := Basename(filename);
    if name == "" || name == ".." then WriteFailed else Stored(name, "data/uploads/" + name)
  }

  /** What `GET /files/download/{name}` answers, given the names of the regular
      files in the upload directory. */
  datatype DownloadReply = FileFound(name: string) | FileNotFound   // 200 file / 404 "File not found"

  function Download(name: string, stored: set<string>): (r: DownloadReply)
    ensures r.FileFound? <==> Basename(name) in stored
    ensures r.FileFound? ==> r.name == Basename(name)
  {
    var safe := Basename(name);
    if safe in stored then FileFound(safe) else FileNotFound
  }

  /** What was uploaded under a name can be downloaded under that name, or under
      any path ending in it. */
  lemma DownloadAfterUpload(filename: string, stored: set<string>, request: string)
    requires Upload(filename).Stored?
    requires Basename(request) == Basename(filename)
    ensures Download(request, stored + {Upload(filename).filename}) == FileFound(Upload(filename).filename)
  {
  }
}
