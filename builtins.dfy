/**
 * The plugins that ship with the repository, plugged into the host: their
 * hooks, the catalog the registry builds from their directories, and what
 * the HTTP binder answers for them.
 */
module Builtins {

  import opened Wrappers
  import opened Text
  import opened Py
  import opened Contract
  import opened Registry
  import opened Api
  import ExampleTool
  import KdpFormat
  import Cli

  /** The plugin objects: the example tool, the KDP formatter, and a plugin
      generated by `plugins create`. */
  datatype Builtin = Example | Kdp | Scaffolded(pkg: string)

  /** Their `describe()`. */
  function DescribeOf(p: Builtin): Value {
    match p
    case Example => ExampleTool.Describe()
    case Kdp => KdpFormat.Describe()
    case Scaffolded(_) => Cli.TemplateDescribe()
  }

  /** Their `execute`, with `json.loads` given as `parse`. */
  function ExecuteOf(p: Builtin, command: string, args: Args, parse: KdpFormat.JsonParser): Result<Value, Exception> {
    match p
    case Example => ExampleTool.Execute(command, args)
    case Kdp => KdpFormat.Execute(command, args, parse)
    case Scaffolded(_) => Cli.TemplateExecute(command, args)
  }

  /** The hooks of the shipped plugins: `on_load` returns `None`, `register`
      attaches a sub-command group, `describe` and `execute` are their own. */
  function HooksFor(parse: KdpFormat.JsonParser): Hooks<Builtin> {
    Hooks(
      (p, ctx) => Returned,
      p => Returned,
      p => true,
      p => Success(DescribeOf(p)),
      p => true,
      (p, c, a) => ExecuteOf(p, c, a, parse))
  }

  /** The class attributes both shipped plugins set. */
  function AttributesOf(p: Builtin): Attributes {
    match p
    case Example => Attributes(Some(ExampleTool.Version), Some(ExampleTool.Description))
    case Kdp => Attributes(Some(KdpFormat.Version), Some(KdpFormat.Description))
    case Scaffolded(pkg) => Attributes(Some("0.1.0"), Some(pkg + " plugin"))
  }

  /** The plugin directories of the repository that the model covers, in
      directory order (not sorted). */
  function Shipped(): seq<Entry<Builtin>> {
    [Entry("kdpformat", Loaded(Kdp, AttributesOf(Kdp))), Entry("example_tool", Loaded(Example, AttributesOf(Example)))]
  }

  function ShippedCatalog(m: Manager): seq<Record<Builtin>> {
    CatalogOf(m, SortByName(Shipped()))
  }

  /** Two entries listed in the wrong order are swapped by sorting. */
  lemma SortTwo<P>(a: Entry<P>, b: Entry<P>)
    requires Below(b.name, a.name)
    ensures SortByName([a, b]) == [b, a]
  {
    BelowAsymmetric(b.name, a.name);
    assert [a, b][1..] == [b];
    assert [b][1..] == [];
    assert SortByName([b]) == Insert(b, SortByName([])) == [b];
    assert Insert(a, [b]) == [b] + Insert(a, []);
    assert SortByName([a, b]) == Insert(a, SortByName([b]));
  }

  lemma CatalogTwo<P>(m: Manager, a: Entry<P>, b: Entry<P>)
    ensures CatalogOf(m, [a, b]) == RecordsFor(m, a) + RecordsFor(m, b)
  {
    assert [a, b][..1] == [a];
    assert [a][..0] == [];
    assert CatalogOf(m, [a]) == CatalogOf(m, []) + RecordsFor(m, a) == RecordsFor(m, a);
    assert CatalogOf(m, [a, b]) == CatalogOf(m, [a]) + RecordsFor(m, b);
  }

  /** Discovery sorts the two directories and keys them by directory name. */
  lemma ShippedCatalogShape(m: Manager)
    ensures var c := ShippedCatalog(m);
      && |c| == 2
      && c[0] == Record("example_tool", m.pluginsDir + "/example_tool", Some("0.1.0"), Some(ExampleTool.Description), Some(Example))
      && c[1] == Record("kdpformat", m.pluginsDir + "/kdpformat", Some("0.1.0"), Some(KdpFormat.Description), Some(Kdp))
  {
    var s := Shipped();
    assert "example_tool"[0] < "kdpformat"[0];
    SortTwo(s[0], s[1]);
    CatalogTwo(m, s[1], s[0]);
  }

  /** The repository's whole plugin root in name order: besides the two modelled
      plugins it holds `businessform` and `extraction`, whose loading is given
      as the outcomes `business` and `extraction`. */
  function Repository(business: LoadOutcome<Builtin>, extraction: LoadOutcome<Builtin>): seq<Entry<Builtin>> {
    [Entry("businessform", business), Shipped()[1], Entry("extraction", extraction), Shipped()[0]]
  }

  lemma RepositorySorted(business: LoadOutcome<Builtin>, extraction: LoadOutcome<Builtin>)
    ensures SortedEntries(Repository(business, extraction))
  {
    var names := ["businessform", "example_tool", "extraction", "kdpformat"];
    assert Below(names[0], names[1]) && Below(names[0], names[2]) && Below(names[0], names[3]);
    assert Below(names[1], names[3]) && Below(names[2], names[3]);
    assert Below(names[1], names[2]) by {
      assert names[1][..2] == names[2][..2] == "ex";
      assert names[1][2..][2..] == "ample_tool"[2..];
      assert Below("ample_tool", "traction");
    }
  }

  lemma CatalogFour<P>(m: Manager, r: seq<Entry<P>>)
    requires |r| == 4
    ensures CatalogOf(m, r) == RecordsFor(m, r[0]) + RecordsFor(m, r[1]) + RecordsFor(m, r[2]) + RecordsFor(m, r[3])
  {
    assert r == [r[0], r[1]] + [r[2], r[3]];
    CatalogAppend(m, [r[0], r[1]], [r[2], r[3]]);
    CatalogTwo(m, r[0], r[1]);
    CatalogTwo(m, r[2], r[3]);
  }

  /** Discovering any listing of four entries whose name order is `r` yields the
      records of `r`'s entries in that order. */
  lemma CatalogOfListing<P>(m: Manager, listing: seq<Entry<P>>, r: seq<Entry<P>>)
    requires DistinctEntries(listing) && multiset(listing) == multiset(r)
    requires SortedEntries(r) && |r| == 4
    ensures CatalogOf(m, SortByName(listing)) == RecordsFor(m, r[0]) + RecordsFor(m, r[1]) + RecordsFor(m, r[2]) + RecordsFor(m, r[3])
  {
    SortSorted(listing);
    SortedPermutationUnique(SortByName(listing), r);
    CatalogFour(m, r);
  }

  /** The catalog of the two modelled plugins is the record of each. */
  lemma ShippedRecords(m: Manager)
    ensures ShippedCatalog(m) == RecordsFor(m, Shipped()[1]) + RecordsFor(m, Shipped()[0])
    ensures |RecordsFor(m, Shipped()[1])| == 1 && |RecordsFor(m, Shipped()[0])| == 1
  {
    var s := Shipped();
    assert "example_tool"[0] < "kdpformat"[0];
    SortTwo(s[0], s[1]);
    CatalogTwo(m, s[1], s[0]);
  }

  /** Whatever order `iterdir()` lists the four directories in, the catalog is
      the `businessform` record (if it loads), `example_tool`, the `extraction`
      record (if it loads) and `kdpformat`. */
  lemma RepositoryCatalog(m: Manager, listing: seq<Entry<Builtin>>,
                          business: LoadOutcome<Builtin>, extraction: LoadOutcome<Builtin>)
    requires DistinctEntries(listing) && multiset(listing) == multiset(Repository(business, extraction))
    ensures var c := ShippedCatalog(m);
      && |c| == 2
      && CatalogOf(m, SortByName(listing))
        == RecordsFor(m, Entry("businessform", business)) + [c[0]] + RecordsFor(m, Entry("extraction", extraction)) + [c[1]]
  {
    var r := Repository(business, extraction);
    RepositorySorted(business, extraction);
    CatalogOfListing(m, listing, r);
    ShippedRecords(m);
  }

  /** A record that sits in two name-sorted catalogs is what both find under its name. */
  lemma LookupShared<P>(full: seq<Record<P>>, c: seq<Record<P>>, pre: seq<Record<P>>, post: seq<Record<P>>, x: Record<P>)
    requires SortedRecords(full) && SortedRecords(c)
    requires full == pre + [x] + post && x in c
    ensures FindRecord(full, x.name) == Some(x) && FindRecord(c, x.name) == Some(x)
  {
    assert full[|pre|] == x;
    FindInSorted(full, |pre|);
    var j :| 0 <= j < |c| && c[j] == x;
    FindInSorted(c, j);
  }

  /** A record at a known place in a discovered catalog is found there, as in
      any other sorted catalog that holds it. */
  lemma CatalogLookup<P>(m: Manager, listing: seq<Entry<P>>, c: seq<Record<P>>,
                         pre: seq<Record<P>>, post: seq<Record<P>>, x: Record<P>)
    requires DistinctEntries(listing) && SortedRecords(c) && x in c
    requires CatalogOf(m, SortByName(listing)) == pre + [x] + post
    ensures FindRecord(CatalogOf(m, SortByName(listing)), x.name) == FindRecord(c, x.name)
  {
    SortSorted(listing);
    CatalogSorted(m, SortByName(listing));
    LookupShared(CatalogOf(m, SortByName(listing)), c, pre, post, x);
  }

  lemma ShippedSorted(m: Manager)
    ensures SortedRecords(ShippedCatalog(m))
  {
    ShippedCatalogShape(m);
    assert Below("example_tool", "kdpformat");
  }

  /** In the repository catalog, `example_tool` and `kdpformat` are found as in
      the catalog of the two modelled plugins. */
  lemma RepositoryLookup(m: Manager, listing: seq<Entry<Builtin>>,
                         business: LoadOutcome<Builtin>, extraction: LoadOutcome<Builtin>, name: string)
    requires DistinctEntries(listing) && multiset(listing) == multiset(Repository(business, extraction))
    requires name == "example_tool" || name == "kdpformat"
    ensures FindRecord(CatalogOf(m, SortByName(listing)), name) == FindRecord(ShippedCatalog(m), name)
  {
    RepositoryCatalog(m, listing, business, extraction);
    ShippedCatalogShape(m);
    ShippedSorted(m);
    var c := ShippedCatalog(m);
    var rb := RecordsFor(m, Entry("businessform", business));
    var rx := RecordsFor(m, Entry("extraction", extraction));
    if name == "example_tool" {
      CatalogLookup(m, listing, c, rb, rx + [c[1]], c[0]);
    } else {
      CatalogLookup(m, listing, c, rb + [c[0]] + rx, [], c[1]);
    }
  }

  /** Dispatch to `example_tool` or `kdpformat` behaves the same whether or not
      the two unmodelled plugin directories are present. */
  lemma RepositoryDispatch(m: Manager, listing: seq<Entry<Builtin>>,
                           business: LoadOutcome<Builtin>, extraction: LoadOutcome<Builtin>,
                           parse: KdpFormat.JsonParser, name: string, command: string, args: Args)
    requires DistinctEntries(listing) && multiset(listing) == multiset(Repository(business, extraction))
    requires name == "example_tool" || name == "kdpformat"
    ensures RunCommand(m, HooksFor(parse), CatalogOf(m, SortByName(listing)), name, command, args)
      == RunCommand(m, HooksFor(parse), ShippedCatalog(m), name, command, args)
  {
    RepositoryLookup(m, listing, business, extraction, name);
    DispatchByLookup(m, HooksFor(parse), CatalogOf(m, SortByName(listing)), ShippedCatalog(m), name, command, args);
  }

  /** Through the host, the enabled example plugin answers under its directory
      name with what its own `execute` returns. */
  lemma ExampleRuns(m: Manager, parse: KdpFormat.JsonParser, command: string, args: Args)
    requires IsEnabled(m, "example_tool") == Success(true)
    ensures RunCommand(m, HooksFor(parse), ShippedCatalog(m), "example_tool", command, args)
      == ReplyOf(ExampleTool.Execute(command, args))
  {
    ShippedCatalogShape(m);
    var c := ShippedCatalog(m);
    assert FindRecord(c, "example_tool") == Some(c[0]);
  }

  /** No shipped directory is called `example`, the example plugin's own `name`
      attribute, so nothing answers under it. */
  lemma ExampleUnknownUnderClassName(m: Manager, parse: KdpFormat.JsonParser, command: string, args: Args)
    ensures RunCommand(m, HooksFor(parse), ShippedCatalog(m), ExampleTool.ClassName, command, args) == PluginNotFound
  {
    ShippedCatalogShape(m);
    assert FindRecord(ShippedCatalog(m), ExampleTool.ClassName) == None;
  }

  /** The example plugin answers under its directory name `example_tool`, not
      under its own `name` attribute `example`. Under its directory name an
      unknown command is a 404 and a missing `msg` a 500. */
  lemma ExampleKeyIsDirectory(m: Manager, parse: KdpFormat.JsonParser)
    requires IsEnabled(m, "example_tool") == Success(true)
    ensures var c := ShippedCatalog(m);
      var h := HooksFor(parse);
      && RunCommand(m, h, c, ExampleTool.ClassName, "greet", map[]) == PluginNotFound
      && RunCommand(m, h, c, "example_tool", "greet", map[]) == Ok(Str("Hallo, Welt!"))
      && RunCommand(m, h, c, "example_tool", "nope", map[]) == CommandNotFound("'nope'")
      && Status(RunCommand(m, h, c, "example_tool", "nope", map[])) == 404
      && RunCommand(m, h, c, "example_tool", "echo", map[]) == ExecutionFailed("'msg' ist erforderlich")
      && Status(RunCommand(m, h, c, "example_tool", "echo", map[])) == 500
  {
    ExampleUnknownUnderClassName(m, parse, "greet", map[]);
    ExampleGreets(m, parse);
    ExampleUnknownCommand(m, parse);
    ExampleEchoNeedsMsg(m, parse);
  }

  lemma ExampleGreets(m: Manager, parse: KdpFormat.JsonParser)
    requires IsEnabled(m, "example_tool") == Success(true)
    ensures RunCommand(m, HooksFor(parse), ShippedCatalog(m), "example_tool", "greet", map[]) == Ok(Str("Hallo, Welt!"))
  {
    ExampleRuns(m, parse, "greet", map[]);
    assert "Hallo, " + "Welt" + "!" == "Hallo, Welt!";
  }

  lemma ExampleUnknownCommand(m: Manager, parse: KdpFormat.JsonParser)
    requires IsEnabled(m, "example_tool") == Success(true)
    ensures RunCommand(m, HooksFor(parse), ShippedCatalog(m), "example_tool", "nope", map[]) == CommandNotFound("'nope'")
  {
    assert ExampleTool.Execute("nope", map[]) == Failure(KeyError("nope"));
    assert ExceptionStr(KeyError("nope")) == "'nope'" by {
      KeyErrorDetail("nope");
    }
    ExampleRuns(m, parse, "nope", map[]);
  }

  lemma ExampleEchoNeedsMsg(m: Manager, parse: KdpFormat.JsonParser)
    requires IsEnabled(m, "example_tool") == Success(true)
    ensures RunCommand(m, HooksFor(parse), ShippedCatalog(m), "example_tool", "echo", map[]) == ExecutionFailed("'msg' ist erforderlich")
  {
    ExampleRuns(m, parse, "echo", map[]);
  }

  /** A plugin disabled in `werkstatt.toml` cannot be run but is still listed,
      as disabled and without commands. */
  lemma DisabledIsListed(root: string, parse: KdpFormat.JsonParser, args: Args)
    ensures var m := NewManager(root, map["plugins" := Dict(map["kdpformat" := Bool(false)])]);
      var c := ShippedCatalog(m);
      var h := HooksFor(parse);
      && RunCommand(m, h, c, "kdpformat", "extract", args) == PluginNotFound
      && ListingOf(m, h, c).Success?
      && |ListingOf(m, h, c).value| == 2
      && ListingOf(m, h, c).value[1] == PluginDesc("kdpformat", Some("0.1.0"), KdpFormat.Description, false, [])
      && ListingOf(m, h, c).value[0].enabled
  {
    var table := map["kdpformat" := Bool(false)];
    var cfg := map["plugins" := Dict(table)];
    assert "plugins" in cfg;
    var m := NewManager(root, cfg);
    assert m.config == cfg;
    assert "example_tool" !in table;
    var c := ShippedCatalog(m);
    var h := HooksFor(parse);
    assert IsEnabled(m, "kdpformat") == Success(false);
    assert IsEnabled(m, "example_tool") == Success(true);
    ShippedCatalogShape(m);
    DisabledListedAt(m, h, c, "example_tool", "kdpformat", Some(Example), Some(Kdp), args);
  }

  /** The listing step of the lemma above, over any two-record catalog. */
  lemma DisabledListedAt<P>(m: Manager, h: Hooks<P>, c: seq<Record<P>>, first: string, second: string,
                            a: Option<P>, b: Option<P>, args: Args)
    requires WellFormed(m)
    requires IsEnabled(m, first) == Success(true) && IsEnabled(m, second) == Success(false)
    requires |c| == 2 && c[0].name == first && c[1].name == second && c[0].instance == a && c[1].instance == b
    ensures RunCommand(m, h, c, second, "extract", args) == PluginNotFound
    ensures ListingOf(m, h, c).Success? && |ListingOf(m, h, c).value| == 2
    ensures ListingOf(m, h, c).value[1] ==
      PluginDesc(second, c[1].version, if c[1].description.Some? then c[1].description.value else "", false, [])
    ensures ListingOf(m, h, c).value[0].enabled
  {
    NotFoundBeforeExecution(m, h, c, second, "extract", args, h.execute);
    ListingShape(m, h, c);
    var l := ListingOf(m, h, c).value;
    assert Lists(m, h, c[0], l[0]) && Lists(m, h, c[1], l[1]);
  }

  /** A directory whose `get_plugin()` raises costs only its own record. */
  lemma FailedFactoryIsolated(m: Manager, e: Exception)
    ensures CatalogOf(m, SortByName([Entry("beta", FactoryFails(e)), Entry("alpha", Loaded(Example, AttributesOf(Example)))]))
      == [Record("alpha", m.pluginsDir + "/alpha", Some("0.1.0"), Some(ExampleTool.Description), Some(Example))]
  {
    var s := [Entry("beta", FactoryFails(e)), Entry("alpha", Loaded(Example, AttributesOf(Example)))];
    assert "alpha"[0] < "beta"[0];
    SortTwo(s[0], s[1]);
    CatalogTwo(m, s[1], s[0]);
    assert RecordsFor(m, s[0]) == [];
    assert m.pluginsDir + "/" + "alpha" == m.pluginsDir + "/alpha";
  }

  /** The names of the commands the listing shows for a `describe()` value. */
  function DescribedNames(desc: Value): seq<string> {
    var items := DescribedItems(desc);
    if items.Failure? then []
    else var cs := Collect(items.value).0; seq(|cs|, i requires 0 <= i < |cs| => cs[i].name)
  }

  /** `greet`'s entry validates into a command with one optional `name`
      parameter whose declared default is `"Welt"`. */
  lemma GreetEntryParses()
    ensures ParseCommand(ExampleTool.GreetEntry()) == Success(CommandDesc("greet", "Gibt eine Begrüßung aus.",
      [CommandParam("name", "string", false, "Name zum Grüßen", Str(ExampleTool.DefaultName))]))
  {
    var d := ExampleTool.GreetEntry();
    var p := d["params"].items[0];
    assert p.entries["name"] == Str("name");
    assert p.entries["required"] == Bool(false);
    assert p.entries["default"] == Str(ExampleTool.DefaultName);
    assert p.entries["type"] == Str("string") && p.entries["description"] == Str("Name zum Grüßen");
    var param := CommandParam("name", "string", false, "Name zum Grüßen", Str(ExampleTool.DefaultName));
    assert ParseParam(p) == Success(param);
    var items := d["params"].items;
    assert items[1..] == [];
    assert ParseParams(items[1..]) == Success([]);
    assert [param] + [] == [param];
    assert ParseParams(items) == Success([param]);
    assert d["name"] == Str("greet") && d["description"] == Str("Gibt eine Begrüßung aus.");
  }

  lemma EchoEntryParses()
    ensures ParseCommand(ExampleTool.EchoEntry()) == Success(CommandDesc("echo", "Gibt die Nachricht 1:1 zurück.",
      [CommandParam("msg", "string", true, "Nachricht", Null)]))
  {
    var d := ExampleTool.EchoEntry();
    var p := d["params"].items[0];
    assert p.entries["name"] == Str("msg");
    assert p.entries["required"] == Bool(true);
    assert "default" !in p.entries;
    assert p.entries["type"] == Str("string") && p.entries["description"] == Str("Nachricht");
    var param := CommandParam("msg", "string", true, "Nachricht", Null);
    assert ParseParam(p) == Success(param);
    var items := d["params"].items;
    assert items[1..] == [];
    assert ParseParams(items[1..]) == Success([]);
    assert [param] + [] == [param];
    assert ParseParams(items) == Success([param]);
    assert d["name"] == Str("echo") && d["description"] == Str("Gibt die Nachricht 1:1 zurück.");
  }

  /** The commands the listing shows for the example plugin. */
  function ExampleCommands(): seq<CommandDesc> {
    [CommandDesc("greet", "Gibt eine Begrüßung aus.", [CommandParam("name", "string", false, "Name zum Grüßen", Str(ExampleTool.DefaultName))]),
     CommandDesc("echo", "Gibt die Nachricht 1:1 zurück.", [CommandParam("msg", "string", true, "Nachricht", Null)])]
  }

  /** A dict that validates, after entries that did not stop the loop, is appended. */
  lemma CollectValidDict(items: seq<Value>, d: map<string, Value>)
    requires !Collect(items).1 && ParseCommand(d).Success?
    ensures Collect(items + [Dict(d)]) == (Collect(items).0 + [ParseCommand(d).value], false)
  {
    assert (items + [Dict(d)])[..|items|] == items;
  }

  /** The example plugin describes exactly the commands its `execute` accepts,
      and the default it declares for `greet`'s `name` is the one `execute` uses. */
  lemma ExampleDescribeMatchesExecute(command: string, args: Args)
    ensures DescribedNames(ExampleTool.Describe()) == ["greet", "echo"]
    ensures ExampleTool.Execute(command, args).Failure? && ExampleTool.Execute(command, args).error.KeyError?
      <==> command !in DescribedNames(ExampleTool.Describe())
    ensures Collect(ExampleTool.Describe().items) == (ExampleCommands(), false)
    ensures var greet := ExampleCommands()[0];
      ExampleTool.Execute("greet", map[]) == ExampleTool.Execute("greet", map["name" := greet.params[0].default])
  {
    ExampleCollects();
    var cs := ExampleCommands();
    assert DescribedNames(ExampleTool.Describe()) == seq(|cs|, i requires 0 <= i < |cs| => cs[i].name);
  }

  /** Validating the example plugin's `describe()` keeps both entries. */
  lemma ExampleCollects()
    ensures Collect(ExampleTool.Describe().items) == (ExampleCommands(), false)
  {
    var items := ExampleTool.Describe().items;
    GreetEntryParses();
    EchoEntryParses();
    var greet := ParseCommand(ExampleTool.GreetEntry()).value;
    var echo := ParseCommand(ExampleTool.EchoEntry()).value;
    var none: seq<Value> := [];
    var first := [Dict(ExampleTool.GreetEntry())];
    assert Collect(none) == ([], false);
    CollectValidDict(none, ExampleTool.GreetEntry());
    assert none + first == first;
    assert [] + [greet] == [greet];
    assert Collect(first) == ([greet], false);
    CollectValidDict(first, ExampleTool.EchoEntry());
    assert first + [Dict(ExampleTool.EchoEntry())] == items;
    assert [greet] + [echo] == [greet, echo];
  }

  /** A scaffolded plugin greets `World` unless given a non-empty name, through
      the host as well as directly. */
  lemma ScaffoldedRoundTrip(m: Manager, parse: KdpFormat.JsonParser)
    requires IsEnabled(m, "demo") == Success(true)
    ensures var c := [Record("demo", m.pluginsDir + "/demo", Some("0.1.0"), Some("demo plugin"), Some(Scaffolded("demo")))];
      var h := HooksFor(parse);
      && RunCommand(m, h, c, "demo", "hello", map[]) == Ok(Str("Hello, World!"))
      && RunCommand(m, h, c, "demo", "hello", map["name" := Str("")]) == Ok(Str("Hello, World!"))
      && RunCommand(m, h, c, "demo", "hello", map["name" := Str("Ada")]) == Ok(Str("Hello, Ada!"))
      && Status(RunCommand(m, h, c, "demo", "bye", map[])) == 404
  {
    assert "Hello, " + "Ada" + "!" == "Hello, Ada!";
  }
}
