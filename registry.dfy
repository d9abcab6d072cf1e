/**
 * The plugin registry (`PluginManager` of `werkstatt.core.manager`): the
 * enable policy over the configuration, discovery of plugin directories into an
 * ordered catalog of records, and start-up registration of the enabled plugins.
 *
 * Loading a plugin's `plugin.py` is not executed here: each directory entry
 * comes with the outcome that loading it would have (`LoadOutcome`), and
 * discovery is the deterministic filter over the sorted entries that the
 * source's loop performs.
 */
module Registry {

  import opened Wrappers
  import opened Text
  import opened Py
  import opened Contract

  /** The parsed `werkstatt.toml`: its top-level table. */
  type Config = map<string, Value>

  /** A `PluginManager`: the project root, the effective configuration and the
      plugin root `<project_root>/werkstatt_plugins`. Nothing in it changes after
      construction. */
  datatype Manager = Manager(projectRoot: string, config: Config, pluginsDir: string)

  /** `PluginManager(project_root, config)`: an empty (falsy) configuration is
      replaced by `{"plugins": {}}`. */
  function NewManager(projectRoot: string, config: Config): Manager {
    Manager(
      projectRoot,
      if config == map[] then map["plugins" := Dict(map[])] else config,
      projectRoot + "/werkstatt_plugins")
  }

  /** `is_enabled(name)`. With a `plugins` table the configured value decides
      (by truthiness) and an absent name is enabled (default-allow). A `plugins`
      entry that is not a table makes Python's `in` and `[]` behave as they do on
      that type: a string tests for a substring and then cannot be indexed by a
      string, a list tests membership and then cannot be indexed, anything else
      does not support `in`; each of those raises `TypeError`. */
  function IsEnabled(m: Manager, name: string): (r: Result<bool, Exception>)
    ensures "plugins" !in m.config ==> r == Success(true)
    ensures "plugins" in m.config && m.config["plugins"].Dict? ==>
      var table := m.config["plugins"].entries;
      r == if name in table then Success(Truthy(table[name])) else Success(true)
    ensures r.Failure? ==> r.error.TypeError?
    ensures r.Failure? <==> "plugins" in m.config && match m.config["plugins"]
      case Dict(_) => false
      case Str(s) => Contains(s, name)
      case List(items) => Str(name) in items
      case _ => true
  {
    var table := if "plugins" in m.config then m.config["plugins"] else Dict(map[]);
    match table
    case Dict(entries) =>
      if name in entries then Success(Truthy(entries[name])) else Success(true)
    case Str(s) =>
      if Contains(s, name) then Failure(TypeError("string indices must be integers, not 'str'"))
      else Success(true)
    case List(items) =>
      if Str(name) in items then Failure(TypeError("list indices must be integers or slices, not str"))
      else Success(true)
    case _ =>
      Failure(TypeError("argument of type is not iterable"))
  }

  /** The configuration's `plugins` entry is absent or a table, so `is_enabled`
      never raises. */
  predicate WellFormed(m: Manager) {
    "plugins" !in m.config || m.config["plugins"].Dict?
  }

  /** An empty configuration becomes `{"plugins": {}}`, under which every plugin is enabled. */
  lemma EmptyConfigEnablesAll(projectRoot: string, name: string)
    ensures WellFormed(NewManager(projectRoot, map[]))
    ensures IsEnabled(NewManager(projectRoot, map[]), name) == Success(true)
  {
  }

  /** What loading one directory entry of the plugin root would do, in the order
      the source checks: not a directory, no `plugin.py`, no module spec or loader,
      the module's top-level code raises, no `get_plugin`, `get_plugin()` raises,
      the result is not a `ToolPlugin`, or a live instance with its attributes. */
  datatype LoadOutcome<P> =
    | NotDir
    | NoEntry
    | SpecMissing
    | ExecFails(e: Exception)
    | NoFactory
    | FactoryFails(e: Exception)
    | NotContract
    | Loaded(plugin: P, attrs: Attributes)
  {
    /** A directory holding `plugin.py`, which `_load_metadata` is asked to load. */
    predicate IsCandidate() {
      !NotDir? && !NoEntry?
    }
  }

  /** The outcome of calling `get_plugin()` on a module that defines it. */
  function FactoryOutcome<P>(plugin: P, cls: PluginClass): (o: LoadOutcome<P>)
    ensures o.Loaded? <==> cls.implementsRegister
    ensures !o.Loaded? ==> o.FactoryFails?
  {
    match Instantiate(cls)
    case Success(attrs) => Loaded(plugin, attrs)
    case Failure(e) => FactoryFails(e)
  }

  /** One entry of the plugin root as `iterdir()` yields it. */
  datatype Entry<P> = Entry(name: string, outcome: LoadOutcome<P>)

  /** The plugin root: absent, or its entries in directory order. */
  datatype PluginsDir<P> = Missing | Listing(entries: seq<Entry<P>>)

  /** `PluginRecord`. */
  datatype Record<P> = Record(
    name: string,
    path: string,
    version: Option<string>,
    description: Option<string>,
    instance: Option<P>)

  /** `_load_metadata(name, plugin_py)`: any failure gives no record; a live
      instance gives a record named after the directory, located at the
      directory, with the instance's version and description. */
  function LoadMetadata<P>(m: Manager, name: string, outcome: LoadOutcome<P>): (r: Option<Record<P>>)
    requires outcome.IsCandidate()
    ensures r.Some? <==> outcome.Loaded?
    ensures r.Some? ==>
      && r.value.name == name && r.value.path == m.pluginsDir + "/" + name
      && r.value.version == outcome.attrs.version && r.value.description == outcome.attrs.description
      && r.value.instance == Some(outcome.plugin)
  {
    match outcome
    case Loaded(p, attrs) => Some(Record(name, m.pluginsDir + "/" + name, attrs.version, attrs.description, Some(p)))
    case _ => None
  }

  // ---------------------------------------------------------------------------
  // Ordering of the directory listing

  /** Entry names are strictly increasing in Python's string order. */
  predicate SortedEntries<P>(s: seq<Entry<P>>) {
    forall i, j :: 0 <= i < j < |s| ==> Below(s[i].name, s[j].name)
  }

  /** No two entries share a name (true of any directory listing). */
  predicate DistinctEntries<P>(s: seq<Entry<P>>) {
    forall i, j :: 0 <= i < j < |s| ==> s[i].name != s[j].name
  }

  /** Record names are strictly increasing in Python's string order. */
  predicate SortedRecords<P>(rs: seq<Record<P>>) {
    forall i, j :: 0 <= i < j < |rs| ==> Below(rs[i].name, rs[j].name)
  }

  /** Strictly increasing names are unique names. */
  lemma SortedRecordsUnique<P>(rs: seq<Record<P>>)
    requires SortedRecords(rs)
    ensures forall i, j :: 0 <= i < j < |rs| ==> rs[i].name != rs[j].name
  {
    forall i, j | 0 <= i < j < |rs| ensures rs[i].name != rs[j].name {
      BelowIrreflexive(rs[i].name);
    }
  }

  function Insert<P>(e: Entry<P>, s: seq<Entry<P>>): seq<Entry<P>> {
    if s == [] then [e]
    else if Below(e.name, s[0].name) then [e] + s
    else [s[0]] + Insert(e, s[1..])
  }

  /** `sorted(self.plugins_dir.iterdir())`: sibling paths compare by their names. */
  function SortByName<P>(s: seq<Entry<P>>): seq<Entry<P>> {
    if s == [] then [] else Insert(s[0], SortByName(s[1..]))
  }

  lemma {:induction false} InsertPermutes<P>(e: Entry<P>, s: seq<Entry<P>>)
    ensures multiset(Insert(e, s)) == multiset(s) + multiset{e}
  {
    if s != [] && !Below(e.name, s[0].name) {
      InsertPermutes(e, s[1..]);
      assert s == [s[0]] + s[1..];
    }
  }

  lemma InsertMembers<P>(e: Entry<P>, s: seq<Entry<P>>, x: Entry<P>)
    ensures x in Insert(e, s) <==> x == e || x in s
  {
    InsertPermutes(e, s);
    assert x in Insert(e, s) <==> x in multiset(Insert(e, s));
    assert x in s <==> x in multiset(s);
  }

  lemma ConsSorted<P>(h: Entry<P>, t: seq<Entry<P>>)
    requires SortedEntries(t)
    requires forall x :: x in t ==> Below(h.name, x.name)
    ensures SortedEntries([h] + t)
  {
    var r := [h] + t;
    forall i, j | 0 <= i < j < |r| ensures Below(r[i].name, r[j].name) {
      if i == 0 {
        assert r[j] == t[j - 1];
      } else {
        assert r[i] == t[i - 1] && r[j] == t[j - 1];
      }
    }
  }

  lemma {:induction false} InsertSorted<P>(e: Entry<P>, s: seq<Entry<P>>)
    requires SortedEntries(s)
    requires forall x :: x in s ==> x.name != e.name
    ensures SortedEntries(Insert(e, s))
  {
    if s == [] {
    } else if Below(e.name, s[0].name) {
      forall x | x in s ensures Below(e.name, x.name) {
        if x != s[0] {
          var k :| 0 <= k < |s| && s[k] == x;
          BelowTransitive(e.name, s[0].name, s[k].name);
        }
      }
      ConsSorted(e, s);
    } else {
      var t := Insert(e, s[1..]);
      assert SortedEntries(s[1..]);
      InsertSorted(e, s[1..]);
      BelowTotal(e.name, s[0].name);
      forall x | x in t ensures Below(s[0].name, x.name) {
        InsertMembers(e, s[1..], x);
        if x != e {
          var k :| 0 <= k < |s[1..]| && s[1..][k] == x;
          assert s[k + 1] == x;
        }
      }
      ConsSorted(s[0], t);
    }
  }

  lemma {:induction false} SortPermutes<P>(s: seq<Entry<P>>)
    ensures multiset(SortByName(s)) == multiset(s)
  {
    if s != [] {
      SortPermutes(s[1..]);
      InsertPermutes(s[0], SortByName(s[1..]));
      assert s == [s[0]] + s[1..];
    }
  }

  /** Sorting a listing with distinct names gives strictly increasing names and
      the same entries. */
  lemma {:induction false} SortSorted<P>(s: seq<Entry<P>>)
    requires DistinctEntries(s)
    ensures SortedEntries(SortByName(s))
    ensures multiset(SortByName(s)) == multiset(s)
  {
    SortPermutes(s);
    if s != [] {
      var rest := s[1..];
      assert DistinctEntries(rest) by {
        forall i, j | 0 <= i < j < |rest| ensures rest[i].name != rest[j].name {
          assert rest[i] == s[i + 1] && rest[j] == s[j + 1];
        }
      }
      SortSorted(rest);
      forall x | x in SortByName(rest) ensures x.name != s[0].name {
        assert x in multiset(rest);
        var k :| 0 <= k < |rest| && rest[k] == x;
        assert s[k + 1] == x;
      }
      InsertSorted(s[0], SortByName(rest));
    }
  }

  /** In a sorted listing the first entry has the least name. */
  lemma SortedHeadLeast<P>(s: seq<Entry<P>>, x: Entry<P>)
    requires SortedEntries(s) && x in s && x != s[0]
    ensures Below(s[0].name, x.name)
  {
    var k :| 0 <= k < |s| && s[k] == x;
  }

  lemma SortedTail<P>(s: seq<Entry<P>>)
    requires SortedEntries(s) && s != []
    ensures SortedEntries(s[1..])
  {
    forall i, j | 0 <= i < j < |s[1..]| ensures Below(s[1..][i].name, s[1..][j].name) {
      assert s[1..][i] == s[i + 1] && s[1..][j] == s[j + 1];
    }
  }

  /** A listing sorted by name is determined by its entries: whatever order
      `iterdir()` yields them in, sorting gives the same sequence. */
  lemma {:induction false} SortedPermutationUnique<P>(a: seq<Entry<P>>, b: seq<Entry<P>>)
    requires SortedEntries(a) && SortedEntries(b) && multiset(a) == multiset(b)
    ensures a == b
    decreases |a|
  {
    if a != [] {
      assert a[0] in multiset(b);
      assert b[0] in multiset(a);
      if a[0] != b[0] {
        SortedHeadLeast(b, a[0]);
        SortedHeadLeast(a, b[0]);
        BelowAsymmetric(b[0].name, a[0].name);
        assert false;
      }
      assert a == [a[0]] + a[1..] && b == [b[0]] + b[1..];
      assert multiset(a[1..]) == multiset(b[1..]) by {
        assert multiset(a) == multiset{a[0]} + multiset(a[1..]);
        assert multiset(b) == multiset{b[0]} + multiset(b[1..]);
        forall x ensures multiset(a[1..])[x] == multiset(b[1..])[x] {
          assert multiset(a)[x] == multiset{a[0]}[x] + multiset(a[1..])[x];
          assert multiset(b)[x] == multiset{b[0]}[x] + multiset(b[1..])[x];
        }
      }
      SortedTail(a);
      SortedTail(b);
      SortedPermutationUnique(a[1..], b[1..]);
    }
  }

  // ---------------------------------------------------------------------------
  // The catalog

  /** The record an entry contributes to the catalog (none unless it loaded). */
  function RecordsFor<P>(m: Manager, e: Entry<P>): seq<Record<P>> {
    if e.outcome.IsCandidate() && LoadMetadata(m, e.name, e.outcome).Some? then
      [LoadMetadata(m, e.name, e.outcome).value]
    else []
  }

  /** The records discovery appends while walking `es` in order. */
  function CatalogOf<P>(m: Manager, es: seq<Entry<P>>): seq<Record<P>> {
    if es == [] then [] else CatalogOf(m, es[..|es| - 1]) + RecordsFor(m, es[|es| - 1])
  }

  /** Discovery is compositional: the catalog of two runs of entries is the
      concatenation of their catalogs. */
  lemma {:induction false} CatalogAppend<P>(m: Manager, a: seq<Entry<P>>, b: seq<Entry<P>>)
    ensures CatalogOf(m, a + b) == CatalogOf(m, a) + CatalogOf(m, b)
    decreases |b|
  {
    if b == [] {
      assert a + b == a;
    } else {
      var b' := b[..|b| - 1];
      assert (a + b)[..|a + b| - 1] == a + b';
      CatalogAppend(m, a, b');
    }
  }

  /** Each entry contributes its own records, in place, whatever its neighbours do. */
  lemma CatalogSplit<P>(m: Manager, es: seq<Entry<P>>, i: int)
    requires 0 <= i < |es|
    ensures CatalogOf(m, es) == CatalogOf(m, es[..i]) + RecordsFor(m, es[i]) + CatalogOf(m, es[i + 1..])
  {
    var front := es[..i] + [es[i]];
    assert es == front + es[i + 1..];
    CatalogAppend(m, front, es[i + 1..]);
    assert front[..|front| - 1] == es[..i];
  }

  /** Isolation: turning any one entry into a failure (or a non-plugin) removes
      exactly that entry's record; every other entry contributes what it did before. */
  lemma Isolation<P>(m: Manager, es: seq<Entry<P>>, i: int, failed: LoadOutcome<P>)
    requires 0 <= i < |es| && !failed.Loaded?
    ensures CatalogOf(m, es[i := Entry(es[i].name, failed)]) == CatalogOf(m, es[..i]) + CatalogOf(m, es[i + 1..])
    ensures CatalogOf(m, es) == CatalogOf(m, es[..i]) + RecordsFor(m, es[i]) + CatalogOf(m, es[i + 1..])
  {
    var es' := es[i := Entry(es[i].name, failed)];
    CatalogSplit(m, es, i);
    CatalogSplit(m, es', i);
    assert es'[..i] == es[..i];
    assert es'[i + 1..] == es[i + 1..];
    assert RecordsFor(m, es'[i]) == [];
    assert CatalogOf(m, es[..i]) + [] == CatalogOf(m, es[..i]);
  }

  /** There is a record named `name` exactly when an entry of that name loaded. */
  lemma {:induction false} CatalogMembership<P>(m: Manager, es: seq<Entry<P>>, name: string)
    ensures (exists r :: r in CatalogOf(m, es) && r.name == name)
        <==> (exists e :: e in es && e.name == name && e.outcome.Loaded?)
  {
    if exists r :: r in CatalogOf(m, es) && r.name == name {
      var r :| r in CatalogOf(m, es) && r.name == name;
      var e := ListedIsLoaded(m, es, r);
    }
    if exists e :: e in es && e.name == name && e.outcome.Loaded? {
      var e :| e in es && e.name == name && e.outcome.Loaded?;
      LoadedIsListed(m, es, e);
    }
  }

  /** Every loaded entry leaves its record in the catalog. */
  lemma {:induction false} LoadedIsListed<P>(m: Manager, es: seq<Entry<P>>, e: Entry<P>)
    requires e in es && e.outcome.Loaded?
    ensures |RecordsFor(m, e)| == 1 && RecordsFor(m, e)[0].name == e.name
    ensures RecordsFor(m, e)[0] in CatalogOf(m, es)
    decreases |es|
  {
    var init := es[..|es| - 1];
    var last := es[|es| - 1];
    assert es == init + [last];
    if e != last {
      assert e in init;
      LoadedIsListed(m, init, e);
    }
  }

  /** Every record of the catalog comes from a loaded entry of the same name. */
  lemma {:induction false} ListedIsLoaded<P>(m: Manager, es: seq<Entry<P>>, r: Record<P>) returns (e: Entry<P>)
    requires r in CatalogOf(m, es)
    ensures e in es && e.name == r.name && e.outcome.Loaded?
    decreases |es|
  {
    var init := es[..|es| - 1];
    var last := es[|es| - 1];
    assert es == init + [last];
    if r in CatalogOf(m, init) {
      e := ListedIsLoaded(m, init, r);
      assert e in init;
    } else {
      assert r in RecordsFor(m, last);
      e := last;
    }
  }


  /** The record `_load_metadata` builds for a loaded entry. */
  function RecordOf<P>(m: Manager, e: Entry<P>): Record<P>
    requires e.outcome.Loaded?
  {
    Record(e.name, m.pluginsDir + "/" + e.name, e.outcome.attrs.version, e.outcome.attrs.description, Some(e.outcome.plugin))
  }

  /** Every record is the one `_load_metadata` built from a loaded entry of the
      same name: named after the directory, located at it, with the instance's
      version and description and a live instance. */
  lemma {:induction false} CatalogRecords<P>(m: Manager, es: seq<Entry<P>>, r: Record<P>)
    requires r in CatalogOf(m, es)
    ensures exists k :: 0 <= k < |es| && es[k].outcome.Loaded? && r == RecordOf(m, es[k])
    decreases |es|
  {
    var init := es[..|es| - 1];
    if r in CatalogOf(m, init) {
      CatalogRecords(m, init, r);
      var k :| 0 <= k < |init| && init[k].outcome.Loaded? && r == RecordOf(m, init[k]);
      assert es[k] == init[k];
    } else {
      assert r in RecordsFor(m, es[|es| - 1]);
    }
  }

  /** The catalog preserves the order of the entries, so sorted entries give
      strictly increasing record names. */
  lemma {:induction false} CatalogSorted<P>(m: Manager, es: seq<Entry<P>>)
    requires SortedEntries(es)
    ensures SortedRecords(CatalogOf(m, es))
    decreases |es|
  {
    if es != [] {
      var init := es[..|es| - 1];
      var last := es[|es| - 1];
      assert SortedEntries(init) by {
        forall i, j | 0 <= i < j < |init| ensures Below(init[i].name, init[j].name) {
          assert init[i] == es[i] && init[j] == es[j];
        }
      }
      CatalogSorted(m, init);
      var c := CatalogOf(m, init);
      var all: seq<Record<P>> := c + RecordsFor(m, last);
      forall i, j | 0 <= i < j < |all| ensures Below(all[i].name, all[j].name) {
        if j >= |c| {
          assert all[i] == c[i];
          CatalogRecords(m, init, c[i]);
          var k :| 0 <= k < |init| && init[k].outcome.Loaded? && c[i] == RecordOf(m, init[k]);
          assert init[k] == es[k];
        }
      }
    }
  }

  /** `discover_plugins()`: a missing plugin root gives an empty catalog;
      otherwise the entries are walked in sorted order, entries that are not
      directories or lack `plugin.py` are skipped, and every entry that loads
      contributes its record. */
  method DiscoverPlugins<P>(m: Manager, dir: PluginsDir<P>) returns (records: seq<Record<P>>)
    requires dir.Listing? ==> DistinctEntries(dir.entries)
    ensures dir.Missing? ==> records == []
    ensures dir.Listing? ==> records == CatalogOf(m, SortByName(dir.entries))
    ensures SortedRecords(records)
  {
    records := [];
    if dir.Missing? {
      return;
    }
    var sorted := SortByName(dir.entries);
    for i := 0 to |sorted|
      invariant records == CatalogOf(m, sorted[..i])
    {
      var entry := sorted[i];
      assert sorted[..i + 1][..i] == sorted[..i];
      if entry.outcome.NotDir? {
        continue;
      }
      if entry.outcome.NoEntry? {
        continue;
      }
      var record := LoadMetadata(m, entry.name, entry.outcome);
      if record.Some? {
        records := records + [record.value];
      }
    }
    assert sorted[..|sorted|] == sorted;
    SortSorted(dir.entries);
    CatalogSorted(m, sorted);
  }

  // ---------------------------------------------------------------------------
  // Registration

  datatype Hook = OnLoadHook | RegisterHook

  /** One hook call made by `register_plugins`, with how it ended. */
  datatype Event = Event(hook: Hook, plugin: string, outcome: Outcome)

  /** The context handed to every `on_load`. */
  function ContextOf(m: Manager): LoadContext {
    LoadContext(m.projectRoot, m.config)
  }

  /** The two guarded calls made for one enabled, live plugin. */
  function CallsFor<P>(m: Manager, hooks: Hooks<P>, name: string, p: P): seq<Event> {
    [Event(OnLoadHook, name, hooks.onLoad(p, ContextOf(m))), Event(RegisterHook, name, hooks.register(p))]
  }

  /** The calls `register_plugins` makes over `rs`, and the exception that
      escaped it (only `is_enabled` can raise outside the guards). */
  function RegistrationOf<P>(m: Manager, hooks: Hooks<P>, rs: seq<Record<P>>): (seq<Event>, Option<Exception>) {
    if rs == [] then ([], None)
    else
      var (trace, failure) := RegistrationOf(m, hooks, rs[..|rs| - 1]);
      var rec := rs[|rs| - 1];
      if failure.Some? then (trace, failure)
      else match IsEnabled(m, rec.name)
        case Failure(e) => (trace, Some(e))
        case Success(enabled) =>
          if !enabled || rec.instance.None? then (trace, None)
          else (trace + CallsFor(m, hooks, rec.name, rec.instance.value), None)
  }

  /** `register_plugins(app, records)`: for each record in order, skip it when
      disabled or without an instance, else call `on_load` and then `register`,
      each guarded so that whatever it raises is swallowed. */
  method RegisterPlugins<P>(m: Manager, hooks: Hooks<P>, records: seq<Record<P>>)
    returns (trace: seq<Event>, failure: Option<Exception>)
    ensures (trace, failure) == RegistrationOf(m, hooks, records)
  {
    trace, failure := [], None;
    var ctx := ContextOf(m);
    for i := 0 to |records|
      invariant (trace, failure) == RegistrationOf(m, hooks, records[..i])
      invariant failure.None?
    {
      var rec := records[i];
      assert records[..i + 1][..i] == records[..i];
      var enabled := IsEnabled(m, rec.name);
      if enabled.Failure? {
        failure := Some(enabled.error);
        RegistrationStops(m, hooks, records, i + 1);
        return;
      }
      if !enabled.value {
        continue;
      }
      if rec.instance.None? {
        continue;
      }
      var plugin := rec.instance.value;
      ghost var before := trace;
      var loaded := hooks.onLoad(plugin, ctx);
      trace := trace + [Event(OnLoadHook, rec.name, loaded)];
      var registered := hooks.register(plugin);
      trace := trace + [Event(RegisterHook, rec.name, registered)];
      assert trace == before + CallsFor(m, hooks, rec.name, plugin);
    }
    assert records[..|records|] == records;
  }

  /** Once `is_enabled` has raised, registration is over: later records add nothing. */
  lemma {:induction false} RegistrationStops<P>(m: Manager, hooks: Hooks<P>, rs: seq<Record<P>>, k: nat)
    requires k <= |rs| && RegistrationOf(m, hooks, rs[..k]).1.Some?
    ensures RegistrationOf(m, hooks, rs) == RegistrationOf(m, hooks, rs[..k])
    decreases |rs| - k
  {
    if k < |rs| {
      assert rs[..|rs| - 1][..k] == rs[..k];
      RegistrationStops(m, hooks, rs[..|rs| - 1], k);
    } else {
      assert rs[..k] == rs;
    }
  }

  /** The records `register_plugins` calls hooks on: enabled and live. */
  function Eligible<P>(m: Manager, rs: seq<Record<P>>): (e: seq<Record<P>>)
    ensures forall i :: 0 <= i < |e| ==> e[i].instance.Some?
  {
    if rs == [] then []
    else
      var rec := rs[|rs| - 1];
      Eligible(m, rs[..|rs| - 1]) + if IsEnabled(m, rec.name) == Success(true) && rec.instance.Some? then [rec] else []
  }

  /** A record is eligible exactly when it is in the catalog, enabled and live. */
  lemma {:induction false} EligibleMembers<P>(m: Manager, rs: seq<Record<P>>, r: Record<P>)
    ensures r in Eligible(m, rs) <==> r in rs && IsEnabled(m, r.name) == Success(true) && r.instance.Some?
    decreases |rs|
  {
    if rs != [] {
      EligibleMembers(m, rs[..|rs| - 1], r);
      assert rs == rs[..|rs| - 1] + [rs[|rs| - 1]];
    }
  }

  /** The calls made on a run of eligible records. */
  function CallsForAll<P>(m: Manager, hooks: Hooks<P>, rs: seq<Record<P>>): seq<Event>
    requires forall i :: 0 <= i < |rs| ==> rs[i].instance.Some?
  {
    if rs == [] then []
    else CallsForAll(m, hooks, rs[..|rs| - 1]) + CallsFor(m, hooks, rs[|rs| - 1].name, rs[|rs| - 1].instance.value)
  }

  lemma {:induction false} CallsForAllShape<P>(m: Manager, hooks: Hooks<P>, rs: seq<Record<P>>)
    requires forall i :: 0 <= i < |rs| ==> rs[i].instance.Some?
    ensures |CallsForAll(m, hooks, rs)| == 2 * |rs|
    ensures forall k :: 0 <= k < |rs| ==>
      CallsForAll(m, hooks, rs)[2 * k] == Event(OnLoadHook, rs[k].name, hooks.onLoad(rs[k].instance.value, ContextOf(m)))
      && CallsForAll(m, hooks, rs)[2 * k + 1] == Event(RegisterHook, rs[k].name, hooks.register(rs[k].instance.value))
    decreases |rs|
  {
    if rs != [] {
      var init := rs[..|rs| - 1];
      CallsForAllShape(m, hooks, init);
      forall k | 0 <= k < |init| ensures init[k] == rs[k] { }
    }
  }

  /** Under a well-formed configuration registration never aborts and its calls
      are exactly `on_load` then `register` for each eligible record, in catalog order. */
  lemma {:induction false} RegistrationCalls<P>(m: Manager, hooks: Hooks<P>, rs: seq<Record<P>>)
    requires WellFormed(m)
    ensures RegistrationOf(m, hooks, rs) == (CallsForAll(m, hooks, Eligible(m, rs)), None)
    decreases |rs|
  {
    if rs != [] {
      var init := rs[..|rs| - 1];
      RegistrationCalls(m, hooks, init);
      var e := Eligible(m, init);
      var rec := rs[|rs| - 1];
      if IsEnabled(m, rec.name) == Success(true) && rec.instance.Some? {
        assert Eligible(m, rs) == e + [rec];
        assert (e + [rec])[..|e + [rec]| - 1] == e;
      } else {
        assert Eligible(m, rs) == e;
      }
    }
  }

  /** `register_plugins` visits records in catalog order and skips disabled and
      instance-less ones; for every other record it calls `on_load` and then
      `register`, and `register` is called whatever `on_load` did. No hook
      failure stops it: the k-th eligible record's calls are at positions 2k
      and 2k+1 whatever happened before. */
  lemma RegistrationOrder<P>(m: Manager, hooks: Hooks<P>, rs: seq<Record<P>>)
    requires WellFormed(m)
    ensures var (trace, failure) := RegistrationOf(m, hooks, rs);
      var e := Eligible(m, rs);
      && failure.None?
      && |trace| == 2 * |e|
      && forall k :: 0 <= k < |e| ==>
        && trace[2 * k] == Event(OnLoadHook, e[k].name, hooks.onLoad(e[k].instance.value, ContextOf(m)))
        && trace[2 * k + 1] == Event(RegisterHook, e[k].name, hooks.register(e[k].instance.value))
  {
    RegistrationCalls(m, hooks, rs);
    CallsForAllShape(m, hooks, Eligible(m, rs));
  }
}
