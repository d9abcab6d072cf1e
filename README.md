# Werkstatt plugin registry and dispatch, modelled in Dafny

Werkstatt is a small plugin host. A Python backend finds plugin directories under
`werkstatt_plugins/`, loads each one's `plugin.py` into a `ToolPlugin`, and builds an
ordered catalog of `PluginRecord`s. It registers the enabled plugins at start-up and
serves `GET /plugins`, `POST /run/{plugin}/{command}` and a file upload/download pair
over HTTP. A CLI lists plugins and scaffolds new ones. A web client (`api.ts`) calls
that API or, in demo mode, an in-memory mock of it.

This project models that core and proves its properties:

- `Contract` (`core/plugin.py`): the capability contract's defaults.
  - A plugin class becomes an attribute record.
  - Its hooks (`on_load`, `register`, `describe`, `execute`) are functions the model takes as parameters.
- `Registry` (`core/manager.py`): the manager and the operations on it.
  - Covers the default-allow `is_enabled` policy and the manager's config default.
  - Discovery is a `method` looping over the name-sorted directory entries. Each entry comes with the outcome that importing it would have (`LoadOutcome`).
  - Registration is a `method` producing the trace of `on_load`/`register` calls, guarded one by one.
- `Api` (`api.py`): the HTTP handlers without FastAPI.
  - Covers the Pydantic default filling and `list_plugins` (a `method` with the source's nested loops).
  - `run_command` sorts every request into exactly one reply class, each with its status.
  - Upload and download file names are reduced to the last path component.
- `Cli` (`cli.py`): the `list-plugins` rows.
  - Covers the name normalisation and checks of `plugins create`.
  - Covers its append-only, idempotent `werkstatt.toml` edit, and the scaffold template's `execute`.
- `ExampleTool`, `KdpFormat`: the two shipped plugins' `execute` and `describe`.
  - `json.loads` is a partial-function parameter.
- `Builtins`: the catalog of the two modelled plugins, `example_tool` and `kdpformat`, and end-to-end facts about dispatching to it.
  - The repository's plugin root also holds `businessform` and `extraction`. Their loading is an arbitrary outcome, and dispatch to the two modelled plugins is proved unaffected by it.
- `Uri`, `WebApi`, `WebBackend` (`web/src/services/api.ts`): the client and its mock.
  - The mock is a `class MockService` whose `files` map and object-URL store its methods update.
  - Covered: the real client's URL building with `encodeURIComponent` (defined over UTF-8 and proved injective), its error-message and filename fallbacks, and the `USE_MOCK` parse.
  - `WebBackend` joins client and server through a JSON encoding proved to round-trip. It proves the differences in behaviour between the mock and the real backend.
- `Py`, `Text`, `Wrappers`: helpers.
  - `Py` holds Python values, truthiness, `str()`/`repr`, exceptions and hooks.
  - `Text` holds string functions: ASCII case mapping and Python's white-space set.
  - `Wrappers` holds `Option`/`Result`.

Source lines are cited per file.

Where the code and its documentation differ, the model follows the code:

- `execute` is documented to raise `KeyError` for an unknown command. The default `execute` raises `NotImplementedError`, which the server reports as 500 rather than 404.
- The mock answers to plugin `example`, its class attribute. The backend's catalog names the plugin after its directory, `example_tool`.
- For `{"name": null}` the mock greets "Welt". The backend greets "None".

## Model

| member | source | states |
|---|---|---|
| Contract.DefaultOnLoad | src/werkstatt/core/plugin.py:17-19 | the default `on_load` returns normally and does nothing |
| Contract.DefaultDescribe | src/werkstatt/core/plugin.py:27-37 | the default `describe` returns the empty list |
| Contract.DefaultExecute | src/werkstatt/core/plugin.py:39-44 | the default `execute` fails with `NotImplementedError` and its fixed message for every command, never with `KeyError` |
| Contract.Instantiate | src/werkstatt/core/plugin.py:14-15 | a class can be instantiated exactly when it implements the abstract `register`, otherwise `TypeError`; the defaults are version "0.1.0" and description ""; an overriding class's own version and description are what the instance carries |
| Contract.VersionPresentUnlessOverridden | src/werkstatt/core/plugin.py:14-24 | a concrete plugin that does not override `version` has a version |
| Registry.IsEnabled | src/werkstatt/core/manager.py:27-31 | no `plugins` key enables everything; with a table, a listed name's value decides by truthiness and an unlisted name is enabled; a `plugins` value that is not a table raises `TypeError` exactly when Python's `in` or `[]` would |
| Registry.EmptyConfigEnablesAll | src/werkstatt/core/manager.py:24 | an empty configuration becomes `{"plugins": {}}`, which is well formed and enables every name |
| Registry.FactoryOutcome | src/werkstatt/core/manager.py:62-67 | `get_plugin()` yields a live plugin exactly when its class implements `register`, otherwise the factory fails |
| Registry.LoadMetadata | src/werkstatt/core/manager.py:49-74 | a record exists exactly for a loaded entry; it is named and located after the directory and carries the instance's version, description and the instance |
| Registry.SortedRecordsUnique | src/werkstatt/core/manager.py:37 | in a name-sorted catalog no two records share a name |
| Registry.InsertPermutes | src/werkstatt/core/manager.py:37 | inserting an entry adds exactly that entry to the multiset |
| Registry.InsertSorted | src/werkstatt/core/manager.py:37 | inserting an entry whose name is new keeps the sequence sorted by name |
| Registry.SortPermutes | src/werkstatt/core/manager.py:37 | `sorted(iterdir())` is a permutation of the entries |
| Registry.SortSorted | src/werkstatt/core/manager.py:37 | distinct entries come out strictly increasing by name, and as a permutation |
| Registry.CatalogAppend | src/werkstatt/core/manager.py:44-46 | the catalog of a concatenation is the concatenation of the catalogs |
| Registry.CatalogSplit | src/werkstatt/core/manager.py:44-46 | the catalog is the records before an entry, that entry's record (if any), and the records after it |
| Registry.Isolation | src/werkstatt/core/manager.py:51-67 | making one entry's load fail removes only that entry's record; every other record is unchanged |
| Registry.CatalogMembership | src/werkstatt/core/manager.py:43-46 | a name is in the catalog iff some entry of that name loaded |
| Registry.LoadedIsListed | src/werkstatt/core/manager.py:68-74 | a loaded entry contributes exactly one record, named after it, and that record is in the catalog |
| Registry.ListedIsLoaded | src/werkstatt/core/manager.py:43-46 | every catalog record comes from a loaded entry of the same name |
| Registry.CatalogRecords | src/werkstatt/core/manager.py:68-74 | every catalog record is the record built from some loaded entry |
| Registry.SortedPermutationUnique | src/werkstatt/core/manager.py:37 | two name-sorted listings of the same entries are equal, so the catalog does not depend on `iterdir()`'s order |
| Registry.CatalogSorted | src/werkstatt/core/manager.py:37-46 | the catalog of name-sorted entries is sorted by name |
| Registry.DiscoverPlugins | src/werkstatt/core/manager.py:33-47 | a missing plugin root gives no records; otherwise the loop yields the catalog of the name-sorted entries, which is sorted by name |
| Registry.RegisterPlugins | src/werkstatt/core/manager.py:76-93 | the loop's event trace and failure are those of the registration function |
| Registry.RegistrationStops | src/werkstatt/core/manager.py:78-79 | a failing enable check ends registration; later records are not visited |
| Registry.Eligible | src/werkstatt/core/manager.py:78-83 | the records registration acts on all have a live instance |
| Registry.EligibleMembers | src/werkstatt/core/manager.py:78-83 | a record is acted on iff it is in the catalog, enabled and has an instance |
| Registry.CallsForAllShape | src/werkstatt/core/manager.py:84-93 | each eligible record contributes `on_load` followed by `register`, in order, whatever either call's outcome |
| Registry.RegistrationCalls | src/werkstatt/core/manager.py:76-93 | under a well-formed configuration registration never fails and makes exactly the calls for the eligible records |
| Registry.RegistrationOrder | src/werkstatt/core/manager.py:76-93 | the trace is `on_load`, `register` for each eligible record in catalog order, with twice as many events as eligible records; a failing hook does not stop later calls |
| Api.StrField | src/werkstatt/api.py:16-35 | a strict `str` field: missing takes the default or fails, present is accepted iff it is a string |
| Api.LaxBool | src/werkstatt/api.py:19 | Pydantic's lax `bool`: booleans, 0/1 and the listed true/false words, case-insensitively |
| Api.BoolField | src/werkstatt/api.py:19 | a missing `required` is `False`; a present one is accepted iff it converts |
| Api.ParseParam | src/werkstatt/api.py:16-21 | a `CommandParam` is accepted iff every field validates; missing fields take "string", `False`, "" and `None` |
| Api.ParseParams | src/werkstatt/api.py:27 | a params list is accepted iff every item is, element for element |
| Api.ParseCommand | src/werkstatt/api.py:24-27 | `CommandDesc(**cmd)` is accepted iff name, description and params validate; missing description and params are "" and `[]` |
| Api.ValidationDefaults | src/werkstatt/api.py:16-27 | a name alone validates to the all-defaults param and command |
| Api.DescribedItems | src/werkstatt/api.py:71 | `desc or []`: a list is iterated, a falsy value is empty, a truthy non-iterable raises `TypeError` |
| Api.CollectAllValid | src/werkstatt/api.py:71-75 | when every dict item validates, collection keeps all of them in order and does not fail |
| Api.CollectStops | src/werkstatt/api.py:71-77 | once an item fails validation, later items are not collected |
| Api.CollectUpToFailure | src/werkstatt/api.py:68-77 | the commands kept are exactly the validated ones before the first failing dict |
| Api.CollectCommands | src/werkstatt/api.py:71-75 | the loop builds the collected command list |
| Api.CommandsFor | src/werkstatt/api.py:66-77 | disabled, instance-less or describe-less plugins, and a failing `describe`, give no commands |
| Api.ListingStops | src/werkstatt/api.py:63-64 | a failing enable check aborts the whole listing |
| Api.ListPlugins | src/werkstatt/api.py:60-87 | the nested loops build the descriptor listing |
| Api.ListingShape | src/werkstatt/api.py:63-86 | under a well-formed configuration there is one descriptor per record, in order, with the record's name and version, description or "", enabled flag and commands |
| Api.ListingFailure | src/werkstatt/api.py:63-64 | listing fails iff some record's enable check raises |
| Api.Status | src/werkstatt/api.py:97-107 | every reply has one status from {200, 400, 404, 422, 500}; 200 iff ok, 404 iff plugin or command not found, 500 iff execution or handler failure |
| Api.ResponseBody | src/werkstatt/api.py:97-107 | an ok reply's body is `{"ok": true, "output": …}`; a command error carries `detail`; only an unhandled error has no JSON body |
| Api.FirstNamed | src/werkstatt/api.py:95 | the index of the first record with the name, or the length when none has it |
| Api.FindRecord | src/werkstatt/api.py:95 | `next(...)` finds nothing iff no record has the name, else the first such record |
| Api.FindInSorted | src/werkstatt/api.py:95 | in a sorted catalog the lookup of a record's name finds that record |
| Api.ReplyOf | src/werkstatt/api.py:101-107 | success is ok with the output; `KeyError` is command-not-found and any other exception is an execution failure, each with `str(e)` |
| Api.DispatchByLookup | src/werkstatt/api.py:95-107 | two catalogs in which the requested name is found alike give the same reply |
| Api.RunCommand | src/werkstatt/api.py:93-107 | an unknown plugin is not found; the handler raises only when the enable check does; the body is already valid here |
| Api.NotFoundBeforeExecution | src/werkstatt/api.py:95-97 | not found iff absent, disabled or instance-less; such replies, and 400 and handler errors, do not depend on `execute` |
| Api.DisabledLooksAbsent | src/werkstatt/api.py:96-97 | a disabled plugin answers exactly as an empty catalog does |
| Api.RunFound | src/werkstatt/api.py:98-107 | an enabled, live plugin with `execute` answers with the classified result of its `execute` |
| Api.DefaultExecuteIsServerError | src/werkstatt/api.py:106-107 | a plugin keeping the default `execute` gets 500, not 404 |
| Api.ParseRunRequest | src/werkstatt/api.py:89-90 | a missing `args` is `{}`; a non-object body or non-object `args` is a validation error |
| Api.RunEndpoint | src/werkstatt/api.py:89-93 | an invalid body is 422 before dispatch; a valid one is dispatched with its `args` |
| Api.Components | src/werkstatt/api.py:116 | path components are non-empty, not ".", and free of "/" |
| Api.SlashIndex | src/werkstatt/api.py:116 | the first "/" or the end of the string |
| Api.Basename | src/werkstatt/api.py:116 | `Path(x).name` contains no "/" and is never "." |
| Api.BasenameIdempotent | src/werkstatt/api.py:116-131 | taking the name twice changes nothing |
| Api.BasenameOfPlain | src/werkstatt/api.py:116-131 | a name without "/" other than "." is kept as it is |
| Api.Upload | src/werkstatt/api.py:113-127 | the write fails iff the name reduces to "" or ".."; otherwise the stored name is the basename and the path is under `data/uploads/` |
| Api.Download | src/werkstatt/api.py:129-135 | a file is served iff the basename of the request is stored, under that basename |
| Api.DownloadAfterUpload | src/werkstatt/api.py:113-135 | after an upload, any request with the same basename finds the file |
| Cli.RowOf | src/werkstatt/cli.py:41-44 | a row carries the name, "yes"/"no" from `is_enabled`, "?" for a falsy version and "" for a missing description; it fails iff the enable check raises |
| Cli.RowsStop | src/werkstatt/cli.py:40-44 | a failing row ends the listing |
| Cli.ListPluginRows | src/werkstatt/cli.py:32-45 | the loop builds the table of rows |
| Cli.RowsShape | src/werkstatt/cli.py:40-44 | under a well-formed configuration there is one row per record, in order |
| Cli.NormalizeName | src/werkstatt/cli.py:53 | the normalised name is no longer than the input, has no surrounding white space and no upper-case letter |
| Cli.NormalizeIdempotent | src/werkstatt/cli.py:53 | normalising twice is normalising once |
| Cli.HeaderPresent | src/werkstatt/cli.py:116-117 | after the header step `[plugins]` is present and the old text is a prefix |
| Cli.EnableInToml | src/werkstatt/cli.py:113-120 | the step-by-step rebinding of `content` computes the edited text |
| Cli.EditEnables | src/werkstatt/cli.py:116-119 | the edited text has a `[plugins]` header and the `pkg = true` line |
| Cli.EditIdempotent | src/werkstatt/cli.py:116-119 | editing twice gives the text of editing once |
| Cli.EditAppends | src/werkstatt/cli.py:116-119 | the right-trimmed input is a prefix of the output |
| Cli.ExitCode | src/werkstatt/cli.py:53-61 | exit 0 iff created, 2 iff the name is invalid |
| Cli.Precheck | src/werkstatt/cli.py:53-61 | a non-identifier exits 2 and an existing directory exits 1, both before anything is written |
| Cli.Scaffold | src/werkstatt/cli.py:62-121 | a failing check changes nothing; otherwise the skeleton is added under the normalised name and an existing `werkstatt.toml` gets the edit |
| Cli.ScaffoldAsWrittenStrands | src/werkstatt/cli.py:66-109 | as written, the template raises after the directory and `__init__.py` exist: exit 1, no `plugin.py`, the TOML untouched, and a retry reports the plugin as existing |
| Cli.ScaffoldEnables | src/werkstatt/cli.py:62-121 | with the template braces escaped, creation succeeds, writes `plugin.py`, enables the plugin, and a second run reports it as existing |
| Cli.TemplateExecute | src/werkstatt/cli.py:101-104 | only `hello` is accepted, others raise `KeyError(command)`; a falsy name greets "World" |
| ExampleTool.Execute | werkstatt_plugins/example_tool/plugin.py:49-57 | `greet` greets `str(name)` defaulting to "Welt"; `echo` needs `msg` (else `ValueError`) and returns `str(msg)`; any other command raises `KeyError` |
| ExampleTool.GreetNames | werkstatt_plugins/example_tool/plugin.py:50-52 | a string name is greeted as it is; a `None` name is greeted as "None" |
| ExampleTool.EchoRoundTrip | werkstatt_plugins/example_tool/plugin.py:56 | `echo` returns a string message unchanged |
| KdpFormat.Execute | werkstatt_plugins/kdpformat/plugin.py:43-55 | `extract` wraps the parsed string, `{"raw": s}` when parsing fails, `{}` for missing or `None` data, and any other value unchanged; other commands raise `KeyError` |
| KdpFormat.RequiredDataMayBeMissing | werkstatt_plugins/kdpformat/plugin.py:38-54 | `describe` marks `data` as required, yet `extract` without it succeeds with `{"kdp": {}}` |
| KdpFormat.NullTextIsEmpty | werkstatt_plugins/kdpformat/plugin.py:49-53 | a string that parses to `null` gives the same result as no data |
| Builtins.SortTwo | src/werkstatt/core/manager.py:37 | two entries out of order are swapped by the sort |
| Builtins.CatalogTwo | src/werkstatt/core/manager.py:43-46 | a two-entry catalog is the two entries' records in order |
| Builtins.ShippedCatalogShape | src/werkstatt/core/manager.py:37-46 | the catalog of the two modelled plugins is `example_tool` then `kdpformat`, each with version "0.1.0", its description and instance |
| Builtins.ShippedSorted | src/werkstatt/core/manager.py:37-46 | the catalog of the two modelled plugins is sorted by name |
| Builtins.RepositorySorted | src/werkstatt/core/manager.py:37 | the four plugin directories in name order are `businessform`, `example_tool`, `extraction`, `kdpformat` |
| Builtins.RepositoryCatalog | src/werkstatt/core/manager.py:33-47 | in whatever order the four directories are listed, the catalog is the `businessform` records, `example_tool`, the `extraction` records, then `kdpformat` |
| Builtins.RepositoryLookup | src/werkstatt/api.py:95 | in the four-directory catalog, `example_tool` and `kdpformat` are found as in the two-plugin catalog |
| Builtins.RepositoryDispatch | src/werkstatt/api.py:93-107 | dispatch to `example_tool` or `kdpformat` answers the same whatever `businessform` and `extraction` load to |
| Builtins.ExampleRuns | src/werkstatt/api.py:93-107 | when enabled, dispatch to `example_tool` is the classified result of its `execute` |
| Builtins.ExampleUnknownUnderClassName | werkstatt_plugins/example_tool/plugin.py:8 | the class attribute name `example` is not a catalog key |
| Builtins.ExampleKeyIsDirectory | src/werkstatt/core/manager.py:43 | `example` is not found, `example_tool` greets "Hallo, Welt!", an unknown command is 404 with `'nope'`, `echo` without `msg` is 500 |
| Builtins.ExampleGreets | werkstatt_plugins/example_tool/plugin.py:51 | `greet` without arguments answers "Hallo, Welt!" through the server |
| Builtins.ExampleUnknownCommand | werkstatt_plugins/example_tool/plugin.py:57 | dispatching an unknown command answers command-not-found with the `repr` of its name as detail |
| Builtins.ExampleEchoNeedsMsg | werkstatt_plugins/example_tool/plugin.py:54-55 | `echo` without `msg` is an execution failure carrying the plugin's message |
| Builtins.DisabledIsListed | src/werkstatt/api.py:63-86 | a plugin disabled in the configuration is still listed, as disabled and with no commands, but is not found at dispatch |
| Builtins.DisabledListedAt | src/werkstatt/api.py:63-97 | for any two-record catalog whose second record is disabled: not found at dispatch, listed as disabled with no commands, and the first listed as enabled |
| Builtins.FailedFactoryIsolated | src/werkstatt/core/manager.py:62-65 | a directory whose `get_plugin()` raises is dropped and the other plugin keeps its record |
| Builtins.GreetEntryParses | werkstatt_plugins/example_tool/plugin.py:33-39 | the `greet` entry validates with its declared param and default "Welt" |
| Builtins.EchoEntryParses | werkstatt_plugins/example_tool/plugin.py:40-46 | the `echo` entry validates with a required `msg` and a `None` default |
| Builtins.CollectValidDict | src/werkstatt/api.py:72-73 | appending a valid dict appends its command |
| Builtins.ExampleDescribeMatchesExecute | werkstatt_plugins/example_tool/plugin.py:31-57 | `describe` lists exactly `greet` and `echo`, exactly the commands `execute` accepts; the declared default equals `execute`'s default |
| Builtins.ExampleCollects | werkstatt_plugins/example_tool/plugin.py:31-47 | the server collects both declared commands without failure |
| Builtins.ScaffoldedRoundTrip | src/werkstatt/cli.py:101-104 | a scaffolded plugin, once loaded, greets "World" without or with an empty name, the given name otherwise, and 404s other commands |
| Uri.Utf8 | web/src/services/api.ts:89 | a code point encodes to 1-4 bytes, one byte exactly for ASCII |
| Uri.HexUpper | web/src/services/api.ts:89 | an upper-case hex digit whose value is the digit |
| Uri.HexValue | web/src/services/api.ts:89 | a hex digit's value is below 16 |
| Uri.EscapesChars | web/src/services/api.ts:89 | percent-escapes use only unreserved characters, "%" and hex digits |
| Uri.EncodedIsSegment | web/src/services/api.ts:89-119 | `encodeURIComponent` output has no "/", so it stays one path segment |
| Uri.EncodeUnreserved | web/src/services/api.ts:89 | unreserved text is left as it is |
| Uri.DecodeEscape | web/src/services/api.ts:89 | decoding reads one escape back as its byte |
| Uri.DecodeEscapes | web/src/services/api.ts:89 | decoding reads a run of escapes back as its bytes |
| Uri.DecodeEncodeChar | web/src/services/api.ts:89 | decoding one encoded character yields its UTF-8 bytes |
| Uri.DecodeEncode | web/src/services/api.ts:89-119 | percent-decoding the encoding yields the string's UTF-8 bytes |
| Uri.Utf8Decodes | web/src/services/api.ts:89 | the lead byte gives the sequence length, and the bytes give the code point back |
| Uri.Utf8Injective | web/src/services/api.ts:89 | different characters have different encodings |
| Uri.Utf8BytesInjective | web/src/services/api.ts:89 | different strings have different UTF-8 bytes |
| Uri.EncodeInjective | web/src/services/api.ts:89-119 | different strings encode differently |
| WebApi.Or | web/src/services/api.ts:24 | JavaScript `a \|\| b`: `a` when truthy, else `b` |
| WebApi.Coalesce | web/src/services/api.ts:58 | JavaScript `a ?? b`: `b` when `a` is null or undefined, else `a` |
| WebApi.IndexNamed | web/src/services/api.ts:60 | the first index whose decimal form is the key, or the length |
| WebApi.Prop | web/src/services/api.ts:58-61 | an own property's value when present; `undefined` on a primitive |
| WebApi.In | web/src/services/api.ts:60 | the `in` operator throws `TypeError` on a primitive and tests own keys or array indices otherwise |
| WebApi.ApiBase | web/src/services/api.ts:24 | the configured base when non-empty, else `http://localhost:8000`; never empty |
| WebApi.UseMock | web/src/services/api.ts:25 | demo mode is on iff the lower-cased setting is "1" or "true" |
| WebApi.UseMockWords | web/src/services/api.ts:25 | "1" or any casing of "true" turns demo mode on; an unset variable leaves it off |
| WebApi.BlobOf | web/src/services/api.ts:67 | the blob keeps the file's bytes and type, `application/octet-stream` when the type is empty |
| WebApi.StoredIffUploaded | web/src/services/api.ts:68-73 | a name is stored iff some upload had it |
| WebApi.LastUploadWins | web/src/services/api.ts:68 | a name holds the blob of its last upload |
| WebApi.MockService.constructor | web/src/services/api.ts:28-29 | the mock starts with no files, object URLs or uploads |
| WebApi.MockService.Resolve | web/src/services/api.ts:69-75 | an object URL resolves exactly when issued, to the blob it was issued for |
| WebApi.MockService.CreateObjectUrl | web/src/services/api.ts:69-75 | issues a fresh URL for the blob and changes nothing else |
| WebApi.MockService.UploadFile | web/src/services/api.ts:65-71 | stores the file's blob under its name, overwriting, and returns that name with a URL resolving to the blob; the map stays the replay of all uploads |
| WebApi.MockService.GetDownloadUrl | web/src/services/api.ts:72-76 | fails with "File not found" iff the name is not stored; otherwise returns a URL resolving to the stored blob; the files are unchanged |
| WebApi.GetMockPlugins | web/src/services/api.ts:30-55 | a fresh one-element list describing `example`, equal on every call |
| WebApi.MockRunCommand | web/src/services/api.ts:56-64 | plugins other than `example` are rejected; `greet` uses `name ?? 'Welt'`; `echo` needs a `msg` key and returns `String(msg)`; other commands are rejected |
| WebApi.MockGreetNames | web/src/services/api.ts:58 | a missing or null name or missing args greet "Welt"; a string name is greeted as it is |
| WebApi.MockEchoRoundTrip | web/src/services/api.ts:59-61 | mock `echo` returns a string message unchanged |
| WebApi.SegmentOfJoined | web/src/services/api.ts:89 | the first segment of `x/y` is `x` when `x` has no "/" |
| WebApi.SplitAtSlash | web/src/services/api.ts:89 | `x/y` splits uniquely when `x` has no "/" |
| WebApi.RunUrlShape | web/src/services/api.ts:89 | the run URL is the base, `/run/`, and the two encoded segments |
| WebApi.PrefixCancel | web/src/services/api.ts:89 | a common prefix cancels |
| WebApi.RunUrlInjective | web/src/services/api.ts:89 | different (plugin, command) pairs give different run URLs |
| WebApi.RunErrorMessage | web/src/services/api.ts:94-96 | the message is a truthy `detail`, else `POST /run failed: <status>` |
| WebApi.Member | web/src/services/api.ts:99 | a plain property read throws `TypeError` exactly on `null` and `undefined`, and otherwise reads as `?.` does |
| WebApi.RunResult | web/src/services/api.ts:94-99 | a non-ok status rejects with that message; an ok JSON body yields its `output`, except that a `null` body throws `TypeError`; an ok non-JSON body rejects with a syntax error |
| WebApi.UploadResult | web/src/services/api.ts:110-114 | a non-ok status rejects with the status; an ok `null` body throws `TypeError`; an ok non-JSON body rejects with a syntax error; otherwise the filename is `data.filename \|\| file.name` and the URL is the download URL of it |
| WebApi.DownloadUrlInjective | web/src/services/api.ts:117-120 | different names give different download URLs |
| WebBackend.FromJs | web/src/services/api.ts:92 | a JSON value decodes iff it is not `undefined` |
| WebBackend.FromJsProps | web/src/services/api.ts:92 | `JSON.stringify` drops exactly the undefined properties |
| WebBackend.ToJsSingle | web/src/services/api.ts:92 | a one-key dict encodes as a one-key object |
| WebBackend.JsonRoundTrip | web/src/services/api.ts:92 | decoding the encoding of a server value gives it back |
| WebBackend.RunResponse | src/werkstatt/api.py:97-107 | the HTTP response has the reply's status and has no JSON body only for an unhandled error |
| WebBackend.DecimalStatus | web/src/services/api.ts:96-110 | the status is rendered in decimal in the fallback messages |
| WebBackend.ClientRunOutcome | web/src/services/api.ts:94-99 | what the client sees for each server reply: output, the server's detail, the status fallback, or `[object Object]` for a 422 detail list |
| WebBackend.OkOutcome | web/src/services/api.ts:98-99 | an ok reply yields the encoded output |
| WebBackend.StringDetailOutcome | web/src/services/api.ts:94-96 | a string detail is the message unless empty |
| WebBackend.InvalidBodyOutcome | web/src/services/api.ts:94-96 | a validation error's list detail stringifies as `[object Object]` |
| WebBackend.ClientArgsReachHandler | web/src/services/api.ts:92 | object args reach the handler minus undefined properties; missing args become `{}`; other args are rejected |
| WebBackend.ClientSees | web/src/services/api.ts:87-99 | a client call sees the client-side reading of the server's reply |
| WebBackend.ClientSeesNotFound | web/src/services/api.ts:94-96 | a not-found reply reaches the client as "Plugin not found or disabled" |
| WebBackend.ClientSeesOutput | web/src/services/api.ts:98-99 | an ok reply reaches the client as its encoded output |
| WebBackend.NoProps | web/src/services/api.ts:92 | empty args stay empty |
| WebBackend.ClientSeesText | web/src/services/api.ts:98-99 | a string output reaches the client as that string |
| WebBackend.ClientSeesGreeting | web/src/services/api.ts:87-99 | an absent plugin rejects and a greeting plugin resolves to "Hallo, Welt!" |
| WebBackend.BackendNamesExampleByDirectory | src/werkstatt/core/manager.py:43 | through the real client, `example` is not found and `example_tool` greets |
| WebBackend.MockAndBackendNameTheExampleDifferently | web/src/services/api.ts:57 | the mock answers only under `example`, the backend only under `example_tool` |
| WebBackend.GreetWithNullNameDiverges | web/src/services/api.ts:58 | for `{name: null}` the mock greets "Welt" and the backend "None" |
| WebBackend.NullNameProps | web/src/services/api.ts:92 | a null property survives as `None` |
| WebBackend.GreetNone | werkstatt_plugins/example_tool/plugin.py:51-52 | the backend greets a `None` name as "None" |
| WebBackend.BackendGreetsNone | werkstatt_plugins/example_tool/plugin.py:51-52 | through the real client, `{name: null}` greets "None" |
| WebBackend.ClientSeesNull | web/src/services/api.ts:92 | a null argument reaches the handler as `None` |
| WebBackend.BackendListsExampleCommands | src/werkstatt/api.py:66-77 | the server lists the example's commands as `describe` declares them |
| WebBackend.CommandJsonOne | src/werkstatt/api.py:60 | a one-param command renders with that param |
| WebBackend.MockCommandsMatchBackend | web/src/services/api.ts:36-50 | the mock's command table is the backend's, except the backend also sends `default: null` for `msg` |
| WebBackend.UploadLinkFindsFile | web/src/services/api.ts:110-114 | after an upload the client's link carries the stored name, decodes back to its bytes, and the server finds the file; a failed write rejects with status 500 |

## Left out

- **Entrypoints.** The HTTP server, FastAPI routing, CORS, upload streaming and `FileResponse` are out of scope. Handlers are functions from request to reply.
  - `Api.Download`: file existence is a parameter (`stored`).
  - `Api.Upload`: the write's only failure is a name reducing to "" or "..". Other I/O errors are not modelled.
- **Loading and hooks.** Dynamic import (`importlib`) is an outcome per directory entry (`LoadOutcome`). Typer's command registration and plugin hook behaviour are parameters (`Hooks`).
- **`werkstatt.toml` reading.** File reading and TOML parsing are left out. The configuration is an input map, and `config.py`'s own rule (a missing file gives `{"plugins": {}}`) is the empty-configuration case.
  - The TOML edit is text only. Where an appended `pkg = true` line lands, if a later table follows `[plugins]`, is not modelled.
- **`create_plugin` I/O.** Directory and file writes are a `Workspace` value.
  - `Cli.Precheck`: `str.isidentifier` is ASCII only.
  - `Cli.NormalizeName`: `lower` is ASCII only. `strip` removes Python's full white-space set.
- **CLI commands.** `db-put`, `db-list` and `db-search` are HTTP client calls, and `rich` table printing is output. Neither is modelled.
- **Other plugins.** Out of scope:
  - the `extraction` plugin (PDF and HTML scraping);
  - the `businessform` plugin (a wall-clock timestamp);
  - `Builtins.ShippedCatalogShape`: states the catalog of the two modelled plugins only. The real catalog also holds `businessform` and `extraction` records, which are arbitrary load outcomes in `Builtins.RepositoryCatalog`, so their `describe` and `execute` are not modelled;
  - `scripts/validate_payloads.py`;
  - the React UI files and the Vite configuration.
- **Python values.** `str()` of a dict or list is a placeholder, and dict display order is not modelled.
  - `float` is not a `Py.Value`. A TOML entry such as `pkg = 0.0`, which Python reads as falsy, and float command outputs are not modelled.
  - `describe` results are dicts. `CommandDesc` instances, which the server also accepts, are not representable.
  - A plugin instance counts as present when it exists (`instance.Some?`). An instance whose `__bool__` or `__len__` makes it falsy, which the source would skip, is not modelled.
  - `except Exception` handlers catch only `Exception` subclasses. A plugin raising `SystemExit` or `KeyboardInterrupt` escapes them, which `Py.Exception` cannot express: `Raised` stands for `Exception` subclasses only.
  - `repr` of strings covers quoting and escapes up to U+00FF only.
  - Pydantic's strict `str` mode: a non-string is never coerced to a string.
- **Paths.** `Path(x).name` follows POSIX paths. Windows separators are not modelled.
  - `file.filename` being `None` is not modelled.
- **JavaScript values.** Numbers are integers, so floats, `NaN` and `-0` are not modelled.
  - `toLowerCase` is ASCII only.
  - Property lookups on primitives give `undefined`, so string methods and lengths are not modelled.
  - Lone surrogates in `encodeURIComponent` (which throws on them) are outside `char`.
- **`fetch` and promises.** Network access and async scheduling are left out: a response is a status plus an optional JSON body.
  - The real `getPlugins` and the typing of `res.json()` are not modelled.
  - `URL.createObjectURL` is a serial store of blobs in the mock.
- **Concurrency.** Concurrent requests are not modelled. The catalog is built once and then only read.

## Findings

| source | as written | input that shows it | evidently intended | confidence | as-written member | corrected member |
|---|---|---|---|---|---|---|
| src/werkstatt/cli.py:70-109 | the plugin template is an f-string whose literal braces are not doubled. The dict literal of the generated `describe()` (lines 92-98) becomes a replacement field for the string `"name"`. Its format specifier contains the inner param dict as a nested field, which formats `"name"` again with the text after its colon as specifier. `str.__format__` rejects that with `ValueError: Invalid format specifier`. This happens in `create_plugin` after the directory (line 62) and `__init__.py` (lines 64-68) are written, so the command exits 1 and leaves a directory without `plugin.py` or a TOML entry, and a rerun reports the plugin as already existing. | `werkstatt plugins create demo` in a workspace with `werkstatt.toml` | the braces are template text, escaped as `{{`/`}}`, so `plugin.py` is written and the plugin enabled | medium, not executed; assumes the f-string grammar of Python 3.12 or later | Cli.ScaffoldAsWrittenStrands | Cli.ScaffoldEnables |
