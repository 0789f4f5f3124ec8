# Vytronics HMI core in Dafny

This project models the live-data core of Vytronics HMI, an open-source
SCADA/HMI server. The model has four modules:

- **DriverDb** (`driverdb.dfy`) is the driver registry of
  `vytronics/driverdb.js`.
  - `load` installs the built-in simulator driver `sim` (uri `simdriver`), then every configured driver whose id and uri do not collide with a built-in.
    The reserved-uri test compares against the built-in uri `simdriver`, so an entry such as `plc1` with uri `sim` is installed, not skipped (`SimAsUriIsInstalled`).
  - `subscribe` links a tag to a driver item.
  - `start` starts every driver in `getDrivers` order.
  - `write_item` forwards a write to the named driver's plugin.
  - `procItemValues` turns a plugin notification into one `drivervalue` event that carries the item's whole subscriber list.
  - The registry is the class `Registry`. Its `drivers` object is a `Table`: the object's own keys in insertion order, plus a map from key to driver. Plugin calls (`register`, `start`, `write_item`) and emitted events are recorded in ghost logs.
- **Project** (`project.dfy`) is the wiring of `vytronics/project.js`.
  - `load` runs, in order: driver load, tag load, the `tagChanged` listener, one `subscribe` per tag with a driver binding, the `drivervalue` listener, driver start and tag start. An exception ends the process with exit code 1.
  - The listener fans a driver value out to the tags.
  - `tagChanged` forwarding and `applicationCall` are modelled too.
  - The class `Project` records what it does as a ghost trace of `Step`s.
- **Environment** (`environment.dfy`) is `getenv` of `server.js` and the start-up settings.
  - `getenv` makes a single-pass, non-recursive substitution of `${name}` references. It models the lazy regular expression `/\$\{.+?\}/g`, including `.` not matching line terminators, the clean-up class `[{,},$]`, and the text "undefined" that `String.replace` inserts for an unset variable.
  - The model covers the `||` precedence chains for the project directory, the port and the IP address.
- **Js** (`js.dfy`) holds the JavaScript conventions the other modules share: values, truthiness, exceptions, and the property key `undefined` becomes.

The model is built from pure functions plus classes.

- Pure functions state what each operation computes, for example `LoadTable`, `SubscribeTable`, `Notify`, `LoadSteps` and `Expand`.
- Lemmas prove the promised properties about those functions.
- The classes `Registry` and `Project` hold the mutable state. Their methods, which contain the loops of the source, are proved to leave exactly the state those functions describe.

Plugins are foreign modules, so they are modelled only through their effects:

- each `Driver` records the path and the configuration it was created from;
- what a plugin's `write_item` returns is the registry parameter `reply`;
- the tag store is represented by the tags it lists and by the exceptions its `load` and `start` throw.

## Model

| member | source | states |
|---|---|---|
| Environment.CloseBrace | server.js:46 | the lazy `.+?` stops at the first `}` after the given position; the result is that position exactly when it closes the match, and none when a line terminator or the end comes first |
| Environment.MatchLength | server.js:46 | at each position the length of the match of `\$\{.+?\}`, if any: a prefix is a match exactly when it is that length, and a match is at least 4 characters |
| Environment.Scan | server.js:46-49 | every replaced piece of the scan is a match of the pattern; where a match starts it is taken (`ExpandMatch`), and where none starts one character is kept as text (`ExpandText`) |
| Environment.Clean | server.js:47-51 | removes every `{`, `}`, `$` and `,`: the result is no longer and has none of them, and a name without them is unchanged |
| Environment.CleanAppend | server.js:47-51 | cleaning works character by character: the clean-up of a concatenation is the concatenation of the clean-ups |
| Environment.CleanChar | server.js:47-51 | a single character is removed exactly when it is one of `{`, `}`, `$`, `,`, and kept otherwise, so with `CleanAppend` nothing else is removed |
| Environment.GetEnv | server.js:42-57 | undefined exactly when the variable is unset; otherwise the expansion of its value |
| Environment.ScanFlatten | server.js:46-49 | scanning loses nothing: the matches and the text between them make up the input, in order |
| Environment.NoReferenceUnchanged | server.js:46-49 | a value in which `${` never occurs is returned unchanged |
| Environment.ExpandReference | server.js:49-54 | a reference `${name}` at the front becomes the variable's value verbatim, or "undefined" when it is unset, and the expansion continues right after the `}` |
| Environment.ExpandMatch | server.js:46-54 | where a match of the pattern starts, it is replaced by the value of the variable named by the match with `{`, `}`, `$`, `,` removed (or "undefined"), and the expansion resumes right after the match |
| Environment.ExpandCleanedName | server.js:47-54 | a match whose name the clean-up changes: `${a,b}` looks up the variable `ab` |
| Environment.ExpandText | server.js:46-49 | where no match of the pattern starts, the first character is kept and the expansion goes on from the next one |
| Environment.ExpandPlainPrefix | server.js:46-49 | text without `$` in front of a value is kept verbatim before the expansion of the rest |
| Environment.EmbeddedReference | server.js:38-54 | one reference `${name}` between plain text and text with no `${` is replaced by the variable's value, and the text around it is kept |
| Environment.DocumentedExample | server.js:38-41 | `I_have${some_env}/embedded/in/me` expands to `I_have`, the value of `some_env`, then `/embedded/in/me` |
| Environment.NotRecursive | server.js:41-54 | substituted text is not rescanned: for any plain name `a`, a variable whose value is `${a}` yields the value of `a` (or "undefined"), never the expansion of that value |
| Environment.Configure | server.js:64-84 | the project directory is the truthy `VYTRONICS_PROJDIR` expansion, else `./project` when `./project/project.json` exists, else `./project_demo`; the port is the truthy `VYTRONICS_NODEJS_PORT` expansion, else a truthy raw `PORT`, else 8000; the IP follows the same chain with `IP` and "127.0.0.1" |
| DriverDb.PluginPath | vytronics/driverdb.js:173-177 | the built-in candidate `./vytronics/<uri>.js` when it exists, otherwise `<projectdir>/<uri>` |
| DriverDb.NewDriver | vytronics/driverdb.js:139-184 | throws "Driver missing 'uri' property." exactly when the uri is undefined; otherwise a driver with the given id and uri, no items, and a plugin created from the chosen path and `info.config` |
| DriverDb.PutConfiguredValid | vytronics/driverdb.js:54-69 | installing a configured driver that is not reserved keeps the registry invariant |
| DriverDb.Registry.IsReserved | vytronics/driverdb.js:53-66 | the `builtin.forEach` test: an entry is reserved exactly when its uri is the uri of a built-in driver or its key is a built-in id |
| DriverDb.InstallConfiguredValid | vytronics/driverdb.js:51-70 | the configured-driver loop keeps the registry invariant, and the keys before the loop stay the first keys, in their order |
| DriverDb.InstallConfiguredExtends | vytronics/driverdb.js:51-70 | the configured-driver loop only adds keys after the existing ones, even when it fails part-way |
| DriverDb.InstalledKeys | vytronics/driverdb.js:51-70 | the keys of the non-reserved entries, in configuration order: a key is listed exactly when some non-reserved entry has it |
| DriverDb.InstallConfiguredKeys | vytronics/driverdb.js:51-70 | a successful loop over new keys appends exactly the non-reserved keys, in configuration order |
| DriverDb.InstallBuiltinsValid | vytronics/driverdb.js:38-43 | installing the built-ins keeps the invariant, gives a non-empty table, and leaves the key order of a loaded table unchanged |
| DriverDb.LoadKeepsBuiltins | vytronics/driverdb.js:36-72 | after any `load`, including one that fails or has no configuration, the table is valid, its first key is `sim`, and `sim` has uri `simdriver` |
| DriverDb.InstallConfiguredFails | vytronics/driverdb.js:51-70 | `load` fails exactly when some non-reserved configured entry lacks a uri; the error is the missing-uri error and is not caught |
| DriverDb.InstallConfiguredEntries | vytronics/driverdb.js:51-70 | after a load that succeeds, every non-reserved configured entry is installed under its key as `new Driver(key, info)`; every other key comes from the table before; reserved entries overwrite nothing |
| DriverDb.LoadFresh | vytronics/driverdb.js:36-72 | loading a configuration into an empty registry gives the key order `sim` then the non-reserved entries in configuration order; each is created by `new Driver` from its entry, and `sim` from `simdriver` |
| DriverDb.LoadFreshKeys | vytronics/driverdb.js:36-72 | the key order of a fresh load: `sim`, then the non-reserved configured keys in order |
| DriverDb.SimAsUriIsInstalled | vytronics/driverdb.js:54-58 | an entry `plc1` with uri `sim` is installed, because the built-in uri is `simdriver`; an entry with uri `simdriver` or key `sim` is skipped |
| DriverDb.AddSubscriber | vytronics/driverdb.js:98-101 | creates an empty list for a new item, appends the tag at the end, and leaves the other items unchanged |
| DriverDb.SubscribeTable | vytronics/driverdb.js:75-103 | a request with a falsy or unknown id changes nothing; otherwise only the named driver's item list changes, by appending the tag; keys and the invariant are kept |
| DriverDb.SubscribeEachAppends | vytronics/driverdb.js:98-101 | successive subscriptions to one item append their tags in order, without deduplication |
| DriverDb.SubscribeTwice | vytronics/driverdb.js:94-101 | the same tag subscribed twice is listed twice |
| DriverDb.Notify | vytronics/driverdb.js:195-205 | no event for an item without a list; otherwise exactly one event carrying the driver id, the item, the whole list and the value |
| DriverDb.NotifyNamesTags | vytronics/driverdb.js:196-204 | in a valid table, every emitted event names its driver and at least one tag |
| DriverDb.SubscribeThenNotify | vytronics/driverdb.js:75-205 | after a tag subscribes to an item, the event for that item lists the earlier subscribers and then the tag |
| DriverDb.StartCalls | vytronics/driverdb.js:106-111 | one `start()` per id, in the given order |
| DriverDb.StartEachOnce | vytronics/driverdb.js:106-122 | each loaded driver is started exactly once, and nothing else is started |
| DriverDb.Registry.constructor | vytronics/driverdb.js:29-33 | an empty registry with no calls and no events |
| DriverDb.Registry.Load | vytronics/driverdb.js:36-72 | the table and the error after `load` are those of `LoadTable`, and the invariant holds |
| DriverDb.Registry.InstallBuiltinDrivers | vytronics/driverdb.js:38-43 | the built-in loop leaves the table `InstallBuiltins` describes: one `new Driver` per built-in, in order |
| DriverDb.Registry.InstallConfiguredDrivers | vytronics/driverdb.js:50-70 | the configured-driver loop leaves the table and the error `InstallConfigured` describes: reserved entries are skipped, and the first entry without a uri stops the loop with its exception |
| DriverDb.Registry.Subscribe | vytronics/driverdb.js:75-103 | the table becomes `SubscribeTable` of the old one, and `register(item)` is called once exactly when the request is accepted |
| DriverDb.Registry.GetDrivers | vytronics/driverdb.js:114-122 | the loaded ids in key order, each exactly once |
| DriverDb.Registry.Start | vytronics/driverdb.js:106-111 | the plugin calls gain one `start()` per id of `getDrivers`, in order |
| DriverDb.Registry.WriteItem | vytronics/driverdb.js:131-136 | for a loaded id, the plugin's `write_item(item, value)` result unchanged, with exactly that call recorded; for an unknown id, the TypeError of reading `driverObj` of undefined, with no call |
| DriverDb.Registry.ProcItemValues | vytronics/driverdb.js:195-205 | the emitted event is `Notify`'s, it names at least one tag, and it is the only event added |
| Project.SubscribeTags | vytronics/project.js:77-87 | subscribing the listed tags keeps the driver keys and the registry invariant |
| Project.SubscribeStepsAreSubscriptions | vytronics/project.js:77-87 | the tag loop does nothing but subscribe |
| Project.SubscribeStepsFilter | vytronics/project.js:77-87 | a subscription happens exactly for the tags with a driver binding, with the tag's id and binding |
| Project.BoundIndices | vytronics/project.js:77-87 | the positions of the tags with a driver binding, strictly increasing, each one bound, and every bound position listed |
| Project.SubscribeStepsInOrder | vytronics/project.js:77-87 | the tag loop subscribes each bound tag exactly once, in `getTags` order: the m-th subscription is that of the m-th bound tag |
| Project.LoadOrder | vytronics/project.js:60-102 | a load without exceptions is exactly driver load, tag load, the `tagChanged` listener, the subscriptions, the `drivervalue` listener, driver start and tag start, in that order, and does not exit |
| Project.LaidOutInOrder | vytronics/project.js:66-102 | the same order holds for any sequence of subscriptions |
| Project.LoadFailureIsFatal | vytronics/project.js:60-108 | the first exception in any step is logged and then the process exits with code 1, and there is an exit only then; after a failed read, parse or driver load nothing else happens; after a failed tag load only the driver load came first; after a failed tag start the tags are not started |
| Project.ParsedFatal | vytronics/project.js:66-108 | the same once the project file is parsed, given the driver load's error |
| Project.TagStepsFatal | vytronics/project.js:69-108 | once drivers and tags are loaded, only the tag start can fail; then the run ends fatally and the tags are not started |
| Project.EndsInAbort | vytronics/project.js:104-108 | steps that neither log, exit nor start the tags, followed by the log and `exit(1)`, form a fatal end without a tag start |
| Project.BoundTagsSubscribed | vytronics/project.js:76-87 | after the tag loop, every tag bound to a loaded driver is among the subscribers of its item |
| Project.SubscribersGrow | vytronics/driverdb.js:98-101 | subscribing never removes or reorders a subscriber in any list |
| Project.TagValues | vytronics/driverdb.js:204 | the tag list as emitted: one string value per tag, in order |
| Project.ForEachSetValue | vytronics/project.js:93-96 | one `setValue(value)` per element of the list, in list order |
| Project.ListenerAsWrittenMisbinds | vytronics/project.js:90-97 | with the parameters as written, the listener's `tags` receives the item and its `value` the tag list, so every event makes `forEach` throw |
| Project.ListenerFansOut | vytronics/project.js:90-97 | with the parameters in emission order, each tag of the event gets `setValue(value)` exactly once, in list order |
| Project.FreshLoadIsSimulator | vytronics/driverdb.js:38-48 | with no configured drivers, the registry holds the simulator only |
| Project.RampScenario | vytronics/project.js:77-97 | a tag bound to `sim`/`demo.ramp` gets the value 42 through the corrected listener, while the listener as written throws |
| Project.ApplicationCall | vytronics/project.js:111-127 | an unknown name gives the "not found" error; a call that returns gives its result with no error; a call that throws gives "Error: Application call failed - " and the message; the error is undefined exactly when the call returned |
| Project.Project.constructor | vytronics/project.js:42-48 | a project over a valid registry, with nothing done yet |
| Project.Project.Load | vytronics/project.js:52-109 | the trace, the registry table and the plugin calls after `load` are those of `LoadSteps`, `LoadedTable` and `LoadCalls`; no event is emitted |
| Project.Project.LoadTags | vytronics/project.js:69-102 | the steps after the drivers are loaded, and the table and calls they leave |
| Project.Project.RunTags | vytronics/project.js:69-102 | the same, when the tag store loads |
| Project.Project.SubscribeAndStart | vytronics/project.js:70-98 | tag load, the listeners, the subscriptions and driver start, with their table and calls |
| Project.Project.SubscribeAll | vytronics/project.js:77-87 | the tag loop leaves the table `SubscribeTags` describes, and makes one `register` per accepted binding |
| Project.Project.OnTagChanged | vytronics/project.js:33-38 | forwards to `clientdb.tagChanged(id, data)` exactly once, with the arguments unchanged |
| Project.Project.OnDriverValue | vytronics/project.js:90-97 | an event is delivered to the corrected listener: one `setValue` per tag of the event, in order |

## Left out

- The HTTP server, express, socket.io and `listen` in `server.js` are transport code, and `createClient` only passes its argument through.
- `load(projectdir)` resolves and stores `db.projectdir`, where `new Driver` looks for project plugins. In the model the registry's `projectDir`, fixed when the registry is created, stands for `db.projectdir` as `load` sets it, so `Project.Load` takes no directory; `path.resolve` of it is not modelled.
- Reading `project.json` and `JSON.parse` are not modelled. `Project.Load` takes their outcome as input: the parsed object or the exception.
- `path.resolve` is not modelled. Paths are plain concatenations; the project directory and `__dirname` resolution are not normalised.
- `require(driverpath).create(info.config)` and the plugins' own behaviour are foreign. A driver records its plugin path and config. A `require` or `create` that throws, a plugin `start()` that throws, and a missing plugin method are not modelled.
- The EventEmitter is modelled as direct delivery: `ProcItemValues` records the event, and `OnDriverValue` and `OnTagChanged` model the listeners' effect. Listener registration appears only as a step of the trace.
- The tag store, the client registry and the RPC registry are not part of this model. Only what the project reads from them is kept: the tags `getTags` lists, and whether their `load` and `start` throw.
- JavaScript enumerates integer-like object keys first, in numeric order. The model keeps plain insertion order for all keys.
- Keys inherited from `Object.prototype` (for example `drivers["constructor"]` in `write_item`) are not modelled.
- Configured values are modelled only as far as the core reads them. A `null` configuration is not modelled, and neither are non-string uris, item names or driver ids (apart from `undefined`). Numbers are integers, so floating point and NaN are not modelled.
- Console output and `db.log` are not modelled. `process.exit(1)` appears only as the final trace step `Exit(1)`.
- `Project.ListenerAsWritten` and `Project.FanOut` give the TypeError message "tags.forEach is not a function" for every non-array argument. The source engine's message for `undefined` differs.
- `Project.Project.OnDriverValue` does not model `tagdb.getTag` returning undefined for an unknown tag id. The model treats every listed tag as known.
- `Project.ApplicationCall` models a throw as a message string. The `err.message` of a thrown non-Error value is not modelled.
- `register` is called on every accepted `subscribe`, also for an item that is already registered. Avoiding duplicate work is left to the plugin, as the code does.

## Findings

| source | as written | input that shows it | evidently intended | confidence | as-written member | corrected member |
|---|---|---|---|---|---|---|
| vytronics/project.js:90 | the `drivervalue` listener is `function(driverid, tags, value, item)`, but vytronics/driverdb.js:204 emits `(id, item, tags, value)`, so `tags` is the item string and `tags.forEach` throws | tag `T1` bound to `sim`/`demo.ramp`, and the simulator reports 42 for `demo.ramp`: the event `("sim", "demo.ramp", ["T1"], 42)` makes the listener throw a TypeError and `T1` never gets 42 | parameters `(driverid, item, tags, value)`, so that each listed tag gets `setValue(value)` | not executed | Project.ListenerAsWritten (Project.ListenerAsWrittenMisbinds, Project.RampScenario) | Project.Listener (Project.ListenerFansOut, Project.Project.OnDriverValue) |
