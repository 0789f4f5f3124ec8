/** Project wiring (vytronics/project.js): the load sequence that builds the
    driver registry and the tag subscriptions, the `drivervalue` listener that
    hands a value to every subscribed tag, forwarding of tag changes to the
    clients, and application calls. */
module Project {
  import opened Js
  import opened DriverDb

  /** A tag as `tagdb.getTag(tid)` gives it: its id and its driver binding. */
  datatype Tag = Tag(id: string, driverinfo: Option<DriverRef>)

  /** The parsed project.json. The `tags` section is handed to the tag store
      unexamined. */
  datatype ProjectJson = ProjectJson(drivers: Option<DriverConfig>, tags: Value)

  /** What the tag store shows the project: the tags `getTags()` lists, in its
      order, after `tagdb.load`, and the exceptions its `load` and `start`
      throw, if any. */
  datatype TagStore = TagStore(tags: seq<Tag>, loadError: Option<Exception>, startError: Option<Exception>)

  /** What the project does, in order. */
  datatype Step =
    | DriversLoaded
    | TagsLoaded
    | TagChangedListener
    | Subscribed(tagid: string, ref: DriverRef)
    | DriverValueListener
    | DriversStarted
    | TagsStarted
    | SetValue(tag: Value, value: Value)
    | ClientTagChanged(id: string, data: Value)
    | Fatal(error: Exception)
    | Exit(code: int)

  /** One `subscribe` per tag that has a driver binding, in `getTags` order. */
  function SubscribeSteps(tags: seq<Tag>): seq<Step>
  {
    if tags == [] then []
    else
      var last := tags[|tags| - 1];
      SubscribeSteps(tags[..|tags| - 1]) + if last.driverinfo.Some? then [Subscribed(last.id, last.driverinfo.value)] else []
  }

  /** The subscription table after the loop of `load` over the tags. */
  function SubscribeTags(t: Table, tags: seq<Tag>): (r: Table)
    ensures r.keys == t.keys && r.entries.Keys == t.entries.Keys
    ensures TableValid(t) ==> TableValid(r)
  {
    if tags == [] then t
    else
      var last := tags[|tags| - 1];
      var prev := SubscribeTags(t, tags[..|tags| - 1]);
      if last.driverinfo.Some? then SubscribeTable(prev, last.id, last.driverinfo.value) else prev
  }

  /** The `register` calls the loop over the tags makes. */
  function RegisterCalls(t: Table, tags: seq<Tag>): seq<PluginCall>
  {
    if tags == [] then []
    else
      var last := tags[|tags| - 1];
      RegisterCalls(t, tags[..|tags| - 1])
      + if last.driverinfo.Some? && Accepts(t, last.driverinfo.value)
        then [RegisterCall(last.driverinfo.value.id.value, last.driverinfo.value.item)] else []
  }

  /** The fatal end of a failed load: logged, then `process.exit(1)`. */
  function Abort(e: Exception): seq<Step>
  {
    [Fatal(e), Exit(1)]
  }

  /** Tag load, the two listeners around the subscriptions, and driver
      start. */
  function StartedSteps(tags: seq<Tag>): seq<Step>
  {
    [TagsLoaded, TagChangedListener] + SubscribeSteps(tags) + [DriverValueListener] + [DriversStarted]
  }

  /** What `load` does once the drivers are loaded: the steps up to driver
      start, then tag start. */
  function TagSteps(store: TagStore): seq<Step>
  {
    if store.loadError.Some? then Abort(store.loadError.value)
    else StartedSteps(store.tags) + if store.startError.Some? then Abort(store.startError.value) else [TagsStarted]
  }

  lemma AppendAssociates<T>(a: seq<T>, b: seq<T>, c: seq<T>)
    ensures a + b + c == a + (b + c)
  {
  }

  /** The registry table after those steps, from the loaded table `t`. */
  function TagTable(t: Table, store: TagStore): Table
  {
    if store.loadError.Some? then t else SubscribeTags(t, store.tags)
  }

  /** The plugin calls of those steps: the `register` calls of the
      subscriptions, then one `start` per driver. */
  function TagCalls(t: Table, store: TagStore): seq<PluginCall>
  {
    if store.loadError.Some? then [] else RegisterCalls(t, store.tags) + StartCalls(t.keys)
  }

  /** Everything `load` does, in order, starting from registry table `t`. An
      exception stops the remaining steps and ends the process. */
  function LoadSteps(t: Table, projectDir: string, files: set<string>, json: Result<ProjectJson, Exception>, store: TagStore): seq<Step>
  {
    match json
    case Err(e) => Abort(e)
    case Ok(p) =>
      ParsedSteps(LoadTable(t, p.drivers, projectDir, files).error, store)
  }

  /** What `load` does once the project file is parsed, given the error of
      the driver load, if any. */
  function ParsedSteps(driverError: Option<Exception>, store: TagStore): seq<Step>
  {
    if driverError.Some? then Abort(driverError.value) else [DriversLoaded] + TagSteps(store)
  }

  /** The registry table after `load`. */
  function LoadedTable(t: Table, projectDir: string, files: set<string>, json: Result<ProjectJson, Exception>, store: TagStore): Table
  {
    match json
    case Err(_) => t
    case Ok(p) =>
      var loaded := LoadTable(t, p.drivers, projectDir, files);
      if loaded.error.Some? then loaded.table else TagTable(loaded.table, store)
  }

  /** The plugin calls `load` makes. */
  function LoadCalls(t: Table, projectDir: string, files: set<string>, json: Result<ProjectJson, Exception>, store: TagStore): seq<PluginCall>
  {
    match json
    case Err(_) => []
    case Ok(p) =>
      var loaded := LoadTable(t, p.drivers, projectDir, files);
      if loaded.error.Some? then [] else TagCalls(loaded.table, store)
  }

  /** Steps `a` and `b` both happen, and every `a` comes before every `b`. */
  predicate Before(steps: seq<Step>, a: Step, b: Step)
  {
    && a in steps && b in steps
    && forall i, j :: 0 <= i < |steps| && 0 <= j < |steps| && steps[i] == a && steps[j] == b ==> i < j
  }

  lemma {:induction false} SubscribeStepsAreSubscriptions(tags: seq<Tag>)
    ensures forall k :: 0 <= k < |SubscribeSteps(tags)| ==> SubscribeSteps(tags)[k].Subscribed?
  {
    if tags != [] {
      SubscribeStepsAreSubscriptions(tags[..|tags| - 1]);
    }
  }

  /** Tag `k` of `tags` is bound to a driver and `s` is its subscription. */
  predicate BoundAt(tags: seq<Tag>, k: int, s: Step)
  {
    0 <= k < |tags| && tags[k].driverinfo.Some? && s == Subscribed(tags[k].id, tags[k].driverinfo.value)
  }

  /** The subscriptions are those of the tags with a driver binding and no
      others; tags without one are not subscribed. */
  lemma {:induction false} SubscribeStepsFilter(tags: seq<Tag>)
    ensures forall s :: s in SubscribeSteps(tags) <==> exists k :: BoundAt(tags, k, s)
  {
    if tags != [] {
      var front, last := tags[..|tags| - 1], tags[|tags| - 1];
      SubscribeStepsFilter(front);
      var extra := if last.driverinfo.Some? then [Subscribed(last.id, last.driverinfo.value)] else [];
      assert SubscribeSteps(tags) == SubscribeSteps(front) + extra;
      forall s | s in SubscribeSteps(tags) ensures exists k :: BoundAt(tags, k, s) {
        if s in SubscribeSteps(front) {
          var k :| BoundAt(front, k, s);
          assert BoundAt(tags, k, s);
        } else {
          assert BoundAt(tags, |tags| - 1, s);
        }
      }
      forall k, s | BoundAt(tags, k, s) ensures s in SubscribeSteps(tags) {
        if k < |front| {
          assert BoundAt(front, k, s);
        } else {
          assert s in extra;
        }
      }
    }
  }

  /** The positions of the tags with a driver binding, in increasing order. */
  function BoundIndices(tags: seq<Tag>): (ix: seq<nat>)
    ensures forall m :: 0 <= m < |ix| ==> ix[m] < |tags| && tags[ix[m]].driverinfo.Some?
    ensures forall m, n :: 0 <= m < n < |ix| ==> ix[m] < ix[n]
    ensures forall k :: 0 <= k < |tags| && tags[k].driverinfo.Some? ==> k in ix
  {
    if tags == [] then []
    else
      var front := tags[..|tags| - 1];
      assert forall k :: 0 <= k < |front| ==> front[k] == tags[k];
      BoundIndices(front) + if tags[|tags| - 1].driverinfo.Some? then [|tags| - 1] else []
  }

  /** The tag loop subscribes each tag with a driver binding exactly once, in
      `getTags` order, and does nothing else. */
  lemma {:induction false} SubscribeStepsInOrder(tags: seq<Tag>)
    ensures var r, ix := SubscribeSteps(tags), BoundIndices(tags);
      && |r| == |ix|
      && forall m :: 0 <= m < |ix| ==> r[m] == Subscribed(tags[ix[m]].id, tags[ix[m]].driverinfo.value)
  {
    if tags != [] {
      var front, last := tags[..|tags| - 1], tags[|tags| - 1];
      SubscribeStepsInOrder(front);
      var rf, ixf := SubscribeSteps(front), BoundIndices(front);
      var r, ix := SubscribeSteps(tags), BoundIndices(tags);
      if last.driverinfo.Some? {
        assert r == rf + [Subscribed(last.id, last.driverinfo.value)];
        assert ix == ixf + [|tags| - 1];
      } else {
        assert r == rf + [];
        assert ix == ixf + [];
      }
      forall m | 0 <= m < |ixf| ensures r[m] == Subscribed(tags[ix[m]].id, tags[ix[m]].driverinfo.value) {
        assert r[m] == rf[m] && ix[m] == ixf[m] && front[ixf[m]] == tags[ixf[m]];
      }
    }
  }

  /** A load that meets no exception runs driver load, tag load, all
      subscriptions, driver start and tag start, in that order, and never
      exits. */
  lemma LoadOrder(t: Table, projectDir: string, files: set<string>, p: ProjectJson, store: TagStore)
    requires LoadTable(t, p.drivers, projectDir, files).error.None?
    requires store.loadError.None? && store.startError.None?
    ensures LoadSteps(t, projectDir, files, Ok(p), store)
         == [DriversLoaded, TagsLoaded, TagChangedListener] + SubscribeSteps(store.tags) + [DriverValueListener, DriversStarted, TagsStarted]
    ensures var steps := LoadSteps(t, projectDir, files, Ok(p), store);
      && Before(steps, DriversLoaded, TagsLoaded)
      && Before(steps, TagsLoaded, DriversStarted)
      && Before(steps, DriversStarted, TagsStarted)
      && (forall k :: 0 <= k < |steps| && steps[k].Subscribed? ==> Before(steps, TagsLoaded, steps[k]) && Before(steps, steps[k], DriversStarted))
      && (forall k :: 0 <= k < |steps| ==> !steps[k].Exit?)
  {
    var subs := SubscribeSteps(store.tags);
    SubscribeStepsAreSubscriptions(store.tags);
    var steps := LoadSteps(t, projectDir, files, Ok(p), store);
    assert steps == [DriversLoaded] + (StartedSteps(store.tags) + [TagsStarted]);
    assert steps == [DriversLoaded, TagsLoaded, TagChangedListener] + subs + [DriverValueListener, DriversStarted, TagsStarted];
    LaidOutInOrder(subs);
  }

  /** The order of a load that meets no exception, for any subscriptions. */
  lemma LaidOutInOrder(subs: seq<Step>)
    requires forall k :: 0 <= k < |subs| ==> subs[k].Subscribed?
    ensures var steps := [DriversLoaded, TagsLoaded, TagChangedListener] + subs + [DriverValueListener, DriversStarted, TagsStarted];
      && Before(steps, DriversLoaded, TagsLoaded)
      && Before(steps, TagsLoaded, DriversStarted)
      && Before(steps, DriversStarted, TagsStarted)
      && (forall k :: 0 <= k < |steps| && steps[k].Subscribed? ==> Before(steps, TagsLoaded, steps[k]) && Before(steps, steps[k], DriversStarted))
      && (forall k :: 0 <= k < |steps| ==> !steps[k].Exit?)
  {
    var steps := [DriversLoaded, TagsLoaded, TagChangedListener] + subs + [DriverValueListener, DriversStarted, TagsStarted];
    var n := |subs|;
    assert forall k :: 3 <= k < 3 + n ==> steps[k] == subs[k - 3];
    assert steps[0] == DriversLoaded && steps[1] == TagsLoaded;
    assert steps[3 + n] == DriverValueListener && steps[4 + n] == DriversStarted && steps[5 + n] == TagsStarted;
    assert |steps| == 6 + n;
    SubscriptionsBetween(steps, n);
  }

  /** In such a run every subscription comes after tag load and before driver
      start. */
  lemma SubscriptionsBetween(steps: seq<Step>, n: nat)
    requires |steps| == 6 + n && steps[1] == TagsLoaded && steps[4 + n] == DriversStarted
    requires forall k :: 0 <= k < |steps| && k != 1 ==> steps[k] != TagsLoaded
    requires forall k :: 0 <= k < |steps| && k != 4 + n ==> steps[k] != DriversStarted
    requires forall k :: 0 <= k < |steps| && steps[k].Subscribed? ==> 3 <= k < 3 + n
    ensures forall k :: 0 <= k < |steps| && steps[k].Subscribed? ==> Before(steps, TagsLoaded, steps[k]) && Before(steps, steps[k], DriversStarted)
  {
    forall k | 0 <= k < |steps| && steps[k].Subscribed?
      ensures Before(steps, TagsLoaded, steps[k]) && Before(steps, steps[k], DriversStarted)
    {
      forall j | 0 <= j < |steps| && steps[j] == steps[k] ensures 1 < j < 4 + n {
        assert steps[j].Subscribed?;
      }
    }
  }

  /** The exception `load` meets first, if any: reading or parsing, then the
      driver load, then the tag load, then the tag start. */
  function FirstError(t: Table, projectDir: string, files: set<string>, json: Result<ProjectJson, Exception>, store: TagStore): Option<Exception>
  {
    match json
    case Err(e) => Some(e)
    case Ok(p) =>
      ParsedError(LoadTable(t, p.drivers, projectDir, files).error, store)
  }

  /** The exception `load` meets first once the project file is parsed. */
  function ParsedError(driverError: Option<Exception>, store: TagStore): Option<Exception>
  {
    if driverError.Some? then driverError
    else if store.loadError.Some? then store.loadError
    else store.startError
  }

  /** An exception in any step of `load` is logged as the last but one step,
      and the process then exits with code 1: there is an exit exactly when
      there was an exception, and nothing is logged or done after it. A failed
      read, parse or driver load is followed by nothing else; a failed tag
      load leaves the driver load as the only earlier step; a failed tag
      start leaves the tags unstarted. */
  lemma LoadFailureIsFatal(t: Table, projectDir: string, files: set<string>, json: Result<ProjectJson, Exception>, store: TagStore)
    ensures LoadEndsFatally(t, projectDir, files, json, store)
  {
    if json.Err? {
      EndsInAbort([], json.error);
      assert [] + Abort(json.error) == Abort(json.error);
    } else {
      ParsedLoadEndsFatally(t, projectDir, files, json, store);
    }
  }

  /** The outcome `LoadFailureIsFatal` states: `EndsFatally`, and which
      steps precede the fatal end for each failure. */
  predicate LoadEndsFatally(t: Table, projectDir: string, files: set<string>, json: Result<ProjectJson, Exception>, store: TagStore)
  {
    var steps, error := LoadSteps(t, projectDir, files, json, store), FirstError(t, projectDir, files, json, store);
    && EndsFatally(steps, error)
    && (json.Err? ==> steps == Abort(json.error))
    && (json.Ok? && LoadTable(t, json.value.drivers, projectDir, files).error.Some? ==>
          steps == Abort(LoadTable(t, json.value.drivers, projectDir, files).error.value))
    && (json.Ok? && LoadTable(t, json.value.drivers, projectDir, files).error.None? && store.loadError.Some? ==>
          steps == [DriversLoaded] + Abort(store.loadError.value))
    && (store.startError.Some? ==> TagsStarted !in steps)
  }

  lemma ParsedLoadEndsFatally(t: Table, projectDir: string, files: set<string>, json: Result<ProjectJson, Exception>, store: TagStore)
    requires json.Ok?
    ensures LoadEndsFatally(t, projectDir, files, json, store)
  {
    var driverError := LoadTable(t, json.value.drivers, projectDir, files).error;
    assert LoadSteps(t, projectDir, files, json, store) == ParsedSteps(driverError, store);
    assert FirstError(t, projectDir, files, json, store) == ParsedError(driverError, store);
    ParsedFatal(driverError, store);
  }

  /** There is an exit exactly when there was an exception; the exception is
      then logged as the last but one step and the exit is the last, and no
      step before them logs or exits. */
  predicate EndsFatally(steps: seq<Step>, error: Option<Exception>)
  {
    && (error.Some? <==> Exit(1) in steps)
    && (error.Some? ==>
          && |steps| >= 2 && steps[|steps| - 2..] == Abort(error.value)
          && forall k :: 0 <= k < |steps| - 2 ==> !steps[k].Fatal? && !steps[k].Exit?)
  }

  /** `LoadFailureIsFatal` once the project file is parsed. */
  lemma ParsedFatal(driverError: Option<Exception>, store: TagStore)
    ensures var steps := ParsedSteps(driverError, store);
      && EndsFatally(steps, ParsedError(driverError, store))
      && (driverError.Some? ==> steps == Abort(driverError.value))
      && (driverError.None? && store.loadError.Some? ==> steps == [DriversLoaded] + Abort(store.loadError.value))
      && (store.startError.Some? ==> TagsStarted !in steps)
  {
    if driverError.Some? {
      EndsInAbort([], driverError.value);
      assert ParsedSteps(driverError, store) == [] + Abort(driverError.value);
    } else if store.loadError.Some? {
      EndsInAbort([DriversLoaded], store.loadError.value);
      assert ParsedSteps(driverError, store) == [DriversLoaded] + Abort(store.loadError.value);
    } else {
      TagStepsFatal(store);
      assert ParsedSteps(driverError, store) == [DriversLoaded] + TagSteps(store);
      assert ParsedError(driverError, store) == store.startError;
    }
  }

  /** Once the drivers are loaded and the tags too, only the tag start can
      still fail; if it does, the run ends in `Abort` and the tags are not
      started. */
  lemma TagStepsFatal(store: TagStore)
    requires store.loadError.None?
    ensures var steps := [DriversLoaded] + TagSteps(store);
      && EndsFatally(steps, store.startError)
      && (store.startError.Some? ==> TagsStarted !in steps)
  {
    SubscribeStepsAreSubscriptions(store.tags);
    var head := [DriversLoaded] + StartedSteps(store.tags);
    var subs := SubscribeSteps(store.tags);
    assert forall k :: 3 <= k < 3 + |subs| ==> head[k] == subs[k - 3];
    assert head[0] == DriversLoaded && head[1] == TagsLoaded && head[2] == TagChangedListener;
    assert head[3 + |subs|] == DriverValueListener && head[4 + |subs|] == DriversStarted && |head| == 5 + |subs|;
    if store.startError.Some? {
      assert [DriversLoaded] + TagSteps(store) == head + Abort(store.startError.value);
      EndsInAbort(head, store.startError.value);
    } else {
      assert [DriversLoaded] + TagSteps(store) == head + [TagsStarted];
      assert Exit(1) !in head;
    }
  }

  /** A run that ends in `Abort(e)` after steps that neither log nor exit nor
      start the tags. */
  lemma EndsInAbort(head: seq<Step>, e: Exception)
    requires forall k :: 0 <= k < |head| ==> !head[k].Fatal? && !head[k].Exit? && head[k] != TagsStarted
    ensures EndsFatally(head + Abort(e), Some(e)) && TagsStarted !in head + Abort(e)
  {
    var steps := head + Abort(e);
    assert steps[|head|..] == Abort(e);
    assert forall k :: 0 <= k < |head| ==> steps[k] == head[k];
  }

  /** After a load without exceptions, every tag bound to a loaded driver is
      among the subscribers of its item, so a value the plugin reports for
      that item is handed to the tag. */
  lemma {:induction false} BoundTagsSubscribed(t: Table, tags: seq<Tag>, k: nat)
    requires TableValid(t) && k < |tags|
    requires tags[k].driverinfo.Some? && Accepts(t, tags[k].driverinfo.value)
    ensures var ref := tags[k].driverinfo.value;
      tags[k].id in Subscribers(SubscribeTags(t, tags), ref.id.value, PropertyKey(ref.item))
    decreases |tags|
  {
    var ref := tags[k].driverinfo.value;
    var id, key := ref.id.value, PropertyKey(ref.item);
    var front, last := tags[..|tags| - 1], tags[|tags| - 1];
    var prev := SubscribeTags(t, front);
    assert Accepts(prev, ref);
    if k == |tags| - 1 {
      assert Subscribers(SubscribeTable(prev, last.id, ref), id, key) == Subscribers(prev, id, key) + [last.id];
    } else {
      BoundTagsSubscribed(t, front, k);
      if last.driverinfo.Some? {
        SubscribersGrow(prev, last.id, last.driverinfo.value, id, key);
      }
    }
  }

  /** Subscribing never removes a subscriber from any list. */
  lemma SubscribersGrow(t: Table, tagid: string, ref: DriverRef, id: string, key: string)
    ensures var before, after := Subscribers(t, id, key), Subscribers(SubscribeTable(t, tagid, ref), id, key);
      |before| <= |after| && after[..|before|] == before
  {
  }

  /** The arguments of the emitted event, by position:
      `(id, item, tags, value)`. */
  function EmittedArguments(e: DriverValue): seq<Value>
  {
    [Str(e.driverId), Str(e.item), Arr(TagValues(e.tags)), e.value]
  }

  function TagValues(tags: seq<string>): (r: seq<Value>)
    ensures |r| == |tags| && forall k :: 0 <= k < |tags| ==> r[k] == Str(tags[k])
  {
    if tags == [] then [] else [Str(tags[0])] + TagValues(tags[1..])
  }

  /** A listener's `k`-th parameter: `undefined` when fewer arguments come. */
  function Argument(args: seq<Value>, k: nat): Value
  {
    if k < |args| then args[k] else Undefined
  }

  /** `tags.forEach(tagid => tagdb.getTag(tagid).setValue(value))` on an array. */
  function ForEachSetValue(tags: seq<Value>, value: Value): (r: seq<Step>)
    ensures |r| == |tags| && forall k :: 0 <= k < |tags| ==> r[k] == SetValue(tags[k], value)
  {
    if tags == [] then [] else [SetValue(tags[0], value)] + ForEachSetValue(tags[1..], value)
  }

  /** The fan-out body of the listener over the `tags` and `value` it is given;
      `forEach` exists on arrays only, and on anything else throws. */
  function FanOut(tags: Value, value: Value): Result<seq<Step>, Exception>
  {
    if tags.Arr? then Ok(ForEachSetValue(tags.elems, value))
    else Err(TypeError("tags.forEach is not a function"))
  }

  /** The `drivervalue` listener as written, `function(driverid, tags, value,
      item)`: its parameters take the emitted arguments by position. */
  function ListenerAsWritten(args: seq<Value>): Result<seq<Step>, Exception>
  {
    FanOut(Argument(args, 1), Argument(args, 2))
  }

  /** The listener with its parameters in emission order,
      `function(driverid, item, tags, value)`. */
  function Listener(args: seq<Value>): Result<seq<Step>, Exception>
  {
    FanOut(Argument(args, 2), Argument(args, 3))
  }

  /** As written, the listener's `tags` is the item and its `value` the list
      of tags, so every emitted event makes `forEach` throw and no tag gets
      the value. */
  lemma ListenerAsWrittenMisbinds(e: DriverValue)
    ensures Argument(EmittedArguments(e), 1) == Str(e.item)
    ensures Argument(EmittedArguments(e), 2) == Arr(TagValues(e.tags))
    ensures ListenerAsWritten(EmittedArguments(e)).Err?
  {
  }

  /** With the parameters in emission order, every tag of the event gets
      `setValue(value)` exactly once, in list order, and nothing else happens. */
  lemma ListenerFansOut(e: DriverValue)
    ensures var r := Listener(EmittedArguments(e));
      && r.Ok? && |r.value| == |e.tags|
      && forall k :: 0 <= k < |e.tags| ==> r.value[k] == SetValue(Str(e.tags[k]), e.value)
  {
  }

  /** Loading no configuration into an empty registry installs the simulator
      alone. */
  lemma FreshLoadIsSimulator(projectDir: string, files: set<string>)
    ensures var sim := NewDriver(SimId, DriverInfo(Some(SimUri), Undefined), projectDir, files).value;
      LoadTable(Empty, None, projectDir, files).table == Table([SimId], map[SimId := sim])
  {
    var sim := NewDriver(SimId, DriverInfo(Some(SimUri), Undefined), projectDir, files).value;
    assert Builtins[0] == Builtin(SimId, SimUri) && Builtins[1..] == [];
    assert InstallBuiltins(Empty, Builtins, projectDir, files) == InstallBuiltins(Put(Empty, sim), [], projectDir, files);
  }

  /** A tag bound to the built-in simulator's item receives the simulator's
      value through the corrected listener, while the listener as written
      throws. */
  lemma RampScenario(projectDir: string, files: set<string>)
    ensures var ref := DriverRef(Some(SimId), Some("demo.ramp"));
      var loaded := LoadTable(Empty, None, projectDir, files).table;
      var t := SubscribeTags(loaded, [Tag("T1", Some(ref))]);
      && SimId in t.entries
      && var e := Notify(t.entries[SimId], "demo.ramp", Num(42));
      && e == Some(DriverValue(SimId, "demo.ramp", ["T1"], Num(42)))
      && Listener(EmittedArguments(e.value)) == Ok([SetValue(Str("T1"), Num(42))])
      && ListenerAsWritten(EmittedArguments(e.value)).Err?
  {
    var ref := DriverRef(Some(SimId), Some("demo.ramp"));
    FreshLoadIsSimulator(projectDir, files);
    var sim := NewDriver(SimId, DriverInfo(Some(SimUri), Undefined), projectDir, files).value;
    var loaded := Table([SimId], map[SimId := sim]);
    assert Accepts(loaded, ref);
    var tags := [Tag("T1", Some(ref))];
    assert tags[..0] == [];
    var t := SubscribeTable(loaded, "T1", ref);
    assert SubscribeTags(loaded, tags) == t;
    assert t.entries[SimId].items["demo.ramp"] == ["T1"];
    assert TagValues(["T1"]) == [Str("T1")];
    assert ForEachSetValue([Str("T1")], Num(42)) == [SetValue(Str("T1"), Num(42))];
  }

  /** What an application call returns: `result` of the call, or the error text. */
  datatype CallOutcome = Returned(result: Value) | Threw(message: string)

  /** `{result, err}` */
  datatype AppResult = AppResult(result: Value, err: Value)

  /** `applicationCall(name, data)` over the registered calls
      `db.applicationCalls`. */
  function ApplicationCall(calls: map<string, Value -> CallOutcome>, name: string, data: Value): (r: AppResult)
    ensures name !in calls ==> r == AppResult(Undefined, Str("Error: Application call [" + name + "] not found."))
    ensures name in calls && calls[name](data).Returned? ==> r == AppResult(calls[name](data).result, Undefined)
    ensures name in calls && calls[name](data).Threw? ==>
              r == AppResult(Undefined, Str("Error: Application call failed - " + calls[name](data).message))
    ensures r.err == Undefined <==> name in calls && calls[name](data).Returned?
  {
    if name in calls then
      match calls[name](data)
      case Returned(v) => AppResult(v, Undefined)
      case Threw(m) => AppResult(Undefined, Str("Error: Application call failed - " + m))
    else AppResult(Undefined, Str("Error: Application call [" + name + "] not found."))
  }

  /** The project: the registry it loads, and what it has done so far. */
  class Project {
    const registry: Registry
    ghost var trace: seq<Step>

    ghost predicate Valid()
      reads this, registry
    {
      registry.Valid()
    }

    constructor (registry: Registry)
      requires registry.Valid()
      ensures Valid() && this.registry == registry && trace == []
    {
      this.registry := registry;
      trace := [];
    }

    /** `load`: driver load, tag load, the `tagChanged` listener, one
        `subscribe` per bound tag, the `drivervalue` listener, driver start and
        tag start; an exception in any of them ends the process. `json` is the
        outcome of reading and parsing project.json. */
    method Load(json: Result<ProjectJson, Exception>, store: TagStore)
      requires Valid()
      modifies this, registry
      ensures Valid()
      ensures trace == old(trace) + LoadSteps(old(registry.drivers), registry.projectDir, registry.files, json, store)
      ensures registry.drivers == LoadedTable(old(registry.drivers), registry.projectDir, registry.files, json, store)
      ensures registry.calls == old(registry.calls) + LoadCalls(old(registry.drivers), registry.projectDir, registry.files, json, store)
      ensures registry.events == old(registry.events)
    {
      if json.Err? {
        trace := trace + Abort(json.error);
        return;
      }
      var error := registry.Load(json.value.drivers);
      if error.Some? {
        trace := trace + Abort(error.value);
        return;
      }
      ghost var trace0 := trace;
      trace := trace + [DriversLoaded];
      LoadTags(store);
      AppendAssociates(trace0, [DriversLoaded], TagSteps(store));
    }

    /** The steps of `load` after the drivers are loaded. */
    method LoadTags(store: TagStore)
      requires Valid()
      modifies this, registry
      ensures Valid()
      ensures trace == old(trace) + TagSteps(store)
      ensures registry.drivers == TagTable(old(registry.drivers), store)
      ensures registry.calls == old(registry.calls) + TagCalls(old(registry.drivers), store)
      ensures registry.events == old(registry.events)
    {
      if store.loadError.Some? {
        trace := trace + Abort(store.loadError.value);
      } else {
        RunTags(store);
      }
    }

    /** Tag load up to tag start, when the tag store loads. */
    method RunTags(store: TagStore)
      requires Valid() && store.loadError.None?
      modifies this, registry
      ensures Valid()
      ensures trace == old(trace) + TagSteps(store)
      ensures registry.drivers == TagTable(old(registry.drivers), store)
      ensures registry.calls == old(registry.calls) + TagCalls(old(registry.drivers), store)
      ensures registry.events == old(registry.events)
    {
      ghost var trace0 := trace;
      AppendAssociates(registry.calls, RegisterCalls(registry.drivers, store.tags), StartCalls(registry.drivers.keys));
      SubscribeAndStart(store.tags);
      var last := if store.startError.Some? then Abort(store.startError.value) else [TagsStarted];
      trace := trace + last;
      AppendAssociates(trace0, StartedSteps(store.tags), last);
    }

    /** Tag load up to driver start. */
    method SubscribeAndStart(tags: seq<Tag>)
      requires Valid()
      modifies this, registry
      ensures Valid()
      ensures trace == old(trace) + StartedSteps(tags)
      ensures registry.drivers == SubscribeTags(old(registry.drivers), tags)
      ensures registry.calls == old(registry.calls) + RegisterCalls(old(registry.drivers), tags) + StartCalls(old(registry.drivers).keys)
      ensures registry.events == old(registry.events)
    {
      ghost var trace0 := trace;
      trace := trace + [TagsLoaded, TagChangedListener];
      SubscribeAll(tags);
      trace := trace + [DriverValueListener];
      registry.Start();
      trace := trace + [DriversStarted];
      ghost var front := [TagsLoaded, TagChangedListener];
      AppendAssociates(trace0, front, SubscribeSteps(tags));
      AppendAssociates(trace0, front + SubscribeSteps(tags), [DriverValueListener]);
      AppendAssociates(trace0, front + SubscribeSteps(tags) + [DriverValueListener], [DriversStarted]);
    }

    /** The loop of `load` over the tags: `subscribe` for every tag with a
        driver binding, in order. */
    method SubscribeAll(tags: seq<Tag>)
      requires Valid()
      modifies this, registry
      ensures Valid()
      ensures registry.drivers == SubscribeTags(old(registry.drivers), tags)
      ensures trace == old(trace) + SubscribeSteps(tags)
      ensures registry.calls == old(registry.calls) + RegisterCalls(old(registry.drivers), tags)
      ensures registry.events == old(registry.events)
    {
      ghost var loaded := registry.drivers;
      var i := 0;
      while i < |tags|
        invariant 0 <= i <= |tags|
        invariant registry.Valid()
        invariant registry.drivers == SubscribeTags(loaded, tags[..i])
        invariant trace == old(trace) + SubscribeSteps(tags[..i])
        invariant registry.calls == old(registry.calls) + RegisterCalls(loaded, tags[..i])
        invariant registry.events == old(registry.events)
      {
        assert tags[..i + 1][..i] == tags[..i];
        var tag := tags[i];
        if tag.driverinfo.Some? {
          assert Accepts(registry.drivers, tag.driverinfo.value) == Accepts(loaded, tag.driverinfo.value);
          AppendAssociates(old(registry.calls), RegisterCalls(loaded, tags[..i]),
                           if Accepts(loaded, tag.driverinfo.value) then [RegisterCall(tag.driverinfo.value.id.value, tag.driverinfo.value.item)] else []);
          AppendAssociates(old(trace), SubscribeSteps(tags[..i]), [Subscribed(tag.id, tag.driverinfo.value)]);
          registry.Subscribe(tag.id, tag.driverinfo.value);
          trace := trace + [Subscribed(tag.id, tag.driverinfo.value)];
        }
        i := i + 1;
      }
      assert tags[..|tags|] == tags;
    }

    /** The `tagChanged` listener: forwards to `clientdb.tagChanged(id, data)`
        once, with the arguments unchanged. */
    method OnTagChanged(id: string, data: Value)
      modifies this
      ensures trace == old(trace) + [ClientTagChanged(id, data)]
    {
      trace := trace + [ClientTagChanged(id, data)];
    }

    /** Delivery of one `drivervalue` event to the listener with its
        parameters in emission order. */
    method OnDriverValue(e: DriverValue)
      modifies this
      ensures trace == old(trace) + ForEachSetValue(TagValues(e.tags), e.value)
    {
      var steps := Listener(EmittedArguments(e));
      trace := trace + steps.value;
    }
  }
}
