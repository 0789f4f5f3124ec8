/** The driver registry (vytronics/driverdb.js): the table of loaded drivers,
    each driver's item-to-tag subscription lists, starting the drivers,
    forwarding writes, and turning a plugin's item value into a `drivervalue`
    event that carries the item's subscribers. */
module DriverDb {
  import opened Js

  /** One entry of the `drivers` object of project.json: `{uri, config}`. */
  datatype DriverInfo = DriverInfo(uri: Option<string>, config: Value)

  /** The own keys of the `drivers` object with their entries, in the order
      `for ... in` enumerates them. */
  type DriverConfig = seq<(string, DriverInfo)>

  /** The `driverinfo` of a tag: `{id, item}`; either property may be missing. */
  datatype DriverRef = DriverRef(id: Option<string>, item: Option<string>)

  /** What `require(path).create(config)` returned. The plugin's own behaviour
      is not part of the core: the object is identified by what made it. */
  datatype Plugin = Plugin(path: string, config: Value)

  /** `new Driver(id, info)`: the id, the uri it was created from, the plugin
      object, and `items`, the subscriber list of each registered item. */
  datatype Driver = Driver(id: string, uri: string, plugin: Plugin, items: map<string, seq<string>>)

  /** A call the registry makes into a plugin object. */
  datatype PluginCall =
    | RegisterCall(driver: string, item: Option<string>)
    | StartCall(driver: string)
    | WriteCall(driver: string, item: Option<string>, value: Value)

  /** The arguments of `emitter.emit("drivervalue", id, item, tags, value)`,
      in emission order. */
  datatype DriverValue = DriverValue(driverId: string, item: string, tags: seq<string>, value: Value)

  /** A built-in driver: its reserved id and its reserved uri. */
  datatype Builtin = Builtin(id: string, uri: string)

  const SimId := "sim"
  const SimUri := "simdriver"

  /** The drivers every load installs first, whatever the project says. */
  const Builtins: seq<Builtin> := [Builtin(SimId, SimUri)]

  /** The exception `new Driver` throws for an entry without a uri. */
  const MissingUri := Error("Driver missing 'uri' property.")

  /** The TypeError of `drivers[id].driverObj` when no driver has that id. */
  const UndefinedDriver := TypeError("Cannot read property 'driverObj' of undefined")

  function BuiltinIds(bs: seq<Builtin>): (ids: seq<string>)
    ensures |ids| == |bs| && forall k :: 0 <= k < |bs| ==> ids[k] == bs[k].id
  {
    if bs == [] then [] else [bs[0].id] + BuiltinIds(bs[1..])
  }

  predicate IsBuiltinId(id: string)
  {
    exists m :: 0 <= m < |Builtins| && Builtins[m].id == id
  }

  predicate IsBuiltinUri(uri: string)
  {
    exists m :: 0 <= m < |Builtins| && Builtins[m].uri == uri
  }

  /** A configured entry is skipped when its uri is the uri of a built-in
      driver or its key is the id of one. */
  predicate Collides(b: Builtin, key: string, info: DriverInfo)
  {
    info.uri == Some(b.uri) || b.id == key
  }

  predicate Reserved(key: string, info: DriverInfo)
  {
    exists m :: 0 <= m < |Builtins| && Collides(Builtins[m], key, info)
  }

  /** Where a driver's plugin module is loaded from: the built-in module
      `./vytronics/<uri>.js` when that file exists, otherwise `<uri>` inside the
      project directory. `files` is what `fs.existsSync` reports. */
  function PluginPath(uri: string, projectDir: string, files: set<string>): (path: string)
    ensures "./vytronics/" + uri + ".js" in files ==> path == "./vytronics/" + uri + ".js"
    ensures "./vytronics/" + uri + ".js" !in files ==> path == projectDir + "/" + uri
  {
    var builtin := "./vytronics/" + uri + ".js";
    if builtin in files then builtin else projectDir + "/" + uri
  }

  /** `new Driver(id, info)`: throws when the entry has no uri, and otherwise
      yields a driver with no subscriptions whose plugin comes from the chosen
      path and gets the entry's config. */
  function NewDriver(id: string, info: DriverInfo, projectDir: string, files: set<string>): (r: Result<Driver, Exception>)
    ensures r.Err? <==> info.uri.None?
    ensures r.Err? ==> r.error == MissingUri
    ensures r.Ok? ==> r.value.id == id && r.value.uri == info.uri.value && r.value.items == map[]
    ensures r.Ok? ==> r.value.plugin == Plugin(PluginPath(info.uri.value, projectDir, files), info.config)
  {
    match info.uri
    case None => Err(MissingUri)
    case Some(uri) => Ok(Driver(id, uri, Plugin(PluginPath(uri, projectDir, files), info.config), map[]))
  }

  /** The `drivers` object: its own keys in insertion order, and their values. */
  datatype Table = Table(keys: seq<string>, entries: map<string, Driver>)

  const Empty := Table([], map[])

  predicate Distinct(s: seq<string>)
  {
    forall a, b :: 0 <= a < b < |s| ==> s[a] != s[b]
  }

  /** The registry's invariant: each loaded id once, in key order; an entry is
      stored under its own id; no configured driver uses a built-in uri; every
      subscriber list is non-empty; and a loaded table starts with the built-in
      drivers, each with its own uri. */
  ghost predicate TableValid(t: Table)
  {
    && Distinct(t.keys)
    && (forall id :: id in t.entries <==> id in t.keys)
    && (forall id :: id in t.entries ==> t.entries[id].id == id)
    && (forall id :: id in t.entries && !IsBuiltinId(id) ==> !IsBuiltinUri(t.entries[id].uri))
    && (forall id, key :: id in t.entries && key in t.entries[id].items ==> t.entries[id].items[key] != [])
    && (t.keys != [] ==> BuiltinsFirst(t))
  }

  ghost predicate BuiltinsFirst(t: Table)
  {
    && |Builtins| <= |t.keys|
    && t.keys[..|Builtins|] == BuiltinIds(Builtins)
    && forall m :: 0 <= m < |Builtins| ==> Builtins[m].id in t.entries && t.entries[Builtins[m].id].uri == Builtins[m].uri
  }

  /** `drivers[d.id] = d`: a new key goes to the end, an existing key keeps
      its place. */
  function Put(t: Table, d: Driver): Table
  {
    Table(if d.id in t.entries then t.keys else t.keys + [d.id], t.entries[d.id := d])
  }

  /** The first loop of `load`: one `new Driver` per built-in, in order. */
  function InstallBuiltins(t: Table, bs: seq<Builtin>, projectDir: string, files: set<string>): Table
    decreases |bs|
  {
    if bs == [] then t
    else
      var d := NewDriver(bs[0].id, DriverInfo(Some(bs[0].uri), Undefined), projectDir, files).value;
      InstallBuiltins(Put(t, d), bs[1..], projectDir, files)
  }

  datatype LoadOutcome = LoadOutcome(table: Table, error: Option<Exception>)

  /** The second loop of `load`: skip reserved entries, install the others
      under their keys, and stop at the first `new Driver` that throws; what
      was installed before it stays installed. */
  function InstallConfigured(t: Table, cfg: DriverConfig, projectDir: string, files: set<string>): LoadOutcome
    decreases |cfg|
  {
    if cfg == [] then LoadOutcome(t, None)
    else if Reserved(cfg[0].0, cfg[0].1) then InstallConfigured(t, cfg[1..], projectDir, files)
    else
      match NewDriver(cfg[0].0, cfg[0].1, projectDir, files)
      case Err(e) => LoadOutcome(t, Some(e))
      case Ok(d) => InstallConfigured(Put(t, d), cfg[1..], projectDir, files)
  }

  /** `load(json)`, with `json === undefined` as `None`. */
  function LoadTable(t: Table, json: Option<DriverConfig>, projectDir: string, files: set<string>): LoadOutcome
  {
    var withBuiltins := InstallBuiltins(t, Builtins, projectDir, files);
    match json
    case None => LoadOutcome(withBuiltins, None)
    case Some(cfg) => InstallConfigured(withBuiltins, cfg, projectDir, files)
  }

  lemma PutConfiguredValid(t: Table, key: string, info: DriverInfo, projectDir: string, files: set<string>)
    requires TableValid(t) && t.keys != []
    requires !Reserved(key, info) && info.uri.Some?
    ensures TableValid(Put(t, NewDriver(key, info, projectDir, files).value))
  {
    var d := NewDriver(key, info, projectDir, files).value;
    var r := Put(t, d);
    assert !IsBuiltinId(key) && !IsBuiltinUri(d.uri);
    if key !in t.entries {
      assert r.keys[..|Builtins|] == t.keys[..|Builtins|];
      assert forall a :: 0 <= a < |t.keys| ==> r.keys[a] == t.keys[a];
    }
  }

  lemma {:induction false} InstallConfiguredValid(t: Table, cfg: DriverConfig, projectDir: string, files: set<string>)
    requires TableValid(t) && t.keys != []
    ensures var r := InstallConfigured(t, cfg, projectDir, files).table;
      TableValid(r) && |t.keys| <= |r.keys| && r.keys[..|t.keys|] == t.keys
    decreases |cfg|
  {
    InstallConfiguredExtends(t, cfg, projectDir, files);
    if cfg != [] && !Reserved(cfg[0].0, cfg[0].1) && cfg[0].1.uri.Some? {
      PutConfiguredValid(t, cfg[0].0, cfg[0].1, projectDir, files);
      InstallConfiguredValid(Put(t, NewDriver(cfg[0].0, cfg[0].1, projectDir, files).value), cfg[1..], projectDir, files);
    } else if cfg != [] && Reserved(cfg[0].0, cfg[0].1) {
      InstallConfiguredValid(t, cfg[1..], projectDir, files);
    }
  }

  /** The configured-driver loop only adds keys at the end. */
  lemma {:induction false} InstallConfiguredExtends(t: Table, cfg: DriverConfig, projectDir: string, files: set<string>)
    ensures var r := InstallConfigured(t, cfg, projectDir, files).table;
      |t.keys| <= |r.keys| && r.keys[..|t.keys|] == t.keys
    decreases |cfg|
  {
    if cfg != [] && !Reserved(cfg[0].0, cfg[0].1) && cfg[0].1.uri.Some? {
      var t' := Put(t, NewDriver(cfg[0].0, cfg[0].1, projectDir, files).value);
      InstallConfiguredExtends(t', cfg[1..], projectDir, files);
      var r := InstallConfigured(t', cfg[1..], projectDir, files).table;
      assert t'.keys[..|t.keys|] == t.keys;
      assert r.keys[..|t.keys|] == r.keys[..|t'.keys|][..|t.keys|];
    } else if cfg != [] && Reserved(cfg[0].0, cfg[0].1) {
      InstallConfiguredExtends(t, cfg[1..], projectDir, files);
    } else {
      assert t.keys[..|t.keys|] == t.keys;
    }
  }

  /** Installing the built-ins into a valid table gives a valid, non-empty
      table that starts with them. */
  lemma InstallBuiltinsValid(t: Table, projectDir: string, files: set<string>)
    requires TableValid(t)
    ensures var r := InstallBuiltins(t, Builtins, projectDir, files);
      TableValid(r) && r.keys != [] && (t.keys != [] ==> r.keys == t.keys)
  {
    var d := NewDriver(SimId, DriverInfo(Some(SimUri), Undefined), projectDir, files).value;
    assert Builtins[1..] == [];
    assert InstallBuiltins(t, Builtins, projectDir, files) == Put(t, d);
    if t.keys == [] {
      PutSimIntoEmpty(t, d);
    } else {
      PutSimAgain(t, d);
    }
  }

  lemma PutSimIntoEmpty(t: Table, d: Driver)
    requires TableValid(t) && t.keys == []
    requires d.id == SimId && d.uri == SimUri && d.items == map[]
    ensures TableValid(Put(t, d)) && Put(t, d).keys == [SimId]
  {
    assert t.entries == map[];
    assert BuiltinIds(Builtins) == [SimId];
  }

  lemma PutSimAgain(t: Table, d: Driver)
    requires TableValid(t) && t.keys != []
    requires d.id == SimId && d.uri == SimUri && d.items == map[]
    ensures TableValid(Put(t, d)) && Put(t, d).keys == t.keys
  {
    assert BuiltinIds(Builtins) == [SimId];
    assert t.keys[0] == SimId;
    assert SimId in t.entries;
  }

  /** Whatever the project configures, and even when loading fails, the
      registry is valid afterwards and starts with the built-in drivers, each
      under its reserved id and with its reserved uri. */
  lemma LoadKeepsBuiltins(t: Table, json: Option<DriverConfig>, projectDir: string, files: set<string>)
    requires TableValid(t)
    ensures var r := LoadTable(t, json, projectDir, files).table;
      && TableValid(r)
      && |Builtins| <= |r.keys| && r.keys[..|Builtins|] == BuiltinIds(Builtins)
      && forall m :: 0 <= m < |Builtins| ==> r.entries[Builtins[m].id].uri == Builtins[m].uri
  {
    InstallBuiltinsValid(t, projectDir, files);
    if json.Some? {
      InstallConfiguredValid(InstallBuiltins(t, Builtins, projectDir, files), json.value, projectDir, files);
    }
  }

  predicate DistinctKeys(cfg: DriverConfig)
  {
    forall a, b :: 0 <= a < b < |cfg| ==> cfg[a].0 != cfg[b].0
  }

  /** Whether some configured entry is not reserved and has no uri. */
  predicate LacksUri(cfg: DriverConfig, i: int)
  {
    0 <= i < |cfg| && !Reserved(cfg[i].0, cfg[i].1) && cfg[i].1.uri.None?
  }

  /** Loading the configured drivers fails exactly when an entry that is not
      reserved has no uri, and then with the missing-uri error; a reserved
      entry without a uri is skipped, not an error. */
  lemma {:induction false} InstallConfiguredFails(t: Table, cfg: DriverConfig, projectDir: string, files: set<string>)
    ensures var r := InstallConfigured(t, cfg, projectDir, files);
      && (r.error.Some? <==> exists i :: LacksUri(cfg, i))
      && (r.error.Some? ==> r.error.value == MissingUri)
    decreases |cfg|
  {
    if cfg != [] {
      var rest := cfg[1..];
      assert forall i :: LacksUri(rest, i) ==> LacksUri(cfg, i + 1);
      assert forall i :: 0 < i && LacksUri(cfg, i) ==> LacksUri(rest, i - 1);
      if Reserved(cfg[0].0, cfg[0].1) {
        InstallConfiguredFails(t, rest, projectDir, files);
        assert !LacksUri(cfg, 0);
      } else if cfg[0].1.uri.Some? {
        InstallConfiguredFails(Put(t, NewDriver(cfg[0].0, cfg[0].1, projectDir, files).value), rest, projectDir, files);
        assert !LacksUri(cfg, 0);
      } else {
        assert LacksUri(cfg, 0);
      }
    }
  }

  /** Whether entry `i` of the configuration is installed rather than skipped. */
  predicate Installs(cfg: DriverConfig, i: int)
  {
    0 <= i < |cfg| && !Reserved(cfg[i].0, cfg[i].1)
  }

  /** When loading the configured drivers succeeds, every entry that is not
      reserved is installed under its own key as `new Driver(key, entry)`, no
      other key is added, and a driver no entry installs is left as it was. */
  lemma {:induction false} InstallConfiguredEntries(t: Table, cfg: DriverConfig, projectDir: string, files: set<string>)
    requires DistinctKeys(cfg)
    requires InstallConfigured(t, cfg, projectDir, files).error.None?
    ensures var r := InstallConfigured(t, cfg, projectDir, files).table;
      && (forall i :: Installs(cfg, i) ==>
            cfg[i].0 in r.entries && Ok(r.entries[cfg[i].0]) == NewDriver(cfg[i].0, cfg[i].1, projectDir, files))
      && (forall id :: id in r.entries ==> id in t.entries || exists i :: Installs(cfg, i) && cfg[i].0 == id)
      && (forall id :: id in t.entries && (forall i :: Installs(cfg, i) ==> cfg[i].0 != id) ==>
            id in r.entries && r.entries[id] == t.entries[id])
    decreases |cfg|
  {
    if cfg != [] {
      var rest := cfg[1..];
      assert DistinctKeys(rest);
      forall i | 0 <= i ensures Installs(rest, i) <==> Installs(cfg, i + 1) {
        if 0 <= i < |rest| { assert rest[i] == cfg[i + 1]; }
      }
      assert forall i :: Installs(rest, i) ==> rest[i] == cfg[i + 1];
      if Reserved(cfg[0].0, cfg[0].1) {
        InstallConfiguredEntries(t, rest, projectDir, files);
        assert !Installs(cfg, 0);
        var r := InstallConfigured(t, cfg, projectDir, files).table;
        forall id | id in r.entries
          ensures id in t.entries || exists i :: Installs(cfg, i) && cfg[i].0 == id
        {
          if id !in t.entries {
            var i :| Installs(rest, i) && rest[i].0 == id;
            assert Installs(cfg, i + 1) && cfg[i + 1].0 == id;
          }
        }
        forall i | Installs(cfg, i)
          ensures cfg[i].0 in r.entries && Ok(r.entries[cfg[i].0]) == NewDriver(cfg[i].0, cfg[i].1, projectDir, files)
        {
          assert Installs(rest, i - 1);
        }
      } else {
        var d := NewDriver(cfg[0].0, cfg[0].1, projectDir, files).value;
        var t' := Put(t, d);
        InstallConfiguredEntries(t', rest, projectDir, files);
        var r := InstallConfigured(t, cfg, projectDir, files).table;
        assert r == InstallConfigured(t', rest, projectDir, files).table;
        assert Installs(cfg, 0);
        assert forall i :: Installs(rest, i) ==> rest[i].0 != cfg[0].0;
        forall id | id in r.entries
          ensures id in t.entries || exists i :: Installs(cfg, i) && cfg[i].0 == id
        {
          if id !in t'.entries {
            var i :| Installs(rest, i) && rest[i].0 == id;
            assert Installs(cfg, i + 1) && cfg[i + 1].0 == id;
          }
        }
        forall i | Installs(cfg, i)
          ensures cfg[i].0 in r.entries && Ok(r.entries[cfg[i].0]) == NewDriver(cfg[i].0, cfg[i].1, projectDir, files)
        {
          if i > 0 {
            assert Installs(rest, i - 1);
          }
        }
        forall id | id in t.entries && (forall i :: Installs(cfg, i) ==> cfg[i].0 != id)
          ensures id in r.entries && r.entries[id] == t.entries[id]
        {
          assert cfg[0].0 != id;
          forall i | Installs(rest, i) ensures rest[i].0 != id {
            assert Installs(cfg, i + 1);
          }
        }
      }
    }
  }

  /** The configured entries a fresh load installs never use the built-in
      id. */
  lemma InstalledNotSim(cfg: DriverConfig)
    ensures forall i :: Installs(cfg, i) ==> cfg[i].0 != SimId
  {
    forall i | Installs(cfg, i) ensures cfg[i].0 != SimId {
      assert !Collides(Builtins[0], cfg[i].0, cfg[i].1);
    }
  }

  /** A fresh registry holds just `sim` after the built-in loop. */
  lemma FreshBuiltins(projectDir: string, files: set<string>)
    ensures var sim := NewDriver(SimId, DriverInfo(Some(SimUri), Undefined), projectDir, files);
      && sim.Ok?
      && InstallBuiltins(Empty, Builtins, projectDir, files) == Table([SimId], map[SimId := sim.value])
  {
    var sim := NewDriver(SimId, DriverInfo(Some(SimUri), Undefined), projectDir, files).value;
    assert Builtins[1..] == [] && Builtins[0] == Builtin(SimId, SimUri);
    assert InstallBuiltins(Empty, Builtins, projectDir, files) == InstallBuiltins(Put(Empty, sim), Builtins[1..], projectDir, files);
  }

  /** The keys of the entries that are not reserved, in configuration order. */
  function InstalledKeys(cfg: DriverConfig): (ks: seq<string>)
    ensures forall x :: x in ks <==> exists i :: Installs(cfg, i) && cfg[i].0 == x
    decreases |cfg|
  {
    if cfg == [] then []
    else
      var rest := InstalledKeys(cfg[1..]);
      assert forall i :: Installs(cfg[1..], i) <==> Installs(cfg, i + 1) && 0 <= i;
      assert forall i :: 0 < i < |cfg| ==> cfg[1..][i - 1] == cfg[i];
      (if Reserved(cfg[0].0, cfg[0].1) then [] else [cfg[0].0]) + rest
  }

  /** When the configured keys are new to the table and loading succeeds, each
      installed entry's key is appended once, in configuration order. */
  lemma {:induction false} InstallConfiguredKeys(t: Table, cfg: DriverConfig, projectDir: string, files: set<string>)
    requires DistinctKeys(cfg)
    requires forall i :: Installs(cfg, i) ==> cfg[i].0 !in t.entries
    requires InstallConfigured(t, cfg, projectDir, files).error.None?
    ensures InstallConfigured(t, cfg, projectDir, files).table.keys == t.keys + InstalledKeys(cfg)
    decreases |cfg|
  {
    if cfg == [] {
      assert t.keys + [] == t.keys;
    } else {
      var rest := cfg[1..];
      assert DistinctKeys(rest);
      if Reserved(cfg[0].0, cfg[0].1) {
        assert InstallConfigured(t, cfg, projectDir, files) == InstallConfigured(t, rest, projectDir, files);
        ShiftedInstalls(t, t, cfg);
        InstallConfiguredKeys(t, rest, projectDir, files);
        assert InstalledKeys(rest) == InstalledKeys(cfg);
      } else {
        InstallFirst(t, cfg, projectDir, files);
        var t' := Put(t, NewDriver(cfg[0].0, cfg[0].1, projectDir, files).value);
        ShiftedInstalls(t, t', cfg);
        InstallConfiguredKeys(t', rest, projectDir, files);
        KeysAfterFirst(t, cfg, projectDir, files);
      }
    }
  }

  /** Installing a first entry that is not reserved and whose key is new
      appends its key and goes on with the rest. */
  lemma InstallFirst(t: Table, cfg: DriverConfig, projectDir: string, files: set<string>)
    requires cfg != [] && !Reserved(cfg[0].0, cfg[0].1) && cfg[0].0 !in t.entries
    requires InstallConfigured(t, cfg, projectDir, files).error.None?
    ensures NewDriver(cfg[0].0, cfg[0].1, projectDir, files).Ok?
    ensures var t' := Put(t, NewDriver(cfg[0].0, cfg[0].1, projectDir, files).value);
      && InstallConfigured(t, cfg, projectDir, files) == InstallConfigured(t', cfg[1..], projectDir, files)
      && t'.keys == t.keys + [cfg[0].0]
      && t'.entries.Keys == t.entries.Keys + {cfg[0].0}
  {
  }

  /** The induction step of `InstallConfiguredKeys` for an installed first
      entry. */
  lemma KeysAfterFirst(t: Table, cfg: DriverConfig, projectDir: string, files: set<string>)
    requires cfg != [] && !Reserved(cfg[0].0, cfg[0].1) && cfg[0].0 !in t.entries
    requires InstallConfigured(t, cfg, projectDir, files).error.None?
    requires NewDriver(cfg[0].0, cfg[0].1, projectDir, files).Ok?
    requires var t' := Put(t, NewDriver(cfg[0].0, cfg[0].1, projectDir, files).value);
      InstallConfigured(t', cfg[1..], projectDir, files).table.keys == t'.keys + InstalledKeys(cfg[1..])
    ensures InstallConfigured(t, cfg, projectDir, files).table.keys == t.keys + InstalledKeys(cfg)
  {
    InstallFirst(t, cfg, projectDir, files);
    assert InstalledKeys(cfg) == [cfg[0].0] + InstalledKeys(cfg[1..]);
    assert t.keys + [cfg[0].0] + InstalledKeys(cfg[1..]) == t.keys + ([cfg[0].0] + InstalledKeys(cfg[1..]));
  }

  /** The freshness requirement of `InstallConfiguredKeys` passes to the rest
      of the configuration, for a table that gained at most the first key. */
  lemma ShiftedInstalls(t: Table, t': Table, cfg: DriverConfig)
    requires cfg != [] && DistinctKeys(cfg)
    requires forall i :: Installs(cfg, i) ==> cfg[i].0 !in t.entries
    requires t'.entries.Keys <= t.entries.Keys + {cfg[0].0}
    ensures forall i :: Installs(cfg[1..], i) ==> cfg[1..][i].0 !in t'.entries
  {
    forall i | Installs(cfg[1..], i) ensures cfg[1..][i].0 !in t'.entries {
      assert Installs(cfg, i + 1) && cfg[1..][i] == cfg[i + 1];
    }
  }

  /** Loading a project's drivers into a fresh registry: when it succeeds, the
      keys are `sim` followed by the keys of the entries that are not reserved,
      in configuration order; the loaded ids are exactly those; each such entry
      is installed under its key; and each built-in driver is the one the
      registry created, not a configured one. */
  lemma LoadFresh(cfg: DriverConfig, projectDir: string, files: set<string>)
    requires DistinctKeys(cfg)
    requires LoadTable(Empty, Some(cfg), projectDir, files).error.None?
    ensures var r := LoadTable(Empty, Some(cfg), projectDir, files).table;
      && r.keys == [SimId] + InstalledKeys(cfg)
      && (forall id :: id in r.entries <==> IsBuiltinId(id) || exists i :: Installs(cfg, i) && cfg[i].0 == id)
      && (forall i :: Installs(cfg, i) ==>
            Ok(r.entries[cfg[i].0]) == NewDriver(cfg[i].0, cfg[i].1, projectDir, files))
      && (forall m :: 0 <= m < |Builtins| ==>
            Ok(r.entries[Builtins[m].id]) == NewDriver(Builtins[m].id, DriverInfo(Some(Builtins[m].uri), Undefined), projectDir, files))
  {
    FreshBuiltins(projectDir, files);
    var b := InstallBuiltins(Empty, Builtins, projectDir, files);
    assert b.entries.Keys == {SimId};
    assert IsBuiltinId(SimId);
    InstallConfiguredEntries(b, cfg, projectDir, files);
    InstalledNotSim(cfg);
    LoadFreshKeys(cfg, projectDir, files);
  }

  /** The configuration `{drivers: {plc1: {uri: "sim"}}}` is installed under
      `plc1`: `sim` is the id of the built-in driver, and its uri is
      `simdriver`, so only an entry keyed `sim` or with uri `simdriver` is
      skipped. */
  lemma SimAsUriIsInstalled()
    ensures var cfg := [("plc1", DriverInfo(Some("sim"), Undefined))];
      && Installs(cfg, 0) && InstalledKeys(cfg) == ["plc1"]
      && Reserved("plc1", DriverInfo(Some("simdriver"), Undefined))
      && Reserved("sim", DriverInfo(Some("sim"), Undefined))
  {
    assert Collides(Builtins[0], "plc1", DriverInfo(Some("simdriver"), Undefined));
    assert Collides(Builtins[0], "sim", DriverInfo(Some("sim"), Undefined));
  }

  lemma LoadFreshKeys(cfg: DriverConfig, projectDir: string, files: set<string>)
    requires DistinctKeys(cfg)
    requires LoadTable(Empty, Some(cfg), projectDir, files).error.None?
    ensures LoadTable(Empty, Some(cfg), projectDir, files).table.keys == [SimId] + InstalledKeys(cfg)
  {
    FreshBuiltins(projectDir, files);
    var b := InstallBuiltins(Empty, Builtins, projectDir, files);
    InstalledNotSim(cfg);
    InstallConfiguredKeys(b, cfg, projectDir, files);
  }

  /** `subscribe` goes ahead only when `driverInfo.id` is truthy and is the
      id of a loaded driver. */
  predicate Accepts(t: Table, ref: DriverRef)
  {
    TruthyText(ref.id) && ref.id.value in t.entries
  }

  /** `if (!items[item]) items[item] = []; items[item].push(tagid)` */
  function AddSubscriber(items: map<string, seq<string>>, key: string, tagid: string): (r: map<string, seq<string>>)
    ensures r.Keys == items.Keys + {key}
    ensures key in items ==> r[key] == items[key] + [tagid]
    ensures key !in items ==> r[key] == [tagid]
    ensures forall k :: k in items && k != key ==> r[k] == items[k]
  {
    items[key := (if key in items then items[key] else []) + [tagid]]
  }

  /** The table after `subscribe(tagid, driverInfo)`. A rejected request
      changes nothing; an accepted one appends the tag to the item's list of
      the named driver, and touches no other item and no other driver. */
  function SubscribeTable(t: Table, tagid: string, ref: DriverRef): (r: Table)
    ensures !Accepts(t, ref) ==> r == t
    ensures r.keys == t.keys && r.entries.Keys == t.entries.Keys
    ensures Accepts(t, ref) ==>
      var d, d' := t.entries[ref.id.value], r.entries[ref.id.value];
      && d'.id == d.id && d'.uri == d.uri && d'.plugin == d.plugin
      && d'.items == AddSubscriber(d.items, PropertyKey(ref.item), tagid)
    ensures forall id :: id in t.entries && (!Accepts(t, ref) || id != ref.id.value) ==> r.entries[id] == t.entries[id]
    ensures TableValid(t) ==> TableValid(r)
  {
    if !Accepts(t, ref) then t
    else
      var id := ref.id.value;
      var d := t.entries[id];
      Table(t.keys, t.entries[id := d.(items := AddSubscriber(d.items, PropertyKey(ref.item), tagid))])
  }

  /** The subscribers the registry holds for an item of a driver. */
  function Subscribers(t: Table, id: string, key: string): seq<string>
  {
    if id in t.entries && key in t.entries[id].items then t.entries[id].items[key] else []
  }

  /** `subscribe` of each tag in turn, all with the same driver info. */
  function SubscribeEach(t: Table, tagids: seq<string>, ref: DriverRef): Table
    decreases |tagids|
  {
    if tagids == [] then t
    else SubscribeEach(SubscribeTable(t, tagids[0], ref), tagids[1..], ref)
  }

  /** Subscribing keeps the order in which the tags subscribed and removes no
      duplicates: the item's list grows by exactly the tags subscribed. */
  lemma {:induction false} SubscribeEachAppends(t: Table, tagids: seq<string>, ref: DriverRef)
    requires Accepts(t, ref)
    ensures Subscribers(SubscribeEach(t, tagids, ref), ref.id.value, PropertyKey(ref.item))
         == Subscribers(t, ref.id.value, PropertyKey(ref.item)) + tagids
    decreases |tagids|
  {
    var id, key := ref.id.value, PropertyKey(ref.item);
    if tagids == [] {
      assert Subscribers(t, id, key) + [] == Subscribers(t, id, key);
    } else {
      var t' := SubscribeTable(t, tagids[0], ref);
      assert Subscribers(t', id, key) == Subscribers(t, id, key) + [tagids[0]];
      SubscribeEachAppends(t', tagids[1..], ref);
      assert [tagids[0]] + tagids[1..] == tagids;
    }
  }

  /** The same tag subscribed twice to the same item is listed twice. */
  lemma SubscribeTwice(t: Table, tagid: string, ref: DriverRef)
    requires Accepts(t, ref)
    ensures var r := SubscribeTable(SubscribeTable(t, tagid, ref), tagid, ref);
      Subscribers(r, ref.id.value, PropertyKey(ref.item))
        == Subscribers(t, ref.id.value, PropertyKey(ref.item)) + [tagid, tagid]
  {
    SubscribeEachAppends(t, [tagid, tagid], ref);
    assert [tagid, tagid][1..] == [tagid];
    assert [tagid][1..] == [];
  }

  /** `procItemValues(item, value)`: no event for an item without a list,
      otherwise one `drivervalue` event with the driver's id, the item, the
      whole list and the value. */
  function Notify(d: Driver, item: string, value: Value): (r: Option<DriverValue>)
    ensures r.None? <==> item !in d.items
    ensures r.Some? ==> r.value == DriverValue(d.id, item, d.items[item], value)
  {
    if item in d.items then Some(DriverValue(d.id, item, d.items[item], value)) else None
  }

  /** In a valid table every event that is emitted names at least one tag. */
  lemma NotifyNamesTags(t: Table, id: string, item: string, value: Value)
    requires TableValid(t) && id in t.entries
    ensures var e := Notify(t.entries[id], item, value);
      e.Some? ==> e.value.tags != [] && e.value.driverId == id
  {
  }

  /** After a tag subscribes to an item, a value for that item reaches the
      tag: the event lists every earlier subscriber and then the new tag. */
  lemma SubscribeThenNotify(t: Table, tagid: string, ref: DriverRef, value: Value)
    requires TableValid(t) && Accepts(t, ref)
    ensures var id, key := ref.id.value, PropertyKey(ref.item);
      var r := SubscribeTable(t, tagid, ref);
      Notify(r.entries[id], key, value) == Some(DriverValue(id, key, Subscribers(t, id, key) + [tagid], value))
  {
  }

  /** What `start` asks of the plugins: `start()` of each driver in order. */
  function StartCalls(ids: seq<string>): (r: seq<PluginCall>)
    ensures |r| == |ids| && forall k :: 0 <= k < |ids| ==> r[k] == StartCall(ids[k])
  {
    if ids == [] then [] else StartCalls(ids[..|ids| - 1]) + [StartCall(ids[|ids| - 1])]
  }

  /** Each loaded driver is started exactly once, and nothing else is started. */
  lemma {:induction false} StartEachOnce(ids: seq<string>)
    requires Distinct(ids)
    ensures forall id :: multiset(StartCalls(ids))[StartCall(id)] == if id in ids then 1 else 0
  {
    if ids != [] {
      var front, last := ids[..|ids| - 1], ids[|ids| - 1];
      assert Distinct(front);
      StartEachOnce(front);
      assert ids == front + [last];
      assert last !in front;
      assert multiset(StartCalls(ids)) == multiset(StartCalls(front)) + multiset{StartCall(last)};
    }
  }

  /** The registry of loaded drivers. `projectDir` is where project plugins
      are found, `files` the paths `fs.existsSync` reports, and `reply` what a
      plugin's `write_item` returns. Plugin calls and emitted `drivervalue`
      events are recorded in order. */
  class Registry {
    const projectDir: string
    const files: set<string>
    const reply: (Plugin, Option<string>, Value) -> Value
    var drivers: Table
    ghost var calls: seq<PluginCall>
    ghost var events: seq<DriverValue>

    ghost predicate Valid()
      reads this
    {
      TableValid(drivers)
    }

    constructor (projectDir: string, files: set<string>, reply: (Plugin, Option<string>, Value) -> Value)
      ensures Valid() && drivers == Empty && calls == [] && events == []
      ensures this.projectDir == projectDir && this.files == files && this.reply == reply
    {
      this.projectDir := projectDir;
      this.files := files;
      this.reply := reply;
      drivers := Empty;
      calls := [];
      events := [];
    }

    /** `load(json)`: install the built-in drivers, then every configured
        driver that does not collide with one; the exception of a driver
        without a uri is returned, with the drivers installed before it kept. */
    method Load(json: Option<DriverConfig>) returns (error: Option<Exception>)
      requires Valid()
      modifies this`drivers
      ensures Valid()
      ensures LoadOutcome(drivers, error) == LoadTable(old(drivers), json, projectDir, files)
    {
      LoadKeepsBuiltins(drivers, json, projectDir, files);
      InstallBuiltinDrivers();
      if json.Some? {
        error := InstallConfiguredDrivers(json.value);
      } else {
        error := None;
      }
    }

    /** The first loop of `load`: one `new Driver` per built-in, in order. */
    method InstallBuiltinDrivers()
      modifies this`drivers
      ensures drivers == InstallBuiltins(old(drivers), Builtins, projectDir, files)
    {
      var b := 0;
      while b < |Builtins|
        invariant 0 <= b <= |Builtins|
        invariant InstallBuiltins(drivers, Builtins[b..], projectDir, files)
               == InstallBuiltins(old(drivers), Builtins, projectDir, files)
      {
        var d := NewDriver(Builtins[b].id, DriverInfo(Some(Builtins[b].uri), Undefined), projectDir, files);
        assert Builtins[b..][1..] == Builtins[b + 1..];
        drivers := Put(drivers, d.value);
        b := b + 1;
      }
    }

    /** The second loop of `load`: each configured entry that is not reserved
        is installed, until an entry without a uri throws. */
    method InstallConfiguredDrivers(cfg: DriverConfig) returns (error: Option<Exception>)
      modifies this`drivers
      ensures LoadOutcome(drivers, error) == InstallConfigured(old(drivers), cfg, projectDir, files)
    {
      error := None;
      var i := 0;
      while i < |cfg|
        invariant 0 <= i <= |cfg|
        invariant InstallConfigured(drivers, cfg[i..], projectDir, files) == InstallConfigured(old(drivers), cfg, projectDir, files)
      {
        var key, info := cfg[i].0, cfg[i].1;
        assert cfg[i..][0] == cfg[i] && cfg[i..][1..] == cfg[i + 1..];
        var reserved := IsReserved(key, info);
        if !reserved {
          var d := NewDriver(key, info, projectDir, files);
          if d.Err? {
            error := Some(d.error);
            return;
          }
          drivers := Put(drivers, d.value);
        }
        i := i + 1;
      }
    }

    /** The `builtin.forEach` test of `load`: whether a configured entry uses
        the uri or the id of some built-in driver. */
    static method IsReserved(key: string, info: DriverInfo) returns (reserved: bool)
      ensures reserved <==> Reserved(key, info)
    {
      reserved := false;
      var j := 0;
      while j < |Builtins|
        invariant 0 <= j <= |Builtins|
        invariant reserved <==> exists m :: 0 <= m < j && Collides(Builtins[m], key, info)
      {
        if info.uri == Some(Builtins[j].uri) {
          reserved := true;
        }
        if Builtins[j].id == key {
          reserved := true;
        }
        j := j + 1;
      }
    }

    /** `subscribe(tagid, driverInfo)`: with a falsy or unknown driver id,
        nothing happens; otherwise the plugin is asked to register the item
        once and the tag is appended to the item's list. */
    method Subscribe(tagid: string, ref: DriverRef)
      requires Valid()
      modifies this`drivers, this`calls
      ensures Valid()
      ensures drivers == SubscribeTable(old(drivers), tagid, ref)
      ensures calls == old(calls) + if Accepts(old(drivers), ref) then [RegisterCall(ref.id.value, ref.item)] else []
    {
      if TruthyText(ref.id) && ref.id.value in drivers.entries {
        var id := ref.id.value;
        var d := drivers.entries[id];
        calls := calls + [RegisterCall(id, ref.item)];
        var key := PropertyKey(ref.item);
        var list := [];
        if key in d.items {
          list := d.items[key];
        }
        var items := d.items[key := list + [tagid]];
        drivers := Table(drivers.keys, drivers.entries[id := d.(items := items)]);
      }
    }

    /** `getDrivers()`: the loaded ids, each once, in key order. */
    method GetDrivers() returns (ids: seq<string>)
      requires Valid()
      ensures ids == drivers.keys
      ensures Distinct(ids) && forall id :: id in ids <==> id in drivers.entries
    {
      ids := [];
      var i := 0;
      while i < |drivers.keys|
        invariant 0 <= i <= |drivers.keys|
        invariant ids == drivers.keys[..i]
      {
        var id := drivers.keys[i];
        if id in drivers.entries {
          ids := ids + [id];
        }
        i := i + 1;
      }
    }

    /** `start()`: `start()` of every loaded driver's plugin, in the order of
        `getDrivers()`. */
    method Start()
      requires Valid()
      modifies this`calls
      ensures calls == old(calls) + StartCalls(drivers.keys)
    {
      var ids := GetDrivers();
      var i := 0;
      while i < |ids|
        invariant 0 <= i <= |ids|
        invariant calls == old(calls) + StartCalls(ids[..i])
      {
        assert ids[..i + 1][..i] == ids[..i];
        calls := calls + [StartCall(ids[i])];
        i := i + 1;
      }
      assert ids[..|ids|] == ids;
    }

    /** `write_item(driverinfo, value)`: the named driver's plugin result,
        unchanged; for an unknown id `drivers[id]` is undefined and reading
        `driverObj` of it throws. */
    method WriteItem(ref: DriverRef, value: Value) returns (result: Result<Value, Exception>)
      modifies this`calls
      ensures var key := PropertyKey(ref.id);
        && (key in drivers.entries ==>
              && result == Ok(reply(drivers.entries[key].plugin, ref.item, value))
              && calls == old(calls) + [WriteCall(key, ref.item, value)])
        && (key !in drivers.entries ==> result == Err(UndefinedDriver) && calls == old(calls))
    {
      var key := PropertyKey(ref.id);
      if key !in drivers.entries {
        return Err(UndefinedDriver);
      }
      var d := drivers.entries[key];
      calls := calls + [WriteCall(key, ref.item, value)];
      result := Ok(reply(d.plugin, ref.item, value));
    }

    /** `procItemValues(item, value)` of the driver `id`, the callback of its
        plugin's `itemvalue` events. */
    method ProcItemValues(id: string, item: string, value: Value) returns (emitted: Option<DriverValue>)
      requires Valid() && id in drivers.entries
      modifies this`events
      ensures emitted == Notify(drivers.entries[id], item, value)
      ensures emitted.Some? ==> emitted.value.tags != []
      ensures events == old(events) + if emitted.Some? then [emitted.value] else []
    {
      var d := drivers.entries[id];
      emitted := None;
      if item !in d.items {
        return;
      }
      emitted := Some(DriverValue(d.id, item, d.items[item], value));
      events := events + [emitted.value];
    }
  }
}
