/**
  The configuration migration: a loaded configuration is upgraded through the
  2.0.0, 3.0.0 and 4.0.0 steps its `configVersion` calls for and is stamped
  4.0.0. A step that reads a property of `null`, or maps over a
  `controlledApps` that is not an array, throws a TypeError; that is `Err`.
 */
module Migration {
  import opened Wrappers
  import opened Json
  import opened Versions

  const DefaultVersion: Version := [1, 0, 0]
  const V2: Version := [2, 0, 0]
  const V3: Version := [3, 0, 0]
  const CurrentVersion: Version := [4, 0, 0]

  const DefaultMonitoring: Json := Obj(map["interval" := Num(2500), "enabled" := Bool(true)])
  const DefaultUi: Json := Obj(map["theme" := Str("dark"), "animations" := Bool(true)])

  /** The fields a 2.0.0 migration writes into each group built from an old `apps` entry. */
  const GroupKeys: set<string> := {"name", "enabled", "condition", "monitoredApps", "controlledApps"}

  /** The fields the 3.0.0 step writes into every group. */
  const NormalizedKeys: set<string> := {"enabled", "condition", "monitoredApps", "controlledApps"}

  /** The top-level keys some step may write or delete; every other key passes through. */
  const ManagedKeys: set<string> := {"apps", "appGroups", "monitoring", "ui", "configVersion"}

  /** Why a migration throws. */
  datatype Fault =
    | NullElement              // a property read on a `null` app or group
    | ControlledAppsNotArray   // `group.controlledApps.map` on a value that is not an array

  /**
    A loaded configuration. `configVersion` is the version string's components,
    `None` when the key is missing or falsy; `fields` holds every other
    top-level key. A `"configVersion"` entry in `fields` has no meaning: the
    version slot holds that key.
   */
  datatype Config = Config(configVersion: Option<Version>, fields: map<string, Json>)

  /** `loadedConfig.configVersion || '1.0.0'`. */
  function EffectiveVersion(c: Config): Version {
    match c.configVersion
    case Some(v) => v
    case None => DefaultVersion
  }

  /** `compareVersions(v, w) < 0`. */
  predicate Below(v: Version, w: Version) {
    Compare(v, w) < 0
  }

  // ---- element rewrites ----

  /** 2.0.0: an entry of the old `apps` array becomes a group. */
  function MigrateApp(app: Json): (r: Result<Json, Fault>)
    ensures r.Ok? <==> !app.Null?
    ensures r.Ok? ==> r.value.Obj? && r.value.props.Keys == GroupKeys
  {
    if app.Null? then Err(NullElement)
    else Ok(Obj(map[
      "name" := Or(Get(app, "name"), Str("Migrated Group")),
      "enabled" := Bool(Get(app, "enabled") != Some(Bool(false))),
      "condition" := Str("any"),
      "monitoredApps" := Or(Get(app, "monitoredApps"), Arr([])),
      "controlledApps" := Or(Get(app, "controlledApps"), Arr([]))]))
  }

  /** 3.0.0: a group keeps its other fields and gets the required ones normalised. */
  function NormalizeGroup(group: Json): (r: Result<Json, Fault>)
    ensures r.Ok? <==> !group.Null?
    ensures r.Ok? ==> r.value.Obj? && r.value.props.Keys == Spread(group).Keys + NormalizedKeys
  {
    if group.Null? then Err(NullElement)
    else Ok(Obj(Spread(group)[
      "enabled" := Bool(Get(group, "enabled") != Some(Bool(false)))][
      "condition" := Or(Get(group, "condition"), Str("any"))][
      "monitoredApps" := ArrayOrEmpty(Get(group, "monitoredApps"))][
      "controlledApps" := ArrayOrEmpty(Get(group, "controlledApps"))]))
  }

  /**
    4.0.0: a controlled app is rebuilt from `name`, `path` (default '') and
    `action` (default 'sync') alone. A `name` that is `undefined` is left out.
   */
  function ReduceApp(app: Json): (r: Result<Json, Fault>)
    ensures r.Ok? <==> !app.Null?
    ensures r.Ok? ==>
      && r.value.Obj? && "path" in r.value.props && "action" in r.value.props
      && Truthy(r.value.props["action"])
      && r.value.props.Keys <= {"name", "path", "action"}
  {
    if app.Null? then Err(NullElement)
    else
      var reduced := map["path" := Or(Get(app, "path"), Str("")), "action" := Or(Get(app, "action"), Str("sync"))];
      var name := Get(app, "name");
      Ok(Obj(if name.Some? then reduced["name" := name.value] else reduced))
  }

  /** 4.0.0: a group keeps its other fields and its controlled apps are reduced. */
  function ReduceGroup(group: Json): (r: Result<Json, Fault>)
    ensures r.Ok? ==> !group.Null? && IsArray(Get(group, "controlledApps")) && r.value.Obj?
    ensures group.Null? ==> r == Err(NullElement)
    ensures !group.Null? && !IsArray(Get(group, "controlledApps")) ==> r == Err(ControlledAppsNotArray)
  {
    if group.Null? then Err(NullElement)
    else
      var controlled := Get(group, "controlledApps");
      if !IsArray(controlled) then Err(ControlledAppsNotArray)
      else
        match MapAll(ReduceApp, controlled.value.items)
        case Err(e) => Err(e)
        case Ok(apps) => Ok(Obj(Spread(group)["controlledApps" := Arr(apps)]))
  }

  // ---- the steps over the top-level fields ----

  /** 2.0.0: a truthy `apps` array is replaced by `appGroups`, one group per app. */
  function ConvertApps(f: map<string, Json>): (r: Result<map<string, Json>, Fault>)
    ensures !IsArray(Lookup(f, "apps")) ==> r == Ok(f)
    ensures r.Ok? && IsArray(Lookup(f, "apps")) ==> "apps" !in r.value && IsArray(Lookup(r.value, "appGroups"))
  {
    if "apps" in f && f["apps"].Arr? then
      match MapAll(MigrateApp, f["apps"].items)
      case Err(e) => Err(e)
      case Ok(groups) => Ok(f["appGroups" := Arr(groups)] - {"apps"})
    else Ok(f)
  }

  /** `if (!f[key]) f[key] = d`. */
  function AddMissing(f: map<string, Json>, key: string, d: Json): (r: map<string, Json>)
    ensures Present(Lookup(f, key)) ==> r == f
    ensures Truthy(d) ==> Present(Lookup(r, key))
    ensures forall k :: k != key ==> Lookup(r, k) == Lookup(f, k)
  {
    if Present(Lookup(f, key)) then f else f[key := d]
  }

  /** Rewrites every group of a truthy `appGroups` array with `g`. */
  function RewriteGroups(f: map<string, Json>, g: Json -> Result<Json, Fault>): (r: Result<map<string, Json>, Fault>)
    ensures !IsArray(Lookup(f, "appGroups")) ==> r == Ok(f)
    ensures r.Ok? ==> forall k :: k != "appGroups" ==> Lookup(r.value, k) == Lookup(f, k)
  {
    if "appGroups" in f && f["appGroups"].Arr? then
      match MapAll(g, f["appGroups"].items)
      case Err(e) => Err(e)
      case Ok(groups) => Ok(f["appGroups" := Arr(groups)])
    else Ok(f)
  }

  /** The fields after the steps for 2.0.0 and 3.0.0 (everything but the 4.0.0 step). */
  function MigrateBeforeV4(v: Version, f0: map<string, Json>): Result<map<string, Json>, Fault> {
    match (if Below(v, V2) then ConvertApps(f0) else Ok(f0))
    case Err(e) => Err(e)
    case Ok(f1) =>
      var f2 := if Below(v, V2) then AddMissing(f1, "monitoring", DefaultMonitoring) else f1;
      var f3 := if Below(v, V3) then AddMissing(f2, "ui", DefaultUi) else f2;
      if Below(v, V3) then RewriteGroups(f3, NormalizeGroup) else Ok(f3)
  }

  /**
    The reference for `migrateConfig`: apply the steps below the config's
    version, then stamp 4.0.0 (`migratedConfig.configVersion = '4.0.0'`, which
    the version slot takes over from any `"configVersion"` field).
   */
  function Migrate(c: Config): (r: Result<Config, Fault>)
    ensures r.Ok? ==> r.value.configVersion == Some(CurrentVersion) && "configVersion" !in r.value.fields
  {
    var v := EffectiveVersion(c);
    match MigrateBeforeV4(v, c.fields)
    case Err(e) => Err(e)
    case Ok(f) =>
      match (if Below(v, CurrentVersion) then RewriteGroups(f, ReduceGroup) else Ok(f))
      case Err(e) => Err(e)
      case Ok(f') => Ok(Config(Some(CurrentVersion), f' - {"configVersion"}))
  }

  /** `appGroups = apps.map(MigrateApp)` and `delete apps` on a copy of the fields, when `apps` is a truthy array. */
  method MapApps(fields: map<string, Json>) returns (r: Result<map<string, Json>, Fault>)
    ensures r == ConvertApps(fields)
  {
    var migrated := fields;
    if "apps" in migrated && migrated["apps"].Arr? {
      var groups := MapAll(MigrateApp, migrated["apps"].items);
      if groups.Err? {
        return Err(groups.error);
      }
      migrated := migrated["appGroups" := Arr(groups.value)];
      migrated := migrated - {"apps"};
    }
    r := Ok(migrated);
  }

  /** `appGroups = appGroups.map(g)` on a copy of the fields, when `appGroups` is a truthy array. */
  method MapGroups(fields: map<string, Json>, g: Json -> Result<Json, Fault>) returns (r: Result<map<string, Json>, Fault>)
    ensures r == RewriteGroups(fields, g)
  {
    var migrated := fields;
    if "appGroups" in migrated && migrated["appGroups"].Arr? {
      var groups := MapAll(g, migrated["appGroups"].items);
      if groups.Err? {
        return Err(groups.error);
      }
      migrated := migrated["appGroups" := Arr(groups.value)];
    }
    r := Ok(migrated);
  }

  /**
    `migrateConfig`: edits a copy of the loaded fields step by step, comparing
    the effective version against each step's version, and stamps the result.
   */
  method MigrateConfig(loaded: Config) returns (r: Result<Config, Fault>)
    ensures r == Migrate(loaded)
    ensures r.Ok? ==> r.value.configVersion == Some(CurrentVersion)
  {
    var version := if loaded.configVersion.Some? then loaded.configVersion.value else DefaultVersion;
    var migrated := loaded.fields;

    var cmp := CompareVersions(version, V2);
    if cmp < 0 {
      var converted := MapApps(migrated);
      if converted.Err? {
        return Err(converted.error);
      }
      migrated := converted.value;
      if !Present(Lookup(migrated, "monitoring")) {
        migrated := migrated["monitoring" := DefaultMonitoring];
      }
    }

    cmp := CompareVersions(version, V3);
    if cmp < 0 {
      if !Present(Lookup(migrated, "ui")) {
        migrated := migrated["ui" := DefaultUi];
      }
      var normalized := MapGroups(migrated, NormalizeGroup);
      if normalized.Err? {
        return Err(normalized.error);
      }
      migrated := normalized.value;
    }
    assert MigrateBeforeV4(version, loaded.fields) == Ok(migrated);

    cmp := CompareVersions(version, CurrentVersion);
    if cmp < 0 {
      var reduced := MapGroups(migrated, ReduceGroup);
      if reduced.Err? {
        return Err(reduced.error);
      }
      migrated := reduced.value;
    }

    r := Ok(Config(Some(CurrentVersion), migrated - {"configVersion"}));
  }
}
