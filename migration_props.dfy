/** What the configuration migration promises, proved about `Migration.Migrate`. */
module MigrationProps {
  import opened Wrappers
  import opened Json
  import opened Versions
  import opened Migration

  // ---- the shapes a migrated configuration has ----

  /** A controlled app in the 4.0.0 shape: `path` and `action` present, `action` truthy, no key but `name`, `path`, `action`. */
  predicate IsReducedApp(a: Json) {
    && a.Obj?
    && "path" in a.props
    && "action" in a.props
    && Truthy(a.props["action"])
    && a.props.Keys <= {"name", "path", "action"}
  }

  /** A group whose `controlledApps` is an array of 4.0.0 controlled apps. */
  predicate HasReducedApps(g: Json) {
    && IsArray(Get(g, "controlledApps"))
    && forall j :: 0 <= j < |Get(g, "controlledApps").value.items| ==> IsReducedApp(Get(g, "controlledApps").value.items[j])
  }

  /** A group with every field 3.0.0 requires: `enabled` a boolean, a truthy `condition`, both app lists arrays. */
  predicate IsNormalizedGroup(g: Json) {
    && g.Obj?
    && "enabled" in g.props && g.props["enabled"].Bool?
    && Present(Get(g, "condition"))
    && IsArray(Get(g, "monitoredApps"))
    && IsArray(Get(g, "controlledApps"))
  }

  /** `controlled` is an array holding the 4.0.0 rewrite of each of `apps`, in the same order. */
  predicate ReducedFrom(controlled: Option<Json>, apps: seq<Json>) {
    && IsArray(controlled)
    && |controlled.value.items| == |apps|
    && forall j :: 0 <= j < |apps| ==> ReduceApp(apps[j]).Ok? && controlled.value.items[j] == ReduceApp(apps[j]).value
  }

  /** `r` is what the 4.0.0 step makes of group `g`: each controlled app reduced in place, every other field kept. */
  ghost predicate ReducedGroupFrom(r: Json, g: Json) {
    && r.Obj?
    && IsArray(Get(g, "controlledApps"))
    && ReducedFrom(Get(r, "controlledApps"), Get(g, "controlledApps").value.items)
    && forall k :: k != "controlledApps" ==> Get(r, k) == Get(g, k)
  }

  /** The app list that 3.0.0 keeps: the list itself when it is an array, otherwise []. */
  function ListOrEmpty(o: Option<Json>): seq<Json> {
    if IsArray(o) then o.value.items else []
  }

  /**
    `r` is what the 3.0.0 and then the 4.0.0 step make of group `g`:
    `enabled` is `g.enabled !== false`, `condition` is `g.condition || 'any'`,
    `monitoredApps` is kept when it is an array and is [] otherwise, the
    controlled apps (the same fallback) are reduced one by one, and every
    other field is kept.
   */
  ghost predicate UpgradedFrom(r: Json, g: Json) {
    && r.Obj?
    && Get(r, "enabled") == Some(Bool(Get(g, "enabled") != Some(Bool(false))))
    && Get(r, "condition") == (if Present(Get(g, "condition")) then Get(g, "condition") else Some(Str("any")))
    && Get(r, "monitoredApps") == Some(Arr(ListOrEmpty(Get(g, "monitoredApps"))))
    && ReducedFrom(Get(r, "controlledApps"), ListOrEmpty(Get(g, "controlledApps")))
    && forall k :: k !in NormalizedKeys ==> Get(r, k) == Get(g, k)
  }

  /**
    `r` is what the 2.0.0, 3.0.0 and 4.0.0 steps make of an old `apps` entry:
    exactly the five group fields, the truthy name or 'Migrated Group',
    `app.enabled !== false`, condition 'any', the app's `monitoredApps` when it
    is an array and [] otherwise, and the app's controlled apps (the same
    fallback) reduced one by one.
   */
  predicate ConvertedFrom(r: Json, app: Json) {
    && r.Obj?
    && r.props.Keys == GroupKeys
    && r.props["name"] == (if Present(Get(app, "name")) then Get(app, "name").value else Str("Migrated Group"))
    && r.props["enabled"] == Bool(Get(app, "enabled") != Some(Bool(false)))
    && r.props["condition"] == Str("any")
    && r.props["monitoredApps"] == Arr(ListOrEmpty(Get(app, "monitoredApps")))
    && ReducedFrom(Get(r, "controlledApps"), ListOrEmpty(Get(app, "controlledApps")))
  }

  /** A group the 4.0.0 step can rewrite without throwing. */
  predicate Reducible(g: Json) {
    && !g.Null?
    && IsArray(Get(g, "controlledApps"))
    && forall j :: 0 <= j < |Get(g, "controlledApps").value.items| ==> !Get(g, "controlledApps").value.items[j].Null?
  }

  /** The groups of a field map, when `appGroups` is an array. */
  function Groups(f: map<string, Json>): seq<Json>
    requires IsArray(Lookup(f, "appGroups"))
  {
    f["appGroups"].items
  }

  // ---- versions ----

  /** The three step versions lie strictly in order, and the default version 1.0.0 is below all of them. */
  lemma StepVersionsOrdered()
    ensures Below(DefaultVersion, V2) && Below(V2, V3) && Below(V3, CurrentVersion)
    ensures !Below(CurrentVersion, V2) && !Below(CurrentVersion, V3) && !Below(CurrentVersion, CurrentVersion)
  {
    assert Compare(V3, CurrentVersion) == -1;
    assert Compare(CurrentVersion, V2) == 1;
    assert Compare(CurrentVersion, V3) == 1;
    CompareReflexive(CurrentVersion);
  }

  /** A version below one step is below every later step. */
  lemma BelowLaterSteps(v: Version)
    ensures Below(v, V2) ==> Below(v, V3)
    ensures Below(v, V3) ==> Below(v, CurrentVersion)
  {
    StepVersionsOrdered();
    if Below(v, V2) {
      BelowTransitive(v, V2, V3);
    }
    if Below(v, V3) {
      BelowTransitive(v, V3, CurrentVersion);
    }
  }

  // ---- the element rewrites ----

  /** 4.0.0: a controlled app keeps its `name`, gets `path` and `action` or their defaults, and loses every other field. */
  lemma ReduceAppShape(app: Json)
    ensures ReduceApp(app).Ok? <==> !app.Null?
    ensures ReduceApp(app).Ok? ==>
      var a := ReduceApp(app).value;
      && IsReducedApp(a)
      && Get(a, "name") == Get(app, "name")
      && a.props["path"] == (if Present(Get(app, "path")) then Get(app, "path").value else Str(""))
      && a.props["action"] == (if Present(Get(app, "action")) then Get(app, "action").value else Str("sync"))
  {
  }

  /** 4.0.0: a group throws exactly when it is null, its `controlledApps` is no array, or one of them is null. */
  lemma ReduceGroupShape(g: Json)
    ensures ReduceGroup(g).Ok? <==> Reducible(g)
    ensures ReduceGroup(g).Ok? ==>
      var r := ReduceGroup(g).value;
      && ReducedGroupFrom(r, g)
      && HasReducedApps(r)
  {
    if !g.Null? && IsArray(Get(g, "controlledApps")) {
      var items := Get(g, "controlledApps").value.items;
      forall j | 0 <= j < |items| ensures ReduceApp(items[j]).Ok? <==> !items[j].Null? {
        ReduceAppShape(items[j]);
      }
      var m := MapAll(ReduceApp, items);
      if m.Ok? {
        forall j | 0 <= j < |items| ensures IsReducedApp(m.value[j]) {
          ReduceAppShape(items[j]);
        }
        assert Get(ReduceGroup(g).value, "controlledApps") == Some(Arr(m.value));
      }
    }
  }

  /** 3.0.0: a non-null group keeps its other fields; `enabled` becomes `group.enabled !== false`, `condition` defaults to 'any', the app lists become arrays. */
  lemma NormalizeGroupShape(g: Json)
    ensures NormalizeGroup(g).Ok? <==> !g.Null?
    ensures NormalizeGroup(g).Ok? ==>
      var r := NormalizeGroup(g).value;
      && IsNormalizedGroup(r)
      && r.props["enabled"] == Bool(Get(g, "enabled") != Some(Bool(false)))
      && (Present(Get(g, "condition")) ==> Get(r, "condition") == Get(g, "condition"))
      && (!Present(Get(g, "condition")) ==> Get(r, "condition") == Some(Str("any")))
      && (IsArray(Get(g, "monitoredApps")) ==> Get(r, "monitoredApps") == Get(g, "monitoredApps"))
      && (IsArray(Get(g, "controlledApps")) ==> Get(r, "controlledApps") == Get(g, "controlledApps"))
      && (!IsArray(Get(g, "monitoredApps")) ==> Get(r, "monitoredApps") == Some(Arr([])))
      && (!IsArray(Get(g, "controlledApps")) ==> Get(r, "controlledApps") == Some(Arr([])))
      && forall k :: k !in NormalizedKeys ==> Get(r, k) == Get(g, k)
  {
  }

  /** 2.0.0: a non-null entry of `apps` becomes a group with exactly the five group fields, defaulted as the old format implies. */
  lemma MigrateAppShape(app: Json)
    ensures MigrateApp(app).Ok? <==> !app.Null?
    ensures MigrateApp(app).Ok? ==>
      var g := MigrateApp(app).value;
      && g.Obj?
      && g.props.Keys == GroupKeys
      && g.props["name"] == (if Present(Get(app, "name")) then Get(app, "name").value else Str("Migrated Group"))
      && g.props["enabled"] == Bool(Get(app, "enabled") != Some(Bool(false)))
      && g.props["condition"] == Str("any")
      && g.props["monitoredApps"] == (if Present(Get(app, "monitoredApps")) then Get(app, "monitoredApps").value else Arr([]))
      && g.props["controlledApps"] == (if Present(Get(app, "controlledApps")) then Get(app, "controlledApps").value else Arr([]))
  {
  }

  /** 3.0.0 followed by 4.0.0 on one group. */
  lemma UpgradeGroupShape(g: Json)
    requires NormalizeGroup(g).Ok? && ReduceGroup(NormalizeGroup(g).value).Ok?
    ensures UpgradedFrom(ReduceGroup(NormalizeGroup(g).value).value, g)
  {
    var g2 := NormalizeGroup(g).value;
    NormalizeGroupShape(g);
    ReduceGroupShape(g2);
    assert Get(g2, "controlledApps") == Some(Arr(ListOrEmpty(Get(g, "controlledApps"))));
  }

  // ---- the steps over the top-level fields ----

  /** Rewriting the groups touches `appGroups` only, keeps their number and order, and throws exactly when some group does. */
  lemma RewriteGroupsShape(f: map<string, Json>, g: Json -> Result<Json, Fault>)
    ensures RewriteGroups(f, g).Ok? <==> (IsArray(Lookup(f, "appGroups")) ==> forall i :: 0 <= i < |Groups(f)| ==> g(Groups(f)[i]).Ok?)
    ensures RewriteGroups(f, g).Ok? ==>
      var r := RewriteGroups(f, g).value;
      && (forall k :: k != "appGroups" ==> Lookup(r, k) == Lookup(f, k))
      && (!IsArray(Lookup(f, "appGroups")) ==> r == f)
      && (IsArray(Lookup(f, "appGroups")) ==>
            && IsArray(Lookup(r, "appGroups"))
            && |Groups(r)| == |Groups(f)|
            && forall i :: 0 <= i < |Groups(f)| ==> Groups(r)[i] == g(Groups(f)[i]).value)
  {
    if IsArray(Lookup(f, "appGroups")) {
      var m := MapAll(g, Groups(f));
      assert RewriteGroups(f, g).Ok? <==> m.Ok?;
    }
  }

  /** The 3.0.0 and 4.0.0 group rewrites over the top-level fields: group `i` of the result is the two rewrites of group `i`. */
  lemma UpgradeGroupsShape(f: map<string, Json>)
    requires IsArray(Lookup(f, "appGroups"))
    requires RewriteGroups(f, NormalizeGroup).Ok?
    requires RewriteGroups(RewriteGroups(f, NormalizeGroup).value, ReduceGroup).Ok?
    ensures
      var r := RewriteGroups(RewriteGroups(f, NormalizeGroup).value, ReduceGroup).value;
      && IsArray(Lookup(r, "appGroups"))
      && |Groups(r)| == |Groups(f)|
      && forall i :: 0 <= i < |Groups(f)| ==>
           && NormalizeGroup(Groups(f)[i]).Ok?
           && ReduceGroup(NormalizeGroup(Groups(f)[i]).value).Ok?
           && Groups(r)[i] == ReduceGroup(NormalizeGroup(Groups(f)[i]).value).value
  {
    RewriteGroupsShape(f, NormalizeGroup);
    var f' := RewriteGroups(f, NormalizeGroup).value;
    RewriteGroupsShape(f', ReduceGroup);
  }

  /** 2.0.0: an `apps` array becomes `appGroups`, one group per app in the same order, and `apps` is removed. */
  lemma ConvertAppsShape(f: map<string, Json>)
    requires IsArray(Lookup(f, "apps"))
    ensures ConvertApps(f).Ok? <==> forall i :: 0 <= i < |f["apps"].items| ==> !f["apps"].items[i].Null?
    ensures ConvertApps(f).Ok? ==>
      var r := ConvertApps(f).value;
      && "apps" !in r
      && IsArray(Lookup(r, "appGroups"))
      && |Groups(r)| == |f["apps"].items|
      && (forall i :: 0 <= i < |Groups(r)| ==> Groups(r)[i] == MigrateApp(f["apps"].items[i]).value)
      && forall k :: k != "apps" && k != "appGroups" ==> Lookup(r, k) == Lookup(f, k)
  {
    var apps := f["apps"].items;
    forall i | 0 <= i < |apps| ensures MigrateApp(apps[i]).Ok? <==> !apps[i].Null? {
      MigrateAppShape(apps[i]);
    }
  }

  // ---- the whole migration ----

  /** A missing or empty `configVersion` is migrated as 1.0.0, so every step applies. */
  lemma MissingVersionIsOldest(c: Config)
    requires c.configVersion.None?
    ensures Below(EffectiveVersion(c), V2) && Below(EffectiveVersion(c), V3) && Below(EffectiveVersion(c), CurrentVersion)
  {
    StepVersionsOrdered();
    BelowLaterSteps(DefaultVersion);
  }

  /** At 4.0.0 or later only the version is written: nothing else changes and nothing can throw. */
  lemma MigrateAtCurrentVersion(c: Config)
    requires !Below(EffectiveVersion(c), CurrentVersion)
    ensures Migrate(c) == Ok(Config(Some(CurrentVersion), c.fields - {"configVersion"}))
  {
    BelowLaterSteps(EffectiveVersion(c));
  }

  /** Migrating a migrated configuration changes nothing. */
  lemma MigrateIdempotent(c: Config)
    requires Migrate(c).Ok?
    ensures Migrate(Migrate(c).value) == Migrate(c)
  {
    StepVersionsOrdered();
    MigrateAtCurrentVersion(Migrate(c).value);
    var f := Migrate(c).value.fields;
    assert f - {"configVersion"} == f;
  }

  /** Top-level keys other than apps, appGroups, monitoring and ui pass through unchanged (present or absent alike). */
  lemma MigrateKeepsUnmanagedKeys(c: Config, k: string)
    requires k !in ManagedKeys
    requires Migrate(c).Ok?
    ensures Lookup(Migrate(c).value.fields, k) == Lookup(c.fields, k)
  {
    var v := EffectiveVersion(c);
    if Below(v, V2) && IsArray(Lookup(c.fields, "apps")) {
      ConvertAppsShape(c.fields);
    }
    var f := MigrateBeforeV4(v, c.fields).value;
    if Below(v, V3) {
      var f1 := if Below(v, V2) then ConvertApps(c.fields).value else c.fields;
      var f2 := if Below(v, V2) then AddMissing(f1, "monitoring", DefaultMonitoring) else f1;
      RewriteGroupsShape(AddMissing(f2, "ui", DefaultUi), NormalizeGroup);
    }
    if Below(v, CurrentVersion) {
      RewriteGroupsShape(f, ReduceGroup);
    }
  }

  /**
    `apps` is deleted only below 2.0.0 and only when it is an array, and an
    `appGroups` that is not an array is left alone: otherwise both pass
    through unchanged.
   */
  lemma MigrateKeepsUntouchedLists(c: Config)
    requires Migrate(c).Ok?
    ensures !(Below(EffectiveVersion(c), V2) && IsArray(Lookup(c.fields, "apps"))) ==>
      Lookup(Migrate(c).value.fields, "apps") == Lookup(c.fields, "apps")
    ensures !(Below(EffectiveVersion(c), V2) && IsArray(Lookup(c.fields, "apps"))) && !IsArray(Lookup(c.fields, "appGroups")) ==>
      Lookup(Migrate(c).value.fields, "appGroups") == Lookup(c.fields, "appGroups")
  {
    var v := EffectiveVersion(c);
    if Below(v, V2) && IsArray(Lookup(c.fields, "apps")) {
      ConvertAppsShape(c.fields);
    }
    var f := MigrateBeforeV4(v, c.fields).value;
    if Below(v, V3) {
      var f1 := if Below(v, V2) then ConvertApps(c.fields).value else c.fields;
      var f2 := if Below(v, V2) then AddMissing(f1, "monitoring", DefaultMonitoring) else f1;
      RewriteGroupsShape(AddMissing(f2, "ui", DefaultUi), NormalizeGroup);
    }
    if Below(v, CurrentVersion) {
      RewriteGroupsShape(f, ReduceGroup);
    }
  }

  /** `monitoring` gets {interval: 2500, enabled: true} only below 2.0.0 and only when it is missing or falsy; otherwise it is kept. */
  lemma MigrateMonitoringDefault(c: Config)
    requires Migrate(c).Ok?
    ensures Lookup(Migrate(c).value.fields, "monitoring") ==
      if Below(EffectiveVersion(c), V2) && !Present(Lookup(c.fields, "monitoring")) then Some(DefaultMonitoring)
      else Lookup(c.fields, "monitoring")
  {
    var v := EffectiveVersion(c);
    if Below(v, V2) && IsArray(Lookup(c.fields, "apps")) {
      ConvertAppsShape(c.fields);
    }
    var f := MigrateBeforeV4(v, c.fields).value;
    if Below(v, V3) {
      var f1 := if Below(v, V2) then ConvertApps(c.fields).value else c.fields;
      var f2 := if Below(v, V2) then AddMissing(f1, "monitoring", DefaultMonitoring) else f1;
      RewriteGroupsShape(AddMissing(f2, "ui", DefaultUi), NormalizeGroup);
    }
    if Below(v, CurrentVersion) {
      RewriteGroupsShape(f, ReduceGroup);
    }
  }

  /** `ui` gets {theme: 'dark', animations: true} only below 3.0.0 and only when it is missing or falsy; otherwise it is kept. */
  lemma MigrateUiDefault(c: Config)
    requires Migrate(c).Ok?
    ensures Lookup(Migrate(c).value.fields, "ui") ==
      if Below(EffectiveVersion(c), V3) && !Present(Lookup(c.fields, "ui")) then Some(DefaultUi)
      else Lookup(c.fields, "ui")
  {
    var v := EffectiveVersion(c);
    if Below(v, V2) && IsArray(Lookup(c.fields, "apps")) {
      ConvertAppsShape(c.fields);
    }
    var f := MigrateBeforeV4(v, c.fields).value;
    if Below(v, V3) {
      var f1 := if Below(v, V2) then ConvertApps(c.fields).value else c.fields;
      var f2 := if Below(v, V2) then AddMissing(f1, "monitoring", DefaultMonitoring) else f1;
      RewriteGroupsShape(AddMissing(f2, "ui", DefaultUi), NormalizeGroup);
    }
    if Below(v, CurrentVersion) {
      RewriteGroupsShape(f, ReduceGroup);
    }
  }

  /**
    For a configuration at a version in [3.0.0, 4.0.0) with an `appGroups`
    array, migration throws exactly when some group is null, has a
    `controlledApps` that is not an array, or has a null controlled app.
   */
  lemma MigrateFromV3FailsIff(c: Config)
    requires !Below(EffectiveVersion(c), V3) && Below(EffectiveVersion(c), CurrentVersion)
    ensures Migrate(c).Err? <==>
      IsArray(Lookup(c.fields, "appGroups")) && exists i :: 0 <= i < |Groups(c.fields)| && !Reducible(Groups(c.fields)[i])
  {
    var v := EffectiveVersion(c);
    BelowLaterSteps(v);
    assert MigrateBeforeV4(v, c.fields) == Ok(c.fields);
    RewriteGroupsShape(c.fields, ReduceGroup);
    if IsArray(Lookup(c.fields, "appGroups")) {
      forall i | 0 <= i < |Groups(c.fields)| ensures ReduceGroup(Groups(c.fields)[i]).Ok? <==> Reducible(Groups(c.fields)[i]) {
        ReduceGroupShape(Groups(c.fields)[i]);
      }
    }
  }

  /** Below 4.0.0, every group of a migrated `appGroups` array has its controlled apps in the 4.0.0 shape. */
  lemma MigrateReducesControlledApps(c: Config)
    requires Below(EffectiveVersion(c), CurrentVersion)
    requires Migrate(c).Ok?
    requires IsArray(Lookup(Migrate(c).value.fields, "appGroups"))
    ensures forall i :: 0 <= i < |Groups(Migrate(c).value.fields)| ==> HasReducedApps(Groups(Migrate(c).value.fields)[i])
  {
    var f := MigrateBeforeV4(EffectiveVersion(c), c.fields).value;
    RewriteGroupsShape(f, ReduceGroup);
    var r := Migrate(c).value.fields;
    forall i | 0 <= i < |Groups(r)| ensures HasReducedApps(Groups(r)[i]) {
      ReduceGroupShape(Groups(f)[i]);
    }
  }

  /**
    For a version in [3.0.0, 4.0.0): the groups keep their number and order,
    and each is the 4.0.0 rewrite of the loaded group: every field kept but
    `controlledApps`, whose apps are reduced one by one.
   */
  lemma MigrateFromV3ReducesGroups(c: Config)
    requires !Below(EffectiveVersion(c), V3) && Below(EffectiveVersion(c), CurrentVersion)
    requires IsArray(Lookup(c.fields, "appGroups"))
    requires Migrate(c).Ok?
    ensures IsArray(Lookup(Migrate(c).value.fields, "appGroups"))
    ensures |Groups(Migrate(c).value.fields)| == |Groups(c.fields)|
    ensures forall i :: 0 <= i < |Groups(c.fields)| ==> ReducedGroupFrom(Groups(Migrate(c).value.fields)[i], Groups(c.fields)[i])
  {
    var v := EffectiveVersion(c);
    BelowLaterSteps(v);
    assert MigrateBeforeV4(v, c.fields) == Ok(c.fields);
    RewriteGroupsShape(c.fields, ReduceGroup);
    var f := RewriteGroups(c.fields, ReduceGroup).value;
    assert Migrate(c).value.fields == f - {"configVersion"};
    forall i | 0 <= i < |Groups(c.fields)| ensures ReducedGroupFrom(Groups(f)[i], Groups(c.fields)[i]) {
      ReduceGroupShape(Groups(c.fields)[i]);
    }
  }

  /**
    Below 3.0.0 without an `apps` array that the 2.0.0 step converts (from a
    version in [2.0.0, 3.0.0), or an older one with no `apps` array): the
    loaded groups keep their number and order, and each is the 3.0.0 and then
    the 4.0.0 rewrite of the loaded group.
   */
  lemma MigrateUpgradesGroups(c: Config)
    requires Below(EffectiveVersion(c), V3)
    requires !(Below(EffectiveVersion(c), V2) && IsArray(Lookup(c.fields, "apps")))
    requires IsArray(Lookup(c.fields, "appGroups"))
    requires Migrate(c).Ok?
    ensures IsArray(Lookup(Migrate(c).value.fields, "appGroups"))
    ensures |Groups(Migrate(c).value.fields)| == |Groups(c.fields)|
    ensures forall i :: 0 <= i < |Groups(c.fields)| ==>
      UpgradedFrom(Groups(Migrate(c).value.fields)[i], Groups(c.fields)[i])
  {
    var v := EffectiveVersion(c);
    BelowLaterSteps(v);
    var f2 := if Below(v, V2) then AddMissing(c.fields, "monitoring", DefaultMonitoring) else c.fields;
    var f3 := AddMissing(f2, "ui", DefaultUi);
    assert Lookup(f3, "appGroups") == Lookup(c.fields, "appGroups");
    var f := RewriteGroups(f3, NormalizeGroup).value;
    UpgradeGroupsShape(f3);
    var r := Migrate(c).value.fields;
    assert r == RewriteGroups(f, ReduceGroup).value - {"configVersion"};
    forall i | 0 <= i < |Groups(c.fields)| ensures UpgradedFrom(Groups(r)[i], Groups(c.fields)[i]) {
      UpgradeGroupShape(Groups(c.fields)[i]);
    }
  }

  /** A v1 app taken through the 2.0.0, 3.0.0 and 4.0.0 group rewrites. */
  lemma ConvertedGroupShape(app: Json)
    requires !app.Null?
    requires ReduceGroup(NormalizeGroup(MigrateApp(app).value).value).Ok?
    ensures ConvertedFrom(ReduceGroup(NormalizeGroup(MigrateApp(app).value).value).value, app)
  {
    var g1 := MigrateApp(app).value;
    MigrateAppShape(app);
    UpgradeGroupShape(g1);
    var g := ReduceGroup(NormalizeGroup(g1).value).value;
    assert g.props.Keys == GroupKeys;
    assert ListOrEmpty(Get(g1, "monitoredApps")) == ListOrEmpty(Get(app, "monitoredApps"));
    assert ListOrEmpty(Get(g1, "controlledApps")) == ListOrEmpty(Get(app, "controlledApps"));
  }

  /**
    Below 2.0.0 with an `apps` array: `apps` is gone and `appGroups` holds one
    group per app, in the same order, each converted from its app.
   */
  lemma MigrateFromV1ConvertsApps(c: Config)
    requires Below(EffectiveVersion(c), V2)
    requires IsArray(Lookup(c.fields, "apps"))
    requires Migrate(c).Ok?
    ensures "apps" !in Migrate(c).value.fields
    ensures IsArray(Lookup(Migrate(c).value.fields, "appGroups"))
    ensures |Groups(Migrate(c).value.fields)| == |c.fields["apps"].items|
    ensures forall i :: 0 <= i < |c.fields["apps"].items| ==>
      ConvertedFrom(Groups(Migrate(c).value.fields)[i], c.fields["apps"].items[i])
  {
    var v := EffectiveVersion(c);
    BelowLaterSteps(v);
    ConvertAppsShape(c.fields);
    var apps := c.fields["apps"].items;
    var f1 := ConvertApps(c.fields).value;
    var f3 := AddMissing(AddMissing(f1, "monitoring", DefaultMonitoring), "ui", DefaultUi);
    assert Lookup(f3, "appGroups") == Lookup(f1, "appGroups") && "apps" !in f3;
    var f := RewriteGroups(f3, NormalizeGroup).value;
    UpgradeGroupsShape(f3);
    var r := Migrate(c).value.fields;
    assert r == RewriteGroups(f, ReduceGroup).value - {"configVersion"};
    forall i | 0 <= i < |apps| ensures ConvertedFrom(Groups(r)[i], apps[i]) {
      assert Groups(f3)[i] == MigrateApp(apps[i]).value;
      ConvertedGroupShape(apps[i]);
    }
  }

  /**
    What the migration harness checks of every migrated configuration: the
    version is 4.0.0, `appGroups` is an array whenever the input had groups
    (converted from `apps` or given), and `monitoring` and `ui` are truthy
    whenever the input had them or a step supplies them.
   */
  lemma MigrateMeetsHarnessChecks(c: Config)
    requires Migrate(c).Ok?
    ensures Migrate(c).value.configVersion == Some(CurrentVersion)
    ensures (Below(EffectiveVersion(c), V2) && IsArray(Lookup(c.fields, "apps"))) || IsArray(Lookup(c.fields, "appGroups")) ==>
      IsArray(Lookup(Migrate(c).value.fields, "appGroups"))
    ensures Below(EffectiveVersion(c), V2) || Present(Lookup(c.fields, "monitoring")) ==>
      Present(Lookup(Migrate(c).value.fields, "monitoring"))
    ensures Below(EffectiveVersion(c), V3) || Present(Lookup(c.fields, "ui")) ==>
      Present(Lookup(Migrate(c).value.fields, "ui"))
  {
    var v := EffectiveVersion(c);
    MigrateMonitoringDefault(c);
    MigrateUiDefault(c);
    BelowLaterSteps(v);
    if Below(v, V2) && IsArray(Lookup(c.fields, "apps")) {
      MigrateFromV1ConvertsApps(c);
    } else if IsArray(Lookup(c.fields, "appGroups")) {
      if Below(v, V3) {
        MigrateUpgradesGroups(c);
      } else if Below(v, CurrentVersion) {
        MigrateFromV3ReducesGroups(c);
      } else {
        MigrateAtCurrentVersion(c);
      }
    }
  }

  /** A JSON value with no `null` anywhere inside it. */
  predicate NullFree(v: Json)
    decreases v
  {
    match v
    case Null => false
    case Arr(items) => forall i :: 0 <= i < |items| ==> NullFree(items[i])
    case Obj(props) => forall k :: k in props ==> NullFree(props[k])
    case _ => true
  }

  /** A group the 3.0.0 step turns into a group that the 4.0.0 step can rewrite. */
  predicate Normalizable(g: Json) {
    && !g.Null?
    && (IsArray(Get(g, "controlledApps")) ==>
          forall j :: 0 <= j < |Get(g, "controlledApps").value.items| ==> !Get(g, "controlledApps").value.items[j].Null?)
  }

  lemma NullFreeGroupNormalizable(g: Json)
    requires NullFree(g)
    ensures Normalizable(g)
  {
    if g.Obj? && "controlledApps" in g.props {
      assert NullFree(g.props["controlledApps"]);
    }
  }

  lemma MigratedAppNormalizable(app: Json)
    requires NullFree(app)
    ensures MigrateApp(app).Ok? && Normalizable(MigrateApp(app).value)
  {
    if app.Obj? && "controlledApps" in app.props {
      assert NullFree(app.props["controlledApps"]);
    }
  }

  lemma NormalizedIsReducible(g: Json)
    requires Normalizable(g)
    ensures NormalizeGroup(g).Ok? && Reducible(NormalizeGroup(g).value)
  {
  }

  /** Below 3.0.0 a configuration with no `null` in it always migrates: no step throws. */
  lemma MigrateNullFreeSucceeds(c: Config)
    requires Below(EffectiveVersion(c), V3)
    requires forall k :: k in c.fields ==> NullFree(c.fields[k])
    ensures Migrate(c).Ok?
  {
    var v := EffectiveVersion(c);
    BelowLaterSteps(v);
    var f1 := c.fields;
    if Below(v, V2) && IsArray(Lookup(c.fields, "apps")) {
      ConvertAppsShape(c.fields);
      var apps := c.fields["apps"].items;
      assert NullFree(c.fields["apps"]);
      forall i | 0 <= i < |apps| ensures MigrateApp(apps[i]).Ok? && Normalizable(MigrateApp(apps[i]).value) {
        MigratedAppNormalizable(apps[i]);
      }
      f1 := ConvertApps(c.fields).value;
    }
    assert IsArray(Lookup(f1, "appGroups")) ==> forall i :: 0 <= i < |Groups(f1)| ==> Normalizable(Groups(f1)[i]) by {
      if IsArray(Lookup(f1, "appGroups")) && !(Below(v, V2) && IsArray(Lookup(c.fields, "apps"))) {
        assert NullFree(c.fields["appGroups"]);
        forall i | 0 <= i < |Groups(f1)| ensures Normalizable(Groups(f1)[i]) {
          NullFreeGroupNormalizable(Groups(f1)[i]);
        }
      }
    }
    var f2 := if Below(v, V2) then AddMissing(f1, "monitoring", DefaultMonitoring) else f1;
    var f3 := AddMissing(f2, "ui", DefaultUi);
    assert Lookup(f3, "appGroups") == Lookup(f1, "appGroups");
    assert MigrateBeforeV4(v, c.fields) == RewriteGroups(f3, NormalizeGroup);
    RewriteGroupsShape(f3, NormalizeGroup);
    if IsArray(Lookup(f3, "appGroups")) {
      assert Groups(f3) == Groups(f1);
      forall i | 0 <= i < |Groups(f3)| ensures NormalizeGroup(Groups(f3)[i]).Ok? {
        NormalizedIsReducible(Groups(f3)[i]);
      }
    }
    var f := RewriteGroups(f3, NormalizeGroup).value;
    RewriteGroupsShape(f, ReduceGroup);
    if IsArray(Lookup(f, "appGroups")) {
      assert IsArray(Lookup(f3, "appGroups")) && Groups(f3) == Groups(f1);
      forall i | 0 <= i < |Groups(f)| ensures ReduceGroup(Groups(f)[i]).Ok? {
        NormalizedIsReducible(Groups(f3)[i]);
        ReduceGroupShape(Groups(f)[i]);
      }
    }
  }
}
