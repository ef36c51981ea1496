# pairkiller core, modelled in Dafny

pairkiller is a tray utility that keeps the Blitz companion app in step with
League of Legends. It launches Blitz when the League client or the game is
running and kills Blitz when neither is. This project models two pieces of
its logic.

- **The configuration migration** (`test-migration.js`). `compareVersions`
  orders dotted version strings. `migrateConfig` upgrades a loaded
  configuration through the 2.0.0, 3.0.0 and 4.0.0 steps that its
  `configVersion` calls for. Each step can insert defaults, rename fields,
  coerce fields to arrays or drop fields. The result is stamped 4.0.0.
- **The monitoring tick and tray handlers** (`main.js`). Each tick of the
  interval queries `LeagueClient.exe` and then, only when the client is not
  found, `League of Legends.exe`. After that it queries `Blitz.exe` and
  either launches Blitz, kills it, or does nothing. The tray toggles
  monitoring and sets the Blitz path.

Files:

- `wrappers.dfy`: `Option` and `Result`.
- `json.dfy`: module `Json`. Parsed JSON values, JavaScript truthiness, `o || d`,
  property reads, object spread, and `MapAll`, which is `Array.prototype.map`
  with a callback that can throw.
- `versions.dfy`: module `Versions`. A version is its sequence of numeric
  components. `Compare` is the reference order: lexicographic order after
  padding with zeros. `CompareVersions` is the source's loop, proved equal to
  `Compare`. The lemmas give the order's properties.
- `migration.dfy`: module `Migration`. The element rewrites and the steps as
  functions. `Migrate` is the reference composition. `MigrateConfig` is the
  source's step-by-step edit of a local copy, proved equal to `Migrate`; its
  `apps.map` and `appGroups.map` edits are the methods `MapApps` and
  `MapGroups`.
- `migration_props.dfy`: module `MigrationProps`. What the migration promises,
  proved about `Migrate`.
- `monitor.dfy`: module `BlitzMonitor`. The class `Monitor` holds
  `monitoring` and `blitzPath`. `Tick` (with `QueryChain`, its chain of
  `exec` callbacks), `Toggle` and `SetBlitzPath` model the interval body and
  the two tray handlers. `SetPathThenRestart` follows a saved path into the
  next startup.

Modelling choices:

- A configuration is `Config(configVersion, fields)`.
  - `configVersion` is `None` when the key is missing or falsy. This is why
    `|| '1.0.0'` applies.
  - `fields` holds every other top-level key as a JSON value. This keeps
    unknown keys such as `anonymousUsage` exact.
- Falsy values are `null`, `false`, `0` and `""`. Arrays and objects are
  truthy even when empty.
- On a configuration that is an object with a string or missing
  `configVersion`, the source's `migrateConfig` throws a TypeError in two
  cases: a property is read on a `null` app or group, or `map` is called on a
  `controlledApps` that is not an array (`test-migration.js:80`). The model
  returns `Err(NullElement)` or `Err(ControlledAppsNotArray)` for these. It
  does not use a precondition, so callers keep the error path. The other
  throws, on a `loadedConfig` that is `null` and on a truthy `configVersion`
  that is not a string, lie outside what `Config` represents (see "Left out").
- `configVersion` lives in its own slot, so a `"configVersion"` key in
  `fields` has no meaning. `Migrate` drops any such key when it stamps the
  version, as `migratedConfig.configVersion = '4.0.0'` overwrites it.
- Process queries are not run. A tick takes what each query would find as
  three booleans. It returns the trace of commands it would issue, in order:
  queries, then at most one `Launch(path)` or `KillBlitz`.
- `main.js` hard-codes one group: condition ANY over the two League
  processes, with Blitz under sync. `Desired` is that condition and
  `Reconcile` is the sync action.

## Model

| member | source | states |
|---|---|---|
| `Versions.Compare` | test-migration.js:9-17 | the reference order answers only -1, 0 or 1 (each recursive step keeps that range) |
| `Versions.CompareVersions` | test-migration.js:5-18 | the loop returns -1, 0 or 1, and its answer equals the zero-padded lexicographic order `Compare` |
| `Versions.CompareZeroIff` | test-migration.js:9-17 | two versions compare equal iff their components agree at every position, with missing components read as 0, so "2" equals "2.0.0" |
| `Versions.CompareLessIff` | test-migration.js:9-14 | `a` is before `b` iff at the first position where their padded components differ, `a`'s component is smaller |
| `Versions.CompareReflexive` | test-migration.js:9-17 | every version compares equal to itself |
| `Versions.CompareAntisymmetric` | test-migration.js:9-17 | swapping the arguments negates the answer |
| `Versions.CompareTransitive` | test-migration.js:9-17 | "not after" is transitive |
| `Versions.BelowTransitive` | test-migration.js:9-17 | strictly before and then not after gives strictly before |
| `Versions.ComparePaddedOnly` | test-migration.js:10-11 | only the zero-padded components matter: versions that differ only in trailing zeros compare the same against any version |
| `Json.MapAll` | test-migration.js:35-41 | `map` with a callback that can throw: it succeeds iff the callback succeeds on every element; on success the results keep the length and order of the input; a failure carries the error of a failing element |
| `Migration.EffectiveVersion` | test-migration.js:22 | the loaded `configVersion`, or 1.0.0 when it is missing or falsy; its meaning for the steps is stated by `MissingVersionIsOldest` |
| `Migration.MigrateApp` | test-migration.js:35-41 | a v1 app throws iff it is null; otherwise it becomes an object with exactly the five group fields (values in `MigrateAppShape`) |
| `Migration.NormalizeGroup` | test-migration.js:62-68 | a group throws iff it is null; otherwise its keys are its own plus enabled, condition, monitoredApps and controlledApps (values in `NormalizeGroupShape`) |
| `Migration.ReduceApp` | test-migration.js:80-84 | a controlled app throws iff it is null; otherwise it has path and a truthy action, and no key but name, path and action (values in `ReduceAppShape`) |
| `Migration.ReduceGroup` | test-migration.js:78-85 | a null group throws `NullElement`, a non-array `controlledApps` throws `ControlledAppsNotArray`, and a success comes only from a non-null group with an array of controlled apps |
| `Migration.ConvertApps` | test-migration.js:34-43 | without an `apps` array nothing changes; with one, a success has no `apps` and an `appGroups` array |
| `Migration.AddMissing` | test-migration.js:46-48 | a truthy value is kept as it is, a truthy default makes the key truthy, and no other key changes (also used for test-migration.js:56-58) |
| `Migration.RewriteGroups` | test-migration.js:61-69 | without an `appGroups` array nothing changes; a success changes no key but `appGroups` (also used for test-migration.js:77-86) |
| `Migration.Migrate` | test-migration.js:21-94 | a successful migration is stamped 4.0.0 and keeps no `"configVersion"` field beside the version slot |
| `Migration.MapApps` | test-migration.js:34-43 | the in-place edit of the 2.0.0 step equals `ConvertApps` |
| `Migration.MapGroups` | test-migration.js:61-69 | the in-place `appGroups = appGroups.map(g)` equals `RewriteGroups` (used by the 3.0.0 and the 4.0.0 step) |
| `Migration.MigrateConfig` | test-migration.js:21-94 | the step-by-step edit of the copied fields, using three `compareVersions` calls, equals the reference `Migrate`; a successful result is stamped 4.0.0 |
| `MigrationProps.StepVersionsOrdered` | test-migration.js:22-23 | 1.0.0 < 2.0.0 < 3.0.0 < 4.0.0, and 4.0.0 is below none of the step versions |
| `MigrationProps.BelowLaterSteps` | test-migration.js:30-73 | a version that gets one step also gets every later step |
| `MigrationProps.MigrateAppShape` | test-migration.js:35-41 | a non-null v1 app becomes a group with exactly name, enabled, condition, monitoredApps and controlledApps. The name is the app's truthy name or 'Migrated Group'. `enabled` is `app.enabled !== false`. The condition is 'any'. Each list is the app's truthy list or []. A null app throws |
| `MigrationProps.ConvertAppsShape` | test-migration.js:34-43 | an `apps` array becomes `appGroups` with one group per app, in the same order, and `apps` is deleted. It throws iff some app is null. No other key changes |
| `MigrationProps.NormalizeGroupShape` | test-migration.js:62-68 | a non-null group keeps every other field. `enabled` becomes `group.enabled !== false`. A truthy condition is kept, otherwise it becomes 'any'. Each app list is kept if it is an array, otherwise it becomes []. A null group throws |
| `MigrationProps.RewriteGroupsShape` | test-migration.js:61-69 | rewriting the groups touches `appGroups` only, and only when it is an array. The group count and order are kept, and group `i` of the result is the rewrite of group `i`. It throws iff the rewrite throws on some group |
| `MigrationProps.ReduceAppShape` | test-migration.js:80-84 | a non-null controlled app keeps only name, path and action. The name is kept as it was. The path is the truthy path or ''. The action is the truthy action or 'sync'. A null app throws |
| `MigrationProps.ReduceGroupShape` | test-migration.js:77-86 | the 4.0.0 group rewrite throws iff the group is null, its `controlledApps` is not an array, or one of its controlled apps is null. Otherwise every other field is kept, and controlled app `j` of the result is `ReduceApp` of controlled app `j` of the group |
| `MigrationProps.UpgradeGroupShape` | test-migration.js:62-85 | a group taken through 3.0.0 and 4.0.0 has `enabled` = `group.enabled !== false`, `condition` the truthy `group.condition` or 'any', its `monitoredApps` if that is an array and [] otherwise, each controlled app (same fallback) reduced in order, and every other field kept |
| `MigrationProps.UpgradeGroupsShape` | test-migration.js:61-86 | over the top-level fields, group `i` after the 3.0.0 and 4.0.0 rewrites is the two rewrites of group `i`, with the count kept |
| `MigrationProps.ConvertedGroupShape` | test-migration.js:35-85 | a v1 app taken through 2.0.0, 3.0.0 and 4.0.0 has exactly the five group fields, its truthy name or 'Migrated Group', `app.enabled !== false`, condition 'any', its `monitoredApps` if an array and [] otherwise, and its controlled apps (same fallback) each reduced in order |
| `MigrationProps.MissingVersionIsOldest` | test-migration.js:22 | a missing or falsy `configVersion` is read as 1.0.0, so every step applies |
| `MigrationProps.MigrateAtCurrentVersion` | test-migration.js:25-90 | at 4.0.0 or later only the version is written. Nothing else changes and nothing throws |
| `MigrationProps.MigrateIdempotent` | test-migration.js:21-94 | migrating an already migrated configuration gives the same result |
| `MigrationProps.MigrateKeepsUnmanagedKeys` | test-migration.js:25 | every top-level key other than apps, appGroups, monitoring, ui and configVersion passes through unchanged, whether present or absent |
| `MigrationProps.MigrateKeepsUntouchedLists` | test-migration.js:34-42 | `apps` passes through unchanged unless the version is below 2.0.0 and `apps` is an array; in that case too, an `appGroups` that is not an array passes through unchanged (test-migration.js:61, 77) |
| `MigrationProps.MigrateMonitoringDefault` | test-migration.js:46-48 | `monitoring` becomes {interval: 2500, enabled: true} only below 2.0.0 and only when it is missing or falsy. Otherwise it is unchanged |
| `MigrationProps.MigrateUiDefault` | test-migration.js:56-58 | `ui` becomes {theme: 'dark', animations: true} only below 3.0.0 and only when it is missing or falsy. Otherwise it is unchanged |
| `MigrationProps.MigrateFromV3FailsIff` | test-migration.js:77-86 | for a version in [3.0.0, 4.0.0), migration throws iff `appGroups` is an array with a group that is null, whose `controlledApps` is not an array, or that has a null controlled app |
| `MigrationProps.MigrateFromV3ReducesGroups` | test-migration.js:77-86 | for a version in [3.0.0, 4.0.0), the groups keep their count and order; group `i` keeps every field but `controlledApps`, whose app `j` is `ReduceApp` of the loaded group's app `j` |
| `MigrationProps.MigrateReducesControlledApps` | test-migration.js:77-86 | below 4.0.0, every group of a migrated `appGroups` array has an array of controlled apps. Each of them has path and a truthy action, and no key but name, path and action |
| `MigrationProps.MigrateUpgradesGroups` | test-migration.js:61-86 | below 3.0.0 with an `appGroups` array and no `apps` array for the 2.0.0 step to convert (any version in [2.0.0, 3.0.0), or an older or missing one without `apps`), `appGroups` stays an array, the group count and order are kept, and group `i` is the 3.0.0 and 4.0.0 rewrite of loaded group `i`, with the values listed for `UpgradeGroupShape` |
| `MigrationProps.MigrateFromV1ConvertsApps` | test-migration.js:30-86 | below 2.0.0 with an `apps` array, `apps` is gone and `appGroups` has one group per app, in the same order, with the values listed for `ConvertedGroupShape` taken from that app |
| `MigrationProps.MigrateMeetsHarnessChecks` | test-migration.js:158-170 | every migrated configuration is stamped 4.0.0; `appGroups` is an array whenever the input had groups, converted from `apps` or given; `monitoring` and `ui` are truthy whenever the input had them or a step supplies them |
| `MigrationProps.MigrateNullFreeSucceeds` | test-migration.js:21-94 | below 3.0.0, a configuration that holds no null never makes migration throw |
| `BlitzMonitor.Desired` | main.js:106-138 | the hard-coded condition ANY: Blitz should run when the client or the game runs |
| `BlitzMonitor.Reconcile` | main.js:127-149 | the sync action issues at most one command and nothing else, nothing exactly when Blitz is already as it should be, and a launch only of the given path |
| `BlitzMonitor.TickQueries` | main.js:110-131 | the queries of a tick: the client, the game only when the client is not found, then Blitz |
| `BlitzMonitor.TickTraceShape` | main.js:106-149 | the trace of a tick starts with the client query, holds the game query iff the client is not found, queries Blitz, issues only the reconciliation's command and that last, and leaves Blitz running iff the client or the game runs |
| `BlitzMonitor.StartupPath` | main.js:15-18 | the startup path is the saved `blitzPath` when it is non-empty, otherwise the default path |
| `BlitzMonitor.Monitor.constructor` | main.js:8-18 | at startup monitoring is on and `blitzPath` is the startup path |
| `BlitzMonitor.Monitor.EnsureBlitzIsRunning` | main.js:142-150 | it queries Blitz, then launches `blitzPath` exactly when Blitz is not running |
| `BlitzMonitor.Monitor.QueryChain` | main.js:110-139 | the nested `exec` callbacks issue exactly the tick's queries followed by the sync reconciliation of "client or game" |
| `BlitzMonitor.Monitor.Tick` | main.js:106-139 | With monitoring off, a tick issues nothing. With it on, the whole trace is the client query, the game query only when the client is not found, the Blitz query, then the sync reconciliation of "client or game" against Blitz's state. So the command comes last, is the only one, and leaves Blitz running iff the client or the game runs |
| `BlitzMonitor.ReconcileConverges` | main.js:110-149 | one reconciliation issues at most one command, so never both a launch and a kill, and afterwards Blitz runs iff it should |
| `BlitzMonitor.ReconcileIdempotent` | main.js:127-149 | reconciling again after the first command has taken effect issues nothing |
| `BlitzMonitor.Monitor.Toggle` | main.js:26-31 | the toggle flips `monitoring`, and `startMonitoring` is called exactly when it switches on. `blitzPath` is unchanged |
| `BlitzMonitor.Monitor.SetBlitzPath` | main.js:36-49 | a non-empty selection sets `blitzPath` to its first path, and that path is what gets saved. A cancelled or empty selection changes nothing and saves nothing |
| `BlitzMonitor.SetPathThenRestart` | main.js:9-18 | after "Set Blitz Path" (main.js:43-48) saves a non-empty first path, a restarted monitor reads it back and launches that path; an empty path falls back to the default; a cancelled dialog leaves the restart to the old file |

## Left out

- Shell commands (`tasklist`, `find`, `taskkill`, `start`, main.js:110-146) are left out. Each query is the boolean its output would give. Substring matching on stdout, and a failed query whose stdout is empty, both reduce to "found" or "not found". A launch or kill whose command fails is not modelled.
- Timing of `setInterval` (3000 ms) is left out, and so are the startup call to `startMonitoring` (main.js:88-90) and the extra interval stacked each time the toggle re-enables monitoring (main.js:28-30). The model covers one tick and says whether `startMonitoring` is called.
- Electron tray, menu, window, dialog and login-item APIs ("Start on Boot", "Quit") are left out. The file dialog's answer is an input.
- Reading and writing `config.json` (main.js:15-18, 47) is left out. The saved path is an input at startup and an output of `SetBlitzPath`; the file's `blitzPath` is the only content modelled, and a save replaces it. A `blitzPath` in the file that is truthy but not a string is not modelled.
- Parsing of version strings with `Number()` (test-migration.js:6-7) is left out. A version is its sequence of components. The special cases `"01"`, `"1e2"` and a non-numeric component read as NaN and then as 0 are not modelled. A truthy `configVersion` that is not a string, for which `split` throws, is not modelled.
- JSON numbers are integers, so NaN and fractions are not modelled.
- Object spread of a group that is a non-empty string or an array is modelled as copying no fields. In JavaScript it copies index-keyed entries.
- The `name: undefined` that the 4.0.0 step writes for an app without a name is modelled as the key being absent. Reads and `JSON.stringify` treat the two the same.
- Key order within objects is left out. Maps are unordered.
- `console.log` output and the `testMigration` harness (test-migration.js:96-193) are left out. The harness's checks (test-migration.js:158-170) appear as `MigrateMeetsHarnessChecks`, stated for every configuration rather than its three samples.
- about.js, settings.js, test-updater.js and preload.js are not part of this model. They are UI, IPC, updater and telemetry glue with no core logic.
- A `loadedConfig` that is `null` or not an object (test-migration.js:22, 25) is not modelled: `Config` is always an object, so the TypeError on `null.configVersion` has no counterpart.
- The model reads `monitoring` once, when the tick starts, and `blitzPath` when the tick runs. In the source `blitzPath` is read at launch time (main.js:146), inside the callbacks of up to three asynchronous `exec` calls. So a toggle-off or a "Set Blitz Path" while a tick is in flight is not modelled: in the source the old tick still acts, and it launches the new path.
- Json.MapAll: says the error is that of some failing element. It does not say it is the first failing element, as in JavaScript.
- MigrationProps.MigrateNullFreeSucceeds: gives a condition that is enough for migration to succeed below 3.0.0, not one that is also necessary. The exact condition is proved only for versions in [3.0.0, 4.0.0).
