# DumbPhoneApp lock-state engine, modelled in Dafny

DumbPhoneApp gates chosen apps behind a daily step count. Each tracked app
(`LockedApp`) has a step requirement. It can also carry a time-boxed bypass:
`isBypassed` plus an expiry `bypassUntil`. Two copies of the app list exist:

- `AppLockManager` holds the live copy. It re-derives `isLocked`,
  `isBypassed`, `bypassUntil` and `currentSteps` from today's steps, the
  requirement and the clock.
- `UserSettings` holds the durable copy, and persists it with the daily goal
  and the DumbPhone-mode switch.

This project models that engine, the settings store, the record type and its
catalog. It also models the small rules of the icon view, the icon-symbol
table and the settings screens. Everything is sequential; the step count and
the clock are parameters.

Files, one module per source file:

- `wrappers.dfy` — `Option`.
- `app_model.dfy` (`AppModel`) — `LockedApp`, id-only equality, the
  initialiser defaults, `firstIndex(where:)` by id, and the 18-entry catalog.
- `app_icon_helper.dfy` (`AppIconHelper`) — the 93-entry name→symbol table
  and its lookup.
- `user_settings.dfy` (`UserSettingsStore`) — the key-value store as a map,
  and the `UserSettings` class (load, save, add, remove, update).
- `app_lock_manager.dfy` (`AppLockEngine`) — the per-record rules and the
  `AppLockManager` class (update pass, grant, attempt-to-open, sync).
- `app_icon_view.dfy` (`AppIconView`) — `isUnlocked`, `progress`, the
  lock decorations, and the tap.
- `settings_view.dfy` (`SettingsScreens`) — deletion, Save Changes, Add
  defaults, Re-lock visibility, and the steppers.

Two predicates state the lock rules that the contracts below are written in:

- `AppLockEngine.CanOpenApp` is `canOpenApp`: a live bypass
  (`bypassUntil > now`) or `todaySteps >= requiredSteps`.
- `AppIconView.IsUnlocked` is the view's `isUnlocked`: enough steps or the
  `isBypassed` flag.

The code differs from what a reader might expect in four places; the model follows the code:

- `grantBypass` ignores an unknown id. It does not insert a record.
- `canOpenApp` takes the record, not an id.
- Negative step counts are not clamped.
- No re-lock operation exists in the engine.

## Model

| member | source | states |
|---|---|---|
| `AppModel.NewLockedApp` | DumbPhoneApp/AppModel.swift:26-33 | a fresh record is locked by default, needs 1000 steps, has 0 current steps, no bypass flag and no expiry, so no bypass is live at any time |
| `AppModel.FirstIndexOf` | DumbPhoneApp/AppLockManager.swift:72 | `firstIndex(where: id)`: a found index holds the id and no earlier entry does; `None` exactly when no entry has the id |
| `AppModel.EqualityIgnoresLockState` | DumbPhoneApp/AppModel.swift:22-24 | two records that differ in `isLocked` are still `==`, because equality compares ids only |
| `AppModel.DefaultApps` | DumbPhoneApp/AppModel.swift:38-57 | the catalog has 18 entries carrying the given ids in order; each starts locked, unbypassed, with 0 steps and a requirement between 1000 and 3000 |
| `AppModel.CatalogNamesDistinct` | DumbPhoneApp/AppModel.swift:38-57 | the 18 catalog names are pairwise distinct |
| `AppModel.DefaultAppsDistinctIds` | DumbPhoneApp/AppModel.swift:26-57 | pairwise distinct fresh ids (the UUID default) give a catalog without duplicate ids |
| `AppIconHelper.SfSymbolForApp` | DumbPhoneApp/AppIconHelper.swift:12-125 | a symbol is returned exactly for names that are keys of the table, and it is that key's symbol; any other name gives nil |
| `AppIconHelper.KnownSymbols` | DumbPhoneApp/AppIconHelper.swift:13-124 | "Instagram" gives "camera.fill" and "Files" gives "folder.fill" |
| `AppIconHelper.LookupIsCaseSensitive` | DumbPhoneApp/AppIconHelper.swift:13-124 | lookup is an exact key match: "instagram" gives nil |
| `AppIconHelper.SymbolsNotInjective` | DumbPhoneApp/AppIconHelper.swift:15-108 | Instagram, Snapchat, Camera and VSCO all give "camera.fill", so the table is not injective |
| `AppIconHelper.CatalogNamesHaveSymbols` | DumbPhoneApp/AppIconHelper.swift:13-122 | every name in `LockedApp.defaultApps` has a symbol |
| `UserSettingsStore.DecodedApps` | DumbPhoneApp/UserSettings.swift:32-33 | the apps blob yields a list only when the key is present and decodes |
| `UserSettingsStore.StoredInteger` | DumbPhoneApp/UserSettings.swift:36 | `integer(forKey:)` reads 0 when the key holds no integer |
| `UserSettingsStore.StoredBool` | DumbPhoneApp/UserSettings.swift:40 | `bool(forKey:)` is true only for a stored `true` |
| `UserSettingsStore.LoadedStepGoal` | DumbPhoneApp/UserSettings.swift:36-39 | the loaded goal is never 0; a stored non-zero goal is kept, and a 0 or missing goal becomes 5000 |
| `UserSettingsStore.LoadedApps` | DumbPhoneApp/UserSettings.swift:32-35 | a missing or undecodable blob leaves the list as it was; otherwise the decoded list replaces it |
| `UserSettingsStore.SavedStore` | DumbPhoneApp/UserSettings.swift:43-49 | a save writes the three keys and keeps every other key |
| `UserSettingsStore.LoadAfterSave` | DumbPhoneApp/UserSettings.swift:31-49 | loading after saving restores the list and the mode switch; it restores the goal when non-zero, and gives 5000 for a goal of 0 |
| `UserSettingsStore.SaveOverwrites` | DumbPhoneApp/UserSettings.swift:43-49 | a second save fully replaces the first: list, goal and switch, whatever values either save carried |
| `UserSettingsStore.FreshStoreDisablesMode` | DumbPhoneApp/UserSettings.swift:16-40 | on an empty store the mode switch loads as false, although the field is declared `true`; the goal loads as 5000 |
| `UserSettingsStore.RemoveById` | DumbPhoneApp/UserSettings.swift:57 | `removeAll` by id never lengthens the list |
| `UserSettingsStore.RemoveByIdMembers` | DumbPhoneApp/UserSettings.swift:57 | after `removeAll` by id, a record is in the list exactly when it was there before and carries another id: no entry with the id remains, every other entry survives, and nothing new appears |
| `UserSettingsStore.RemoveByIdAppend` | DumbPhoneApp/UserSettings.swift:57 | removal distributes over concatenation, so survivors keep their original order |
| `UserSettingsStore.RemoveAbsentId` | DumbPhoneApp/UserSettings.swift:57 | removing an absent id leaves the list unchanged |
| `UserSettingsStore.RemoveDistinctAt` | DumbPhoneApp/UserSettings.swift:56-59 | with distinct ids, removing an entry's id deletes exactly that one entry |
| `UserSettingsStore.UserSettings.constructor` | DumbPhoneApp/UserSettings.swift:23-29 | init loads; if the loaded list is empty it installs `defaultApps` and saves, otherwise the store is untouched |
| `UserSettingsStore.UserSettings.LoadSettings` | DumbPhoneApp/UserSettings.swift:31-41 | the new list, goal and switch are those derived from the store; the store is not written |
| `UserSettingsStore.UserSettings.SaveSettings` | DumbPhoneApp/UserSettings.swift:43-49 | the store becomes the saved image of the current list, goal and switch |
| `UserSettingsStore.UserSettings.AddApp` | DumbPhoneApp/UserSettings.swift:51-54 | the record is appended: the length grows by one, earlier entries are unchanged, and it is saved |
| `UserSettingsStore.UserSettings.RemoveApp` | DumbPhoneApp/UserSettings.swift:56-59 | every entry with the id is removed, the rest keep their order, and it is saved |
| `UserSettingsStore.UserSettings.UpdateApp` | DumbPhoneApp/UserSettings.swift:61-66 | only the first entry with the id is replaced and then saved; with no match, neither the list nor the store changes |
| `UserSettingsStore.UserSettings.SaveThenLoad` | DumbPhoneApp/UserSettings.swift:31-49 | a save followed by a load gives back the list, the switch and a non-zero goal |
| `AppLockEngine.UpdatedLockStatus` | DumbPhoneApp/AppLockManager.swift:34-53 | one pass over one record: identity fields are kept; afterwards `isLocked` is exactly "canOpenApp fails" and `isBypassed` is exactly "a bypass is live"; the three branches are given below |
| `AppLockEngine.UpdateIdempotent` | DumbPhoneApp/AppLockManager.swift:31-54 | a second pass with the same steps and time leaves `isLocked`, `isBypassed` and `bypassUntil` unchanged; only `currentSteps` can still move |
| `AppLockEngine.UpdateStableAfterTwoPasses` | DumbPhoneApp/AppLockManager.swift:31-54 | from the second pass on, the record does not change at all |
| `AppLockEngine.LiveBypassUnlocks` | DumbPhoneApp/AppLockManager.swift:38-40 | with `bypassUntil > now` the app opens and the pass leaves it unlocked and bypassed, whatever the steps |
| `AppLockEngine.CanOpenMonotone` | DumbPhoneApp/AppLockManager.swift:56-64 | more steps never turn an openable app unopenable |
| `AppLockEngine.NoRequirementAlwaysOpens` | DumbPhoneApp/AppLockManager.swift:56-64 | a requirement of 0 or less opens the app for any non-negative step count |
| `AppLockEngine.Bypassed` | DumbPhoneApp/AppLockManager.swift:73-77 | a granted record is unlocked and flagged, keeps its identity, and its bypass is live exactly before the expiry |
| `AppLockEngine.BypassHoldsUntilExpiry` | DumbPhoneApp/AppLockManager.swift:38-40 | before expiry, update passes keep a granted record exactly as granted |
| `AppLockEngine.BypassExpires` | DumbPhoneApp/AppLockManager.swift:41-45 | at or after expiry, the next pass clears the flag and the expiry and relocks iff steps are short |
| `AppLockEngine.OneHourBypassScenario` | DumbPhoneApp/AppLockManager.swift:34-79 | 2000 required and 500 walked: locked; a 3600 s grant opens it; a pass 3601 s later relocks it and clears the expiry |
| `AppLockEngine.Synced` | DumbPhoneApp/AppLockManager.swift:123-146 | sync's record sets `currentSteps`; a live bypass keeps its expiry, any other expiry is cleared; `isLocked` is "canOpenApp fails"; the flag follows the expiry when there is one and is kept as stored otherwise |
| `AppLockEngine.SyncAgreesWithUpdate` | DumbPhoneApp/AppLockManager.swift:120-147 | when flag and expiry agree, sync equals one update pass plus the step refresh, and the result still agrees |
| `AppLockEngine.StaleExpiryTreatedDifferently` | DumbPhoneApp/AppLockManager.swift:128-143 | an expired `bypassUntil` without the flag is cleared by sync (`!= nil` test) but kept by the update pass (flag test, line 41) |
| `AppLockEngine.StaleFlagTreatedDifferently` | DumbPhoneApp/AppLockManager.swift:128-143 | a flag without an expiry is cleared by the update pass but kept by sync |
| `AppLockEngine.WrittenBack` | DumbPhoneApp/AppLockManager.swift:136-139 | sync's write-backs into settings never change the ids, their order or the length |
| `AppLockEngine.WrittenBackKeepsIdentity` | DumbPhoneApp/AppLockManager.swift:136-139 | with distinct ids, the write-back keeps every settings entry's id, name, icon, bundle id and requirement |
| `AppLockEngine.WrittenBackDistinct` | DumbPhoneApp/AppLockManager.swift:123-146 | with distinct ids, each expired settings entry is replaced at its own index by its cleared record; all others stay |
| `AppLockEngine.AppLockManager.constructor` | DumbPhoneApp/AppLockManager.swift:15-17 | the engine starts with an empty list, no prompt and no pending app |
| `AppLockEngine.AppLockManager.UpdateAppLockStatus` | DumbPhoneApp/AppLockManager.swift:31-54 | same length, ids and order; each entry becomes its update-pass record |
| `AppLockEngine.AppLockManager.RequestBypass` | DumbPhoneApp/AppLockManager.swift:66-69 | the app becomes `currentBypassApp` and the prompt is raised |
| `AppLockEngine.AppLockManager.GrantBypass` | DumbPhoneApp/AppLockManager.swift:71-79 | only the first entry with the id is granted until `now + duration` (3600 s when no duration is given); with an unknown id the list is unchanged |
| `AppLockEngine.AppLockManager.GrantBypassAndSave` | DumbPhoneApp/AppLockManager.swift:81-92 | the engine grant, the same grant on the first matching settings entry (using its own clock reading), then a save, with the same 3600 s default duration; settings are untouched when the id is absent there |
| `AppLockEngine.AppLockManager.AttemptToOpenApp` | DumbPhoneApp/AppLockManager.swift:94-100 | launches the bundle id iff `canOpenApp` holds, leaving the prompt state alone; otherwise requests a bypass for this app |
| `AppLockEngine.AppLockManager.SyncWithSettings` | DumbPhoneApp/AppLockManager.swift:120-147 | the engine list has the settings ids in the same order, and each entry is the synced record; settings receive the write-backs and are not saved |
| `AppLockEngine.AppLockManager.SyncEntry` | DumbPhoneApp/AppLockManager.swift:124-145 | one visit of the sync closure: the returned record is the synced record; only an expired entry found by id in settings is overwritten there, at its first index, and settings are otherwise unchanged |
| `AppLockEngine.SyncDistinct` | DumbPhoneApp/AppLockManager.swift:120-147 | with distinct ids, a settings entry whose bypass had expired becomes the engine entry at the same index, and every other entry stays as it was |
| `AppIconView.Progress` | DumbPhoneApp/AppIconView.swift:20-23 | progress is 1 for a non-positive requirement, never above 1, never below 0 for non-negative steps, and 1 exactly once the steps meet the requirement; below the requirement it is exactly steps/required (`p * required == steps`) |
| `AppIconView.Decoration` | DumbPhoneApp/AppIconView.swift:38-87 | the lock badge, progress ring and steps/required label appear iff the icon is not unlocked; the ring is drawn to the progress, which is short of 1 when the requirement is positive |
| `AppIconView.ViewAgreesAfterUpdate` | DumbPhoneApp/AppIconView.swift:16-18 | right after an update pass, `isUnlocked` equals `canOpenApp` |
| `AppIconView.ViewCanDisagreeWithEngine` | DumbPhoneApp/AppIconView.swift:16-18 | after expiry and before the next pass, a flagged app shows as unlocked although `canOpenApp` is false |
| `AppIconView.Tap` | DumbPhoneApp/AppIconView.swift:89-91 | a tap always runs `attemptToOpenApp` with this icon's record |
| `SettingsScreens.NewAppFromForm` | DumbPhoneApp/SettingsView.swift:296-302 | a typed name, icon or bundle id is kept; an empty one gets "New App", "📱" or "com.example.app"; no field ends empty; the record gets the init defaults |
| `SettingsScreens.AddedAppKeepsTypedName` | DumbPhoneApp/SettingsView.swift:296-306 | the Add button is enabled only with a name, so the "New App" default never reaches the list |
| `SettingsScreens.EditedUrlScheme` | DumbPhoneApp/SettingsView.swift:214 | an empty URL-scheme field keeps the stored scheme; a non-empty one replaces it |
| `SettingsScreens.EditedRecord` | DumbPhoneApp/SettingsView.swift:211-215 | Save Changes overwrites name, icon and requirement, and keeps id, bundle id, lock fields and step count |
| `SettingsScreens.SaveChanges` | DumbPhoneApp/SettingsView.swift:209-217 | if the id is still present, its first entry is rewritten that way and saved; otherwise neither list nor store changes |
| `SettingsScreens.EditEqualUnderIdEquality` | DumbPhoneApp/SettingsView.swift:209-217 | an edited list is still `==` to the old one under id-only equality, although a renamed record differs |
| `SettingsScreens.ReLockShown` | DumbPhoneApp/SettingsView.swift:194-195 | Re-lock shows only if the id is still in settings with an open or bypassed entry; it is always hidden for an absent id; with distinct ids, exactly that condition |
| `SettingsScreens.Stepped` | DumbPhoneApp/SettingsView.swift:183 | one stepper press stays within the range, and moves by exactly one step when there is room |
| `SettingsScreens.SteppersStayOnGrid` | DumbPhoneApp/SettingsView.swift:275 | both steppers (100…10000 by 100 for requirements, 1000…20000 by 500 for the goal, lines 34, 183, 275) keep an on-grid value on the grid |
| `SettingsScreens.DeletedSequentially` | DumbPhoneApp/SettingsView.swift:135-139 | as written, each offset indexes the list as it has shrunk; a result never grows and holds only original entries; an out-of-range offset has no result |
| `SettingsScreens.DeleteApps` | DumbPhoneApp/SettingsView.swift:135-139 | one `removeApp` per offset, in order; the final list is the sequential result; the store is saved if anything was removed; an out-of-range offset is reported as a trap |
| `SettingsScreens.KeptAfterDelete` | DumbPhoneApp/SettingsView.swift:135-139 | the intended deletion keeps only entries of unselected original offsets, and keeps every one of them; how many and where are stated by `KeptAfterDeleteCount` and `KeptAfterDeletePosition` |
| `SettingsScreens.KeptAfterDeletePrefix` | DumbPhoneApp/SettingsView.swift:135-139 | the intended deletion keeps the survivors in their original order: what it keeps of any prefix is a prefix of what it keeps of the whole list |
| `SettingsScreens.KeptAfterDeleteCount` | DumbPhoneApp/SettingsView.swift:135-139 | the intended deletion keeps exactly one entry per unselected row: the kept list is as long as the number of unselected rows |
| `SettingsScreens.KeptAfterDeletePosition` | DumbPhoneApp/SettingsView.swift:135-139 | the entry of each unselected row sits in the kept list at the number of unselected rows before it; with the count this determines the kept list entirely |
| `SettingsScreens.KeptAfterDeleteExact` | DumbPhoneApp/SettingsView.swift:135-139 | with distinct ids, an entry survives the intended deletion iff its row was not selected |
| `SettingsScreens.DeleteShiftsOffsets` | DumbPhoneApp/SettingsView.swift:135-139 | with three apps and rows {0,1} selected, the code keeps the second app, not the third; with rows {1,2}, it runs past the end |

## Findings

| source | as written | input that shows it | evidently intended | confidence | as-written member | corrected member |
|---|---|---|---|---|---|---|
| DumbPhoneApp/SettingsView.swift:135-139 | `deleteApps` reads `lockedApps[index]` after earlier offsets have already shrunk the list, so later offsets hit shifted rows or run past the end | three apps with distinct ids, rows {0,1} selected: the first and third are deleted; rows {1,2}: the index 2 is out of range in a 2-element list | delete the rows at the selected original offsets | medium, not executed; swipe-to-delete gives one offset, so this needs a multi-row deletion | `SettingsScreens.DeleteShiftsOffsets` | `SettingsScreens.KeptAfterDeleteExact` |

`SettingsScreens.DeleteApps` still models the code as written.
`SettingsScreens.KeptAfterDelete` is the corrected definition. No other part
of the model deletes rows, so nothing else depends on the choice.

## Left out

- Step source: the HealthKit step source is left out: authorisation, queries,
  the 60-second timer, the queue hops and the Double→Int conversion. Today's
  steps are a parameter.
- Launching: launching an app by URL (`openApp`, `canOpenURL`) is left out.
  A launch is the abstract outcome `Launch(bundleIdentifier)`.
- Plumbing: the Combine subscriptions, the `shared` singletons and the app
  wiring are left out. The update pass and sync are plain methods the caller
  invokes.
- Persistence: JSON coding and UserDefaults are a map from key to value, with
  a perfect codec.
  - `CorruptBlob` stands for undecodable data.
  - A value of another type reads as 0 or false.
- Screens: ContentView and OnboardingView are left out, along with the "Until
  Tomorrow" bypass, which depends on the calendar and the wall clock. The
  3600 s duration appears in a scenario lemma.
- Icon glyphs: choosing an emoji or text style for the icon glyph is left out.
  It depends on Unicode scalar properties and is presentation only.
- Undefined members: `reLockApp`, `showingCannotOpenAlert`,
  `cannotOpenAppName`, `hasCompletedOnboarding` and the onboarding helpers are
  used but not defined in DumbPhoneApp's sources. They are not modelled.
  - Likewise, `urlScheme` is not a field of `LockedApp` in AppModel.swift.
    Only the Save Changes merge rule is modelled, as `EditedUrlScheme` on
    plain strings. The add screen does pass a `urlScheme:` argument to the
    initialiser; it is dropped.
- `SaveChanges`: the Save Changes button then dismisses the screen. That is
  navigation, and it is left out.
- Time and durations: time is whole seconds, not `Date` with sub-second
  precision, and durations are whole seconds. `GrantBypassAndSave` takes the
  two clock readings of the source as two parameters.
- Immutability: `id` and `bundleIdentifier` (`let` fields) are not frozen by
  the type. Instead the per-record rules `UpdatedLockStatus`, `Synced`,
  `Bypassed` and `EditedRecord` are proved to keep them.
  - Sync's write-back into settings keeps them only when ids are distinct
    (`WrittenBackKeepsIdentity`). With a duplicated id, the first entry
    carrying it is overwritten by the synced record of a later entry, which
    may have another bundle id. The model follows the code there and promises
    only that the ids stay in place (`WrittenBack`).
- Clock readings: the source reads `Date()` again for every entry, both in
  the update pass (AppLockManager.swift:38) and in sync's map (line 128).
  The model uses one `now` for a whole pass, so it does not capture a pass
  that straddles an expiry.
- `Progress`: computed in exact reals, not IEEE doubles, so rounding is not
  modelled.
- `Stepped`: SwiftUI's stepper is not part of the source. One press is
  modelled as a step followed by clamping to the range.
- `SfSymbolForApp`: the table is stated in full. Lookups are proved for the
  sample names and the catalog names, not for all 93 keys one by one.
- `DeleteApps`: a Swift out-of-range subscript traps. The model reports it as
  `trapped` and stops, and it says nothing about the list after a trap.
