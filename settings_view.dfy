/**
 * The rules embedded in the settings screens (DumbPhoneApp/SettingsView.swift):
 * swipe-to-delete, the Save Changes merge of the edit screen, the field
 * defaults of the add screen, when the Re-lock button shows, and the stepper
 * ranges. Layout and navigation are not modelled.
 */
module SettingsScreens {
  import opened Wrappers
  import opened AppModel
  import opened UserSettingsStore

  // ----- Add App -----

  const NewAppDefaultName := "New App"
  const NewAppDefaultIcon := "📱"
  const NewAppDefaultBundle := "com.example.app"

  /** The record the Add button builds: an empty field takes its default, a typed one is kept. */
  function NewAppFromForm(id: string, appName: string, appIcon: string, bundleIdentifier: string,
                          requiredSteps: int): (r: LockedApp)
    ensures r.id == id && r.requiredSteps == requiredSteps
    ensures appName != "" ==> r.name == appName
    ensures appIcon != "" ==> r.iconSymbol == appIcon
    ensures bundleIdentifier != "" ==> r.bundleIdentifier == bundleIdentifier
    ensures appName == "" ==> r.name == NewAppDefaultName
    ensures appIcon == "" ==> r.iconSymbol == NewAppDefaultIcon
    ensures bundleIdentifier == "" ==> r.bundleIdentifier == NewAppDefaultBundle
    ensures r.name != "" && r.iconSymbol != "" && r.bundleIdentifier != ""
    ensures r.isLocked && r.currentSteps == 0 && !r.isBypassed && r.bypassUntil.None?
  {
    NewLockedApp(id,
                 if appName == "" then NewAppDefaultName else appName,
                 if appIcon == "" then NewAppDefaultIcon else appIcon,
                 if bundleIdentifier == "" then NewAppDefaultBundle else bundleIdentifier,
                 requiredSteps := requiredSteps)
  }

  /** The Add button is enabled only once a name is typed. */
  predicate AddEnabled(appName: string) {
    appName != ""
  }

  /** So the "New App" default name never reaches the list through the button. */
  lemma AddedAppKeepsTypedName(id: string, appName: string, appIcon: string, bundleIdentifier: string, requiredSteps: int)
    requires AddEnabled(appName)
    ensures NewAppFromForm(id, appName, appIcon, bundleIdentifier, requiredSteps).name == appName
    ensures appIcon == "" ==> NewAppFromForm(id, appName, appIcon, bundleIdentifier, requiredSteps).iconSymbol == NewAppDefaultIcon
    ensures bundleIdentifier == "" ==>
      NewAppFromForm(id, appName, appIcon, bundleIdentifier, requiredSteps).bundleIdentifier == NewAppDefaultBundle
  {
  }

  // ----- Edit App -----

  /** The URL scheme Save Changes stores: an empty field keeps the stored one. */
  function EditedUrlScheme(stored: string, entered: string): (r: string)
    ensures entered != "" ==> r == entered
    ensures entered == "" ==> r == stored
  {
    if entered == "" then stored else entered
  }

  /** The record Save Changes builds from the current settings entry: name, icon and requirement replaced. */
  function EditedRecord(current: LockedApp, appName: string, appIcon: string, requiredSteps: int): (r: LockedApp)
    ensures r.id == current.id && r.bundleIdentifier == current.bundleIdentifier
    ensures r.name == appName && r.iconSymbol == appIcon && r.requiredSteps == requiredSteps
    ensures LockFieldsEqual(r, current) && r.currentSteps == current.currentSteps
  {
    current.(name := appName, iconSymbol := appIcon, requiredSteps := requiredSteps)
  }

  /** Same `isLocked`, `isBypassed` and `bypassUntil`. */
  predicate LockFieldsEqual(a: LockedApp, b: LockedApp) {
    a.isLocked == b.isLocked && a.isBypassed == b.isBypassed && a.bypassUntil == b.bypassUntil
  }

  /**
   * Save Changes: if the edited app is still in the settings list, rewrite its
   * first entry through `updateApp`; otherwise nothing happens.
   */
  method SaveChanges(settings: UserSettings, app: LockedApp, appName: string, appIcon: string, requiredSteps: int)
    modifies settings`lockedApps, settings`defaults
    ensures FirstIndexOf(old(settings.lockedApps), app.id).None? ==>
      settings.lockedApps == old(settings.lockedApps) && settings.defaults == old(settings.defaults)
    ensures FirstIndexOf(old(settings.lockedApps), app.id).Some? ==>
      var i := FirstIndexOf(old(settings.lockedApps), app.id).value;
      && settings.lockedApps == old(settings.lockedApps)[i := EditedRecord(old(settings.lockedApps)[i], appName, appIcon, requiredSteps)]
      && settings.defaults == SavedStore(old(settings.defaults), settings.lockedApps,
                                         settings.dailyStepGoal, settings.isDumbPhoneModeEnabled)
  {
    var index := FirstIndexOf(settings.lockedApps, app.id);
    if index.Some? {
      var updatedApp := settings.lockedApps[index.value];
      updatedApp := updatedApp.(name := appName);
      updatedApp := updatedApp.(iconSymbol := appIcon);
      updatedApp := updatedApp.(requiredSteps := requiredSteps);
      settings.UpdateApp(updatedApp);
    }
  }

  /** Element-wise Swift `==` on two lists (ids only). */
  predicate SameAppLists(a: seq<LockedApp>, b: seq<LockedApp>) {
    |a| == |b| && forall i :: 0 <= i < |a| ==> SameApp(a[i], b[i])
  }

  /** An edit keeps the list `==` to the old one under the id-only equality, although the record changed. */
  lemma EditEqualUnderIdEquality(s: seq<LockedApp>, i: nat, appName: string, appIcon: string, requiredSteps: int)
    requires i < |s|
    ensures SameAppLists(s, s[i := EditedRecord(s[i], appName, appIcon, requiredSteps)])
    ensures appName != s[i].name ==> s[i := EditedRecord(s[i], appName, appIcon, requiredSteps)] != s
  {
    var t := s[i := EditedRecord(s[i], appName, appIcon, requiredSteps)];
    if appName != s[i].name {
      assert t[i] != s[i];
    }
  }

  /** The Re-lock button: shown when the app is still in settings and that entry is open or bypassed. */
  function ReLockShown(apps: seq<LockedApp>, id: string): (shown: bool)
    ensures shown ==> exists i :: 0 <= i < |apps| && apps[i].id == id && (!apps[i].isLocked || apps[i].isBypassed)
    ensures (forall i :: 0 <= i < |apps| ==> apps[i].id != id) ==> !shown
    ensures DistinctIds(apps) ==> forall i :: 0 <= i < |apps| && apps[i].id == id ==>
      (shown <==> !apps[i].isLocked || apps[i].isBypassed)
  {
    match FirstIndexOf(apps, id)
    case None => false
    case Some(i) => !apps[i].isLocked || apps[i].isBypassed
  }

  // ----- Steppers -----

  const RequiredStepsMin := 100
  const RequiredStepsMax := 10000
  const RequiredStepsStep := 100
  const StepGoalMin := 1000
  const StepGoalMax := 20000
  const StepGoalStep := 500

  /** One press of a stepper over `lo...hi` by `step` (SwiftUI clamps the new value to the range). */
  function Stepped(value: int, lo: int, hi: int, step: int, up: bool): (r: int)
    requires lo <= hi && step > 0
    ensures lo <= r <= hi
    ensures lo <= value <= hi && up && value + step <= hi ==> r == value + step
    ensures lo <= value <= hi && !up && value - step >= lo ==> r == value - step
  {
    var v := if up then value + step else value - step;
    if v < lo then lo else if v > hi then hi else v
  }

  /** A value on the stepper's grid stays on it, for both steppers of the screens. */
  lemma {:induction false} SteppersStayOnGrid(value: int, up: bool)
    ensures RequiredStepsMin <= value <= RequiredStepsMax && (value - RequiredStepsMin) % RequiredStepsStep == 0 ==>
      var r := Stepped(value, RequiredStepsMin, RequiredStepsMax, RequiredStepsStep, up);
      (r - RequiredStepsMin) % RequiredStepsStep == 0
    ensures StepGoalMin <= value <= StepGoalMax && (value - StepGoalMin) % StepGoalStep == 0 ==>
      var r := Stepped(value, StepGoalMin, StepGoalMax, StepGoalStep, up);
      (r - StepGoalMin) % StepGoalStep == 0
  {
  }

  // ----- Delete -----

  /**
   * `deleteApps` as written: for each offset in turn, remove (by id) the entry
   * at that offset of the list as it is now; `None` where an offset is past the
   * end of the shrunk list (the Swift subscript traps).
   */
  function DeletedSequentially(s: seq<LockedApp>, offsets: seq<int>): (r: Option<seq<LockedApp>>)
    ensures r.Some? ==> |r.value| <= |s|
    ensures r.Some? ==> forall x :: x in r.value ==> x in s
    decreases |offsets|
  {
    if offsets == [] then Some(s)
    else if 0 <= offsets[0] < |s| then
      RemoveByIdMembers(s, s[offsets[0]].id);
      DeletedSequentially(RemoveById(s, s[offsets[0]].id), offsets[1..])
    else None
  }

  /** `deleteApps`: remove the entries at the swiped offsets, one `removeApp` call per offset. */
  method DeleteApps(settings: UserSettings, offsets: seq<nat>) returns (trapped: bool)
    requires forall i, j :: 0 <= i < j < |offsets| ==> offsets[i] < offsets[j]
    modifies settings`lockedApps, settings`defaults
    ensures trapped <==> DeletedSequentially(old(settings.lockedApps), offsets).None?
    ensures !trapped ==> settings.lockedApps == DeletedSequentially(old(settings.lockedApps), offsets).value
    ensures !trapped && offsets == [] ==> settings.defaults == old(settings.defaults)
    ensures !trapped && offsets != [] ==>
      settings.defaults == SavedStore(old(settings.defaults), settings.lockedApps,
                                      settings.dailyStepGoal, settings.isDumbPhoneModeEnabled)
  {
    var p := 0;
    trapped := false;
    while p < |offsets|
      invariant 0 <= p <= |offsets|
      invariant settings.dailyStepGoal == old(settings.dailyStepGoal)
      invariant settings.isDumbPhoneModeEnabled == old(settings.isDumbPhoneModeEnabled)
      invariant DeletedSequentially(old(settings.lockedApps), offsets)
             == DeletedSequentially(settings.lockedApps, offsets[p..])
      invariant p == 0 ==> settings.defaults == old(settings.defaults)
      invariant p > 0 ==> settings.defaults == SavedStore(old(settings.defaults), settings.lockedApps,
                                                          settings.dailyStepGoal, settings.isDumbPhoneModeEnabled)
    {
      var index := offsets[p];
      if index >= |settings.lockedApps| {
        trapped := true;
        return;
      }
      ghost var storeBefore := settings.defaults;
      ghost var listBefore := settings.lockedApps;
      settings.RemoveApp(settings.lockedApps[index]);
      if p > 0 {
        SaveOverwrites(old(settings.defaults), listBefore, settings.dailyStepGoal, settings.isDumbPhoneModeEnabled,
                       settings.lockedApps, settings.dailyStepGoal, settings.isDumbPhoneModeEnabled);
      }
      assert offsets[p..][1..] == offsets[p + 1..];
      p := p + 1;
    }
    assert offsets[p..] == [];
  }

  /**
   * The evidently intended deletion: keep exactly the entries whose ORIGINAL
   * offsets were not selected, in order.
   */
  function KeptAfterDelete(s: seq<LockedApp>, offsets: set<int>): (r: seq<LockedApp>)
    ensures |r| <= |s|
    ensures forall x :: x in r ==> exists i :: 0 <= i < |s| && i !in offsets && s[i] == x
    ensures forall i :: 0 <= i < |s| && i !in offsets ==> s[i] in r
    decreases |s|
  {
    if s == [] then []
    else
      var kept := KeptAfterDelete(s[..|s| - 1], offsets);
      if |s| - 1 in offsets then kept else kept + [s[|s| - 1]]
  }

  /** The survivors keep their order: what is kept of a prefix is a prefix of what is kept. */
  lemma {:induction false} KeptAfterDeletePrefix(s: seq<LockedApp>, offsets: set<int>, n: nat)
    requires n <= |s|
    ensures KeptAfterDelete(s[..n], offsets) <= KeptAfterDelete(s, offsets)
    decreases |s|
  {
    if n == |s| {
      assert s[..n] == s;
    } else {
      var t := s[..|s| - 1];
      assert t[..n] == s[..n];
      KeptAfterDeletePrefix(t, offsets, n);
      var a, b, c := KeptAfterDelete(s[..n], offsets), KeptAfterDelete(t, offsets), KeptAfterDelete(s, offsets);
      assert b <= c;
      assert a <= b;
      assert forall k :: 0 <= k < |a| ==> a[k] == b[k] == c[k];
    }
  }

  /** The number of the rows `0 .. n - 1` that are not selected. */
  function Unselected(n: nat, offsets: set<int>): (r: nat)
    ensures r <= n
  {
    if n == 0 then 0 else Unselected(n - 1, offsets) + (if n - 1 in offsets then 0 else 1)
  }

  /** The intended deletion keeps one entry per unselected row, no more. */
  lemma {:induction false} KeptAfterDeleteCount(s: seq<LockedApp>, offsets: set<int>)
    ensures |KeptAfterDelete(s, offsets)| == Unselected(|s|, offsets)
    decreases |s|
  {
    if s != [] {
      var t := s[..|s| - 1];
      KeptAfterDeleteCount(t, offsets);
      var kept := KeptAfterDelete(t, offsets);
      assert KeptAfterDelete(s, offsets) == if |s| - 1 in offsets then kept else kept + [s[|s| - 1]];
    }
  }

  /**
   * Each unselected row's entry lands at the number of unselected rows before
   * it; with `KeptAfterDeleteCount` this fixes the kept list completely.
   */
  lemma {:induction false} KeptAfterDeletePosition(s: seq<LockedApp>, offsets: set<int>, i: nat)
    requires i < |s| && i !in offsets
    ensures Unselected(i, offsets) < |KeptAfterDelete(s, offsets)|
    ensures KeptAfterDelete(s, offsets)[Unselected(i, offsets)] == s[i]
    decreases |s|
  {
    var t := s[..|s| - 1];
    var kept := KeptAfterDelete(t, offsets);
    assert KeptAfterDelete(s, offsets) == if |s| - 1 in offsets then kept else kept + [s[|s| - 1]];
    if i == |s| - 1 {
      KeptAfterDeleteCount(t, offsets);
    } else {
      KeptAfterDeletePosition(t, offsets, i);
      assert t[i] == s[i];
    }
  }

  /** Without duplicate ids, the intended deletion removes precisely the selected rows. */
  lemma KeptAfterDeleteExact(s: seq<LockedApp>, offsets: set<int>, i: nat)
    requires DistinctIds(s) && i < |s|
    ensures s[i] in KeptAfterDelete(s, offsets) <==> i !in offsets
  {
    if s[i] in KeptAfterDelete(s, offsets) {
      var j :| 0 <= j < |s| && j !in offsets && s[j] == s[i];
      assert s[j].id == s[i].id;
    }
  }

  /**
   * Three apps, rows 0 and 1 selected: as written, the second removal hits the
   * shifted list and deletes the third app, keeping the second; rows 1 and 2
   * selected: the second offset is past the end of the shrunk list.
   */
  lemma DeleteShiftsOffsets(a: LockedApp, b: LockedApp, c: LockedApp)
    requires DistinctIds([a, b, c])
    ensures DeletedSequentially([a, b, c], [0, 1]) == Some([b])
    ensures KeptAfterDelete([a, b, c], {0, 1}) == [c]
    ensures DeletedSequentially([a, b, c], [1, 2]).None?
    ensures KeptAfterDelete([a, b, c], {1, 2}) == [a]
  {
    var s := [a, b, c];
    assert s[0].id != s[1].id && s[0].id != s[2].id && s[1].id != s[2].id;
    assert RemoveById([c], a.id) == [c];
    assert RemoveById([b, c], a.id) == [b, c];
    assert RemoveById(s, a.id) == [b, c];
    assert RemoveById([b, c], c.id) == [b];
    assert RemoveById([c], b.id) == [c];
    assert RemoveById(s, b.id) == [a, c];
    assert s[..2] == [a, b] && [a, b][..1] == [a] && [a][..0] == [];
    assert KeptAfterDelete([a], {0, 1}) == [];
    assert KeptAfterDelete([a, b], {0, 1}) == [];
    assert KeptAfterDelete([a], {1, 2}) == [a];
    assert KeptAfterDelete([a, b], {1, 2}) == [a];
  }
}
