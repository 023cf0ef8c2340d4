/**
 * The durable settings store (DumbPhoneApp/UserSettings.swift): the tracked
 * app list, the daily step goal and the DumbPhone-mode switch, written to and
 * read from a key-value store.
 *
 * The platform key-value store and its JSON codec are modelled as a map from
 * key to `StoredValue`; encoding always succeeds and decoding gives back what
 * was encoded, while `CorruptBlob` stands for data that fails to decode.
 */
module UserSettingsStore {
  import opened Wrappers
  import opened AppModel

  datatype StoredValue =
    | AppsBlob(apps: seq<LockedApp>)
    | CorruptBlob
    | IntValue(n: int)
    | BoolValue(b: bool)

  type Store = map<string, StoredValue>

  const AppsKey := "lockedApps"
  const StepGoalKey := "dailyStepGoal"
  const DumbPhoneModeKey := "isDumbPhoneModeEnabled"
  const DefaultStepGoal := 5000

  /** `data(forKey: appsKey)` followed by a JSON decode; `None` when either fails. */
  function DecodedApps(store: Store): (r: Option<seq<LockedApp>>)
    ensures r.Some? <==> AppsKey in store && store[AppsKey].AppsBlob?
    ensures r.Some? ==> r.value == store[AppsKey].apps
  {
    if AppsKey in store && store[AppsKey].AppsBlob? then Some(store[AppsKey].apps) else None
  }

  /** `integer(forKey:)`: the stored integer, 0 when the key holds none. */
  function StoredInteger(store: Store, key: string): (n: int)
    ensures (key !in store || !store[key].IntValue?) ==> n == 0
    ensures key in store && store[key].IntValue? ==> n == store[key].n
  {
    if key in store && store[key].IntValue? then store[key].n else 0
  }

  /** `bool(forKey:)`: the stored flag, false when the key holds none. */
  function StoredBool(store: Store, key: string): (b: bool)
    ensures b <==> key in store && store[key] == BoolValue(true)
  {
    key in store && store[key].BoolValue? && store[key].b
  }

  /** The step goal `loadSettings` derives: a stored 0 (or a missing key) becomes 5000. */
  function LoadedStepGoal(store: Store): (goal: int)
    ensures goal != 0
    ensures StoredInteger(store, StepGoalKey) != 0 ==> goal == StoredInteger(store, StepGoalKey)
    ensures StoredInteger(store, StepGoalKey) == 0 ==> goal == DefaultStepGoal
  {
    var n := StoredInteger(store, StepGoalKey);
    if n == 0 then DefaultStepGoal else n
  }

  /** The list `loadSettings` leaves: the decoded list, or the current one when nothing decodes. */
  function LoadedApps(store: Store, current: seq<LockedApp>): (apps: seq<LockedApp>)
    ensures DecodedApps(store).None? ==> apps == current
    ensures DecodedApps(store).Some? ==> apps == DecodedApps(store).value
  {
    match DecodedApps(store)
    case Some(decoded) => decoded
    case None => current
  }

  /** The store after `saveSettings`: all three keys overwritten, every other key kept. */
  function SavedStore(store: Store, apps: seq<LockedApp>, goal: int, mode: bool): (s: Store)
    ensures s.Keys == store.Keys + {AppsKey, StepGoalKey, DumbPhoneModeKey}
    ensures forall k :: k in store && k != AppsKey && k != StepGoalKey && k != DumbPhoneModeKey ==> s[k] == store[k]
  {
    store[AppsKey := AppsBlob(apps)][StepGoalKey := IntValue(goal)][DumbPhoneModeKey := BoolValue(mode)]
  }

  /** Saving then loading restores the list, the mode and a non-zero goal. */
  lemma LoadAfterSave(store: Store, current: seq<LockedApp>, apps: seq<LockedApp>, goal: int, mode: bool)
    ensures LoadedApps(SavedStore(store, apps, goal, mode), current) == apps
    ensures LoadedStepGoal(SavedStore(store, apps, goal, mode)) == if goal == 0 then DefaultStepGoal else goal
    ensures StoredBool(SavedStore(store, apps, goal, mode), DumbPhoneModeKey) == mode
  {
    var s := SavedStore(store, apps, goal, mode);
    assert s[AppsKey] == AppsBlob(apps);
    assert s[StepGoalKey] == IntValue(goal);
    assert s[DumbPhoneModeKey] == BoolValue(mode);
  }

  /** A later save wipes out an earlier one: list, goal and switch alike. */
  lemma SaveOverwrites(store: Store, a: seq<LockedApp>, goal1: int, mode1: bool,
                       b: seq<LockedApp>, goal2: int, mode2: bool)
    ensures SavedStore(SavedStore(store, a, goal1, mode1), b, goal2, mode2) == SavedStore(store, b, goal2, mode2)
  {
  }

  /** On an empty store the switch reads false, although the field is declared `true`. */
  lemma FreshStoreDisablesMode()
    ensures !StoredBool(map[], DumbPhoneModeKey) && LoadedStepGoal(map[]) == DefaultStepGoal
  {
  }

  /** `lockedApps.removeAll { $0.id == id }`. */
  function RemoveById(s: seq<LockedApp>, id: string): (r: seq<LockedApp>)
    ensures |r| <= |s|
  {
    if s == [] then []
    else if s[0].id == id then RemoveById(s[1..], id)
    else [s[0]] + RemoveById(s[1..], id)
  }

  /** The survivors of a removal are exactly the entries with another id. */
  lemma {:induction false} RemoveByIdMembers(s: seq<LockedApp>, id: string)
    ensures forall x :: x in RemoveById(s, id) <==> x in s && x.id != id
  {
    if s != [] {
      RemoveByIdMembers(s[1..], id);
      assert s == [s[0]] + s[1..];
    }
  }

  /** Removal works entry by entry, so it keeps the survivors in their original order. */
  lemma {:induction false} RemoveByIdAppend(a: seq<LockedApp>, b: seq<LockedApp>, id: string)
    ensures RemoveById(a + b, id) == RemoveById(a, id) + RemoveById(b, id)
  {
    if a == [] {
      assert a + b == b;
    } else {
      assert (a + b)[1..] == a[1..] + b;
      RemoveByIdAppend(a[1..], b, id);
    }
  }

  /** Removing an id that is absent changes nothing. */
  lemma {:induction false} RemoveAbsentId(s: seq<LockedApp>, id: string)
    requires forall j :: 0 <= j < |s| ==> s[j].id != id
    ensures RemoveById(s, id) == s
  {
    if s != [] {
      RemoveAbsentId(s[1..], id);
    }
  }

  /** Removing an id carried by one entry only, with nothing before or after it carrying it. */
  lemma RemoveOnlyCarrier(front: seq<LockedApp>, x: LockedApp, back: seq<LockedApp>)
    requires forall j :: 0 <= j < |front| ==> front[j].id != x.id
    requires forall j :: 0 <= j < |back| ==> back[j].id != x.id
    ensures RemoveById(front + [x] + back, x.id) == front + back
  {
    var id := x.id;
    assert RemoveById(front + [x] + back, id) == RemoveById(front + [x], id) + RemoveById(back, id) by {
      RemoveByIdAppend(front + [x], back, id);
    }
    assert RemoveById(front + [x], id) == RemoveById(front, id) by {
      RemoveByIdAppend(front, [x], id);
      assert RemoveById([x], id) == [];
    }
    assert RemoveById(front, id) == front by {
      RemoveAbsentId(front, id);
    }
    assert RemoveById(back, id) == back by {
      RemoveAbsentId(back, id);
    }
  }

  /** Removing the id of the only entry carrying it drops exactly that entry. */
  lemma RemoveDistinctAt(s: seq<LockedApp>, i: nat)
    requires DistinctIds(s) && i < |s|
    ensures RemoveById(s, s[i].id) == s[..i] + s[i+1..]
  {
    var front, back := s[..i], s[i+1..];
    assert s == front + [s[i]] + back;
    assert forall j :: 0 <= j < |front| ==> front[j].id != s[i].id by {
      forall j | 0 <= j < |front| ensures front[j].id != s[i].id {
        assert front[j] == s[j];
      }
    }
    assert forall j :: 0 <= j < |back| ==> back[j].id != s[i].id by {
      forall j | 0 <= j < |back| ensures back[j].id != s[i].id {
        assert back[j] == s[i + 1 + j];
      }
    }
    RemoveOnlyCarrier(front, s[i], back);
  }

  /** `UserSettings`: the in-memory settings, beside the key-value store they persist to. */
  class UserSettings {
    var lockedApps: seq<LockedApp>
    var dailyStepGoal: int
    var isDumbPhoneModeEnabled: bool
    /** The platform key-value store. */
    var defaults: Store

    /**
     * `init`: load, then install the catalog (with the caller's fresh ids)
     * and save when the loaded list is empty.
     */
    constructor (store: Store, catalogIds: seq<string>)
      requires |catalogIds| == |Catalog|
      ensures dailyStepGoal == LoadedStepGoal(store)
      ensures isDumbPhoneModeEnabled == StoredBool(store, DumbPhoneModeKey)
      ensures LoadedApps(store, []) != [] ==> lockedApps == LoadedApps(store, []) && defaults == store
      ensures LoadedApps(store, []) == [] ==>
        && lockedApps == DefaultApps(catalogIds)
        && defaults == SavedStore(store, lockedApps, dailyStepGoal, isDumbPhoneModeEnabled)
    {
      lockedApps := [];
      dailyStepGoal := DefaultStepGoal;
      isDumbPhoneModeEnabled := true;
      defaults := store;
      new;
      LoadSettings();
      if lockedApps == [] {
        lockedApps := DefaultApps(catalogIds);
        SaveSettings();
      }
    }

    /** `loadSettings`. */
    method LoadSettings()
      modifies this`lockedApps, this`dailyStepGoal, this`isDumbPhoneModeEnabled
      ensures lockedApps == LoadedApps(defaults, old(lockedApps))
      ensures dailyStepGoal == LoadedStepGoal(defaults)
      ensures isDumbPhoneModeEnabled == StoredBool(defaults, DumbPhoneModeKey)
    {
      var decoded := DecodedApps(defaults);
      if decoded.Some? {
        lockedApps := decoded.value;
      }
      dailyStepGoal := StoredInteger(defaults, StepGoalKey);
      if dailyStepGoal == 0 {
        dailyStepGoal := DefaultStepGoal;
      }
      isDumbPhoneModeEnabled := StoredBool(defaults, DumbPhoneModeKey);
    }

    /** `saveSettings`. */
    method SaveSettings()
      modifies this`defaults
      ensures defaults == SavedStore(old(defaults), lockedApps, dailyStepGoal, isDumbPhoneModeEnabled)
    {
      defaults := defaults[AppsKey := AppsBlob(lockedApps)];
      defaults := defaults[StepGoalKey := IntValue(dailyStepGoal)];
      defaults := defaults[DumbPhoneModeKey := BoolValue(isDumbPhoneModeEnabled)];
    }

    /** `addApp`: append at the end and save. */
    method AddApp(app: LockedApp)
      modifies this`lockedApps, this`defaults
      ensures lockedApps == old(lockedApps) + [app]
      ensures defaults == SavedStore(old(defaults), lockedApps, dailyStepGoal, isDumbPhoneModeEnabled)
    {
      lockedApps := lockedApps + [app];
      SaveSettings();
    }

    /** `removeApp`: drop every entry with the app's id and save. */
    method RemoveApp(app: LockedApp)
      modifies this`lockedApps, this`defaults
      ensures lockedApps == RemoveById(old(lockedApps), app.id)
      ensures defaults == SavedStore(old(defaults), lockedApps, dailyStepGoal, isDumbPhoneModeEnabled)
    {
      lockedApps := RemoveById(lockedApps, app.id);
      SaveSettings();
    }

    /** `updateApp`: replace the first entry with the app's id and save; nothing at all for an unknown id. */
    method UpdateApp(app: LockedApp)
      modifies this`lockedApps, this`defaults
      ensures FirstIndexOf(old(lockedApps), app.id).None? ==>
        lockedApps == old(lockedApps) && defaults == old(defaults)
      ensures FirstIndexOf(old(lockedApps), app.id).Some? ==>
        && lockedApps == old(lockedApps)[FirstIndexOf(old(lockedApps), app.id).value := app]
        && defaults == SavedStore(old(defaults), lockedApps, dailyStepGoal, isDumbPhoneModeEnabled)
    {
      var index := FirstIndexOf(lockedApps, app.id);
      if index.Some? {
        lockedApps := lockedApps[index.value := app];
        SaveSettings();
      }
    }

    /** A save followed by a load gives the same settings back (the goal if it was non-zero). */
    method SaveThenLoad()
      modifies this`defaults, this`lockedApps, this`dailyStepGoal, this`isDumbPhoneModeEnabled
      ensures lockedApps == old(lockedApps)
      ensures isDumbPhoneModeEnabled == old(isDumbPhoneModeEnabled)
      ensures dailyStepGoal == if old(dailyStepGoal) == 0 then DefaultStepGoal else old(dailyStepGoal)
    {
      SaveSettings();
      LoadAfterSave(old(defaults), lockedApps, lockedApps, dailyStepGoal, isDumbPhoneModeEnabled);
      LoadSettings();
    }
  }
}
