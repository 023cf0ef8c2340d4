/**
 * The lock-state engine (DumbPhoneApp/AppLockManager.swift). The engine keeps
 * its own copy of the tracked apps and re-derives `isLocked`, `isBypassed`,
 * `bypassUntil` and `currentSteps` from today's step count, each app's
 * `requiredSteps` and the current time.
 *
 * The step count and the clock are parameters (`todaySteps`, `now`, in whole
 * seconds); launching an app is the outcome `Launch`.
 */
module AppLockEngine {
  import opened Wrappers
  import opened AppModel
  import opened UserSettingsStore

  /** `canOpenApp`: a running bypass, or enough steps. */
  predicate CanOpenApp(app: LockedApp, todaySteps: int, now: int) {
    LiveBypass(app, now) || todaySteps >= app.requiredSteps
  }

  /** The record after one pass of `updateAppLockStatus` (the body of its loop). */
  function UpdatedLockStatus(app: LockedApp, todaySteps: int, now: int): (r: LockedApp)
    ensures SameIdentity(app, r)
    ensures r.isLocked <==> !CanOpenApp(r, todaySteps, now)
    ensures r.isBypassed <==> LiveBypass(r, now)
    ensures CanOpenApp(r, todaySteps, now) == CanOpenApp(app, todaySteps, now)
    // a running bypass: only the two flags move
    ensures LiveBypass(app, now) ==> r.bypassUntil == app.bypassUntil && r.currentSteps == app.currentSteps
    // flagged but no running bypass: the bypass is cleared and the step count is NOT refreshed
    ensures !LiveBypass(app, now) && app.isBypassed ==> r.bypassUntil.None? && r.currentSteps == app.currentSteps
    // otherwise: the step count is refreshed and a stale expiry stays as it was
    ensures !LiveBypass(app, now) && !app.isBypassed ==> r.bypassUntil == app.bypassUntil && r.currentSteps == todaySteps
  {
    if LiveBypass(app, now) then
      app.(isLocked := false, isBypassed := true)
    else if app.isBypassed then
      app.(isBypassed := false, bypassUntil := None, isLocked := todaySteps < app.requiredSteps)
    else
      app.(currentSteps := todaySteps, isLocked := todaySteps < app.requiredSteps)
  }

  /** The lock-related fields: what a second pass must not change. */
  function LockFields(app: LockedApp): (bool, bool, Option<int>) {
    (app.isLocked, app.isBypassed, app.bypassUntil)
  }

  /** A second pass with the same inputs leaves the lock fields alone (only `currentSteps` may move). */
  lemma UpdateIdempotent(app: LockedApp, todaySteps: int, now: int)
    ensures LockFields(UpdatedLockStatus(UpdatedLockStatus(app, todaySteps, now), todaySteps, now))
         == LockFields(UpdatedLockStatus(app, todaySteps, now))
    ensures var once := UpdatedLockStatus(app, todaySteps, now);
            UpdatedLockStatus(once, todaySteps, now)
              == if LiveBypass(app, now) then once else once.(currentSteps := todaySteps)
  {
  }

  /** A third pass changes nothing at all. */
  lemma UpdateStableAfterTwoPasses(app: LockedApp, todaySteps: int, now: int)
    ensures var twice := UpdatedLockStatus(UpdatedLockStatus(app, todaySteps, now), todaySteps, now);
            UpdatedLockStatus(twice, todaySteps, now) == twice
  {
  }

  /** A running bypass unlocks the app whatever the step count. */
  lemma LiveBypassUnlocks(app: LockedApp, todaySteps: int, now: int)
    requires LiveBypass(app, now)
    ensures CanOpenApp(app, todaySteps, now)
    ensures !UpdatedLockStatus(app, todaySteps, now).isLocked && UpdatedLockStatus(app, todaySteps, now).isBypassed
  {
  }

  /** More steps never close an app that was open. */
  lemma CanOpenMonotone(app: LockedApp, s1: int, s2: int, now: int)
    requires s1 <= s2 && CanOpenApp(app, s1, now)
    ensures CanOpenApp(app, s2, now)
  {
  }

  /** With no positive requirement, any non-negative step count opens the app. */
  lemma NoRequirementAlwaysOpens(app: LockedApp, todaySteps: int, now: int)
    requires app.requiredSteps <= 0 && todaySteps >= 0
    ensures CanOpenApp(app, todaySteps, now) && !UpdatedLockStatus(app, todaySteps, now).isLocked
  {
  }

  /** The record `grantBypass` writes: flagged, expiring at `until`, unlocked. */
  function Bypassed(app: LockedApp, until: int): (r: LockedApp)
    ensures SameIdentity(app, r) && r.currentSteps == app.currentSteps
    ensures !r.isLocked && BypassCoherent(r)
    ensures forall t :: LiveBypass(r, t) <==> t < until
  {
    app.(isBypassed := true, bypassUntil := Some(until), isLocked := false)
  }

  /** Until the bypass runs out, every recomputation keeps the granted record. */
  lemma BypassHoldsUntilExpiry(app: LockedApp, until: int, todaySteps: int, now: int)
    requires now < until
    ensures UpdatedLockStatus(Bypassed(app, until), todaySteps, now) == Bypassed(app, until)
    ensures CanOpenApp(Bypassed(app, until), todaySteps, now)
  {
  }

  /** Once it has run out, the next recomputation clears it and falls back to the step rule. */
  lemma BypassExpires(app: LockedApp, until: int, todaySteps: int, now: int)
    requires now >= until
    ensures var r := UpdatedLockStatus(Bypassed(app, until), todaySteps, now);
            !r.isBypassed && r.bypassUntil.None? && r.isLocked == (todaySteps < app.requiredSteps)
  {
  }

  /** The one-hour bypass of the prompt (3600 s), granted on a locked app and observed after it ran out. */
  lemma OneHourBypassScenario(app: LockedApp, n: int)
    requires app.requiredSteps == 2000 && app.bypassUntil.None? && !app.isBypassed
    ensures UpdatedLockStatus(app, 500, n).isLocked
    ensures var granted := Bypassed(UpdatedLockStatus(app, 500, n), n + 3600);
            && CanOpenApp(granted, 500, n + 1)
            && UpdatedLockStatus(granted, 500, n + 3601).isLocked
            && UpdatedLockStatus(granted, 500, n + 3601).bypassUntil.None?
  {
  }

  /** The record `syncWithSettings` builds from a settings entry. */
  function Synced(app: LockedApp, todaySteps: int, now: int): (r: LockedApp)
    ensures SameIdentity(app, r) && r.currentSteps == todaySteps
    ensures r.isLocked <==> !CanOpenApp(r, todaySteps, now)
    ensures CanOpenApp(r, todaySteps, now) == CanOpenApp(app, todaySteps, now)
    ensures r.bypassUntil == if LiveBypass(app, now) then app.bypassUntil else None
    // the flag is decided by the expiry when there is one, and kept as stored otherwise
    ensures r.isBypassed == if app.bypassUntil.Some? then LiveBypass(app, now) else app.isBypassed
  {
    var updated := app.(currentSteps := todaySteps);
    if LiveBypass(updated, now) then
      updated.(isLocked := false, isBypassed := true)
    else if updated.bypassUntil.Some? then
      updated.(isBypassed := false, bypassUntil := None, isLocked := todaySteps < updated.requiredSteps)
    else
      updated.(isLocked := todaySteps < updated.requiredSteps)
  }

  /** A settings entry whose bypass has run out, which sync writes back. */
  predicate ExpiredBypass(app: LockedApp, now: int) {
    app.bypassUntil.Some? && !LiveBypass(app, now)
  }

  /**
   * On records whose flag and expiry agree, the two expiry tests (the flag in
   * `updateAppLockStatus`, the expiry in `syncWithSettings`) agree, and sync
   * is one update pass with the step count refreshed.
   */
  lemma SyncAgreesWithUpdate(app: LockedApp, todaySteps: int, now: int)
    requires BypassCoherent(app)
    ensures Synced(app, todaySteps, now) == UpdatedLockStatus(app, todaySteps, now).(currentSteps := todaySteps)
    ensures BypassCoherent(Synced(app, todaySteps, now))
  {
  }

  /** A stale expiry without the flag: update keeps it, sync clears it. */
  lemma StaleExpiryTreatedDifferently(app: LockedApp, todaySteps: int, now: int)
    requires !app.isBypassed && ExpiredBypass(app, now)
    ensures UpdatedLockStatus(app, todaySteps, now).bypassUntil == app.bypassUntil
    ensures Synced(app, todaySteps, now).bypassUntil.None?
  {
  }

  /** The flag without an expiry: update clears it, sync keeps it. */
  lemma StaleFlagTreatedDifferently(app: LockedApp, todaySteps: int, now: int)
    requires app.isBypassed && app.bypassUntil.None?
    ensures !UpdatedLockStatus(app, todaySteps, now).isBypassed
    ensures Synced(app, todaySteps, now).isBypassed
  {
  }

  /**
   * The settings list after sync has visited the first `n` entries of the
   * snapshot `s` (the settings list when sync starts): each expired entry
   * visited, in order, overwrites the first entry with its id.
   */
  function WrittenBack(s: seq<LockedApp>, n: nat, todaySteps: int, now: int): (r: seq<LockedApp>)
    requires n <= |s|
    ensures Ids(r) == Ids(s)
  {
    if n == 0 then s
    else
      var before := WrittenBack(s, n - 1, todaySteps, now);
      var app := s[n - 1];
      if ExpiredBypass(app, now) && FirstIndexOf(before, app.id).Some?
      then before[FirstIndexOf(before, app.id).value := Synced(app, todaySteps, now)]
      else before
  }

  /** Without duplicate ids, visiting entry `n - 1` writes back to index `n - 1` itself. */
  lemma WrittenBackDistinctStep(s: seq<LockedApp>, n: nat, todaySteps: int, now: int)
    requires DistinctIds(s) && 0 < n <= |s|
    ensures WrittenBack(s, n, todaySteps, now) ==
      if ExpiredBypass(s[n - 1], now)
      then WrittenBack(s, n - 1, todaySteps, now)[n - 1 := Synced(s[n - 1], todaySteps, now)]
      else WrittenBack(s, n - 1, todaySteps, now)
  {
    var before := WrittenBack(s, n - 1, todaySteps, now);
    assert FirstIndexOf(before, s[n - 1].id) == Some(n - 1) by {
      FirstIndexOfIds(before, s, s[n - 1].id);
      FirstIndexOfDistinct(s, n - 1);
    }
  }

  /**
   * Without duplicate ids the write-back is per entry: an expired entry is
   * replaced by its cleared record at its own index, every other entry stays.
   */
  lemma {:induction false} WrittenBackDistinct(s: seq<LockedApp>, n: nat, todaySteps: int, now: int)
    requires DistinctIds(s) && n <= |s|
    ensures |WrittenBack(s, n, todaySteps, now)| == |s|
    ensures forall j :: 0 <= j < |s| ==>
      WrittenBack(s, n, todaySteps, now)[j] ==
        if j < n && ExpiredBypass(s[j], now) then Synced(s[j], todaySteps, now) else s[j]
  {
    if n > 0 {
      WrittenBackDistinct(s, n - 1, todaySteps, now);
      WrittenBackDistinctStep(s, n, todaySteps, now);
      SyncedThrough(s, WrittenBack(s, n - 1, todaySteps, now), WrittenBack(s, n, todaySteps, now), n, todaySteps, now);
    }
  }

  /**
   * One step of `WrittenBackDistinct`, on plain lists: if `before` holds the
   * first `n - 1` entries synced, writing entry `n - 1` back in place gives
   * `after` with the first `n` synced.
   */
  lemma SyncedThrough(s: seq<LockedApp>, before: seq<LockedApp>, after: seq<LockedApp>, n: nat, todaySteps: int, now: int)
    requires 0 < n <= |s| && |before| == |s|
    requires forall j :: 0 <= j < |s| ==>
      before[j] == if j < n - 1 && ExpiredBypass(s[j], now) then Synced(s[j], todaySteps, now) else s[j]
    requires after == if ExpiredBypass(s[n - 1], now) then before[n - 1 := Synced(s[n - 1], todaySteps, now)] else before
    ensures |after| == |s|
    ensures forall j :: 0 <= j < |s| ==>
      after[j] == if j < n && ExpiredBypass(s[j], now) then Synced(s[j], todaySteps, now) else s[j]
  {
    forall j | 0 <= j < |s|
      ensures after[j] == if j < n && ExpiredBypass(s[j], now) then Synced(s[j], todaySteps, now) else s[j]
    {
      if j == n - 1 {
        assert before[j] == s[j];
      } else {
        assert after[j] == before[j];
      }
    }
  }

  /** With distinct ids, sync's write-back keeps every entry's id, name, icon, bundle id and requirement. */
  lemma WrittenBackKeepsIdentity(s: seq<LockedApp>, todaySteps: int, now: int)
    requires DistinctIds(s)
    ensures |WrittenBack(s, |s|, todaySteps, now)| == |s|
    ensures forall j :: 0 <= j < |s| ==> SameIdentity(s[j], WrittenBack(s, |s|, todaySteps, now)[j])
  {
    WrittenBackDistinct(s, |s|, todaySteps, now);
  }

  /** A list of synced records carries the ids of the list it was built from, in order. */
  lemma SyncedIds(src: seq<LockedApp>, built: seq<LockedApp>, todaySteps: int, now: int)
    requires |built| == |src|
    requires forall i :: 0 <= i < |src| ==> built[i] == Synced(src[i], todaySteps, now)
    ensures Ids(built) == Ids(src)
  {
    assert forall i :: 0 <= i < |src| ==> built[i].id == src[i].id;
  }

  /** What `attemptToOpenApp` does: launch by bundle id, or offer a bypass. */
  datatype OpenOutcome = Launch(bundleIdentifier: string) | OfferBypass

  /** `AppLockManager`. */
  class AppLockManager {
    var lockedApps: seq<LockedApp>
    var showingBypassAlert: bool
    var currentBypassApp: Option<LockedApp>

    constructor ()
      ensures lockedApps == [] && !showingBypassAlert && currentBypassApp == None
    {
      lockedApps := [];
      showingBypassAlert := false;
      currentBypassApp := None;
    }

    /** `updateAppLockStatus`: one pass over the list, editing each entry in place. */
    method UpdateAppLockStatus(todaySteps: int, now: int)
      modifies this`lockedApps
      ensures |lockedApps| == |old(lockedApps)| && Ids(lockedApps) == Ids(old(lockedApps))
      ensures forall i :: 0 <= i < |lockedApps| ==>
        lockedApps[i] == UpdatedLockStatus(old(lockedApps)[i], todaySteps, now)
    {
      var index := 0;
      while index < |lockedApps|
        invariant 0 <= index <= |lockedApps| == |old(lockedApps)|
        invariant forall k :: 0 <= k < index ==> lockedApps[k] == UpdatedLockStatus(old(lockedApps)[k], todaySteps, now)
        invariant forall k :: index <= k < |lockedApps| ==> lockedApps[k] == old(lockedApps)[k]
      {
        var app := lockedApps[index];
        if app.bypassUntil.Some? && app.bypassUntil.value > now {
          app := app.(isLocked := false, isBypassed := true);
        } else if app.isBypassed {
          app := app.(isBypassed := false, bypassUntil := None, isLocked := todaySteps < app.requiredSteps);
        } else {
          app := app.(currentSteps := todaySteps, isLocked := todaySteps < app.requiredSteps);
        }
        lockedApps := lockedApps[index := app];
        index := index + 1;
      }
      assert forall i :: 0 <= i < |lockedApps| ==> lockedApps[i].id == old(lockedApps)[i].id;
    }

    /** `requestBypass`: remember the app and raise the bypass prompt. */
    method RequestBypass(app: LockedApp)
      modifies this`currentBypassApp, this`showingBypassAlert
      ensures currentBypassApp == Some(app) && showingBypassAlert
    {
      currentBypassApp := Some(app);
      showingBypassAlert := true;
    }

    /** `grantBypass`: bypass the first entry with the app's id until `now + duration` (an hour unless given); unknown ids are ignored. */
    method GrantBypass(app: LockedApp, now: int, duration: int := 3600)
      modifies this`lockedApps
      ensures FirstIndexOf(old(lockedApps), app.id).None? ==> lockedApps == old(lockedApps)
      ensures FirstIndexOf(old(lockedApps), app.id).Some? ==>
        var i := FirstIndexOf(old(lockedApps), app.id).value;
        lockedApps == old(lockedApps)[i := Bypassed(old(lockedApps)[i], now + duration)]
    {
      var index := FirstIndexOf(lockedApps, app.id);
      if index.Some? {
        var updatedApp := lockedApps[index.value];
        updatedApp := updatedApp.(isBypassed := true);
        updatedApp := updatedApp.(bypassUntil := Some(now + duration));
        updatedApp := updatedApp.(isLocked := false);
        lockedApps := lockedApps[index.value := updatedApp];
      }
    }

    /**
     * `grantBypassAndSave`: the engine grant, then the same grant on the
     * settings copy with its own clock reading `settingsNow`, then a save;
     * settings are left alone when the id is not there.
     */
    method GrantBypassAndSave(app: LockedApp, settings: UserSettings, now: int, settingsNow: int, duration: int := 3600)
      modifies this`lockedApps, settings`lockedApps, settings`defaults
      ensures FirstIndexOf(old(lockedApps), app.id).None? ==> lockedApps == old(lockedApps)
      ensures FirstIndexOf(old(lockedApps), app.id).Some? ==>
        var i := FirstIndexOf(old(lockedApps), app.id).value;
        lockedApps == old(lockedApps)[i := Bypassed(old(lockedApps)[i], now + duration)]
      ensures FirstIndexOf(old(settings.lockedApps), app.id).None? ==>
        settings.lockedApps == old(settings.lockedApps) && settings.defaults == old(settings.defaults)
      ensures FirstIndexOf(old(settings.lockedApps), app.id).Some? ==>
        var j := FirstIndexOf(old(settings.lockedApps), app.id).value;
        && settings.lockedApps == old(settings.lockedApps)[j := Bypassed(old(settings.lockedApps)[j], settingsNow + duration)]
        && settings.defaults == SavedStore(old(settings.defaults), settings.lockedApps,
                                           settings.dailyStepGoal, settings.isDumbPhoneModeEnabled)
    {
      GrantBypass(app, now, duration);
      var index := FirstIndexOf(settings.lockedApps, app.id);
      if index.Some? {
        var updatedApp := settings.lockedApps[index.value];
        updatedApp := updatedApp.(isBypassed := true);
        updatedApp := updatedApp.(bypassUntil := Some(settingsNow + duration));
        updatedApp := updatedApp.(isLocked := false);
        settings.lockedApps := settings.lockedApps[index.value := updatedApp];
        settings.SaveSettings();
      }
    }

    /** `attemptToOpenApp`: launch when `canOpenApp` holds, otherwise ask for a bypass. */
    method AttemptToOpenApp(app: LockedApp, todaySteps: int, now: int) returns (outcome: OpenOutcome)
      modifies this`currentBypassApp, this`showingBypassAlert
      ensures CanOpenApp(app, todaySteps, now) ==>
        outcome == Launch(app.bundleIdentifier)
        && currentBypassApp == old(currentBypassApp) && showingBypassAlert == old(showingBypassAlert)
      ensures !CanOpenApp(app, todaySteps, now) ==>
        outcome == OfferBypass && currentBypassApp == Some(app) && showingBypassAlert
    {
      if LiveBypass(app, now) || todaySteps >= app.requiredSteps {
        outcome := Launch(app.bundleIdentifier);
      } else {
        RequestBypass(app);
        outcome := OfferBypass;
      }
    }

    /**
     * The closure `syncWithSettings` maps over the settings list: the synced
     * record of one entry, written back to the first settings entry with its
     * id when its bypass has expired.
     */
    method SyncEntry(settings: UserSettings, app: LockedApp, todaySteps: int, now: int) returns (updatedApp: LockedApp)
      modifies settings`lockedApps
      ensures updatedApp == Synced(app, todaySteps, now)
      ensures settings.lockedApps ==
        if ExpiredBypass(app, now) && FirstIndexOf(old(settings.lockedApps), app.id).Some?
        then old(settings.lockedApps)[FirstIndexOf(old(settings.lockedApps), app.id).value := updatedApp]
        else old(settings.lockedApps)
    {
      updatedApp := app.(currentSteps := todaySteps);
      if updatedApp.bypassUntil.Some? && updatedApp.bypassUntil.value > now {
        updatedApp := updatedApp.(isLocked := false, isBypassed := true);
      } else if updatedApp.bypassUntil.Some? {
        updatedApp := updatedApp.(isBypassed := false, bypassUntil := None);
        updatedApp := updatedApp.(isLocked := todaySteps < updatedApp.requiredSteps);
        var index := FirstIndexOf(settings.lockedApps, app.id);
        if index.Some? {
          settings.lockedApps := settings.lockedApps[index.value := updatedApp];
        }
      } else {
        updatedApp := updatedApp.(isLocked := todaySteps < updatedApp.requiredSteps);
      }
    }

    /**
     * `syncWithSettings`: rebuild the engine list from the settings list,
     * writing each cleared expired entry back to the first settings entry
     * with its id (without saving).
     */
    method SyncWithSettings(settings: UserSettings, todaySteps: int, now: int)
      modifies this`lockedApps, settings`lockedApps
      ensures |lockedApps| == |old(settings.lockedApps)| && Ids(lockedApps) == Ids(old(settings.lockedApps))
      ensures forall i :: 0 <= i < |lockedApps| ==>
        lockedApps[i] == Synced(old(settings.lockedApps)[i], todaySteps, now)
      ensures settings.lockedApps == WrittenBack(old(settings.lockedApps), |old(settings.lockedApps)|, todaySteps, now)
    {
      var snapshot := settings.lockedApps;
      var rebuilt: seq<LockedApp> := [];
      var k := 0;
      while k < |snapshot|
        invariant 0 <= k <= |snapshot| && |rebuilt| == k
        invariant forall i :: 0 <= i < k ==> rebuilt[i] == Synced(snapshot[i], todaySteps, now)
        invariant settings.lockedApps == WrittenBack(snapshot, k, todaySteps, now)
      {
        var app := snapshot[k];
        var updatedApp := SyncEntry(settings, app, todaySteps, now);
        rebuilt := rebuilt + [updatedApp];
        k := k + 1;
      }
      lockedApps := rebuilt;
      assert Ids(lockedApps) == Ids(snapshot) by {
        SyncedIds(snapshot, rebuilt, todaySteps, now);
      }
    }
  }

  /** Sync without duplicate ids: the settings entry at each index is cleared exactly when it had expired. */
  method SyncDistinct(manager: AppLockManager, settings: UserSettings, todaySteps: int, now: int)
    requires DistinctIds(settings.lockedApps)
    modifies manager`lockedApps, settings`lockedApps
    ensures Ids(manager.lockedApps) == Ids(old(settings.lockedApps))
    ensures |settings.lockedApps| == |old(settings.lockedApps)|
    ensures forall j :: 0 <= j < |settings.lockedApps| ==>
      settings.lockedApps[j] ==
        if ExpiredBypass(old(settings.lockedApps)[j], now) then manager.lockedApps[j]
        else old(settings.lockedApps)[j]
  {
    ghost var before := settings.lockedApps;
    manager.SyncWithSettings(settings, todaySteps, now);
    WrittenBackDistinct(before, |before|, todaySteps, now);
  }
}
