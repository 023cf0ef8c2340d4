/**
 * The decision logic of one icon on the home grid
 * (DumbPhoneApp/AppIconView.swift): whether it shows as unlocked, how far
 * its progress ring is drawn, which decorations appear, and what a tap does.
 * Layout, fonts and emoji detection are not modelled.
 */
module AppIconView {
  import opened Wrappers
  import opened AppModel
  import opened AppLockEngine

  /** `isUnlocked`: enough steps, or the stored bypass flag (not the expiry). */
  predicate IsUnlocked(app: LockedApp, todaySteps: int) {
    todaySteps >= app.requiredSteps || app.isBypassed
  }

  /** `progress`: steps over requirement, capped at 1; 1 for a non-positive requirement. */
  function Progress(app: LockedApp, todaySteps: int): (p: real)
    ensures app.requiredSteps <= 0 ==> p == 1.0
    ensures p <= 1.0
    ensures todaySteps >= 0 ==> p >= 0.0
    ensures p == 1.0 <==> todaySteps >= app.requiredSteps || app.requiredSteps <= 0
    ensures 0 < app.requiredSteps && todaySteps < app.requiredSteps ==>
      p * app.requiredSteps as real == todaySteps as real
  {
    if app.requiredSteps <= 0 then 1.0
    else
      var ratio := todaySteps as real / app.requiredSteps as real;
      RatioBelowOne(todaySteps, app.requiredSteps);
      if ratio < 1.0 then ratio else 1.0
  }

  /** A ratio of integers over a positive denominator is below 1 exactly when the numerator is smaller. */
  lemma RatioBelowOne(n: int, d: int)
    requires d > 0
    ensures (n as real / d as real < 1.0) <==> n < d
    ensures n >= 0 ==> n as real / d as real >= 0.0
    ensures (n as real / d as real) * d as real == n as real
  {
    var q := n as real / d as real;
    assert q * d as real == n as real;
    assert q < 1.0 ==> q * d as real < d as real;
    assert q >= 1.0 ==> q * d as real >= d as real;
  }

  /** The decorations drawn over a locked icon. */
  datatype IconDecoration = IconDecoration(
    lockOverlay: bool,
    progressRing: Option<real>,
    stepsLabel: Option<(int, int)>)

  /** The lock badge, the progress ring and the "steps/required" label, all shown only while locked. */
  function Decoration(app: LockedApp, todaySteps: int): (d: IconDecoration)
    ensures d.lockOverlay <==> !IsUnlocked(app, todaySteps)
    ensures d.progressRing.Some? <==> !IsUnlocked(app, todaySteps)
    ensures d.progressRing.Some? ==> d.progressRing.value == Progress(app, todaySteps)
    ensures d.progressRing.Some? && app.requiredSteps > 0 ==> d.progressRing.value < 1.0
    ensures d.stepsLabel.Some? <==> !IsUnlocked(app, todaySteps)
    ensures d.stepsLabel.Some? ==> d.stepsLabel.value == (todaySteps, app.requiredSteps)
  {
    if IsUnlocked(app, todaySteps) then IconDecoration(false, None, None)
    else IconDecoration(true, Some(Progress(app, todaySteps)), Some((todaySteps, app.requiredSteps)))
  }

  /** Right after an update pass, the icon and `canOpenApp` agree. */
  lemma ViewAgreesAfterUpdate(app: LockedApp, todaySteps: int, now: int)
    ensures var r := UpdatedLockStatus(app, todaySteps, now);
            IsUnlocked(r, todaySteps) == CanOpenApp(r, todaySteps, now)
  {
  }

  /** Once a bypass has run out but before the next pass, the icon shows open while a tap asks for a bypass. */
  lemma ViewCanDisagreeWithEngine(app: LockedApp, todaySteps: int, now: int)
    requires app.isBypassed && app.bypassUntil == Some(now) && todaySteps < app.requiredSteps
    ensures IsUnlocked(app, todaySteps) && !CanOpenApp(app, todaySteps, now)
  {
  }

  /** `onTapGesture`: every tap goes to `attemptToOpenApp` with this icon's record. */
  method Tap(manager: AppLockManager, app: LockedApp, todaySteps: int, now: int) returns (outcome: OpenOutcome)
    modifies manager`currentBypassApp, manager`showingBypassAlert
    ensures CanOpenApp(app, todaySteps, now) ==>
      outcome == Launch(app.bundleIdentifier)
      && manager.currentBypassApp == old(manager.currentBypassApp)
      && manager.showingBypassAlert == old(manager.showingBypassAlert)
    ensures !CanOpenApp(app, todaySteps, now) ==>
      outcome == OfferBypass && manager.currentBypassApp == Some(app) && manager.showingBypassAlert
  {
    outcome := manager.AttemptToOpenApp(app, todaySteps, now);
  }
}
