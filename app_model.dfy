/**
 * The `LockedApp` record (DumbPhoneApp/AppModel.swift): one tracked
 * application, its id-only equality, the record initialiser with its
 * defaults, and the built-in catalog `defaultApps`.
 *
 * Dates are whole seconds (`int`); `bypassUntil` is `None` for Swift's nil.
 */
module AppModel {
  import opened Wrappers

  datatype LockedApp = LockedApp(
    id: string,
    name: string,
    iconSymbol: string,
    bundleIdentifier: string,
    isLocked: bool,
    requiredSteps: int,
    currentSteps: int,
    isBypassed: bool,
    bypassUntil: Option<int>)

  /** Swift's `==` on LockedApp: only the ids are compared. */
  predicate SameApp(a: LockedApp, b: LockedApp) {
    a.id == b.id
  }

  /** The fields the lock engine never writes: the two `let` fields and the user-facing metadata. */
  predicate SameIdentity(a: LockedApp, b: LockedApp) {
    && a.id == b.id
    && a.name == b.name
    && a.iconSymbol == b.iconSymbol
    && a.bundleIdentifier == b.bundleIdentifier
    && a.requiredSteps == b.requiredSteps
  }

  /** A bypass that is still running at time `now`. */
  predicate LiveBypass(app: LockedApp, now: int) {
    app.bypassUntil.Some? && app.bypassUntil.value > now
  }

  /** The bypass flag and the bypass expiry agree (the shape every bypass write produces). */
  predicate BypassCoherent(app: LockedApp) {
    app.isBypassed <==> app.bypassUntil.Some?
  }

  /** `LockedApp.init`, with the stored defaults of `currentSteps`, `isBypassed` and `bypassUntil`. */
  function NewLockedApp(id: string, name: string, iconSymbol: string, bundleIdentifier: string,
                        isLocked: bool := true, requiredSteps: int := 1000): (r: LockedApp)
    ensures r.id == id && r.name == name && r.iconSymbol == iconSymbol
    ensures r.bundleIdentifier == bundleIdentifier
    ensures r.isLocked == isLocked && r.requiredSteps == requiredSteps
    ensures r.currentSteps == 0 && BypassCoherent(r) && !r.isBypassed
    ensures forall now :: !LiveBypass(r, now)
  {
    LockedApp(id, name, iconSymbol, bundleIdentifier, isLocked, requiredSteps, 0, false, None)
  }

  /** The ids of a list, in order. */
  function Ids(s: seq<LockedApp>): (r: seq<string>)
    ensures |r| == |s|
  {
    seq(|s|, i requires 0 <= i < |s| => s[i].id)
  }

  /** No two entries of `s` carry the same id. */
  predicate DistinctIds(s: seq<LockedApp>) {
    forall i, j :: 0 <= i < j < |s| ==> s[i].id != s[j].id
  }

  /** Swift's `firstIndex(where: { $0.id == id })`. */
  function FirstIndexOf(s: seq<LockedApp>, id: string): (r: Option<nat>)
    ensures r.Some? ==> r.value < |s| && s[r.value].id == id
    ensures r.Some? ==> forall j :: 0 <= j < r.value ==> s[j].id != id
    ensures r.None? <==> forall j :: 0 <= j < |s| ==> s[j].id != id
  {
    if s == [] then None
    else if s[0].id == id then Some(0)
    else match FirstIndexOf(s[1..], id)
      case None => None
      case Some(k) => Some(k + 1)
  }

  /** First-index lookup depends on the ids alone. */
  lemma {:induction false} FirstIndexOfIds(s: seq<LockedApp>, t: seq<LockedApp>, id: string)
    requires Ids(s) == Ids(t)
    ensures FirstIndexOf(s, id) == FirstIndexOf(t, id)
  {
    assert forall j :: 0 <= j < |s| ==> s[j].id == Ids(s)[j] == Ids(t)[j] == t[j].id;
    if s != [] && s[0].id != id {
      assert Ids(s[1..]) == Ids(s)[1..] && Ids(t[1..]) == Ids(t)[1..];
      FirstIndexOfIds(s[1..], t[1..], id);
    }
  }

  /** Without duplicate ids, the entry at index `i` is the first one with its id. */
  lemma FirstIndexOfDistinct(s: seq<LockedApp>, i: nat)
    requires DistinctIds(s) && i < |s|
    ensures FirstIndexOf(s, s[i].id) == Some(i)
  {
  }

  /** Two different records can be `==` in Swift: the comparison ignores everything but the id. */
  lemma EqualityIgnoresLockState(a: LockedApp)
    ensures SameApp(a, a.(isLocked := !a.isLocked)) && a != a.(isLocked := !a.isLocked)
  {
  }

  /** One catalog line of `defaultApps`. */
  datatype CatalogEntry = CatalogEntry(name: string, iconSymbol: string, bundleIdentifier: string, requiredSteps: int)

  const Catalog: seq<CatalogEntry> := [
    CatalogEntry("Instagram", "📷", "com.burbn.instagramgram", 2000),
    CatalogEntry("Facebook", "f", "com.facebook.Facebook", 1500),
    CatalogEntry("Twitter", "@", "com.atebits.Tweetie2", 1800),
    CatalogEntry("TikTok", "♪", "com.zhiliaoapp.musically", 2500),
    CatalogEntry("YouTube", "▶", "com.google.ios.youtube", 2000),
    CatalogEntry("Netflix", "N", "com.netflix.Netflix", 1500),
    CatalogEntry("Reddit", "r", "com.reddit.Reddit", 1800),
    CatalogEntry("Snapchat", "👻", "com.toyopagroup.picaboo", 2000),
    CatalogEntry("Discord", "💬", "com.hammerandchisel.discord", 1500),
    CatalogEntry("Gmail", "✉", "com.google.Gmail", 1000),
    CatalogEntry("Chrome", "🌐", "com.google.chrome.ios", 3000),
    CatalogEntry("Safari", "🌐", "com.apple.mobilesafari", 3000),
    CatalogEntry("Amazon", "a", "com.amazon.Amazon", 1200),
    CatalogEntry("eBay", "ebay", "com.ebay.iphone", 1200),
    CatalogEntry("PayPal", "PayPal", "com.yourcompany.PayPal", 1000),
    CatalogEntry("Spotify", "♪", "com.spotify.client", 1000),
    CatalogEntry("Apple Music", "♪", "com.apple.Music", 1000),
    CatalogEntry("Games", "🎮", "com.apple.gamecenter", 2500)
  ]

  /**
   * `LockedApp.defaultApps`. Each entry's id is a fresh UUID in the source;
   * here the caller supplies them.
   */
  function DefaultApps(ids: seq<string>): (apps: seq<LockedApp>)
    requires |ids| == |Catalog|
    ensures |apps| == 18 && Ids(apps) == ids
    ensures forall i :: 0 <= i < |apps| ==>
      && apps[i].name == Catalog[i].name
      && apps[i].isLocked && !apps[i].isBypassed && apps[i].bypassUntil.None?
      && apps[i].currentSteps == 0
      && 1000 <= apps[i].requiredSteps <= 3000
  {
    seq(|ids|, i requires 0 <= i < |ids| =>
      NewLockedApp(ids[i], Catalog[i].name, Catalog[i].iconSymbol, Catalog[i].bundleIdentifier,
                   requiredSteps := Catalog[i].requiredSteps))
  }

  /** Catalog names are pairwise distinct. */
  lemma CatalogNamesDistinct()
    ensures forall i, j :: 0 <= i < j < |Catalog| ==> Catalog[i].name != Catalog[j].name
  {
  }

  /** Fresh (pairwise distinct) UUIDs give a catalog without duplicate ids. */
  lemma DefaultAppsDistinctIds(ids: seq<string>)
    requires |ids| == |Catalog|
    requires forall i, j :: 0 <= i < j < |ids| ==> ids[i] != ids[j]
    ensures DistinctIds(DefaultApps(ids))
  {
    var apps := DefaultApps(ids);
    forall i, j | 0 <= i < j < |apps| ensures apps[i].id != apps[j].id {
      assert apps[i].id == Ids(apps)[i];
      assert apps[j].id == Ids(apps)[j];
    }
  }
}
