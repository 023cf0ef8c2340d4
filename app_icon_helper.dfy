/**
 * `AppIconHelper.sfSymbolForApp` (DumbPhoneApp/AppIconHelper.swift):
 * a fixed table from app display names to SF Symbol names, looked up by
 * exact key. The table is written in the source's own categories and the
 * dictionary is their union; no key appears in two categories.
 */
module AppIconHelper {
  import opened Wrappers
  import AppModel

  // Social Media
  const SocialMedia: map<string, string> := map[
    "Instagram" := "camera.fill",
    "Facebook" := "f.circle.fill",
    "Twitter" := "at",
    "TikTok" := "music.note",
    "Snapchat" := "camera.fill",
    "Reddit" := "r.circle.fill",
    "Discord" := "message.fill",
    "LinkedIn" := "briefcase.fill",
    "Pinterest" := "p.circle.fill",
    "WhatsApp" := "message.fill",
    "Telegram" := "paperplane.fill",
    "Signal" := "lock.shield.fill",
    "WeChat" := "message.fill"
  ]

  // Video & Entertainment
  const VideoEntertainment: map<string, string> := map[
    "YouTube" := "play.rectangle.fill",
    "Netflix" := "tv.fill",
    "Hulu" := "tv.fill",
    "Disney+" := "tv.fill",
    "Prime Video" := "play.rectangle.fill",
    "HBO Max" := "tv.fill",
    "Twitch" := "gamecontroller.fill",
    "Vimeo" := "play.rectangle.fill"
  ]

  // Music & Audio
  const MusicAudio: map<string, string> := map[
    "Spotify" := "music.note.list",
    "Apple Music" := "music.note",
    "Pandora" := "music.note",
    "SoundCloud" := "music.note",
    "Audible" := "book.fill",
    "Podcasts" := "mic.fill"
  ]

  // Shopping
  const Shopping: map<string, string> := map[
    "Amazon" := "cart.fill",
    "eBay" := "tag.fill",
    "Etsy" := "bag.fill",
    "Target" := "target",
    "Walmart" := "cart.fill",
    "Best Buy" := "cart.fill"
  ]

  // Payment & Finance
  const PaymentFinance: map<string, string> := map[
    "PayPal" := "creditcard.fill",
    "Venmo" := "dollarsign.circle.fill",
    "Cash App" := "dollarsign.circle.fill",
    "Zelle" := "dollarsign.circle.fill",
    "Robinhood" := "chart.line.uptrend.xyaxis",
    "Chase" := "creditcard.fill",
    "Bank of America" := "creditcard.fill"
  ]

  // Browsers
  const Browsers: map<string, string> := map[
    "Chrome" := "globe",
    "Safari" := "safari.fill",
    "Firefox" := "flame.fill",
    "Edge" := "globe",
    "Brave" := "shield.fill",
    "DuckDuckGo" := "magnifyingglass"
  ]

  // Email
  const Email: map<string, string> := map[
    "Gmail" := "envelope.fill",
    "Outlook" := "envelope.fill",
    "Yahoo Mail" := "envelope.fill",
    "Mail" := "envelope.fill"
  ]

  // Food & Delivery
  const FoodDelivery: map<string, string> := map[
    "Uber Eats" := "takeoutbag.and.cup.and.straw.fill",
    "DoorDash" := "takeoutbag.and.cup.and.straw.fill",
    "Grubhub" := "takeoutbag.and.cup.and.straw.fill",
    "Postmates" := "takeoutbag.and.cup.and.straw.fill",
    "Starbucks" := "cup.and.saucer.fill"
  ]

  // Travel
  const Travel: map<string, string> := map[
    "Uber" := "car.fill",
    "Lyft" := "car.fill",
    "Airbnb" := "house.fill",
    "Booking.com" := "bed.double.fill",
    "Expedia" := "airplane",
    "Google Maps" := "map.fill",
    "Waze" := "map.fill",
    "Maps" := "map.fill"
  ]

  // Productivity
  const Productivity: map<string, string> := map[
    "Slack" := "message.fill",
    "Microsoft Teams" := "person.2.fill",
    "Zoom" := "video.fill",
    "Notion" := "note.text",
    "Evernote" := "note.text",
    "Notes" := "note.text",
    "Reminders" := "list.bullet",
    "Calendar" := "calendar"
  ]

  // Games
  const Games: map<string, string> := map[
    "Games" := "gamecontroller.fill"
  ]

  // News & Reading
  const NewsReading: map<string, string> := map[
    "News" := "newspaper.fill",
    "Kindle" := "book.fill",
    "Medium" := "book.fill"
  ]

  // Fitness & Health
  const FitnessHealth: map<string, string> := map[
    "Strava" := "figure.run",
    "MyFitnessPal" := "figure.strengthtraining.traditional",
    "Nike Run Club" := "figure.run"
  ]

  // Photo & Video
  const PhotoVideo: map<string, string> := map[
    "Photos" := "photo.fill",
    "Camera" := "camera.fill",
    "VSCO" := "camera.fill"
  ]

  // Default iOS Apps
  const DefaultIosApps: map<string, string> := map[
    "Messages" := "message.fill",
    "Phone" := "phone.fill",
    "FaceTime" := "video.fill",
    "Contacts" := "person.fill",
    "Settings" := "gearshape.fill",
    "App Store" := "square.and.arrow.down.fill",
    "Wallet" := "creditcard.fill",
    "Health" := "heart.fill",
    "Weather" := "cloud.fill",
    "Clock" := "clock.fill",
    "Calculator" := "number",
    "Files" := "folder.fill"
  ]

  /** The whole 93-entry table, categories in source order. */
  const SymbolMap: map<string, string> :=
    SocialMedia
    + VideoEntertainment
    + MusicAudio
    + Shopping
    + PaymentFinance
    + Browsers
    + Email
    + FoodDelivery
    + Travel
    + Productivity
    + Games
    + NewsReading
    + FitnessHealth
    + PhotoVideo
    + DefaultIosApps

  /** `sfSymbolForApp`: the mapped symbol, or `None` for a name outside the table. */
  function SfSymbolForApp(appName: string): (r: Option<string>)
    ensures r.Some? <==> appName in SymbolMap
    ensures r.Some? ==> r.value == SymbolMap[appName]
  {
    if appName in SymbolMap then Some(SymbolMap[appName]) else None
  }

  // The categories that do not hold the names looked up below. A later
  // category of the union wins on a shared key, so a lookup needs to know
  // which categories miss the name; the facts are grouped a few categories
  // at a time.

  lemma InstagramSnapchatNotInMediaOrShopping()
    ensures "Instagram" !in VideoEntertainment
    ensures "Snapchat" !in VideoEntertainment
    ensures "Instagram" !in MusicAudio
    ensures "Snapchat" !in MusicAudio
    ensures "Instagram" !in Shopping
    ensures "Snapchat" !in Shopping
  {
  }

  lemma InstagramSnapchatNotInPaymentBrowsersEmail()
    ensures "Instagram" !in PaymentFinance
    ensures "Snapchat" !in PaymentFinance
    ensures "Instagram" !in Browsers
    ensures "Snapchat" !in Browsers
    ensures "Instagram" !in Email
    ensures "Snapchat" !in Email
  {
  }

  lemma InstagramSnapchatNotInFoodOrTravel()
    ensures "Instagram" !in FoodDelivery
    ensures "Snapchat" !in FoodDelivery
    ensures "Instagram" !in Travel
    ensures "Snapchat" !in Travel
  {
  }

  lemma InstagramSnapchatNotInLaterCategories()
    ensures "Instagram" !in Productivity
    ensures "Snapchat" !in Productivity
    ensures "Instagram" !in Games
    ensures "Snapchat" !in Games
    ensures "Instagram" !in NewsReading
    ensures "Snapchat" !in NewsReading
    ensures "Instagram" !in FitnessHealth
    ensures "Snapchat" !in FitnessHealth
    ensures "Instagram" !in PhotoVideo
    ensures "Snapchat" !in PhotoVideo
  {
  }

  lemma InstagramSnapchatNotInDefaultIosApps()
    ensures "Instagram" !in DefaultIosApps
    ensures "Snapchat" !in DefaultIosApps
  {
  }

  lemma CameraVscoNotInDefaultIosApps()
    ensures "Camera" !in DefaultIosApps
    ensures "VSCO" !in DefaultIosApps
  {
  }

  lemma LowerInstagramNotInFirstCategories()
    ensures "instagram" !in SocialMedia
    ensures "instagram" !in VideoEntertainment
    ensures "instagram" !in MusicAudio
    ensures "instagram" !in Shopping
    ensures "instagram" !in PaymentFinance
  {
  }

  lemma LowerInstagramNotInMiddleCategories()
    ensures "instagram" !in Browsers
    ensures "instagram" !in Email
    ensures "instagram" !in FoodDelivery
    ensures "instagram" !in Travel
    ensures "instagram" !in Productivity
    ensures "instagram" !in Games
    ensures "instagram" !in NewsReading
    ensures "instagram" !in FitnessHealth
  {
  }

  lemma LowerInstagramNotInLastCategories()
    ensures "instagram" !in PhotoVideo
    ensures "instagram" !in DefaultIosApps
  {
  }

  lemma SocialMediaHolds()
    ensures "Instagram" in SocialMedia && SocialMedia["Instagram"] == "camera.fill"
    ensures "Snapchat" in SocialMedia && SocialMedia["Snapchat"] == "camera.fill"
  {
  }

  lemma PhotoVideoHolds()
    ensures "Camera" in PhotoVideo && PhotoVideo["Camera"] == "camera.fill"
    ensures "VSCO" in PhotoVideo && PhotoVideo["VSCO"] == "camera.fill"
  {
  }

  lemma DefaultIosAppsHolds()
    ensures "Files" in DefaultIosApps && DefaultIosApps["Files"] == "folder.fill"
  {
  }

  // How a lookup in the union resolves, for a name whose categories are known.

  lemma FirstCategoryLookup(k: string)
    requires k in SocialMedia
    requires k !in VideoEntertainment
    requires k !in MusicAudio
    requires k !in Shopping
    requires k !in PaymentFinance
    requires k !in Browsers
    requires k !in Email
    requires k !in FoodDelivery
    requires k !in Travel
    requires k !in Productivity
    requires k !in Games
    requires k !in NewsReading
    requires k !in FitnessHealth
    requires k !in PhotoVideo
    requires k !in DefaultIosApps
    ensures k in SymbolMap && SymbolMap[k] == SocialMedia[k]
  {
  }

  lemma PhotoVideoLookup(k: string)
    requires k in PhotoVideo && k !in DefaultIosApps
    ensures k in SymbolMap && SymbolMap[k] == PhotoVideo[k]
  {
  }

  lemma LastCategoryLookup(k: string)
    requires k in DefaultIosApps
    ensures k in SymbolMap && SymbolMap[k] == DefaultIosApps[k]
  {
  }

  lemma AbsentFromAllCategories(k: string)
    requires k !in SocialMedia
    requires k !in VideoEntertainment
    requires k !in MusicAudio
    requires k !in Shopping
    requires k !in PaymentFinance
    requires k !in Browsers
    requires k !in Email
    requires k !in FoodDelivery
    requires k !in Travel
    requires k !in Productivity
    requires k !in Games
    requires k !in NewsReading
    requires k !in FitnessHealth
    requires k !in PhotoVideo
    requires k !in DefaultIosApps
    ensures k !in SymbolMap
  {
  }


  lemma InstagramSymbol()
    ensures SfSymbolForApp("Instagram") == Some("camera.fill")
  {
    InstagramSnapchatNotInMediaOrShopping();
    InstagramSnapchatNotInPaymentBrowsersEmail();
    InstagramSnapchatNotInFoodOrTravel();
    InstagramSnapchatNotInLaterCategories();
    InstagramSnapchatNotInDefaultIosApps();
    SocialMediaHolds();
    FirstCategoryLookup("Instagram");
  }

  lemma SnapchatSymbol()
    ensures SfSymbolForApp("Snapchat") == Some("camera.fill")
  {
    InstagramSnapchatNotInMediaOrShopping();
    InstagramSnapchatNotInPaymentBrowsersEmail();
    InstagramSnapchatNotInFoodOrTravel();
    InstagramSnapchatNotInLaterCategories();
    InstagramSnapchatNotInDefaultIosApps();
    SocialMediaHolds();
    FirstCategoryLookup("Snapchat");
  }

  lemma CameraAndVscoSymbols()
    ensures SfSymbolForApp("Camera") == Some("camera.fill")
    ensures SfSymbolForApp("VSCO") == Some("camera.fill")
  {
    CameraVscoNotInDefaultIosApps();
    PhotoVideoHolds();
    PhotoVideoLookup("Camera");
    PhotoVideoLookup("VSCO");
  }

  /** Sample entries of the table. */
  lemma KnownSymbols()
    ensures SfSymbolForApp("Instagram") == Some("camera.fill")
    ensures SfSymbolForApp("Files") == Some("folder.fill")
  {
    InstagramSymbol();
    DefaultIosAppsHolds();
    LastCategoryLookup("Files");
  }

  /** Lookup is by exact key: the lower-case spelling is not in the table. */
  lemma LookupIsCaseSensitive()
    ensures SfSymbolForApp("instagram") == None
  {
    LowerInstagramNotInFirstCategories();
    LowerInstagramNotInMiddleCategories();
    LowerInstagramNotInLastCategories();
    AbsentFromAllCategories("instagram");
  }

  /** Several names share one symbol, so the table is not injective. */
  lemma SymbolsNotInjective()
    ensures SfSymbolForApp("Instagram") == SfSymbolForApp("Snapchat") == Some("camera.fill")
    ensures SfSymbolForApp("Camera") == SfSymbolForApp("VSCO") == Some("camera.fill")
  {
    InstagramSymbol();
    SnapchatSymbol();
    CameraAndVscoSymbols();
  }

  /** Every name in `LockedApp.defaultApps` has a symbol. */
  lemma CatalogNamesHaveSymbols()
    ensures forall i :: 0 <= i < |AppModel.Catalog| ==> SfSymbolForApp(AppModel.Catalog[i].name).Some?
  {
  }
}
