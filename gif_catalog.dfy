/** The fixed tables of gif_version.py: the 32 emulated devices, the seven
  * collage categories and the friendly device names. A device pixel ratio
  * is written in quarters (`dprQuarters`), so 2.5 is 10 and 1.25 is 5;
  * every ratio in the table is a multiple of 0.25. */
module GifCatalog {
  import opened Basics

  datatype Viewport = Viewport(width: Dim, height: Dim, name: string, dprQuarters: Dim, userAgent: string)

  const UA_DesktopWindows: string := "Mozilla/5.0 (Windows NT 10.0; Win64; x64) AppleWebKit/537.36 (KHTML, like Gecko) Chrome/121.0.0.0 Safari/537.36"
  const UA_MacSafari: string := "Mozilla/5.0 (Macintosh; Intel Mac OS X 10_15_7) AppleWebKit/605.1.15 (KHTML, like Gecko) Version/17.2.1 Safari/605.1.15"
  const UA_IPadSafari: string := "Mozilla/5.0 (iPad; CPU OS 17_2_1 like Mac OS X) AppleWebKit/605.1.15 (KHTML, like Gecko) Version/17.2 Mobile/15E148 Safari/604.1"
  const UA_GalaxyA54: string := "Mozilla/5.0 (Linux; Android 14; SM-A546B) AppleWebKit/537.36 (KHTML, like Gecko) Chrome/121.0.0.0 Mobile Safari/537.36"
  const UA_GalaxyTabS9: string := "Mozilla/5.0 (Linux; Android 14; SM-X710) AppleWebKit/537.36 (KHTML, like Gecko) Chrome/121.0.0.0 Safari/537.36"
  const UA_LenovoTabP12: string := "Mozilla/5.0 (Linux; Android 13; Tab P12 Pro) AppleWebKit/537.36 (KHTML, like Gecko) Chrome/121.0.0.0 Safari/537.36"
  const UA_XiaomiPad6: string := "Mozilla/5.0 (Linux; Android 13; 23043RP34G) AppleWebKit/537.36 (KHTML, like Gecko) Chrome/121.0.0.0 Safari/537.36"
  const UA_IPhoneSafari: string := "Mozilla/5.0 (iPhone; CPU iPhone OS 17_2_1 like Mac OS X) AppleWebKit/605.1.15 (KHTML, like Gecko) Version/17.2 Mobile/15E148 Safari/604.1"
  const UA_GalaxyS24Ultra: string := "Mozilla/5.0 (Linux; Android 14; SM-S928B) AppleWebKit/537.36 (KHTML, like Gecko) Chrome/121.0.0.0 Mobile Safari/537.36"
  const UA_GalaxyS24: string := "Mozilla/5.0 (Linux; Android 14; SM-S921B) AppleWebKit/537.36 (KHTML, like Gecko) Chrome/121.0.0.0 Mobile Safari/537.36"
  const UA_Pixel8Pro: string := "Mozilla/5.0 (Linux; Android 14; Pixel 8 Pro) AppleWebKit/537.36 (KHTML, like Gecko) Chrome/121.0.0.0 Mobile Safari/537.36"
  const UA_OnePlus12: string := "Mozilla/5.0 (Linux; Android 14; CPH2573) AppleWebKit/537.36 (KHTML, like Gecko) Chrome/121.0.0.0 Mobile Safari/537.36"

  /** Presentation and portfolio displays. */
  const PRESENTATION_DISPLAYS: seq<Viewport> := [
    Viewport(1440, 1024, "presentation-standard", 4, UA_DesktopWindows),
    Viewport(1680, 1050, "presentation-wide", 4, UA_DesktopWindows),
    Viewport(1200, 900, "dribbble-shot", 8, UA_DesktopWindows),
    Viewport(1600, 1200, "behance-project", 8, UA_DesktopWindows)
  ]

  /** Common design presentation formats. */
  const DESIGN_FORMATS: seq<Viewport> := [
    Viewport(1280, 720, "hd-preview", 4, UA_DesktopWindows),
    Viewport(1920, 1080, "fullhd-preview", 4, UA_DesktopWindows)
  ]

  /** Popular aspect ratios. */
  const ASPECT_RATIOS: seq<Viewport> := [
    Viewport(1500, 1000, "3-2-ratio", 4, UA_DesktopWindows),
    Viewport(1600, 900, "16-9-ratio", 4, UA_DesktopWindows)
  ]

  /** The four devices listed without a heading after the aspect ratios. */
  const LATEST_MODELS: seq<Viewport> := [
    Viewport(2560, 1600, "macbook-air-15", 8, UA_MacSafari),
    Viewport(2304, 1440, "macbook-air-13", 8, UA_MacSafari),
    Viewport(2360, 1640, "ipad-air-5", 8, UA_IPadSafari),
    Viewport(1080, 2340, "samsung-a54", 10, UA_GalaxyA54)
  ]

  /** The most common desktop resolutions. */
  const DESKTOPS: seq<Viewport> := [
    Viewport(1920, 1080, "desktop-fhd", 4, UA_DesktopWindows),
    Viewport(2560, 1440, "desktop-2k", 6, UA_DesktopWindows),
    Viewport(3840, 2160, "desktop-4k", 8, UA_DesktopWindows),
    Viewport(1366, 768, "desktop-laptop", 4, UA_DesktopWindows),
    Viewport(1536, 864, "desktop-laptop-hd", 5, UA_DesktopWindows)
  ]

  /** Apple devices. */
  const APPLE_DEVICES: seq<Viewport> := [
    Viewport(2880, 1800, "macbook-pro-15", 8, UA_MacSafari),
    Viewport(2560, 1600, "macbook-pro-13", 8, UA_MacSafari),
    Viewport(2732, 2048, "ipad-pro-12.9", 8, UA_IPadSafari),
    Viewport(2388, 1668, "ipad-pro-11", 8, UA_IPadSafari),
    Viewport(2048, 1536, "ipad-10.9", 8, UA_IPadSafari)
  ]

  /** Popular Android tablets. */
  const ANDROID_TABLETS: seq<Viewport> := [
    Viewport(2560, 1600, "samsung-tab-s9", 6, UA_GalaxyTabS9),
    Viewport(2000, 1200, "lenovo-tab-p12", 6, UA_LenovoTabP12),
    Viewport(2160, 1620, "xiaomi-pad-6", 6, UA_XiaomiPad6)
  ]

  /** Popular smartphones. */
  const SMARTPHONES: seq<Viewport> := [
    Viewport(1290, 2796, "iphone-15-pro-max", 12, UA_IPhoneSafari),
    Viewport(1179, 2556, "iphone-15-pro", 12, UA_IPhoneSafari),
    Viewport(1170, 2532, "iphone-15", 12, UA_IPhoneSafari),
    Viewport(1440, 3088, "samsung-s24-ultra", 12, UA_GalaxyS24Ultra),
    Viewport(1080, 2340, "samsung-s24", 10, UA_GalaxyS24),
    Viewport(1080, 2400, "pixel-8-pro", 10, UA_Pixel8Pro),
    Viewport(1080, 2400, "oneplus-12", 10, UA_OnePlus12)
  ]

  /** `WebsiteScreenshotter.VIEWPORTS`, in source order. */
  const VIEWPORTS: seq<Viewport> := PRESENTATION_DISPLAYS + DESIGN_FORMATS + ASPECT_RATIOS + LATEST_MODELS + DESKTOPS + APPLE_DEVICES + ANDROID_TABLETS + SMARTPHONES

  /** A collage category: its key (used in the file name), its title and
    * subtitle, and the device names it collects. */
  datatype Category = Category(key: string, title: string, subtitle: string, devices: seq<string>)

  /** The `categories` table of `create_category_collages`, in its
    * iteration order. */
  const CATEGORIES: seq<Category> := [
    Category("Desktop_Monitors", "Desktop Monitors", "Modern Display Resolutions",
      ["desktop-fhd", "desktop-2k", "desktop-4k", "desktop-laptop", "desktop-laptop-hd"]),
    Category("MacBooks", "MacBook Collection", "Pro & Air Retina Displays",
      ["macbook-pro-15", "macbook-pro-13", "macbook-air-15", "macbook-air-13"]),
    Category("iPads", "iPad Collection", "Pro & Air Liquid Retina",
      ["ipad-pro-12.9", "ipad-pro-11", "ipad-10.9", "ipad-air-5"]),
    Category("Android_Tablets", "Android Tablets", "Premium Display Gallery",
      ["samsung-tab-s9", "lenovo-tab-p12", "xiaomi-pad-6"]),
    Category("iPhones", "iPhone Series", "Super Retina XDR Displays",
      ["iphone-15-pro-max", "iphone-15-pro", "iphone-15"]),
    Category("Android_Phones", "Android Phones", "Flagship & Mid-Range Collection",
      ["samsung-s24-ultra", "samsung-s24", "samsung-a54", "pixel-8-pro", "oneplus-12"]),
    Category("Design_Presentations", "Design Presentations", "Portfolio & Showcase Formats",
      ["presentation-standard", "presentation-wide", "dribbble-shot", "behance-project", "hd-preview", "fullhd-preview", "3-2-ratio", "16-9-ratio"])
  ]

  /** The `device_names` table. */
  const DEVICE_NAMES: map<string, string> := map[
    "desktop-fhd" := "Full HD Display",
    "desktop-2k" := "QHD Display",
    "desktop-4k" := "4K UHD Display",
    "desktop-laptop" := "Standard Laptop",
    "desktop-laptop-hd" := "HD+ Laptop",
    "macbook-pro-15" := "MacBook Pro 15\"",
    "macbook-pro-13" := "MacBook Pro 13\"",
    "macbook-air-15" := "MacBook Air 15\"",
    "macbook-air-13" := "MacBook Air 13\"",
    "ipad-pro-12.9" := "iPad Pro 12.9\"",
    "ipad-pro-11" := "iPad Pro 11\"",
    "ipad-10.9" := "iPad Air",
    "ipad-air-5" := "iPad Air 5",
    "samsung-tab-s9" := "Galaxy Tab S9",
    "lenovo-tab-p12" := "Tab P12 Pro",
    "xiaomi-pad-6" := "Pad 6",
    "iphone-15-pro-max" := "iPhone 15 Pro Max",
    "iphone-15-pro" := "iPhone 15 Pro",
    "iphone-15" := "iPhone 15",
    "samsung-s24-ultra" := "Galaxy S24 Ultra",
    "samsung-s24" := "Galaxy S24",
    "pixel-8-pro" := "Pixel 8 Pro",
    "oneplus-12" := "OnePlus 12",
    "samsung-a54" := "Galaxy A54 5G",
    "presentation-standard" := "Standard Presentation",
    "presentation-wide" := "Wide Presentation",
    "dribbble-shot" := "Dribbble Shot",
    "behance-project" := "Behance Project",
    "hd-preview" := "HD Preview",
    "fullhd-preview" := "Full HD Preview",
    "3-2-ratio" := "3:2 Aspect Ratio",
    "16-9-ratio" := "16:9 Aspect Ratio"
  ]

  /** `device_names.get(name, name)` */
  function FriendlyName(names: map<string, string>, name: string): string {
    if name in names then names[name] else name
  }

  /** Some category collects the device of this name. */
  predicate Categorised(name: string) {
    exists c :: 0 <= c < |CATEGORIES| && name in CATEGORIES[c].devices
  }

  // Each group of devices is collected by the categories.

  lemma CategorisedPresentationDisplays()
    ensures forall v :: v in PRESENTATION_DISPLAYS ==> Categorised(v.name)
  {
    assert PRESENTATION_DISPLAYS[0].name == CATEGORIES[6].devices[0];
    assert PRESENTATION_DISPLAYS[1].name == CATEGORIES[6].devices[1];
    assert PRESENTATION_DISPLAYS[2].name == CATEGORIES[6].devices[2];
    assert PRESENTATION_DISPLAYS[3].name == CATEGORIES[6].devices[3];
  }

  lemma CategorisedDesignFormats()
    ensures forall v :: v in DESIGN_FORMATS ==> Categorised(v.name)
  {
    assert DESIGN_FORMATS[0].name == CATEGORIES[6].devices[4];
    assert DESIGN_FORMATS[1].name == CATEGORIES[6].devices[5];
  }

  lemma CategorisedAspectRatios()
    ensures forall v :: v in ASPECT_RATIOS ==> Categorised(v.name)
  {
    assert ASPECT_RATIOS[0].name == CATEGORIES[6].devices[6];
    assert ASPECT_RATIOS[1].name == CATEGORIES[6].devices[7];
  }

  lemma CategorisedLatestModels()
    ensures forall v :: v in LATEST_MODELS ==> Categorised(v.name)
  {
    assert LATEST_MODELS[0].name == CATEGORIES[1].devices[2];
    assert LATEST_MODELS[1].name == CATEGORIES[1].devices[3];
    assert LATEST_MODELS[2].name == CATEGORIES[2].devices[3];
    assert LATEST_MODELS[3].name == CATEGORIES[5].devices[2];
  }

  lemma CategorisedDesktops()
    ensures forall v :: v in DESKTOPS ==> Categorised(v.name)
  {
    assert DESKTOPS[0].name == CATEGORIES[0].devices[0];
    assert DESKTOPS[1].name == CATEGORIES[0].devices[1];
    assert DESKTOPS[2].name == CATEGORIES[0].devices[2];
    assert DESKTOPS[3].name == CATEGORIES[0].devices[3];
    assert DESKTOPS[4].name == CATEGORIES[0].devices[4];
  }

  lemma CategorisedAppleDevices()
    ensures forall v :: v in APPLE_DEVICES ==> Categorised(v.name)
  {
    assert APPLE_DEVICES[0].name == CATEGORIES[1].devices[0];
    assert APPLE_DEVICES[1].name == CATEGORIES[1].devices[1];
    assert APPLE_DEVICES[2].name == CATEGORIES[2].devices[0];
    assert APPLE_DEVICES[3].name == CATEGORIES[2].devices[1];
    assert APPLE_DEVICES[4].name == CATEGORIES[2].devices[2];
  }

  lemma CategorisedAndroidTablets()
    ensures forall v :: v in ANDROID_TABLETS ==> Categorised(v.name)
  {
    assert ANDROID_TABLETS[0].name == CATEGORIES[3].devices[0];
    assert ANDROID_TABLETS[1].name == CATEGORIES[3].devices[1];
    assert ANDROID_TABLETS[2].name == CATEGORIES[3].devices[2];
  }

  lemma CategorisedSmartphones()
    ensures forall v :: v in SMARTPHONES ==> Categorised(v.name)
  {
    assert SMARTPHONES[0].name == CATEGORIES[4].devices[0];
    assert SMARTPHONES[1].name == CATEGORIES[4].devices[1];
    assert SMARTPHONES[2].name == CATEGORIES[4].devices[2];
    assert SMARTPHONES[3].name == CATEGORIES[5].devices[0];
    assert SMARTPHONES[4].name == CATEGORIES[5].devices[1];
    assert SMARTPHONES[5].name == CATEGORIES[5].devices[3];
    assert SMARTPHONES[6].name == CATEGORIES[5].devices[4];
  }

  /** Every device belongs to some collage category, so each captured GIF
    * is placed on at least one collage. */
  lemma EveryViewportCategorised()
    ensures forall v :: v in VIEWPORTS ==> Categorised(v.name)
  {
    forall v | v in VIEWPORTS
      ensures Categorised(v.name)
    {
      if v in PRESENTATION_DISPLAYS {
        CategorisedPresentationDisplays();
      } else if v in DESIGN_FORMATS {
        CategorisedDesignFormats();
      } else if v in ASPECT_RATIOS {
        CategorisedAspectRatios();
      } else if v in LATEST_MODELS {
        CategorisedLatestModels();
      } else if v in DESKTOPS {
        CategorisedDesktops();
      } else if v in APPLE_DEVICES {
        CategorisedAppleDevices();
      } else if v in ANDROID_TABLETS {
        CategorisedAndroidTablets();
      } else {
        CategorisedSmartphones();
      }
    }
  }

  // Each group of devices has a friendly name.

  lemma NamedPresentationDisplays()
    ensures forall v :: v in PRESENTATION_DISPLAYS ==> v.name in DEVICE_NAMES
  {
  }

  lemma NamedDesignFormats()
    ensures forall v :: v in DESIGN_FORMATS ==> v.name in DEVICE_NAMES
  {
  }

  lemma NamedAspectRatios()
    ensures forall v :: v in ASPECT_RATIOS ==> v.name in DEVICE_NAMES
  {
  }

  lemma NamedLatestModels()
    ensures forall v :: v in LATEST_MODELS ==> v.name in DEVICE_NAMES
  {
  }

  lemma NamedDesktops()
    ensures forall v :: v in DESKTOPS ==> v.name in DEVICE_NAMES
  {
  }

  lemma NamedAppleDevices()
    ensures forall v :: v in APPLE_DEVICES ==> v.name in DEVICE_NAMES
  {
  }

  lemma NamedAndroidTablets()
    ensures forall v :: v in ANDROID_TABLETS ==> v.name in DEVICE_NAMES
  {
  }

  lemma NamedSmartphones()
    ensures forall v :: v in SMARTPHONES ==> v.name in DEVICE_NAMES
  {
  }

  /** Every device has an entry in the friendly-name table, so its card
    * never falls back to the raw device name. */
  lemma EveryViewportNamed()
    ensures forall v :: v in VIEWPORTS ==> v.name in DEVICE_NAMES && FriendlyName(DEVICE_NAMES, v.name) == DEVICE_NAMES[v.name]
  {
    NamedPresentationDisplays();
    NamedDesignFormats();
    NamedAspectRatios();
    NamedLatestModels();
    NamedDesktops();
    NamedAppleDevices();
    NamedAndroidTablets();
    NamedSmartphones();
  }

  // ---------------------------------------------------------------------
  // No device is listed twice, and each is collected by one category.

  /** A number that tells the catalogue's names apart: their length, their
    * ninth character and their last character. */
  function NameKey(name: string): int {
    if |name| < 9 then 0
    else |name| * 0x1_0000_0000 + (name[8] as int) * 0x1_0000 + (name[|name| - 1] as int)
  }

  /** Where a name stands in `VIEWPORTS` (-1 when it is not there). */
  function Position(name: string): int {
    var key := NameKey(name);
    if key == 0x1500740064 then 0  // presentation-standard
    else if key == 0x1100740065 then 1  // presentation-wide
    else if key == 0xd002d0074 then 2  // dribbble-shot
    else if key == 0xf00700074 then 3  // behance-project
    else if key == 0xa00650077 then 4  // hd-preview
    else if key == 0xe00720077 then 5  // fullhd-preview
    else if key == 0x9006f006f then 6  // 3-2-ratio
    else if key == 0xa0069006f then 7  // 16-9-ratio
    else if key == 0xe00610035 then 8  // macbook-air-15
    else if key == 0xe00610033 then 9  // macbook-air-13
    else if key == 0xa002d0035 then 10  // ipad-air-5
    else if key == 0xb00610034 then 11  // samsung-a54
    else if key == 0xb00660064 then 12  // desktop-fhd
    else if key == 0xa0032006b then 13  // desktop-2k
    else if key == 0xa0034006b then 14  // desktop-4k
    else if key == 0xe006c0070 then 15  // desktop-laptop
    else if key == 0x11006c0064 then 16  // desktop-laptop-hd
    else if key == 0xe00700035 then 17  // macbook-pro-15
    else if key == 0xe00700033 then 18  // macbook-pro-13
    else if key == 0xd002d0039 then 19  // ipad-pro-12.9
    else if key == 0xb002d0031 then 20  // ipad-pro-11
    else if key == 0x900390039 then 21  // ipad-10.9
    else if key == 0xe00740039 then 22  // samsung-tab-s9
    else if key == 0xe00610032 then 23  // lenovo-tab-p12
    else if key == 0xc00610036 then 24  // xiaomi-pad-6
    else if key == 0x1100350078 then 25  // iphone-15-pro-max
    else if key == 0xd0035006f then 26  // iphone-15-pro
    else if key == 0x900350035 then 27  // iphone-15
    else if key == 0x1100730061 then 28  // samsung-s24-ultra
    else if key == 0xb00730034 then 29  // samsung-s24
    else if key == 0xb0070006f then 30  // pixel-8-pro
    else if key == 0xa00310032 then 31  // oneplus-12
    else -1
  }

  /** The category that collects the device at each position of
    * `VIEWPORTS`. */
  const HOME_CATEGORY: seq<nat> := [6, 6, 6, 6, 6, 6, 6, 6, 1, 1, 2, 5, 0, 0, 0, 0, 0, 1, 1, 2, 2, 2, 3, 3, 3, 4, 4, 4, 5, 5, 5, 5]

  // Each group of devices stands at its offset in `VIEWPORTS`.

  lemma PlacedPresentationDisplays()
    ensures forall i :: 0 <= i < |PRESENTATION_DISPLAYS| ==> Position(PRESENTATION_DISPLAYS[i].name) == i
  {
  }

  lemma PlacedDesignFormats()
    ensures forall i :: 0 <= i < |DESIGN_FORMATS| ==> Position(DESIGN_FORMATS[i].name) == 4 + i
  {
  }

  lemma PlacedAspectRatios()
    ensures forall i :: 0 <= i < |ASPECT_RATIOS| ==> Position(ASPECT_RATIOS[i].name) == 6 + i
  {
  }

  lemma PlacedLatestModels()
    ensures forall i :: 0 <= i < |LATEST_MODELS| ==> Position(LATEST_MODELS[i].name) == 8 + i
  {
  }

  lemma PlacedDesktops()
    ensures forall i :: 0 <= i < |DESKTOPS| ==> Position(DESKTOPS[i].name) == 12 + i
  {
  }

  lemma PlacedAppleDevices()
    ensures forall i :: 0 <= i < |APPLE_DEVICES| ==> Position(APPLE_DEVICES[i].name) == 17 + i
  {
  }

  lemma PlacedAndroidTablets()
    ensures forall i :: 0 <= i < |ANDROID_TABLETS| ==> Position(ANDROID_TABLETS[i].name) == 22 + i
  {
  }

  lemma PlacedSmartphones()
    ensures forall i :: 0 <= i < |SMARTPHONES| ==> Position(SMARTPHONES[i].name) == 25 + i
  {
  }

  /** `Position` finds every entry of `VIEWPORTS`. */
  lemma ViewportPositions()
    ensures forall i :: 0 <= i < |VIEWPORTS| ==> Position(VIEWPORTS[i].name) == i
  {
    PlacedPresentationDisplays();
    PlacedDesignFormats();
    PlacedAspectRatios();
    PlacedLatestModels();
    PlacedDesktops();
    PlacedAppleDevices();
    PlacedAndroidTablets();
    PlacedSmartphones();
  }

  /** No two entries of `VIEWPORTS` share a device name, so no file of one
    * device overwrites another's. */
  lemma ViewportNamesDistinct()
    ensures forall i, j :: 0 <= i < j < |VIEWPORTS| ==> VIEWPORTS[i].name != VIEWPORTS[j].name
  {
    ViewportPositions();
  }

  /** The positions whose home is category c. */
  function HomePositions(c: nat): set<int> {
    set i | 0 <= i < |HOME_CATEGORY| && HOME_CATEGORY[i] == c
  }

  lemma AtHomeDesktopMonitors()
    ensures forall j :: 0 <= j < |CATEGORIES[0].devices| ==> Position(CATEGORIES[0].devices[j]) in HomePositions(0)
  {
  }

  lemma AtHomeMacBooks()
    ensures forall j :: 0 <= j < |CATEGORIES[1].devices| ==> Position(CATEGORIES[1].devices[j]) in HomePositions(1)
  {
  }

  lemma AtHomeIPads()
    ensures forall j :: 0 <= j < |CATEGORIES[2].devices| ==> Position(CATEGORIES[2].devices[j]) in HomePositions(2)
  {
  }

  lemma AtHomeAndroidTablets()
    ensures forall j :: 0 <= j < |CATEGORIES[3].devices| ==> Position(CATEGORIES[3].devices[j]) in HomePositions(3)
  {
  }

  lemma AtHomeIPhones()
    ensures forall j :: 0 <= j < |CATEGORIES[4].devices| ==> Position(CATEGORIES[4].devices[j]) in HomePositions(4)
  {
  }

  lemma AtHomeAndroidPhones()
    ensures forall j :: 0 <= j < |CATEGORIES[5].devices| ==> Position(CATEGORIES[5].devices[j]) in HomePositions(5)
  {
  }

  lemma AtHomeDesignPresentations()
    ensures forall j :: 0 <= j < |CATEGORIES[6].devices| ==> Position(CATEGORIES[6].devices[j]) in HomePositions(6)
  {
  }

  /** Every device a category lists stands in `VIEWPORTS` at a position
    * whose home is that category. */
  lemma CategoriesAtHome()
    ensures forall c, k :: 0 <= c < |CATEGORIES| && 0 <= k < |CATEGORIES[c].devices| ==>
      Position(CATEGORIES[c].devices[k]) in HomePositions(c)
  {
    AtHomeDesktopMonitors();
    AtHomeMacBooks();
    AtHomeIPads();
    AtHomeAndroidTablets();
    AtHomeIPhones();
    AtHomeAndroidPhones();
    AtHomeDesignPresentations();
  }

  /** The categories' device lists are disjoint: a name is collected by at
    * most one category. */
  lemma CategoriesDisjoint(name: string, c1: nat, c2: nat)
    requires c1 < |CATEGORIES| && c2 < |CATEGORIES|
    requires name in CATEGORIES[c1].devices && name in CATEGORIES[c2].devices
    ensures c1 == c2
  {
    CategoriesAtHome();
    var k1 :| 0 <= k1 < |CATEGORIES[c1].devices| && CATEGORIES[c1].devices[k1] == name;
    var k2 :| 0 <= k2 < |CATEGORIES[c2].devices| && CATEGORIES[c2].devices[k2] == name;
  }

  /** Every device is collected by exactly one category, so each captured
    * GIF appears on exactly one collage. */
  lemma EveryViewportInOneCategory(v: Viewport)
    requires v in VIEWPORTS
    ensures exists c :: 0 <= c < |CATEGORIES| && v.name in CATEGORIES[c].devices
    ensures forall c1, c2 ::
      (0 <= c1 < |CATEGORIES| && 0 <= c2 < |CATEGORIES| &&
       v.name in CATEGORIES[c1].devices && v.name in CATEGORIES[c2].devices) ==> c1 == c2
  {
    EveryViewportCategorised();
    forall c1, c2 | 0 <= c1 < |CATEGORIES| && 0 <= c2 < |CATEGORIES| &&
      v.name in CATEGORIES[c1].devices && v.name in CATEGORIES[c2].devices
      ensures c1 == c2
    {
      CategoriesDisjoint(v.name, c1, c2);
    }
  }
}
