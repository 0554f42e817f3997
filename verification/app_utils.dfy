/** `AppUtils`: builds the launcher's app catalogue from the installed packages
    that the package manager reports, and answers single-package queries. */
module AppUtils {
  import opened Android
  import opened Text
  import opened Sorting
  import opened Model

  // ---------------------------------------------------------------------------
  // The package registry, as the launcher sees it

  /** What `getLaunchIntentForPackage` does for a package. */
  datatype LaunchLookup = HasLaunchIntent | NoLaunchIntent | LaunchLookupThrew

  /** `ApplicationInfo`: its flag word, and what `loadLabel` and `loadIcon` do
      (a label can be null, an icon can be null, either call can throw). */
  datatype ApplicationInfo = ApplicationInfo(
    flags: bv32,
    loadLabel: Attempt<Option<string>>,
    loadIcon: Attempt<Option<Icon>>)

  /** `PackageInfo`, with the outcome of every call the builders make about it.
      A null `applicationInfo` makes the first access to its flags throw. */
  datatype PackageInfo = PackageInfo(
    packageName: string,
    applicationInfo: Option<ApplicationInfo>,
    launchIntent: LaunchLookup,
    versionName: Attempt<Option<string>>,
    longVersionCode: Attempt<Long>,
    firstInstallTime: Long,
    lastUpdateTime: Long)

  /** The package manager: when it is not available every query throws;
      otherwise `getInstalledPackages` returns `packages`. */
  datatype PackageManager = PackageManager(available: bool, packages: seq<PackageInfo>)

  /** Android never reports two installed packages under one name. */
  ghost predicate DistinctNames(ps: seq<PackageInfo>)
  {
    forall i, j | 0 <= i < |ps| && 0 <= j < |ps| :: ps[i].packageName == ps[j].packageName ==> i == j
  }

  /** The primary properties and the icon of one catalogue record, as a value. */
  datatype Entry = Entry(fields: AppFields, icon: Option<Icon>)

  /** The value of an `AppInfo` object in the current heap. */
  function EntryOf(a: AppInfo): (e: Entry)
    reads a
    ensures e.fields == a.Fields() && e.icon == a.appIcon
  {
    Entry(a.Fields(), a.appIcon)
  }

  /** `sortedBy { it.appName }` on catalogue values. */
  predicate EntryByName(x: Entry, y: Entry)
  {
    LexLeq(x.fields.appName, y.fields.appName)
  }

  // ---------------------------------------------------------------------------
  // The deny-list and the category table

  /** The ten exact package names that are never shown as system apps. */
  function DeniedPackages(): set<string>
  {
    {
    "android",
    "com.android.systemui",
    "com.android.shell",
    "com.android.providers.telephony",
    "com.android.providers.media",
    "com.android.providers.downloads",
    "com.android.providers.contacts",
    "com.android.providers.calendar",
    "com.android.providers.settings",
    "com.android.providers.media.module"
    }
  }

  /** Names of system services that are not user-facing: the three denied prefixes. */
  predicate HasDeniedPrefix(packageName: string)
  {
    || StartsWith(packageName, "com.android.server")
    || StartsWith(packageName, "android.process")
    || StartsWith(packageName, "com.android.internal")
  }

  /** `isProblematicSystemApp`: every branch of its `when` answers true, so the
      order of the branches does not matter. */
  function IsProblematicSystemApp(packageName: string): (denied: bool)
    ensures packageName == [] ==> denied
    ensures denied && !IsBlank(packageName) ==>
              packageName[0] == 'a' || packageName[0] == 'c' || packageName[0] == 'n'
  {
    || packageName in DeniedPackages()
    || HasDeniedPrefix(packageName)
    || IsBlank(packageName)
    || packageName == "null"
  }

  /** A name whose first character is not whitespace and is none of the
      initials of the denied names and prefixes ('a', 'c', 'n') is not denied. */
  lemma NotDeniedByInitial(packageName: string)
    requires |packageName| > 0 && !IsWhitespace(packageName[0])
    requires packageName[0] != 'a' && packageName[0] != 'c' && packageName[0] != 'n'
    ensures !IsProblematicSystemApp(packageName)
  {
  }

  /** Every denied name and prefix that starts with 'c' is "com.android."
      followed by 's', 'p' or 'i'. So a name that starts with 'c' and is not of
      that form passes the deny-list. */
  lemma NotDeniedByLetters(packageName: string)
    requires |packageName| > 0 && packageName[0] == 'c'
    requires !(StartsWith(packageName, "com.android.") && |packageName| > 12 && packageName[12] in {'s', 'p', 'i'})
    ensures !IsProblematicSystemApp(packageName)
  {
    DeniedNameShape(packageName);
    DeniedPrefixShape(packageName);
    assert !IsWhitespace(packageName[0]);
  }

  /** Each of the ten denied names is "android" or "com.android." followed by
      's' or 'p'. */
  lemma DeniedNameShape(packageName: string)
    ensures packageName in DeniedPackages() ==>
              packageName == "android" ||
              (StartsWith(packageName, "com.android.") && |packageName| > 12 && packageName[12] in {'s', 'p'})
  {
  }

  /** The two denied prefixes that start with 'c' are "com.android." followed by
      's' or 'i'. */
  lemma DeniedPrefixShape(packageName: string)
    ensures HasDeniedPrefix(packageName) && |packageName| > 0 && packageName[0] == 'c' ==>
              StartsWith(packageName, "com.android.") && |packageName| > 12 && packageName[12] in {'s', 'i'}
  {
    var stem, server, internal := "com.android.", "com.android.server", "com.android.internal";
    if StartsWith(packageName, server) {
      assert server[..12] == stem;
      assert packageName[..12] == stem;
      StartsWithAt(packageName, server, 12);
    }
    if StartsWith(packageName, internal) {
      assert internal[..12] == stem;
      assert packageName[..12] == stem;
      StartsWithAt(packageName, internal, 12);
    }
    if StartsWith(packageName, "android.process") {
      StartsWithAt(packageName, "android.process", 0);
    }
  }


  /** "com.android.settings…" starts like three denied names and one denied
      prefix, and still differs from each of them. */
  lemma SettingsNotDenied(packageName: string)
    requires StartsWith(packageName, "com.android.settings")
    ensures !IsProblematicSystemApp(packageName)
  {
    var settings := "com.android.settings";
    StartsWithAt(packageName, settings, 0);
    assert packageName !in DeniedPackages() by {
      StartsWithAt(packageName, settings, 12);
      StartsWithAt(packageName, settings, 13);
      StartsWithAt(packageName, settings, 14);
    }
    assert !HasDeniedPrefix(packageName) by {
      if StartsWith(packageName, "com.android.server") {
        StartsWithAt(packageName, settings, 14);
        StartsWithAt(packageName, "com.android.server", 14);
      }
      if StartsWith(packageName, "com.android.internal") {
        StartsWithAt(packageName, settings, 12);
        StartsWithAt(packageName, "com.android.internal", 12);
      }
      if StartsWith(packageName, "android.process") {
        StartsWithAt(packageName, "android.process", 0);
      }
    }
    assert !IsWhitespace(packageName[0]);
  }

  /** Where each prefix of the category table parts from "com.android." followed
      by 's', 'p' or 'i': at position 4 or 5, or with a 't', 'l' or 'c' at
      position 12. Rows 21 ("com.android.settings") and 34 ("org.mozilla.firefox")
      are the two exceptions. */
  predicate PartsFromDenied(prefix: string)
  {
    && |prefix| > 5 && prefix[0] == 'c'
    && (|| prefix[4] != 'a'
        || prefix[5] != 'n'
        || (|prefix| > 12 && prefix[12] in {'t', 'l', 'c'}))
  }

  lemma CategoryPrefixShape(k: nat)
    requires k < CategoryRows && k != 21 && k != 34
    ensures PartsFromDenied(CategoryPrefix(k))
  {
    if k < 12 {
      FirstRowsShape(k);
    } else if k < 24 {
      MiddleRowsShape(k);
    } else {
      LastRowsShape(k);
    }
  }

  lemma FirstRowsShape(k: nat)
    requires k < 12
    ensures PartsFromDenied(CategoryPrefix(k))
  {
  }

  lemma MiddleRowsShape(k: nat)
    requires 12 <= k < 24 && k != 21
    ensures PartsFromDenied(CategoryPrefix(k))
  {
  }

  lemma LastRowsShape(k: nat)
    requires 24 <= k < CategoryRows && k != 34
    ensures PartsFromDenied(CategoryPrefix(k))
  {
  }

  /** No package that a branch of the category table recognises is hidden by
      the deny-list: the TV, launcher and settings packages among them stay
      listed when system apps are shown. */
  lemma CategorisedNotDenied(packageName: string, k: nat)
    requires k < CategoryRows && StartsWith(packageName, CategoryPrefix(k))
    ensures !IsProblematicSystemApp(packageName)
  {
    if k == 34 {
      StartsWithAt(packageName, "org.mozilla.firefox", 0);
      NotDeniedByInitial(packageName);
    } else if k == 21 {
      SettingsNotDenied(packageName);
    } else {
      var prefix, stem := CategoryPrefix(k), "com.android.";
      CategoryPrefixShape(k);
      StartsWithAt(packageName, prefix, 0);
      StartsWithAt(packageName, prefix, 4);
      StartsWithAt(packageName, prefix, 5);
      if |prefix| > 12 {
        StartsWithAt(packageName, prefix, 12);
      }
      if StartsWith(packageName, stem) {
        StartsWithAt(packageName, stem, 4);
        StartsWithAt(packageName, stem, 5);
      }
      NotDeniedByLetters(packageName);
    }
  }

  /** The number of branches of `getAppCategory`'s `when` that test a prefix. */
  const CategoryRows: nat := 36

  /** The prefix branch `k` of `getAppCategory`'s `when` tests, in source order. */
  function CategoryPrefix(k: nat): string
    requires k < CategoryRows
  {
    match k
    case 0 => "com.android.tv"
    case 1 => "com.google.android.tv"
    case 2 => "com.sony.dtv"
    case 3 => "com.samsung.android.tv"
    case 4 => "com.lge.android.tv"
    case 5 => "com.netflix"
    case 6 => "com.amazon.avod"
    case 7 => "com.amazon.instantvideo"
    case 8 => "com.disney.disneyplus"
    case 9 => "com.hbo.hbonow"
    case 10 => "com.hulu.plus"
    case 11 => "com.plexapp.android"
    case 12 => "com.spotify"
    case 13 => "com.google.android.youtube"
    case 14 => "com.google.android.apps.youtube.tv"
    case 15 => "com.videolan.vlc"
    case 16 => "com.mxtech.videoplayer"
    case 17 => "com.archos.videofree"
    case 18 => "com.estrongs.android.pop"
    case 19 => "com.adobe.reader"
    case 20 => "com.microsoft.office"
    case 21 => "com.android.settings"
    case 22 => "com.android.launcher"
    case 23 => "com.google.android.apps.tv.launcher"
    case 24 => "com.epicgames"
    case 25 => "com.activision"
    case 26 => "com.ea.gp"
    case 27 => "com.rovio"
    case 28 => "com.king"
    case 29 => "com.facebook"
    case 30 => "com.twitter"
    case 31 => "com.instagram"
    case 32 => "com.snapchat"
    case 33 => "com.android.chrome"
    case 34 => "org.mozilla.firefox"
    case _ => "com.microsoft.emmx"
  }

  /** The category branch `k` selects: one of the twelve, never "Other". */
  function CategoryName(k: nat): (category: string)
    requires k < CategoryRows
    ensures category in Categories() - {"Other"}
  {
    match k
    case 0 => "TV Apps"
    case 1 => "TV Apps"
    case 2 => "TV Apps"
    case 3 => "TV Apps"
    case 4 => "TV Apps"
    case 5 => "Streaming"
    case 6 => "Streaming"
    case 7 => "Streaming"
    case 8 => "Streaming"
    case 9 => "Streaming"
    case 10 => "Streaming"
    case 11 => "Streaming"
    case 12 => "Music"
    case 13 => "Video"
    case 14 => "Video"
    case 15 => "Video"
    case 16 => "Video"
    case 17 => "Video"
    case 18 => "File Manager"
    case 19 => "Document"
    case 20 => "Office"
    case 21 => "System"
    case 22 => "System"
    case 23 => "System"
    case 24 => "Games"
    case 25 => "Games"
    case 26 => "Games"
    case 27 => "Games"
    case 28 => "Games"
    case 29 => "Social"
    case 30 => "Social"
    case 31 => "Social"
    case 32 => "Social"
    case 33 => "Browser"
    case 34 => "Browser"
    case _ => "Browser"
  }

  /** The twelve categories a package can be put in. */
  function Categories(): set<string>
  {
    {
    "TV Apps", "Streaming", "Music", "Video", "File Manager", "Document",
    "Office", "System", "Games", "Social", "Browser", "Other"
    }
  }

  /** The `when` from branch `k` on: the category of the first branch whose
      prefix starts `packageName`, "Other" when none does. */
  function CategoryFrom(k: nat, packageName: string): (category: string)
    requires k <= CategoryRows
    ensures category in Categories()
    decreases CategoryRows - k
  {
    if k == CategoryRows then "Other"
    else if StartsWith(packageName, CategoryPrefix(k)) then CategoryName(k)
    else CategoryFrom(k + 1, packageName)
  }

  /** `getAppCategory`. */
  function GetAppCategory(packageName: string): (category: string)
    ensures category in Categories()
  {
    CategoryFrom(0, packageName)
  }


  /** First match wins: the category is that of branch `k` when branch `k`
      matches and no earlier branch does. */
  lemma CategoryIsFirstMatch(packageName: string, k: nat)
    requires k < CategoryRows
    requires StartsWith(packageName, CategoryPrefix(k))
    requires forall j | 0 <= j < k :: !StartsWith(packageName, CategoryPrefix(j))
    ensures GetAppCategory(packageName) == CategoryName(k)
  {
    CategoryFromFirstMatch(0, packageName, k);
  }

  lemma {:induction false} CategoryFromFirstMatch(i: nat, packageName: string, k: nat)
    requires i <= k < CategoryRows
    requires StartsWith(packageName, CategoryPrefix(k))
    requires forall j | i <= j < k :: !StartsWith(packageName, CategoryPrefix(j))
    ensures CategoryFrom(i, packageName) == CategoryName(k)
    decreases k - i
  {
    if i < k {
      CategoryFromFirstMatch(i + 1, packageName, k);
    }
  }

  /** A package that no branch matches is in "Other". */
  lemma CategoryOther(packageName: string)
    requires forall j | 0 <= j < CategoryRows :: !StartsWith(packageName, CategoryPrefix(j))
    ensures GetAppCategory(packageName) == "Other"
  {
    CategoryFromOther(0, packageName);
  }

  lemma {:induction false} CategoryFromOther(i: nat, packageName: string)
    requires i <= CategoryRows
    requires forall j | i <= j < CategoryRows :: !StartsWith(packageName, CategoryPrefix(j))
    ensures CategoryFrom(i, packageName) == "Other"
    decreases CategoryRows - i
  {
    if i < CategoryRows {
      CategoryFromOther(i + 1, packageName);
    }
  }

  /** The TV settings app is a "TV Apps" package, not a "System" one: the TV
      branches come before the settings branch. */
  lemma TvSettingsIsTvApp()
    ensures GetAppCategory("com.android.tv.settings") == "TV Apps"
  {
    var name := "com.android.tv.settings";
    assert StartsWith(name, CategoryPrefix(0));
    CategoryIsFirstMatch(name, 0);
  }

  // ---------------------------------------------------------------------------
  // Per-field fallbacks of the builders

  /** `FLAG_SYSTEM` is set in the flag word. */
  predicate IsSystem(flags: bv32)
  {
    flags & FLAG_SYSTEM != 0
  }

  /** `loadLabel(pm)?.toString() ?: packageName`, with the package name also
      when `loadLabel` throws. */
  function AppNameOf(packageName: string, loadLabel: Attempt<Option<string>>): string
  {
    match loadLabel
    case Loaded(Some(name)) => name
    case _ => packageName
  }

  /** `loadIcon(pm)`, null when it throws. */
  function IconOf(loadIcon: Attempt<Option<Icon>>): Option<Icon>
  {
    match loadIcon
    case Loaded(i) => i
    case Threw => None
  }

  /** `versionName ?: ""`, and "" when reading it throws. */
  function VersionNameOf(versionName: Attempt<Option<string>>): string
  {
    match versionName
    case Loaded(Some(v)) => v
    case _ => ""
  }

  /** `longVersionCode`, and 0 when reading it throws. */
  function VersionCodeOf(versionCode: Attempt<Long>): Long
  {
    match versionCode
    case Loaded(c) => c
    case Threw => 0
  }

  /** A name the builders keep: not blank and not the text "null". */
  predicate ValidName(appName: string)
  {
    !IsBlank(appName) && appName != "null"
  }

  /** The record the builders create for an accepted package. */
  function RecordFor(p: PackageInfo, info: ApplicationInfo, appName: string, isSystemApp: bool): Entry
  {
    Entry(
      AppFields(p.packageName, appName, VersionNameOf(p.versionName), VersionCodeOf(p.longVersionCode),
                isSystemApp, p.firstInstallTime, p.lastUpdateTime, GetAppCategory(p.packageName), false),
      IconOf(info.loadIcon))
  }

  // ---------------------------------------------------------------------------
  // What the builders keep, package by package

  datatype Builder = AllApps | UserAppsOnly

  /** One iteration of `getInstalledApps`' loop: the record it appends, or
      None when the iteration skips the package (a `continue`, or an exception
      caught around the iteration). */
  function AdmitAny(p: PackageInfo): (r: Option<Entry>)
    ensures r.Some? ==> p.launchIntent == HasLaunchIntent && p.applicationInfo.Some?
    ensures r.Some? ==> r.value.fields.packageName == p.packageName
    ensures r.Some? ==> r.value.fields.isSystemApp == IsSystem(p.applicationInfo.value.flags)
    ensures r.Some? ==> ValidName(r.value.fields.appName)
    ensures r.Some? && r.value.fields.isSystemApp ==> !IsProblematicSystemApp(p.packageName)
  {
    if p.launchIntent != HasLaunchIntent then None
    else if p.applicationInfo.None? then None
    else
      var info := p.applicationInfo.value;
      if IsSystem(info.flags) && IsProblematicSystemApp(p.packageName) then None
      else
        var appName := AppNameOf(p.packageName, info.loadLabel);
        if !ValidName(appName) then None
        else Some(RecordFor(p, info, appName, IsSystem(info.flags)))
  }

  /** One iteration of `getInstalledAppsExcludingSystem`' loop. */
  function AdmitUser(p: PackageInfo): (r: Option<Entry>)
    ensures r.Some? ==> p.launchIntent == HasLaunchIntent && p.applicationInfo.Some?
    ensures r.Some? ==> r.value.fields.packageName == p.packageName
    ensures r.Some? ==> !r.value.fields.isSystemApp && !IsSystem(p.applicationInfo.value.flags)
    ensures r.Some? ==> ValidName(r.value.fields.appName)
  {
    if p.applicationInfo.None? then None
    else
      var info := p.applicationInfo.value;
      if IsSystem(info.flags) then None
      else if p.launchIntent != HasLaunchIntent then None
      else
        var appName := AppNameOf(p.packageName, info.loadLabel);
        if !ValidName(appName) then None
        else Some(RecordFor(p, info, appName, false))
  }

  /** The per-package step of a builder. */
  function Admission(b: Builder): PackageInfo -> Option<Entry>
  {
    match b
    case AllApps => AdmitAny
    case UserAppsOnly => AdmitUser
  }

  function Admit(b: Builder, p: PackageInfo): Option<Entry>
  {
    Admission(b)(p)
  }

  /** What every record a builder keeps satisfies: its package has a launch
      intent and application info, the record carries the package's name and
      its system flag, its name is neither blank nor "null", a system record
      passed the deny-list, and the user-only builder keeps no system record. */
  lemma AdmitKeeps(b: Builder, p: PackageInfo)
    requires Admit(b, p).Some?
    ensures p.launchIntent == HasLaunchIntent && p.applicationInfo.Some?
    ensures Admit(b, p).value.fields.packageName == p.packageName
    ensures Admit(b, p).value.fields.isSystemApp == IsSystem(p.applicationInfo.value.flags)
    ensures ValidName(Admit(b, p).value.fields.appName)
    ensures Admit(b, p).value.fields.isSystemApp ==> !IsProblematicSystemApp(p.packageName)
    ensures b == UserAppsOnly ==> !Admit(b, p).value.fields.isSystemApp
  {
  }

  function Appended(r: Option<Entry>): seq<Entry>
  {
    match r
    case Some(e) => [e]
    case None => []
  }

  /** The records the loop collects: those `admit` produces for `ps`, in registry order. */
  function Collect(admit: PackageInfo -> Option<Entry>, ps: seq<PackageInfo>): seq<Entry>
  {
    if ps == [] then []
    else Collect(admit, ps[..|ps| - 1]) + Appended(admit(ps[|ps| - 1]))
  }

  /** The list a builder's loop has built after visiting `ps`, before sorting. */
  function Admitted(b: Builder, ps: seq<PackageInfo>): seq<Entry>
  {
    Collect(Admission(b), ps)
  }

  /** What a builder returns: the admitted records sorted by name, and an
      empty list when the package list cannot be obtained. */
  function Catalog(b: Builder, pm: PackageManager): (catalog: seq<Entry>)
    ensures !pm.available ==> catalog == []
    ensures pm.available ==> multiset(catalog) == multiset(Admitted(b, pm.packages))
  {
    if !pm.available then [] else SortBy(Admitted(b, pm.packages), EntryByName)
  }

  /** The list grows by one package at a time. */
  lemma CollectStep(admit: PackageInfo -> Option<Entry>, ps: seq<PackageInfo>, i: nat,
                    entries: seq<Entry>, produced: Option<Entry>)
    requires i < |ps| && entries == Collect(admit, ps[..i])
    requires produced == admit(ps[i])
    ensures entries + Appended(produced) == Collect(admit, ps[..i + 1])
  {
    var visited := ps[..i + 1];
    assert visited[..|visited| - 1] == ps[..i];
    assert visited[|visited| - 1] == ps[i];
  }

  // ---------------------------------------------------------------------------
  // The builders

  /** The value of an optional object, in the current heap. */
  function ValueOf(app: Option<AppInfo>): (r: Option<Entry>)
    reads if app.Some? then {app.value} else {}
    ensures r.Some? <==> app.Some?
    ensures app.Some? ==> r.value == EntryOf(app.value)
  {
    match app
    case Some(a) => Some(EntryOf(a))
    case None => None
  }

  /** The values of a list of objects, in the current heap. */
  ghost function Values(objects: seq<AppInfo>): (r: seq<Entry>)
    reads set a | a in objects
    ensures |r| == |objects|
    ensures forall k | 0 <= k < |objects| :: r[k] == EntryOf(objects[k])
  {
    if objects == [] then [] else Values(objects[..|objects| - 1]) + [EntryOf(objects[|objects| - 1])]
  }

  /** The primary properties of each of `objects`; they never change, so
      this view of a list does not depend on the heap. */
  function FieldsOf(objects: seq<AppInfo>): (r: seq<AppFields>)
    ensures |r| == |objects|
    ensures forall k | 0 <= k < |objects| :: r[k] == objects[k].Fields()
  {
    if objects == [] then [] else FieldsOf(objects[..|objects| - 1]) + [objects[|objects| - 1].Fields()]
  }

  /** The primary properties of a builder's catalogue. */
  ghost function CatalogFields(b: Builder, pm: PackageManager): seq<AppFields>
  {
    EntryFields(Catalog(b, pm))
  }

  function EntryFields(entries: seq<Entry>): (r: seq<AppFields>)
    ensures |r| == |entries|
    ensures forall k | 0 <= k < |entries| :: r[k] == entries[k].fields
  {
    if entries == [] then [] else EntryFields(entries[..|entries| - 1]) + [entries[|entries| - 1].fields]
  }

  lemma FieldsOfValues(objects: seq<AppInfo>)
    ensures FieldsOf(objects) == EntryFields(Values(objects))
  {
  }

  lemma ValuesSnoc(objects: seq<AppInfo>, a: AppInfo)
    ensures Values(objects + [a]) == Values(objects) + [EntryOf(a)]
  {
    assert (objects + [a])[..|objects|] == objects;
  }

  /** The value of each of `objects`, frozen as a total function. */
  ghost function Snapshot(objects: seq<AppInfo>, entries: seq<Entry>): AppInfo -> Entry
    requires |objects| == |entries|
  {
    (a: AppInfo) =>
      if exists k | 0 <= k < |objects| :: objects[k] == a
      then var k :| 0 <= k < |objects| && objects[k] == a; entries[k]
      else Entry(AppFields("", "", "", 0, false, 0, 0, "", false), None)
  }

  lemma SnapshotAgrees(objects: seq<AppInfo>, entries: seq<Entry>, a: AppInfo)
    requires |objects| == |entries|
    requires forall k | 0 <= k < |objects| :: EntryOf(objects[k]) == entries[k]
    requires a in objects
    ensures Snapshot(objects, entries)(a) == EntryOf(a)
  {
  }

  /** Sorting the objects by name gives their values sorted by name. */
  lemma SortedSnapshot(objects: seq<AppInfo>)
    ensures Values(SortBy(objects, ByAppName)) == SortBy(Values(objects), EntryByName)
  {
    var entries := Values(objects);
    var f := Snapshot(objects, entries);
    forall a, b | a in objects && b in objects ensures ByAppName(a, b) == EntryByName(f(a), f(b)) {
      SnapshotAgrees(objects, entries, a);
      SnapshotAgrees(objects, entries, b);
    }
    MapSortBy(objects, ByAppName, f, EntryByName);
    forall k | 0 <= k < |objects| ensures Map(f, objects)[k] == entries[k] {
      SnapshotAgrees(objects, entries, objects[k]);
    }
    assert Map(f, objects) == entries;
    var sorted := SortBy(objects, ByAppName);
    forall k | 0 <= k < |objects| ensures Values(sorted)[k] == SortBy(entries, EntryByName)[k] {
      assert sorted[k] in multiset(objects);
      SnapshotAgrees(objects, entries, sorted[k]);
    }
  }

  /** The body of `getInstalledApps`' loop for one package: the record it
      appends, or None where the body continues with the next package or
      throws into the per-package catch. */
  method InstalledAppOf(packageInfo: PackageInfo) returns (app: Option<AppInfo>)
    ensures ValueOf(app) == AdmitAny(packageInfo)
    ensures app.Some? ==> fresh(app.value)
  {
    if packageInfo.launchIntent != HasLaunchIntent {
      return None;
    }
    if packageInfo.applicationInfo.None? {
      return None;
    }
    var appInfo := packageInfo.applicationInfo.value;
    if IsSystem(appInfo.flags) && IsProblematicSystemApp(packageInfo.packageName) {
      return None;
    }
    var appName := AppNameOf(packageInfo.packageName, appInfo.loadLabel);
    if IsBlank(appName) || appName == "null" {
      return None;
    }
    var created := new AppInfo.WithIcon(
      packageInfo.packageName, appName, IconOf(appInfo.loadIcon),
      VersionNameOf(packageInfo.versionName), VersionCodeOf(packageInfo.longVersionCode),
      IsSystem(appInfo.flags), packageInfo.firstInstallTime, packageInfo.lastUpdateTime,
      GetAppCategory(packageInfo.packageName));
    app := Some(created);
  }

  /** The body of `getInstalledAppsExcludingSystem`' loop for one package. */
  method UserAppOf(packageInfo: PackageInfo) returns (app: Option<AppInfo>)
    ensures ValueOf(app) == AdmitUser(packageInfo)
    ensures app.Some? ==> fresh(app.value)
  {
    if packageInfo.applicationInfo.None? {
      return None;
    }
    var appInfo := packageInfo.applicationInfo.value;
    if IsSystem(appInfo.flags) {
      return None;
    }
    if packageInfo.launchIntent != HasLaunchIntent {
      return None;
    }
    var appName := AppNameOf(packageInfo.packageName, appInfo.loadLabel);
    if IsBlank(appName) || appName == "null" {
      return None;
    }
    var created := new AppInfo.WithIcon(
      packageInfo.packageName, appName, IconOf(appInfo.loadIcon),
      VersionNameOf(packageInfo.versionName), VersionCodeOf(packageInfo.longVersionCode),
      false, packageInfo.firstInstallTime, packageInfo.lastUpdateTime,
      GetAppCategory(packageInfo.packageName));
    app := Some(created);
  }

  /** `getInstalledApps`. */
  method GetInstalledApps(pm: PackageManager) returns (apps: seq<AppInfo>)
    ensures Values(apps) == Catalog(AllApps, pm)
  {
    if !pm.available {
      return [];
    }
    var packages := pm.packages;
    var installedApps: seq<AppInfo> := [];
    ghost var entries: seq<Entry> := [];
    for i := 0 to |packages|
      invariant entries == Admitted(AllApps, packages[..i])
      invariant Values(installedApps) == entries
    {
      var app := InstalledAppOf(packages[i]);
      CollectStep(Admission(AllApps), packages, i, entries, ValueOf(app));
      if app.Some? {
        ValuesSnoc(installedApps, app.value);
        installedApps := installedApps + [app.value];
      }
      entries := entries + Appended(ValueOf(app));
    }
    assert packages[..|packages|] == packages;
    SortedSnapshot(installedApps);
    apps := SortBy(installedApps, ByAppName);
  }

  /** `getInstalledAppsExcludingSystem`. */
  method GetInstalledAppsExcludingSystem(pm: PackageManager) returns (apps: seq<AppInfo>)
    ensures Values(apps) == Catalog(UserAppsOnly, pm)
  {
    if !pm.available {
      return [];
    }
    var packages := pm.packages;
    var installedApps: seq<AppInfo> := [];
    ghost var entries: seq<Entry> := [];
    for i := 0 to |packages|
      invariant entries == Admitted(UserAppsOnly, packages[..i])
      invariant Values(installedApps) == entries
    {
      var app := UserAppOf(packages[i]);
      CollectStep(Admission(UserAppsOnly), packages, i, entries, ValueOf(app));
      if app.Some? {
        ValuesSnoc(installedApps, app.value);
        installedApps := installedApps + [app.value];
      }
      entries := entries + Appended(ValueOf(app));
    }
    assert packages[..|packages|] == packages;
    SortedSnapshot(installedApps);
    apps := SortBy(installedApps, ByAppName);
  }

  // ---------------------------------------------------------------------------
  // Single-package queries

  /** `getPackageInfo(packageName, 0)`: the installed package of that name. */
  function FindPackage(ps: seq<PackageInfo>, packageName: string): (r: Option<PackageInfo>)
    ensures r.Some? ==> r.value in ps && r.value.packageName == packageName
    ensures r.None? ==> forall p | p in ps :: p.packageName != packageName
  {
    if ps == [] then None
    else if ps[0].packageName == packageName then Some(ps[0])
    else FindPackage(ps[1..], packageName)
  }

  /** `isAppInstalled`: false both when the package is not found and when the
      package manager throws. */
  function IsAppInstalled(pm: PackageManager, packageName: string): (installed: bool)
    ensures installed <==> pm.available && exists p | p in pm.packages :: p.packageName == packageName
  {
    pm.available && FindPackage(pm.packages, packageName).Some?
  }

  /** `getAppInfo`'s result as a value. The label and the icon fall back as in
      the builders, a null `applicationInfo` included; reading the version
      fields is not guarded, and neither is the flag access, so a throw there or
      a null `applicationInfo` makes the whole query answer null. No launch
      intent, deny-list or name check is applied. */
  function AppInfoFor(pm: PackageManager, packageName: string): (info: Option<Entry>)
    ensures info.Some? ==> IsAppInstalled(pm, packageName)
    ensures info.Some? ==> info.value.fields.packageName == packageName
  {
    if !pm.available then None
    else match FindPackage(pm.packages, packageName)
      case None => None
      case Some(p) =>
        if p.applicationInfo.None? || p.versionName.Threw? || p.longVersionCode.Threw? then None
        else
          var info := p.applicationInfo.value;
          Some(RecordFor(p, info, AppNameOf(packageName, info.loadLabel), IsSystem(info.flags)))
  }

  /** `getAppInfo`. */
  method GetAppInfo(pm: PackageManager, packageName: string) returns (app: Option<AppInfo>)
    ensures app.Some? <==> AppInfoFor(pm, packageName).Some?
    ensures app.Some? ==> EntryOf(app.value) == AppInfoFor(pm, packageName).value
  {
    if !pm.available {
      return None;
    }
    var found := FindPackage(pm.packages, packageName);
    if found.None? {
      return None;
    }
    var packageInfo := found.value;
    var appName := if packageInfo.applicationInfo.Some?
      then AppNameOf(packageName, packageInfo.applicationInfo.value.loadLabel)
      else packageName;
    var appIcon := if packageInfo.applicationInfo.Some?
      then IconOf(packageInfo.applicationInfo.value.loadIcon)
      else None;
    if packageInfo.versionName.Threw? || packageInfo.longVersionCode.Threw? {
      return None;
    }
    if packageInfo.applicationInfo.None? {
      return None;
    }
    var appInfo := packageInfo.applicationInfo.value;
    var created := new AppInfo.WithIcon(
      packageInfo.packageName, appName, appIcon,
      VersionNameOf(packageInfo.versionName), VersionCodeOf(packageInfo.longVersionCode),
      IsSystem(appInfo.flags), packageInfo.firstInstallTime, packageInfo.lastUpdateTime,
      GetAppCategory(packageInfo.packageName));
    app := Some(created);
  }
}
