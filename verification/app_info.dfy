/** The `AppInfo` record: nine immutable primary properties (the data class's
    constructor parameters) and one mutable icon that is not one of them. */
module Model {
  import opened Android
  import opened Text
  import opened Sorting

  /** The primary properties of an `AppInfo`, as a value. Two `AppInfo` objects
      are equal for the data class exactly when these are. */
  datatype AppFields = AppFields(
    packageName: string,
    appName: string,
    versionName: string,
    versionCode: Long,
    isSystemApp: bool,
    installTime: Long,
    updateTime: Long,
    category: string,
    isFavorite: bool)

  class AppInfo {
    const packageName: string
    const appName: string
    const versionName: string
    const versionCode: Long
    const isSystemApp: bool
    const installTime: Long
    const updateTime: Long
    const category: string
    const isFavorite: bool

    /** Transient, not part of the primary constructor; only this class sets it. */
    var appIcon: Option<Icon>

    /** The primary constructor: `category` defaults to "" and `isFavorite` to
        false, and the icon starts out as null. */
    constructor (packageName: string, appName: string, versionName: string, versionCode: Long,
                 isSystemApp: bool, installTime: Long, updateTime: Long,
                 category: string := "", isFavorite: bool := false)
      ensures Fields() == AppFields(packageName, appName, versionName, versionCode, isSystemApp,
                                    installTime, updateTime, category, isFavorite)
      ensures appIcon == None
    {
      this.packageName := packageName;
      this.appName := appName;
      this.versionName := versionName;
      this.versionCode := versionCode;
      this.isSystemApp := isSystemApp;
      this.installTime := installTime;
      this.updateTime := updateTime;
      this.category := category;
      this.isFavorite := isFavorite;
      this.appIcon := None;
    }

    /** The secondary constructor: the same primary properties, and the icon. */
    constructor WithIcon(packageName: string, appName: string, appIcon: Option<Icon>, versionName: string,
                         versionCode: Long, isSystemApp: bool, installTime: Long, updateTime: Long,
                         category: string := "", isFavorite: bool := false)
      ensures Fields() == AppFields(packageName, appName, versionName, versionCode, isSystemApp,
                                    installTime, updateTime, category, isFavorite)
      ensures this.appIcon == appIcon
    {
      this.packageName := packageName;
      this.appName := appName;
      this.versionName := versionName;
      this.versionCode := versionCode;
      this.isSystemApp := isSystemApp;
      this.installTime := installTime;
      this.updateTime := updateTime;
      this.category := category;
      this.isFavorite := isFavorite;
      this.appIcon := appIcon;
    }

    function Fields(): AppFields
    {
      AppFields(packageName, appName, versionName, versionCode, isSystemApp,
                installTime, updateTime, category, isFavorite)
    }

    /** The data class's `equals`: it reads no heap state, so the icon cannot
        influence it. */
    predicate Equals(other: AppInfo)
      ensures Equals(other) ==> packageName == other.packageName && appName == other.appName
    {
      Fields() == other.Fields()
    }

    /** Replaces the icon and nothing else (the primary properties are
        constants, and the frame is the icon alone). */
    method UpdateAppIcon(icon: Option<Icon>)
      modifies this`appIcon
      ensures appIcon == icon
    {
      appIcon := icon;
    }
  }

  /** The data class's equality is symmetric. */
  lemma EqualsSymmetric(a: AppInfo, b: AppInfo)
    ensures a.Equals(b) <==> b.Equals(a)
  {
  }

  /** Both constructors build records that the data class considers equal,
      whatever icon the secondary one was given. */
  method ConstructorsAgree(packageName: string, appName: string, icon: Option<Icon>, versionName: string,
                           versionCode: Long, isSystemApp: bool, installTime: Long, updateTime: Long)
    returns (plain: AppInfo, withIcon: AppInfo)
    ensures plain.Equals(withIcon)
    ensures plain.category == "" && !plain.isFavorite && plain.appIcon == None
    ensures withIcon.appIcon == icon
  {
    plain := new AppInfo(packageName, appName, versionName, versionCode, isSystemApp, installTime, updateTime);
    withIcon := new AppInfo.WithIcon(packageName, appName, icon, versionName, versionCode, isSystemApp,
                                     installTime, updateTime);
  }

  /** Changing an icon keeps every equality the record took part in. */
  method UpdateKeepsEquality(a: AppInfo, b: AppInfo, icon: Option<Icon>)
    requires a.Equals(b)
    modifies a`appIcon
    ensures a.Equals(b) && a.appIcon == icon
  {
    a.UpdateAppIcon(icon);
  }

  // ---------------------------------------------------------------------------
  // The keys that the launcher's lists are sorted and filtered by

  /** `sortedBy { it.appName }`. */
  predicate ByAppName(a: AppInfo, b: AppInfo)
  {
    LexLeq(a.appName, b.appName)
  }

  /** `sortedByDescending { it.installTime }`. */
  predicate ByInstallTimeDescending(a: AppInfo, b: AppInfo)
  {
    a.installTime >= b.installTime
  }

  /** `sortedBy { it.category }`. */
  predicate ByCategory(a: AppInfo, b: AppInfo)
  {
    LexLeq(a.category, b.category)
  }

  lemma ByAppNamePreorder(s: seq<AppInfo>)
    ensures Preorder(s, ByAppName)
  {
    forall a, b | a in s && b in s ensures ByAppName(a, b) || ByAppName(b, a) {
      LexLeqTotal(a.appName, b.appName);
    }
    forall a, b, c | a in s && b in s && c in s && ByAppName(a, b) && ByAppName(b, c)
      ensures ByAppName(a, c)
    {
      LexLeqTransitive(a.appName, b.appName, c.appName);
    }
  }

  lemma ByCategoryPreorder(s: seq<AppInfo>)
    ensures Preorder(s, ByCategory)
  {
    forall a, b | a in s && b in s ensures ByCategory(a, b) || ByCategory(b, a) {
      LexLeqTotal(a.category, b.category);
    }
    forall a, b, c | a in s && b in s && c in s && ByCategory(a, b) && ByCategory(b, c)
      ensures ByCategory(a, c)
    {
      LexLeqTransitive(a.category, b.category, c.category);
    }
  }

  lemma ByInstallTimeDescendingPreorder(s: seq<AppInfo>)
    ensures Preorder(s, ByInstallTimeDescending)
  {
  }

  /** Two records are tied by name exactly when their names are equal. */
  lemma ByAppNameTies(a: AppInfo, b: AppInfo)
    ensures ByAppName(a, b) && ByAppName(b, a) <==> a.appName == b.appName
  {
    if ByAppName(a, b) && ByAppName(b, a) {
      LexLeqAntisymmetric(a.appName, b.appName);
    }
    if a.appName == b.appName {
      LexLeqReflexive(a.appName);
    }
  }

  /** Two records are tied by category exactly when their categories are equal. */
  lemma ByCategoryTies(a: AppInfo, b: AppInfo)
    ensures ByCategory(a, b) && ByCategory(b, a) <==> a.category == b.category
  {
    if ByCategory(a, b) && ByCategory(b, a) {
      LexLeqAntisymmetric(a.category, b.category);
    }
    if a.category == b.category {
      LexLeqReflexive(a.category);
    }
  }
}
