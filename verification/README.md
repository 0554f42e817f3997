# Halal Android TV Launcher — a verified model of the launcher core

This project models the core of the Halal Android TV Launcher in Dafny. The launcher is a HOME
application for Android TV. It lists the installed apps that can be launched, in one row, and
starts the one the user clicks. A stored preference ("show_system_apps") decides whether system
apps are listed. A deny-list hides platform services even when system apps are shown. Six
remote-control keys are handled. On systems with role management, the launcher asks to become
the HOME app, and after a boot it brings itself to the front if it is already the default.

The model follows the source file by file:

- `app_info.dfy` (module `Model`) is the `AppInfo` record. It is a class with nine immutable
  primary properties and one mutable icon. The data class's equality compares only the primary
  properties. The module also defines the three orders the adapter sorts by.
- `app_utils.dfy` (module `AppUtils`) is the package registry as the launcher sees it. Every
  platform call that may throw has a throwing outcome in the datatype that stands for it:
  `Attempt` for label, icon and version reads, `LaunchLookup` for the launch-intent lookup, and
  the package manager's `available` flag for the registry queries. The role and HOME-resolution
  queries of the other screens do the same (`RoleService`, `HomeResolution`). Only
  `startActivity` is taken never to throw (see "Left out"). The module defines:
  - the deny-list and the 36-branch category table;
  - the per-field fallbacks;
  - the two catalogue builders, as methods whose `for` loops mirror the source's `continue`
    skips;
  - `isAppInstalled` and `getAppInfo`.

  Each builder is proved against a specification function `Catalog(builder, pm)`: the admitted
  records, sorted by name.
- `catalog.dfy` (module `CatalogProperties`) holds what the builders and queries promise. It
  covers what every listed record satisfies, order, stability and unique keys. It shows that the
  user catalogue is the full catalogue without system apps, that a skipped package changes
  nothing, and how `getAppInfo` agrees and disagrees with the catalogue.
- `sorting.dfy` (module `Sorting`) has Kotlin's `filter` and stable `sortedBy` as functions on
  sequences. It proves that sorting gives sorted output, a permutation and stability, and that
  sorting commutes with filter and map.
- `text.dfy` (module `Text`) has ordinal string comparison, `isBlank`, `startsWith` and
  `contains(ignoreCase = true)`.
- `app_adapter.dfy` (module `Adapter`) is the `AppAdapter` class: search, three sorts and
  favourites over the list it holds.
- `main_activity.dfy` (module `Launcher`) is the home screen: loading, refreshing, toggling,
  launching, key handling and the role check.
- `role_request.dfy` (module `RoleRequest`) is the role-request screen: the texts, the button
  visibilities and the intents it starts.
- `boot_receiver.dfy` (module `Boot`) is the boot receiver, as a pure decision on its inputs.
- `android.dfy` (module `Android`) holds the platform values: `Option`, `Attempt`, the 64-bit
  `Long`, icons, intents and their flag words.

A search in the adapter narrows: `filterApps` filters the adapter's current list, not the list it
was first given, and overwrites it with the matches, so a second search only sees what the first
one kept (`Adapter.SuccessiveFiltersNarrow`). Sorting also acts on the current list.

## Model

| member | source | states |
|---|---|---|
| Model.AppInfo.constructor | app/src/main/java/com/halal/androidtvlauncher/model/AppInfo.kt:8-23 | the primary properties are the arguments; `category` defaults to "" and `isFavorite` to false; no icon |
| Model.AppInfo.WithIcon | app/src/main/java/com/halal/androidtvlauncher/model/AppInfo.kt:26-39 | the secondary constructor keeps the same primary properties and stores the icon |
| Model.AppInfo.Equals | app/src/main/java/com/halal/androidtvlauncher/model/AppInfo.kt:8-18 | data-class equality implies equal package names and labels; it reads no icon |
| Model.AppInfo.UpdateAppIcon | app/src/main/java/com/halal/androidtvlauncher/model/AppInfo.kt:42-44 | replaces the icon and changes nothing else |
| Model.EqualsSymmetric | app/src/main/java/com/halal/androidtvlauncher/model/AppInfo.kt:8-18 | data-class equality is symmetric |
| Model.ConstructorsAgree | app/src/main/java/com/halal/androidtvlauncher/model/AppInfo.kt:8-39 | records built by the two constructors from the same arguments are equal; only the secondary constructor holds an icon |
| Model.UpdateKeepsEquality | app/src/main/java/com/halal/androidtvlauncher/model/AppInfo.kt:20-44 | changing the icon keeps every equality the record took part in |
| Model.ByAppNamePreorder | app/src/main/java/com/halal/androidtvlauncher/adapter/AppAdapter.kt:37-40 | comparing labels is a total preorder on apps |
| Model.ByInstallTimeDescendingPreorder | app/src/main/java/com/halal/androidtvlauncher/adapter/AppAdapter.kt:42-45 | descending install time is a total preorder |
| Model.ByCategoryPreorder | app/src/main/java/com/halal/androidtvlauncher/adapter/AppAdapter.kt:47-50 | comparing categories is a total preorder |
| Model.ByAppNameTies | app/src/main/java/com/halal/androidtvlauncher/adapter/AppAdapter.kt:37-40 | two apps are tied by the label order exactly when their labels are equal |
| Model.ByCategoryTies | app/src/main/java/com/halal/androidtvlauncher/adapter/AppAdapter.kt:47-50 | two apps are tied by the category order exactly when their categories are equal |
| Text.LexLeqReflexive | app/src/main/java/com/halal/androidtvlauncher/utils/AppUtils.kt:102 | the ordinal string order is reflexive |
| Text.LexLeqTotal | app/src/main/java/com/halal/androidtvlauncher/utils/AppUtils.kt:102 | any two labels are comparable |
| Text.LexLeqTransitive | app/src/main/java/com/halal/androidtvlauncher/utils/AppUtils.kt:102 | the ordinal order is transitive |
| Text.LexLeqAntisymmetric | app/src/main/java/com/halal/androidtvlauncher/utils/AppUtils.kt:102 | labels that compare both ways are equal |
| Text.LexLeq | app/src/main/java/com/halal/androidtvlauncher/utils/AppUtils.kt:102 | the label order puts every string after its prefixes, and compares first characters first |
| Text.IsBlank | app/src/main/java/com/halal/androidtvlauncher/utils/AppUtils.kt:51-54 | the empty string is blank, and a blank string holds no lower-case letter and no dot |
| Text.ContainsIgnoreCase | app/src/main/java/com/halal/androidtvlauncher/adapter/AppAdapter.kt:29-32 | the empty query is found in every name; a query longer than the name is never found |
| Text.UpperCaseBeforeLowerCase | app/src/main/java/com/halal/androidtvlauncher/utils/AppUtils.kt:102 | the label sort is case-sensitive: "Zeta" sorts before "alpha" and not the other way |
| Text.FoldCase | app/src/main/java/com/halal/androidtvlauncher/adapter/AppAdapter.kt:29-32 | upper-case letters fold to lower case; every other character is unchanged |
| Text.ContainsIgnoreCaseOfFolded | app/src/main/java/com/halal/androidtvlauncher/adapter/AppAdapter.kt:29-32 | a search finds the same names whatever the case of the query |
| Text.ContainsItself | app/src/main/java/com/halal/androidtvlauncher/adapter/AppAdapter.kt:29-32 | searching for an app's full label finds it |
| Sorting.Filter | app/src/main/java/com/halal/androidtvlauncher/adapter/AppAdapter.kt:29-32 | `filter` keeps exactly the elements that pass, and no more than the input |
| Sorting.FilterSubsequence | app/src/main/java/com/halal/androidtvlauncher/adapter/AppAdapter.kt:29-32 | what `filter` keeps is the input with elements left out, in order |
| Sorting.FilterFilter | app/src/main/java/com/halal/androidtvlauncher/adapter/AppAdapter.kt:25-35 | two filters in a row are one filter by the conjunction |
| Sorting.FilterKeepsAll | app/src/main/java/com/halal/androidtvlauncher/adapter/AppAdapter.kt:25-35 | a filter that every element passes changes nothing |
| Sorting.SortBy | app/src/main/java/com/halal/androidtvlauncher/adapter/AppAdapter.kt:37-50 | `sortedBy` returns a permutation of its input |
| Sorting.SortBySorted | app/src/main/java/com/halal/androidtvlauncher/adapter/AppAdapter.kt:37-50 | under a total preorder the sort's output is non-decreasing |
| Sorting.SortByStable | app/src/main/java/com/halal/androidtvlauncher/adapter/AppAdapter.kt:37-50 | the sort is stable: tied elements keep their relative order |
| Sorting.FilterSortBy | app/src/main/java/com/halal/androidtvlauncher/utils/AppUtils.kt:102 | sorting then filtering equals filtering then sorting |
| Sorting.MapSortBy | app/src/main/java/com/halal/androidtvlauncher/utils/AppUtils.kt:102 | sorting objects by a key, then taking values that keep the key, equals sorting the values |
| Sorting.SortByUniqueBy | app/src/main/java/com/halal/androidtvlauncher/utils/AppUtils.kt:102 | sorting keeps keys unique |
| AppUtils.IsProblematicSystemApp | app/src/main/java/com/halal/androidtvlauncher/utils/AppUtils.kt:201-228 | the empty name is denied, and every denied name that is not blank starts with 'a', 'c' or 'n' |
| AppUtils.NotDeniedByInitial | app/src/main/java/com/halal/androidtvlauncher/utils/AppUtils.kt:201-228 | a name whose first character is not whitespace and not 'a', 'c' or 'n' passes the deny-list |
| AppUtils.NotDeniedByLetters | app/src/main/java/com/halal/androidtvlauncher/utils/AppUtils.kt:201-228 | a name starting with 'c' passes the deny-list unless it is "com.android." followed by 's', 'p' or 'i' (so "com.android.music" and "com.google.…" pass) |
| AppUtils.SettingsNotDenied | app/src/main/java/com/halal/androidtvlauncher/utils/AppUtils.kt:201-228 | "com.android.settings…" passes the deny-list, though it starts like three denied names and a denied prefix |
| AppUtils.CategorisedNotDenied | app/src/main/java/com/halal/androidtvlauncher/utils/AppUtils.kt:201-280 | no package that a branch of the category table recognises is denied: the TV, Sony, Samsung, LG, launcher and settings packages all stay listed when system apps are shown |
| AppUtils.CategoryName | app/src/main/java/com/halal/androidtvlauncher/utils/AppUtils.kt:233-280 | every prefix branch names one of the eleven categories other than "Other" |
| AppUtils.CategoryFrom | app/src/main/java/com/halal/androidtvlauncher/utils/AppUtils.kt:230-285 | from any branch on, the answer is one of the twelve categories |
| AppUtils.GetAppCategory | app/src/main/java/com/halal/androidtvlauncher/utils/AppUtils.kt:230-285 | every package gets one of the twelve categories |
| AppUtils.CategoryIsFirstMatch | app/src/main/java/com/halal/androidtvlauncher/utils/AppUtils.kt:230-285 | the first branch whose prefix matches decides the category |
| AppUtils.CategoryOther | app/src/main/java/com/halal/androidtvlauncher/utils/AppUtils.kt:283 | a package that matches no prefix is "Other" |
| AppUtils.TvSettingsIsTvApp | app/src/main/java/com/halal/androidtvlauncher/utils/AppUtils.kt:233-280 | "com.android.tv.settings" is "TV Apps", because the TV branches come before the settings branch |
| AppUtils.AdmitAny | app/src/main/java/com/halal/androidtvlauncher/utils/AppUtils.kt:24-98 | a package `getInstalledApps` keeps has a launch intent and application info; its record carries its name and system flag and a usable label, and a kept system package is not denied |
| AppUtils.AdmitUser | app/src/main/java/com/halal/androidtvlauncher/utils/AppUtils.kt:119-189 | a package the user builder keeps has a launch intent and application info and is not a system app; its record carries its name and a usable label |
| AppUtils.AdmitKeeps | app/src/main/java/com/halal/androidtvlauncher/utils/AppUtils.kt:28-90 | a kept package has a launch intent and application info, its record carries its name and system flag, the label is usable, a system record is not denied, and the user builder keeps no system record |
| AppUtils.InstalledAppOf | app/src/main/java/com/halal/androidtvlauncher/utils/AppUtils.kt:24-98 | one pass of `getInstalledApps`' loop builds exactly the record the specification admits for that package, or skips it |
| AppUtils.UserAppOf | app/src/main/java/com/halal/androidtvlauncher/utils/AppUtils.kt:119-189 | one pass of the user builder's loop builds exactly the admitted record, or skips it |
| AppUtils.GetInstalledApps | app/src/main/java/com/halal/androidtvlauncher/utils/AppUtils.kt:15-108 | the objects returned hold exactly the catalogue: the admitted records sorted by label, or nothing when the registry fails |
| AppUtils.GetInstalledAppsExcludingSystem | app/src/main/java/com/halal/androidtvlauncher/utils/AppUtils.kt:110-199 | the objects returned hold exactly the user catalogue |
| AppUtils.Catalog | app/src/main/java/com/halal/androidtvlauncher/utils/AppUtils.kt:15-108 | a failing package manager gives the empty list; otherwise the list holds exactly the admitted records, with their multiplicities |
| AppUtils.SortedSnapshot | app/src/main/java/com/halal/androidtvlauncher/utils/AppUtils.kt:102 | sorting the objects by label gives their values sorted by label |
| AppUtils.FindPackage | app/src/main/java/com/halal/androidtvlauncher/utils/AppUtils.kt:287-297 | a found package is installed under that name; when none is found no installed package has that name |
| AppUtils.IsAppInstalled | app/src/main/java/com/halal/androidtvlauncher/utils/AppUtils.kt:287-297 | true exactly when the package manager works and some installed package has the name |
| AppUtils.AppInfoFor | app/src/main/java/com/halal/androidtvlauncher/utils/AppUtils.kt:299-335 | a record is given only for an installed package, under the name asked |
| AppUtils.GetAppInfo | app/src/main/java/com/halal/androidtvlauncher/utils/AppUtils.kt:299-335 | the object returned holds `getAppInfo`'s record, and there is none exactly when the query fails |
| CatalogProperties.EntryByNamePreorder | app/src/main/java/com/halal/androidtvlauncher/utils/AppUtils.kt:102 | ordering records by label is a total preorder |
| CatalogProperties.EntryByNameTies | app/src/main/java/com/halal/androidtvlauncher/utils/AppUtils.kt:102 | two records are tied exactly when their labels are equal |
| CatalogProperties.CollectFrom | app/src/main/java/com/halal/androidtvlauncher/utils/AppUtils.kt:23-99 | a record is in the built list exactly when some package produces it |
| CatalogProperties.CatalogRecords | app/src/main/java/com/halal/androidtvlauncher/utils/AppUtils.kt:15-199 | every listed record comes from an installed package with a usable label; a listed system app is not denied; the user list holds no system app |
| CatalogProperties.CatalogOrder | app/src/main/java/com/halal/androidtvlauncher/utils/AppUtils.kt:102 | the catalogue is sorted by label, is a permutation of the admitted records, and keeps registry order among equal labels |
| CatalogProperties.NoLaunchIntentNoRecord | app/src/main/java/com/halal/androidtvlauncher/utils/AppUtils.kt:28-32 | a package without a launch intent is never listed |
| CatalogProperties.DenyListOnlyForSystem | app/src/main/java/com/halal/androidtvlauncher/utils/AppUtils.kt:35-41 | the full builder skips a launchable package exactly when it is a denied system app; the user builder skips exactly the system apps |
| CatalogProperties.RecordFields | app/src/main/java/com/halal/androidtvlauncher/utils/AppUtils.kt:44-90 | each field of a kept record, with the fallbacks for a label, icon or version that cannot be read |
| CatalogProperties.LabelFailureKeepsRecord | app/src/main/java/com/halal/androidtvlauncher/utils/AppUtils.kt:44-55 | a package whose label cannot be loaded is listed under its package name |
| CatalogProperties.AdmitUserFiltersAdmitAny | app/src/main/java/com/halal/androidtvlauncher/utils/AppUtils.kt:123-125 | per package, the user builder keeps what the full builder keeps, minus system apps |
| CatalogProperties.CollectFilter | app/src/main/java/com/halal/androidtvlauncher/utils/AppUtils.kt:110-199 | per-package filtering lifts to the whole list |
| CatalogProperties.UserCatalogIsFilteredCatalog | app/src/main/java/com/halal/androidtvlauncher/utils/AppUtils.kt:110-199 | `getInstalledAppsExcludingSystem` is `getInstalledApps` with the system apps removed, in the same order |
| CatalogProperties.CollectAppend | app/src/main/java/com/halal/androidtvlauncher/utils/AppUtils.kt:23-99 | the list for two registries in a row is the concatenation of their lists |
| CatalogProperties.CollectDrop | app/src/main/java/com/halal/androidtvlauncher/utils/AppUtils.kt:23-99 | a package that produces no record can be removed without effect |
| CatalogProperties.SkippedPackageChangesNothing | app/src/main/java/com/halal/androidtvlauncher/utils/AppUtils.kt:28-41 | a package a builder skips leaves the catalogue as it would be without that package |
| CatalogProperties.CollectKeysUnique | app/src/main/java/com/halal/androidtvlauncher/utils/AppUtils.kt:80-90 | distinct package names give distinct record keys |
| CatalogProperties.CatalogKeysUnique | app/src/main/java/com/halal/androidtvlauncher/utils/AppUtils.kt:15-199 | no two listed records share a package name |
| CatalogProperties.AppInfoAgreesWithCatalog | app/src/main/java/com/halal/androidtvlauncher/utils/AppUtils.kt:299-335 | for a listed package with readable versions, `getAppInfo` gives the catalogue's record |
| CatalogProperties.AppInfoIgnoresLaunchIntent | app/src/main/java/com/halal/androidtvlauncher/utils/AppUtils.kt:299-335 | `getAppInfo` answers for an installed package without a launch intent, which no catalogue lists |
| Adapter.AppAdapter.constructor | app/src/main/java/com/halal/androidtvlauncher/adapter/AppAdapter.kt:13-15 | the adapter holds and shows the list it was given |
| Adapter.AppAdapter.GetApps | app/src/main/java/com/halal/androidtvlauncher/adapter/AppAdapter.kt:23 | while the rows show the stored list, the list answered is the one on screen |
| Adapter.AppAdapter.UpdateApps | app/src/main/java/com/halal/androidtvlauncher/adapter/AppAdapter.kt:17-21 | the new list replaces both the stored list and the rows |
| Adapter.AppAdapter.FilterApps | app/src/main/java/com/halal/androidtvlauncher/adapter/AppAdapter.kt:25-35 | an empty query keeps the list; any other query keeps the matches of the current list, and the rows show them |
| Adapter.AppAdapter.SortByAppName | app/src/main/java/com/halal/androidtvlauncher/adapter/AppAdapter.kt:37-40 | the list becomes its stable sort by label |
| Adapter.AppAdapter.SortByInstallTime | app/src/main/java/com/halal/androidtvlauncher/adapter/AppAdapter.kt:42-45 | the list becomes its stable sort, newest install first |
| Adapter.AppAdapter.SortByCategory | app/src/main/java/com/halal/androidtvlauncher/adapter/AppAdapter.kt:47-50 | the list becomes its stable sort by category |
| Adapter.AppAdapter.GetFavorites | app/src/main/java/com/halal/androidtvlauncher/adapter/AppAdapter.kt:52-54 | exactly the favourites of the list, in list order |
| Adapter.MatchesQuery | app/src/main/java/com/halal/androidtvlauncher/adapter/AppAdapter.kt:29-32 | the empty query matches every app; a match is no longer than the label or the package name |
| Adapter.FilterKeepsMatches | app/src/main/java/com/halal/androidtvlauncher/adapter/AppAdapter.kt:25-35 | a search keeps exactly the matching apps, in order, and never lengthens the list |
| Adapter.SuccessiveFiltersNarrow | app/src/main/java/com/halal/androidtvlauncher/adapter/AppAdapter.kt:25-35 | two searches in a row keep the apps that match both queries |
| Adapter.EmptyQueryKeepsAll | app/src/main/java/com/halal/androidtvlauncher/adapter/AppAdapter.kt:26-27 | the early return for an empty query agrees with searching for it |
| Adapter.SortByAppNameOrders | app/src/main/java/com/halal/androidtvlauncher/adapter/AppAdapter.kt:37-40 | sorted by label, a permutation, and stable |
| Adapter.SortByInstallTimeOrders | app/src/main/java/com/halal/androidtvlauncher/adapter/AppAdapter.kt:42-45 | newest first, a permutation, and stable |
| Adapter.SortByCategoryOrders | app/src/main/java/com/halal/androidtvlauncher/adapter/AppAdapter.kt:47-50 | grouped by category in order, a permutation, and stable |
| Adapter.SearchThenSortByName | app/src/main/java/com/halal/androidtvlauncher/adapter/AppAdapter.kt:25-40 | a search followed by a sort leaves the sorted matches, and only matches |
| Boot.LauncherIntent | app/src/main/java/com/halal/androidtvlauncher/receiver/BootReceiver.kt:53-65 | the launcher's main screen with the new-task, clear-top and single-top flags |
| Boot.IsBootAction | app/src/main/java/com/halal/androidtvlauncher/receiver/BootReceiver.kt:16-19 | no action is no boot; a boot action is one of the three boot broadcasts |
| Boot.IsDefaultLauncher | app/src/main/java/com/halal/androidtvlauncher/receiver/BootReceiver.kt:40-51 | a failed resolution is not the default; the default is the package HOME resolves to |
| Boot.HandleBootCompleted | app/src/main/java/com/halal/androidtvlauncher/receiver/BootReceiver.kt:26-38 | starts an intent exactly when the launcher is the default, and that intent opens the main screen in a new task |
| Boot.OnReceive | app/src/main/java/com/halal/androidtvlauncher/receiver/BootReceiver.kt:15-51 | the launcher is started exactly for a boot action while HOME resolves to this package; a failed resolution starts nothing |
| Boot.EveryBootActionStarts | app/src/main/java/com/halal/androidtvlauncher/receiver/BootReceiver.kt:15-24 | each of the three boot actions starts the launcher |
| RoleRequest.RoleStatusOf | app/src/main/java/com/halal/androidtvlauncher/LauncherRoleRequestActivity.kt:76-104 | role held, not held, or manual setup only (old system, no manager, or an exception) |
| RoleRequest.SettingsTarget | app/src/main/java/com/halal/androidtvlauncher/LauncherRoleRequestActivity.kt:140-154 | HOME settings when they resolve, general settings otherwise |
| RoleRequest.RequestTarget | app/src/main/java/com/halal/androidtvlauncher/LauncherRoleRequestActivity.kt:116-138 | the role request exactly when the HOME role is available, otherwise the settings fallback |
| RoleRequest.RequestNotice | app/src/main/java/com/halal/androidtvlauncher/LauncherRoleRequestActivity.kt:116-138 | a notice exactly when the request falls back on a system that has role management; the error notice exactly on an exception |
| RoleRequest.LauncherRoleRequestActivity.Hidden | app/src/main/java/com/halal/androidtvlauncher/LauncherRoleRequestActivity.kt:76-114 | the set of hidden buttons |
| RoleRequest.LauncherRoleRequestActivity.OnCreate | app/src/main/java/com/halal/androidtvlauncher/LauncherRoleRequestActivity.kt:31-43 | the screen's texts and hidden buttons for each role status, with nothing started |
| RoleRequest.LauncherRoleRequestActivity.CheckLauncherRole | app/src/main/java/com/halal/androidtvlauncher/LauncherRoleRequestActivity.kt:76-104 | texts and buttons for each role status; a hidden button stays hidden |
| RoleRequest.LauncherRoleRequestActivity.ShowManualSetupOnly | app/src/main/java/com/halal/androidtvlauncher/LauncherRoleRequestActivity.kt:106-114 | the manual-setup texts, and the request button hidden |
| RoleRequest.LauncherRoleRequestActivity.RequestLauncherRole | app/src/main/java/com/halal/androidtvlauncher/LauncherRoleRequestActivity.kt:116-138 | starts exactly one intent, the request target, and raises the request notice |
| RoleRequest.LauncherRoleRequestActivity.OpenLauncherSettings | app/src/main/java/com/halal/androidtvlauncher/LauncherRoleRequestActivity.kt:140-154 | starts the settings target |
| RoleRequest.LauncherRoleRequestActivity.Skip | app/src/main/java/com/halal/androidtvlauncher/LauncherRoleRequestActivity.kt:68-70 | the screen finishes |
| RoleRequest.LauncherRoleRequestActivity.OnActivityResult | app/src/main/java/com/halal/androidtvlauncher/LauncherRoleRequestActivity.kt:156-193 | other request codes change nothing; granted gives the success screen and a delayed finish; refused gives manual setup |
| RoleRequest.LauncherRoleRequestActivity.OnResume | app/src/main/java/com/halal/androidtvlauncher/LauncherRoleRequestActivity.kt:195-203 | repeats the role check: the title, the message and the hidden buttons for the status found, with nothing started |
| RoleRequest.GrantedScreenStaysClean | app/src/main/java/com/halal/androidtvlauncher/LauncherRoleRequestActivity.kt:156-203 | once both buttons are hidden, no later check or answer shows them again |
| Launcher.KeyActionFor | app/src/main/java/com/halal/androidtvlauncher/MainActivity.kt:299-331 | each of the six keys has its own action, and every other key goes to the system |
| Launcher.ShowSystemAppsSetting | app/src/main/java/com/halal/androidtvlauncher/MainActivity.kt:208-211 | an unset preference shows system apps; they are hidden only when "false" is stored |
| Launcher.Toggled | app/src/main/java/com/halal/androidtvlauncher/MainActivity.kt:356-374 | the stored preference becomes the opposite of the current setting |
| Launcher.ToggleTwiceRestores | app/src/main/java/com/halal/androidtvlauncher/MainActivity.kt:206-211 | system apps are shown by default, the first toggle hides them, and two toggles restore the setting |
| Launcher.BuilderFor | app/src/main/java/com/halal/androidtvlauncher/MainActivity.kt:212-216 | the full builder exactly when system apps are shown |
| Launcher.InstalledAppsFor | app/src/main/java/com/halal/androidtvlauncher/MainActivity.kt:206-216 | the catalogue of the builder chosen by the stored preference |
| Launcher.LaunchOutcomeFor | app/src/main/java/com/halal/androidtvlauncher/MainActivity.kt:249-265 | started exactly for an installed package with a launch intent, in a new task; failed exactly when a call throws |
| Launcher.RoleResultNotice | app/src/main/java/com/halal/androidtvlauncher/MainActivity.kt:285-297 | a notice exactly for this screen's role request, and "granted" exactly for RESULT_OK |
| Launcher.MainActivity.LoadInstalledApps | app/src/main/java/com/halal/androidtvlauncher/MainActivity.kt:206-230 | the apps are the catalogue chosen by the stored preference |
| Launcher.MainActivity.RefreshAppList | app/src/main/java/com/halal/androidtvlauncher/MainActivity.kt:232-247 | reloads, shows exactly the new list if the row exists, and reports the count |
| Launcher.MainActivity.ToggleSystemAppVisibility | app/src/main/java/com/halal/androidtvlauncher/MainActivity.kt:356-374 | flips the setting, reloads under it, and reports both |
| Launcher.MainActivity.LaunchApp | app/src/main/java/com/halal/androidtvlauncher/MainActivity.kt:249-265 | starts the launch intent exactly when there is one, and raises the matching notice |
| Launcher.MainActivity.OnItemClicked | app/src/main/java/com/halal/androidtvlauncher/MainActivity.kt:148-156 | a clicked app is launched: its intent is started exactly when it has one, with the matching notice; any other item starts nothing and raises nothing |
| Launcher.MainActivity.OnActivityResult | app/src/main/java/com/halal/androidtvlauncher/MainActivity.kt:285-297 | adds the role-result notice, if any |
| Launcher.MainActivity.CheckLauncherRole | app/src/main/java/com/halal/androidtvlauncher/MainActivity.kt:59-82 | a role request is scheduled exactly when the system has role management and the HOME role is not held |
| Launcher.MainActivity.OnResume | app/src/main/java/com/halal/androidtvlauncher/MainActivity.kt:396-400 | returning repeats the role check |
| Launcher.MainActivity.OnKeyDown | app/src/main/java/com/halal/androidtvlauncher/MainActivity.kt:299-331 | per key: the drawer and settings keys start their screen; refresh reloads, shows and reports; the toggle flips, reloads and reports both; help shows the overlay; HOME and unknown keys change nothing; only unknown keys return the system's answer |
| Launcher.MainActivity.OnCreate | app/src/main/java/com/halal/androidtvlauncher/MainActivity.kt:33-57 | with the layout, loads the catalogue, shows it and runs the role check; without it, nothing is loaded |
| Launcher.ListedAppsLaunch | app/src/main/java/com/halal/androidtvlauncher/MainActivity.kt:249-265 | every app the home screen lists has a launch intent, so clicking it starts it |
| Android.AddFlags | app/src/main/java/com/halal/androidtvlauncher/MainActivity.kt:254 | `addFlags` keeps the target and sets the new flags without clearing old ones |
| Android.SetBits | app/src/main/java/com/halal/androidtvlauncher/receiver/BootReceiver.kt:55-58 | or-ing a flag word keeps every bit of both |

## Left out

- Logging, toasts' durations and texts, and layout details are left out. Toasts are `Notice` values appended to a list.
- Icons and drawables are opaque `Icon` handles. The fallback banner and the presenters are not part of this model.
- Delayed callbacks are recorded, not run. MainActivity's 5-second role request counts as a scheduled request; `showLauncherRoleRequest` and `showFallbackRoleMessage` are not part of this model. The role-request screen's delayed `finish()` is a flag.
- The help overlay is a counter. The app drawer and settings screens are only the intents that start them.
- SharedPreferences are the stored value, passed in as an `Option<bool>`. The preference write is assumed to succeed.
- `startActivity` is assumed not to throw. The only launch failures modelled are a failing package manager or a throwing launch-intent lookup.
- `loadInstalledApps`' catch (an empty list) is not modelled. The builders catch every failure themselves, so in this model only the preference read could throw, and that read is a parameter.
- Case-insensitive search folds ASCII letters only. Kotlin's full Unicode case folding is not modelled.
- String order compares UTF-16 code units. The model compares Dafny characters, which is the same for characters in the basic multilingual plane.
- `AppAdapter` is modelled on its own. No activity of the source uses it.
- Launcher.MainActivity.LoadInstalledApps: states the loaded list only by its primary properties, not by icons, because the icon objects are created inside the builders.
- Launcher.MainActivity.RefreshAppList: states the reloaded list only by its primary properties, for the same reason.
- Launcher.MainActivity.ToggleSystemAppVisibility: states the reloaded list only by its primary properties, for the same reason.
- Launcher.MainActivity.OnKeyDown: states the reloaded list only by its primary properties, for the same reason.
- Launcher.MainActivity.OnCreate: states the loaded list only by its primary properties, for the same reason. It does not model an exception inside `setupUI`.
- Launcher.InstalledAppsFor: states the list only by its primary properties, for the same reason.
- AppUtils.CategoryOther: the converse, that a package in "Other" matches no prefix, is not stated separately. Together with `AppUtils.CategoryIsFirstMatch` it fixes the category of every package.
- Android and Google system packages are told apart only by their package names, as in the source. No other platform metadata is modelled.
