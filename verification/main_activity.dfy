/** The launcher's home screen: it loads the app catalogue chosen by the stored
    "show system apps" preference, shows it in one row, launches the app the
    user clicks, reacts to six remote-control keys and, on systems with role
    management, schedules a request to become the HOME app. */
module Launcher {
  import opened Android
  import opened Model
  import opened AppUtils
  import CatalogProperties

  const REQUEST_LAUNCHER_ROLE: int := 1001

  /** `KeyEvent.KEYCODE_*` values. */
  const KEYCODE_HOME: int := 3
  const KEYCODE_H: int := 36
  const KEYCODE_R: int := 46
  const KEYCODE_S: int := 47
  const KEYCODE_MENU: int := 82
  const KEYCODE_SETTINGS: int := 176

  /** What `onKeyDown` does with a key. */
  datatype KeyAction = OpenAppDrawer | OpenSettings | ConsumeHome | RefreshApps | ToggleSystemApps | ShowHelp | PassToSystem

  function KeyActionFor(keyCode: int): (action: KeyAction)
    ensures action == OpenAppDrawer <==> keyCode == KEYCODE_MENU
    ensures action == OpenSettings <==> keyCode == KEYCODE_SETTINGS
    ensures action == ConsumeHome <==> keyCode == KEYCODE_HOME
    ensures action == RefreshApps <==> keyCode == KEYCODE_R
    ensures action == ToggleSystemApps <==> keyCode == KEYCODE_S
    ensures action == ShowHelp <==> keyCode == KEYCODE_H
    ensures action == PassToSystem <==>
              keyCode !in {KEYCODE_MENU, KEYCODE_SETTINGS, KEYCODE_HOME, KEYCODE_R, KEYCODE_S, KEYCODE_H}
  {
    if keyCode == KEYCODE_MENU then OpenAppDrawer
    else if keyCode == KEYCODE_SETTINGS then OpenSettings
    else if keyCode == KEYCODE_HOME then ConsumeHome
    else if keyCode == KEYCODE_R then RefreshApps
    else if keyCode == KEYCODE_S then ToggleSystemApps
    else if keyCode == KEYCODE_H then ShowHelp
    else PassToSystem
  }

  /** The short notices (toasts) the screen raises. */
  datatype Notice =
    | Launching(appName: string)
    | CannotLaunch(appName: string)
    | LaunchError(appName: string)
    | AppListRefreshed(count: nat)
    | SystemAppsShown(shown: bool)
    | RoleGranted
    | ManualSetupHint

  /** The stored "show_system_apps" preference, read with default `true`. */
  function ShowSystemAppsSetting(stored: Option<bool>): (shown: bool)
    ensures stored.None? ==> shown
    ensures !shown ==> stored == Some(false)
  {
    match stored
    case Some(b) => b
    case None => true
  }

  /** The preference `toggleSystemAppVisibility` stores. */
  function Toggled(stored: Option<bool>): (r: Option<bool>)
    ensures r.Some? && ShowSystemAppsSetting(r) == !ShowSystemAppsSetting(stored)
  {
    Some(!ShowSystemAppsSetting(stored))
  }

  /** Without a stored preference system apps are shown, so the first toggle
      hides them; a second toggle brings back the earlier setting. */
  lemma ToggleTwiceRestores(stored: Option<bool>)
    ensures ShowSystemAppsSetting(None)
    ensures !ShowSystemAppsSetting(Toggled(None))
    ensures ShowSystemAppsSetting(Toggled(Toggled(stored))) == ShowSystemAppsSetting(stored)
  {
  }

  /** The catalogue builder `loadInstalledApps` picks for a preference value. */
  function BuilderFor(showSystemApps: bool): (b: Builder)
    ensures b == AllApps <==> showSystemApps
  {
    if showSystemApps then AllApps else UserAppsOnly
  }

  /** The apps `loadInstalledApps` loads under a stored preference (stated on
      their primary properties). */
  method InstalledAppsFor(pm: PackageManager, stored: Option<bool>) returns (apps: seq<AppInfo>)
    ensures FieldsOf(apps) == CatalogFields(BuilderFor(ShowSystemAppsSetting(stored)), pm)
  {
    var showSystemApps := ShowSystemAppsSetting(stored);
    if showSystemApps {
      apps := GetInstalledApps(pm);
    } else {
      apps := GetInstalledAppsExcludingSystem(pm);
    }
    FieldsOfValues(apps);
  }

  /** How `launchApp` ends for a package. */
  datatype LaunchOutcome = Started(intent: Intent) | NoIntent | LaunchFailed

  /** `getLaunchIntentForPackage`, then `addFlags(FLAG_ACTIVITY_NEW_TASK)`. A
      failing package manager, or a package whose lookup fails, throws; an
      unknown package has no launch intent. */
  function LaunchOutcomeFor(pm: PackageManager, packageName: string): (r: LaunchOutcome)
    ensures r.Started? <==>
              pm.available && FindPackage(pm.packages, packageName).Some? &&
              FindPackage(pm.packages, packageName).value.launchIntent == HasLaunchIntent
    ensures r.Started? ==> r.intent.target == LaunchEntry(packageName)
    ensures r.Started? ==> r.intent.flags & FLAG_ACTIVITY_NEW_TASK == FLAG_ACTIVITY_NEW_TASK
    ensures r == LaunchFailed <==>
              !pm.available ||
              (FindPackage(pm.packages, packageName).Some? &&
               FindPackage(pm.packages, packageName).value.launchIntent == LaunchLookupThrew)
  {
    if !pm.available then LaunchFailed
    else match FindPackage(pm.packages, packageName)
      case None => NoIntent
      case Some(p) =>
        match p.launchIntent
        case HasLaunchIntent => Started(AddFlags(Intent(LaunchEntry(packageName), 0), FLAG_ACTIVITY_NEW_TASK))
        case NoLaunchIntent => NoIntent
        case LaunchLookupThrew => LaunchFailed
  }

  /** The notice each launch outcome raises. */
  function LaunchNotice(outcome: LaunchOutcome, appName: string): Notice
  {
    match outcome
    case Started(_) => Launching(appName)
    case NoIntent => CannotLaunch(appName)
    case LaunchFailed => LaunchError(appName)
  }

  /** The notice `onActivityResult` raises, if any. */
  function RoleResultNotice(requestCode: int, resultCode: int): (n: Option<Notice>)
    ensures n.Some? <==> requestCode == REQUEST_LAUNCHER_ROLE
    ensures n == Some(RoleGranted) <==> requestCode == REQUEST_LAUNCHER_ROLE && resultCode == RESULT_OK
  {
    if requestCode != REQUEST_LAUNCHER_ROLE then None
    else if resultCode == RESULT_OK then Some(RoleGranted)
    else Some(ManualSetupHint)
  }

  /** What `RoleManager.isRoleHeld(ROLE_HOME)` answers, or that it (or the
      cast of the role service) throws. */
  datatype RoleQuery = Held | NotHeld | QueryThrew

  /** A click on a row item: an app, or anything else the row might hold. */
  datatype ClickedItem = AppItem(app: AppInfo) | OtherItem

  class MainActivity {
    /** The `installedApps` property. */
    var installedApps: seq<AppInfo>
    /** The value stored under "show_system_apps" in "launcher_prefs". */
    var storedShowSystemApps: Option<bool>
    /** Whether `appsRowAdapter` has been initialised, and its rows. */
    var rowAdapterReady: bool
    var rowItems: seq<AppInfo>
    /** The activities started, in order. */
    var started: seq<Intent>
    var notices: seq<Notice>
    /** Delayed role requests posted by `checkLauncherRole`. */
    var roleRequestsScheduled: nat
    /** Help overlays shown. */
    var helpShown: nat

    function ShowSystemApps(): bool
      reads this
    {
      ShowSystemAppsSetting(storedShowSystemApps)
    }

    /** The list, the preference and the row are as they were. */
    twostate predicate ListUnchanged()
      reads this
    {
      installedApps == old(installedApps) && storedShowSystemApps == old(storedShowSystemApps) &&
      rowItems == old(rowItems)
    }

    /** `loadInstalledApps`: the full catalogue when system apps are shown, the
        user catalogue otherwise (stated on the apps' primary properties). */
    method LoadInstalledApps(pm: PackageManager)
      modifies this`installedApps
      ensures FieldsOf(installedApps) == CatalogFields(BuilderFor(ShowSystemAppsSetting(storedShowSystemApps)), pm)
    {
      installedApps := InstalledAppsFor(pm, storedShowSystemApps);
    }

    /** `refreshAppList`: reload, then show exactly the new list if the row
        exists. */
    method RefreshAppList(pm: PackageManager)
      modifies this`installedApps, this`rowItems, this`notices
      ensures FieldsOf(installedApps) == CatalogFields(BuilderFor(ShowSystemAppsSetting(storedShowSystemApps)), pm)
      ensures rowAdapterReady ==> rowItems == installedApps
      ensures !rowAdapterReady ==> rowItems == old(rowItems)
      ensures notices == old(notices) + [AppListRefreshed(|installedApps|)]
    {
      LoadInstalledApps(pm);
      if rowAdapterReady {
        rowItems := installedApps;
      }
      notices := notices + [AppListRefreshed(|installedApps|)];
    }

    /** `toggleSystemAppVisibility`: store the opposite of the current setting,
        then reload under it. */
    method ToggleSystemAppVisibility(pm: PackageManager)
      modifies this`storedShowSystemApps, this`installedApps, this`rowItems, this`notices
      ensures storedShowSystemApps == Toggled(old(storedShowSystemApps))
      ensures ShowSystemApps() == !old(ShowSystemApps())
      ensures FieldsOf(installedApps) == CatalogFields(BuilderFor(ShowSystemAppsSetting(storedShowSystemApps)), pm)
      ensures rowAdapterReady ==> rowItems == installedApps
      ensures !rowAdapterReady ==> rowItems == old(rowItems)
      ensures notices == old(notices) + [AppListRefreshed(|installedApps|), SystemAppsShown(ShowSystemApps())]
    {
      var currentSetting := ShowSystemAppsSetting(storedShowSystemApps);
      var newSetting := !currentSetting;
      storedShowSystemApps := Some(newSetting);
      RefreshAppList(pm);
      notices := notices + [SystemAppsShown(newSetting)];
    }

    /** `launchApp`: start the package's launch intent in a new task, or report
        that it cannot be launched. */
    method LaunchApp(pm: PackageManager, app: AppInfo)
      modifies this`started, this`notices
      ensures LaunchOutcomeFor(pm, app.packageName).Started? ==>
                started == old(started) + [LaunchOutcomeFor(pm, app.packageName).intent]
      ensures !LaunchOutcomeFor(pm, app.packageName).Started? ==> started == old(started)
      ensures notices == old(notices) + [LaunchNotice(LaunchOutcomeFor(pm, app.packageName), app.appName)]
    {
      var outcome := LaunchOutcomeFor(pm, app.packageName);
      match outcome {
        case Started(intent) =>
          started := started + [intent];
          notices := notices + [Launching(app.appName)];
        case NoIntent =>
          notices := notices + [CannotLaunch(app.appName)];
        case LaunchFailed =>
          notices := notices + [LaunchError(app.appName)];
      }
    }

    /** The row's click listener: only apps are launched. */
    method OnItemClicked(pm: PackageManager, item: ClickedItem)
      modifies this`started, this`notices
      ensures item.AppItem? ==>
                started == old(started) + (match LaunchOutcomeFor(pm, item.app.packageName)
                                           case Started(intent) => [intent]
                                           case _ => [])
      ensures item.AppItem? ==> notices == old(notices) + [LaunchNotice(LaunchOutcomeFor(pm, item.app.packageName), item.app.appName)]
      ensures item.OtherItem? ==> started == old(started) && notices == old(notices)
    {
      match item {
        case AppItem(app) => LaunchApp(pm, app);
        case OtherItem =>
      }
    }

    /** `onActivityResult`: a notice about this screen's own role request. */
    method OnActivityResult(requestCode: int, resultCode: int)
      modifies this`notices
      ensures notices == old(notices) + (match RoleResultNotice(requestCode, resultCode) case Some(n) => [n] case None => [])
    {
      if requestCode == REQUEST_LAUNCHER_ROLE {
        if resultCode == RESULT_OK {
          notices := notices + [RoleGranted];
        } else {
          notices := notices + [ManualSetupHint];
        }
      }
    }

    /** `checkLauncherRole`: post a delayed role request exactly when the system
        has role management and the HOME role is not held. */
    method CheckLauncherRole(sdkInt: int, role: RoleQuery)
      modifies this`roleRequestsScheduled
      ensures sdkInt >= VERSION_CODES_Q && role == NotHeld ==> roleRequestsScheduled == old(roleRequestsScheduled) + 1
      ensures !(sdkInt >= VERSION_CODES_Q && role == NotHeld) ==> roleRequestsScheduled == old(roleRequestsScheduled)
    {
      if sdkInt >= VERSION_CODES_Q {
        match role {
          case NotHeld => roleRequestsScheduled := roleRequestsScheduled + 1;
          case Held =>
          case QueryThrew =>
        }
      }
    }

    /** `onResume` repeats the role check. */
    method OnResume(sdkInt: int, role: RoleQuery)
      modifies this`roleRequestsScheduled
      ensures roleRequestsScheduled == old(roleRequestsScheduled) + (if sdkInt >= VERSION_CODES_Q && role == NotHeld then 1 else 0)
    {
      CheckLauncherRole(sdkInt, role);
    }

    /** `onKeyDown`: six keys are handled here and reported as consumed; every
        other key is left to the system, whose answer is `systemHandles`. */
    method OnKeyDown(pm: PackageManager, keyCode: int, systemHandles: bool) returns (handled: bool)
      modifies this
      ensures handled == (KeyActionFor(keyCode) != PassToSystem || systemHandles)
      // The drawer and settings keys start one screen and change nothing else.
      ensures KeyActionFor(keyCode) == OpenAppDrawer ==>
                started == old(started) + [Intent(AppDrawerScreen, 0)] && ListUnchanged() && notices == old(notices) &&
                helpShown == old(helpShown)
      ensures KeyActionFor(keyCode) == OpenSettings ==>
                started == old(started) + [Intent(SettingsScreen, 0)] && ListUnchanged() && notices == old(notices) &&
                helpShown == old(helpShown)
      // R reloads under the same setting, exactly as `refreshAppList` does.
      ensures KeyActionFor(keyCode) == RefreshApps ==>
                storedShowSystemApps == old(storedShowSystemApps) &&
                FieldsOf(installedApps) == CatalogFields(BuilderFor(ShowSystemAppsSetting(storedShowSystemApps)), pm) &&
                (rowAdapterReady ==> rowItems == installedApps) &&
                (!rowAdapterReady ==> rowItems == old(rowItems)) &&
                notices == old(notices) + [AppListRefreshed(|installedApps|)] &&
                started == old(started) && helpShown == old(helpShown)
      // S flips the setting and reloads, exactly as `toggleSystemAppVisibility` does.
      ensures KeyActionFor(keyCode) == ToggleSystemApps ==>
                storedShowSystemApps == Toggled(old(storedShowSystemApps)) &&
                FieldsOf(installedApps) == CatalogFields(BuilderFor(ShowSystemAppsSetting(storedShowSystemApps)), pm) &&
                (rowAdapterReady ==> rowItems == installedApps) &&
                (!rowAdapterReady ==> rowItems == old(rowItems)) &&
                notices == old(notices) + [AppListRefreshed(|installedApps|), SystemAppsShown(ShowSystemApps())] &&
                started == old(started) && helpShown == old(helpShown)
      ensures KeyActionFor(keyCode) == ShowHelp ==>
                helpShown == old(helpShown) + 1 && ListUnchanged() && started == old(started) && notices == old(notices)
      ensures KeyActionFor(keyCode) in {ConsumeHome, PassToSystem} ==>
                ListUnchanged() && started == old(started) && notices == old(notices) && helpShown == old(helpShown)
      ensures rowAdapterReady == old(rowAdapterReady) && roleRequestsScheduled == old(roleRequestsScheduled)
    {
      match KeyActionFor(keyCode) {
        case OpenAppDrawer =>
          started := started + [Intent(AppDrawerScreen, 0)];
          handled := true;
        case OpenSettings =>
          started := started + [Intent(SettingsScreen, 0)];
          handled := true;
        case ConsumeHome =>
          handled := true;
        case RefreshApps =>
          RefreshAppList(pm);
          handled := true;
        case ToggleSystemApps =>
          ToggleSystemAppVisibility(pm);
          handled := true;
        case ShowHelp =>
          helpShown := helpShown + 1;
          handled := true;
        case PassToSystem =>
          handled := systemHandles;
      }
    }

    /** `onCreate` with its layout in place: load the catalogue, build the row
        from it, then check the HOME role. Without the layout nothing is loaded. */
    constructor OnCreate(pm: PackageManager, stored: Option<bool>, layoutFound: bool, sdkInt: int, role: RoleQuery)
      ensures storedShowSystemApps == stored
      ensures layoutFound ==> FieldsOf(installedApps) == CatalogFields(BuilderFor(ShowSystemAppsSetting(stored)), pm)
      ensures layoutFound ==> rowAdapterReady && rowItems == installedApps
      ensures !layoutFound ==> installedApps == [] && !rowAdapterReady
      ensures roleRequestsScheduled == (if layoutFound && sdkInt >= VERSION_CODES_Q && role == NotHeld then 1 else 0)
      ensures started == [] && notices == [] && helpShown == 0
    {
      var apps := [];
      if layoutFound {
        apps := InstalledAppsFor(pm, stored);
      }
      installedApps := apps;
      storedShowSystemApps := stored;
      rowAdapterReady := layoutFound;
      rowItems := apps;
      started := [];
      notices := [];
      roleRequestsScheduled := 0;
      helpShown := 0;
      new;
      if layoutFound {
        CheckLauncherRole(sdkInt, role);
      }
    }
  }

  /** Every app the home screen lists can be launched: the catalogue only holds
      packages with a launch intent, and package names are unique. */
  lemma ListedAppsLaunch(b: Builder, pm: PackageManager, listed: AppFields)
    requires DistinctNames(pm.packages)
    requires listed in CatalogFields(b, pm)
    ensures LaunchOutcomeFor(pm, listed.packageName).Started?
    ensures LaunchOutcomeFor(pm, listed.packageName).intent.target == LaunchEntry(listed.packageName)
  {
    var entries := Catalog(b, pm);
    var k :| 0 <= k < |entries| && entries[k].fields == listed;
    var e := entries[k];
    CatalogProperties.CatalogRecords(b, pm, e);
    var ps := pm.packages;
    var i :| 0 <= i < |ps| && Admit(b, ps[i]) == Some(e);
    AdmitKeeps(b, ps[i]);
    var found := FindPackage(ps, e.fields.packageName);
    var j :| 0 <= j < |ps| && ps[j] == found.value;
    assert j == i;
    assert found == Some(ps[i]);
  }
}
