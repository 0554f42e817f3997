/** The boot receiver: after a boot broadcast it brings the launcher to the
    front, but only when the system's HOME screen already resolves to this
    launcher. It keeps no state, so each broadcast is a decision on its inputs. */
module Boot {
  import opened Android

  const ACTION_BOOT_COMPLETED: string := "android.intent.action.BOOT_COMPLETED"
  const ACTION_QUICKBOOT_POWERON: string := "android.intent.action.QUICKBOOT_POWERON"
  const HTC_QUICKBOOT_POWERON: string := "com.htc.intent.action.QUICKBOOT_POWERON"

  /** The actions the `when` of `onReceive` reacts to; a broadcast without an
      action matches none of them. */
  function IsBootAction(action: Option<string>): (boot: bool)
    ensures action.None? ==> !boot
    ensures boot ==> action.value in {ACTION_BOOT_COMPLETED, ACTION_QUICKBOOT_POWERON, HTC_QUICKBOOT_POWERON}
  {
    action.Some? &&
    (action.value == ACTION_BOOT_COMPLETED ||
     action.value == ACTION_QUICKBOOT_POWERON ||
     action.value == HTC_QUICKBOOT_POWERON)
  }

  /** The outcome of resolving the HOME intent: the package of the activity it
      resolves to (absent when nothing or no activity resolves), or an exception. */
  datatype HomeResolution = Resolved(packageName: Option<string>) | ResolveThrew

  /** `isDefaultLauncher`: the HOME intent resolves to this app's own package;
      an exception while resolving counts as "not the default launcher". */
  function IsDefaultLauncher(home: HomeResolution, ownPackage: string): (isDefault: bool)
    ensures home.ResolveThrew? ==> !isDefault
    ensures isDefault ==> home.packageName == Some(ownPackage)
  {
    match home
    case Resolved(packageName) => packageName == Some(ownPackage)
    case ResolveThrew => false
  }

  /** The intent `startLauncher` sends: the launcher's main screen, in a new
      task, on top of nothing else, reusing a running instance. */
  function LauncherIntent(): (r: Intent)
    ensures r.target == MainScreen
    ensures r.flags == FLAG_ACTIVITY_NEW_TASK | FLAG_ACTIVITY_CLEAR_TOP | FLAG_ACTIVITY_SINGLE_TOP
  {
    AddFlags(AddFlags(AddFlags(Intent(MainScreen, 0), FLAG_ACTIVITY_NEW_TASK),
                      FLAG_ACTIVITY_CLEAR_TOP),
             FLAG_ACTIVITY_SINGLE_TOP)
  }

  /** `onReceive`: the intent the receiver starts, if any. */
  function OnReceive(action: Option<string>, home: HomeResolution, ownPackage: string): (started: Option<Intent>)
    ensures started.Some? <==> IsBootAction(action) && IsDefaultLauncher(home, ownPackage)
    ensures started.Some? ==> started.value == LauncherIntent()
  {
    if IsBootAction(action) then HandleBootCompleted(home, ownPackage) else None
  }

  /** `handleBootCompleted`: start the launcher exactly when it is the default. */
  function HandleBootCompleted(home: HomeResolution, ownPackage: string): (started: Option<Intent>)
    ensures started.Some? <==> IsDefaultLauncher(home, ownPackage)
    ensures started.Some? ==> started.value.target == MainScreen && started.value.flags & FLAG_ACTIVITY_NEW_TASK != 0
  {
    if IsDefaultLauncher(home, ownPackage) then Some(LauncherIntent()) else None
  }

  /** Each of the three boot actions starts the launcher when HOME resolves to it. */
  lemma EveryBootActionStarts(ownPackage: string)
    ensures OnReceive(Some(ACTION_BOOT_COMPLETED), Resolved(Some(ownPackage)), ownPackage) == Some(LauncherIntent())
    ensures OnReceive(Some(ACTION_QUICKBOOT_POWERON), Resolved(Some(ownPackage)), ownPackage) == Some(LauncherIntent())
    ensures OnReceive(Some(HTC_QUICKBOOT_POWERON), Resolved(Some(ownPackage)), ownPackage) == Some(LauncherIntent())
  {
  }
}
