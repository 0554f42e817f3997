/** The screen that asks the user to make this app the HOME launcher. It shows
    a title, a message and three buttons (request the role, open the system
    settings, skip); its handlers rewrite the texts and hide buttons. */
module RoleRequest {
  import opened Android

  const REQUEST_LAUNCHER_ROLE: int := 1001

  datatype Visibility = Visible | Gone

  /** The buttons whose visibility the screen changes. */
  datatype Button = RequestButton | ManualButton

  /** The title and message resources the screen can show (`LayoutTitle` and
      `LayoutMessage` are whatever the layout file puts there). */
  datatype Title = LayoutTitle | LauncherAlreadySet | SetAsDefaultLauncher | ManualSetupRequired | RoleGrantedTitle
  datatype Message = LayoutMessage | LauncherAlreadySetMessage | DefaultLauncherExplanation
                   | ManualSetupExplanation | RoleGrantedMessage

  /** The short notices (toasts) the screen raises. */
  datatype Notice = RoleNotAvailable | ErrorRequestingRole | RoleGranted | RoleDenied

  /** What `getSystemService(ROLE_SERVICE) as? RoleManager` gives: nothing, or a
      role manager that reports whether the HOME role exists and is held, or a
      manager whose queries throw. */
  datatype RoleService = NoRoleManager | RoleManager(available: bool, held: bool) | RoleServiceThrew

  /** How `checkLauncherRole` classifies the device. */
  datatype RoleStatus = AlreadyDefault | NotYetDefault | ManualSetupOnly

  function RoleStatusOf(sdkInt: int, service: RoleService): (status: RoleStatus)
    ensures status == AlreadyDefault <==> sdkInt >= VERSION_CODES_Q && service.RoleManager? && service.held
    ensures status == NotYetDefault <==> sdkInt >= VERSION_CODES_Q && service.RoleManager? && !service.held
    ensures status == ManualSetupOnly <==> sdkInt < VERSION_CODES_Q || !service.RoleManager?
  {
    if sdkInt < VERSION_CODES_Q then ManualSetupOnly
    else match service
      case RoleManager(_, held) => if held then AlreadyDefault else NotYetDefault
      case NoRoleManager => ManualSetupOnly
      case RoleServiceThrew => ManualSetupOnly
  }

  /** `openLauncherSettings`: the HOME settings screen when some activity
      handles it, the general settings otherwise. */
  function SettingsTarget(homeSettingsResolves: bool): (t: Target)
    ensures t == HomeSettings || t == SystemSettings
    ensures t == HomeSettings <==> homeSettingsResolves
  {
    if homeSettingsResolves then HomeSettings else SystemSettings
  }

  /** What `requestLauncherRole` starts: the system's role request when the
      HOME role can be requested, the settings fallback otherwise. */
  function RequestTarget(sdkInt: int, service: RoleService, homeSettingsResolves: bool): (t: Target)
    ensures t == RoleRequest <==> sdkInt >= VERSION_CODES_Q && service.RoleManager? && service.available
    ensures t != RoleRequest ==> t == SettingsTarget(homeSettingsResolves)
  {
    if sdkInt >= VERSION_CODES_Q && service.RoleManager? && service.available then RoleRequest
    else SettingsTarget(homeSettingsResolves)
  }

  /** The notice `requestLauncherRole` raises before falling back to the settings
      on a device that has role management. */
  function RequestNotice(sdkInt: int, service: RoleService): (n: Option<Notice>)
    ensures n.Some? <==> sdkInt >= VERSION_CODES_Q && !(service.RoleManager? && service.available)
    ensures n == Some(ErrorRequestingRole) <==> sdkInt >= VERSION_CODES_Q && service == RoleServiceThrew
  {
    if sdkInt < VERSION_CODES_Q then None
    else match service
      case RoleManager(available, _) => if available then None else Some(RoleNotAvailable)
      case NoRoleManager => Some(RoleNotAvailable)
      case RoleServiceThrew => Some(ErrorRequestingRole)
  }

  class LauncherRoleRequestActivity {
    var title: Title
    var message: Message
    var requestButton: Visibility
    var manualButton: Visibility
    /** A delayed `finish()` has been posted. */
    var finishScheduled: bool
    /** `finish()` has been called. */
    var finishing: bool
    /** The activities started, in order (the role request is started for result
        under `REQUEST_LAUNCHER_ROLE`). */
    var started: seq<Intent>
    var notices: seq<Notice>

    /** The buttons that are hidden. */
    function Hidden(): (hidden: set<Button>)
      reads this
      ensures RequestButton in hidden <==> requestButton == Gone
      ensures ManualButton in hidden <==> manualButton == Gone
    {
      (if requestButton == Gone then {RequestButton} else {}) +
      (if manualButton == Gone then {ManualButton} else {})
    }

    /** `onCreate`: the layout's texts with every button shown, then the role
        check. */
    constructor OnCreate(sdkInt: int, service: RoleService)
      ensures RoleStatusOf(sdkInt, service) == AlreadyDefault ==>
                title == LauncherAlreadySet && message == LauncherAlreadySetMessage && Hidden() == {RequestButton, ManualButton}
      ensures RoleStatusOf(sdkInt, service) == NotYetDefault ==>
                title == SetAsDefaultLauncher && message == DefaultLauncherExplanation && Hidden() == {}
      ensures RoleStatusOf(sdkInt, service) == ManualSetupOnly ==>
                title == ManualSetupRequired && message == ManualSetupExplanation && Hidden() == {RequestButton}
      ensures !finishScheduled && !finishing && started == [] && notices == []
    {
      title := LayoutTitle;
      message := LayoutMessage;
      requestButton := Visible;
      manualButton := Visible;
      finishScheduled := false;
      finishing := false;
      started := [];
      notices := [];
      new;
      CheckLauncherRole(sdkInt, service);
    }

    /** The role is held: "already set", and neither the request nor the manual
        button. Not held: the explanation, buttons as they were. No role
        management (old system, no manager, or an exception): manual setup only. */
    method CheckLauncherRole(sdkInt: int, service: RoleService)
      modifies this`title, this`message, this`requestButton, this`manualButton
      ensures RoleStatusOf(sdkInt, service) == AlreadyDefault ==>
                title == LauncherAlreadySet && message == LauncherAlreadySetMessage &&
                requestButton == Gone && manualButton == Gone
      ensures RoleStatusOf(sdkInt, service) == NotYetDefault ==>
                title == SetAsDefaultLauncher && message == DefaultLauncherExplanation &&
                requestButton == old(requestButton) && manualButton == old(manualButton)
      ensures RoleStatusOf(sdkInt, service) == ManualSetupOnly ==>
                title == ManualSetupRequired && message == ManualSetupExplanation &&
                requestButton == Gone && manualButton == old(manualButton)
      ensures old(Hidden()) <= Hidden()
    {
      if sdkInt >= VERSION_CODES_Q {
        match service {
          case RoleManager(_, held) =>
            if held {
              title := LauncherAlreadySet;
              message := LauncherAlreadySetMessage;
              requestButton := Gone;
              manualButton := Gone;
            } else {
              title := SetAsDefaultLauncher;
              message := DefaultLauncherExplanation;
            }
          case NoRoleManager =>
            ShowManualSetupOnly();
          case RoleServiceThrew =>
            ShowManualSetupOnly();
        }
      } else {
        ShowManualSetupOnly();
      }
    }

    method ShowManualSetupOnly()
      modifies this`title, this`message, this`requestButton
      ensures title == ManualSetupRequired && message == ManualSetupExplanation && requestButton == Gone
      ensures old(Hidden()) <= Hidden()
    {
      title := ManualSetupRequired;
      message := ManualSetupExplanation;
      requestButton := Gone;
    }

    /** The request button's handler. */
    method RequestLauncherRole(sdkInt: int, service: RoleService, homeSettingsResolves: bool)
      modifies this`started, this`notices
      ensures started == old(started) + [Intent(RequestTarget(sdkInt, service, homeSettingsResolves), 0)]
      ensures notices == old(notices) + (match RequestNotice(sdkInt, service) case Some(n) => [n] case None => [])
    {
      if sdkInt >= VERSION_CODES_Q {
        match service {
          case RoleManager(available, _) =>
            if available {
              started := started + [Intent(RoleRequest, 0)];
            } else {
              notices := notices + [RoleNotAvailable];
              OpenLauncherSettings(homeSettingsResolves);
            }
          case NoRoleManager =>
            notices := notices + [RoleNotAvailable];
            OpenLauncherSettings(homeSettingsResolves);
          case RoleServiceThrew =>
            notices := notices + [ErrorRequestingRole];
            OpenLauncherSettings(homeSettingsResolves);
        }
      } else {
        OpenLauncherSettings(homeSettingsResolves);
      }
    }

    /** The manual button's handler. */
    method OpenLauncherSettings(homeSettingsResolves: bool)
      modifies this`started
      ensures started == old(started) + [Intent(SettingsTarget(homeSettingsResolves), 0)]
    {
      if homeSettingsResolves {
        started := started + [Intent(HomeSettings, 0)];
      } else {
        started := started + [Intent(SystemSettings, 0)];
      }
    }

    /** The skip button's handler. */
    method Skip()
      modifies this`finishing
      ensures finishing
    {
      finishing := true;
    }

    /** Only the answer to this screen's own role request counts. Granted: the
        success texts, no request or manual button, and a delayed finish.
        Refused: manual setup, without the request button. */
    method OnActivityResult(requestCode: int, resultCode: int)
      modifies this`title, this`message, this`requestButton, this`manualButton, this`finishScheduled, this`notices
      ensures requestCode != REQUEST_LAUNCHER_ROLE ==>
                title == old(title) && message == old(message) && Hidden() == old(Hidden()) &&
                finishScheduled == old(finishScheduled) && notices == old(notices)
      ensures requestCode == REQUEST_LAUNCHER_ROLE && resultCode == RESULT_OK ==>
                title == RoleGrantedTitle && message == RoleGrantedMessage &&
                Hidden() == {RequestButton, ManualButton} && finishScheduled &&
                notices == old(notices) + [RoleGranted]
      ensures requestCode == REQUEST_LAUNCHER_ROLE && resultCode != RESULT_OK ==>
                title == ManualSetupRequired && message == ManualSetupExplanation &&
                requestButton == Gone && manualButton == old(manualButton) &&
                finishScheduled == old(finishScheduled) && notices == old(notices) + [RoleDenied]
      ensures old(Hidden()) <= Hidden()
    {
      if requestCode == REQUEST_LAUNCHER_ROLE {
        if resultCode == RESULT_OK {
          notices := notices + [RoleGranted];
          title := RoleGrantedTitle;
          message := RoleGrantedMessage;
          requestButton := Gone;
          manualButton := Gone;
          finishScheduled := true;
        } else {
          notices := notices + [RoleDenied];
          title := ManualSetupRequired;
          message := ManualSetupExplanation;
          requestButton := Gone;
        }
      }
    }

    /** Returning to the screen repeats the role check. */
    method OnResume(sdkInt: int, service: RoleService)
      modifies this`title, this`message, this`requestButton, this`manualButton
      ensures RoleStatusOf(sdkInt, service) == AlreadyDefault ==>
                title == LauncherAlreadySet && message == LauncherAlreadySetMessage &&
                Hidden() == {RequestButton, ManualButton}
      ensures RoleStatusOf(sdkInt, service) == NotYetDefault ==>
                title == SetAsDefaultLauncher && message == DefaultLauncherExplanation && Hidden() == old(Hidden())
      ensures RoleStatusOf(sdkInt, service) == ManualSetupOnly ==>
                title == ManualSetupRequired && message == ManualSetupExplanation &&
                RequestButton in Hidden() && (ManualButton in Hidden() <==> ManualButton in old(Hidden()))
      ensures old(Hidden()) <= Hidden()
    {
      CheckLauncherRole(sdkInt, service);
    }
  }

  /** Once the role has been granted, no later check or answer brings either
      button back, and a check that finds the role held keeps the screen as it is. */
  method GrantedScreenStaysClean(screen: LauncherRoleRequestActivity, sdkInt: int, service: RoleService, code: int, result: int)
    requires screen.Hidden() == {RequestButton, ManualButton}
    modifies screen
    ensures screen.Hidden() == {RequestButton, ManualButton}
  {
    screen.OnResume(sdkInt, service);
    screen.OnActivityResult(code, result);
  }
}
