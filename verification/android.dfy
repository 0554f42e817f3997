/** Platform values the launcher exchanges with the operating system: optional
    values, calls that may throw, 64-bit integers, icon handles and intents. */
module Android {

  datatype Option<+T> = None | Some(value: T)

  /** The outcome of one call into the platform that either returns a value or
      throws (the launcher catches every such exception itself). */
  datatype Attempt<+T> = Loaded(value: T) | Threw

  /** Kotlin `Long`. */
  type Long = x: int | -0x8000_0000_0000_0000 <= x < 0x8000_0000_0000_0000

  /** An opaque reference to a loaded `Drawable`. */
  datatype Icon = Icon(handle: nat)

  /** `ApplicationInfo.FLAG_SYSTEM`. */
  const FLAG_SYSTEM: bv32 := 0x0000_0001

  /** `Intent.FLAG_ACTIVITY_*` values. */
  const FLAG_ACTIVITY_NEW_TASK: bv32 := 0x1000_0000
  const FLAG_ACTIVITY_CLEAR_TOP: bv32 := 0x0400_0000
  const FLAG_ACTIVITY_SINGLE_TOP: bv32 := 0x2000_0000

  /** What an intent asks the system to start. */
  datatype Target =
    | LaunchEntry(packageName: string)  // the intent from getLaunchIntentForPackage
    | MainScreen                        // MainActivity of this launcher
    | AppDrawerScreen                   // AppDrawerActivity
    | SettingsScreen                    // SettingsActivity
    | RoleRequest                       // RoleManager.createRequestRoleIntent(ROLE_HOME)
    | HomeSettings                      // Settings.ACTION_HOME_SETTINGS
    | SystemSettings                    // Settings.ACTION_SETTINGS

  datatype Intent = Intent(target: Target, flags: bv32)

  /** `Intent.addFlags`: the flags are or-ed into the intent's flag word. */
  function AddFlags(i: Intent, f: bv32): (r: Intent)
    ensures r.target == i.target
    ensures r.flags & f == f
    ensures r.flags & i.flags == i.flags
  {
    Intent(i.target, SetBits(i.flags, f))
  }

  /** Bitwise or: the result keeps every bit of both words. */
  function SetBits(word: bv32, bits: bv32): (r: bv32)
    ensures r & word == word && r & bits == bits
  {
    OrKeepsBoth(word, bits);
    word | bits
  }

  lemma OrKeepsBoth(a: bv32, b: bv32)
    ensures (a | b) & a == a && (a | b) & b == b
  {
  }

  /** `Activity.RESULT_OK`. */
  const RESULT_OK: int := -1

  /** `Build.VERSION_CODES.Q`. */
  const VERSION_CODES_Q: int := 29
}
