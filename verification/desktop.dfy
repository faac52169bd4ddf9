/** The desktop-side helpers of the daemon: trimming a shell command's
    output, the `LockedHint=yes` test, the command line a lock, unlock or
    proximity command is launched with, desktop detection, and the
    defaults `setup_desktop_commands` fills into the configuration.
    Environment variables and the output of shell pipelines are inputs. */
module Desktop {
  import opened Base
  import opened ConfigFile

  /** The characters `exec_command_output` strips from the end of the output. */
  predicate IsTrailingSpace(c: char)
  {
    c == '\n' || c == '\r' || c == ' '
  }

  /** `s` without its trailing run of '\n', '\r' and ' '. */
  function TrimEnd(s: string): (r: string)
    ensures r <= s
    ensures r == [] || !IsTrailingSpace(r[|r| - 1])
    ensures forall i :: |r| <= i < |s| ==> IsTrailingSpace(s[i])
  {
    if s != [] && IsTrailingSpace(s[|s| - 1]) then TrimEnd(s[..|s| - 1]) else s
  }

  /** Trimming twice trims nothing more. */
  lemma TrimEndIdempotent(s: string)
    ensures TrimEnd(TrimEnd(s)) == TrimEnd(s)
  {
  }

  /** `exec_command_output`'s trimming loop: `pop_back` while the last
      character is a newline, a carriage return or a space. A failed
      `popen` gives the empty output, which the loop leaves empty. */
  method TrimTrailing(s: string) returns (r: string)
    ensures r == TrimEnd(s)
  {
    r := s;
    while r != [] && IsTrailingSpace(r[|r| - 1])
      invariant TrimEnd(r) == TrimEnd(s)
      decreases |r|
    {
      r := r[..|r| - 1];
    }
  }

  const LOCKED_HINT: string := "LockedHint=yes"

  /** `is_desktop_locked`: false when the session is unknown, otherwise
      whether the `loginctl show-session` output mentions `LockedHint=yes`. */
  function IsDesktopLocked(sessionValid: bool, output: string): (r: bool)
    ensures r ==> sessionValid
    ensures r <==> sessionValid && exists j :: 0 <= j <= |output| && LOCKED_HINT <= output[j..]
  {
    sessionValid && Contains(output, LOCKED_HINT)
  }

  /** The line `execute_command` hands to `system`, or `None` when the
      command is empty and nothing is launched. */
  function ShellLine(cmd: string, display: string, xauthority: string): (r: Option<string>)
    ensures r.None? <==> cmd == []
    ensures r.Some? ==> |r.value| >= |cmd| + 2 && r.value[|r.value| - |cmd| - 2..] == cmd + " &"
    ensures r.Some? && display == [] ==> r.value == cmd + " &"
    ensures r.Some? && display != [] && xauthority == [] ==> r.value == "DISPLAY=" + display + " " + cmd + " &"
    ensures r.Some? && display != [] && xauthority != [] ==>
      r.value == "DISPLAY=" + display + " " + "XAUTHORITY=" + xauthority + " " + cmd + " &"
  {
    if cmd == [] then None
    else if display == [] then Some(cmd + " &")
    else if xauthority == [] then Some("DISPLAY=" + display + " " + cmd + " &")
    else Some("DISPLAY=" + display + " " + "XAUTHORITY=" + xauthority + " " + cmd + " &")
  }

  /** `s` with every character passed through `std::tolower`. */
  function LowerString(s: string): (r: string)
    ensures |r| == |s| && forall i :: 0 <= i < |s| ==> r[i] == LowerChar(s[i])
  {
    seq(|s|, i requires 0 <= i < |s| => LowerChar(s[i]))
  }

  /** The in-place loop `for (auto& c : s) c = std::tolower(c)`. */
  method Lowered(s: string) returns (r: string)
    ensures r == LowerString(s)
  {
    r := s;
    var i := 0;
    while i < |r|
      invariant 0 <= i <= |r| == |s|
      invariant forall j :: 0 <= j < i ==> r[j] == LowerChar(s[j])
      invariant forall j :: i <= j < |r| ==> r[j] == s[j]
    {
      r := r[i := LowerChar(r[i])];
      i := i + 1;
    }
  }

  /** Lower-casing twice changes nothing more. */
  lemma LowerStringIdempotent(s: string)
    ensures LowerString(LowerString(s)) == LowerString(s)
  {
  }

  const GNOME: string := "gnome"
  const KDE: string := "kde"
  const COSMIC: string := "cosmic"
  const UNKNOWN: string := "unknown"

  /** The desktop a lower-cased name mentions, tried in the order gnome,
      kde, plasma (a KDE desktop), cosmic. */
  function ClassifyName(lowered: string): (r: Option<string>)
    ensures r.Some? ==> r.value in {GNOME, KDE, COSMIC}
    ensures r.None? <==> !Contains(lowered, "gnome") && !Contains(lowered, "kde")
                         && !Contains(lowered, "plasma") && !Contains(lowered, "cosmic")
    ensures Contains(lowered, "gnome") ==> r == Some(GNOME)
    ensures !Contains(lowered, "gnome") && (Contains(lowered, "kde") || Contains(lowered, "plasma")) ==> r == Some(KDE)
    ensures (!Contains(lowered, "gnome") && !Contains(lowered, "kde") && !Contains(lowered, "plasma")
             && Contains(lowered, "cosmic")) ==> r == Some(COSMIC)
  {
    if Contains(lowered, "gnome") then Some(GNOME)
    else if Contains(lowered, "kde") then Some(KDE)
    else if Contains(lowered, "plasma") then Some(KDE)
    else if Contains(lowered, "cosmic") then Some(COSMIC)
    else None
  }

  /** What `setup_desktop_commands` reads from the environment, and the raw
      output of the shell pipelines it runs. */
  datatype Environment = Environment(
    display: Option<string>,           // getenv("DISPLAY")
    xauthority: Option<string>,        // getenv("XAUTHORITY")
    home: Option<string>,              // getenv("HOME"), else the passwd entry's home
    activeDisplayOutput: string,       // output of the `w -h | grep tty` pipeline
    xdgCurrentDesktop: Option<string>, // getenv("XDG_CURRENT_DESKTOP")
    desktopSession: Option<string>,    // getenv("DESKTOP_SESSION")
    gnomeShellOutput: string,          // output of `pgrep -x gnome-shell && echo gnome`
    plasmaShellOutput: string,         // output of `pgrep -x plasmashell && echo kde`
    cosmicCompOutput: string)          // output of `pgrep -x cosmic-comp && echo cosmic`

  /** The classification of an environment variable, if it is set and names a known desktop. */
  function ClassifyVariable(v: Option<string>): Option<string>
  {
    if v.None? then None else ClassifyName(LowerString(v.value))
  }

  /** `detect_desktop_environment`: XDG_CURRENT_DESKTOP, then DESKTOP_SESSION,
      then the running compositor, else "unknown". */
  function DetectDesktop(env: Environment): (r: string)
    ensures r in {GNOME, KDE, COSMIC, UNKNOWN}
    ensures ClassifyVariable(env.xdgCurrentDesktop).Some? ==> r == ClassifyVariable(env.xdgCurrentDesktop).value
    ensures r == UNKNOWN <==>
      ClassifyVariable(env.xdgCurrentDesktop).None? && ClassifyVariable(env.desktopSession).None?
      && TrimEnd(env.gnomeShellOutput) == [] && TrimEnd(env.plasmaShellOutput) == []
      && TrimEnd(env.cosmicCompOutput) == []
    ensures ClassifyVariable(env.xdgCurrentDesktop).None? && ClassifyVariable(env.desktopSession).Some? ==>
      r == ClassifyVariable(env.desktopSession).value
    ensures ClassifyVariable(env.xdgCurrentDesktop).None? && ClassifyVariable(env.desktopSession).None? ==>
      && (TrimEnd(env.gnomeShellOutput) != [] ==> r == GNOME)
      && (TrimEnd(env.gnomeShellOutput) == [] && TrimEnd(env.plasmaShellOutput) != [] ==> r == KDE)
      && ((TrimEnd(env.gnomeShellOutput) == [] && TrimEnd(env.plasmaShellOutput) == []
           && TrimEnd(env.cosmicCompOutput) != []) ==> r == COSMIC)
  {
    if ClassifyVariable(env.xdgCurrentDesktop).Some? then ClassifyVariable(env.xdgCurrentDesktop).value
    else if ClassifyVariable(env.desktopSession).Some? then ClassifyVariable(env.desktopSession).value
    else if TrimEnd(env.gnomeShellOutput) != [] then GNOME
    else if TrimEnd(env.plasmaShellOutput) != [] then KDE
    else if TrimEnd(env.cosmicCompOutput) != [] then COSMIC
    else UNKNOWN
  }

  /** The variables are compared without regard to case. */
  lemma DetectDesktopIgnoresCase(env: Environment)
    requires env.xdgCurrentDesktop.Some? && env.desktopSession.Some?
    ensures DetectDesktop(env) == DetectDesktop(env.(xdgCurrentDesktop := Some(LowerString(env.xdgCurrentDesktop.value)),
                                                     desktopSession := Some(LowerString(env.desktopSession.value))))
  {
    LowerStringIdempotent(env.xdgCurrentDesktop.value);
    LowerStringIdempotent(env.desktopSession.value);
  }

  method DetectDesktopEnvironment(env: Environment) returns (r: string)
    ensures r == DetectDesktop(env)
  {
    if env.xdgCurrentDesktop.Some? {
      var desktop := Lowered(env.xdgCurrentDesktop.value);
      if Contains(desktop, "gnome") { return GNOME; }
      if Contains(desktop, "kde") { return KDE; }
      if Contains(desktop, "plasma") { return KDE; }
      if Contains(desktop, "cosmic") { return COSMIC; }
    }
    if env.desktopSession.Some? {
      var sess := Lowered(env.desktopSession.value);
      if Contains(sess, "gnome") { return GNOME; }
      if Contains(sess, "kde") { return KDE; }
      if Contains(sess, "plasma") { return KDE; }
      if Contains(sess, "cosmic") { return COSMIC; }
    }
    var gnomeCheck := TrimTrailing(env.gnomeShellOutput);
    if gnomeCheck != [] { return GNOME; }
    var kdeCheck := TrimTrailing(env.plasmaShellOutput);
    if kdeCheck != [] { return KDE; }
    var cosmicCheck := TrimTrailing(env.cosmicCompOutput);
    if cosmicCheck != [] { return COSMIC; }
    return UNKNOWN;
  }

  const KDE_PROX_CMD: string := "qdbus org.freedesktop.ScreenSaver /ScreenSaver org.freedesktop.ScreenSaver.SimulateUserActivity"

  /** The proximity command `setup_desktop_commands` picks for a desktop. */
  function DefaultProxCmd(desktop: string): (r: string)
    ensures r != []
    ensures desktop !in {KDE, COSMIC} ==> r == DEFAULT_PROX_CMD
    ensures desktop == KDE ==> r == KDE_PROX_CMD
    ensures desktop == COSMIC ==> r == DEFAULT_UNLOCK_CMD
  {
    if desktop == GNOME then DEFAULT_PROX_CMD
    else if desktop == KDE then KDE_PROX_CMD
    else if desktop == COSMIC then DEFAULT_UNLOCK_CMD
    else DEFAULT_PROX_CMD
  }

  /** The display `setup_desktop_commands` settles on when none is configured:
      DISPLAY if set, else the display of the first terminal session, else ":0". */
  function DetectedDisplay(env: Environment): (r: string)
    ensures env.display.Some? ==> r == env.display.value
    ensures env.display.None? ==> r != []
    ensures env.display.None? && TrimEnd(env.activeDisplayOutput) in {"", "-"} ==> r == ":0"
    ensures env.display.None? && TrimEnd(env.activeDisplayOutput) !in {"", "-"} ==> r == TrimEnd(env.activeDisplayOutput)
  {
    if env.display.Some? then env.display.value
    else
      var detected := TrimEnd(env.activeDisplayOutput);
      if detected == [] || detected == "-" then ":0" else detected
  }

  /** The X authority file when none is configured: XAUTHORITY if set, else
      `.Xauthority` in the home directory, else still none. */
  function DetectedXauthority(env: Environment): (r: string)
    ensures env.xauthority.Some? ==> r == env.xauthority.value
    ensures env.xauthority.None? && env.home.Some? ==> r == env.home.value + "/.Xauthority"
    ensures env.xauthority.None? && env.home.None? ==> r == []
  {
    if env.xauthority.Some? then env.xauthority.value
    else if env.home.Some? then env.home.value + "/.Xauthority"
    else []
  }

  /** The default-command table: each empty command gets the default for
      the desktop; a configured command is kept. */
  function FillCommands(c: GlobalConfig): (r: GlobalConfig)
    ensures c.lockCmd != [] ==> r.lockCmd == c.lockCmd
    ensures c.unlockCmd != [] ==> r.unlockCmd == c.unlockCmd
    ensures c.proxCmd != [] ==> r.proxCmd == c.proxCmd
    ensures c.lockCmd == [] ==> r.lockCmd == DEFAULT_LOCK_CMD
    ensures c.unlockCmd == [] ==> r.unlockCmd == DEFAULT_UNLOCK_CMD
    ensures c.proxCmd == [] ==> r.proxCmd == DefaultProxCmd(c.desktopEnvironment)
    ensures r.lockCmd != [] && r.unlockCmd != [] && r.proxCmd != []
  {
    if c.lockCmd == [] || c.unlockCmd == [] || c.proxCmd == [] then
      c.(lockCmd := if c.lockCmd == [] then DEFAULT_LOCK_CMD else c.lockCmd,
         unlockCmd := if c.unlockCmd == [] then DEFAULT_UNLOCK_CMD else c.unlockCmd,
         proxCmd := if c.proxCmd == [] then DefaultProxCmd(c.desktopEnvironment) else c.proxCmd)
    else c
  }

  /** `setup_desktop_commands`: the display, X authority file and desktop
      are looked up only when not configured, then the commands are filled. */
  function DesktopSetup(c: GlobalConfig, env: Environment): (r: GlobalConfig)
    ensures c.display != [] ==> r.display == c.display
    ensures c.xauthority != [] ==> r.xauthority == c.xauthority
    ensures c.desktopEnvironment != [] ==> r.desktopEnvironment == c.desktopEnvironment
    ensures c.desktopEnvironment == [] ==> r.desktopEnvironment in {GNOME, KDE, COSMIC, UNKNOWN}
    ensures c.display == [] && env.display.None? ==> r.display != []
    ensures c.display == [] ==> r.display == DetectedDisplay(env)
    ensures c.xauthority == [] ==> r.xauthority == DetectedXauthority(env)
    ensures c.desktopEnvironment == [] ==> r.desktopEnvironment == DetectDesktop(env)
  {
    FillCommands(c.(display := if c.display != [] then c.display else DetectedDisplay(env),
                    xauthority := if c.xauthority != [] then c.xauthority else DetectedXauthority(env),
                    desktopEnvironment := if c.desktopEnvironment != [] then c.desktopEnvironment
                                          else DetectDesktop(env)))
  }

  /** A configured command is never replaced, every command ends up set,
      lock and unlock always default to loginctl, and only the display,
      X authority, desktop and command fields change. */
  lemma DesktopSetupCommands(c: GlobalConfig, env: Environment)
    ensures var r := DesktopSetup(c, env);
      && (c.lockCmd != [] ==> r.lockCmd == c.lockCmd)
      && (c.unlockCmd != [] ==> r.unlockCmd == c.unlockCmd)
      && (c.proxCmd != [] ==> r.proxCmd == c.proxCmd)
      && r.lockCmd != [] && r.unlockCmd != [] && r.proxCmd != []
      && (c.lockCmd == [] ==> r.lockCmd == DEFAULT_LOCK_CMD)
      && (c.unlockCmd == [] ==> r.unlockCmd == DEFAULT_UNLOCK_CMD)
      && (c.proxCmd == [] ==> r.proxCmd == DefaultProxCmd(r.desktopEnvironment))
      && r.(display := c.display, xauthority := c.xauthority, desktopEnvironment := c.desktopEnvironment,
            lockCmd := c.lockCmd, unlockCmd := c.unlockCmd, proxCmd := c.proxCmd) == c
  {
  }

  /** Running the setup a second time changes nothing. */
  lemma DesktopSetupIdempotent(c: GlobalConfig, env: Environment)
    ensures DesktopSetup(DesktopSetup(c, env), env) == DesktopSetup(c, env)
  {
  }

  /** The display lookup of `setup_desktop_commands` for an unconfigured display. */
  method DetectDisplay(env: Environment) returns (display: string)
    ensures display == DetectedDisplay(env)
  {
    if env.display.Some? {
      display := env.display.value;
    } else {
      var detected := TrimTrailing(env.activeDisplayOutput);
      if detected == [] || detected == "-" {
        detected := ":0";
      }
      display := detected;
    }
  }

  /** The default-command step of `setup_desktop_commands`. */
  method DefaultCommands(config: GlobalConfig) returns (c: GlobalConfig)
    ensures c == FillCommands(config)
  {
    c := config;
    if c.lockCmd == [] || c.unlockCmd == [] || c.proxCmd == [] {
      var prox := DefaultProxCmd(c.desktopEnvironment);
      // Every desktop's branch fills lock and unlock with the loginctl commands.
      if c.lockCmd == [] { c := c.(lockCmd := DEFAULT_LOCK_CMD); }
      if c.unlockCmd == [] { c := c.(unlockCmd := DEFAULT_UNLOCK_CMD); }
      if c.proxCmd == [] { c := c.(proxCmd := prox); }
    }
  }

  /** `setup_desktop_commands`, updating the configuration it is given. */
  method SetupDesktopCommands(config: GlobalConfig, env: Environment) returns (c: GlobalConfig)
    ensures c == DesktopSetup(config, env)
  {
    c := config;
    if c.display == [] {
      var display := DetectDisplay(env);
      c := c.(display := display);
    }
    assert c.display == if config.display != [] then config.display else DetectedDisplay(env);
    if c.xauthority == [] {
      if env.xauthority.Some? {
        c := c.(xauthority := env.xauthority.value);
      } else if env.home.Some? {
        c := c.(xauthority := env.home.value + "/.Xauthority");
      }
    }
    assert c.xauthority == if config.xauthority != [] then config.xauthority else DetectedXauthority(env);
    if c.desktopEnvironment == [] {
      var desktop := DetectDesktopEnvironment(env);
      c := c.(desktopEnvironment := desktop);
    }
    assert c == config.(display := c.display, xauthority := c.xauthority, desktopEnvironment := c.desktopEnvironment);
    c := DefaultCommands(c);
  }
}
