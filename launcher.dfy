/**
 * The process launcher (`open_application`): the console-window heuristic on
 * the target path, the spawn request it produces, and the classification of
 * the spawn's outcome into the reports the launcher logs.
 */
module Launcher {
  import opened Wrappers
  import opened AsciiText

  /** Shell executables whose name anywhere in a path asks for a new console. */
  const CONSOLE_COMMANDS: seq<string> := ["cmd.exe", "pwsh.exe"]

  /** Script extensions that ask for a new console. */
  const CONSOLE_EXTENSIONS: seq<string> := [".bat", ".cmd", ".ps1"]

  /** Python's `any(cmd in s for cmd in commands)`. */
  predicate MentionsAny(s: string, commands: seq<string>) {
    exists k :: 0 <= k < |commands| && Contains(s, commands[k])
  }

  /** Python's `s.endswith(extensions)` with a tuple of suffixes. */
  predicate EndsWithAny(s: string, extensions: seq<string>) {
    exists k :: 0 <= k < |extensions| && EndsWith(s, extensions[k])
  }

  /**
   * The console heuristic: the decision is taken on the lower-cased path, which
   * must mention a shell executable or end with a console-script extension.
   */
  predicate NeedsConsole(appPath: string) {
    var lowered := ToLower(appPath);
    MentionsAny(lowered, CONSOLE_COMMANDS) || EndsWithAny(lowered, CONSOLE_EXTENSIONS)
  }

  /** The five tests of the heuristic, written out one by one. */
  lemma NeedsConsoleIff(appPath: string)
    ensures var lowered := ToLower(appPath);
      NeedsConsole(appPath) <==>
        Contains(lowered, "cmd.exe") || Contains(lowered, "pwsh.exe") ||
        EndsWith(lowered, ".bat") || EndsWith(lowered, ".cmd") || EndsWith(lowered, ".ps1")
  {
    var lowered := ToLower(appPath);
    if Contains(lowered, "cmd.exe") { assert Contains(lowered, CONSOLE_COMMANDS[0]); }
    if Contains(lowered, "pwsh.exe") { assert Contains(lowered, CONSOLE_COMMANDS[1]); }
    if EndsWith(lowered, ".bat") { assert EndsWith(lowered, CONSOLE_EXTENSIONS[0]); }
    if EndsWith(lowered, ".cmd") { assert EndsWith(lowered, CONSOLE_EXTENSIONS[1]); }
    if EndsWith(lowered, ".ps1") { assert EndsWith(lowered, CONSOLE_EXTENSIONS[2]); }
  }

  /** The decision ignores letter case: a path and its lower-cased form agree. */
  lemma NeedsConsoleIgnoresCase(appPath: string)
    ensures NeedsConsole(ToLower(appPath)) == NeedsConsole(appPath)
  {
    ToLowerIdempotent(appPath);
  }

  /**
   * A shell name counts wherever it stands in the path, in any letter case,
   * not only as the final component.
   */
  lemma CommandAnywhereNeedsConsole(before: string, command: string, after: string)
    requires ToLower(command) in CONSOLE_COMMANDS
    ensures NeedsConsole(before + command + after)
  {
    var k :| 0 <= k < |CONSOLE_COMMANDS| && CONSOLE_COMMANDS[k] == ToLower(command);
    ToLowerAppend(before + command, after);
    ToLowerAppend(before, command);
    var lowered := ToLower(before + command + after);
    assert lowered == ToLower(before) + ToLower(command) + ToLower(after);
    assert lowered[|before|..|before| + |command|] == ToLower(command);
    assert OccursAt(lowered, CONSOLE_COMMANDS[k], |before|);
    ContainsIffOccurs(lowered, CONSOLE_COMMANDS[k]);
  }

  /** A console-script extension in any letter case asks for a console. */
  lemma ExtensionNeedsConsole(stem: string, extension: string)
    requires ToLower(extension) in CONSOLE_EXTENSIONS
    ensures NeedsConsole(stem + extension)
  {
    var k :| 0 <= k < |CONSOLE_EXTENSIONS| && CONSOLE_EXTENSIONS[k] == ToLower(extension);
    ToLowerAppend(stem, extension);
    var lowered := ToLower(stem + extension);
    assert lowered == ToLower(stem) + ToLower(extension);
    assert EndsWith(lowered, CONSOLE_EXTENSIONS[k]);
  }

  /**
   * A lower-case path with neither a 'c' nor a 'w' in it mentions no shell, so it
   * asks for a console only through its extension.
   */
  lemma NoShellLettersNoConsole(appPath: string)
    requires IsLowered(appPath)
    requires 'c' !in appPath && 'w' !in appPath
    requires !EndsWithAny(appPath, CONSOLE_EXTENSIONS)
    ensures !NeedsConsole(appPath)
  {
    ToLowerOfLowered(appPath);
    if Contains(appPath, "cmd.exe") {
      ContainsOnlyCharsOf(appPath, "cmd.exe", 'c');
    }
    if Contains(appPath, "pwsh.exe") {
      ContainsOnlyCharsOf(appPath, "pwsh.exe", 'w');
    }
    NeedsConsoleIff(appPath);
  }

  /** The request handed to the operating system: the program and the console flag. */
  datatype LaunchRequest = LaunchRequest(argv: seq<string>, newConsole: bool)

  /** What the operating system's spawn call did with a request. */
  datatype SpawnOutcome =
    | Spawned
    | MissingTarget
    | AccessDenied
    | SpawnFailed(cause: string)

  /** What the launcher reports; none of these reaches its caller as an error. */
  datatype LaunchStatus =
    | Launched
    | NotFound
    | PermissionDenied
    | Failed(cause: string)

  /**
   * The operating system the launcher runs on. The new-console creation flag
   * exists only on Windows; elsewhere looking it up raises.
   */
  datatype Platform = Windows | Posix

  /** The cause reported when the new-console flag is looked up off Windows. */
  const NO_CONSOLE_FLAG: string := "module 'subprocess' has no attribute 'CREATE_NEW_CONSOLE'"

  /** The request handed to the operating system, if one was made, and the report. */
  datatype Launch = Launch(request: Option<LaunchRequest>, status: LaunchStatus)

  /**
   * The spawn call is reached unless the path asks for a console on a platform
   * without the new-console flag.
   */
  predicate ReachesSpawn(platform: Platform, appPath: string) {
    platform == Windows || !NeedsConsole(appPath)
  }

  /**
   * The spawn request for a path: the path itself, exactly as configured, is the
   * only argument; lower-casing only feeds the console decision.
   */
  function SpawnRequest(appPath: string): (r: LaunchRequest)
    ensures r.argv == [appPath]
    ensures r.newConsole <==> NeedsConsole(appPath)
  {
    LaunchRequest([appPath], NeedsConsole(appPath))
  }

  /** The three exception handlers of the launcher, and the success case. */
  function Classify(outcome: SpawnOutcome): LaunchStatus {
    match outcome
    case Spawned => Launched
    case MissingTarget => NotFound
    case AccessDenied => PermissionDenied
    case SpawnFailed(cause) => Failed(cause)
  }

  /** Distinct spawn outcomes are reported distinctly; a generic failure keeps its cause. */
  lemma ClassifyInjective(a: SpawnOutcome, b: SpawnOutcome)
    ensures Classify(a) == Classify(b) ==> a == b
    ensures a.SpawnFailed? ==> Classify(a) == Failed(a.cause)
  {
  }

  /** Only a successful spawn is reported as a launch. */
  lemma ClassifyLaunchedIff(outcome: SpawnOutcome)
    ensures Classify(outcome) == Launched <==> outcome == Spawned
  {
  }

  /**
   * `open_application`: decides the console flag, builds the request for the
   * path, hands it to the operating system (whose answer is `outcome`) and
   * reports what happened. Off Windows a flagged path fails generically before
   * any request is made.
   */
  function OpenApplication(platform: Platform, appPath: string, outcome: SpawnOutcome): (r: Launch)
    ensures r.request.Some? <==> ReachesSpawn(platform, appPath)
    ensures r.request.Some? ==> r.request.value.argv == [appPath]
    ensures r.request.Some? ==> (r.request.value.newConsole <==> NeedsConsole(appPath))
    ensures r.request.None? ==> r.status == Failed(NO_CONSOLE_FLAG)
    ensures r.request.Some? ==>
      && (r.status == Launched <==> outcome == Spawned)
      && (r.status == NotFound <==> outcome == MissingTarget)
      && (r.status == PermissionDenied <==> outcome == AccessDenied)
      && (r.status.Failed? <==> outcome.SpawnFailed?)
      && (outcome.SpawnFailed? ==> r.status.cause == outcome.cause)
  {
    if ReachesSpawn(platform, appPath) then
      Launch(Some(SpawnRequest(appPath)), Classify(outcome))
    else
      Launch(None, Failed(NO_CONSOLE_FLAG))
  }

  /** On Windows every path reaches the spawn call, with the heuristic's flag. */
  lemma WindowsAlwaysSpawns(appPath: string, outcome: SpawnOutcome)
    ensures OpenApplication(Windows, appPath, outcome) ==
      Launch(Some(LaunchRequest([appPath], NeedsConsole(appPath))), Classify(outcome))
  {
  }

  /**
   * Off Windows, a console script is never spawned, whatever the operating
   * system would have answered: the flag lookup fails first.
   */
  lemma PosixConsoleScriptExample(outcome: SpawnOutcome)
    ensures OpenApplication(Posix, "/opt/tools/deploy.cmd", outcome) == Launch(None, Failed(NO_CONSOLE_FLAG))
  {
    assert ToLower(".cmd") == ".cmd";
    ExtensionNeedsConsole("/opt/tools/deploy", ".cmd");
    assert "/opt/tools/deploy" + ".cmd" == "/opt/tools/deploy.cmd";
  }

  /** The shell named in capitals as the final component asks for a console. */
  lemma ShellPathExample()
    ensures NeedsConsole("C:\\Windows\\System32\\CMD.EXE")
  {
    assert ToLower("CMD.EXE") == "cmd.exe";
    CommandAnywhereNeedsConsole("C:\\Windows\\System32\\", "CMD.EXE", "");
    assert "C:\\Windows\\System32\\" + "CMD.EXE" + "" == "C:\\Windows\\System32\\CMD.EXE";
  }

  /** A directory merely named after the shell also asks for a console. */
  lemma ShellDirectoryExample()
    ensures NeedsConsole("D:\\cmd.exe.d\\viewer.exe")
  {
    var path := "D:\\cmd.exe.d\\viewer.exe";
    assert |path| == 23 && path[3] == 'c';
    assert path[3..10] == "cmd.exe";
    assert path[..3] + path[3..10] + path[10..] == path;
    assert ToLower("cmd.exe") == "cmd.exe";
    CommandAnywhereNeedsConsole(path[..3], path[3..10], path[10..]);
  }

  /** A batch file with an upper-case extension asks for a console. */
  lemma BatchFileExample()
    ensures NeedsConsole("C:\\jobs\\Backup.BAT")
  {
    assert ToLower(".BAT") == ".bat";
    ExtensionNeedsConsole("C:\\jobs\\Backup", ".BAT");
    assert "C:\\jobs\\Backup" + ".BAT" == "C:\\jobs\\Backup.BAT";
  }

  /** A terminal emulator that is not one of the named shells gets no new console. */
  lemma TerminalExample()
    ensures !NeedsConsole("/usr/bin/xterm")
  {
    NoShellLettersNoConsole("/usr/bin/xterm");
  }
}
