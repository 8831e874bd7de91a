# Hotkey launcher: a Dafny model of its decision logic

The program is a background utility. It binds global keyboard shortcuts to
launching programs and shows a tray icon with an Exit entry. Most of it is glue
around a global-hotkey library, process spawning and a tray-icon library. This
project models the deterministic decisions in `main.py` and proves properties
about them:

- **Console heuristic** (`Launcher`). A target path gets a new console window
  when its lower-cased form contains `cmd.exe` or `pwsh.exe` anywhere, or ends
  with `.bat`, `.cmd` or `.ps1`.
- **Spawn request and error reports** (`Launcher`). The spawn request carries
  the original, not lower-cased, path as its only argument, plus the console
  flag. The result of the OS spawn call is an input to the model. It is sorted
  into launched, not found, permission denied, or a generic failure that keeps
  its cause. No failure reaches the caller.
- **Platform** (`Launcher`). The new-console creation flag exists only on
  Windows. On another platform, a path the heuristic flags fails with a
  generic error when the flag is looked up, and no process is spawned.
- **Hotkey action table** (`Hotkeys`). This is a loop that binds each
  configured hotkey to its own path. An action is modelled as the path it
  launches. `Fire` is what happens when the listener reports a hotkey.
- **Resource path** (`Resources`). The bundle root, when one exists, is
  preferred over the script directory. `join` is supplied by the caller.
- **Listener and Exit guards** (`TrayApp.HotkeyApp`). This is a class over the
  module-level listener handle. A listener is registered only for a non-empty
  table. On Exit, `stop` is called on the listener only when a handle is set,
  and the tray is always stopped.
- **Text helpers** (`AsciiText`). ASCII lower-casing, substring search (Python's
  `in` on strings) and suffix tests (`str.endswith`).

Inputs that the program gets from the environment become parameters:

- the platform (Windows or not);
- the spawn outcome;
- whether the hotkey library accepted the table;
- the listener handle it returns;
- the bundle root and the script directory;
- the path-join function.

## Model

| member | source | states |
|---|---|---|
| AsciiText.ToLower | main.py:53-54 | the lower-cased path keeps its length and character order, maps each character through ASCII lower-casing, and contains no upper-case letter |
| AsciiText.ToLowerIdempotent | main.py:53-54 | lower-casing an already lower-cased path changes nothing |
| AsciiText.OccursContains | main.py:53 | every position where the command occurs is found by the substring test |
| AsciiText.ContainsOccurs | main.py:53 | when the substring test holds, it yields a position where the command really occurs |
| AsciiText.ContainsIffOccurs | main.py:53 | the substring test `cmd in path` holds exactly when the command occurs at some position of the path |
| AsciiText.EndsWithIffSplit | main.py:54 | `endswith` holds exactly when the path is some stem followed by the suffix |
| Launcher.NeedsConsoleIff | main.py:50-55 | the console flag is set exactly when the lower-cased path contains `cmd.exe` or `pwsh.exe`, or ends with `.bat`, `.cmd` or `.ps1`; otherwise no console is requested |
| Launcher.NeedsConsoleIgnoresCase | main.py:53-54 | a path and its lower-cased form yield the same console decision |
| Launcher.CommandAnywhereNeedsConsole | main.py:53 | a shell name in any letter case, anywhere in the path (not only as the last component), sets the console flag |
| Launcher.ExtensionNeedsConsole | main.py:51-54 | a path ending in a console-script extension, in any letter case, sets the console flag |
| Launcher.NoShellLettersNoConsole | main.py:50-55 | a lower-case path without a `c` or a `w` and without a console extension leaves the flag unset |
| Launcher.SpawnRequest | main.py:55-56 | the spawn request's only argument is the original path; its console flag is the heuristic's decision |
| Launcher.OpenApplication | main.py:47-63 | a request is made exactly when the platform has the new-console flag or the path is not flagged; it carries the original path and the heuristic's flag; when no request is made, a generic error reports the missing flag; otherwise a missing target is reported as not found, a privilege failure as permission denied, any other failure as a generic error carrying its cause, and only a successful spawn as launched |
| Launcher.WindowsAlwaysSpawns | main.py:50-56 | on Windows every path reaches the spawn call, with its original path and the heuristic's console flag |
| Launcher.PosixConsoleScriptExample | main.py:55-63 | off Windows, `/opt/tools/deploy.cmd` spawns nothing and is reported as a generic error, whatever the operating system would have answered |
| Launcher.ClassifyInjective | main.py:58-63 | distinct spawn outcomes give distinct reports, and a generic failure keeps its cause |
| Launcher.ClassifyLaunchedIff | main.py:56-63 | the report is "launched" exactly when the spawn succeeded |
| Launcher.ShellPathExample | main.py:53 | `C:\Windows\System32\CMD.EXE` asks for a console |
| Launcher.ShellDirectoryExample | main.py:53 | `D:\cmd.exe.d\viewer.exe`, where the shell name is only a directory, asks for a console |
| Launcher.BatchFileExample | main.py:51-54 | `C:\jobs\Backup.BAT` asks for a console |
| Launcher.TerminalExample | main.py:50-55 | `/usr/bin/xterm` does not ask for a console |
| Hotkeys.CreateHotkeyActions | main.py:65-73 | the table has exactly the configuration's hotkeys, each bound to its own configured path; it is empty exactly when the configuration is empty |
| Hotkeys.Fire | main.py:72 | a registered hotkey runs its action, and any request that action makes launches the path it was bound to; an unregistered hotkey does nothing |
| Hotkeys.FireLaunchesConfiguredPath | main.py:71-72 | in a table built from the configuration, firing a hotkey opens that hotkey's own configured path, because each action captures its own path and nothing is bound late |
| Hotkeys.FireLaunchesOnlyItsOwnCommand | main.py:71-72 | two hotkeys with different paths never make the same request |
| Hotkeys.TerminalBindingExample | main.py:71-72 | with `ctrl+alt+t` bound to `/usr/bin/xterm`, firing it spawns exactly `/usr/bin/xterm` without a console on either platform, and another chord spawns nothing |
| Resources.ResourcePath | main.py:10-19 | the resource is joined onto the bundle root when the runtime provides one, otherwise onto the script directory |
| Resources.ResourcePathBase | main.py:12-19 | in a bundled run the script directory does not matter; a script run behaves like a bundle rooted at the script directory |
| Resources.IconPath | main.py:42-43 | the icon is `icon.png` resolved through the resource path |
| TrayApp.HotkeyApp.constructor | main.py:45 | at start no listener handle is set and nothing is registered |
| TrayApp.HotkeyApp.RunPynputListener | main.py:75-93 | an empty table returns without registering anything; a table the library rejects leaves the state unchanged (nothing is registered at start); otherwise the handle is set and exactly the configured bindings are registered; the invariant that a listener exists only for a non-empty table is kept |
| TrayApp.HotkeyApp.OnExitClicked | main.py:95-103 | `stop` is called on the listener exactly when a handle is set, the tray is stopped on every call, and the handle and bindings are unchanged |
| TrayApp.EmptyConfigurationScenario | main.py:79-83 | with an empty configuration nothing is registered, and clicking Exit twice never stops a listener but stops the tray each time |
| TrayApp.RejectedRegistrationScenario | main.py:85-90 | when registration is rejected, no handle is set and Exit stops only the tray |
| TrayApp.ConfiguredScenario | main.py:85-103 | a registered, non-empty configuration holds exactly its bindings, and Exit stops the listener once and the tray once |

## Left out

- Hotkey registration and the blocking wait, `GlobalHotKeys`, `join()` and the library's `stop()`, are foreign library calls. Whether registration is accepted, and the handle returned, are inputs. `stop` is modelled as ending the wait.
- Any error raised by the listener's `stop` is caught and logged by the source. The model treats `stop` as always succeeding.
- Process creation (`subprocess.Popen`) is left out. The Windows `CREATE_NEW_CONSOLE` constant becomes a boolean flag on the request. Its absence on other platforms is the `Platform` parameter. The spawn's result is an input.
- Image loading and building and running the tray icon are library calls and file I/O. The no-icon fallback is a branch on a library result.
- Threads are left out: the daemon listener thread, the `is_alive` tests, the defensive second `stop` after the tray loop ends, and the one-second bounded join (main.py:115-116, 145-151). Their subject is concurrency and timing.
- Loading `config` is left out, including the fallback to an empty map on `ImportError` or `AttributeError`. It is Python import machinery. The configuration is simply an input map, which may be empty.
- Log messages and their text are left out. Reports are datatype constructors.
- AsciiText.ToLower: lower-cases ASCII letters only. Python's `str.lower()` also lower-cases non-ASCII letters, so the lowered string can differ on such paths. Only two non-ASCII characters lower-case to ASCII letters: U+0130 gives `i` followed by U+0307, and U+212A gives `k`. Neither `i` nor `k` appears in `cmd.exe`, `pwsh.exe`, `.bat`, `.cmd` or `.ps1`, so the console decision is the same as with `str.lower()`. This argument is not proved in the model.
- Resources.ResourcePath: `os.path.join` and `abspath`/`dirname` are abstract. The join is a parameter, and the script directory is an input.
- Exit calls the tray's `stop` on every click (main.py:103), and `OnExitClicked` does the same. Whether a second `stop` has any effect is up to the tray library and is not modelled.
