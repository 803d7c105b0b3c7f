# Geany WakaTime heartbeat decision, in Dafny

This project models the heartbeat logic of the WakaTime plugin for the Geany
editor. The editor tells the plugin when a document is opened, saved or
activated. The plugin decides whether to report a heartbeat for that file
and, if so, launches the external `wakatime-cli` tool with a fixed command
line.

The send-heartbeat routine is modelled as a pure step function
`Heartbeat.Step`. Its input is the process-wide throttle state, an event and
an environment record. The state is the last reported file, absent at
start-up, and the time of the last heartbeat, starting at 0. The event is an
optional file path, a write flag and the clock reading. Its output is the new
state, the command line handed to the launcher (if a launch was attempted),
and a status saying why the step ended where it did.

The rules of one step, in order:

1. An event without a file is ignored.
2. A view of the last reported file, less than 120 seconds after the last
   heartbeat, is dropped. Saves are never dropped.
3. The tool is `~/.wakatime/wakatime-cli` when that file is executable.
   Otherwise it is whatever a PATH search for `wakatime` finds. If neither
   exists, the step stops.
4. `~/.wakatime.cfg` must exist. Its contents are not read.
5. The command line is `[tool, "--entity", file]`, followed by `"--write"`
   for a save.
6. The state records `(file, now)` only if the launch succeeded. A failed
   launch leaves the state exactly as it was.

Modules:

- `Wrappers`: the `Option` type, standing for possibly-NULL strings.
- `Paths`: joining a directory and a file name with one separator.
- `Cli`: the `Host` record (home directory, executable paths, existing
  paths, PATH search result), tool resolution and the configuration test.
- `Heartbeat`: the state, event, environment and outcome types, the throttle
  test, the command-line builder and `Step`.
- `Plugin`: the three document handlers, the heartbeat sent at start-up, and
  cleanup.
- `Trace`: sequences of events as the editor delivers them, one at a time on
  its event thread. This module proves properties of whole runs.

The environment is a parameter of every step. It holds the filesystem
tests, the PATH search, the home directory and whether the launch succeeds.
The clock reading is part of the event.

`src/main.c` passes no `--plugin` or `--project` argument, never looks
for a version-control root, and never downloads the tool.

The recorded heartbeat time is not monotone. It never decreases while the
clock does not go back (`Trace.HeartbeatTimeMonotone`). When the clock does
go back, a launched heartbeat records the earlier time
(`Trace.ClockSetBackLowersHeartbeatTime`). After the clock is set back,
views of the last file stay throttled until the clock reaches the old
reading plus 120 seconds
(`Trace.ClockSetBackExtendsThrottle`).

## Model

| member | source | states |
|---|---|---|
| Paths.Join | src/main.c:23-24 | the joined path is the directory without trailing separators, one separator, then the name; an empty directory contributes nothing |
| Cli.HomeCliPathShape | src/main.c:22-24 | the preferred tool path is the home directory without trailing separators followed by `/.wakatime/wakatime-cli`, or `.wakatime/wakatime-cli` for an empty home |
| Cli.ConfigPathShape | src/main.c:37-38 | the configuration path is the home directory without trailing separators followed by `/.wakatime.cfg`, or the bare name for an empty home |
| Cli.ResolveIsFirstCandidate | src/main.c:20-33 | resolution equals a priority-ordered search returning the first present of two candidates: the home-directory tool when executable, then the PATH result |
| Cli.ResolveCliPath | src/main.c:20-33 | the home-directory tool wins when it is executable; otherwise the PATH search result is used; no tool is found exactly when neither is available |
| Heartbeat.ThrottleIsPolicyNegation | src/main.c:50-53 | the plugin's drop test is the exact negation of the policy "a save, a first report, a different file, or at least 120 s elapsed" |
| Heartbeat.BuildArgv | src/main.c:67-76 | the command line is tool, `--entity`, file, with `--write` as a fourth element exactly for a save |
| Heartbeat.BuildArgvInjective | src/main.c:67-76 | different tool, file or event kind always gives a different command line |
| Heartbeat.Step | src/main.c:44-96 | no file means no effect; throttled exactly when the policy fails; a command line is handed to the launcher exactly when the throttle passes, a tool resolves and the configuration exists, and it has the fixed shape; the spawn fails exactly when a command line was handed over and launching does not succeed; a launch succeeds exactly when all gates pass and the spawn succeeds; the state becomes `(file, now)` on success and is unchanged otherwise |
| Heartbeat.RepeatedViewIsDropped | src/main.c:50-53 | a view of the last file less than 120 s after the last heartbeat launches nothing and leaves the state unchanged |
| Heartbeat.WriteIsNeverThrottled | src/main.c:50-51 | a save passes the throttle whatever the file and elapsed time |
| Heartbeat.ViewPassesThrottle | src/main.c:50-51 | a view passes the throttle when there is no last file, the file differs, or at least 120 s have elapsed |
| Heartbeat.GatesLaunchNothing | src/main.c:55-65 | without a resolvable tool or without the configuration file nothing is launched, the state is unchanged, and the status names the missing piece |
| Heartbeat.UnsentStepIsInvisible | src/main.c:83-90 | after any step that did not launch, the next event is decided exactly as if that step never happened |
| Heartbeat.SentThenRepeatIsDropped | src/main.c:50-90 | after a launched heartbeat, a view of the same file less than 120 s later is throttled |
| Plugin.Notify | src/main.c:98-117 | a handler with a missing document or an unnamed document has no effect, and otherwise performs exactly one step for the document's file |
| Plugin.OnDocumentOpen | src/main.c:98-103 | opening a document is a view event for its file |
| Plugin.OnDocumentSave | src/main.c:105-110 | saving a document is a write event for its file |
| Plugin.OnDocumentActivate | src/main.c:112-117 | activating a document is a view event for its file |
| Plugin.OnInit | src/main.c:133-136 | at start-up the current document, if it has a file, is reported as a view |
| Plugin.CleanupReopensThrottle | src/main.c:152-153 | cleanup keeps the last heartbeat time, and after it any event on any file passes the throttle |
| Plugin.SaveAfterOpenIsReported | src/main.c:98-110 | with the tool and configuration in place and the launch succeeding, a save straight after opening the same document is launched |
| Trace.Launches | src/main.c:79-90 | a run launches at most one heartbeat per event |
| Trace.LaunchesAreHeartbeatCommands | src/main.c:67-81 | every command line launched in a run has the heartbeat shape and names the file of one of the run's events |
| Trace.RunEvents | src/main.c:44-96 | handling events one at a time gives the final state and the launched command lines of the recursive run definitions |
| Trace.RepeatViewsAreSilent | src/main.c:50-53 | once a file is the last reported one, any run of views of it within 120 s of the last heartbeat launches nothing and changes nothing, whatever the environment |
| Trace.HeartbeatTimeMonotone | src/main.c:83-90 | while event times do not go backwards, each event of a run leaves the recorded heartbeat time at least where the previous event left it, so it never decreases over the run |
| Trace.ClockSetBackLowersHeartbeatTime | src/main.c:86-87 | for every state and event, a launched heartbeat whose clock reading is below the last heartbeat time records that lower reading |
| Trace.ClockSetBackExtendsThrottle | src/main.c:50-51 | for every state whose last heartbeat lies after the current reading, views of the last file are dropped for every reading from the current one up to the old heartbeat time plus 120 s, a span longer than 120 s |
| Trace.ReferenceScenario | src/main.c:50-90 | views at 0, 60 and 130 s and a save at 131 s: after the 60 s view one command line has been launched and the state is still (file, 0), so that view was dropped; after the 130 s view two have been launched and the state is (file, 130); the save adds the `--write` command line and ends in (file, 131) |

## Left out

- Plugin registration, the plugin ABI, signal connection and disconnection, and the plugin data record (src/main.c:119-131, 141-150, 156-166). These are host glue with no behaviour to state.
- The real process launch (`g_spawn_async`, output redirected to /dev/null, a detached child). It is modelled as one boolean outcome in `Env`.
- The real filesystem tests, the PATH search, the home-directory lookup and `time(NULL)`. They are inputs: `Cli.Host` and `Event.now`.
- Warning messages (`g_warning`). In `Heartbeat.Status`, `CliNotFound`, `NoApiKey` and `SpawnFailed` name the warning the plugin logs (src/main.c lines 57, 62 and 84); the other statuses log nothing.
- GLib memory management (`g_free`, `g_strdup`, freeing the pointer array) and the NULL terminator of the argument vector.
- Paths.Join: models `g_build_filename` only for a single name without leading separators, which is all the plugin uses. The one difference from GLib is a home directory made only of two or more separators: GLib keeps them (`"//"` gives `"//.wakatime"`), while `Join` reduces them to one (`"/.wakatime"`).
- `time_t` is modelled as an unbounded integer. The 64-bit subtraction `now - last_heartbeat` cannot overflow for real clock readings. A `time(NULL)` failure (returning -1) is treated as an ordinary reading.
- Trace.Launches: its contract states only the bound on the number of launches. The shape and origin of each launched command line are proved separately in `Trace.LaunchesAreHeartbeatCommands`.
- Downloading the tool automatically, resolving a project from a version-control root, and the `--plugin`/`--project` arguments. `src/main.c` does none of them.
