# LDDM verification model

LDDM is a display manager daemon that runs a Wayland compositor (Weston) and a desktop (LDDE) as
supervised child processes. This project models the three parts of it in which mistakes are hardest to
see and proves what they keep:

- **Configuration.** The text-to-text migration of unversioned files is compared with the parser, which
  gives files their meaning. The two disagree on what a `[meta]` header is (the parser trims and lowers
  section names, the migrator compares them literally); the theorems say exactly when that matters.
- **Process supervision.** One `Process` per child, a registry, and a supervisor that stops, kills and
  reaps. The operating system is an oracle (`Os.dfy`): it may kill any child at any moment while time
  passes, refuse a spawn, lose an exit status, or answer a probe either way.
- **Sessions and recovery.** Component managers, the session state machine, ordered start with rollback,
  teardown, and the recovery manager with its sliding budget, policies, backoff and diagnostics.

Classes follow the C++ classes and their fields; every method is proved against a contract. Each run also
writes a ghost history (`Trace.dfy`): component state changes, process starts with their environment,
process ends, readiness probes with what they showed, exits reported, the supervisor closing and reopening,
components letting go of a supervisor that is replaced.
An event may enter the history only if a small monitor allows it, so every method that starts a process,
declares a component running or reports an exit owes a proof that it was its turn, and the run-wide
theorems are then read off the history itself, in terms that do not mention the monitor
(`DesktopNeedsCompositor`, `StartsInOrder`, `RunningIsProven`, `ReopenedBetween`). Spawning, probing and
signalling record themselves, with their moment, in the operating system's contract, so no caller can claim
one it did not do. It also counts refusals, so that a failure can be held to have a cause: a start or a question
refused, a process found lost or reporting failure, or one still not ready when its time was over. A look that
finds a process not ready yet is no refusal.
`Daemon.MainLoop.Run` ties the parts together: any sequence of session operations, recovery requests, reap
passes and pauses, with crashes in between, keeps every invariant.

The invariants of whole objects are closed until a proof asks for one by name (`Focus.dfy`); this keeps
each proof about one object and quick.

| file | content |
|---|---|
| `Text.dfy`, `ConfigParser.dfy`, `ConfigMigrator.dfy`, `MigrationTheorems.dfy` | text, parser, migrator, and how they relate |
| `ConfigMeaning.dfy` | what every line of a configuration sets, and whole configurations read back |
| `ArgumentLists.dfy` | which argument lists survive being written into a configuration |
| `Transitions.dfy`, `Probes.dfy`, `Trace.dfy`, `Os.dfy` | state tables, readiness probes, ghost history, operating system oracle |
| `Environment.dfy`, `Process.dfy`, `Registry.dfy`, `Supervisor.dfy` | environment vectors, children, supervision |
| `Readiness.dfy`, `Component.dfy` | readiness polling, the Weston and LDDE managers |
| `SessionState.dfy`, `Session.dfy` | session state machine, start, rollback, teardown |
| `RecoveryConfig.dfy`, `AttemptWindow.dfy`, `Diagnostics.dfy`, `Recovery.dfy` | backoff, budget, outcome records, recovery |
| `Runs.dfy`, `Daemon.dfy` | what each operation does from one moment to the next; the main loop and whole runs |

## Model

| member | source | states |
|---|---|---|
| Text.TrimIsCore | src/config/config_parser.cpp:11-18 | Trimming removes exactly a blank prefix and a blank suffix and leaves no blank at either end. |
| Text.LinesOfUnlines | src/config/config_migrator.cpp:114-135 | Reading back a text written line by line gives the same lines. |
| Text.GetLine | src/config/config_parser.cpp:90-92 | One getline call delivers the next line of the stream, and fails exactly at its end. |
| ConfigParser.ParseStringList | src/config/config_parser.cpp:50-78 | The quote-and-comma loop computes the list that the recursive reading of the value defines. |
| ArgumentLists.StringListRoundTrip | src/config/config_parser.cpp:50-78 | The loop by itself, given a value that still has all its quotes: a list written with every item in double quotes is read back unchanged if and only if no item contains a double quote and every item survives trimming and is not empty. |
| ArgumentLists.ArgumentsReadBack | src/config/config_parser.cpp:82-196 | A whole text, for every list and every base: a Weston section with `args =` and the items in double quotes gives the items back if and only if the list is empty or has one item that is not empty, stands on one line, has no blank ends and contains no quote, comma or space; with every item on one line the text parses in any case. The outer quotes of the whole value are gone before the loop runs. |
| ArgumentLists.TwoBecomeOne | src/config/config_parser.cpp:82-196 | Two such items written in quotes always come back as one, with a space between. |
| ArgumentLists.QuotedPairIsNotReadBack | src/config/config_parser.cpp:82-196 | A text with `args = "a" "b"` sets the one argument `a b`. |
| ConfigParser.ParseString | src/config/config_parser.cpp:82-196 | The line loop computes the meaning of the text over the base configuration, errors included. |
| ConfigMeaning.AssignSets | src/config/config_parser.cpp:125-193 | In its section, under any of its keys in any case, a line sets its setting to what its text means, and every other setting and variable stays; a log level that is none is an error. Sections, keys and the meaning of values are told setting by setting, apart from the parser. |
| ConfigMeaning.OtherKeysSetNothing | src/config/config_parser.cpp:125-193 | A key that is none of its section's, and any key of an unknown section, sets nothing. |
| ConfigMeaning.QuotedLine | src/config/config_parser.cpp:109-123 | A key and any one-line value in double quotes assign exactly that value. |
| ConfigMeaning.PlainLine | src/config/config_parser.cpp:109-123 | Without quotes too, when the value survives trimming and unquoting and the line does not look like a header. |
| ConfigMeaning.HeaderLine | src/config/config_parser.cpp:99-107 | A header in any case, with blanks around its name, opens its section. |
| ConfigMeaning.PaddedLine | src/config/config_parser.cpp:92-97 | Blanks around a line make no difference. |
| ConfigMeaning.BadLine | src/config/config_parser.cpp:109-116 | A line that is no comment, no header and has no '=' is a syntax error. |
| ConfigMeaning.LevelWords | src/logging/log_level.cpp:19-28 | A log level goes exactly by its name in capitals or in small letters, WARN also by WARNING. |
| ConfigMeaning.NumberReads | src/config/config_parser.cpp:40-48 | Digits, whatever follows them, are the number they write in decimal; 64 bits or more are none, and a minus sign wraps around. |
| ConfigMeaning.NumberSetting | src/config/config_parser.cpp:40-48 | A number keeps its lower 32 bits; one of 64 bits or more, or none at all, gives the fallback. |
| ConfigMeaning.TextMeans | src/config/config_parser.cpp:82-196 | A text of settings and variables, under any spellings of their headers and keys, parses over every base; each setting has the value its last entry gives it, and what is not written stays. |
| ConfigMeaning.ConfigurationReadBack | src/config/config_parser.cpp:82-196 | A text that writes every setting of a configuration and its variables parses, over every base, to that configuration: any one-line strings, 32-bit numbers, both booleans, every log level, arguments that need no quotes. |
| ConfigMigrator.DecidingLines | src/config/config_migrator.cpp:36-68 | Exactly which lines decide a version and which: a version comment with a number, or a key `version` before any section or in [meta] or [core], where no number counts as 0. |
| ConfigMigrator.MetaHeaders | src/config/config_migrator.cpp:117-127 | An exact [meta] header is that word in brackets with nothing but blanks around. |
| ConfigParser.EnvironmentKeysHaveNoEquals | src/config/config_parser.cpp:109-123 | No text can put an environment key containing '=' into the configuration. |
| ConfigMigrator.VersionIsFirstVerdict | src/config/config_migrator.cpp:25-71 | The version of a text is v if and only if v is what the first deciding line says, or 0 when no line decides. |
| ConfigMigrator.DetectVersion | src/config/config_migrator.cpp:25-71 | The detection loop, which tracks the section and stops early, computes that version. |
| ConfigMigrator.AppendUserLines | src/config/config_migrator.cpp:113-135 | The copy loop with its in-meta flag appends exactly the lines outside exact [meta] sections. |
| ConfigMigrator.MigrateContent | src/config/config_migrator.cpp:73-141 | Migration computes its specification for every text and target, including both schema errors. |
| MigrationTheorems.UpgradedLines | src/config/config_migrator.cpp:105-137 | The lines of a migrated text are the fixed header followed by the original lines outside exact [meta] sections, in order and verbatim. |
| MigrationTheorems.UpgradedVersion | src/config/config_migrator.cpp:25-71 | Every migrated text has version 1, whatever version lines the original still carries. |
| MigrationTheorems.OneVersionLine | src/config/config_migrator.cpp:100-135 | The promise "without duplicate version lines", exactly: a migrated text has no second deciding version line if and only if every line that decides in the original stands in an exact [meta] section. |
| MigrationTheorems.AVersionLineStays | src/config/config_migrator.cpp:100-135 | It fails for the text `version = 0`, whose migration has two. |
| MigrationTheorems.MigrationIsIdempotent | src/config/config_migrator.cpp:73-141 | Migrating a migrated text to the same target returns it byte for byte. |
| MigrationTheorems.MigrationDomain | src/config/config_migrator.cpp:79-98 | Migration succeeds if and only if nothing has to change or version 0 becomes version 1; every other case is a schema error. |
| MigrationTheorems.MigrationPreservesMeaning | src/config/config_migrator.cpp:100-141 | For every text and every base: if the dropped lines are well formed the migrated text parses to the identical result, failures included; if one is not, the original does not parse at all. |
| MigrationTheorems.MigrationKeepsSettings | src/config/config_migrator.cpp:100-102 | A version 0 text that parses keeps its configuration under migration, over every base. |
| MigrationTheorems.SomeFailureIsRepaired | src/config/config_migrator.cpp:113-133 | The previous equality cannot cover all failures: there is a text that fails to parse and whose migration parses. |
| Environment.SessionEnvironment.Merge | src/session/session_environment.cpp:56-60 | The loop overrides the session's variables with the given ones and keeps the rest. |
| Environment.InheritedMeans | src/session/session_environment.cpp:10-34 | A session begins with exactly PATH, TERM, LANG and SHELL, standard values where the system has none, and LC_ALL when it has one. |
| Environment.SessionDefaultsMean | src/session/session_environment.cpp:62-96 | What initialising makes of the inherited variables: exactly the inherited, default and configured keys; configured ones win; every other default has its value, told key by key: user, runtime directory, the XDG directories under HOME, display, session type, toolkit backends, desktop names; HOME is the inherited one unless that is missing or empty; an inherited variable that is neither default nor configured is kept; no key has an '=' if and only if no inherited and no configured one has. |
| Environment.ConfiguredKeysHaveNoEquals | src/session/session_config.cpp:37 | When the overrides come from a parsed configuration text, the session's keys have no '=' as long as the inherited ones have none. |
| Environment.SessionEnvironment.ToVector | src/session/session_environment.cpp:98-105 | The vector has one entry per variable, in whatever order iteration yields them. |
| Environment.EnvironmentRoundTrip | src/session/session_environment.cpp:98-105 | Splitting the vector at the first '=' gives the map back if and only if no key contains '='. |
| Environment.MergeEnvironment | src/process/process.cpp:133-149 | The child's vector renders the split base environment overridden by the specification. |
| Environment.ChildEnvironment | src/process/process.cpp:133-149 | Splitting the session's vector and overriding it yields exactly one entry per key, the specification's where it has one (used for every started child in `Sessions.Session.ChildrenGetTheSession`). |
| Trace.DependencyOrder | src/recovery/recovery_manager.cpp:302-397 | At every moment of every accepted history: LDDE starts only with Weston Running, Weston never starts under a live LDDE, and a live LDDE has Weston Running or Failed. |
| Trace.NoSpawnAfterShutdown | src/process/process_supervisor.cpp:50-61 | Between a shutdown and a later process start the supervisor was reopened. |
| Trace.EntriesFollowTheTable | src/weston/weston_types.cpp:24-56 | Every state a component enters is an edge of its table from the state entered before, or Created after a reset. |
| Trace.ExitsReportedOnce | src/process/process_supervisor.cpp:226-260 | In every accepted history an exit is reported at most once, and never after the process was ended on request, unless the supervisor was reopened in between. |
| Trace.EveryRunningIsProven | src/weston/weston_manager.cpp:300-327 | In every accepted history a component becomes Running only while a process of its kind is alive whose last probe, made after its start, said ready. |
| Trace.NoReturnToTheDead | src/weston/weston_manager.cpp:300-327 | A component that is Running on an ended process has been so since before it ended. |
| Trace.SettledIsDead | src/process/process_supervisor.cpp:114-148 | Only processes that have ended are reported or marked, and none of them is alive. |
| Trace.DeadForGood | src/process/process_supervisor.cpp:222-264 | A pid whose process has ended stays that of an ended process however the run goes on. |
| Processes.Process.Start | src/process/process.cpp:71-181 | A created process ends RUNNING with exactly one new child, spawned with the merged environment, or FAILED with nothing spawned; in any other state, running included, the call is refused with everything unchanged. |
| Processes.Process.Stop | src/process/process.cpp:183-229 | Stop ends EXITED with exit information from every state that had a child and leaves terminal states alone; a running child, and no other process, is sent SIGTERM at once, and SIGKILL, if at all, at least the grace period later; otherwise no signal is sent. |
| Processes.Process.Kill | src/process/process.cpp:231-288 | Kill ends every process and sends exactly one SIGKILL, to the pid of a running one, and no other signal. |
| Processes.Process.SignalKill | src/process/process.cpp:251-288 | After the polling wait and, if need be, the blocking wait the child is gone and its exit recorded once. |
| Processes.Process.Wait | src/process/process.cpp:290-317 | The first status obtained is the one reported ever after; without a child there is none. |
| Processes.Process.Poll | src/process/process.cpp:319-342 | A dead child is reaped and reported; a living one leaves the process as it was. |
| Registry.ProcessRegistry.RegisterProcess | src/process/process_registry.cpp:6-25 | A handle is registered at most once. |
| Registry.ProcessRegistry.FindByPid | src/process/process_registry.cpp:27-38 | Finds a registered process with that pid, and none exactly when there is none or the pid is 0. |
| Registry.ProcessRegistry.AllProcesses | src/process/process_registry.cpp:89-99 | Lists every registered process exactly once. |
| Supervisor.ProcessSupervisor.StartProcess | src/process/process_supervisor.cpp:50-90 | While shutting down nothing starts; otherwise a success is one new running, registered process under a new pid, given the base environment overridden by the specification, and a failure, which needs a refusal by the system, leaves the history as it was; each attempt is announced once. |
| Supervisor.ProcessSupervisor.StopProcess | src/process/process_supervisor.cpp:114-148 | The process ends, asked with SIGTERM and killed only after the grace period; the request and the end are announced, its pid is marked so that its exit is not reported later, and the history tells of nothing else. |
| Supervisor.ProcessSupervisor.StopByHandle | src/process/process_supervisor.cpp:103-112 | Afterwards no process of that handle lives; success exactly when the handle was registered, and then its process is terminated and marked; a living process was asked at once and killed, if at all, only after the given grace period, and otherwise no signal was sent. |
| Supervisor.ProcessSupervisor.StopByPid | src/process/process_supervisor.cpp:92-101 | Success exactly when a registered process has that positive pid; it is terminated and marked, having been asked with SIGTERM at once and killed, if at all, only after the given grace period. |
| Supervisor.ProcessSupervisor.KillProcess | src/process/process_supervisor.cpp:150-177 | Success exactly when a registered process has that positive pid; it is terminated and marked, and if it was running one SIGKILL, and no other signal, was sent. |
| Supervisor.ProcessSupervisor.StopAll | src/process/process_supervisor.cpp:179-213 | The supervisor refuses starts from then on, every formerly registered process is terminated, every running one after having been asked with the stop timeout as its grace period, none killed before that; the registry is empty and nothing is alive. |
| Supervisor.ProcessSupervisor.Reset | src/process/process_supervisor.cpp:215-220 | Registry and marks are empty and starts are accepted again. |
| Supervisor.ProcessSupervisor.ReapOne | src/process/process_supervisor.cpp:226-260 | A process that died is reported unless its pid was marked before, and is marked afterwards; the reports grow by exactly that one. |
| Probes.ClassifyFile | src/ldde/ldde_readiness.cpp:84-109 | One failure line anywhere outweighs every ready line; otherwise a ready line decides. |
| Probes.FileStatusByLines | src/ldde/ldde_readiness.cpp:84-109 | A status file is a failure if a line begins with STATUS=FAILED or STATUS=ERROR, and else ready if a line is STATUS=READY, blanks aside. |
| Transitions.WaysOfAComponent | src/weston/weston_types.cpp:24-56 | The component tables, told by what leads to each state: up in one order, Failed from everywhere but Stopped, Stopping from everywhere but Stopped and, for Weston, Failed. |
| Transitions.WaysOfASession | src/session/session_state.cpp:22-59 | The session table, told by what leads to each state. |
| Transitions.WaysOfARecovery | src/recovery/recovery_types.cpp:17-40 | The recovery table, told by what leads to each state. |
| Readiness.WaitForReadiness | src/ldde/ldde_readiness.cpp:139-202 | The history gains exactly the probes made, all of this pid and all of the kind its mode allows: the status file is read only in File mode and never for Weston. What the first decisive one showed is the answer; success needs a status file with a ready line and no failure line, or a connection taken; a timeout is answered only when none was decisive and the last was made at or after the deadline; at most ceil(timeout/interval)+1 probes. |
| Components.Component.TransitionTo | src/weston/weston_manager.cpp:83-104 | Exactly the edges of the component's table are taken; anything else changes nothing. |
| Components.Component.Initialize | src/weston/weston_manager.cpp:106-142 | The supervisor is taken and listened to; without an executable, which is the only cause of a failure, the component fails where its table allows it. |
| Components.Component.SetSupervisor | src/weston/weston_manager.cpp:72-81 | The supervisor is taken and gains one more listener for this manager, even if it had one. |
| Components.Component.Prepare | src/weston/weston_manager.cpp:144-247 | From Created or Preparing to Preparing or Failed; refused elsewhere without effect. |
| Components.Component.Start | src/weston/weston_manager.cpp:249-336 | From Created or Preparing to Running, with a living process of its kind that was given the supervisor's environment overridden by the component's own and whose last probe said ready, or to Failed with none alive; refused elsewhere without effect. With a supervisor that accepts starts it fails only on a refusal. Once it came to waiting, the first decisive of the probes made gives the answer, and a timeout is answered only when a probe made once the configured time was over was undecided too. A component in File mode becomes Running only on a status file with a ready line and no failure line, any other only on a connection taken. |
| Components.Component.WaitUntilReady | src/weston/weston_manager.cpp:338-362 | Succeeds at once when Running, fails at once when not even starting, both without a probe; in WaitingReady the answer is that of the first decisive of the probes made, and a timeout needs an undecided one made once the given time, or else the configured one, was over. |
| Components.Component.Stop | src/weston/weston_manager.cpp:364-398 | Ends Stopped from every state, from Failed too, with its process forgotten and none of its kind alive; a living process was asked to end at once and killed, if at all, only after the configured stop time. |
| Components.Component.OnProcessEvent | src/ldde/ldde_manager.cpp:380-403 | Only the exit of its own process fails a running component; a foreign pid changes nothing. |
| Components.Component.Reset | src/ldde/ldde_manager.cpp:412-421 | Created again from every state, with its process forgotten and none of its kind alive; a living process had one second to end by itself. |
| SessionStates.SessionStateMachine.TransitionTo | src/session/session_state.cpp:104-155 | Exactly the table edges are taken and recorded; the history stays a connected path of valid transitions ending in the current state. |
| SessionStates.RunningAfterStarting | src/session/session_state.cpp:22-59 | In any history without STOPPED or FAILED, RUNNING and RECOVERING come only after STARTING. |
| Sessions.Session.Attach | src/session/session.cpp:87-114 | A new component goes last; the compositor and desktop roles follow its kind. |
| Sessions.Session.Initialize | src/session/session.cpp:161-242 | READY with every component attached and in the state it had, an open supervisor with an empty registry that hands out the session's variables, defaults laid over the inherited ones, and calls the session first and then each manager once, and nothing alive; or FAILED, and that only if the system refused something; where the table forbids initialising, history and components stay as they are. |
| Sessions.Session.Prepare | src/session/session.cpp:244-257 | Initialises a CREATED session, accepts a READY one, refuses any other. |
| Sessions.Session.StartReady | src/session/session.cpp:276-331 | All or nothing, for any component list: on success all were started in attach order, each has a living process with the supervisor's environment overridden by its own, and the session is RUNNING; on failure at component k exactly the earlier ones were started in order and stopped in reverse order, later ones were left alone, nothing new is alive and the session is FAILED. |
| Sessions.Session.ChildrenGetTheSession | src/session/session.cpp:269-271 | After a successful start, when no session variable has '=' in its name, every child was given exactly the session's variables overridden by its component's own. |
| Sessions.Session.ChildrenGetTheDefaults | src/session/session.cpp:269-271 | So every child has an entry for each default variable, with its standard value unless the configuration or the component's own settings give another. |
| Sessions.Session.FurnishedKeys | src/session/session.cpp:179 | No variable of an initialised session has '=' in its name if and only if no inherited and no configured one has. |
| Sessions.Session.Start | src/session/session.cpp:259-331 | All or nothing from READY and, after initialisation, from CREATED, measured against the moment of the call; a failed initialisation starts and stops nothing; any other state is refused with history and components unchanged. With startable components, and in READY with an open supervisor they all have, it fails only if the system refused something. |
| Sessions.Session.RollBack | src/session/session.cpp:296-298 | The first k components are stopped in reverse order and no other is touched. |
| Sessions.Session.Stop | src/session/session.cpp:333-383 | READY, STARTING, RUNNING and RECOVERING end STOPPED, FAILED stays FAILED; exactly the running components were stopped, the last one first; none runs, nothing is alive, the registry is empty and the supervisor closed. |
| Sessions.Session.Fail | src/session/session.cpp:385-412 | FAILED wherever the table has that edge; exactly the running components were stopped, the last one first; none runs, nothing is alive, the registry is empty and the supervisor closed. |
| Sessions.Session.Cleanup | src/session/session.cpp:414-434 | Nothing is alive afterwards, with the same state changes as a stop. |
| Sessions.Session.NoChildAlive | src/process/process_supervisor.cpp:189-211 | When the history has nothing live, the operating system shows no living child. |
| RecoveryConfigs.BackoffBounds | src/recovery/recovery_config.cpp:44-54 | For every valid configuration with a positive initial delay, every delay lies between the initial and the maximal one. |
| RecoveryConfigs.BackoffNeverDecreases | src/recovery/recovery_config.cpp:44-54 | Later attempts never wait less. |
| RecoveryConfigs.BackoffReachesMaximum | src/recovery/recovery_config.cpp:44-54 | With a multiplier above 1 the maximum is reached after finitely many attempts and kept. |
| RecoveryConfigs.BackoffWithoutGrowth | src/recovery/recovery_config.cpp:44-54 | With multiplier 1 every attempt waits the initial delay. |
| RecoveryConfigs.ValidSettings | src/recovery/recovery_config.cpp:12-42 | Exactly which settings are valid. |
| RecoveryConfigs.FirstBackoff | src/recovery/recovery_config.cpp:44-54 | The first attempt waits the initial delay; without one nobody waits. |
| RecoveryConfigs.NextBackoff | src/recovery/recovery_config.cpp:44-54 | One attempt more waits the multiple of the last delay, within what cutting to whole milliseconds takes, until the largest delay is reached and kept. |
| RecoveryConfigs.NextBackoffExactly | src/recovery/recovery_config.cpp:44-54 | With a whole multiplier exactly that multiple, or the largest delay. |
| AttemptWindow.Purge | src/recovery/recovery_manager.cpp:49-59 | The in-place erase loop leaves exactly the stamps of the last window, in order. |
| AttemptWindow.RecentCounts | src/recovery/recovery_manager.cpp:49-59 | A stamp is kept, as often as it occurs, if and only if it is not older than the window. |
| AttemptWindow.RecentOfRecent | src/recovery/recovery_manager.cpp:49-59 | Purging at two moments is purging at the later one: nothing still needed is ever erased. |
| AttemptWindow.RateLimit | src/recovery/recovery_manager.cpp:519-554 | No interval up to the window's length contains request times of more than the allowed number of executed recoveries. |
| AttemptWindow.Advance | src/recovery/recovery_manager.cpp:49-59 | Purging keeps the stamps equal to the recent ones of the full request log. |
| AttemptWindow.BudgetKept | src/recovery/recovery_manager.cpp:533-541 | Counting one more request keeps the stamps equal to the recent requests and every executed one within the budget. |
| Diagnostics.RecoveryDiagnostics.Remember | src/recovery/recovery_diagnostics.cpp:119-125 | The bounded history is always the last fifty of all outcomes. |
| Diagnostics.RecoveryDiagnostics.RecordRecoverySuccess | src/recovery/recovery_diagnostics.cpp:100-126 | One success is added, whether or not its recovery was started; attempts equal outcomes less those recorded without a start; recovery ids never decrease; the last error stays that of the latest failure. |
| Diagnostics.RecoveryDiagnostics.RecordRecoveryFailure | src/recovery/recovery_diagnostics.cpp:128-156 | The same for a failure, whether or not its recovery was started; its error is the last one. |
| Recovery.TargetByReason | src/recovery/recovery_manager.cpp:504-516 | A target not named is the component the reason speaks of, and else the session. |
| Recovery.PolicyBySettings | src/recovery/recovery_manager.cpp:91-119 | The policy by the settings alone: a component restart for a component whenever allowed; a session restart for a session failure, or for a component when only that is allowed; the default policy for anything else; failure over budget. |
| Recovery.PermittedBySettings | src/recovery/recovery_manager.cpp:91-119 | Budget aside, exactly which requests may be acted upon, and which of them restart the session. |
| Recovery.RecoveryManager.Reset | src/recovery/recovery_manager.cpp:42-47 | Idle again, along an edge of the table, with an empty window. |
| Recovery.RecoveryManager.ValidatePreconditions | src/recovery/recovery_manager.cpp:61-89 | Success if and only if recovery is enabled, the settings are valid and the session has a supervisor. |
| Recovery.RecoveryManager.PurgeExpired | src/recovery/recovery_manager.cpp:49-59 | The kept stamps stay the recent ones of all requests ever counted, although older ones are erased for good. |
| Recovery.RecoveryManager.Admit | src/recovery/recovery_manager.cpp:533-541 | The attempt number is one more than the requests in the last window, refused ones included, and the request is marked executed exactly when permitted and within the budget. |
| Recovery.RecoveryManager.Verify | src/recovery/recovery_manager.cpp:202-231 | Success means that compositor and desktop, as far as attached, are running and that the compositor's socket has just taken a connection. |
| Recovery.RecoveryManager.RecoverLdde | src/recovery/recovery_manager.cpp:233-300 | Success means that LDDE, and nothing else, was stopped and became Running again on a living process given the supervisor's environment overridden by its own, or that both parts were, and that only if Weston was not running or the system refused something; the compositor's socket answered, Verifying was reached and the supervisor was not shut down. |
| Recovery.RecoveryManager.RecoverWeston | src/recovery/recovery_manager.cpp:302-397 | Success means exactly: LDDE stopped, Weston stopped, Weston Running again, LDDE Running again, in this order, each on a living process given its environment; the compositor's socket answered, Verifying was reached and the supervisor was not shut down. |
| Recovery.RecoveryManager.ExecuteSessionRestart | src/recovery/recovery_manager.cpp:399-467 | Success means: LDDE and Weston stopped, then every component Running in start order, both parts on living processes, the socket answering, and the session RUNNING; a failure from RECOVERING leaves FAILED or RUNNING. |
| Recovery.RecoveryManager.Execute | src/recovery/recovery_manager.cpp:469-490 | A component restart cannot succeed while the supervisor is shut down. |
| Recovery.RecoveryManager.Conclude | src/recovery/recovery_manager.cpp:579-611 | Exactly one outcome about this request is recorded, with its policy, attempt and error, diagnostics and manager agree on the state, and a failure leaves nothing running or alive. |
| Recovery.RecoveryManager.Recover | src/recovery/recovery_manager.cpp:492-611 | For every reason, target, policy and behaviour of the system: from RUNNING either success with the graphical session ready, the parts the policy names really restarted on living processes and the compositor's socket answering, or failure with the session FAILED and nothing alive; one outcome per call, about this request, and a start recorded exactly when the request was executed; refused over budget exactly when the window already holds the allowed number; every state written is an edge of the table; no component restart succeeds after a shutdown. An executed recovery of a running session with an open supervisor and both parts, and no other, attached fails only if the system refused something. From the settings alone: a success with component restarts allowed restarted LDDE alone, or with a Weston that was down both, for LDDE, and both for Weston; any other success was allowed to restart the session and did; a request is executed exactly when within budget and permitted, after its backoff, and otherwise refused as exhausted, or as not allowed under a default policy of none. |
| Recovery.RecoveryManager.Attempt | src/recovery/recovery_manager.cpp:562-611 | A recovery takes at least its backoff delay, ends in one outcome, and on success did what its policy says. |
| Sessions.Session.NotifyManager | src/weston/weston_manager.cpp:400-423 | A call to one manager fails exactly its component, if that was running on the exited pid; every other component stays as it is. |
| Sessions.Session.TellManagers | src/process/process_supervisor.cpp:35-47 | Calling the copied listeners one after the other, a manager registered several times several times, leaves the components as one call per manager does. |
| Sessions.ToldAgain | src/weston/weston_manager.cpp:400-423 | A second call to a manager about the same exit changes nothing. |
| Sessions.Session.ReadmitParts | src/recovery/recovery_manager.cpp:441-450 | A session restart registers the manager of each part twice more with the same supervisor; each has the supervisor afterwards. |
| Components.Component.StaysAway | src/weston/weston_manager.cpp:400-423 | No component ever becomes Running again on a process that has ended, however the run goes on. |
| Runs.ExitsByName | src/session/session.cpp:186-212 | An exit concerns Weston if the name of the process contains that of Weston, else LDDE if it contains that of LDDE, and else nobody. |
| Daemon.MainLoop.OnExit | src/session/session.cpp:185-213 | An exit while RUNNING asks recovery for the part the process name tells, once, and ends with the graphical session ready or with the session FAILED and nothing alive; any other exit asks for nothing. |
| Daemon.MainLoop.Deliver | src/process/process_supervisor.cpp:35-47 | An exit goes to those who listened when it was reported: once to the session's listener, then to the managers, each as often as it had registered and every attached one at least once, whatever recovery did in between; afterwards no component at all takes that pid for its running process. |
| Daemon.MainLoop.ReapPass | src/process/process_supervisor.cpp:222-264 | The pass as the program runs it, its listeners recovering and so replacing processes while the copied list is walked: unless the supervisor was reopened meanwhile, every process registered at the beginning that had died is reported or was ended on request, and, if the supervisor is open, no component is Running on one of them any more; every report was heard once, in order, by the session's listener, and after it by every manager that had the supervisor. When the session ran and recovery was free, the first exit that concerned a part decided what recovery was asked for first, and without one nothing was asked. |
| Daemon.MainLoop.Step | src/main.cpp:261-266 | Every operation does what it is for, told from one moment to the next: a reap pass accounts for the dead and starts recovery; initialising, preparing, starting, stopping, failing and cleaning up lead where they should with the components started, undone or stopped in order; a recovery request leaves one outcome by the settings; a reset and a pause change nothing else. |
| Daemon.MainLoop.Run | src/main.cpp:261-266 | After any operations in any order, with crashes in between: at every moment the start order held, components were declared Running only on proof, no exit was reported twice and nothing started after a shutdown without a reopening in between; every reported exit was heard by the session once, in order, and then by every manager that had the supervisor, and no component is Running on a process whose exit was reported; no process was killed before it had been asked to end and its grace period had passed; no window saw more executed recoveries than allowed. And every operation of the run did what it is for. |
| Runs.ReapsAreThorough | src/main.cpp:261-266 | In such a run a process that was registered and dead when a reap pass began is accounted for ever after: reported, or ended on request, unless the supervisor was reopened. |
| Runs.ExitsStartRecovery | src/session/session.cpp:185-213 | And the first exit of a pass that concerned a part started the recovery of that part, if the session ran and recovery was free. |
| Daemon.Boot | src/main.cpp:217-266 | The daemon's own sequence, from nothing: managers and recovery attached with the settings of each, the session initialised and started, then any run, which begins with every component up. All of the above holds of it, and it comes up unless the system refuses something. |
| Daemon.Live | src/main.cpp:217-286 | With the daemon's own loop for a run: in every round a pause and a reap pass, and in the end a stop, each with all that its operation promises. |

## Left out

Where the code and its documentation disagree, the model follows the code:

- docs/recovery.md gives backoff defaults of 500 and 10000 ms; the code has 50 and 1000.
- docs/process.md describes reaping by `waitpid(-1)`; the code polls each registered process.
- The migrator's comment promises a text "without duplicate version lines"; only exact `[meta]` sections are dropped, so version lines elsewhere stay (`MigrationTheorems.OneVersionLine`, `MigrationTheorems.AVersionLineStays`; the version is 1 all the same).
- src/config/config_migrator.cpp:120 calls `front()` on a possibly empty line; the model takes an empty line as not a header.
- A value like `"a" "b"` loses its outermost quotes before it is split into items, because the whole value is unquoted first (src/config/config_parser.cpp:118); the model keeps this (`ArgumentLists.ArgumentsReadBack`, `ArgumentLists.QuotedPairIsNotReadBack`).

Idealised:

- AttemptWindow.RateLimit: speaks about a non-decreasing clock, fixed settings and the requests since the last reset.
- RecoveryConfigs.BackoffBounds: delays are computed over exact reals, so rounding in `std::pow` is not modelled; attempt counts do not wrap.
- Supervisor.ProcessSupervisor.Reset: modelled only once nothing is alive, as its one caller leaves it (`stop_all` comes first).
- Supervisor.ProcessSupervisor.StartProcess: asked only in the start order of the two components, which every caller is proved to respect; the code itself does not look.
- Components.Component.TransitionTo: asked for Running only after a probe showed a living process ready, and for leaving Running or Failed as Weston only with no LDDE process alive, as every caller is proved to do; the code itself checks the table alone.
- Components.Component.Initialize: modelled while no process of the component is alive, as in both places that call it.
- Components.Component.Start: LDDE is started only with an attached Weston Running, which every caller in session and recovery is proved to respect; the code itself does not look.
- Components.Component.Stop: Weston is stopped and reset only with no LDDE process alive, which every caller in session and recovery is proved to respect.
- Sessions.Session.Attach: creating a manager and attaching it are one step, before the session is initialised, with Weston before LDDE, as src/main.cpp does.
- Sessions.Session.Initialize: initialising again after STOPPED or FAILED empties the old supervisor and its listeners, and makes the components let go of it, instead of replacing the object and destroying the old one.
- The managers: WestonManager and LddeManager are one class over two tables; further components behave like LDDE.
- Daemon.MainLoop.ReapPass: when a listener's recovery reopens the supervisor while the copied list is walked, the marks are gone and a process reported before can be reported again, so across a reopening no claim is made. Nor is one when the supervisor was closed: a cleanup of a FAILED session ends every process without telling the components (src/session/session.cpp:414-434).
- Recovery.RecoveryManager.Reset: modelled at rest only; in the middle of a recovery the code writes Idle, which is no edge of its table.
- Components.Component.Reset: as for Stop.
- The operating system: signals have no guaranteed effect; a child may die at any moment while time passes. Pids are not reused.
- Threads: nothing else happens during a readiness wait or a backoff delay; concurrent `stop` or `reset` by other threads is not modelled.

Not modelled:

- `fork`, `exec`, pipes, stream files, `/proc` and socket calls: their results are oracle answers.
- Directories, permissions, stale sockets, state files, generated `weston.ini`, executable lookup: at most a yes or no.
- Error texts, logging, timestamps and durations in records: error codes only.
- `std::stoul`: decimal digits after optional blanks and sign, without locale.
- `set_config` and `clear_history` of the recovery manager, and its convenience entry points that only call `recover`.
- A recovery manager without a session, SessionManager, LifecycleStateMachine, command line parsing.
- Wall clock jumps.
