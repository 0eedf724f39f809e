# Aspera HSTS installer — a Dafny model of the installation pipeline

The installer is a desktop tool that installs the Aspera High-Speed Transfer
Server on a remote Linux machine over SSH and then deploys a license to it.
This project models its core, all in `main.py`:

- the installer table `INSTALLER_IDS`;
- the OS classifier `detect_os`;
- the lookup and path part of `baixar_instalador`;
- the command dispatch of `install_package`;
- the license selection `buscar_licenca`;
- the three license-deployer commands;
- the orchestrator `main_process`: its ten steps, the step counter, the early
  returns, the progress values and the start button.

Everything that reaches the outside world becomes an input, collected in
`Pipeline.Environment`:

- the SSH connection outcome;
- the text of `/etc/os-release`;
- whether the download, the file check and each upload succeeded;
- the local license directory's listing;
- the random pick among license files.

A whole run is the pure function `Pipeline.Execute(env, handling)`.

Modules:

- `Options`: the `Option` type.
- `Text`: the Python string and path helpers the code relies on:
  - `str.lower`;
  - `in` on strings;
  - `endswith`;
  - `os.path.join`;
  - `os.path.basename`.
- `Classifier`: `detect_os`.
- `Artifacts`: `INSTALLER_IDS` and `baixar_instalador`.
- `Installer`: `install_package`.
- `Deployer`: `garantir_diretorio_licenca`, `mover_licenca_para_diretorio_final` and `aplicar_licenca`.
- `Licenses`: `buscar_licenca`.
- `Pipeline`: `main_process` as a state machine over a `Run` record.
- `PipelineProperties`: states what a run does against a separate reference description of the environment:
  - `FirstFailure` is the first fail-fast step whose outcome is a failure;
  - `CommandsUpTo` and `TransfersUpTo` give the commands and uploads of the first `k` steps.

  It proves that every run follows that description.

Two consequences of the code are worth stating on their own:

- A host classified as generic Linux has an empty installer identifier, so
  the run stops at step 3. The archive-extraction branch of
  `install_package` is therefore never reached from `main_process`
  (`PipelineProperties.GenericHostStopsAtDownload`).
- `ssh.close()` is called only when the run completes. Every early return
  leaves the session open (`PipelineProperties.RunEnds`).

## Model

| member | source | states |
|---|---|---|
| `Classifier.Classify` | main.py:103-115 | the classifier never yields `aix`, and a failure to read `/etc/os-release` gives the generic tag |
| `Classifier.ClassifyMatchesCaseInsensitiveRule` | main.py:106-112 | on every input the classifier equals the rule "a Debian keyword in any letter case gives debian, else a Red Hat keyword gives rhel, else generic" |
| `Classifier.DebianKeywordTakesPriority` | main.py:107-108 | text mentioning `debian` or `ubuntu` in any case is Debian, even if it also mentions `rhel` or `centos` |
| `Classifier.RhelOrFallback` | main.py:109-112 | without a Debian keyword, the result is rhel exactly when `rhel` or `centos` occurs, and generic exactly when neither does |
| `Classifier.ClassifyIgnoresCase` | main.py:106 | lower-casing the text first does not change the tag |
| `Text.LowerIsIdempotent` | main.py:106 | lowering is idempotent and leaves no upper-case ASCII letter |
| `Text.ContainsIffOccurs` | main.py:107-110 | the substring search succeeds exactly when the needle occurs at some index |
| `Text.ContainsLowerIffMentions` | main.py:106-110 | searching the lowered text for a lower-case keyword succeeds exactly when the keyword appears in the text ignoring case |
| `Text.JoinShape` | main.py:129 | a joined path ends with the name; a relative name keeps the directory in front, with a `/` just before the name |
| `Text.BasenameShape` | main.py:277 | the basename is a slash-free suffix that is the whole path or follows a `/` |
| `Text.BasenameUnique` | main.py:277 | any slash-free suffix that is the whole path or follows a `/` is the basename |
| `Text.BasenameOfJoin` | main.py:158 | the basename of `join(dir, name)` is `name` for a slash-free name |
| `Artifacts.InstallerTableByTag` | main.py:12-17 | the table holds exactly one entry per platform tag, under the tag's name; only the generic tag's entry has an empty identifier and file name |
| `Artifacts.Lookup` | main.py:153 | `INSTALLER_IDS.get(os_type, ("", ""))`: a function without its own contract; `Artifacts.InstallerTableByTag` states that it gives each tag its table entry, and `Artifacts.ResolveSupportsExactly` that every other name gets the empty default |
| `Artifacts.Resolve` | main.py:152-156 | a found installer has a non-empty identifier and file name, is the table's entry for the tag, and its file name holds no `/` |
| `Artifacts.ResolveSupportsExactly` | main.py:13-18 | an installer is found exactly for `debian`, `rhel` and `aix`; it is missing exactly when the tag is not in the table or its identifier is empty |
| `Artifacts.ResolveByTag` | main.py:13-18 | Debian gets a `.deb`, Red Hat an `.rpm`, AIX a `.sh`, and the generic tag nothing |
| `Artifacts.Download` | main.py:152-168 | the download yields a path exactly when the tag has an installer and the fetch succeeds, and that path is `/tmp/` plus the file name |
| `Artifacts.DownloadByTag` | main.py:152-168 | for a platform tag, a path comes back exactly when the tag is not generic and the fetch succeeds |
| `Artifacts.RemoteTempPath` | main.py:298 | the remote path of an upload (the license here, the installer at line 277): a function without its own contract, stated by `Artifacts.RemoteTempPathKeepsName` |
| `Artifacts.RemoteTempPathKeepsName` | main.py:277 | the remote path is `os.path.join("/tmp", basename(local))`, starts with `/tmp/` and keeps the local file's name as its basename |
| `Artifacts.RemoteInstallerPathIsLocalPath` | main.py:277 | the remote installer path `/tmp/<basename>` is the local download path itself |
| `Installer.InstallCommandShape` | main.py:170-179 | every install command starts with `sudo ` and contains the installer path |
| `Installer.CommandRevealsBranch` | main.py:172-179 | the command starts with the dpkg, rpm, chmod or tar prefix exactly for `debian`, `rhel`, `aix` and every other tag respectively |
| `Installer.InstalledPathInvertsInstallCommand` | main.py:172-179 | the installer path can be read back from the command for every tag |
| `Installer.InstallCommand` | main.py:172-179 | the command per tag (dpkg, rpm, chmod then sh, otherwise tar into `/opt/`): a function without its own contract, stated by `Installer.InstallCommandShape`, `Installer.CommandRevealsBranch` and `Installer.InstalledPathInvertsInstallCommand` |
| `Deployer.MoveLicenseCommandShape` | main.py:207 | the move runs with `sudo`, names the uploaded license and ends at `/opt/aspera/etc/aspera-license` |
| `Deployer.MovedFromInvertsMove` | main.py:207 | the moved file can be read back from the move command |
| `Deployer.FixedCommandsShape` | main.py:198-220 | the directory and activation commands are not moves; the first uses `sudo` and the activation does not |
| `Deployer.MoveLicenseCommand` | main.py:207 | the move onto the final license name: a function without its own contract, stated by `Deployer.MoveLicenseCommandShape` and `Deployer.MovedFromInvertsMove` |
| `Licenses.Candidates` | main.py:119 | a name is a candidate exactly when it is listed and ends with `.aspera-license` |
| `Licenses.SelectLicenseSpec` | main.py:117-132 | there is no license exactly when the listing fails or holds no license file; otherwise the result is the directory joined with a listed license file |
| `Licenses.EveryCandidateSelectable` | main.py:129 | every listed license file is the pick for some random choice |
| `Licenses.SelectedLicenseBasename` | main.py:129 | with plain file names, the picked path's basename is a listed license file |
| `Licenses.SelectLicense` | main.py:117-132 | `buscar_licenca`: a function without its own contract, stated by `Licenses.SelectLicenseSpec` and `Licenses.EveryCandidateSelectable` |
| `Pipeline.Number` | main.py:227-238 | steps are numbered 1 to 10 in the order of `steps` |
| `Pipeline.StepProgress` | main.py:242-244 | the reported progress is below 1, and equals `k/10` before the counter reaches 10 |
| `Pipeline.Tick` | main.py:255-256 | a counter increment followed by `step_progress()` appends the next ramp value |
| `Pipeline.Abort` | main.py:257-259 | an early return leaves a consistent stopped state at the current step |
| `Pipeline.Complete` | main.py:317-323 | the end of step 10 closes the session, fills the bar and re-enables the button |
| `Pipeline.ConnectStep` | main.py:253-259 | step 1 goes on exactly when the connection is established |
| `Pipeline.DetectOsStep` | main.py:261-265 | step 2 never stops the run |
| `Pipeline.FetchInstallerStep` | main.py:267-274 | step 3 advances the counter to 3 before its test, goes on exactly when the download gave a path that is a regular file, carries that path on, and issues no command or upload |
| `Pipeline.SendInstallerStep` | main.py:276-282 | step 4 always attempts the upload of the installer to `/tmp/<basename>`, goes on exactly when it succeeded, and only then moves the counter to 4 (it stays at 3 on failure) |
| `Pipeline.InstallPackageStep` | main.py:284-287 | step 5 never stops the run, whatever the install command does |
| `Pipeline.FindLicenseStep` | main.py:289-295 | step 6 advances the counter to 6 before its test, goes on exactly when a license was picked, and issues no command or upload |
| `Pipeline.SendLicenseStep` | main.py:297-303 | step 7 always attempts the upload of the license to `/tmp/<basename>`, goes on exactly when it succeeded, and only then moves the counter to 7 (it stays at 6 on failure) |
| `Pipeline.DeployStep` | main.py:305-323 | steps 8 to 10 each issue exactly one command after the earlier ones, never stop the run early, advance the counter, and close the session exactly at step 10 |
| `Pipeline.Advance` | main.py:253-323 | one step extends the trace by the next step, keeps the state consistent, and stops only where the code allows |
| `Pipeline.RunFrom` | main.py:222-323 | running to the end leaves a consistent, stopped state |
| `Pipeline.Execute` | main.py:222-323 | a whole run of `main_process` enters at least step 1 and always stops, with counter, progress, session and button consistent with where it stopped |
| `PipelineProperties.RunFromOnTrack` | main.py:222-323 | every run agrees with the reference description: commands, uploads, carried values and outcome |
| `PipelineProperties.ExecuteStopsAtFirstFailure` | main.py:253-303 | the run stops at the first failing fail-fast step, and completes exactly when none fails |
| `PipelineProperties.RunEnds` | main.py:253-323 | a stop happens only at steps 1, 3, 4, 6 or 7, and no later step runs. The counter stays at 1, 3 or 6 after steps 1, 3 and 6, and at 3 or 6 after failed uploads at steps 4 and 7. Completion gives 10. The session is closed exactly on completion. The button is enabled again on every path except an uncaught error |
| `PipelineProperties.BestEffortStepsNeverAbort` | main.py:261-265 | steps 2, 5, 8, 9 and 10 never stop the run |
| `PipelineProperties.FailFastStepsCanAbort` | main.py:257-301 | each of steps 1, 3, 4, 6 and 7 stops the run in some environment |
| `PipelineProperties.ProgressNeverFullBeforeCompletion` | main.py:242-244 | the bar values start at 0, follow `min(k/10, 0.99)` and never decrease; 1 appears only as the last value and only on completion |
| `PipelineProperties.StepProgressMonotone` | main.py:242-244 | `step_progress` never decreases as the counter grows |
| `PipelineProperties.StartReenabledOnEveryTerminalPath` | main.py:257-323 | with connection errors all handled, the start button is enabled again however the run ends |
| `PipelineProperties.ProtocolErrorLeavesStartDisabled` | main.py:89-101 | as written, an SSH error other than a socket or authentication error escapes before the counter moves. The button stays disabled and no command or upload happens |
| `PipelineProperties.HandlingMattersOnlyForProtocolErrors` | main.py:99 | the as-written and corrected runs are identical unless connecting raises such an error |
| `PipelineProperties.UnreachableHost` | main.py:253-259 | a refused connection stops the run at step 1 with the bar at 0.1, and no command or upload is issued |
| `PipelineProperties.GenericHostStopsAtDownload` | main.py:267-274 | a generic-Linux host stops at step 3 with the counter at 3, after only the `/etc/os-release` read |
| `PipelineProperties.InstallUsesPackageManager` | main.py:170-176 | whenever the install step runs, the host is Debian or Red Hat and the command is `dpkg` or `rpm` on the uploaded installer |
| `PipelineProperties.CommandsAfter` | main.py:253-318 | after `k` steps the commands issued are a prefix of read-os-release, install, mkdir, mv and activate, one per command step |
| `PipelineProperties.MissingLicenseStopsAfterInstall` | main.py:289-295 | without a license file the package stays installed, the run stops at step 6, and the counter is 6 |
| `PipelineProperties.CompletedRun` | main.py:253-323 | a run with no failing step issues all five commands and both uploads in order, and ends with the bar full |
| `PipelineProperties.UbuntuHostCompletes` | main.py:107-108 | an Ubuntu host where everything succeeds runs `sudo dpkg -i /tmp/aspera.deb` and completes |

## Left out

- The graphical interface (window, entries, log box) and the worker thread are
  not modelled. The start button and the progress bar appear only as the
  values `main_process` gives them.
- Paramiko, the SFTP transfer, gdown, the local file system, `time.sleep` and
  `random.choice` are not modelled; their outcomes are the fields of
  `Pipeline.Environment`.
- Exit codes of remote commands are never read, and their output is read
  only to be logged. A command that fails on the host does not change the
  run.
- `Licenses.SelectLicense`: `random.choice` is modelled as an index chosen by
  the environment, clamped to the last candidate when it is out of range.
  `Licenses.EveryCandidateSelectable` shows that every candidate can be
  picked.
- `Text.Lower` lower-cases ASCII letters only. Python's `str.lower` also maps
  non-ASCII letters. The only non-ASCII characters it maps into ASCII are
  U+0130 (to `i` plus a combining dot) and U+212A (to `k`). Neither can
  complete one of the four keywords without the combining dot getting in the
  way, so the classifier's result is the same.
- Progress values are exact rationals, not floating point.
- The progress values that `send_file`, `buscar_licenca`, `install_package`
  and `baixar_instalador` write into the bar during their own work are left
  out. Those helpers do set it to 1.0 in the middle of a run. The model keeps
  only the values `main_process` sets itself:
  - the initial 0;
  - `step_progress()` after each counted step;
  - the final 1.
- Log messages are not modelled.
- Reading the entry fields and expanding `~` in the key path are not modelled.
- The choice between key and password authentication is not modelled. Only
  the connection's outcome is an input.

## Findings

| source | as written | input that shows it | evidently intended | confidence | as-written member | corrected member |
|---|---|---|---|---|---|---|
| main.py:89-101 | `conectar_ssh` catches only `socket.error` and `paramiko.AuthenticationException`, so any other `paramiko.SSHException` escapes `main_process` in the worker thread | a host that does not speak SSH on the port (paramiko raises an `SSHException` for the missing banner); or empty password and key fields on a machine with no SSH agent key and no `~/.ssh/id_*` key (paramiko raises "No authentication methods available") | every failure to connect ends like a refused connection: logged, start button enabled again | not executed | `PipelineProperties.ProtocolErrorLeavesStartDisabled` | `PipelineProperties.StartReenabledOnEveryTerminalPath` |
