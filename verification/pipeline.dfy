/** The pipeline orchestrator (`main_process`): ten steps over one SSH session,
    a step counter driving the progress bar, fail-fast at the steps that
    connect, download, upload or find a license and best-effort elsewhere.
    Every remote or local effect is an input, gathered in `Environment`. */
module Pipeline {
  import opened Options
  import opened Text
  import opened Classifier
  import opened Artifacts
  import opened Installer
  import opened Deployer
  import opened Licenses

  datatype Step =
    | Connect | DetectOs | FetchInstaller | SendInstaller | InstallPackage
    | FindLicense | SendLicense | EnsureLicenseDir | MoveLicense | ApplyLicense

  /** The steps in the order `main_process` runs them. */
  const Steps: seq<Step> := [
    Connect, DetectOs, FetchInstaller, SendInstaller, InstallPackage,
    FindLicense, SendLicense, EnsureLicenseDir, MoveLicense, ApplyLicense
  ]

  /** `total_steps`. */
  const TotalSteps: nat := 10

  /** The step's position, counted from 1 as the source's comments do. */
  function Number(s: Step): (n: nat)
    ensures 1 <= n <= TotalSteps && Steps[n - 1] == s
  {
    match s
    case Connect => 1
    case DetectOs => 2
    case FetchInstaller => 3
    case SendInstaller => 4
    case InstallPackage => 5
    case FindLicense => 6
    case SendLicense => 7
    case EnsureLicenseDir => 8
    case MoveLicense => 9
    case ApplyLicense => 10
  }

  /** The steps after which `main_process` may return early. */
  predicate MayAbort(s: Step)
  {
    s in {Connect, FetchInstaller, SendInstaller, FindLicense, SendLicense}
  }

  /** The two uploads test their result before advancing the counter; the
      other fail-fast steps advance it first. */
  function CounterOnAbort(s: Step): nat
  {
    if s == SendInstaller || s == SendLicense then Number(s) - 1 else Number(s)
  }

  /** How opening the session turned out: connected, refused with a socket or
      authentication error (both caught), or failed with another SSH error,
      which the connect helper does not catch. */
  datatype ConnectOutcome = Connected | Refused | ProtocolError

  /** Whether an uncaught SSH error escapes as in the source (`AsWritten`) or
      is handled like a refused connection (`Corrected`). */
  datatype Handling = AsWritten | Corrected

  /** Everything `main_process` learns from the outside world. */
  datatype Environment = Environment(
    connect: ConnectOutcome,
    osRelease: Option<string>,             // decoded `/etc/os-release`, None when reading it raised
    fetched: bool,                         // the installer download did not raise
    installerIsFile: bool,                 // the downloaded path is a regular file
    installerSent: bool,                   // the installer upload succeeded
    licensesDir: string,                   // the local license directory
    licenseListing: Option<seq<string>>,   // its listing, None when listing raised
    licenseChoice: nat,                    // the random pick among license files
    licenseSent: bool                      // the license upload succeeded
  )

  datatype Status = Running | Aborted(at: Step) | Crashed(at: Step) | Completed

  /** One file upload: local source and remote destination. */
  datatype Transfer = Transfer(local: string, remote: string)

  /** The pipeline's state: `current_step`, the steps entered so far, the
      values handed to the progress bar, the remote commands dispatched, the
      uploads attempted, the values carried between steps, whether the
      session was closed and whether the start button is enabled. */
  datatype Run = Run(
    status: Status,
    counter: nat,
    trace: seq<Step>,
    progress: seq<real>,
    commands: seq<string>,
    transfers: seq<Transfer>,
    osType: string,
    installer: string,
    remoteInstaller: string,
    license: string,
    remoteLicense: string,
    sessionClosed: bool,
    startEnabled: bool
  )

  /** `step_progress()`: `current_step / total_steps`, capped at 0.99. */
  function StepProgress(k: nat): (p: real)
    ensures 0.0 <= p < 1.0
    ensures k < TotalSteps ==> p == (k as real) / (TotalSteps as real)
  {
    var f := (k as real) / (TotalSteps as real);
    if f < 0.99 then f else 0.99
  }

  /** The progress values `main_process` reports up to step counter `k`: the
      initial 0 and one value per increment of the counter. */
  function Ramp(k: nat): seq<real>
  {
    if k == 0 then [0.0] else Ramp(k - 1) + [StepProgress(k)]
  }

  /** The values `main_process` hands to the progress bar in a run that ended
      with counter `k`: the full bar is set only on completion. */
  function ProgressTrace(k: nat, completed: bool): seq<real>
  {
    if completed then Ramp(k) + [1.0] else Ramp(k)
  }

  /** The state before step 1: button disabled, bar at 0. */
  function Start(): Run
  {
    Run(Running, 0, [], [0.0], [], [], "", "", "", "", "", false, false)
  }

  /** What every state reachable from `Start` satisfies. */
  ghost predicate Consistent(r: Run)
  {
    && |r.trace| <= TotalSteps
    && r.trace == Steps[..|r.trace|]
    && r.progress == ProgressTrace(r.counter, r.status.Completed?)
    && (r.sessionClosed <==> r.status.Completed?)
    && (r.startEnabled <==> r.status.Aborted? || r.status.Completed?)
    && match r.status
       case Running => |r.trace| < TotalSteps && r.counter == |r.trace|
       case Aborted(s) =>
         |r.trace| == Number(s) && MayAbort(s) && r.counter == CounterOnAbort(s)
       case Crashed(s) => s == Connect && |r.trace| == 1 && r.counter == 0
       case Completed => |r.trace| == TotalSteps && r.counter == TotalSteps
  }

  /** A state in which the next step has just been entered and has not yet
      touched the counter or the status. */
  ghost predicate Entered(r: Run)
  {
    && r.status.Running?
    && 1 <= |r.trace| <= TotalSteps
    && r.trace == Steps[..|r.trace|]
    && r.counter == |r.trace| - 1
    && r.progress == Ramp(r.counter)
    && !r.sessionClosed && !r.startEnabled
  }

  /** The step at position `i` (from 0) is numbered `i + 1`. */
  lemma NumberOfStep(i: nat)
    requires i < TotalSteps
    ensures Number(Steps[i]) == i + 1
  {
  }

  /** One increment of `current_step` followed by `step_progress()`. */
  function Tick(r: Run): (r': Run)
    requires Entered(r)
    ensures r'.counter == |r.trace| && r'.progress == Ramp(r'.counter)
    ensures |r.trace| < TotalSteps ==> Consistent(r')
  {
    r.(counter := r.counter + 1, progress := r.progress + [StepProgress(r.counter + 1)])
  }

  /** An early `return`: the start button is re-enabled, nothing else runs.
      `counted` says whether the counter was advanced before the test. */
  function Abort(r: Run, counted: bool): (r': Run)
    requires Entered(r) && MayAbort(r.trace[|r.trace| - 1])
    requires counted <==> CounterOnAbort(r.trace[|r.trace| - 1]) == |r.trace|
    ensures Consistent(r') && r'.status == Aborted(r.trace[|r.trace| - 1])
  {
    NumberOfStep(|r.trace| - 1);
    var r0 := if counted then Tick(r) else r;
    r0.(status := Aborted(r.trace[|r.trace| - 1]), startEnabled := true)
  }

  /** The end of step 10: session closed, bar full, button re-enabled. */
  function Complete(r: Run): (r': Run)
    requires Entered(r) && |r.trace| == TotalSteps
    ensures Consistent(r') && r'.status.Completed?
  {
    var r0 := Tick(r);
    r0.(status := Completed, sessionClosed := true, progress := r0.progress + [1.0], startEnabled := true)
  }

  /** The step entered last. */
  function Current(r: Run): Step
    requires |r.trace| > 0
  {
    r.trace[|r.trace| - 1]
  }

  /** What performing the entered step of `r` may lead to: a consistent state
      with the same trace, stopped only where the step allows it. */
  ghost predicate Performed(r: Run, r': Run)
    requires |r.trace| > 0
  {
    && Consistent(r')
    && r'.trace == r.trace
    && (r'.status.Aborted? ==> r'.status.at == Current(r) && MayAbort(Current(r)))
    && (r'.status.Crashed? ==> Current(r) == Connect)
    && (r'.status.Completed? <==> Current(r) == ApplyLicense)
  }

  /** The entered step is the one numbered by the length of the trace. */
  lemma EnteredPosition(r: Run)
    requires Entered(r)
    ensures Number(Current(r)) == |r.trace|
  {
    NumberOfStep(|r.trace| - 1);
    assert Current(r) == Steps[|r.trace| - 1];
  }

  /** Step 1, `conectar_ssh`. */
  function ConnectStep(r: Run, env: Environment, h: Handling): (r': Run)
    requires Entered(r) && Current(r) == Connect
    ensures Performed(r, r')
    ensures r'.status.Running? <==> env.connect == Connected
  {
    match env.connect
    case Connected => Tick(r)
    case Refused => Abort(r, true)
    case ProtocolError =>
      if h == AsWritten then r.(status := Crashed(Connect)) else Abort(r, true)
  }

  /** Step 2, `detect_os`: never stops the pipeline. */
  function DetectOsStep(r: Run, env: Environment): (r': Run)
    requires Entered(r) && Current(r) == DetectOs
    ensures Performed(r, r') && r'.status.Running?
  {
    Tick(r.(commands := r.commands + [OsReleaseCommand],
            osType := Classify(env.osRelease).Name()))
  }

  /** Step 3, `baixar_instalador` and the check that the file exists: the
      counter advances before the test, and the run goes on only with a
      downloaded regular file, which later steps upload. */
  function FetchInstallerStep(r: Run, env: Environment): (r': Run)
    requires Entered(r) && Current(r) == FetchInstaller
    ensures Performed(r, r') && r'.counter == Number(FetchInstaller)
    ensures r'.status.Running? <==> Download(r.osType, env.fetched).Some? && env.installerIsFile
    ensures r'.status.Running? ==> r'.installer == Download(r.osType, env.fetched).value
    ensures r'.commands == r.commands && r'.transfers == r.transfers
  {
    EnteredPosition(r);
    var local := Download(r.osType, env.fetched);
    if local.None? || !env.installerIsFile then Abort(r, true)
    else Tick(r.(installer := local.value))
  }

  /** Step 4, uploading the installer: the upload to `/tmp` is attempted,
      and the counter advances only when it succeeded. */
  function SendInstallerStep(r: Run, env: Environment): (r': Run)
    requires Entered(r) && Current(r) == SendInstaller
    ensures Performed(r, r')
    ensures r'.transfers == r.transfers + [Transfer(r.installer, RemoteTempPath(r.installer))]
    ensures r'.status.Running? <==> env.installerSent
    ensures r'.counter == if env.installerSent then Number(SendInstaller) else Number(SendInstaller) - 1
    ensures r'.commands == r.commands
  {
    EnteredPosition(r);
    var remote := RemoteTempPath(r.installer);
    var r := r.(remoteInstaller := remote, transfers := r.transfers + [Transfer(r.installer, remote)]);
    if !env.installerSent then Abort(r, false) else Tick(r)
  }

  /** Step 5, `install_package`: its errors are only logged. */
  function InstallPackageStep(r: Run): (r': Run)
    requires Entered(r) && Current(r) == InstallPackage
    ensures Performed(r, r') && r'.status.Running?
  {
    Tick(r.(commands := r.commands + [InstallCommand(r.osType, r.remoteInstaller)]))
  }

  /** Step 6, `buscar_licenca`: the counter advances before the test, and
      the run goes on only with a license to upload. */
  function FindLicenseStep(r: Run, env: Environment): (r': Run)
    requires Entered(r) && Current(r) == FindLicense
    ensures Performed(r, r') && r'.counter == Number(FindLicense)
    ensures r'.status.Running? <==> SelectLicense(env.licensesDir, env.licenseListing, env.licenseChoice).Some?
    ensures r'.commands == r.commands && r'.transfers == r.transfers
  {
    EnteredPosition(r);
    var lic := SelectLicense(env.licensesDir, env.licenseListing, env.licenseChoice);
    if lic.None? then Abort(r, true) else Tick(r.(license := lic.value))
  }

  /** Step 7, uploading the license: the upload to `/tmp` is attempted, and
      the counter advances only when it succeeded. */
  function SendLicenseStep(r: Run, env: Environment): (r': Run)
    requires Entered(r) && Current(r) == SendLicense
    ensures Performed(r, r')
    ensures r'.transfers == r.transfers + [Transfer(r.license, RemoteTempPath(r.license))]
    ensures r'.status.Running? <==> env.licenseSent
    ensures r'.counter == if env.licenseSent then Number(SendLicense) else Number(SendLicense) - 1
    ensures r'.commands == r.commands
  {
    EnteredPosition(r);
    var remote := RemoteTempPath(r.license);
    var r := r.(remoteLicense := remote, transfers := r.transfers + [Transfer(r.license, remote)]);
    if !env.licenseSent then Abort(r, false) else Tick(r)
  }

  /** Steps 8 to 10, the license deployer's commands: each issues one
      command, none can stop the run, and step 10 ends it. */
  function DeployStep(r: Run): (r': Run)
    requires Entered(r) && Current(r) in {EnsureLicenseDir, MoveLicense, ApplyLicense}
    ensures Performed(r, r') && !r'.status.Aborted? && r'.counter == |r.trace|
    ensures |r'.commands| == |r.commands| + 1 && r'.commands[..|r.commands|] == r.commands
    ensures r'.transfers == r.transfers
    ensures r'.sessionClosed <==> Current(r) == ApplyLicense
  {
    match Current(r)
    case EnsureLicenseDir => Tick(r.(commands := r.commands + [EnsureLicenseDirCommand]))
    case MoveLicense => Tick(r.(commands := r.commands + [MoveLicenseCommand(r.remoteLicense)]))
    case ApplyLicense => Complete(r.(commands := r.commands + [ActivateLicenseCommand]))
  }

  /** Enters the next step. */
  function Enter(r: Run): (e: Run)
    requires r.status.Running? && Consistent(r)
    ensures Entered(e) && e == r.(trace := r.trace + [Steps[|r.trace|]])
  {
    var e := r.(trace := r.trace + [Steps[|r.trace|]]);
    assert e.trace == Steps[..|e.trace|];
    e
  }

  /** Performs the step just entered. */
  function Perform(e: Run, env: Environment, h: Handling): (r': Run)
    requires Entered(e)
    ensures Performed(e, r')
  {
    match Current(e)
    case Connect => ConnectStep(e, env, h)
    case DetectOs => DetectOsStep(e, env)
    case FetchInstaller => FetchInstallerStep(e, env)
    case SendInstaller => SendInstallerStep(e, env)
    case InstallPackage => InstallPackageStep(e)
    case FindLicense => FindLicenseStep(e, env)
    case SendLicense => SendLicenseStep(e, env)
    case _ => DeployStep(e)
  }

  /** Runs the next step of `main_process` against `env`. */
  function Advance(r: Run, env: Environment, h: Handling): (r': Run)
    requires r.status.Running? && Consistent(r)
    ensures Consistent(r')
    ensures r'.trace == r.trace + [Steps[|r.trace|]]
    ensures r'.status.Aborted? ==> r'.status.at == Steps[|r.trace|] && MayAbort(r'.status.at)
    ensures r'.status.Completed? <==> Steps[|r.trace|] == ApplyLicense
  {
    Perform(Enter(r), env, h)
  }

  /** Runs steps until the pipeline stops. */
  function RunFrom(r: Run, env: Environment, h: Handling): (r': Run)
    requires Consistent(r)
    ensures Consistent(r') && !r'.status.Running?
    decreases TotalSteps - |r.trace|
  {
    if r.status.Running? then RunFrom(Advance(r, env, h), env, h) else r
  }

  /** `main_process()` from a fresh start: the run always stops, in a state
      whose counter, progress, session and button agree with where it
      stopped; at least step 1 was entered. */
  function Execute(env: Environment, h: Handling): (r: Run)
    ensures Consistent(r) && !r.status.Running? && r.trace != []
  {
    RunFrom(Start(), env, h)
  }
}
