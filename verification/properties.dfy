/** What `main_process` does, stated against an independent description of
    its environment: which step (if any) fails first, which commands and
    uploads it issues, where the counter stops and what the progress bar shows. */
module PipelineProperties {
  import opened Options
  import opened Text
  import opened Classifier
  import opened Artifacts
  import opened Installer
  import opened Deployer
  import opened Licenses
  import opened Pipeline

  /** The platform tag the host is classified as. */
  function Tag(env: Environment): PlatformTag
  {
    Classify(env.osRelease)
  }

  /** The local (and remote) path of the host's installer. */
  function InstallerPath(env: Environment): string
  {
    "/tmp/" + Lookup(Tag(env).Name()).filename
  }

  /** The local path of the license picked for the host, when there is one. */
  function LicensePath(env: Environment): string
  {
    SelectLicense(env.licensesDir, env.licenseListing, env.licenseChoice).GetOr("")
  }

  /** The license directory could be listed and holds a license file. */
  ghost predicate HasLicense(env: Environment)
  {
    env.licenseListing.Some?
    && exists n :: n in env.licenseListing.value && EndsWith(n, LicenseSuffix)
  }

  /** The first fail-fast step whose outcome is a failure, stated directly on
      the environment: a host that is not Debian or Red Hat has no installer. */
  ghost function FirstFailure(env: Environment): Option<Step>
  {
    if env.connect != Connected then Some(Connect)
    else if Tag(env) !in {Debian, Rhel} || !env.fetched || !env.installerIsFile then Some(FetchInstaller)
    else if !env.installerSent then Some(SendInstaller)
    else if !HasLicense(env) then Some(FindLicense)
    else if !env.licenseSent then Some(SendLicense)
    else None
  }

  /** No step numbered `k` or less fails. */
  ghost predicate NoFailureWithin(env: Environment, k: nat)
  {
    FirstFailure(env).None? || Number(FirstFailure(env).value) > k
  }

  /** The outcome of step `s` in `env` lets the pipeline go on. */
  ghost predicate StepSucceeds(env: Environment, s: Step)
  {
    match s
    case Connect => env.connect == Connected
    case FetchInstaller => Tag(env) in {Debian, Rhel} && env.fetched && env.installerIsFile
    case SendInstaller => env.installerSent
    case FindLicense => HasLicense(env)
    case SendLicense => env.licenseSent
    case _ => true
  }

  /** Past a step that succeeds, still nothing has failed. */
  lemma SucceedingStepKeepsGoing(env: Environment, k: nat)
    requires k < TotalSteps && NoFailureWithin(env, k) && StepSucceeds(env, Steps[k])
    ensures NoFailureWithin(env, k + 1)
  {
    NumberOfStep(k);
  }

  /** The first step that fails is the first failure. */
  lemma FailingStepIsFirstFailure(env: Environment, k: nat)
    requires k < TotalSteps && NoFailureWithin(env, k) && !StepSucceeds(env, Steps[k])
    ensures FirstFailure(env) == Some(Steps[k])
  {
    NumberOfStep(k);
  }

  /** The install command sent to the host in `env`. */
  function HostInstallCommand(env: Environment): string
  {
    InstallCommand(Tag(env).Name(), InstallerPath(env))
  }

  /** The command that moves the uploaded license into place on the host. */
  function HostMoveCommand(env: Environment): string
  {
    MoveLicenseCommand(RemoteTempPath(LicensePath(env)))
  }

  /** The remote commands step `s` dispatches, given the two that depend on
      the host. */
  function CommandsOf(s: Step, install: string, move: string): seq<string>
  {
    match s
    case DetectOs => [OsReleaseCommand]
    case InstallPackage => [install]
    case EnsureLicenseDir => [EnsureLicenseDirCommand]
    case MoveLicense => [move]
    case ApplyLicense => [ActivateLicenseCommand]
    case _ => []
  }

  /** The remote commands a step dispatches when it runs. */
  function StepCommands(env: Environment, s: Step): seq<string>
  {
    match s
    case DetectOs => [OsReleaseCommand]
    case InstallPackage => [HostInstallCommand(env)]
    case EnsureLicenseDir => [EnsureLicenseDirCommand]
    case MoveLicense => [HostMoveCommand(env)]
    case ApplyLicense => [ActivateLicenseCommand]
    case _ => []
  }

  /** The commands of the first `k` steps, given the two that depend on the host. */
  function CommandsThrough(k: nat, install: string, move: string): seq<string>
    requires k <= TotalSteps
  {
    if k == 0 then [] else CommandsThrough(k - 1, install, move) + CommandsOf(Steps[k - 1], install, move)
  }

  /** The installer upload: the file under `/tmp` goes to the same path. */
  function HostInstallerUpload(env: Environment): Transfer
  {
    Transfer(InstallerPath(env), InstallerPath(env))
  }

  /** The license upload: the picked license goes under `/tmp` by its basename. */
  function HostLicenseUpload(env: Environment): Transfer
  {
    Transfer(LicensePath(env), RemoteTempPath(LicensePath(env)))
  }

  /** The uploads a step attempts when it runs. */
  function StepTransfers(env: Environment, s: Step): seq<Transfer>
  {
    match s
    case SendInstaller => [HostInstallerUpload(env)]
    case SendLicense => [HostLicenseUpload(env)]
    case _ => []
  }

  /** The commands of the first `k` steps, in order. */
  function CommandsUpTo(env: Environment, k: nat): seq<string>
    requires k <= TotalSteps
  {
    if k == 0 then [] else CommandsUpTo(env, k - 1) + StepCommands(env, Steps[k - 1])
  }

  /** The uploads of the first `k` steps, in order. */
  function TransfersUpTo(env: Environment, k: nat): seq<Transfer>
    requires k <= TotalSteps
  {
    if k == 0 then [] else TransfersUpTo(env, k - 1) + StepTransfers(env, Steps[k - 1])
  }

  /** A state of a run against `env` agrees with the description above. */
  ghost predicate OnTrack(r: Run, env: Environment, h: Handling)
  {
    && |r.trace| <= TotalSteps
    && r.commands == CommandsUpTo(env, |r.trace|)
    && r.transfers == TransfersUpTo(env, |r.trace|)
    && (|r.trace| >= 2 ==> r.osType == Tag(env).Name())
    && (r.status.Running? ==> NoFailureWithin(env, |r.trace|))
    && (r.status.Running? && |r.trace| >= 3 ==> r.installer == InstallerPath(env))
    && (r.status.Running? && |r.trace| >= 4 ==> r.remoteInstaller == InstallerPath(env))
    && (r.status.Running? && |r.trace| >= 6 ==> r.license == LicensePath(env))
    && (r.status.Running? && |r.trace| >= 7 ==> r.remoteLicense == RemoteTempPath(LicensePath(env)))
    && (r.status.Aborted? ==> FirstFailure(env) == Some(r.status.at))
    && (r.status.Crashed? ==> h == AsWritten && env.connect == ProtocolError)
    && (r.status.Completed? ==> FirstFailure(env).None?)
  }

  /** One step keeps the run on track. */
  lemma AdvanceOnTrack(r: Run, env: Environment, h: Handling)
    requires r.status.Running? && Consistent(r) && OnTrack(r, env, h)
    ensures OnTrack(Advance(r, env, h), env, h)
  {
    var k := |r.trace|;
    var e := Enter(r);
    OneMoreStep(env, k);
    NumberOfStep(k);
    PerformOnTrack(r, e, env, h);
  }

  /** The commands and uploads of one more step are appended to the earlier ones. */
  lemma OneMoreStep(env: Environment, k: nat)
    requires k < TotalSteps
    ensures CommandsUpTo(env, k + 1) == CommandsUpTo(env, k) + StepCommands(env, Steps[k])
    ensures TransfersUpTo(env, k + 1) == TransfersUpTo(env, k) + StepTransfers(env, Steps[k])
  {
  }

  /** `e` is an on-track running state `r` that has just entered step `s`,
      and the description's commands and uploads through `s` are those of `r`
      followed by the ones `s` issues. */
  ghost predicate EnteredFrom(r: Run, e: Run, env: Environment, h: Handling, s: Step)
  {
    && r.status.Running? && OnTrack(r, env, h)
    && e == r.(trace := r.trace + [s]) && Entered(e) && Number(s) == |e.trace|
    && CommandsUpTo(env, |e.trace|) == r.commands + StepCommands(env, s)
    && TransfersUpTo(env, |e.trace|) == r.transfers + StepTransfers(env, s)
  }

  lemma PerformOnTrack(r: Run, e: Run, env: Environment, h: Handling)
    requires Entered(e) && EnteredFrom(r, e, env, h, Current(e))
    ensures OnTrack(Perform(e, env, h), env, h)
  {
    match Current(e)
    case Connect => ConnectOnTrack(r, e, env, h);
    case DetectOs => DetectOsOnTrack(r, e, env, h);
    case FetchInstaller => FetchInstallerOnTrack(r, e, env, h);
    case SendInstaller => SendInstallerOnTrack(r, e, env, h);
    case InstallPackage => InstallPackageOnTrack(r, e, env, h);
    case FindLicense => FindLicenseOnTrack(r, e, env, h);
    case SendLicense => SendLicenseOnTrack(r, e, env, h);
    case EnsureLicenseDir => EnsureLicenseDirOnTrack(r, e, env, h);
    case MoveLicense => MoveLicenseOnTrack(r, e, env, h);
    case ApplyLicense => ApplyLicenseOnTrack(r, e, env, h);
  }

  lemma ConnectOnTrack(r: Run, e: Run, env: Environment, h: Handling)
    requires EnteredFrom(r, e, env, h, Connect)
    ensures OnTrack(ConnectStep(e, env, h), env, h)
  {
    if StepSucceeds(env, Current(e)) {
      SucceedingStepKeepsGoing(env, |r.trace|);
    } else {
      FailingStepIsFirstFailure(env, |r.trace|);
    }
  }

  lemma DetectOsOnTrack(r: Run, e: Run, env: Environment, h: Handling)
    requires EnteredFrom(r, e, env, h, DetectOs)
    ensures OnTrack(DetectOsStep(e, env), env, h)
  {
    SucceedingStepKeepsGoing(env, |r.trace|);
  }

  lemma FetchInstallerOnTrack(r: Run, e: Run, env: Environment, h: Handling)
    requires EnteredFrom(r, e, env, h, FetchInstaller)
    ensures OnTrack(FetchInstallerStep(e, env), env, h)
  {
    DownloadByTag(Tag(env), env.fetched);
    if StepSucceeds(env, FetchInstaller) {
      SucceedingStepKeepsGoing(env, |r.trace|);
    } else {
      FailingStepIsFirstFailure(env, |r.trace|);
    }
  }

  lemma SendInstallerOnTrack(r: Run, e: Run, env: Environment, h: Handling)
    requires EnteredFrom(r, e, env, h, SendInstaller)
    ensures OnTrack(SendInstallerStep(e, env), env, h)
  {
    RemoteInstallerPathIsLocalPath(Tag(env).Name(), env.fetched);
    if StepSucceeds(env, Current(e)) {
      SucceedingStepKeepsGoing(env, |r.trace|);
    } else {
      FailingStepIsFirstFailure(env, |r.trace|);
    }
  }

  lemma InstallPackageOnTrack(r: Run, e: Run, env: Environment, h: Handling)
    requires EnteredFrom(r, e, env, h, InstallPackage)
    ensures OnTrack(InstallPackageStep(e), env, h)
  {
    SucceedingStepKeepsGoing(env, |r.trace|);
  }

  lemma FindLicenseOnTrack(r: Run, e: Run, env: Environment, h: Handling)
    requires EnteredFrom(r, e, env, h, FindLicense)
    ensures OnTrack(FindLicenseStep(e, env), env, h)
  {
    ContainsAnyLicense(env);
    if StepSucceeds(env, Current(e)) {
      SucceedingStepKeepsGoing(env, |r.trace|);
    } else {
      FailingStepIsFirstFailure(env, |r.trace|);
    }
  }

  lemma SendLicenseOnTrack(r: Run, e: Run, env: Environment, h: Handling)
    requires EnteredFrom(r, e, env, h, SendLicense)
    ensures OnTrack(SendLicenseStep(e, env), env, h)
  {
    if env.licenseSent {
      LicenseSentOnTrack(r, e, env, h);
    } else {
      LicenseNotSentOnTrack(r, e, env, h);
    }
  }

  lemma LicenseSentOnTrack(r: Run, e: Run, env: Environment, h: Handling)
    requires EnteredFrom(r, e, env, h, SendLicense)
    requires env.licenseSent
    ensures OnTrack(SendLicenseStep(e, env), env, h)
  {
    SucceedingStepKeepsGoing(env, |r.trace|);
    var remote := RemoteTempPath(e.license);
    assert SendLicenseStep(e, env)
        == Tick(e.(remoteLicense := remote, transfers := e.transfers + [Transfer(e.license, remote)]));
  }

  lemma LicenseNotSentOnTrack(r: Run, e: Run, env: Environment, h: Handling)
    requires EnteredFrom(r, e, env, h, SendLicense)
    requires !env.licenseSent
    ensures OnTrack(SendLicenseStep(e, env), env, h)
  {
    FailingStepIsFirstFailure(env, |r.trace|);
    var remote := RemoteTempPath(e.license);
    assert SendLicenseStep(e, env)
        == Abort(e.(remoteLicense := remote, transfers := e.transfers + [Transfer(e.license, remote)]), false);
  }

  lemma EnsureLicenseDirOnTrack(r: Run, e: Run, env: Environment, h: Handling)
    requires EnteredFrom(r, e, env, h, EnsureLicenseDir)
    ensures OnTrack(DeployStep(e), env, h)
  {
    SucceedingStepKeepsGoing(env, |r.trace|);
    assert DeployStep(e) == Tick(e.(commands := e.commands + [EnsureLicenseDirCommand]));
  }

  lemma MoveLicenseOnTrack(r: Run, e: Run, env: Environment, h: Handling)
    requires EnteredFrom(r, e, env, h, MoveLicense)
    ensures OnTrack(DeployStep(e), env, h)
  {
    SucceedingStepKeepsGoing(env, |r.trace|);
    assert StepCommands(env, MoveLicense) == [MoveLicenseCommand(e.remoteLicense)];
    assert DeployStep(e) == Tick(e.(commands := e.commands + [MoveLicenseCommand(e.remoteLicense)]));
  }

  lemma ApplyLicenseOnTrack(r: Run, e: Run, env: Environment, h: Handling)
    requires EnteredFrom(r, e, env, h, ApplyLicense)
    ensures OnTrack(DeployStep(e), env, h)
  {
    SucceedingStepKeepsGoing(env, |r.trace|);
    assert DeployStep(e) == Complete(e.(commands := e.commands + [ActivateLicenseCommand]));
  }

  /** `HasLicense` is exactly the case in which a license gets picked. */
  lemma ContainsAnyLicense(env: Environment)
    ensures HasLicense(env) <==> SelectLicense(env.licensesDir, env.licenseListing, env.licenseChoice).Some?
  {
    SelectLicenseSpec(env.licensesDir, env.licenseListing, env.licenseChoice);
  }
  /** The state before step 1 is on track. */
  lemma StartOnTrack(env: Environment, h: Handling)
    ensures OnTrack(Start(), env, h)
  {
  }

  /** Running to the end keeps the run on track. */
  lemma {:induction false} RunFromOnTrack(r: Run, env: Environment, h: Handling)
    requires Consistent(r) && OnTrack(r, env, h)
    ensures OnTrack(RunFrom(r, env, h), env, h)
    decreases TotalSteps - |r.trace|
  {
    if r.status.Running? {
      AdvanceOnTrack(r, env, h);
      RunFromOnTrack(Advance(r, env, h), env, h);
    }
  }

  /** A whole run of `main_process` is on track. */
  lemma ExecuteOnTrack(env: Environment, h: Handling)
    ensures OnTrack(Execute(env, h), env, h)
  {
    StartOnTrack(env, h);
    RunFromOnTrack(Start(), env, h);
  }

  /** The pipeline stops exactly at the first fail-fast step whose outcome is
      a failure, and completes exactly when there is none. */
  lemma ExecuteStopsAtFirstFailure(env: Environment)
    ensures Execute(env, Corrected).status
         == (if FirstFailure(env).None? then Completed else Aborted(FirstFailure(env).value))
  {
    ExecuteOnTrack(env, Corrected);
  }

  /** How a run ends: it stops only after a fail-fast step, no step after the
      stopping one runs, the counter stays at the stopping step (one lower
      after a failed upload) or reaches `total_steps`, only completion closes
      the session, and the start button is enabled again unless an uncaught
      error escaped. */
  lemma RunEnds(env: Environment, h: Handling)
    ensures !Execute(env, h).status.Running?
    ensures Execute(env, h).status.Aborted? ==>
      var s := Execute(env, h).status.at;
      && MayAbort(s)
      && Execute(env, h).trace == Steps[..Number(s)]
      && Execute(env, h).counter == CounterOnAbort(s)
    ensures Execute(env, h).status.Completed? ==>
      Execute(env, h).trace == Steps && Execute(env, h).counter == TotalSteps
    ensures Execute(env, h).sessionClosed <==> Execute(env, h).status.Completed?
    ensures Execute(env, h).startEnabled <==> !Execute(env, h).status.Crashed?
  {
    var r := Execute(env, h);
    assert Steps[..TotalSteps] == Steps;
  }

  /** The steps that only log their errors never stop the pipeline. */
  lemma BestEffortStepsNeverAbort(env: Environment, h: Handling, s: Step)
    requires s in {DetectOs, InstallPackage, EnsureLicenseDir, MoveLicense, ApplyLicense}
    ensures Execute(env, h).status != Aborted(s)
  {
    RunEnds(env, h);
  }

  /** Each fail-fast step does stop the pipeline in some environment. */
  lemma FailFastStepsCanAbort(s: Step)
    requires MayAbort(s)
    ensures exists env :: Execute(env, Corrected).status == Aborted(s)
  {
    FailsFirstAt(s);
    ExecuteStopsAtFirstFailure(FailingAt(s));
  }

  /** An Ubuntu host on which everything works. */
  function Healthy(): Environment
  {
    Environment(Connected, Some("ubuntu"), true, true, true, "/lic", Some(["a.aspera-license"]), 0, true)
  }

  /** The healthy host with the outcome of fail-fast step `s` turned into a failure. */
  function FailingAt(s: Step): Environment
  {
    match s
    case Connect => Healthy().(connect := Refused)
    case FetchInstaller => Healthy().(fetched := false)
    case SendInstaller => Healthy().(installerSent := false)
    case FindLicense => Healthy().(licenseListing := None)
    case _ => Healthy().(licenseSent := false)
  }

  /** In `FailingAt(s)` the first failure is `s`. */
  lemma FailsFirstAt(s: Step)
    requires MayAbort(s)
    ensures FirstFailure(FailingAt(s)) == Some(s)
  {
    assert EndsWith("a.aspera-license", LicenseSuffix);
    assert Tag(FailingAt(s)) == Debian;
  }

  /** The progress values a run of `main_process` hands to the bar: one per
      increment of the counter after the initial 0, never decreasing, below 1
      throughout, with 1 added only when the run completes. */
  lemma ProgressNeverFullBeforeCompletion(env: Environment, h: Handling)
    ensures var r := Execute(env, h);
      && |r.progress| == r.counter + (if r.status.Completed? then 2 else 1)
      && r.progress[0] == 0.0
      && (forall i :: 0 < i <= r.counter ==> r.progress[i] == StepProgress(i))
      && (forall i, j :: 0 <= i <= j < |r.progress| ==> r.progress[i] <= r.progress[j])
      && (forall i :: 0 <= i < |r.progress| && r.progress[i] >= 1.0 ==>
            r.status.Completed? && i == |r.progress| - 1)
      && (r.status.Completed? ==> r.progress[|r.progress| - 1] == 1.0)
  {
    var r := Execute(env, h);
    ProgressTraceShape(r.counter, r.status.Completed?);
  }

  /** The bar's values for a run that ended with counter `k`. */
  lemma ProgressTraceShape(k: nat, completed: bool)
    ensures var p := ProgressTrace(k, completed);
      && |p| == k + (if completed then 2 else 1)
      && p[0] == 0.0
      && (forall i :: 0 < i <= k ==> p[i] == StepProgress(i))
      && (forall i, j :: 0 <= i <= j < |p| ==> p[i] <= p[j])
      && (forall i :: 0 <= i < |p| && p[i] >= 1.0 ==> completed && i == |p| - 1)
      && (completed ==> p[|p| - 1] == 1.0)
  {
    var p := ProgressTrace(k, completed);
    RampValues(k);
    forall i, j | 0 <= i <= j < |p|
      ensures p[i] <= p[j]
    {
      if j <= k {
        StepProgressMonotone(i, j);
      }
    }
  }

  /** `Ramp(k)` lists `StepProgress(0)` to `StepProgress(k)`. */
  lemma {:induction false} RampValues(k: nat)
    ensures |Ramp(k)| == k + 1
    ensures forall i :: 0 <= i <= k ==> Ramp(k)[i] == StepProgress(i)
  {
    if k > 0 {
      RampValues(k - 1);
    }
  }

  /** `step_progress` never decreases as the counter grows, and it equals
      `k / total_steps` until the cap. */
  lemma StepProgressMonotone(i: nat, j: nat)
    requires i <= j
    ensures StepProgress(i) <= StepProgress(j)
  {
  }

  /** Without an uncaught error the start button is enabled again on every
      way the run can end. */
  lemma StartReenabledOnEveryTerminalPath(env: Environment)
    ensures Execute(env, Corrected).startEnabled
    ensures !Execute(env, Corrected).status.Running?
  {
    ExecuteOnTrack(env, Corrected);
    RunEnds(env, Corrected);
  }

  /** As written, an SSH error other than a socket or authentication error
      escapes `main_process` before the counter moves: the start button stays
      disabled and nothing else happens. */
  lemma ProtocolErrorLeavesStartDisabled(env: Environment)
    requires env.connect == ProtocolError
    ensures Execute(env, AsWritten).status == Crashed(Connect)
    ensures !Execute(env, AsWritten).startEnabled
    ensures Execute(env, AsWritten).counter == 0
    ensures Execute(env, AsWritten).commands == [] && Execute(env, AsWritten).transfers == []
  {
    ExecuteOnTrack(env, AsWritten);
    var r1 := Advance(Start(), env, AsWritten);
    assert r1.status == Crashed(Connect);
    assert Execute(env, AsWritten) == r1;
  }

  /** The handling of uncaught errors matters only when connecting raises one. */
  lemma {:induction false} HandlingMattersOnlyForProtocolErrors(r: Run, env: Environment)
    requires Consistent(r) && env.connect != ProtocolError
    ensures RunFrom(r, env, AsWritten) == RunFrom(r, env, Corrected)
    decreases TotalSteps - |r.trace|
  {
    if r.status.Running? {
      assert Advance(r, env, AsWritten) == Advance(r, env, Corrected);
      HandlingMattersOnlyForProtocolErrors(Advance(r, env, Corrected), env);
    }
  }

  /** A host that cannot be reached: only the first step runs, the bar shows a
      tenth, and no remote command or upload is ever issued. */
  lemma UnreachableHost(env: Environment)
    requires env.connect != Connected
    ensures var r := Execute(env, Corrected);
      && r.status == Aborted(Connect) && r.counter == 1
      && r.progress == [0.0, StepProgress(1)]
      && r.commands == [] && r.transfers == []
  {
    ExecuteStopsAtFirstFailure(env);
    ExecuteOnTrack(env, Corrected);
    RunEnds(env, Corrected);
    assert Ramp(1) == [0.0, StepProgress(1)];
  }

  /** A host classified as generic Linux has no installer: the run stops at
      step 3 after reading `/etc/os-release`, so the archive-extraction
      command is never sent. */
  lemma GenericHostStopsAtDownload(env: Environment)
    requires env.connect == Connected && Tag(env) == GenericLinux
    ensures var r := Execute(env, Corrected);
      && r.status == Aborted(FetchInstaller) && r.counter == 3
      && r.commands == [OsReleaseCommand] && r.transfers == []
  {
    ExecuteStopsAtFirstFailure(env);
    ExecuteOnTrack(env, Corrected);
    RunEnds(env, Corrected);
    CommandsAfter(env, 3);
    TransfersAfter(env, 3);
  }

  /** How many remote commands the first `k` steps issue. */
  function CommandCount(k: nat): nat
  {
    if k < 2 then 0 else if k < 5 then 1 else if k < 8 then 2 else if k <= TotalSteps then k - 5 else 5
  }

  /** The first `k` steps issue a prefix of the five commands, one for each
      step that sends one. */
  lemma {:induction false} CommandsThroughPrefix(k: nat, install: string, move: string)
    requires k <= TotalSteps
    ensures CommandsThrough(k, install, move)
         == [OsReleaseCommand, install, EnsureLicenseDirCommand, move, ActivateLicenseCommand][..CommandCount(k)]
  {
    if k > 0 {
      CommandsThroughPrefix(k - 1, install, move);
      var all := [OsReleaseCommand, install, EnsureLicenseDirCommand, move, ActivateLicenseCommand];
      var c := CommandCount(k - 1);
      var s := Steps[k - 1];
      if k == 2 || k == 5 || k == 8 || k == 9 || k == 10 {
        assert CommandsOf(s, install, move) == [all[c]] by {
          if k == 2 { assert s == DetectOs; }
          else if k == 5 { assert s == InstallPackage; }
          else if k == 8 { assert s == EnsureLicenseDir; }
          else if k == 9 { assert s == MoveLicense; }
          else { assert s == ApplyLicense; }
        }
        assert all[..c + 1] == all[..c] + [all[c]];
      } else {
        assert CommandsOf(s, install, move) == [] by {
          if k == 1 { assert s == Connect; }
          else if k == 3 { assert s == FetchInstaller; }
          else if k == 4 { assert s == SendInstaller; }
          else if k == 6 { assert s == FindLicense; }
          else { assert s == SendLicense; }
        }
      }
    }
  }

  /** The commands of the first `k` steps against `env` are those of the
      host-independent listing. */
  lemma {:induction false} CommandsUpToThrough(env: Environment, k: nat)
    requires k <= TotalSteps
    ensures CommandsUpTo(env, k) == CommandsThrough(k, HostInstallCommand(env), HostMoveCommand(env))
  {
    if k > 0 {
      CommandsUpToThrough(env, k - 1);
      StepCommandsOf(env, Steps[k - 1]);
    }
  }

  /** A step's commands against `env` are its host-independent commands. */
  lemma StepCommandsOf(env: Environment, s: Step)
    ensures StepCommands(env, s) == CommandsOf(s, HostInstallCommand(env), HostMoveCommand(env))
  {
  }

  /** The commands a run against `env` has issued after `k` steps. */
  lemma CommandsAfter(env: Environment, k: nat)
    requires k <= TotalSteps
    ensures CommandsUpTo(env, k)
         == [OsReleaseCommand, HostInstallCommand(env), EnsureLicenseDirCommand,
             HostMoveCommand(env), ActivateLicenseCommand][..CommandCount(k)]
  {
    CommandsUpToThrough(env, k);
    CommandsThroughPrefix(k, HostInstallCommand(env), HostMoveCommand(env));
  }

  /** The uploads of the first `k` steps, given the two that depend on the host. */
  function TransfersThrough(k: nat, installer: Transfer, license: Transfer): seq<Transfer>
    requires k <= TotalSteps
  {
    if k < 4 then [] else if k < 7 then [installer] else [installer, license]
  }

  /** The uploads of the first `k` steps against `env` follow the
      host-independent listing: the installer from step 4, the license from
      step 7. */
  lemma {:induction false} TransfersAfter(env: Environment, k: nat)
    requires k <= TotalSteps
    ensures TransfersUpTo(env, k) == TransfersThrough(k, HostInstallerUpload(env), HostLicenseUpload(env))
  {
    if k > 0 {
      TransfersAfter(env, k - 1);
      StepTransfersOf(env, k - 1);
    }
  }

  /** The uploads of step `k + 1` in terms of the two host uploads. */
  lemma StepTransfersOf(env: Environment, k: nat)
    requires k < TotalSteps
    ensures TransfersThrough(k + 1, HostInstallerUpload(env), HostLicenseUpload(env))
         == TransfersThrough(k, HostInstallerUpload(env), HostLicenseUpload(env))
            + StepTransfers(env, Steps[k])
  {
    var s := Steps[k];
    if k == 3 { assert s == SendInstaller; }
    else if k == 6 { assert s == SendLicense; }
    else {
      assert StepTransfers(env, s) == [] by {
        if k == 0 { assert s == Connect; }
        else if k == 1 { assert s == DetectOs; }
        else if k == 2 { assert s == FetchInstaller; }
        else if k == 4 { assert s == InstallPackage; }
        else if k == 5 { assert s == FindLicense; }
        else if k == 7 { assert s == EnsureLicenseDir; }
        else if k == 8 { assert s == MoveLicense; }
        else { assert s == ApplyLicense; }
      }
    }
  }

  /** A run that reached the install step got past the download, so the host
      is Debian or Red Hat family. */
  lemma InstallReachedOnlyWhenSupported(env: Environment, h: Handling)
    requires InstallPackage in Execute(env, h).trace
    ensures |Execute(env, h).trace| >= 5 && Tag(env) in {Debian, Rhel}
    ensures Execute(env, h).commands == CommandsUpTo(env, |Execute(env, h).trace|)
  {
    var r := Execute(env, h);
    ExecuteOnTrack(env, h);
    StepFiveReached(r.trace);
    SupportedPastDownload(r, env, h);
  }

  /** A prefix of the steps that contains the install step has at least five. */
  lemma StepFiveReached(trace: seq<Step>)
    requires |trace| <= TotalSteps && trace == Steps[..|trace|] && InstallPackage in trace
    ensures |trace| >= 5
  {
    var i :| 0 <= i < |trace| && trace[i] == InstallPackage;
    NumberOfStep(i);
  }

  /** A finished run that got to step 5 ran against a Debian or Red Hat host. */
  lemma SupportedPastDownload(r: Run, env: Environment, h: Handling)
    requires Consistent(r) && OnTrack(r, env, h) && !r.status.Running? && |r.trace| >= 5
    ensures Tag(env) in {Debian, Rhel}
  {
  }

  /** Whenever the install step runs, the command sent is `dpkg` or `rpm` on
      the uploaded installer. */
  lemma InstallUsesPackageManager(env: Environment, h: Handling)
    requires InstallPackage in Execute(env, h).trace
    ensures var cmds := Execute(env, h).commands;
      && Tag(env) in {Debian, Rhel}
      && |cmds| >= 2
      && cmds[1] == InstallCommand(Tag(env).Name(), InstallerPath(env))
      && (StartsWith(cmds[1], DpkgPrefix) || StartsWith(cmds[1], RpmPrefix))
  {
    InstallReachedOnlyWhenSupported(env, h);
    InstallIsSecondCommand(env, |Execute(env, h).trace|);
    PackageManagerCommand(Tag(env), InstallerPath(env));
  }

  /** From step 5 on, the second command issued is the install command. */
  lemma InstallIsSecondCommand(env: Environment, k: nat)
    requires 5 <= k <= TotalSteps
    ensures |CommandsUpTo(env, k)| >= 2 && CommandsUpTo(env, k)[1] == HostInstallCommand(env)
  {
    CommandsAfter(env, k);
  }

  /** The Debian and Red Hat tags get `dpkg` and `rpm` commands. */
  lemma PackageManagerCommand(tag: PlatformTag, path: string)
    requires tag in {Debian, Rhel}
    ensures StartsWith(InstallCommand(tag.Name(), path), DpkgPrefix)
         || StartsWith(InstallCommand(tag.Name(), path), RpmPrefix)
  {
    CommandRevealsBranch(tag.Name(), path);
  }

  /** A run against an environment with a failing step, summarised: where
      it stops, what it issued and where the bar stays. */
  lemma AbortedRun(env: Environment, s: Step)
    requires FirstFailure(env) == Some(s)
    ensures var r := Execute(env, Corrected);
      && r.status == Aborted(s) && r.counter == CounterOnAbort(s)
      && r.commands == CommandsUpTo(env, Number(s))
      && r.transfers == TransfersUpTo(env, Number(s))
      && r.progress[|r.progress| - 1] == StepProgress(r.counter)
  {
    ExecuteStopsAtFirstFailure(env);
    ExecuteOnTrack(env, Corrected);
    RunEnds(env, Corrected);
    ProgressNeverFullBeforeCompletion(env, Corrected);
  }

  /** A run against an environment without a failing step, summarised. */
  lemma CompletedRunSummary(env: Environment)
    requires FirstFailure(env).None?
    ensures var r := Execute(env, Corrected);
      && r.status == Completed && r.counter == TotalSteps && r.sessionClosed
      && r.commands == CommandsUpTo(env, TotalSteps)
      && r.transfers == TransfersUpTo(env, TotalSteps)
      && r.progress[|r.progress| - 1] == 1.0
  {
    ExecuteStopsAtFirstFailure(env);
    ExecuteOnTrack(env, Corrected);
    RunEnds(env, Corrected);
    ProgressNeverFullBeforeCompletion(env, Corrected);
  }

  /** No license file: the package is already installed (no rollback) and the
      run stops at step 6 with the counter at 6. */
  lemma MissingLicenseStopsAfterInstall(env: Environment)
    requires FirstFailure(env) == Some(FindLicense)
    ensures var r := Execute(env, Corrected);
      && r.status == Aborted(FindLicense) && r.counter == 6
      && r.commands == [OsReleaseCommand, InstallCommand(Tag(env).Name(), InstallerPath(env))]
      && r.transfers == [Transfer(InstallerPath(env), InstallerPath(env))]
      && r.progress[|r.progress| - 1] == StepProgress(6)
  {
    AbortedRun(env, FindLicense);
    IssuedThroughFindLicense(env);
  }

  /** What the first six steps issue: the two commands and the installer upload. */
  lemma IssuedThroughFindLicense(env: Environment)
    ensures CommandsUpTo(env, 6) == [OsReleaseCommand, InstallCommand(Tag(env).Name(), InstallerPath(env))]
    ensures TransfersUpTo(env, 6) == [Transfer(InstallerPath(env), InstallerPath(env))]
  {
    CommandsAfter(env, 6);
    TransfersAfter(env, 6);
  }

  /** A run with no failing step: every command and upload, in order, and the
      full bar. */
  lemma CompletedRun(env: Environment)
    requires FirstFailure(env).None?
    ensures var r := Execute(env, Corrected);
      && r.status == Completed && r.counter == TotalSteps && r.sessionClosed
      && r.commands == [
           OsReleaseCommand,
           InstallCommand(Tag(env).Name(), InstallerPath(env)),
           EnsureLicenseDirCommand,
           MoveLicenseCommand(RemoteTempPath(LicensePath(env))),
           ActivateLicenseCommand]
      && r.transfers == [
           Transfer(InstallerPath(env), InstallerPath(env)),
           Transfer(LicensePath(env), RemoteTempPath(LicensePath(env)))]
      && r.progress[|r.progress| - 1] == 1.0
  {
    CompletedRunSummary(env);
    CommandsAfter(env, TotalSteps);
    TransfersAfter(env, TotalSteps);
  }

  /** An Ubuntu host with everything available: the `.deb` is installed with
      `dpkg` from `/tmp/aspera.deb` and the run completes. */
  lemma UbuntuHostCompletes(env: Environment)
    requires env.osRelease.Some? && MentionsIgnoringCase(env.osRelease.value, "ubuntu")
    requires env.connect == Connected && env.fetched && env.installerIsFile && env.installerSent
    requires HasLicense(env) && env.licenseSent
    ensures Execute(env, Corrected).status == Completed
    ensures |Execute(env, Corrected).commands| == 5
    ensures Execute(env, Corrected).commands[1] == "sudo dpkg -i /tmp/aspera.deb"
  {
    DebianKeywordTakesPriority(env.osRelease.value);
    assert Tag(env) == Debian;
    assert HostInstallCommand(env) == "sudo dpkg -i /tmp/aspera.deb";
    CompletedRunSummary(env);
    CommandsAfter(env, TotalSteps);
  }
}
