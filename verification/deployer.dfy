/** The license deployer: the three remote commands that put the uploaded
    license in place and activate it (`garantir_diretorio_licenca`,
    `mover_licenca_para_diretorio_final`, `aplicar_licenca`). */
module Deployer {
  import opened Options
  import opened Text

  /** The product's configuration directory and the license's final name. */
  const LicenseDir: string := "/opt/aspera/etc"
  const LicenseTarget: string := "/opt/aspera/etc/aspera-license"

  const MovePrefix: string := "sudo mv "

  /** Creates the configuration directory, succeeding when it already exists. */
  const EnsureLicenseDirCommand: string := "sudo mkdir -p " + LicenseDir

  /** Activation runs the transfer binary by absolute path, without `sudo`;
      the remote license path is not part of it. */
  const ActivateLicenseCommand: string := "/opt/aspera/bin/ascp -A"

  /** Moves the uploaded license onto its final name, replacing any earlier one. */
  function MoveLicenseCommand(remoteLicense: string): string
  {
    MovePrefix + remoteLicense + " " + LicenseTarget
  }

  /** The move runs with `sudo`, names the uploaded license and ends at the
      license's final name. */
  lemma MoveLicenseCommandShape(remoteLicense: string)
    ensures StartsWith(MoveLicenseCommand(remoteLicense), "sudo ")
    ensures Contains(MoveLicenseCommand(remoteLicense), remoteLicense)
    ensures EndsWith(MoveLicenseCommand(remoteLicense), " " + LicenseTarget)
  {
    var cmd := MoveLicenseCommand(remoteLicense);
    assert cmd == MovePrefix + remoteLicense + (" " + LicenseTarget);
    ContainsInMiddle(MovePrefix, remoteLicense, " " + LicenseTarget);
    assert cmd[..5] == "sudo ";
  }

  /** The source path of a move command, or `None` for any other command. */
  function MovedFrom(cmd: string): Option<string>
  {
    var tail := " " + LicenseTarget;
    if |MovePrefix| + |tail| <= |cmd| && StartsWith(cmd, MovePrefix) && EndsWith(cmd, tail)
    then Some(cmd[|MovePrefix|..|cmd| - |tail|])
    else None
  }

  /** The move command names the license it moves. */
  lemma MovedFromInvertsMove(remoteLicense: string)
    ensures MovedFrom(MoveLicenseCommand(remoteLicense)) == Some(remoteLicense)
  {
    var cmd := MoveLicenseCommand(remoteLicense);
    var tail := " " + LicenseTarget;
    assert cmd == MovePrefix + remoteLicense + tail;
    assert cmd[..|MovePrefix|] == MovePrefix;
    assert cmd[|cmd| - |tail|..] == tail;
    assert cmd[|MovePrefix|..|cmd| - |tail|] == remoteLicense;
  }

  /** The deployer's fixed commands are not moves, and the directory command
      runs with `sudo` while activation does not. */
  lemma FixedCommandsShape()
    ensures MovedFrom(EnsureLicenseDirCommand).None?
    ensures MovedFrom(ActivateLicenseCommand).None?
    ensures StartsWith(EnsureLicenseDirCommand, "sudo ")
    ensures !StartsWith(ActivateLicenseCommand, "sudo ")
  {
    assert EnsureLicenseDirCommand[..|MovePrefix|] != MovePrefix by {
      assert EnsureLicenseDirCommand[6] != MovePrefix[6];
    }
    assert ActivateLicenseCommand[..5] != "sudo " by {
      assert ActivateLicenseCommand[0] != 's';
    }
  }
}
