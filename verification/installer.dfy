/** The installer (`install_package`): the shell command chosen by platform
    tag, with the uploaded installer's remote path spliced in. */
module Installer {
  import opened Options
  import opened Text

  const DpkgPrefix: string := "sudo dpkg -i "
  const RpmPrefix: string := "sudo rpm -ivh "
  const ChmodPrefix: string := "sudo chmod +x "
  const ShellInfix: string := " && sudo sh "
  const TarPrefix: string := "sudo tar -xzf "
  const TarSuffix: string := " -C /opt/ && echo 'Extraído em /opt/'"

  /** The command `install_package` runs for `osType` on the installer at
      `remotePath`; every tag other than the three named ones gets the
      archive extraction into `/opt/`. */
  function InstallCommand(osType: string, remotePath: string): string
  {
    if osType == "debian" then DpkgPrefix + remotePath
    else if osType == "rhel" then RpmPrefix + remotePath
    else if osType == "aix" then ChmodPrefix + remotePath + ShellInfix + remotePath
    else TarPrefix + remotePath + TarSuffix
  }

  /** Every install command runs with `sudo` and names the installer. */
  lemma InstallCommandShape(osType: string, remotePath: string)
    ensures StartsWith(InstallCommand(osType, remotePath), "sudo ")
    ensures Contains(InstallCommand(osType, remotePath), remotePath)
  {
    var cmd := InstallCommand(osType, remotePath);
    if osType == "debian" {
      assert cmd == DpkgPrefix + remotePath + "";
      ContainsInMiddle(DpkgPrefix, remotePath, "");
    } else if osType == "rhel" {
      assert cmd == RpmPrefix + remotePath + "";
      ContainsInMiddle(RpmPrefix, remotePath, "");
    } else if osType == "aix" {
      assert cmd == ChmodPrefix + remotePath + (ShellInfix + remotePath);
      ContainsInMiddle(ChmodPrefix, remotePath, ShellInfix + remotePath);
    } else {
      ContainsInMiddle(TarPrefix, remotePath, TarSuffix);
    }
    assert cmd[..5] == "sudo ";
  }

  /** Which package tool a command runs can be read off its first words, and
      it tells the branch `install_package` took. */
  lemma CommandRevealsBranch(osType: string, remotePath: string)
    ensures StartsWith(InstallCommand(osType, remotePath), DpkgPrefix) <==> osType == "debian"
    ensures StartsWith(InstallCommand(osType, remotePath), RpmPrefix) <==> osType == "rhel"
    ensures StartsWith(InstallCommand(osType, remotePath), ChmodPrefix) <==> osType == "aix"
    ensures StartsWith(InstallCommand(osType, remotePath), TarPrefix)
        <==> osType !in {"debian", "rhel", "aix"}
  {
    var cmd := InstallCommand(osType, remotePath);
    assert cmd[..5] == "sudo ";
    if osType == "debian" {
      assert cmd[..|DpkgPrefix|] == DpkgPrefix;
    } else if osType == "rhel" {
      assert cmd[..|RpmPrefix|] == RpmPrefix;
    } else if osType == "aix" {
      assert cmd[..|ChmodPrefix|] == ChmodPrefix;
    } else {
      assert cmd[..|TarPrefix|] == TarPrefix;
    }
    assert cmd[5] == cmd[..6][5];
  }

  /** Reads the installer path back out of a command of `osType`'s shape, or
      `None` when the command does not have that shape. */
  function InstalledPath(osType: string, cmd: string): Option<string>
  {
    if osType == "debian" then
      if StartsWith(cmd, DpkgPrefix) then Some(cmd[|DpkgPrefix|..]) else None
    else if osType == "rhel" then
      if StartsWith(cmd, RpmPrefix) then Some(cmd[|RpmPrefix|..]) else None
    else if osType == "aix" then
      if |ChmodPrefix| + |ShellInfix| <= |cmd| then
        var n := (|cmd| - |ChmodPrefix| - |ShellInfix|) / 2;
        var p := cmd[|ChmodPrefix|..|ChmodPrefix| + n];
        if cmd == ChmodPrefix + p + ShellInfix + p then Some(p) else None
      else None
    else
      if |TarPrefix| + |TarSuffix| <= |cmd| && StartsWith(cmd, TarPrefix) && EndsWith(cmd, TarSuffix)
      then Some(cmd[|TarPrefix|..|cmd| - |TarSuffix|])
      else None
  }

  /** The command determines the installer path: reading it back gives the
      path that was spliced in, for every tag. */
  lemma InstalledPathInvertsInstallCommand(osType: string, remotePath: string)
    ensures InstalledPath(osType, InstallCommand(osType, remotePath)) == Some(remotePath)
  {
    var cmd := InstallCommand(osType, remotePath);
    if osType == "debian" {
      assert cmd[..|DpkgPrefix|] == DpkgPrefix;
      assert cmd[|DpkgPrefix|..] == remotePath;
    } else if osType == "rhel" {
      assert cmd[..|RpmPrefix|] == RpmPrefix;
      assert cmd[|RpmPrefix|..] == remotePath;
    } else if osType == "aix" {
      assert (|cmd| - |ChmodPrefix| - |ShellInfix|) / 2 == |remotePath|;
      assert cmd[|ChmodPrefix|..|ChmodPrefix| + |remotePath|] == remotePath;
    } else {
      assert cmd[..|TarPrefix|] == TarPrefix;
      assert cmd[|cmd| - |TarSuffix|..] == TarSuffix;
      assert cmd[|TarPrefix|..|cmd| - |TarSuffix|] == remotePath;
    }
  }
}
