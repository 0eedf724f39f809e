/** The artifact resolver: the static installer table, the lookup half of
    `baixar_instalador`, and the local and remote paths the installer file
    takes on its way to the host. */
module Artifacts {
  import opened Options
  import opened Text
  import opened Classifier

  /** Where an installer is fetched from, and the file name it is saved under.
      An empty identifier marks a platform without a downloadable installer. */
  datatype ArtifactDescriptor = ArtifactDescriptor(fileId: string, filename: string)

  /** `INSTALLER_IDS`, keyed by the platform tag's name. */
  const InstallerIds: map<string, ArtifactDescriptor> := map[
    "debian" := ArtifactDescriptor("1wKzrIEbiCszxbAcEmtI6ytRdd3i1rQD_", "aspera.deb"),
    "rhel" := ArtifactDescriptor("19ZmNTIpbJXPoUH308o68ytEK8i8xSF69", "aspera.rpm"),
    "aix" := ArtifactDescriptor("1klcsw2G1TRBEPxqRUsvPgVCIXV1hqTP_", "aspera.sh"),
    "linux_genérico" := ArtifactDescriptor("", "")
  ]

  /** The default `INSTALLER_IDS.get` falls back on for an unknown tag. */
  const NoInstaller: ArtifactDescriptor := ArtifactDescriptor("", "")

  /** The local directory installers are downloaded into, and the remote one
      every uploaded file lands in. */
  const TempDir: string := "/tmp"

  /** `INSTALLER_IDS.get(os_type, ("", ""))`. */
  function Lookup(osType: string): ArtifactDescriptor
  {
    if osType in InstallerIds then InstallerIds[osType] else NoInstaller
  }

  /** The table has one entry per platform tag, reached by the tag's name;
      only the generic tag's entry is empty, and every other entry names a
      file with its platform's package extension. */
  lemma InstallerTableByTag(tag: PlatformTag)
    ensures InstallerIds.Keys == {Debian.Name(), Rhel.Name(), Aix.Name(), GenericLinux.Name()}
    ensures Lookup(tag.Name()) == InstallerIds[tag.Name()]
    ensures Lookup(tag.Name()).fileId == [] <==> tag == GenericLinux
    ensures Lookup(tag.Name()).filename == [] <==> tag == GenericLinux
  {
  }

  /** The first test of `baixar_instalador`: there is an installer for
      `osType` exactly when its identifier is non-empty. */
  function Resolve(osType: string): (r: Option<ArtifactDescriptor>)
    ensures r.Some? ==> r.value.fileId != [] && r.value.filename != [] && '/' !in r.value.filename
    ensures r.Some? ==> osType in InstallerIds && r.value == InstallerIds[osType]
  {
    var d := Lookup(osType);
    if d.fileId == [] then None else Some(d)
  }

  /** The supported tags are exactly Debian, Red Hat and AIX: the generic tag
      and any tag missing from the table have no installer. */
  lemma ResolveSupportsExactly(osType: string)
    ensures Resolve(osType).Some? <==> osType in {"debian", "rhel", "aix"}
    ensures Resolve(osType).None? <==> osType !in InstallerIds || InstallerIds[osType].fileId == []
  {
  }

  /** What each platform tag resolves to; the file name's extension is the
      package format of that platform. */
  lemma ResolveByTag()
    ensures Resolve(Debian.Name()) == Some(InstallerIds["debian"])
    ensures EndsWith(Resolve(Debian.Name()).value.filename, ".deb")
    ensures EndsWith(Resolve(Rhel.Name()).value.filename, ".rpm")
    ensures EndsWith(Resolve(Aix.Name()).value.filename, ".sh")
    ensures Resolve(GenericLinux.Name()) == None
  {
  }

  /** `baixar_instalador(os_type)` with the fetch itself as the input `fetched`
      (false when the download raised): the local path of the installer, or
      `None`. */
  function Download(osType: string, fetched: bool): (r: Option<string>)
    ensures r.Some? <==> Resolve(osType).Some? && fetched
    ensures r.Some? ==> r.value == "/tmp/" + Resolve(osType).value.filename
  {
    match Resolve(osType)
    case None => None
    case Some(d) =>
      if fetched then
        assert d.filename[..1] != "/" by { assert d.filename[..1][0] in d.filename; }
        Some(Join(TempDir, d.filename))
      else None
  }

  /** What `baixar_instalador` yields for the name of a platform tag: the
      file under `/tmp` when the tag has an installer and the fetch works. */
  lemma DownloadByTag(tag: PlatformTag, fetched: bool)
    ensures Download(tag.Name(), fetched).Some? <==> tag != GenericLinux && fetched
    ensures Download(tag.Name(), fetched).Some? ==>
      Download(tag.Name(), fetched).value == "/tmp/" + Lookup(tag.Name()).filename
  {
    ResolveByTag();
  }

  /** The remote path `main_process` uploads a local file to:
      the temporary directory joined with the file's basename. */
  function RemoteTempPath(local: string): string
  {
    "/tmp/" + Basename(local)
  }

  /** An upload lands in the temporary directory under the local file's own
      name: the remote path is `os.path.join("/tmp", basename(local))`. */
  lemma RemoteTempPathKeepsName(local: string)
    ensures RemoteTempPath(local) == Join(TempDir, Basename(local))
    ensures StartsWith(RemoteTempPath(local), "/tmp/")
    ensures Basename(RemoteTempPath(local)) == Basename(local)
  {
    var b := Basename(local);
    BasenameShape(local);
    assert !StartsWith(b, "/") by { if |b| > 0 { assert b[0] in b; } }
    BasenameOfJoin(TempDir, b);
  }

  /** The installer is uploaded to the same path it was downloaded to. */
  lemma RemoteInstallerPathIsLocalPath(osType: string, fetched: bool)
    requires Download(osType, fetched).Some?
    ensures RemoteTempPath(Download(osType, fetched).value) == Download(osType, fetched).value
  {
    var d := Resolve(osType).value;
    BasenameOfJoin(TempDir, d.filename);
  }
}
