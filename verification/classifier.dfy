/** The OS classifier (`detect_os`): the text of `/etc/os-release` on the
    remote host, or the failure to obtain it, mapped to a platform tag. */
module Classifier {
  import opened Options
  import opened Text

  /** The platform families the installer knows about. */
  datatype PlatformTag = Debian | Rhel | Aix | GenericLinux {

    /** The tag as the installer spells it; it is the key of the installer table. */
    function Name(): string
    {
      match this
      case Debian => "debian"
      case Rhel => "rhel"
      case Aix => "aix"
      case GenericLinux => "linux_genérico"
    }
  }

  /** The command whose output identifies the remote system. */
  const OsReleaseCommand: string := "cat /etc/os-release"

  const DebianKeywords: seq<string> := ["debian", "ubuntu"]
  const RhelKeywords: seq<string> := ["rhel", "centos"]

  /** `detect_os`: `osRelease` is the decoded output of `OsReleaseCommand`, or
      `None` when running or decoding it raised. The text is lower-cased and
      searched for the Debian keywords first, then the Red Hat ones. */
  function Classify(osRelease: Option<string>): (tag: PlatformTag)
    ensures tag != Aix
    ensures osRelease.None? ==> tag == GenericLinux
  {
    match osRelease
    case None => GenericLinux
    case Some(text) =>
      var info := Lower(text);
      if Contains(info, "debian") || Contains(info, "ubuntu") then Debian
      else if Contains(info, "rhel") || Contains(info, "centos") then Rhel
      else GenericLinux
  }

  /** Some keyword of the list occurs in `text`, whatever its letter case. */
  ghost predicate MentionsAny(text: string, keywords: seq<string>)
  {
    exists k :: k in keywords && MentionsIgnoringCase(text, k)
  }

  /** The classification described independently of lower-casing the whole
      text: Debian family when a Debian keyword is mentioned in any letter
      case, else Red Hat family when a Red Hat keyword is, else generic. */
  ghost function ClassifyIgnoringCase(osRelease: Option<string>): PlatformTag
  {
    match osRelease
    case None => GenericLinux
    case Some(text) =>
      if MentionsAny(text, DebianKeywords) then Debian
      else if MentionsAny(text, RhelKeywords) then Rhel
      else GenericLinux
  }

  /** `detect_os` agrees with the case-insensitive description on every input. */
  lemma ClassifyMatchesCaseInsensitiveRule(osRelease: Option<string>)
    ensures Classify(osRelease) == ClassifyIgnoringCase(osRelease)
  {
    if osRelease.Some? {
      var text := osRelease.value;
      ContainsLowerIffMentions(text, "debian");
      ContainsLowerIffMentions(text, "ubuntu");
      ContainsLowerIffMentions(text, "rhel");
      ContainsLowerIffMentions(text, "centos");
      assert MentionsAny(text, DebianKeywords)
        <==> MentionsIgnoringCase(text, "debian") || MentionsIgnoringCase(text, "ubuntu");
      assert MentionsAny(text, RhelKeywords)
        <==> MentionsIgnoringCase(text, "rhel") || MentionsIgnoringCase(text, "centos");
    }
  }

  /** A Debian keyword wins even when a Red Hat keyword is present too. */
  lemma DebianKeywordTakesPriority(text: string)
    requires MentionsIgnoringCase(text, "debian") || MentionsIgnoringCase(text, "ubuntu")
    ensures Classify(Some(text)) == Debian
  {
    ContainsLowerIffMentions(text, "debian");
    ContainsLowerIffMentions(text, "ubuntu");
  }

  /** Without a Debian keyword, a Red Hat keyword gives the Red Hat family,
      and text with neither falls back to the generic tag. */
  lemma RhelOrFallback(text: string)
    requires !MentionsIgnoringCase(text, "debian") && !MentionsIgnoringCase(text, "ubuntu")
    ensures Classify(Some(text)) == Rhel
        <==> MentionsIgnoringCase(text, "rhel") || MentionsIgnoringCase(text, "centos")
    ensures Classify(Some(text)) == GenericLinux
        <==> !MentionsIgnoringCase(text, "rhel") && !MentionsIgnoringCase(text, "centos")
  {
    ContainsLowerIffMentions(text, "debian");
    ContainsLowerIffMentions(text, "ubuntu");
    ContainsLowerIffMentions(text, "rhel");
    ContainsLowerIffMentions(text, "centos");
  }

  /** Letter case in the identification text does not matter. */
  lemma ClassifyIgnoresCase(text: string)
    ensures Classify(Some(Lower(text))) == Classify(Some(text))
  {
    LowerIsIdempotent(text);
  }
}
