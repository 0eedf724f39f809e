/** License selection (`buscar_licenca`): the local license directory's
    listing filtered by extension, and one of the matches picked. */
module Licenses {
  import opened Options
  import opened Text

  /** The extension a license file must have. */
  const LicenseSuffix: string := ".aspera-license"

  /** The names of `names` that end in the license extension, in listing order. */
  function Candidates(names: seq<string>): (r: seq<string>)
    ensures forall n :: n in r <==> n in names && EndsWith(n, LicenseSuffix)
    ensures |r| <= |names|
  {
    if names == [] then []
    else if EndsWith(names[0], LicenseSuffix) then [names[0]] + Candidates(names[1..])
    else Candidates(names[1..])
  }

  /** `buscar_licenca()`: `listing` is the result of listing the license
      directory `dir` (`None` when listing raised) and `choice` stands for
      `random.choice`: the position of the pick among the candidates, the last
      one when it is out of range. The result is the chosen
      license joined onto `dir`, or `None` when there is no candidate. */
  function SelectLicense(dir: string, listing: Option<seq<string>>, choice: nat): Option<string>
  {
    match listing
    case None => None
    case Some(names) =>
      var found := Candidates(names);
      if found == [] then
        None
      else
        var pick := if choice < |found| then choice else |found| - 1;
        Some(Join(dir, found[pick]))
  }

  /** There is no license exactly when the directory could not be listed or
      holds no license file; otherwise the license is a listed license file
      joined onto the directory. */
  lemma SelectLicenseSpec(dir: string, listing: Option<seq<string>>, choice: nat)
    ensures SelectLicense(dir, listing, choice).None?
        <==> listing.None? || forall n :: n in listing.value ==> !EndsWith(n, LicenseSuffix)
    ensures SelectLicense(dir, listing, choice).Some? ==>
      exists n :: n in listing.value && EndsWith(n, LicenseSuffix)
        && SelectLicense(dir, listing, choice).value == Join(dir, n)
  {
    if listing.Some? {
      var found := Candidates(listing.value);
      if found != [] {
        var pick := if choice < |found| then choice else |found| - 1;
        assert found[pick] in found;
      } else {
        forall n | n in listing.value
          ensures !EndsWith(n, LicenseSuffix)
        {
          assert n !in found;
        }
      }
    }
  }

  /** The choice is free: every license file in the listing is picked by some choice. */
  lemma EveryCandidateSelectable(dir: string, names: seq<string>, n: string)
    requires n in names && EndsWith(n, LicenseSuffix)
    ensures exists choice: nat :: SelectLicense(dir, Some(names), choice) == Some(Join(dir, n))
  {
    var found := Candidates(names);
    var k :| 0 <= k < |found| && found[k] == n;
    assert SelectLicense(dir, Some(names), k) == Some(Join(dir, n));
  }

  /** The license is uploaded under its own file name: the remote path's basename
      is the listed name, as long as that name is a plain file name. */
  lemma SelectedLicenseBasename(dir: string, listing: Option<seq<string>>, choice: nat)
    requires SelectLicense(dir, listing, choice).Some?
    requires forall n :: n in listing.value ==> '/' !in n
    ensures Basename(SelectLicense(dir, listing, choice).value) in listing.value
    ensures EndsWith(Basename(SelectLicense(dir, listing, choice).value), LicenseSuffix)
  {
    SelectLicenseSpec(dir, listing, choice);
    var n :| n in listing.value && EndsWith(n, LicenseSuffix)
      && SelectLicense(dir, listing, choice).value == Join(dir, n);
    BasenameOfJoin(dir, n);
  }
}
