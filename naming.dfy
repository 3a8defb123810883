/** Names derived from configuration: the branch of an instance and the
    git sha encoded in a docker url. */
module Naming {
  import opened PyStrings

  /** get_paasta_branch: `SPACER.join((cluster, instance))`. */
  function GetPaastaBranch(spacer: string, cluster: string, instance: string): (r: string)
    ensures r == cluster + spacer + instance
  {
    Join(spacer, [cluster, instance])
  }

  /** get_git_sha_from_dockerurl: the text after the last "/" and then after
      the last "-", cut to 8 characters unless `long`. */
  function GetGitShaFromDockerurl(dockerUrl: string, long: bool): string
  {
    var image := LastField(dockerUrl, '/');
    var sha := LastField(image, '-');
    if long || |sha| <= 8 then sha else sha[..8]
  }

  /** The long sha is the longest suffix of the url without "/" or "-". */
  lemma GitShaSpec(dockerUrl: string)
    ensures var sha := GetGitShaFromDockerurl(dockerUrl, true);
      '/' !in sha && '-' !in sha
      && |sha| <= |dockerUrl| && dockerUrl[|dockerUrl| - |sha|..] == sha
      && (|sha| < |dockerUrl| ==> dockerUrl[|dockerUrl| - |sha| - 1] in "/-")
  {
    var image := LastField(dockerUrl, '/');
    var sha := LastField(image, '-');
    LastFieldSpec(dockerUrl, '/');
    LastFieldSpec(image, '-');
    NestedFinalFields(dockerUrl, image, sha);
  }

  /** The short sha is the first 8 characters of the long one. */
  lemma ShortShaSpec(dockerUrl: string)
    ensures var sha := GetGitShaFromDockerurl(dockerUrl, true);
      var short := GetGitShaFromDockerurl(dockerUrl, false);
      |short| == (if |sha| < 8 then |sha| else 8) && short == sha[..|short|]
  {
  }

  /** The final "-" field of the final "/" field of `url` is a suffix of `url`
      free of both separators, preceded by one of them. */
  lemma NestedFinalFields(url: string, image: string, sha: string)
    requires IsFinalField(url, '/', image) && IsFinalField(image, '-', sha)
    ensures '/' !in sha && '-' !in sha
    ensures |sha| <= |url| && url[|url| - |sha|..] == sha
    ensures |sha| < |url| ==> url[|url| - |sha| - 1] in "/-"
  {
    assert forall k :: 0 <= k < |sha| ==> sha[k] == image[|image| - |sha| + k];
    assert url[|url| - |sha|..] == sha by {
      assert url[|url| - |image|..][|image| - |sha|..] == sha;
    }
    if |sha| < |url| && |sha| < |image| {
      assert url[|url| - |sha| - 1] == image[|image| - |sha| - 1];
    }
  }

  /** get_code_sha_from_dockerurl: "git" and the short sha.  Its `except`
      branch ("gitUNKNOWN") needs a non-string url and cannot be reached here. */
  function GetCodeShaFromDockerurl(dockerUrl: string): (r: string)
    ensures 3 <= |r| <= 11 && r[..3] == "git"
    ensures r[3..] == GetGitShaFromDockerurl(dockerUrl, false)
  {
    "git" + GetGitShaFromDockerurl(dockerUrl, false)
  }
}
