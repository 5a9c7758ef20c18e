/** `internal/buildInfo.go`: the version and commit the binary was built from. */
module BuildInfo {
  import opened Base

  datatype BuildInfo = BuildInfo(version: string, commit: string) {

    /** The first seven characters of the commit, or all of it when it is shorter */
    function GetShortCommit(): (r: string)
      ensures |r| == if |commit| < 7 then |commit| else 7
      ensures r <= commit
    {
      if |commit| >= 7 then commit[0..7] else commit
    }
  }

  /** The package-level `ServantInfo`, nil until `SetBuildInfo` runs */
  class Globals {
    var servantInfo: Option<BuildInfo>

    constructor ()
      ensures servantInfo == None
    {
      servantInfo := None;
    }

    method SetBuildInfo(version: string, commit: string)
      modifies this
      ensures servantInfo == Some(BuildInfo(version, commit))
    {
      servantInfo := Some(BuildInfo(version, commit));
    }
  }

  /** A fully qualified commit hash shortens to its seven-character prefix */
  lemma ShortCommitOfLongHash(b: BuildInfo)
    requires |b.commit| >= 7
    ensures b.GetShortCommit() == b.commit[..7]
  {
  }
}
