/** The two decision chokepoints of internal/domain: may a build, or a cleanup, start now? */
module Domain {

  datatype BuildDecision = NoBuild | StartBuild | DeferBuild

  function DecideBuild(requested: string, lastProcessed: string, buildActive: bool): (d: BuildDecision)
    ensures d.NoBuild? <==> requested == lastProcessed
    ensures d.StartBuild? <==> requested != lastProcessed && !buildActive
  {
    if requested == lastProcessed then NoBuild
    else if buildActive then DeferBuild
    else StartBuild
  }

  datatype CleanupDecision = NoCleanup | StartCleanup | WaitCleanup

  function DecideCleanup(requested: string, processed: string, buildActive: bool, cleanupActive: bool)
    : (d: CleanupDecision)
    ensures d.NoCleanup? <==> requested == "" || requested == processed
    ensures d.StartCleanup? <==> requested != "" && requested != processed && !buildActive && !cleanupActive
  {
    if requested == "" || requested == processed then NoCleanup
    else if buildActive || cleanupActive then WaitCleanup
    else StartCleanup
  }
}
