/** The dashboard shell's choice of chat context from the current route. */
module Layout {
  import opened Text

  /** The four contexts the chat assistant knows. */
  datatype ChatContext = DashboardContext | PipelineContext | AnalyticsContext | GeneralContext

  /** `updateChatContext`: '/pipeline' anywhere in the path wins, then '/analytics'; only the
      root path itself is the dashboard; everything else is general. */
  function ContextForPath(path: string): (c: ChatContext)
    ensures c == PipelineContext <==> Contains(path, "/pipeline")
    ensures c == AnalyticsContext <==> !Contains(path, "/pipeline") && Contains(path, "/analytics")
    ensures c == DashboardContext <==> !Contains(path, "/pipeline") && !Contains(path, "/analytics") && path == "/"
    ensures c == GeneralContext <==> !Contains(path, "/pipeline") && !Contains(path, "/analytics") && path != "/"
  {
    if Contains(path, "/pipeline") then PipelineContext
    else if Contains(path, "/analytics") then AnalyticsContext
    else if path == "/" then DashboardContext
    else GeneralContext
  }

  /** The dashboard context belongs to the root path alone. */
  lemma OnlyRootIsDashboard(path: string)
    ensures ContextForPath(path) == DashboardContext <==> path == "/"
  {
  }

  /** Any path under '/pipeline' is the pipeline context, even one that also names analytics. */
  lemma PipelinePrefixWins(rest: string)
    ensures ContextForPath("/pipeline" + rest) == PipelineContext
  {
    ContainsIff("/pipeline" + rest, "/pipeline");
    assert OccursAt("/pipeline" + rest, "/pipeline", 0);
  }

  /** Routes of the application and the context each selects. */
  lemma KnownRoutes()
    ensures ContextForPath("/") == DashboardContext
    ensures ContextForPath("/pipeline") == PipelineContext
    ensures ContextForPath("/analytics") == AnalyticsContext
    ensures ContextForPath("/team") == GeneralContext
  {
    PipelinePrefixWins("");
    assert "/pipeline" + "" == "/pipeline";
    var a, p := "/analytics", "/pipeline";
    assert a[..|p|] != p by { assert a[..|p|][1] != p[1]; }
    assert a[1..][..|p|] != p by { assert a[1..][..|p|][0] != p[0]; }
    assert !Contains(a[1..][1..], p);
    assert !Contains(a, p);
    assert Contains("/analytics", "/analytics");
  }
}
