/** `checkEnvironment()`: where the page runs, and the load-more endpoint that follows from it. */
module Environment {
  import opened Wrappers

  datatype Kind = Cms | Design | Preview | Live

  /** `{local, env, baseUrl}`; `baseUrl` is the host followed by the project path. */
  datatype Env = Env(local: bool, kind: Kind, baseUrl: string)

  /** `s.includes(sub)`. */
  predicate Contains(s: string, sub: string) {
    |sub| <= |s| && (s[..|sub|] == sub || Contains(s[1..], sub))
  }

  /**
   * Classification from the URL's `page` and `layID` query parameters (None when
   * absent), its path and its host. `projectPath` is taken as given.
   */
  function Classify(page: Option<string>, pathname: string, layID: Option<string>, hostname: string,
                    projectPath: string): (r: Env)
    ensures r.kind == Cms <==> page == Some("vcmspage.php")
    ensures r.kind == Design <==> page != Some("vcmspage.php") && Contains(pathname, "preview.php") && layID.Some?
    ensures r.local <==> r.kind == Cms || r.kind == Design
    ensures r.kind == Preview <==> !r.local && Contains(hostname, "sitemn.gr")
    ensures r.baseUrl == hostname + projectPath
  {
    var isCMS := page.Some? && page.value == "vcmspage.php";
    var isDesign := Contains(pathname, "preview.php") && layID.Some?;
    var isLocal := isCMS || isDesign;
    var isPreview := if isLocal then false else Contains(hostname, "sitemn.gr");
    Env(isLocal, if isCMS then Cms else if isDesign then Design else if isPreview then Preview else Live,
        hostname + projectPath)
  }

  const LocalEndpoint := "../../../cmsfiles/loadmore.php"
  const EndpointPath := "swfiles/lib/loadmore.php"

  /** SM_Filter's `loadmoreUrl`: the CMS copy when local, the site's own copy otherwise. */
  function LoadmoreUrl(e: Env): (r: string)
    ensures e.local ==> r == LocalEndpoint
    ensures !e.local ==> |r| == 2 + |e.baseUrl| + |EndpointPath| && r[..2] == "//"
    ensures !e.local ==> r[2..|r| - |EndpointPath|] == e.baseUrl && r[|r| - |EndpointPath|..] == EndpointPath
  {
    if e.local then LocalEndpoint else "//" + e.baseUrl + EndpointPath
  }

  /** The editor wins over a design preview; the live site is whatever is left. */
  lemma ClassifyLive(page: Option<string>, pathname: string, layID: Option<string>, hostname: string, projectPath: string)
    ensures var r := Classify(page, pathname, layID, hostname, projectPath);
      r.kind == Live <==>
        page != Some("vcmspage.php") && !(Contains(pathname, "preview.php") && layID.Some?) && !Contains(hostname, "sitemn.gr")
  {
  }
}
