/**
 * The API base URL: an explicitly configured URL wins; otherwise a page
 * served from the production domain talks to its API subdomain, and anything
 * else uses relative paths (the empty base).
 */
module ApiConfig {
  import opened Wrappers
  import opened Text

  const ProductionDomain: string := "maumfit.co.kr"
  const ProductionApi: string := "https://api.maumfit.co.kr"

  /**
   * `inferBaseUrl`, given the configured URL (absent or empty when not set)
   * and the page's host name (absent outside a browser).
   */
  function InferBaseUrl(envUrl: Option<string>, hostname: Option<string>): (r: string)
    ensures envUrl.Some? && envUrl.value != [] ==> r == envUrl.value
    ensures (envUrl == None || envUrl == Some([])) && hostname.Some? && Includes(hostname.value, ProductionDomain) ==>
      r == ProductionApi
    ensures (envUrl == None || envUrl == Some([])) && (hostname == None || !Includes(hostname.value, ProductionDomain)) ==>
      r == []
  {
    if envUrl.Some? && envUrl.value != [] then envUrl.value
    else if hostname.Some? && Includes(hostname.value, ProductionDomain) then ProductionApi
    else []
  }

  /** The production site and its subdomains reach the API without configuration. */
  lemma ProductionHosts(sub: string)
    ensures InferBaseUrl(None, Some(sub + ProductionDomain)) == ProductionApi
  {
    var h := sub + ProductionDomain;
    assert h[|sub|..|sub| + |ProductionDomain|] == ProductionDomain;
    assert OccursAt(h, ProductionDomain, |sub|);
    IncludesAt(h, ProductionDomain);
  }
}
