/**
 * The API configuration (src/config/api.ts): a base URL read from the
 * environment with a development fallback, a fixed endpoint table and the
 * URL builder.
 */
module ApiConfig {
  import opened Common
  import opened Text

  const DefaultBaseUrl := "http://localhost:3000"

  /** The keys of `API_CONFIG.endpoints`. */
  datatype Endpoint = Profile | Projects | SkillsGraph | Chat

  /** `API_CONFIG.endpoints[endpoint]`. */
  function EndpointPath(e: Endpoint): (path: string)
    ensures IsPrefix("/api/", path)
    ensures e == Profile ==> path == "/api/profile"
    ensures e == Projects ==> path == "/api/projects"
    ensures e == SkillsGraph ==> path == "/api/skills-graph"
    ensures e == Chat ==> path == "/api/chat"
  {
    match e
    case Profile => "/api/profile"
    case Projects => "/api/projects"
    case SkillsGraph => "/api/skills-graph"
    case Chat => "/api/chat"
  }

  /** `process.env.NEXT_PUBLIC_API_BASE_URL || 'http://localhost:3000'`:
      an unset or empty variable falls back to the development server. */
  function BaseUrl(env: Option<string>): (url: string)
    ensures env.Some? && env.value != "" ==> url == env.value
    ensures env.None? || env.value == "" ==> url == DefaultBaseUrl
    ensures url != ""
  {
    if env.Some? && env.value != "" then env.value else DefaultBaseUrl
  }

  /** `getApiUrl(endpoint)` under the environment value `env`. */
  function GetApiUrl(env: Option<string>, e: Endpoint): (url: string)
    ensures IsPrefix(BaseUrl(env), url)
    ensures url[|BaseUrl(env)|..] == EndpointPath(e)
  {
    BaseUrl(env) + EndpointPath(e)
  }

  /** Different endpoints never share a URL. */
  lemma {:induction false} DistinctEndpointsDistinctUrls(env: Option<string>, e1: Endpoint, e2: Endpoint)
    ensures e1 != e2 <==> GetApiUrl(env, e1) != GetApiUrl(env, e2)
  {
    if GetApiUrl(env, e1) == GetApiUrl(env, e2) {
      assert |EndpointPath(e1)| == |EndpointPath(e2)|;
    }
  }
}
