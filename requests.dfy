/**
 * The HTTP requests the teardown script issues, as values: verb, URI and
 * headers.  The remote organisation is an immutable oracle from request to
 * parsed response body; a request missing from it failed (a transport error
 * or a non-2xx status, which `request-promise` rejects).
 */
module Requests {
  import opened Wrappers
  import opened Json

  /** The answers the operator types at the prompt. */
  datatype Config = Config(org: string, username: string, password: string)

  datatype Verb = GET | DELETE | POST

  /** The `Authorization` header, and `X-Org-Name` where the request sets it. */
  datatype Headers = Headers(authorization: string, orgName: Option<string>)

  /**
   * A request: one with headers and no body, or the POST of a form (the
   * token exchange, which sends no headers of its own).
   */
  datatype Call =
    | Call(verb: Verb, uri: string, headers: Headers)
    | FormPost(uri: string, form: seq<(string, string)>)

  /**
   * Everything outside the script that a run depends on: the prompt's answers,
   * the base64 encoder of `Buffer...toString('base64')`, and the responses of
   * the remote services (the management API, the portal service and the
   * OAuth token endpoint).
   */
  datatype Env = Env(
    config: Config,
    base64: string -> string,
    responses: map<Call, Value>)

  const MgmtURL := "https://api.enterprise.apigee.com/v1/organizations"
  const SpecsListURL := "https://api.enterprise.apigee.com/v1/homeFolder/contents"
  const PortalsListURLPrefix := "https://api.enterprise.apigee.com/v1/portals/api/sites?orgname="
  const SpecURLPrefix := "https://api.enterprise.apigee.com/v1"
  const PortalTrashPrefix := "https://apigee.com/portals/api/sites/"
  const OAuthURL := "https://login.apigee.com/oauth/token"

  /** The URI of a management-API entity of the organisation. */
  function MgmtUri(config: Config, entity: string): string {
    MgmtURL + "/" + config.org + "/" + entity
  }

  /** The header of every management call: Basic credentials from the prompt. */
  function BasicHeaders(env: Env): Headers {
    Headers("Basic " + env.base64(env.config.username + ":" + env.config.password), None)
  }

  /** The header of the spec and portal calls: the bearer token and the organisation. */
  function BearerHeaders(env: Env, token: Value): Headers {
    Headers("Bearer " + ToStr(token), Some(env.config.org))
  }

  /** The GET that `getEntities(config, entity)` issues. */
  function ListCall(env: Env, entity: string): Call {
    Call(GET, MgmtUri(env.config, entity), BasicHeaders(env))
  }

  /** The DELETE that `deleteEntities(config, entity)` issues. */
  function DeleteCall(env: Env, entity: string): Call {
    Call(DELETE, MgmtUri(env.config, entity), BasicHeaders(env))
  }

  /** The GET of `getSpecs`. */
  function SpecsListCall(env: Env, token: Value): Call {
    Call(GET, SpecsListURL, BearerHeaders(env, token))
  }

  /** The GET of `getPortals`. */
  function PortalsListCall(env: Env, token: Value): Call {
    Call(GET, PortalsListURLPrefix + env.config.org, BearerHeaders(env, token))
  }

  /** The DELETE of `deleteSpec` for the `self` path of one spec. */
  function SpecDeleteCall(env: Env, token: Value, spec: Value): Call {
    Call(DELETE, SpecURLPrefix + ToStr(spec), BearerHeaders(env, token))
  }

  /** The POST of `deletePortal`, which moves one portal to the trash. */
  function PortalTrashCall(env: Env, token: Value, portal: Value): Call {
    Call(POST, PortalTrashPrefix + ToStr(portal) + "/trash", BearerHeaders(env, token))
  }

  /**
   * The DELETE of `deleteAllExtensionsInEnv`: a bearer call without
   * `X-Org-Name`.  That function is never called (its caller is commented
   * out); this shape is here only so that its absence can be stated.
   */
  function ExtensionsCall(env: Env, token: Value, envName: Value): Call {
    Call(DELETE, MgmtURL + "/" + env.config.org + "/environments/" + ToStr(envName) + "/extensions",
      Headers("Bearer " + ToStr(token), None))
  }

  /** The password grant that `getAccessToken` posts, with the command-line client's own id and secret. */
  function TokenForm(config: Config): seq<(string, string)> {
    [ ("grant_type", "password"),
      ("username", config.username),
      ("password", config.password),
      ("client_id", "edgecli"),
      ("client_secret", "edgeclisecret") ]
  }

  /** The POST of `getAccessToken`. */
  function TokenCall(env: Env): Call {
    FormPost(OAuthURL, TokenForm(env.config))
  }

  /** What `rp(options)` resolves to, or `None` when it rejects. */
  function Fetch(env: Env, c: Call): Option<Value> {
    if c in env.responses then Some(env.responses[c]) else None
  }

  /**
   * What `getEntities` and `deleteEntities` return: the response body, or
   * `undefined` after the catch block logs the failure.
   */
  function Body(env: Env, c: Call): (r: Value)
    ensures c !in env.responses ==> r == Undefined
    ensures c in env.responses ==> r == env.responses[c]
  {
    match Fetch(env, c)
    case Some(v) => v
    case None => Undefined
  }

  /**
   * What `getAccessToken` returns: `parsedBody.access_token` of the token
   * exchange, or `undefined` when the exchange failed or reading the
   * property threw (both are caught).
   */
  function AccessToken(env: Env): (r: Value)
    ensures TokenCall(env) !in env.responses ==> r == Undefined
    ensures TokenCall(env) in env.responses ==>
      var body := env.responses[TokenCall(env)];
      r == (if body.Obj? && "access_token" in body.fields then body.fields["access_token"] else Undefined)
  {
    match Fetch(env, TokenCall(env))
    case None => Undefined
    case Some(body) =>
      match Prop(body, "access_token")
      case None => Undefined
      case Some(token) => token
  }
}
