/**
 * What each pass of the teardown issues, as pure functions of the
 * environment: the reference against which the methods of
 * Cleanup.Teardown are proved, and about which module Properties proves
 * ordering, exclusion and abort behaviour.
 */
module Passes {
  import opened Wrappers
  import opened Json
  import opened Requests
  import opened Trace

  /** The categories the prompt callback tears down; extensions are not among them. */
  datatype Category =
    | AppsAndDevelopers
    | ApiProducts
    | Reports
    | SharedFlows
    | ApiProxies
    | Portals
    | Specs

  /** The order of the awaits in the prompt callback. */
  const CategoryOrder: seq<Category> :=
    [AppsAndDevelopers, ApiProducts, Reports, SharedFlows, ApiProxies, Portals, Specs]

  // Entity paths, relative to the organisation, as the passes concatenate them.

  function AppsEntity(developer: Value): string {
    "developers/" + ToStr(developer) + "/apps"
  }

  function AppEntity(developer: Value, app: Value): string {
    "developers/" + ToStr(developer) + "/apps/" + ToStr(app)
  }

  function DeveloperEntity(developer: Value): string {
    "developers/" + ToStr(developer)
  }

  function ProductEntity(product: Value): string {
    "apiproducts/" + ToStr(product)
  }

  function ReportEntity(reportName: Value): string {
    "reports/" + ToStr(reportName)
  }

  /** `kind` is "sharedflows" or "apis". */
  function DeploymentsEntity(kind: string, name: Value): string {
    kind + "/" + ToStr(name) + "/deployments"
  }

  function DeployableEntity(kind: string, name: Value): string {
    kind + "/" + ToStr(name)
  }

  /** The undeploy path; it starts with "/", so the URI holds a doubled slash after the organisation. */
  function UndeployEntity(kind: string, name: Value, envName: Value, revision: Value): string {
    "/environments/" + ToStr(envName) + "/" + kind + "/" + ToStr(name) + "/revisions/" + ToStr(revision) + "/deployments"
  }

  const SharedFlowsKind := "sharedflows"
  const ProxiesKind := "apis"

  /** The proxies the proxy pass never touches. */
  const IgnoredProxies: seq<string> := ["oauth", "helloworld", "apigee-test_bundle"]

  /** `ignoreAPIs.includes(item)`: only a string equal to one of the names matches. */
  predicate Ignored(v: Value) {
    v.Str? && v.s in IgnoredProxies
  }

  /** The elements of a proxy list that the filter keeps, in their order. */
  function KeepNotIgnored(names: seq<Value>): seq<Value> {
    if |names| == 0 then []
    else (if Ignored(names[0]) then [] else [names[0]]) + KeepNotIgnored(names[1..])
  }

  /** `apis.filter(...)`: only an array has `filter`; on anything else the call throws. */
  function FilterProxies(apis: Value): (r: Option<seq<Value>>)
    ensures r.Some? <==> apis.Arr?
    ensures r.Some? ==> r.value == KeepNotIgnored(apis.elems)
  {
    if apis.Arr? then Some(KeepNotIgnored(apis.elems)) else None
  }

  /**
   * The loop of getSpecs and getPortals that pushes `content[field]` for
   * each content; property access on a nullish content throws.
   */
  function Pluck(items: seq<Value>, field: string): (r: Option<seq<Value>>)
    ensures r.Some? <==> forall i :: 0 <= i < |items| ==> !IsNullish(items[i])
    ensures r.Some? ==> |r.value| == |items|
    ensures r.Some? ==> forall i :: 0 <= i < |items| ==> Prop(items[i], field) == Some(r.value[i])
    decreases |items|
  {
    if |items| == 0 then Some([])
    else
      match Prop(items[|items| - 1], field)
      case None => None
      case Some(v) =>
        match Pluck(items[..|items| - 1], field)
        case None => None
        case Some(init) => Some(init + [v])
  }

  /**
   * The try block of getSpecs / getPortals: the body must have an iterable
   * `listField` whose entries all have an `idField`; any throw inside is
   * caught and the function returns `undefined` (here `None`).
   */
  function CollectIds(response: Option<Value>, listField: string, idField: string): (r: Option<seq<Value>>)
    ensures r.Some? <==>
      && response.Some?
      && Prop(response.value, listField).Some?
      && Iterate(Prop(response.value, listField).value).Some?
      && forall i :: 0 <= i < |Iterate(Prop(response.value, listField).value).value| ==>
           !IsNullish(Iterate(Prop(response.value, listField).value).value[i])
    ensures r.Some? ==>
      var items := Iterate(Prop(response.value, listField).value).value;
      |r.value| == |items| && forall i :: 0 <= i < |items| ==> Prop(items[i], idField) == Some(r.value[i])
  {
    match response
    case None => None
    case Some(body) =>
      match Prop(body, listField)
      case None => None
      case Some(list) =>
        match Iterate(list)
        case None => None
        case Some(items) => Pluck(items, idField)
  }

  /** What getSpecs returns: the `self` paths of the home folder's contents. */
  function SpecPaths(env: Env, token: Value): Option<seq<Value>> {
    CollectIds(Fetch(env, SpecsListCall(env, token)), "contents", "self")
  }

  /** What getPortals returns: the ids of the organisation's portal sites. */
  function PortalIds(env: Env, token: Value): Option<seq<Value>> {
    CollectIds(Fetch(env, PortalsListCall(env, token)), "data", "id")
  }

  // Developers and their apps

  function AppStep(env: Env, developer: Value, app: Value): Run {
    Issue(DeleteCall(env, AppEntity(developer, app)))
  }

  function AppStepFn(env: Env, developer: Value): Value -> Run {
    app => AppStep(env, developer, app)
  }

  /** One developer: list its apps, delete each, then delete the developer. */
  function DeveloperStep(env: Env, developer: Value): Run {
    var get := ListCall(env, AppsEntity(developer));
    Then(Issue(get),
      match Iterate(Body(env, get))
      case None => Abort
      case Some(apps) =>
        Then(Seq(apps, AppStepFn(env, developer)), Issue(DeleteCall(env, DeveloperEntity(developer)))))
  }

  function DeveloperStepFn(env: Env): Value -> Run {
    developer => DeveloperStep(env, developer)
  }

  function AppsPass(env: Env): Run {
    var get := ListCall(env, "developers");
    Then(Issue(get),
      match Iterate(Body(env, get))
      case None => Abort
      case Some(developers) => Seq(developers, DeveloperStepFn(env)))
  }

  // API products

  function ProductStep(env: Env, product: Value): Run {
    Issue(DeleteCall(env, ProductEntity(product)))
  }

  function ProductStepFn(env: Env): Value -> Run {
    product => ProductStep(env, product)
  }

  function ProductsPass(env: Env): Run {
    var get := ListCall(env, "apiproducts");
    Then(Issue(get),
      match Iterate(Body(env, get))
      case None => Abort
      case Some(products) => Seq(products, ProductStepFn(env)))
  }

  // Custom reports

  /** `report.name` throws on a nullish report, before the delete is issued. */
  function ReportStep(env: Env, report: Value): Run {
    match Prop(report, "name")
    case None => Abort
    case Some(name) => Issue(DeleteCall(env, ReportEntity(name)))
  }

  function ReportStepFn(env: Env): Value -> Run {
    report => ReportStep(env, report)
  }

  function ReportsPass(env: Env): Run {
    var get := ListCall(env, "reports");
    Then(Issue(get),
      match Prop(Body(env, get), "qualifier")
      case None => Abort
      case Some(qualifier) =>
        match Iterate(qualifier)
        case None => Abort
        case Some(reports) => Seq(reports, ReportStepFn(env)))
  }

  // Shared flows and API proxies

  /** `e.revision[0].name`; throws when the entry, its revision list or its first revision is nullish. */
  function RevisionName(entry: Value): (r: Option<Value>)
    ensures r.Some? ==> !IsNullish(entry)
  {
    match Prop(entry, "revision")
    case None => None
    case Some(revisions) =>
      match Index0(revisions)
      case None => None
      case Some(first) => Prop(first, "name")
  }

  /** `e.name`, read only once `e.revision` has not thrown. */
  function EnvName(entry: Value): Value {
    match Prop(entry, "name")
    case Some(name) => name
    case None => Undefined
  }

  function UndeployStep(env: Env, kind: string, name: Value, entry: Value): Run {
    match RevisionName(entry)
    case None => Abort
    case Some(revision) => Issue(DeleteCall(env, UndeployEntity(kind, name, EnvName(entry), revision)))
  }

  function UndeployStepFn(env: Env, kind: string, name: Value): Value -> Run {
    entry => UndeployStep(env, kind, name, entry)
  }

  /** One shared flow or proxy: read its deployments, undeploy each environment entry, delete it. */
  function DeployableStep(env: Env, kind: string, name: Value): Run {
    var get := ListCall(env, DeploymentsEntity(kind, name));
    Then(Issue(get),
      match Prop(Body(env, get), "environment")
      case None => Abort
      case Some(environments) =>
        match Iterate(environments)
        case None => Abort
        case Some(entries) =>
          Then(Seq(entries, UndeployStepFn(env, kind, name)), Issue(DeleteCall(env, DeployableEntity(kind, name)))))
  }

  function DeployableStepFn(env: Env, kind: string): Value -> Run {
    name => DeployableStep(env, kind, name)
  }

  function SharedFlowsPass(env: Env): Run {
    var get := ListCall(env, "sharedflows");
    Then(Issue(get),
      match Iterate(Body(env, get))
      case None => Abort
      case Some(flows) => Seq(flows, DeployableStepFn(env, SharedFlowsKind)))
  }

  function ProxiesPass(env: Env): Run {
    var get := ListCall(env, "apis");
    Then(Issue(get),
      match FilterProxies(Body(env, get))
      case None => Abort
      case Some(apis) => Seq(apis, DeployableStepFn(env, ProxiesKind)))
  }

  // Portals and specs, on the bearer token

  function PortalStep(env: Env, token: Value, portal: Value): Run {
    Issue(PortalTrashCall(env, token, portal))
  }

  function PortalStepFn(env: Env, token: Value): Value -> Run {
    portal => PortalStep(env, token, portal)
  }

  /** getPortals returning `undefined` makes the `for...of` throw. */
  function PortalsPass(env: Env): Run {
    var token := AccessToken(env);
    Then(Issue(TokenCall(env)),
      Then(Issue(PortalsListCall(env, token)),
        match PortalIds(env, token)
        case None => Abort
        case Some(portals) => Seq(portals, PortalStepFn(env, token))))
  }

  function SpecStep(env: Env, token: Value, spec: Value): Run {
    Issue(SpecDeleteCall(env, token, spec))
  }

  function SpecStepFn(env: Env, token: Value): Value -> Run {
    spec => SpecStep(env, token, spec)
  }

  function SpecsPass(env: Env): Run {
    var token := AccessToken(env);
    Then(Issue(TokenCall(env)),
      Then(Issue(SpecsListCall(env, token)),
        match SpecPaths(env, token)
        case None => Abort
        case Some(specs) => Seq(specs, SpecStepFn(env, token))))
  }

  // The whole run

  function Pass(env: Env, category: Category): Run {
    match category
    case AppsAndDevelopers => AppsPass(env)
    case ApiProducts => ProductsPass(env)
    case Reports => ReportsPass(env)
    case SharedFlows => SharedFlowsPass(env)
    case ApiProxies => ProxiesPass(env)
    case Portals => PortalsPass(env)
    case Specs => SpecsPass(env)
  }

  function PassFn(env: Env): Category -> Run {
    category => Pass(env, category)
  }

  /** The prompt callback: the seven awaits, each starting only once the previous pass finished. */
  function RunAll(env: Env): Run {
    Then(Then(Then(Then(Then(Then(
      AppsPass(env),
      ProductsPass(env)),
      ReportsPass(env)),
      SharedFlowsPass(env)),
      ProxiesPass(env)),
      PortalsPass(env)),
      SpecsPass(env))
  }
}
