# Apigee organisation teardown, modelled in Dafny

`cleanup.js` empties an Apigee Edge organisation. It asks for the
organisation name, username and password. Then it runs seven category passes
one after another: developers' apps and the developers themselves, API
products, custom reports, shared flows, API proxies, portals and specs. Each
pass lists the entities over the management API and deletes them. Shared
flows and proxies are first undeployed from every environment they are
deployed in. The portal and spec passes use a bearer token from a password
grant; every other request uses Basic credentials.

The model treats the script as a **call-trace generator**:

- The remote services are an immutable oracle `map<Call, Value>` from request
  to parsed response body. A request missing from the map failed. That covers
  both a transport error and a non-2xx status, which `request-promise` rejects.
- Response bodies are JavaScript values.
  - `Json.Value` includes `undefined`.
  - The script's property reads, `[0]`, `for...of`, `.filter` and string
    concatenation are modelled as functions.
  - A TypeError is `None`.
- A piece of the script yields a `Trace.Run`: the requests it issued, in
  order, and whether it `Completed` or `Aborted`.
  - `Aborted` means a TypeError escaped. That rejects the prompt callback's
    promise, so no later pass runs.
  - `Then` models two awaited steps in a row.
  - `Seq` models a `for...of` loop.
- Module `Passes` gives each pass as a pure function of the environment. This
  is the reference.
- Class `Cleanup.Teardown` is the script itself.
  - It holds the environment (`env`) and the request log (`calls`).
  - It has one method per function of the source.
  - Each method is proved to append exactly the reference pass's requests to
    `calls` and to end the way that pass does.
- Module `Properties` proves the following over the reference:
  - the category order and where a run stops;
  - the exact requests of each pass, in order;
  - the proxy exclusion;
  - the shapes of URI and credentials;
  - that only the responses to reads steer a run, so failed deletes are
    absorbed.

Files:

| file | contents |
|---|---|
| `wrappers.dfy` | `Option` |
| `json.dfy` | JavaScript values and the operations the script applies to them |
| `requests.dfy` | the configuration, the requests as values, and the oracle |
| `trace.dfy` | runs, sequencing, loops, and generic lemmas about loops |
| `passes.dfy` | each category pass as a function (the reference) |
| `cleanup.dfy` | `Teardown`, the script as a class, proved against the reference |
| `properties.dfy` | the properties of the teardown |

The script behaves as follows, and so does the model:

- A list is never replaced by an empty list. The run stops when a list
  request fails, or when the list is nullish or is neither an array nor a
  string. For reports, deployments, specs and portals the list is the
  `qualifier`, `environment`, `contents` or `data` field of the response,
  and a nullish response stops the run as well. The proxy list must be an array, since only arrays have
  `.filter`. A list that is a string is iterated character by character, and
  the pass goes on.
- An environment entry is never skipped. The run stops when the entry, its
  `revision` field or `revision[0]` is nullish; `revision[0]` is `undefined`
  for an empty array or string, a number, a boolean, and an object without a
  `"0"` field. An entry whose first revision has no `name`, or
  whose `revision` is a non-empty string, is undeployed at
  `.../revisions/undefined/deployments`, and the run goes on.
- Extensions are not in the category order; their pass is commented out.
- The token exchange is not fatal. A failed exchange yields the token
  `undefined`, and the script sends `Bearer undefined`.
- The script has no credential redaction, no one-time-code parameter and no
  retries.

## Model

| member | source | states |
|---|---|---|
| Cleanup.Teardown.Run | cleanup.js:32-41 | the prompt callback appends exactly the requests of `RunAll` to the log and ends as it does; each pass starts only once the previous one completed |
| Properties.RunFollowsCategoryOrder | cleanup.js:32-41 | the whole run is the seven passes in the fixed order apps+developers, products, reports, shared flows, proxies, portals, specs, each finishing before the next starts |
| Properties.RunCompletesIffEveryPassCompletes | cleanup.js:32-41 | the run completes if and only if every pass completes, and then its requests are those of the seven passes concatenated in category order |
| Properties.RunStopsAtFirstAbortingPass | cleanup.js:32-41 | when pass k is the first to throw, the run is the requests of the passes before k, then those of pass k, and it is aborted; no later pass issues anything |
| Properties.NoExtensionCalls | cleanup.js:37 | no request of the run is an extension DELETE of `deleteAllExtensionsInEnv`, whatever the environment name and token |
| Properties.FailedListAbortsPass | cleanup.js:266-272 | a failed list request makes its pass throw right after that request, and after the token exchange for the bearer passes |
| Properties.FailedListStopsRun | cleanup.js:48-50 | a failed list request in pass k, after passes that completed, ends the run: their requests, then pass k's requests up to that list request |
| Properties.FailedDeveloperListStopsEverything | cleanup.js:48-50 | a failed developer list ends the run after that one GET: nothing is deleted |
| Cleanup.Teardown.DeleteAppsAndDevelopers | cleanup.js:46-60 | the developer pass appends exactly `AppsPass(env)`'s requests and ends as it does |
| Cleanup.Teardown.DeleteEachDeveloper | cleanup.js:50-59 | the developer loop appends the requests of every developer's step in list order, up to the first that throws |
| Cleanup.Teardown.DeleteDeveloper | cleanup.js:51-58 | one developer's step appends exactly `DeveloperStep`'s requests and ends as it does |
| Cleanup.Teardown.DeleteEachApp | cleanup.js:54-56 | the app loop appends one DELETE per app, in list order |
| Properties.AppsBeforeDeveloper | cleanup.js:51-58 | one developer issues its apps GET; if the list is iterable, it then issues the DELETE of every app in list order, then the single DELETE of the developer, last; otherwise it throws after the GET |
| Properties.DevelopersInOrder | cleanup.js:46-60 | the developer pass completes if and only if every developer's app list is iterable, and then it issues the list GET and each developer's requests in list order; a failed developer list aborts after its GET |
| Properties.DeveloperWithoutAppListStopsPass | cleanup.js:50-53 | the first developer whose app list is not iterable ends the pass after its apps GET: none of its apps, it, or any later developer is deleted |
| Cleanup.Teardown.DeleteAPIProducts | cleanup.js:62-70 | the product pass appends exactly `ProductsPass(env)`'s requests and ends as it does |
| Properties.ProductsInOrder | cleanup.js:62-70 | products are deleted as `apiproducts/<p>`, one per listed product, in list order, after the list GET; a non-iterable list aborts after the GET |
| Cleanup.Teardown.DeleteReports | cleanup.js:72-79 | the report pass appends exactly `ReportsPass(env)`'s requests and ends as it does |
| Cleanup.Teardown.DeleteReport | cleanup.js:76-77 | one report appends its DELETE, or throws on `report.name` without issuing anything |
| Properties.ReportsInOrder | cleanup.js:72-79 | after the list GET come the DELETEs of `reports/<r.name>` in `qualifier` order; every report deleted is non-nullish |
| Properties.ReportsStopAtNullish | cleanup.js:75-78 | the report pass completes if and only if no report is nullish, and then it has deleted them all; otherwise it stops at the first nullish report |
| Properties.ReportListMissing | cleanup.js:74-75 | without an iterable `reports.qualifier`, the pass throws after its GET |
| Cleanup.Teardown.DeleteSharedFlows | cleanup.js:81-97 | the shared-flow pass appends exactly `SharedFlowsPass(env)`'s requests and ends as it does |
| Cleanup.Teardown.DeleteAPIProxies | cleanup.js:99-117 | the proxy pass appends exactly `ProxiesPass(env)`'s requests, after the exclusion filter, and ends as it does |
| Cleanup.Teardown.DeleteEachDeployable | cleanup.js:85-96 | the loop over shared flows or proxies appends each one's step in list order, up to the first that throws |
| Cleanup.Teardown.DeleteDeployable | cleanup.js:86-95 | one shared flow or proxy appends exactly `DeployableStep`'s requests and ends as it does |
| Cleanup.Teardown.UndeployEach | cleanup.js:87-93 | the environment loop appends one undeploy per entry in entry order, up to the first entry without a readable revision |
| Cleanup.Teardown.Undeploy | cleanup.js:89-91 | one entry appends its undeploy, or throws on `e.revision[0].name` without issuing anything |
| Properties.EmptyRevisionListNotUndeployable | cleanup.js:89 | an entry whose revision list is empty or missing cannot be undeployed |
| Properties.UndeploysBeforeDelete | cleanup.js:86-95 | one deployable issues its deployments GET, one undeploy per entry in entry order, then exactly one DELETE of `<kind>/<n>`, last; an entry without a first revision throws, so the undeploys before it are issued and the DELETE is not |
| Properties.DeploymentsMissing | cleanup.js:86-87 | without an iterable `resp.environment` the step throws right after its GET, so the deployable is not deleted |
| Properties.SharedFlowListNotIterable | cleanup.js:84-85 | a shared-flow list that cannot be iterated ends the pass right after its GET |
| Properties.SharedFlowsInOrder | cleanup.js:83-96 | the shared-flow pass completes if and only if every flow's step does, and then it issues the list GET and each flow's requests in list order; the first flow whose step throws ends it |
| Properties.ProxiesInOrder | cleanup.js:101-116 | the proxy pass does the same over the listed proxies the filter keeps, in their listed order |
| Properties.ProxyListNotArray | cleanup.js:101-103 | when the proxy list is not an array, `.filter` throws and the pass ends after its GET |
| Properties.KeepNotIgnoredExactly | cleanup.js:102-103 | the filter keeps exactly the listed elements that are not one of the three ignored names, and never more elements than were listed |
| Properties.KeepNotIgnoredAppend | cleanup.js:103 | the filter keeps order: filtering a concatenation concatenates the filtered parts |
| Properties.KeepNotIgnoredIdempotent | cleanup.js:103 | filtering twice is filtering once |
| Properties.IgnoredNamesDropped | cleanup.js:102-103 | for every proxy list, none of `oauth`, `helloworld` and `apigee-test_bundle` survives the filter, and a list made only of those names is filtered to nothing |
| Properties.IgnoredProxyUntouched | cleanup.js:101-116 | an ignored proxy never gets a deployments GET or a DELETE, when the proxy list holds only names |
| Properties.DeployableAvoids | cleanup.js:106-115 | a proxy other than `n` issues neither the deployments GET nor the DELETE of `n` |
| Properties.DifferentEntities | cleanup.js:260 | two management requests to different entity paths are different requests |
| Cleanup.Teardown.DeleteSpecs | cleanup.js:119-127 | the spec pass appends exactly `SpecsPass(env)`'s requests, token exchange first, and ends as it does |
| Properties.SpecsInOrder | cleanup.js:119-127 | the spec pass issues the token exchange, then the listing GET, then the DELETE of `https://api.enterprise.apigee.com/v1<self>` for every content in response order; every bearer header carries the exchanged token |
| Properties.SpecListMissing | cleanup.js:122-124 | when getSpecs returns `undefined`, the loop throws after the listing GET |
| Cleanup.Teardown.DeleteAPIPortals | cleanup.js:129-137 | the portal pass appends exactly `PortalsPass(env)`'s requests, token exchange first, and ends as it does |
| Properties.PortalsInOrder | cleanup.js:129-137 | the portal pass issues the token exchange, then the listing GET, then a POST to `https://apigee.com/portals/api/sites/<id>/trash` for every portal in response order |
| Properties.PortalListMissing | cleanup.js:132-134 | when getPortals returns `undefined`, the loop throws after the listing GET |
| Cleanup.Teardown.GetSpecs | cleanup.js:148-170 | issues the listing GET with the bearer token and returns the `self` of every content, or `None` when anything in the try block throws |
| Cleanup.Teardown.GetPortals | cleanup.js:172-194 | issues the portal-site GET and returns the `id` of every site, or `None` when anything in the try block throws |
| Cleanup.Teardown.CollectFrom | cleanup.js:158-169 | the try block of getSpecs and getPortals computes `CollectIds` |
| Passes.CollectIds | cleanup.js:158-169 | the ids exist if and only if the request succeeded, its list field can be read and iterated, and no item is nullish; then there is one id per item, in order, each being that item's field |
| Cleanup.Collect | cleanup.js:161-165 | the push loop returns one `content[field]` per content, in order, and fails if and only if some content is nullish |
| Passes.Pluck | cleanup.js:161-165 | pure reference of the push loop, stated the same way |
| Cleanup.Teardown.DeleteSpec | cleanup.js:196-214 | appends the DELETE at the API base followed by the spec's path, with the bearer headers |
| Cleanup.Teardown.DeletePortal | cleanup.js:234-252 | appends the trash POST for the portal, with the bearer headers |
| Cleanup.Teardown.GetEntities | cleanup.js:255-273 | appends the GET of `mgmtURL/<org>/<entity>` with Basic credentials and returns its body, or `undefined` when it failed |
| Cleanup.Teardown.DeleteEntities | cleanup.js:275-293 | appends the DELETE of `mgmtURL/<org>/<entity>` with Basic credentials and returns its body, or `undefined` when it failed |
| Cleanup.Teardown.Send | cleanup.js:267 | `rp(options)` appends its request to the log and yields the oracle's answer |
| Cleanup.Teardown.GetAccessToken | cleanup.js:295-317 | appends the password-grant POST and returns `parsedBody.access_token`, or `undefined` when the exchange failed or its body is nullish |
| Properties.MgmtCallsAuthorized | cleanup.js:257-262 | every list and delete request goes below `mgmtURL/<org>/` with the header `Basic base64(username:password)` |
| Properties.UndeployUriDoubleSlash | cleanup.js:91 | every undeploy URI starts with `mgmtURL/<org>//environments/`, with the slash doubled |
| Properties.BearerCallsAuthorized | cleanup.js:149-155 | the spec and portal requests carry the exchanged token and `X-Org-Name`, and go under the API base or the portal site URL |
| Properties.PassAuthorized | cleanup.js:46-137 | every request of every pass is the token exchange, a Basic management request to the organisation, or a bearer request that names the organisation |
| Properties.EveryCallAuthorized | cleanup.js:32-41 | every request of the whole run has one of those three shapes |
| Properties.SameToken | cleanup.js:295-317 | environments that agree on every read get the same token |
| Properties.OnlyReadResponsesMatter | cleanup.js:286-292 | two organisations that answer every GET and the token exchange alike give the same run, whatever they answer to DELETEs and trash POSTs |
| Properties.FailedWritesAbsorbed | cleanup.js:286-292 | when every DELETE and every trash POST fails, the run issues the same requests and ends the same way, so a failed delete never stops a later deployments GET or DELETE |
| Properties.PassSameReads | cleanup.js:46-137 | each pass is the same on two organisations that answer every read alike |
| Json.DecimalRoundTrip | cleanup.js:91 | the decimal digits written for a number denote that number |
| Trace.SeqCompletes | cleanup.js:50-59 | a loop completes if and only if each of its steps does, and then it issues every step's requests in list order |
| Trace.SeqStopsAtFirstAbort | cleanup.js:50-59 | a loop whose step k is the first to throw issues the requests of the steps before k, then step k's, and nothing more |
| Trace.SeqAbortedPrefix | cleanup.js:50-59 | once a loop has thrown, the rest of its list makes no difference |
| Trace.SeqOfGuardedSingles | cleanup.js:75-78 | a loop of guarded single requests issues them for the longest guarded prefix, and throws exactly at the first element whose guard fails |
| Trace.SeqCongruent | cleanup.js:50-59 | two loop bodies that agree on every element give the same run |
| Trace.SeqCallsIn | cleanup.js:50-59 | every request of a loop is a request of one of its steps |

## Definitions

These members define how the script computes a value. Their contracts only
spell out their own cases, so they have no row above; the properties about
them are in the table.

- Json.Prop (cleanup.js:74-76, 160, 311): property access. It throws on `undefined` and `null`, and gives `undefined` for a missing field.
- Json.Index0 (cleanup.js:89, 109): `[0]`, which throws on a nullish value.
- Passes.RevisionName (cleanup.js:89, 109): `e.revision[0].name`, which throws when the entry, its revision list or its first revision is nullish.
- Passes.EnvName (cleanup.js:91, 111): `e.name` of an environment entry.
- Json.Iterate (cleanup.js:50, 54, 75, 87, 107): the values a `for...of` visits. Only arrays and strings can be iterated.
- Json.ToStr (cleanup.js:91, 111, 153, 200, 238, 260): the string conversion of `+`.
  - An array is joined with commas, and its nullish elements print as the empty string.
  - An object prints as `[object Object]`.
  - An integer prints as its decimal digits (see "## Left out" for large magnitudes).
- Requests.MgmtUri (cleanup.js:260, 280): `mgmtURL + "/" + org + "/" + entity`.
- Requests.BasicHeaders (cleanup.js:257, 262, 277, 282): `Basic ` followed by base64 of `username:password`.
- Requests.BearerHeaders (cleanup.js:153-154, 177-178, 202-203, 240-241): `Bearer ` followed by the token, plus `X-Org-Name`.
- Requests.ListCall (cleanup.js:255-263): the GET of `getEntities`.
- Requests.DeleteCall (cleanup.js:275-283): the DELETE of `deleteEntities`.
- Requests.SpecDeleteCall (cleanup.js:198-204): the DELETE of `deleteSpec`.
- Requests.PortalTrashCall (cleanup.js:236-242): the POST of `deletePortal`.
- Requests.SpecsListCall (cleanup.js:149-157): the GET of `getSpecs`.
- Requests.PortalsListCall (cleanup.js:173-181): the GET of `getPortals`, with the organisation in the query.
- Requests.TokenForm (cleanup.js:300-306): the password-grant form with the fixed client id and secret.
- Requests.TokenCall (cleanup.js:297-308): the POST of `getAccessToken` to the OAuth endpoint.
- Passes.AppsEntity (cleanup.js:52): `developers/<d>/apps`.
- Passes.AppEntity (cleanup.js:55): `developers/<d>/apps/<a>`.
- Passes.DeveloperEntity (cleanup.js:58): `developers/<d>`.
- Passes.ProductEntity (cleanup.js:68): `apiproducts/<p>`.
- Passes.ReportEntity (cleanup.js:77): `reports/<r.name>`.
- Passes.DeploymentsEntity (cleanup.js:86, 106): `<kind>/<n>/deployments`.
- Passes.DeployableEntity (cleanup.js:95, 115): `<kind>/<n>`.
- Passes.Ignored (cleanup.js:102-103): `ignoreAPIs.includes(item)`, true only for a string equal to one of the three names.
- Passes.KeepNotIgnored (cleanup.js:103): the elements the filter keeps, in order.
- Passes.SpecPaths (cleanup.js:148-170): what `getSpecs` returns.
- Passes.PortalIds (cleanup.js:172-194): what `getPortals` returns.
- Requests.Body (cleanup.js:264-272): the parsed body of a request, or `undefined` when it failed.
- Requests.AccessToken (cleanup.js:307-316): `parsedBody.access_token` of the token exchange, or `undefined`.
- Passes.UndeployEntity (cleanup.js:91, 111): the undeploy path `/environments/<e.name>/<kind>/<n>/revisions/<rev>/deployments`.
- Passes.FilterProxies (cleanup.js:103): `apis.filter(...)`, which throws unless `apis` is an array.

## Left out

- The interactive prompt and the coloured output (cleanup.js:1-30) are UI. The prompt's answers are the `Config` inside `Env`.
- The HTTP transport, JSON parsing and all console logging are not modelled. A request either has a parsed body in the oracle or failed.
- `Buffer.from(...).toString('base64')` is a library call. It is the function-valued `base64` field of `Env`, and nothing is assumed about it.
- Requests are modelled by their verb, URI and headers. The form of the token exchange is modelled too. The `json: true` option and the transport's own headers are not.
- The oracle is immutable. Both token exchanges, in the portal pass and in the spec pass, therefore get the same answer. A server whose answers change during the run (a list that shrinks as entities are deleted) is not modelled.
- `deleteExtensions` and `deleteAllExtensionsInEnv` (cleanup.js:139-146, 216-232) are never called, because their caller at line 37 is commented out. Only the shape of their DELETE is modelled, so that `NoExtensionCalls` can state its absence. Line 140 reads an undeclared global `env`, which would throw if it were ever called.
- Numbers are integers. Floating-point numbers and their string forms are not modelled.
- Json.ToStr: an integer is always written in decimal digits. JavaScript writes integers of magnitude 10^21 or more in exponent form (`1e+21`); that form is not modelled.
- Json.Index0: on a string it takes the first character (a Unicode scalar value). JavaScript's `s[0]` takes the first UTF-16 code unit, which differs for characters outside the Basic Multilingual Plane.
- An object is converted to a string as `[object Object]`. A response object whose own `toString` or `Symbol.toPrimitive` would change that is not modelled. Property access reads only an object's own fields; the names the script reads are not defined on any built-in prototype.
- async/await is modelled as plain sequencing, because the script awaits every call before the next. The implicit globals of the loops (`developer`, `app`, `e` and others) are modelled as locals. Nothing else reads them.
- Properties.IgnoredProxyUntouched: it requires every element of the proxy list to be a string. It states that the ignored proxy gets no deployments GET and no DELETE. It does not state this for undeploys, because an undeploy path can spell the same URI as another request when an environment name contains slashes.
- Generic proof steps, and lemmas that only unfold one step of a pass into a loop shape for other proofs, have no row, since they are not properties of the script: Properties.ReportStepGuarded, Properties.ReportsAsGuardedLoop, Properties.ReportsPassIsLoop, Properties.UndeployStepGuarded, Properties.UndeploysAsGuardedLoop, Properties.DeployableStepIsLoop, Properties.PortalsLoopAuthorized, Properties.SpecsLoopAuthorized, the per-pass cases of PassAuthorized (Properties.DeveloperStepAuthorized, Properties.DeployableStepAuthorized, Properties.AppsPassAuthorized, Properties.ProductsPassAuthorized, Properties.ReportsPassAuthorized, Properties.SharedFlowsPassAuthorized, Properties.ProxiesPassAuthorized, Properties.PortalsPassAuthorized, Properties.SpecsPassAuthorized), the per-pass cases of PassSameReads (Properties.DeveloperStepSameReads, Properties.DeployableStepSameReads, Properties.AppsPassSameReads, Properties.ProductsPassSameReads, Properties.ReportsPassSameReads, Properties.SharedFlowsPassSameReads, Properties.ProxiesPassSameReads, Properties.PortalsPassSameReads, Properties.SpecsPassSameReads), Trace.SeqOfSeven, Trace.ChainStep, Trace.Prefixed, Trace.Framed, Trace.ListThenLoop, Trace.ListThenLoopStops, Trace.ListThenSingles, Trace.ListThenSinglesThenLast, Trace.ListThenGuardedSingles, Trace.ListThenGuardedSinglesThenLast, Trace.ThenCallsIn, Properties.KeepNotIgnoredCons, Trace.SeqOfSingles, Trace.LoopStep, Trace.ThenStep, Trace.SeqSnoc, Trace.AllCallsSnoc, Properties.Infix, Properties.PrefixOfConcat, Properties.PrefixOfConcat3, Properties.SlashJoin and Properties.UndeployEntityStart.
