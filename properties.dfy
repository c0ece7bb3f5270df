/**
 * What the teardown does, stated over the runs of module Passes (and so,
 * through the contracts of Cleanup.Teardown, over the requests the script
 * issues): the order of the category passes, where a pass stops, the exact
 * requests each pass issues and in which order, and which responses have
 * any effect at all.
 */
module Properties {
  import opened Wrappers
  import opened Json
  import opened Requests
  import opened Trace
  import opened Passes

  // The category passes

  /** The seven awaits are the category loop `for (c of CategoryOrder) await Pass(c)`. */
  lemma {:induction false} RunFollowsCategoryOrder(env: Env)
    ensures RunAll(env) == Seq(CategoryOrder, PassFn(env))
  {
    SeqOfSeven(CategoryOrder, PassFn(env), AppsPass(env), ProductsPass(env), ReportsPass(env),
      SharedFlowsPass(env), ProxiesPass(env), PortalsPass(env), SpecsPass(env));
  }

  /**
   * The run finishes exactly when every pass does, and then it has issued the
   * requests of the seven passes one after another, in category order.
   */
  lemma {:induction false} RunCompletesIffEveryPassCompletes(env: Env)
    ensures RunAll(env).outcome == Completed <==>
      forall i :: 0 <= i < |CategoryOrder| ==> Pass(env, CategoryOrder[i]).outcome == Completed
    ensures RunAll(env).outcome == Completed ==> RunAll(env).calls == AllCalls(CategoryOrder, PassFn(env))
  {
    RunFollowsCategoryOrder(env);
    SeqCompletes(CategoryOrder, PassFn(env));
  }

  /**
   * The first pass that throws ends the run: the requests of the passes
   * before it, then its own, and no request of any later pass.
   */
  lemma {:induction false} RunStopsAtFirstAbortingPass(env: Env, k: nat)
    requires k < |CategoryOrder|
    requires forall i :: 0 <= i < k ==> Pass(env, CategoryOrder[i]).outcome == Completed
    requires Pass(env, CategoryOrder[k]).outcome == Aborted
    ensures RunAll(env) ==
      Run(AllCalls(CategoryOrder[..k], PassFn(env)) + Pass(env, CategoryOrder[k]).calls, Aborted)
  {
    RunFollowsCategoryOrder(env);
    assert AllComplete(CategoryOrder[..k], PassFn(env)) by {
      forall i | 0 <= i < k ensures PassFn(env)(CategoryOrder[..k][i]).outcome == Completed {
        assert CategoryOrder[..k][i] == CategoryOrder[i];
      }
    }
    SeqStopsAtFirstAbort(CategoryOrder, k, PassFn(env));
  }

  /** What a pass issues before its list GET: the token exchange, for the two passes on the bearer token. */
  function Preamble(env: Env, category: Category): seq<Call> {
    if category == Portals || category == Specs then [TokenCall(env)] else []
  }

  /** The list GET of each pass. */
  function ListRequest(env: Env, category: Category): Call {
    match category
    case AppsAndDevelopers => ListCall(env, "developers")
    case ApiProducts => ListCall(env, "apiproducts")
    case Reports => ListCall(env, "reports")
    case SharedFlows => ListCall(env, SharedFlowsKind)
    case ApiProxies => ListCall(env, ProxiesKind)
    case Portals => PortalsListCall(env, AccessToken(env))
    case Specs => SpecsListCall(env, AccessToken(env))
  }

  /**
   * A failed list request is not absorbed: the catch block yields
   * `undefined`, the pass throws right after that request.
   */
  lemma FailedListAbortsPass(env: Env, category: Category)
    requires ListRequest(env, category) !in env.responses
    ensures Pass(env, category) == Run(Preamble(env, category) + [ListRequest(env, category)], Aborted)
  {
    match category
    case AppsAndDevelopers =>
    case ApiProducts =>
    case Reports =>
    case SharedFlows =>
    case ApiProxies =>
    case Portals =>
    case Specs =>
  }

  /**
   * So a failed list request of pass `k`, after passes that finished, ends
   * the whole run with that request.
   */
  lemma {:induction false} FailedListStopsRun(env: Env, k: nat)
    requires k < |CategoryOrder|
    requires forall i :: 0 <= i < k ==> Pass(env, CategoryOrder[i]).outcome == Completed
    requires ListRequest(env, CategoryOrder[k]) !in env.responses
    ensures RunAll(env) ==
      Run(AllCalls(CategoryOrder[..k], PassFn(env)) + Preamble(env, CategoryOrder[k]) + [ListRequest(env, CategoryOrder[k])], Aborted)
  {
    FailedListAbortsPass(env, CategoryOrder[k]);
    RunStopsAtFirstAbortingPass(env, k);
  }

  /** In particular a failed developer list leaves the organisation untouched. */
  lemma {:induction false} FailedDeveloperListStopsEverything(env: Env)
    requires ListCall(env, "developers") !in env.responses
    ensures RunAll(env) == Run([ListCall(env, "developers")], Aborted)
  {
    FailedListStopsRun(env, 0);
    assert CategoryOrder[..0] == [];
  }

  // Developers and their apps

  /**
   * One developer: the GET of its apps; then, when that list is iterable,
   * the DELETE of every app in list order and the DELETE of the developer,
   * last; otherwise the pass throws after the GET.
   */
  lemma {:induction false} AppsBeforeDeveloper(env: Env, developer: Value)
    ensures
      var get := ListCall(env, AppsEntity(developer));
      var r := DeveloperStep(env, developer);
      match Iterate(Body(env, get))
      case None => r == Run([get], Aborted)
      case Some(apps) =>
        && r.outcome == Completed
        && |r.calls| == |apps| + 2
        && r.calls[0] == get
        && (forall j :: 0 <= j < |apps| ==> r.calls[j + 1] == DeleteCall(env, AppEntity(developer, apps[j])))
        && r.calls[|apps| + 1] == DeleteCall(env, DeveloperEntity(developer))
  {
    var get := ListCall(env, AppsEntity(developer));
    match Iterate(Body(env, get))
    case None =>
    case Some(apps) =>
      var del := DeleteCall(env, DeveloperEntity(developer));
      ListThenSinglesThenLast(get, apps, AppStepFn(env, developer), a => DeleteCall(env, AppEntity(developer, a)), del);
      assert DeveloperStep(env, developer) == Then(Issue(get), Then(Seq(apps, AppStepFn(env, developer)), Issue(del)));
  }

  /** The developers' list, and the condition under which a developer's step finishes. */
  predicate HasAppList(env: Env, developer: Value) {
    Iterate(Body(env, ListCall(env, AppsEntity(developer)))).Some?
  }

  /**
   * The apps pass visits the developers in list order; it finishes exactly
   * when every developer's app list is iterable, having issued the list GET
   * and then each developer's requests in turn.
   */
  lemma {:induction false} DevelopersInOrder(env: Env)
    ensures
      var get := ListCall(env, "developers");
      var r := AppsPass(env);
      match Iterate(Body(env, get))
      case None => r == Run([get], Aborted)
      case Some(developers) =>
        && (r.outcome == Completed <==> forall i :: 0 <= i < |developers| ==> HasAppList(env, developers[i]))
        && (r.outcome == Completed ==> r.calls == [get] + AllCalls(developers, DeveloperStepFn(env)))
  {
    var get := ListCall(env, "developers");
    match Iterate(Body(env, get))
    case None =>
    case Some(developers) =>
      SeqCompletes(developers, DeveloperStepFn(env));
      forall i | 0 <= i < |developers|
        ensures DeveloperStepFn(env)(developers[i]).outcome == Completed <==> HasAppList(env, developers[i])
      {
        AppsBeforeDeveloper(env, developers[i]);
      }
  }

  /**
   * The first developer whose app list is not iterable ends the pass (and
   * the run) right after the GET of that list: its apps and it are never
   * deleted, nor is any later developer touched.
   */
  lemma {:induction false} DeveloperWithoutAppListStopsPass(env: Env, developers: seq<Value>, k: nat)
    requires Iterate(Body(env, ListCall(env, "developers"))) == Some(developers)
    requires k < |developers|
    requires forall i :: 0 <= i < k ==> HasAppList(env, developers[i])
    requires !HasAppList(env, developers[k])
    ensures AppsPass(env) ==
      Run([ListCall(env, "developers")] + AllCalls(developers[..k], DeveloperStepFn(env))
          + [ListCall(env, AppsEntity(developers[k]))], Aborted)
  {
    var f := DeveloperStepFn(env);
    forall i | 0 <= i < k ensures f(developers[..k][i]).outcome == Completed {
      assert developers[..k][i] == developers[i];
      AppsBeforeDeveloper(env, developers[i]);
    }
    AppsBeforeDeveloper(env, developers[k]);
    SeqStopsAtFirstAbort(developers, k, f);
  }

  // API products

  /** Products are deleted as `apiproducts/<p>`, in list order, after the list GET. */
  lemma {:induction false} ProductsInOrder(env: Env)
    ensures
      var get := ListCall(env, "apiproducts");
      var r := ProductsPass(env);
      match Iterate(Body(env, get))
      case None => r == Run([get], Aborted)
      case Some(products) =>
        && r.outcome == Completed
        && |r.calls| == |products| + 1
        && r.calls[0] == get
        && forall j :: 0 <= j < |products| ==> r.calls[j + 1] == DeleteCall(env, ProductEntity(products[j]))
  {
    var get := ListCall(env, "apiproducts");
    match Iterate(Body(env, get))
    case None =>
    case Some(products) =>
      ListThenSingles(get, products, ProductStepFn(env), p => DeleteCall(env, ProductEntity(p)));
      assert ProductsPass(env) == Then(Issue(get), Seq(products, ProductStepFn(env)));
  }

  // Custom reports

  /** `reports.qualifier`, iterated. */
  function ReportList(env: Env): Option<seq<Value>> {
    match Prop(Body(env, ListCall(env, "reports")), "qualifier")
    case None => None
    case Some(qualifier) => Iterate(qualifier)
  }

  /** `report.name` of a report on which it does not throw. */
  function ReportName(report: Value): Value {
    match Prop(report, "name")
    case Some(name) => name
    case None => Undefined
  }

  /** One report: its DELETE, unless `report.name` throws. */
  lemma ReportStepGuarded(env: Env, report: Value)
    ensures ReportStep(env, report) ==
      if !IsNullish(report) then Issue(DeleteCall(env, ReportEntity(ReportName(report)))) else Abort
  {
  }

  /** The report loop as the generic guarded loop: one DELETE per report, unless `report.name` throws. */
  lemma {:induction false} ReportsAsGuardedLoop(env: Env, reports: seq<Value>)
    ensures forall i :: 0 <= i < |reports| ==>
      ReportStepFn(env)(reports[i]) ==
        if ReportOk(reports[i]) then Issue(ReportDelete(env)(reports[i])) else Abort
  {
    forall i | 0 <= i < |reports|
      ensures ReportStepFn(env)(reports[i]) ==
        if ReportOk(reports[i]) then Issue(ReportDelete(env)(reports[i])) else Abort
    {
      ReportStepGuarded(env, reports[i]);
    }
  }

  /** A report on which `report.name` does not throw. */
  predicate ReportOk(report: Value) {
    !IsNullish(report)
  }

  /** The DELETE of one report. */
  function ReportDelete(env: Env): Value -> Call {
    report => DeleteCall(env, ReportEntity(ReportName(report)))
  }

  /**
   * Reports are deleted as `reports/<r.name>`, in `qualifier` order, after
   * the list GET, up to the first nullish report.
   */
  lemma {:induction false} ReportsInOrder(env: Env, reports: seq<Value>)
    requires ReportList(env) == Some(reports)
    ensures
      var r := ReportsPass(env);
      var n := |r.calls| - 1;
      && |r.calls| >= 1
      && r.calls[0] == ListCall(env, "reports")
      && n <= |reports|
      && forall j :: 0 <= j < n ==>
           ReportOk(reports[j]) && r.calls[j + 1] == DeleteCall(env, ReportEntity(ReportName(reports[j])))
  {
    ReportsAsGuardedLoop(env, reports);
    ReportsPassIsLoop(env, reports);
    ListThenGuardedSingles(ListCall(env, "reports"), reports, ReportStepFn(env), ReportOk, ReportDelete(env), ReportsPass(env));
  }

  /**
   * The report pass finishes exactly when no report is nullish, having
   * deleted them all; otherwise `report.name` throws on the first nullish
   * report, right after the DELETEs of the reports before it.
   */
  lemma {:induction false} ReportsStopAtNullish(env: Env, reports: seq<Value>)
    requires ReportList(env) == Some(reports)
    ensures
      var r := ReportsPass(env);
      var n := |r.calls| - 1;
      && (r.outcome == Completed <==> forall j :: 0 <= j < |reports| ==> ReportOk(reports[j]))
      && (r.outcome == Completed ==> n == |reports|)
      && (r.outcome == Aborted ==> 0 <= n < |reports| && !ReportOk(reports[n]))
  {
    ReportsAsGuardedLoop(env, reports);
    ReportsPassIsLoop(env, reports);
    ListThenGuardedSingles(ListCall(env, "reports"), reports, ReportStepFn(env), ReportOk, ReportDelete(env), ReportsPass(env));
  }

  lemma ReportsPassIsLoop(env: Env, reports: seq<Value>)
    requires ReportList(env) == Some(reports)
    ensures ReportsPass(env) == Then(Issue(ListCall(env, "reports")), Seq(reports, ReportStepFn(env)))
  {
  }

  /** Without an iterable `qualifier` the pass throws right after its GET. */
  lemma ReportListMissing(env: Env)
    requires ReportList(env).None?
    ensures ReportsPass(env) == Run([ListCall(env, "reports")], Aborted)
  {
  }

  // Shared flows and API proxies

  /** `resp.environment` of a deployable's deployments, iterated. */
  function Entries(env: Env, kind: string, name: Value): Option<seq<Value>> {
    match Prop(Body(env, ListCall(env, DeploymentsEntity(kind, name))), "environment")
    case None => None
    case Some(environments) => Iterate(environments)
  }

  /** An environment entry whose `revision[0].name` can be read. */
  predicate Undeployable(entry: Value) {
    RevisionName(entry).Some?
  }

  /** The undeploy an environment entry gets: its name and its first revision's name. */
  function UndeployCall(env: Env, kind: string, name: Value, entry: Value): Call {
    var revision := match RevisionName(entry) case Some(r) => r case None => Undefined;
    DeleteCall(env, UndeployEntity(kind, name, EnvName(entry), revision))
  }

  /**
   * An entry whose revision list is empty, or missing, cannot be undeployed:
   * `e.revision[0]` is `undefined` and reading its `name` throws.
   */
  lemma EmptyRevisionListNotUndeployable(entry: Value)
    requires entry.Obj?
    requires "revision" in entry.fields ==> entry.fields["revision"] == Arr([])
    ensures !Undeployable(entry)
  {
  }

  /** One environment entry: its undeploy, unless reading its first revision throws. */
  lemma UndeployStepGuarded(env: Env, kind: string, name: Value, entry: Value)
    ensures UndeployStep(env, kind, name, entry) ==
      if Undeployable(entry) then Issue(UndeployCall(env, kind, name, entry)) else Abort
  {
  }

  /** The environment loop as the generic guarded loop: one undeploy per entry, unless its revision cannot be read. */
  lemma {:induction false} UndeploysAsGuardedLoop(env: Env, kind: string, name: Value, entries: seq<Value>)
    ensures forall i :: 0 <= i < |entries| ==>
      UndeployStepFn(env, kind, name)(entries[i]) ==
        if Undeployable(entries[i]) then Issue(UndeployCall(env, kind, name, entries[i])) else Abort
  {
    forall i | 0 <= i < |entries|
      ensures UndeployStepFn(env, kind, name)(entries[i]) ==
        if Undeployable(entries[i]) then Issue(UndeployCall(env, kind, name, entries[i])) else Abort
    {
      UndeployStepGuarded(env, kind, name, entries[i]);
    }
  }

  /** With an iterable `environment`, one deployable is its GET, the environment loop, then its DELETE. */
  lemma DeployableStepIsLoop(env: Env, kind: string, name: Value, entries: seq<Value>)
    requires Entries(env, kind, name) == Some(entries)
    ensures DeployableStep(env, kind, name) ==
      Then(Issue(ListCall(env, DeploymentsEntity(kind, name))),
        Then(Seq(entries, UndeployStepFn(env, kind, name)), Issue(DeleteCall(env, DeployableEntity(kind, name)))))
  {
  }

  /**
   * One shared flow or proxy: the GET of its deployments, one undeploy per
   * environment entry in entry order, then the single DELETE of the
   * deployable, last.  An entry without a first revision throws: the
   * undeploys before it are issued and the DELETE is not.
   */
  lemma {:induction false} UndeploysBeforeDelete(env: Env, kind: string, name: Value, entries: seq<Value>)
    requires Entries(env, kind, name) == Some(entries)
    ensures
      var r := DeployableStep(env, kind, name);
      && |r.calls| >= 1
      && r.calls[0] == ListCall(env, DeploymentsEntity(kind, name))
      && (r.outcome == Completed <==> forall j :: 0 <= j < |entries| ==> Undeployable(entries[j]))
      && (r.outcome == Completed ==>
            && |r.calls| == |entries| + 2
            && (forall j :: 0 <= j < |entries| ==> r.calls[j + 1] == UndeployCall(env, kind, name, entries[j]))
            && r.calls[|entries| + 1] == DeleteCall(env, DeployableEntity(kind, name)))
      && (r.outcome == Aborted ==>
            var n := |r.calls| - 1;
            && n < |entries|
            && !Undeployable(entries[n])
            && forall j :: 0 <= j < n ==>
                 Undeployable(entries[j]) && r.calls[j + 1] == UndeployCall(env, kind, name, entries[j]))
  {
    UndeploysAsGuardedLoop(env, kind, name, entries);
    DeployableStepIsLoop(env, kind, name, entries);
    ListThenGuardedSinglesThenLast(ListCall(env, DeploymentsEntity(kind, name)), entries, UndeployStepFn(env, kind, name),
      Undeployable, e => UndeployCall(env, kind, name, e), DeleteCall(env, DeployableEntity(kind, name)),
      DeployableStep(env, kind, name));
  }

  /** Without an iterable `environment` the step throws right after its GET, and nothing is deleted. */
  lemma DeploymentsMissing(env: Env, kind: string, name: Value)
    requires Entries(env, kind, name).None?
    ensures DeployableStep(env, kind, name) == Run([ListCall(env, DeploymentsEntity(kind, name))], Aborted)
  {
  }

  /**
   * The shared-flow pass visits the listed flows in order: it finishes
   * exactly when every flow's step does, having issued the list GET and then
   * each flow's requests in turn; the first flow whose step throws ends it.
   */
  lemma {:induction false} SharedFlowsInOrder(env: Env, flows: seq<Value>)
    requires Iterate(Body(env, ListCall(env, SharedFlowsKind))) == Some(flows)
    ensures SharedFlowsPass(env).outcome == Completed <==> AllComplete(flows, DeployableStepFn(env, SharedFlowsKind))
    ensures AllComplete(flows, DeployableStepFn(env, SharedFlowsKind)) ==>
      SharedFlowsPass(env).calls == [ListCall(env, SharedFlowsKind)] + AllCalls(flows, DeployableStepFn(env, SharedFlowsKind))
    ensures forall k ::
      (0 <= k < |flows| && AllComplete(flows[..k], DeployableStepFn(env, SharedFlowsKind))
       && DeployableStep(env, SharedFlowsKind, flows[k]).outcome == Aborted) ==>
      SharedFlowsPass(env) ==
        Run([ListCall(env, SharedFlowsKind)] + AllCalls(flows[..k], DeployableStepFn(env, SharedFlowsKind))
            + DeployableStep(env, SharedFlowsKind, flows[k]).calls, Aborted)
  {
    var get := ListCall(env, SharedFlowsKind);
    var f := DeployableStepFn(env, SharedFlowsKind);
    assert SharedFlowsPass(env) == Then(Issue(get), Seq(flows, f));
    ListThenLoop(get, flows, f);
    forall k | 0 <= k < |flows| && AllComplete(flows[..k], f) && DeployableStep(env, SharedFlowsKind, flows[k]).outcome == Aborted
      ensures SharedFlowsPass(env) == Run([get] + AllCalls(flows[..k], f) + DeployableStep(env, SharedFlowsKind, flows[k]).calls, Aborted)
    {
      ListThenLoopStops(get, flows, f, k);
    }
  }

  /** A shared-flow list that cannot be iterated makes the `for...of` throw right after its GET. */
  lemma SharedFlowListNotIterable(env: Env)
    requires Iterate(Body(env, ListCall(env, SharedFlowsKind))).None?
    ensures SharedFlowsPass(env) == Run([ListCall(env, SharedFlowsKind)], Aborted)
  {
  }

  /**
   * The proxy pass does the same over the listed proxies that are not
   * ignored, in their listed order.
   */
  lemma {:induction false} ProxiesInOrder(env: Env, listed: seq<Value>)
    requires Body(env, ListCall(env, ProxiesKind)) == Arr(listed)
    ensures var apis := KeepNotIgnored(listed);
      && (ProxiesPass(env).outcome == Completed <==> AllComplete(apis, DeployableStepFn(env, ProxiesKind)))
      && (AllComplete(apis, DeployableStepFn(env, ProxiesKind)) ==>
            ProxiesPass(env).calls == [ListCall(env, ProxiesKind)] + AllCalls(apis, DeployableStepFn(env, ProxiesKind)))
      && forall k ::
           (0 <= k < |apis| && AllComplete(apis[..k], DeployableStepFn(env, ProxiesKind))
            && DeployableStep(env, ProxiesKind, apis[k]).outcome == Aborted) ==>
           ProxiesPass(env) ==
             Run([ListCall(env, ProxiesKind)] + AllCalls(apis[..k], DeployableStepFn(env, ProxiesKind))
                 + DeployableStep(env, ProxiesKind, apis[k]).calls, Aborted)
  {
    var get := ListCall(env, ProxiesKind);
    var f := DeployableStepFn(env, ProxiesKind);
    var apis := KeepNotIgnored(listed);
    assert ProxiesPass(env) == Then(Issue(get), Seq(apis, f));
    ListThenLoop(get, apis, f);
    forall k | 0 <= k < |apis| && AllComplete(apis[..k], f) && DeployableStep(env, ProxiesKind, apis[k]).outcome == Aborted
      ensures ProxiesPass(env) == Run([get] + AllCalls(apis[..k], f) + DeployableStep(env, ProxiesKind, apis[k]).calls, Aborted)
    {
      ListThenLoopStops(get, apis, f, k);
    }
  }

  /** `.filter` on anything but an array throws: the pass ends after its GET. */
  lemma ProxyListNotArray(env: Env)
    requires !Body(env, ListCall(env, ProxiesKind)).Arr?
    ensures ProxiesPass(env) == Run([ListCall(env, ProxiesKind)], Aborted)
  {
  }

  // The proxy exclusion

  /**
   * The filter keeps exactly the listed elements that are not one of the
   * ignored names, and never more elements than were listed.
   */
  lemma {:induction false} KeepNotIgnoredExactly(names: seq<Value>)
    ensures forall x :: x in KeepNotIgnored(names) <==> x in names && !Ignored(x)
    ensures |KeepNotIgnored(names)| <= |names|
    decreases |names|
  {
    if |names| > 0 {
      KeepNotIgnoredExactly(names[1..]);
      assert names == [names[0]] + names[1..];
    }
  }

  /** The filter keeps order: filtering a concatenation is concatenating the filtered parts. */
  lemma {:induction false} KeepNotIgnoredAppend(a: seq<Value>, b: seq<Value>)
    ensures KeepNotIgnored(a + b) == KeepNotIgnored(a) + KeepNotIgnored(b)
    decreases |a|
  {
    if |a| == 0 {
      assert a + b == b;
    } else {
      var t := a[1..];
      assert a == [a[0]] + t;
      assert a + b == [a[0]] + (t + b);
      KeepNotIgnoredCons(a[0], t + b);
      KeepNotIgnoredCons(a[0], t);
      KeepNotIgnoredAppend(t, b);
    }
  }

  lemma KeepNotIgnoredCons(x: Value, rest: seq<Value>)
    ensures KeepNotIgnored([x] + rest) == (if Ignored(x) then [] else [x]) + KeepNotIgnored(rest)
  {
    assert ([x] + rest)[1..] == rest;
  }

  /** Filtering twice is filtering once. */
  lemma {:induction false} KeepNotIgnoredIdempotent(names: seq<Value>)
    ensures KeepNotIgnored(KeepNotIgnored(names)) == KeepNotIgnored(names)
    decreases |names|
  {
    if |names| > 0 {
      var head := if Ignored(names[0]) then [] else [names[0]];
      KeepNotIgnoredAppend(head, KeepNotIgnored(names[1..]));
      KeepNotIgnoredIdempotent(names[1..]);
      if !Ignored(names[0]) {
        assert [names[0]][1..] == [];
      }
    }
  }

  /**
   * Whatever the proxy list, none of the three ignored names survives the
   * filter, and a list made only of ignored names is filtered to nothing.
   */
  lemma IgnoredNamesDropped(names: seq<Value>)
    ensures forall n :: n in IgnoredProxies ==> Str(n) !in KeepNotIgnored(names)
    ensures (forall i :: 0 <= i < |names| ==> Ignored(names[i])) ==> KeepNotIgnored(names) == []
  {
    KeepNotIgnoredExactly(names);
  }

  /**
   * When the proxy list holds only names, an ignored proxy gets neither a
   * deployments GET nor a DELETE.
   */
  lemma {:induction false} IgnoredProxyUntouched(env: Env, n: string)
    requires n in IgnoredProxies
    requires Body(env, ListCall(env, ProxiesKind)).Arr? ==>
      forall i :: 0 <= i < |Body(env, ListCall(env, ProxiesKind)).elems| ==> Body(env, ListCall(env, ProxiesKind)).elems[i].Str?
    ensures ListCall(env, DeploymentsEntity(ProxiesKind, Str(n))) !in ProxiesPass(env).calls
    ensures DeleteCall(env, DeployableEntity(ProxiesKind, Str(n))) !in ProxiesPass(env).calls
  {
    var a := ListCall(env, DeploymentsEntity(ProxiesKind, Str(n)));
    var b := DeleteCall(env, DeployableEntity(ProxiesKind, Str(n)));
    var get := ListCall(env, ProxiesKind);
    DifferentEntities(env, ProxiesKind, DeploymentsEntity(ProxiesKind, Str(n)));
    var body := Body(env, get);
    if body.Arr? {
      var apis := KeepNotIgnored(body.elems);
      KeepNotIgnoredExactly(body.elems);
      var f := DeployableStepFn(env, ProxiesKind);
      forall i, c | 0 <= i < |apis| && c in f(apis[i]).calls ensures c != a && c != b {
        assert apis[i] in body.elems;
        DeployableAvoids(env, apis[i].s, n);
      }
      SeqCallsIn(apis, f, c => c != a && c != b);
      assert ProxiesPass(env) == Then(Issue(get), Seq(apis, f));
    }
  }

  /** The entity paths of two requests to the same organisation differ when the entities do. */
  lemma DifferentEntities(env: Env, e1: string, e2: string)
    requires e1 != e2
    ensures ListCall(env, e1) != ListCall(env, e2)
    ensures DeleteCall(env, e1) != DeleteCall(env, e2)
  {
    var p := MgmtURL + "/" + env.config.org + "/";
    assert MgmtUri(env.config, e1) == p + e1;
    assert MgmtUri(env.config, e2) == p + e2;
    assert (p + e1)[|p|..] == e1;
    assert (p + e2)[|p|..] == e2;
  }

  /** `s + x + t == s + y + t` only when `x == y`. */
  lemma Infix(s: string, x: string, y: string, t: string)
    requires s + x + t == s + y + t
    ensures x == y
  {
    assert |x| == |y|;
    assert x == (s + x + t)[|s|..|s| + |x|];
    assert y == (s + y + t)[|s|..|s| + |y|];
  }

  /** A proxy other than `n` issues neither the deployments GET nor the DELETE of `n`. */
  lemma {:induction false} DeployableAvoids(env: Env, s: string, n: string)
    requires s != n
    ensures ListCall(env, DeploymentsEntity(ProxiesKind, Str(n))) !in DeployableStep(env, ProxiesKind, Str(s)).calls
    ensures DeleteCall(env, DeployableEntity(ProxiesKind, Str(n))) !in DeployableStep(env, ProxiesKind, Str(s)).calls
  {
    var a := ListCall(env, DeploymentsEntity(ProxiesKind, Str(n)));
    var b := DeleteCall(env, DeployableEntity(ProxiesKind, Str(n)));
    if DeploymentsEntity(ProxiesKind, Str(s)) == DeploymentsEntity(ProxiesKind, Str(n)) {
      Infix(ProxiesKind + "/", s, n, "/deployments");
    }
    DifferentEntities(env, DeploymentsEntity(ProxiesKind, Str(s)), DeploymentsEntity(ProxiesKind, Str(n)));
    if DeployableEntity(ProxiesKind, Str(s)) == DeployableEntity(ProxiesKind, Str(n)) {
      Infix(ProxiesKind + "/", s, n, "");
    }
    DifferentEntities(env, DeployableEntity(ProxiesKind, Str(s)), DeployableEntity(ProxiesKind, Str(n)));
    var f := UndeployStepFn(env, ProxiesKind, Str(s));
    match Entries(env, ProxiesKind, Str(s))
    case None =>
    case Some(entries) =>
      forall i, c | 0 <= i < |entries| && c in f(entries[i]).calls ensures c != a && c != b {
        var rev := match RevisionName(entries[i]) case Some(r) => r case None => Undefined;
        var u := UndeployEntity(ProxiesKind, Str(s), EnvName(entries[i]), rev);
        assert u[0] == '/';
        assert DeployableEntity(ProxiesKind, Str(n))[0] == 'a';
        DifferentEntities(env, u, DeployableEntity(ProxiesKind, Str(n)));
      }
      SeqCallsIn(entries, f, c => c != a && c != b);
  }

  // Portals and specs

  /**
   * Specs are DELETEd at the API base followed by each content's `self`
   * path, in response order, after the token exchange and the listing GET;
   * every bearer header carries the token that exchange returned.
   */
  lemma {:induction false} SpecsInOrder(env: Env, specs: seq<Value>)
    requires SpecPaths(env, AccessToken(env)) == Some(specs)
    ensures
      var token := AccessToken(env);
      var r := SpecsPass(env);
      && r.outcome == Completed
      && |r.calls| == |specs| + 2
      && r.calls[0] == TokenCall(env)
      && r.calls[1] == SpecsListCall(env, token)
      && forall j :: 0 <= j < |specs| ==> r.calls[j + 2] == SpecDeleteCall(env, token, specs[j])
  {
    var token := AccessToken(env);
    var list := SpecsListCall(env, token);
    ListThenSingles(list, specs, SpecStepFn(env, token), x => SpecDeleteCall(env, token, x));
    var inner := Then(Issue(list), Seq(specs, SpecStepFn(env, token)));
    assert SpecsPass(env) == Run([TokenCall(env)] + inner.calls, Completed);
    Prefixed(TokenCall(env), inner.calls);
  }

  /** getSpecs returning `undefined` makes the loop over it throw right after the listing GET. */
  lemma SpecListMissing(env: Env)
    requires SpecPaths(env, AccessToken(env)).None?
    ensures SpecsPass(env) == Run([TokenCall(env), SpecsListCall(env, AccessToken(env))], Aborted)
  {
  }

  /**
   * Portals are POSTed to the trash, one per portal id, in response order,
   * after the token exchange and the listing GET.
   */
  lemma {:induction false} PortalsInOrder(env: Env, portals: seq<Value>)
    requires PortalIds(env, AccessToken(env)) == Some(portals)
    ensures
      var token := AccessToken(env);
      var r := PortalsPass(env);
      && r.outcome == Completed
      && |r.calls| == |portals| + 2
      && r.calls[0] == TokenCall(env)
      && r.calls[1] == PortalsListCall(env, token)
      && forall j :: 0 <= j < |portals| ==> r.calls[j + 2] == PortalTrashCall(env, token, portals[j])
  {
    var token := AccessToken(env);
    var list := PortalsListCall(env, token);
    ListThenSingles(list, portals, PortalStepFn(env, token), x => PortalTrashCall(env, token, x));
    var inner := Then(Issue(list), Seq(portals, PortalStepFn(env, token)));
    assert PortalsPass(env) == Run([TokenCall(env)] + inner.calls, Completed);
    Prefixed(TokenCall(env), inner.calls);
  }

  /** getPortals returning `undefined` makes the loop over it throw right after the listing GET. */
  lemma PortalListMissing(env: Env)
    requires PortalIds(env, AccessToken(env)).None?
    ensures PortalsPass(env) == Run([TokenCall(env), PortalsListCall(env, AccessToken(env))], Aborted)
  {
  }

  // URIs and credentials

  /** The part of every management URI before the entity path. */
  function MgmtPrefix(config: Config): string {
    MgmtURL + "/" + config.org + "/"
  }

  /**
   * The three shapes of request the script sends: the password grant to the
   * OAuth endpoint; a management request to the organisation with the Basic
   * credentials and no `X-Org-Name`; or a request under the API base or the
   * portal site URL with the token that grant returned and the
   * organisation's name in `X-Org-Name`.
   */
  predicate Authorized(env: Env, c: Call) {
    || c == TokenCall(env)
    || (c.Call? && c.headers == BasicHeaders(env) && MgmtPrefix(env.config) <= c.uri)
    || (c.Call? && c.headers == BearerHeaders(env, AccessToken(env)) && (SpecURLPrefix <= c.uri || PortalTrashPrefix <= c.uri))
  }

  predicate AllAuthorized(env: Env, calls: seq<Call>) {
    forall c :: c in calls ==> Authorized(env, c)
  }

  lemma {:induction false} PrefixOfConcat(a: string, b: string)
    ensures a <= a + b
  {
    assert (a + b)[..|a|] == a;
  }

  /** Every management request goes to `mgmtURL/<org>/<entity>` with the Basic credentials. */
  lemma {:induction false} MgmtCallsAuthorized(env: Env, entity: string)
    ensures Authorized(env, ListCall(env, entity)) && Authorized(env, DeleteCall(env, entity))
  {
    assert MgmtUri(env.config, entity) == MgmtPrefix(env.config) + entity;
    PrefixOfConcat(MgmtPrefix(env.config), entity);
  }

  /** An undeploy URI holds a doubled slash right after the organisation's name. */
  lemma {:induction false} UndeployUriDoubleSlash(env: Env, kind: string, name: Value, envName: Value, revision: Value)
    ensures MgmtURL + "/" + env.config.org + "//environments/" <= DeleteCall(env, UndeployEntity(kind, name, envName, revision)).uri
  {
    var e := UndeployEntity(kind, name, envName, revision);
    var rest := ToStr(envName) + "/" + kind + "/" + ToStr(name) + "/revisions/" + ToStr(revision) + "/deployments";
    UndeployEntityStart(kind, name, envName, revision, rest);
    var p := MgmtURL + "/" + env.config.org;
    assert DeleteCall(env, e).uri == p + "/" + e;
    SlashJoin(p, rest);
    PrefixOfConcat(p + "//environments/", rest);
  }

  lemma {:induction false} SlashJoin(p: string, rest: string)
    ensures (p + "/") + ("/environments/" + rest) == (p + "//environments/") + rest
  {
    assert "/" + "/environments/" == "//environments/";
  }

  lemma {:induction false} UndeployEntityStart(kind: string, name: Value, envName: Value, revision: Value, rest: string)
    requires rest == ToStr(envName) + "/" + kind + "/" + ToStr(name) + "/revisions/" + ToStr(revision) + "/deployments"
    ensures UndeployEntity(kind, name, envName, revision) == "/environments/" + rest
  {
  }

  lemma {:induction false} PrefixOfConcat3(a: string, b: string, c: string)
    ensures a <= a + b + c
  {
    assert (a + b + c)[..|a|] == a;
  }

  /** The bearer requests go under the API base or the portal site URL. */
  lemma {:induction false} BearerCallsAuthorized(env: Env, x: Value)
    ensures Authorized(env, SpecsListCall(env, AccessToken(env)))
    ensures Authorized(env, PortalsListCall(env, AccessToken(env)))
    ensures Authorized(env, SpecDeleteCall(env, AccessToken(env), x))
    ensures Authorized(env, PortalTrashCall(env, AccessToken(env), x))
  {
    assert SpecURLPrefix <= SpecsListURL;
    assert SpecURLPrefix <= PortalsListURLPrefix;
    PrefixOfConcat(PortalsListURLPrefix, env.config.org);
    PrefixOfConcat(SpecURLPrefix, ToStr(x));
    PrefixOfConcat3(PortalTrashPrefix, ToStr(x), "/trash");
  }

  lemma {:induction false} DeveloperStepAuthorized(env: Env, developer: Value)
    ensures AllAuthorized(env, DeveloperStep(env, developer).calls)
  {
    MgmtCallsAuthorized(env, AppsEntity(developer));
    MgmtCallsAuthorized(env, DeveloperEntity(developer));
    match Iterate(Body(env, ListCall(env, AppsEntity(developer))))
    case None =>
    case Some(apps) =>
      var f := AppStepFn(env, developer);
      forall i, c | 0 <= i < |apps| && c in f(apps[i]).calls ensures Authorized(env, c) {
        MgmtCallsAuthorized(env, AppEntity(developer, apps[i]));
      }
      SeqCallsIn(apps, f, c => Authorized(env, c));
  }

  lemma {:induction false} DeployableStepAuthorized(env: Env, kind: string, name: Value)
    ensures AllAuthorized(env, DeployableStep(env, kind, name).calls)
  {
    MgmtCallsAuthorized(env, DeploymentsEntity(kind, name));
    MgmtCallsAuthorized(env, DeployableEntity(kind, name));
    match Entries(env, kind, name)
    case None =>
    case Some(entries) =>
      var f := UndeployStepFn(env, kind, name);
      forall i, c | 0 <= i < |entries| && c in f(entries[i]).calls ensures Authorized(env, c) {
        UndeployStepGuarded(env, kind, name, entries[i]);
        var rev := match RevisionName(entries[i]) case Some(r) => r case None => Undefined;
        MgmtCallsAuthorized(env, UndeployEntity(kind, name, EnvName(entries[i]), rev));
      }
      SeqCallsIn(entries, f, c => Authorized(env, c));
  }

  lemma {:induction false} AppsPassAuthorized(env: Env)
    ensures AllAuthorized(env, AppsPass(env).calls)
  {
    var ok := c => Authorized(env, c);
    MgmtCallsAuthorized(env, "developers");
    match Iterate(Body(env, ListCall(env, "developers")))
    case None =>
    case Some(developers) =>
      forall i, c | 0 <= i < |developers| && c in DeveloperStepFn(env)(developers[i]).calls ensures ok(c) {
        DeveloperStepAuthorized(env, developers[i]);
      }
      SeqCallsIn(developers, DeveloperStepFn(env), ok);
  }

  lemma {:induction false} ProductsPassAuthorized(env: Env)
    ensures AllAuthorized(env, ProductsPass(env).calls)
  {
    var ok := c => Authorized(env, c);
    MgmtCallsAuthorized(env, "apiproducts");
    match Iterate(Body(env, ListCall(env, "apiproducts")))
    case None =>
    case Some(products) =>
      forall i, c | 0 <= i < |products| && c in ProductStepFn(env)(products[i]).calls ensures ok(c) {
        MgmtCallsAuthorized(env, ProductEntity(products[i]));
      }
      SeqCallsIn(products, ProductStepFn(env), ok);
  }

  lemma {:induction false} ReportsPassAuthorized(env: Env)
    ensures AllAuthorized(env, ReportsPass(env).calls)
  {
    var ok := c => Authorized(env, c);
    MgmtCallsAuthorized(env, "reports");
    match ReportList(env)
    case None =>
    case Some(reports) =>
      forall i, c | 0 <= i < |reports| && c in ReportStepFn(env)(reports[i]).calls ensures ok(c) {
        ReportStepGuarded(env, reports[i]);
        MgmtCallsAuthorized(env, ReportEntity(ReportName(reports[i])));
      }
      SeqCallsIn(reports, ReportStepFn(env), ok);
  }

  lemma {:induction false} SharedFlowsPassAuthorized(env: Env)
    ensures AllAuthorized(env, SharedFlowsPass(env).calls)
  {
    var ok := c => Authorized(env, c);
    MgmtCallsAuthorized(env, SharedFlowsKind);
    match Iterate(Body(env, ListCall(env, SharedFlowsKind)))
    case None =>
    case Some(flows) =>
      forall i, c | 0 <= i < |flows| && c in DeployableStepFn(env, SharedFlowsKind)(flows[i]).calls ensures ok(c) {
        DeployableStepAuthorized(env, SharedFlowsKind, flows[i]);
      }
      SeqCallsIn(flows, DeployableStepFn(env, SharedFlowsKind), ok);
  }

  lemma {:induction false} ProxiesPassAuthorized(env: Env)
    ensures AllAuthorized(env, ProxiesPass(env).calls)
  {
    var ok := c => Authorized(env, c);
    MgmtCallsAuthorized(env, ProxiesKind);
    match FilterProxies(Body(env, ListCall(env, ProxiesKind)))
    case None =>
    case Some(apis) =>
      forall i, c | 0 <= i < |apis| && c in DeployableStepFn(env, ProxiesKind)(apis[i]).calls ensures ok(c) {
        DeployableStepAuthorized(env, ProxiesKind, apis[i]);
      }
      SeqCallsIn(apis, DeployableStepFn(env, ProxiesKind), ok);
  }

  lemma {:induction false} PortalsPassAuthorized(env: Env)
    ensures AllAuthorized(env, PortalsPass(env).calls)
  {
    var token := AccessToken(env);
    var ok := c => Authorized(env, c);
    var loop := match PortalIds(env, token) case None => Abort case Some(portals) => Seq(portals, PortalStepFn(env, token));
    assert PortalsPass(env) == Then(Issue(TokenCall(env)), Then(Issue(PortalsListCall(env, token)), loop));
    BearerCallsAuthorized(env, Undefined);
    if PortalIds(env, token).Some? {
      PortalsLoopAuthorized(env, PortalIds(env, token).value);
    }
    ThenCallsIn(Issue(PortalsListCall(env, token)), loop, ok);
    ThenCallsIn(Issue(TokenCall(env)), Then(Issue(PortalsListCall(env, token)), loop), ok);
  }

  lemma {:induction false} PortalsLoopAuthorized(env: Env, portals: seq<Value>)
    ensures AllAuthorized(env, Seq(portals, PortalStepFn(env, AccessToken(env))).calls)
  {
    var token := AccessToken(env);
    var ok := c => Authorized(env, c);
    forall i, c | 0 <= i < |portals| && c in PortalStepFn(env, token)(portals[i]).calls ensures ok(c) {
      BearerCallsAuthorized(env, portals[i]);
    }
    SeqCallsIn(portals, PortalStepFn(env, token), ok);
  }

  lemma {:induction false} SpecsPassAuthorized(env: Env)
    ensures AllAuthorized(env, SpecsPass(env).calls)
  {
    var token := AccessToken(env);
    var ok := c => Authorized(env, c);
    var loop := match SpecPaths(env, token) case None => Abort case Some(specs) => Seq(specs, SpecStepFn(env, token));
    assert SpecsPass(env) == Then(Issue(TokenCall(env)), Then(Issue(SpecsListCall(env, token)), loop));
    BearerCallsAuthorized(env, Undefined);
    if SpecPaths(env, token).Some? {
      SpecsLoopAuthorized(env, SpecPaths(env, token).value);
    }
    ThenCallsIn(Issue(SpecsListCall(env, token)), loop, ok);
    ThenCallsIn(Issue(TokenCall(env)), Then(Issue(SpecsListCall(env, token)), loop), ok);
  }

  lemma {:induction false} SpecsLoopAuthorized(env: Env, specs: seq<Value>)
    ensures AllAuthorized(env, Seq(specs, SpecStepFn(env, AccessToken(env))).calls)
  {
    var token := AccessToken(env);
    var ok := c => Authorized(env, c);
    forall i, c | 0 <= i < |specs| && c in SpecStepFn(env, token)(specs[i]).calls ensures ok(c) {
      BearerCallsAuthorized(env, specs[i]);
    }
    SeqCallsIn(specs, SpecStepFn(env, token), ok);
  }

  /** Every request of every pass has one of the three shapes. */
  lemma PassAuthorized(env: Env, category: Category)
    ensures AllAuthorized(env, Pass(env, category).calls)
  {
    match category
    case AppsAndDevelopers => AppsPassAuthorized(env);
    case ApiProducts => ProductsPassAuthorized(env);
    case Reports => ReportsPassAuthorized(env);
    case SharedFlows => SharedFlowsPassAuthorized(env);
    case ApiProxies => ProxiesPassAuthorized(env);
    case Portals => PortalsPassAuthorized(env);
    case Specs => SpecsPassAuthorized(env);
  }

  /**
   * Every request of the run has one of the three shapes: the token
   * exchange, a management request to the organisation with the Basic
   * credentials, or a bearer request to the API base or the portal site URL
   * that names the organisation.
   */
  lemma {:induction false} EveryCallAuthorized(env: Env)
    ensures AllAuthorized(env, RunAll(env).calls)
  {
    RunFollowsCategoryOrder(env);
    forall i, c | 0 <= i < |CategoryOrder| && c in PassFn(env)(CategoryOrder[i]).calls
      ensures Authorized(env, c)
    {
      PassAuthorized(env, CategoryOrder[i]);
    }
    SeqCallsIn(CategoryOrder, PassFn(env), c => Authorized(env, c));
  }

  /** No extension is ever deleted: that bearer request without `X-Org-Name` is of none of the three shapes. */
  lemma {:induction false} NoExtensionCalls(env: Env, token: Value, envName: Value)
    ensures ExtensionsCall(env, token, envName) !in RunAll(env).calls
  {
    EveryCallAuthorized(env);
    var x := ExtensionsCall(env, token, envName);
    assert x.headers.authorization[1] == 'e';
    assert BasicHeaders(env).authorization[1] == 'a';
    assert !Authorized(env, x);
  }

  // Which responses matter

  /** The requests whose responses the script reads: the GETs and the token exchange. */
  predicate IsRead(c: Call) {
    c.FormPost? || c.verb == GET
  }

  /**
   * Two environments that differ at most in the responses to the DELETEs
   * and to the POSTs to the portal trash: same answers at the prompt, same
   * encoder, same responses to every read.
   */
  ghost predicate SameReads(env1: Env, env2: Env) {
    && env1.config == env2.config
    && env1.base64 == env2.base64
    && forall c: Call :: IsRead(c) ==> Fetch(env1, c) == Fetch(env2, c)
  }

  /** Environments with the same reads get the same token. */
  lemma SameToken(env1: Env, env2: Env)
    requires SameReads(env1, env2)
    ensures AccessToken(env1) == AccessToken(env2)
  {
    assert TokenCall(env1) == TokenCall(env2);
    assert IsRead(TokenCall(env1));
  }

  lemma {:induction false} DeveloperStepSameReads(env1: Env, env2: Env, developer: Value)
    requires SameReads(env1, env2)
    ensures DeveloperStep(env1, developer) == DeveloperStep(env2, developer)
  {
    assert ListCall(env1, AppsEntity(developer)) == ListCall(env2, AppsEntity(developer));
    match Iterate(Body(env1, ListCall(env1, AppsEntity(developer))))
    case None =>
    case Some(apps) =>
      SeqCongruent(apps, AppStepFn(env1, developer), AppStepFn(env2, developer));
  }

  lemma {:induction false} AppsPassSameReads(env1: Env, env2: Env)
    requires SameReads(env1, env2)
    ensures AppsPass(env1) == AppsPass(env2)
  {
    assert ListCall(env1, "developers") == ListCall(env2, "developers");
    match Iterate(Body(env1, ListCall(env1, "developers")))
    case None =>
    case Some(developers) =>
      forall i | 0 <= i < |developers| ensures DeveloperStepFn(env1)(developers[i]) == DeveloperStepFn(env2)(developers[i]) {
        DeveloperStepSameReads(env1, env2, developers[i]);
      }
      SeqCongruent(developers, DeveloperStepFn(env1), DeveloperStepFn(env2));
  }

  lemma {:induction false} ProductsPassSameReads(env1: Env, env2: Env)
    requires SameReads(env1, env2)
    ensures ProductsPass(env1) == ProductsPass(env2)
  {
    assert ListCall(env1, "apiproducts") == ListCall(env2, "apiproducts");
    match Iterate(Body(env1, ListCall(env1, "apiproducts")))
    case None =>
    case Some(products) =>
      SeqCongruent(products, ProductStepFn(env1), ProductStepFn(env2));
  }

  lemma {:induction false} ReportsPassSameReads(env1: Env, env2: Env)
    requires SameReads(env1, env2)
    ensures ReportsPass(env1) == ReportsPass(env2)
  {
    assert ListCall(env1, "reports") == ListCall(env2, "reports");
    match ReportList(env1)
    case None =>
    case Some(reports) =>
      forall i | 0 <= i < |reports| ensures ReportStepFn(env1)(reports[i]) == ReportStepFn(env2)(reports[i]) {
        ReportStepGuarded(env1, reports[i]);
        ReportStepGuarded(env2, reports[i]);
      }
      SeqCongruent(reports, ReportStepFn(env1), ReportStepFn(env2));
      assert ReportsPass(env1) == Then(Issue(ListCall(env1, "reports")), Seq(reports, ReportStepFn(env1)));
  }

  lemma {:induction false} DeployableStepSameReads(env1: Env, env2: Env, kind: string, name: Value)
    requires SameReads(env1, env2)
    ensures DeployableStep(env1, kind, name) == DeployableStep(env2, kind, name)
  {
    assert ListCall(env1, DeploymentsEntity(kind, name)) == ListCall(env2, DeploymentsEntity(kind, name));
    match Entries(env1, kind, name)
    case None =>
    case Some(entries) =>
      forall i | 0 <= i < |entries|
        ensures UndeployStepFn(env1, kind, name)(entries[i]) == UndeployStepFn(env2, kind, name)(entries[i])
      {
        UndeployStepGuarded(env1, kind, name, entries[i]);
        UndeployStepGuarded(env2, kind, name, entries[i]);
      }
      SeqCongruent(entries, UndeployStepFn(env1, kind, name), UndeployStepFn(env2, kind, name));
  }

  lemma {:induction false} SharedFlowsPassSameReads(env1: Env, env2: Env)
    requires SameReads(env1, env2)
    ensures SharedFlowsPass(env1) == SharedFlowsPass(env2)
  {
    assert ListCall(env1, SharedFlowsKind) == ListCall(env2, SharedFlowsKind);
    match Iterate(Body(env1, ListCall(env1, SharedFlowsKind)))
    case None =>
    case Some(flows) =>
      forall i | 0 <= i < |flows|
        ensures DeployableStepFn(env1, SharedFlowsKind)(flows[i]) == DeployableStepFn(env2, SharedFlowsKind)(flows[i])
      {
        DeployableStepSameReads(env1, env2, SharedFlowsKind, flows[i]);
      }
      SeqCongruent(flows, DeployableStepFn(env1, SharedFlowsKind), DeployableStepFn(env2, SharedFlowsKind));
  }

  lemma {:induction false} ProxiesPassSameReads(env1: Env, env2: Env)
    requires SameReads(env1, env2)
    ensures ProxiesPass(env1) == ProxiesPass(env2)
  {
    assert ListCall(env1, ProxiesKind) == ListCall(env2, ProxiesKind);
    match FilterProxies(Body(env1, ListCall(env1, ProxiesKind)))
    case None =>
    case Some(apis) =>
      forall i | 0 <= i < |apis|
        ensures DeployableStepFn(env1, ProxiesKind)(apis[i]) == DeployableStepFn(env2, ProxiesKind)(apis[i])
      {
        DeployableStepSameReads(env1, env2, ProxiesKind, apis[i]);
      }
      SeqCongruent(apis, DeployableStepFn(env1, ProxiesKind), DeployableStepFn(env2, ProxiesKind));
  }

  lemma {:induction false} PortalsPassSameReads(env1: Env, env2: Env)
    requires SameReads(env1, env2)
    ensures PortalsPass(env1) == PortalsPass(env2)
  {
    SameToken(env1, env2);
    assert PortalsListCall(env1, AccessToken(env1)) == PortalsListCall(env2, AccessToken(env2));
    match PortalIds(env1, AccessToken(env1))
    case None =>
    case Some(portals) =>
      SeqCongruent(portals, PortalStepFn(env1, AccessToken(env1)), PortalStepFn(env2, AccessToken(env2)));
  }

  lemma {:induction false} SpecsPassSameReads(env1: Env, env2: Env)
    requires SameReads(env1, env2)
    ensures SpecsPass(env1) == SpecsPass(env2)
  {
    SameToken(env1, env2);
    assert SpecsListCall(env1, AccessToken(env1)) == SpecsListCall(env2, AccessToken(env2));
    match SpecPaths(env1, AccessToken(env1))
    case None =>
    case Some(specs) =>
      SeqCongruent(specs, SpecStepFn(env1, AccessToken(env1)), SpecStepFn(env2, AccessToken(env2)));
  }

  lemma PassSameReads(env1: Env, env2: Env, category: Category)
    requires SameReads(env1, env2)
    ensures Pass(env1, category) == Pass(env2, category)
  {
    match category
    case AppsAndDevelopers => AppsPassSameReads(env1, env2);
    case ApiProducts => ProductsPassSameReads(env1, env2);
    case Reports => ReportsPassSameReads(env1, env2);
    case SharedFlows => SharedFlowsPassSameReads(env1, env2);
    case ApiProxies => ProxiesPassSameReads(env1, env2);
    case Portals => PortalsPassSameReads(env1, env2);
    case Specs => SpecsPassSameReads(env1, env2);
  }

  /**
   * Only the responses to GETs steer the run: the responses to DELETEs and
   * POSTs, and whether those failed, make no difference to what is issued
   * or to how the run ends.
   */
  lemma {:induction false} OnlyReadResponsesMatter(env1: Env, env2: Env)
    requires SameReads(env1, env2)
    ensures RunAll(env1) == RunAll(env2)
  {
    RunFollowsCategoryOrder(env1);
    RunFollowsCategoryOrder(env2);
    forall i | 0 <= i < |CategoryOrder| ensures PassFn(env1)(CategoryOrder[i]) == PassFn(env2)(CategoryOrder[i]) {
      PassSameReads(env1, env2, CategoryOrder[i]);
    }
    SeqCongruent(CategoryOrder, PassFn(env1), PassFn(env2));
  }

  /** The responses with every response to a DELETE or to a trash POST removed. */
  function ReadsOnly(responses: map<Call, Value>): map<Call, Value> {
    map c: Call | c in responses && IsRead(c) :: responses[c]
  }

  /**
   * Failed deletes are absorbed: a run against an organisation on which every
   * DELETE and every move to the trash fails issues the same requests and
   * ends the same way.
   */
  lemma {:induction false} FailedWritesAbsorbed(env: Env)
    ensures RunAll(env.(responses := ReadsOnly(env.responses))) == RunAll(env)
  {
    var env2 := env.(responses := ReadsOnly(env.responses));
    assert SameReads(env, env2);
    OnlyReadResponsesMatter(env, env2);
  }
}
