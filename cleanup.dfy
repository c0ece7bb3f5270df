/**
 * The teardown script itself: an object that issues the requests of each
 * category pass one after another and logs them in `calls`.  Every method
 * is proved to append exactly the requests of the corresponding function of
 * module Passes and to end as it does.
 */
module Cleanup {
  import opened Wrappers
  import opened Json
  import opened Requests
  import opened Trace
  import opened Passes

  /** The `for (content of contents) xs.push(content[field])` loop of getSpecs and getPortals. */
  method Collect(items: seq<Value>, field: string) returns (r: Option<seq<Value>>)
    ensures r.Some? <==> forall i :: 0 <= i < |items| ==> !IsNullish(items[i])
    ensures r.Some? ==> |r.value| == |items|
    ensures r.Some? ==> forall i :: 0 <= i < |items| ==> Prop(items[i], field) == Some(r.value[i])
  {
    var acc: seq<Value> := [];
    var i := 0;
    while i < |items|
      invariant 0 <= i <= |items|
      invariant |acc| == i
      invariant forall j :: 0 <= j < i ==> Prop(items[j], field) == Some(acc[j])
    {
      var v := Prop(items[i], field);
      if v.None? {
        return None;
      }
      acc := acc + [v.value];
      i := i + 1;
    }
    return Some(acc);
  }

  class Teardown {
    /** The prompt's answers, the encoder and the remote services' responses. */
    const env: Env
    /** Every request issued so far, in order. */
    var calls: seq<Call>

    constructor (env: Env)
      ensures this.env == env && calls == []
    {
      this.env := env;
      calls := [];
    }

    /** `rp(options)`: issue one request and receive its body, or `None` when it rejects. */
    method Send(c: Call) returns (response: Option<Value>)
      modifies this
      ensures calls == old(calls) + [c]
      ensures response == Fetch(env, c)
    {
      calls := calls + [c];
      response := Fetch(env, c);
    }

    method GetEntities(entity: string) returns (body: Value)
      modifies this
      ensures calls == old(calls) + [ListCall(env, entity)]
      ensures body == Body(env, ListCall(env, entity))
    {
      var response := Send(ListCall(env, entity));
      body := if response.Some? then response.value else Undefined;
    }

    method DeleteEntities(entity: string) returns (body: Value)
      modifies this
      ensures calls == old(calls) + [DeleteCall(env, entity)]
      ensures body == Body(env, DeleteCall(env, entity))
    {
      var response := Send(DeleteCall(env, entity));
      body := if response.Some? then response.value else Undefined;
    }

    /** The token exchange: `parsedBody.access_token`, with every throw caught. */
    method GetAccessToken() returns (token: Value)
      modifies this
      ensures calls == old(calls) + [TokenCall(env)]
      ensures token == AccessToken(env)
    {
      var response := Send(TokenCall(env));
      if response.None? {
        return Undefined;
      }
      var field := Prop(response.value, "access_token");
      token := if field.Some? then field.value else Undefined;
    }

    method GetSpecs(token: Value) returns (specs: Option<seq<Value>>)
      modifies this
      ensures calls == old(calls) + [SpecsListCall(env, token)]
      ensures specs == SpecPaths(env, token)
    {
      var response := Send(SpecsListCall(env, token));
      specs := CollectFrom(response, "contents", "self");
    }

    method GetPortals(token: Value) returns (portals: Option<seq<Value>>)
      modifies this
      ensures calls == old(calls) + [PortalsListCall(env, token)]
      ensures portals == PortalIds(env, token)
    {
      var response := Send(PortalsListCall(env, token));
      portals := CollectFrom(response, "data", "id");
    }

    /** The try block shared by getSpecs and getPortals, after the request. */
    static method CollectFrom(response: Option<Value>, listField: string, idField: string)
      returns (ids: Option<seq<Value>>)
      ensures ids == CollectIds(response, listField, idField)
    {
      if response.None? {
        return None;
      }
      var list := Prop(response.value, listField);
      if list.None? {
        return None;
      }
      var items := Iterate(list.value);
      if items.None? {
        return None;
      }
      ids := Collect(items.value, idField);
      var expected := Pluck(items.value, idField);
      if ids.Some? {
        assert ids.value == expected.value by {
          forall i | 0 <= i < |items.value| ensures ids.value[i] == expected.value[i] {
            assert Prop(items.value[i], idField) == Some(ids.value[i]);
          }
        }
      }
    }

    method DeleteSpec(token: Value, spec: Value)
      modifies this
      ensures calls == old(calls) + [SpecDeleteCall(env, token, spec)]
    {
      var _ := Send(SpecDeleteCall(env, token, spec));
    }

    method DeletePortal(token: Value, portal: Value)
      modifies this
      ensures calls == old(calls) + [PortalTrashCall(env, token, portal)]
    {
      var _ := Send(PortalTrashCall(env, token, portal));
    }

    /** One iteration of the developer loop: its apps, then the developer. */
    method DeleteDeveloper(developer: Value) returns (outcome: Outcome)
      modifies this
      ensures calls == old(calls) + DeveloperStep(env, developer).calls
      ensures outcome == DeveloperStep(env, developer).outcome
    {
      ghost var c0 := calls;
      var body := GetEntities(AppsEntity(developer));
      ghost var get := Issue(ListCall(env, AppsEntity(developer)));
      ghost var c1 := calls;
      var list := Iterate(body);
      if list.None? {
        ThenStep(c0, get, c1, Abort, calls);
        return Aborted;
      }
      DeleteEachApp(developer, list.value);
      ghost var apps := Seq(list.value, AppStepFn(env, developer));
      ghost var c2 := calls;
      var _ := DeleteEntities(DeveloperEntity(developer));
      ThenStep(c1, apps, c2, Issue(DeleteCall(env, DeveloperEntity(developer))), calls);
      ThenStep(c0, get, c1, Then(apps, Issue(DeleteCall(env, DeveloperEntity(developer)))), calls);
      return Completed;
    }

    /** `for (app of apps)`: deletes never throw, so this loop always finishes. */
    method DeleteEachApp(developer: Value, apps: seq<Value>)
      modifies this
      ensures calls == old(calls) + Seq(apps, AppStepFn(env, developer)).calls
      ensures Seq(apps, AppStepFn(env, developer)).outcome == Completed
    {
      ghost var c0 := calls;
      var i := 0;
      while i < |apps|
        invariant 0 <= i <= |apps|
        invariant calls == c0 + Seq(apps[..i], AppStepFn(env, developer)).calls
        invariant Seq(apps[..i], AppStepFn(env, developer)).outcome == Completed
      {
        ghost var c1 := calls;
        var _ := DeleteEntities(AppEntity(developer, apps[i]));
        LoopStep(apps, i, AppStepFn(env, developer), c0, c1, AppStep(env, developer, apps[i]), calls);
        i := i + 1;
      }
      assert apps[..i] == apps;
    }

    method DeleteAppsAndDevelopers() returns (outcome: Outcome)
      modifies this
      ensures calls == old(calls) + AppsPass(env).calls
      ensures outcome == AppsPass(env).outcome
    {
      ghost var c0 := calls;
      var body := GetEntities("developers");
      ghost var get := Issue(ListCall(env, "developers"));
      ghost var c1 := calls;
      var list := Iterate(body);
      if list.None? {
        ThenStep(c0, get, c1, Abort, calls);
        return Aborted;
      }
      outcome := DeleteEachDeveloper(list.value);
      ThenStep(c0, get, c1, Seq(list.value, DeveloperStepFn(env)), calls);
    }

    /** `for (developer of developers)`. */
    method DeleteEachDeveloper(developers: seq<Value>) returns (outcome: Outcome)
      modifies this
      ensures calls == old(calls) + Seq(developers, DeveloperStepFn(env)).calls
      ensures outcome == Seq(developers, DeveloperStepFn(env)).outcome
    {
      ghost var c0 := calls;
      var i := 0;
      while i < |developers|
        invariant 0 <= i <= |developers|
        invariant calls == c0 + Seq(developers[..i], DeveloperStepFn(env)).calls
        invariant Seq(developers[..i], DeveloperStepFn(env)).outcome == Completed
      {
        ghost var c1 := calls;
        outcome := DeleteDeveloper(developers[i]);
        LoopStep(developers, i, DeveloperStepFn(env), c0, c1, DeveloperStep(env, developers[i]), calls);
        if outcome == Aborted {
          return;
        }
        i := i + 1;
      }
      assert developers[..i] == developers;
      return Completed;
    }

    method DeleteAPIProducts() returns (outcome: Outcome)
      modifies this
      ensures calls == old(calls) + ProductsPass(env).calls
      ensures outcome == ProductsPass(env).outcome
    {
      ghost var c0 := calls;
      var body := GetEntities("apiproducts");
      ghost var get := Issue(ListCall(env, "apiproducts"));
      ghost var c1 := calls;
      var list := Iterate(body);
      if list.None? {
        ThenStep(c0, get, c1, Abort, calls);
        return Aborted;
      }
      var products := list.value;
      var i := 0;
      while i < |products|
        invariant 0 <= i <= |products|
        invariant calls == c1 + Seq(products[..i], ProductStepFn(env)).calls
        invariant Seq(products[..i], ProductStepFn(env)).outcome == Completed
      {
        ghost var c2 := calls;
        var _ := DeleteEntities(ProductEntity(products[i]));
        LoopStep(products, i, ProductStepFn(env), c1, c2, ProductStep(env, products[i]), calls);
        i := i + 1;
      }
      assert products[..i] == products;
      ThenStep(c0, get, c1, Seq(products, ProductStepFn(env)), calls);
      return Completed;
    }

    method DeleteReports() returns (outcome: Outcome)
      modifies this
      ensures calls == old(calls) + ReportsPass(env).calls
      ensures outcome == ReportsPass(env).outcome
    {
      ghost var c0 := calls;
      var body := GetEntities("reports");
      ghost var get := Issue(ListCall(env, "reports"));
      ghost var c1 := calls;
      var qualifier := Prop(body, "qualifier");
      if qualifier.None? {
        ThenStep(c0, get, c1, Abort, calls);
        return Aborted;
      }
      var list := Iterate(qualifier.value);
      if list.None? {
        ThenStep(c0, get, c1, Abort, calls);
        return Aborted;
      }
      var reports := list.value;
      var i := 0;
      while i < |reports|
        invariant 0 <= i <= |reports|
        invariant calls == c1 + Seq(reports[..i], ReportStepFn(env)).calls
        invariant Seq(reports[..i], ReportStepFn(env)).outcome == Completed
      {
        ghost var c2 := calls;
        outcome := DeleteReport(reports[i]);
        LoopStep(reports, i, ReportStepFn(env), c1, c2, ReportStep(env, reports[i]), calls);
        if outcome == Aborted {
          ThenStep(c0, get, c1, Seq(reports, ReportStepFn(env)), calls);
          return;
        }
        i := i + 1;
      }
      assert reports[..i] == reports;
      ThenStep(c0, get, c1, Seq(reports, ReportStepFn(env)), calls);
      return Completed;
    }

    /** One iteration of the report loop; `report.name` throws on a nullish report. */
    method DeleteReport(report: Value) returns (outcome: Outcome)
      modifies this
      ensures calls == old(calls) + ReportStep(env, report).calls
      ensures outcome == ReportStep(env, report).outcome
    {
      var name := Prop(report, "name");
      if name.None? {
        return Aborted;
      }
      var _ := DeleteEntities(ReportEntity(name.value));
      return Completed;
    }

    /** One iteration of the shared-flow or proxy loop: undeploy every environment entry, then delete. */
    method DeleteDeployable(kind: string, name: Value) returns (outcome: Outcome)
      modifies this
      ensures calls == old(calls) + DeployableStep(env, kind, name).calls
      ensures outcome == DeployableStep(env, kind, name).outcome
    {
      ghost var c0 := calls;
      var resp := GetEntities(DeploymentsEntity(kind, name));
      ghost var get := Issue(ListCall(env, DeploymentsEntity(kind, name)));
      ghost var c1 := calls;
      var environments := Prop(resp, "environment");
      if environments.None? {
        ThenStep(c0, get, c1, Abort, calls);
        return Aborted;
      }
      var list := Iterate(environments.value);
      if list.None? {
        ThenStep(c0, get, c1, Abort, calls);
        return Aborted;
      }
      outcome := UndeployEach(kind, name, list.value);
      ghost var undeploys := Seq(list.value, UndeployStepFn(env, kind, name));
      ghost var delete := Issue(DeleteCall(env, DeployableEntity(kind, name)));
      if outcome == Aborted {
        ThenStep(c0, get, c1, Then(undeploys, delete), calls);
        return;
      }
      ghost var c2 := calls;
      var _ := DeleteEntities(DeployableEntity(kind, name));
      ThenStep(c1, undeploys, c2, delete, calls);
      ThenStep(c0, get, c1, Then(undeploys, delete), calls);
    }

    /** `for (e of resp.environment)`. */
    method UndeployEach(kind: string, name: Value, entries: seq<Value>) returns (outcome: Outcome)
      modifies this
      ensures calls == old(calls) + Seq(entries, UndeployStepFn(env, kind, name)).calls
      ensures outcome == Seq(entries, UndeployStepFn(env, kind, name)).outcome
    {
      ghost var c0 := calls;
      var i := 0;
      while i < |entries|
        invariant 0 <= i <= |entries|
        invariant calls == c0 + Seq(entries[..i], UndeployStepFn(env, kind, name)).calls
        invariant Seq(entries[..i], UndeployStepFn(env, kind, name)).outcome == Completed
      {
        ghost var c1 := calls;
        outcome := Undeploy(kind, name, entries[i]);
        LoopStep(entries, i, UndeployStepFn(env, kind, name), c0, c1, UndeployStep(env, kind, name, entries[i]), calls);
        if outcome == Aborted {
          return;
        }
        i := i + 1;
      }
      assert entries[..i] == entries;
      return Completed;
    }

    /** Undeploy the first revision of one environment entry; `e.revision[0].name` may throw. */
    method Undeploy(kind: string, name: Value, entry: Value) returns (outcome: Outcome)
      modifies this
      ensures calls == old(calls) + UndeployStep(env, kind, name, entry).calls
      ensures outcome == UndeployStep(env, kind, name, entry).outcome
    {
      var revision := RevisionName(entry);
      if revision.None? {
        return Aborted;
      }
      var _ := DeleteEntities(UndeployEntity(kind, name, EnvName(entry), revision.value));
      return Completed;
    }

    method DeleteSharedFlows() returns (outcome: Outcome)
      modifies this
      ensures calls == old(calls) + SharedFlowsPass(env).calls
      ensures outcome == SharedFlowsPass(env).outcome
    {
      ghost var c0 := calls;
      var body := GetEntities("sharedflows");
      ghost var get := Issue(ListCall(env, "sharedflows"));
      ghost var c1 := calls;
      var list := Iterate(body);
      if list.None? {
        ThenStep(c0, get, c1, Abort, calls);
        return Aborted;
      }
      outcome := DeleteEachDeployable(SharedFlowsKind, list.value);
      ThenStep(c0, get, c1, Seq(list.value, DeployableStepFn(env, SharedFlowsKind)), calls);
    }

    method DeleteAPIProxies() returns (outcome: Outcome)
      modifies this
      ensures calls == old(calls) + ProxiesPass(env).calls
      ensures outcome == ProxiesPass(env).outcome
    {
      ghost var c0 := calls;
      var body := GetEntities("apis");
      ghost var get := Issue(ListCall(env, "apis"));
      ghost var c1 := calls;
      var apis := FilterProxies(body);
      if apis.None? {
        ThenStep(c0, get, c1, Abort, calls);
        return Aborted;
      }
      outcome := DeleteEachDeployable(ProxiesKind, apis.value);
      ThenStep(c0, get, c1, Seq(apis.value, DeployableStepFn(env, ProxiesKind)), calls);
    }

    /** The `for...of` loop over shared flows or proxies. */
    method DeleteEachDeployable(kind: string, names: seq<Value>) returns (outcome: Outcome)
      modifies this
      ensures calls == old(calls) + Seq(names, DeployableStepFn(env, kind)).calls
      ensures outcome == Seq(names, DeployableStepFn(env, kind)).outcome
    {
      ghost var c0 := calls;
      var i := 0;
      while i < |names|
        invariant 0 <= i <= |names|
        invariant calls == c0 + Seq(names[..i], DeployableStepFn(env, kind)).calls
        invariant Seq(names[..i], DeployableStepFn(env, kind)).outcome == Completed
      {
        ghost var c1 := calls;
        outcome := DeleteDeployable(kind, names[i]);
        LoopStep(names, i, DeployableStepFn(env, kind), c0, c1, DeployableStep(env, kind, names[i]), calls);
        if outcome == Aborted {
          return;
        }
        i := i + 1;
      }
      assert names[..i] == names;
      return Completed;
    }

    method DeleteAPIPortals() returns (outcome: Outcome)
      modifies this
      ensures calls == old(calls) + PortalsPass(env).calls
      ensures outcome == PortalsPass(env).outcome
    {
      ghost var c0 := calls;
      var token := GetAccessToken();
      ghost var exchange := Issue(TokenCall(env));
      ghost var ct := calls;
      var list := GetPortals(token);
      ghost var get := Issue(PortalsListCall(env, token));
      ghost var c1 := calls;
      if list.None? {
        ThenStep(ct, get, c1, Abort, calls);
        ThenStep(c0, exchange, ct, Then(get, Abort), calls);
        return Aborted;
      }
      var portals := list.value;
      var i := 0;
      while i < |portals|
        invariant 0 <= i <= |portals|
        invariant calls == c1 + Seq(portals[..i], PortalStepFn(env, token)).calls
        invariant Seq(portals[..i], PortalStepFn(env, token)).outcome == Completed
      {
        ghost var c2 := calls;
        DeletePortal(token, portals[i]);
        LoopStep(portals, i, PortalStepFn(env, token), c1, c2, PortalStep(env, token, portals[i]), calls);
        i := i + 1;
      }
      assert portals[..i] == portals;
      ThenStep(ct, get, c1, Seq(portals, PortalStepFn(env, token)), calls);
      ThenStep(c0, exchange, ct, Then(get, Seq(portals, PortalStepFn(env, token))), calls);
      return Completed;
    }

    method DeleteSpecs() returns (outcome: Outcome)
      modifies this
      ensures calls == old(calls) + SpecsPass(env).calls
      ensures outcome == SpecsPass(env).outcome
    {
      ghost var c0 := calls;
      var token := GetAccessToken();
      ghost var exchange := Issue(TokenCall(env));
      ghost var ct := calls;
      var list := GetSpecs(token);
      ghost var get := Issue(SpecsListCall(env, token));
      ghost var c1 := calls;
      if list.None? {
        ThenStep(ct, get, c1, Abort, calls);
        ThenStep(c0, exchange, ct, Then(get, Abort), calls);
        return Aborted;
      }
      var specs := list.value;
      var i := 0;
      while i < |specs|
        invariant 0 <= i <= |specs|
        invariant calls == c1 + Seq(specs[..i], SpecStepFn(env, token)).calls
        invariant Seq(specs[..i], SpecStepFn(env, token)).outcome == Completed
      {
        ghost var c2 := calls;
        DeleteSpec(token, specs[i]);
        LoopStep(specs, i, SpecStepFn(env, token), c1, c2, SpecStep(env, token, specs[i]), calls);
        i := i + 1;
      }
      assert specs[..i] == specs;
      ThenStep(ct, get, c1, Seq(specs, SpecStepFn(env, token)), calls);
      ThenStep(c0, exchange, ct, Then(get, Seq(specs, SpecStepFn(env, token))), calls);
      return Completed;
    }

    method Run() returns (outcome: Outcome)
      modifies this
      ensures calls == old(calls) + RunAll(env).calls
      ensures outcome == RunAll(env).outcome
    {
      ghost var c0 := calls;
      outcome := DeleteAppsAndDevelopers();
      ghost var done := AppsPass(env);
      if outcome == Aborted {
        return;
      }
      ghost var c1 := calls;
      outcome := DeleteAPIProducts();
      ThenStep(c0, done, c1, ProductsPass(env), calls);
      done := Then(done, ProductsPass(env));
      if outcome == Aborted {
        return;
      }
      c1 := calls;
      outcome := DeleteReports();
      ThenStep(c0, done, c1, ReportsPass(env), calls);
      done := Then(done, ReportsPass(env));
      if outcome == Aborted {
        return;
      }
      c1 := calls;
      outcome := DeleteSharedFlows();
      ThenStep(c0, done, c1, SharedFlowsPass(env), calls);
      done := Then(done, SharedFlowsPass(env));
      if outcome == Aborted {
        return;
      }
      c1 := calls;
      outcome := DeleteAPIProxies();
      ThenStep(c0, done, c1, ProxiesPass(env), calls);
      done := Then(done, ProxiesPass(env));
      if outcome == Aborted {
        return;
      }
      c1 := calls;
      outcome := DeleteAPIPortals();
      ThenStep(c0, done, c1, PortalsPass(env), calls);
      done := Then(done, PortalsPass(env));
      if outcome == Aborted {
        return;
      }
      c1 := calls;
      outcome := DeleteSpecs();
      ThenStep(c0, done, c1, SpecsPass(env), calls);
    }
  }
}
