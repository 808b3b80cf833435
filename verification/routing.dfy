/**
 * How the pieces meet: the gate admits exactly the tenants the routing table has
 * entries for, a request admitted for header h is routed to the entry built for h, and
 * an environment the context initializer completed, with the driver key set, yields a
 * table for every listed tenant. The initializer never checks the driver key, so its
 * success alone does not make the table buildable.
 */
module Routing {
  import opened Wrappers
  import opened Registry
  import opened TenantKeys
  import opened Properties
  import opened CurrentTenant
  import opened Interceptor
  import opened TenantsConfiguration
  import opened ContextInitializer

  /** The gate and the table agree: a header value is admitted exactly when the table
      resolves it, and the entry it resolves to was built from that tenant's own keys. */
  lemma AdmittedHeaderSelectsItsEntry(tenants: Tenants, env: map<string, string>, header: Option<string>)
    requires Buildable(tenants.names, env)
    ensures Decide(tenants, header).SelectTenant? <==> ResolveTarget(Table(tenants.names, env), header).Some?
    ensures Decide(tenants, header).SelectTenant? ==>
              ResolveTarget(Table(tenants.names, env), Some(Decide(tenants, header).tenantId))
              == Some(DataSourceConfig(env[UrlKey(header.value)], env[UsernameKey(header.value)],
                                       env[PasswordKey(header.value)], env[DriverKey]))
  {
    if header.Some? && header.value in tenants.names {
      EntryForCharacterised(env, header.value);
    }
  }

  /** One request on unit `u` whose handler reads the routing target and completes: preHandle,
      then the lookup by the current tenant, then postHandle. A rejected request never reaches
      the handler or postHandle, so its slot is left as it was. */
  method ServeRequest(interceptor: TenantInterceptor, table: map<string, DataSourceConfig>, env: map<string, string>,
                      slot: Tenant, response: Response, u: UnitId, header: Option<string>)
    returns (proceed: bool, target: Option<DataSourceConfig>)
    requires Buildable(interceptor.tenants.names, env) && table == Table(interceptor.tenants.names, env)
    modifies slot, response
    ensures proceed <==> header.Some? && header.value in interceptor.tenants.names
    ensures proceed ==> target == Some(DataSourceConfig(env[UrlKey(header.value)], env[UsernameKey(header.value)],
                                                        env[PasswordKey(header.value)], env[DriverKey]))
    ensures proceed ==> slot.slots == old(slot.slots) - {u}
    ensures !proceed ==> target.None? && slot.slots == old(slot.slots)
    ensures proceed ==> response.status == old(response.status) && response.body == old(response.body)
    ensures !proceed ==> response.status == BadRequest
    ensures !proceed ==> response.body == old(response.body) + [ProblemOf(Decide(interceptor.tenants, header))]
  {
    proceed := interceptor.PreHandle(header, response, slot, u);
    if !proceed {
      return proceed, None;
    }
    AdmittedHeaderSelectsItsEntry(interceptor.tenants, env, header);
    target := ResolveTarget(table, DetermineCurrentLookupKey(slot, u));
    interceptor.PostHandle(slot, u);
  }

  /** Two requests in turn on the same unit for two known tenants: each is routed to its own
      entry, and the first leaves nothing behind for the second. */
  method ConsecutiveRequests(interceptor: TenantInterceptor, table: map<string, DataSourceConfig>, env: map<string, string>,
                             slot: Tenant, response: Response, u: UnitId, first: string, second: string)
    returns (firstTarget: Option<DataSourceConfig>, secondTarget: Option<DataSourceConfig>)
    requires Buildable(interceptor.tenants.names, env) && table == Table(interceptor.tenants.names, env)
    requires first in interceptor.tenants.names && second in interceptor.tenants.names
    modifies slot, response
    ensures firstTarget == Some(table[first]) && secondTarget == Some(table[second])
    ensures slot.Get(u) == None
    ensures response.status == old(response.status) && response.body == old(response.body)
  {
    var ok;
    ok, firstTarget := ServeRequest(interceptor, table, env, slot, response, u, Some(first));
    ok, secondTarget := ServeRequest(interceptor, table, env, slot, response, u, Some(second));
    EntryForCharacterised(env, first);
    EntryForCharacterised(env, second);
  }

  /** Startup: when the context initializer completes on an environment naming the tenants,
      and the driver is configured, the routing table can be built for those tenants from the
      resulting environment. */
  lemma InitializedEnvironmentIsBuildable(sources: seq<PropertySource>, files: map<string, map<string, string>>)
    requires InitializeSpec(sources, files).0.None?
    requires Resolve(sources, NamesKey).Some?
    requires DriverKey in Flatten(InitializeSpec(sources, files).1)
    ensures Buildable(FromList(CommaList(Resolve(sources, NamesKey).value)).names,
                      Flatten(InitializeSpec(sources, files).1))
  {
    var env := Flatten(InitializeSpec(sources, files).1);
    forall n | n in FromList(CommaList(Resolve(sources, NamesKey).value)).names
      ensures EntryFor(env, n).Success?
    {
      InitializedSettingsAreReadable(sources, files, n, Url);
      InitializedSettingsAreReadable(sources, files, n, Username);
      InitializedSettingsAreReadable(sources, files, n, Password);
      EntryForCharacterised(env, n);
    }
  }

  /** The `tenants` bean reads the names from the environment the initializer leaves. When
      no source the initializer starts from is named after a listed tenant, those sources
      stay in front, so the bean yields exactly the listed tenants, and with the driver
      configured their table can be built. */
  lemma InitializedTenantsAreRead(sources: seq<PropertySource>, files: map<string, map<string, string>>)
    requires InitializeSpec(sources, files).0.None?
    requires Resolve(sources, NamesKey).Some?
    requires forall k :: 0 <= k < |sources| ==> sources[k].name !in CommaList(Resolve(sources, NamesKey).value)
    requires DriverKey in Flatten(InitializeSpec(sources, files).1)
    ensures TenantsOf(Flatten(InitializeSpec(sources, files).1)) ==
              Success(FromList(CommaList(Resolve(sources, NamesKey).value)))
    ensures Buildable(FromList(CommaList(Resolve(sources, NamesKey).value)).names,
                      Flatten(InitializeSpec(sources, files).1))
  {
    InitializeKeepsNames(sources, files);
    InitializedEnvironmentIsBuildable(sources, files);
  }

  /** A tenant named after an existing source replaces that source. With the test
      environment's "default" source listing a tenant "default" whose file holds its three
      keys but not the names key, initialize succeeds, but the names key is gone from the
      final environment and the `tenants` bean fails. */
  lemma TenantNamedAfterSourceHidesNames(properties: map<string, string>)
    requires UrlKey("default") in properties && UsernameKey("default") in properties
    requires PasswordKey("default") in properties && NamesKey !in properties
    ensures InitializeSpec(TestSources("default"), map["default" := properties]) ==
              (None, [PropertySource("default", properties)])
    ensures TenantsOf(Flatten(InitializeSpec(TestSources("default"), map["default" := properties]).1)) ==
              Failure(RequiredKeyNotFound(NamesKey))
  {
    var files := map["default" := properties];
    var source := PropertySource("default", properties);
    TestSourcesOutcome("default", files);
    assert Resolve(TestSources("default"), LocationKey).Some?;
    assert LoadProperties(files, "default") == properties;
    RemoveFirstNamedAt(TestSources("default"), "default", 0);
    assert AddedLast(TestSources("default"), source) == [source];
    assert Resolve([source], NamesKey).None?;
  }

  /** initialize checks only a tenant's url, username and password: with a file holding
      those three keys but no driver key, initialize succeeds, yet the tenant's table entry
      cannot be built from the final environment. */
  lemma DriverKeyIsNotChecked(tenant: string, properties: map<string, string>)
    requires tenant != "" && tenant != "default" && IsTrimmed(tenant) && ',' !in tenant
    requires UrlKey(tenant) in properties && UsernameKey(tenant) in properties && PasswordKey(tenant) in properties
    requires DriverKey !in properties
    ensures InitializeSpec(TestSources(tenant), map[tenant := properties]).0.None?
    ensures !Buildable({tenant}, Flatten(InitializeSpec(TestSources(tenant), map[tenant := properties]).1))
  {
    var files := map[tenant := properties];
    var source := PropertySource(tenant, properties);
    TestSourcesOutcome(tenant, files);
    TestSourcesLoad(tenant, files);
    assert LoadProperties(files, tenant) == properties;
    var final := TestSources(tenant) + [source];
    assert InitializeSpec(TestSources(tenant), files) == (None, final);
    assert DriverKey != LocationKey && DriverKey != NamesKey by {
      assert DriverKey[0] == 's' && LocationKey[0] == 'd' && NamesKey[0] == 'd';
    }
    AppendedResolvesLast(TestSources(tenant), source, DriverKey);
    EntryForCharacterised(Flatten(final), tenant);
  }
}
