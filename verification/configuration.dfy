/**
 * The routing table: the registry read from the environment, one connection setting
 * per tenant built from the environment, and the lookup of the current tenant.
 */
module TenantsConfiguration {
  import opened Wrappers
  import opened Registry
  import opened TenantKeys
  import opened Properties
  import opened CurrentTenant

  /** The settings a HikariDataSource receives. */
  datatype DataSourceConfig = DataSourceConfig(
    url: string,
    username: string,
    password: string,
    driverClassName: string)

  /** The `tenants` bean: the required names property read as a set. */
  function TenantsOf(env: map<string, string>): (r: Result<Tenants, StartupError>)
    ensures r.Failure? <==> NamesKey !in env
    ensures r.Failure? ==> r.error == RequiredKeyNotFound(NamesKey)
    ensures r.Success? ==> forall n :: n in r.value.names <==> n in CommaList(env[NamesKey])
  {
    match RequiredProperty(env, NamesKey)
    case Failure(e) => Failure(e)
    case Success(value) => Success(FromList(CommaList(value)))
  }

  /** The four required reads for one tenant, in the order of the source:
      url, username, password, then the shared driver. */
  function EntryFor(env: map<string, string>, tenant: string): Result<DataSourceConfig, StartupError>
  {
    match RequiredProperty(env, UrlKey(tenant))
    case Failure(e) => Failure(e)
    case Success(url) =>
      match RequiredProperty(env, UsernameKey(tenant))
      case Failure(e) => Failure(e)
      case Success(username) =>
        match RequiredProperty(env, PasswordKey(tenant))
        case Failure(e) => Failure(e)
        case Success(password) =>
          match RequiredProperty(env, DriverKey)
          case Failure(e) => Failure(e)
          case Success(driver) => Success(DataSourceConfig(url, username, password, driver))
  }

  /** A tenant's entry is built exactly when its three keys and the driver key are present;
      it carries the values of those keys, and otherwise the first absent key is reported. */
  lemma EntryForCharacterised(env: map<string, string>, tenant: string)
    ensures EntryFor(env, tenant).Success? <==>
              UrlKey(tenant) in env && UsernameKey(tenant) in env && PasswordKey(tenant) in env && DriverKey in env
    ensures EntryFor(env, tenant).Success? ==>
              EntryFor(env, tenant).value == DataSourceConfig(env[UrlKey(tenant)], env[UsernameKey(tenant)],
                                                              env[PasswordKey(tenant)], env[DriverKey])
    ensures UrlKey(tenant) !in env ==> EntryFor(env, tenant) == Failure(RequiredKeyNotFound(UrlKey(tenant)))
    ensures UrlKey(tenant) in env && UsernameKey(tenant) !in env ==>
              EntryFor(env, tenant) == Failure(RequiredKeyNotFound(UsernameKey(tenant)))
    ensures UrlKey(tenant) in env && UsernameKey(tenant) in env && PasswordKey(tenant) !in env ==>
              EntryFor(env, tenant) == Failure(RequiredKeyNotFound(PasswordKey(tenant)))
    ensures UrlKey(tenant) in env && UsernameKey(tenant) in env && PasswordKey(tenant) in env && DriverKey !in env ==>
              EntryFor(env, tenant) == Failure(RequiredKeyNotFound(DriverKey))
  {
  }

  /** Every tenant of the set has all its keys. */
  predicate Buildable(names: set<string>, env: map<string, string>)
  {
    forall n :: n in names ==> EntryFor(env, n).Success?
  }

  /** The table when every tenant has all its keys: one entry per name. */
  function Table(names: set<string>, env: map<string, string>): (table: map<string, DataSourceConfig>)
    requires Buildable(names, env)
    ensures table.Keys == names
  {
    map n | n in names :: EntryFor(env, n).value
  }

  /** The `targetDataSources` bean: one entry per registry name, filled in a loop over the
      set. When some tenant's keys are incomplete it fails with the first missing key of
      one such tenant. */
  method TargetDataSources(tenants: Tenants, env: map<string, string>)
    returns (r: Result<map<string, DataSourceConfig>, StartupError>)
    ensures r.Success? <==> Buildable(tenants.names, env)
    ensures r.Success? ==> r.value.Keys == tenants.names
    ensures r.Success? ==> forall n :: n in tenants.names ==>
              r.value[n] == DataSourceConfig(env[UrlKey(n)], env[UsernameKey(n)], env[PasswordKey(n)], env[DriverKey])
    ensures r.Success? ==> r.value == Table(tenants.names, env)
    ensures r.Failure? ==> exists n :: n in tenants.names && EntryFor(env, n) == Failure(r.error)
  {
    var dataSources: map<string, DataSourceConfig> := map[];
    var remaining := tenants.names;
    while remaining != {}
      invariant remaining <= tenants.names
      invariant dataSources.Keys == tenants.names - remaining
      invariant forall n :: n in dataSources ==> EntryFor(env, n) == Success(dataSources[n])
      decreases remaining
    {
      var tenant :| tenant in remaining;
      EntryForCharacterised(env, tenant);
      var url := RequiredProperty(env, UrlKey(tenant));
      if url.Failure? { return Failure(url.error); }
      var username := RequiredProperty(env, UsernameKey(tenant));
      if username.Failure? { return Failure(username.error); }
      var password := RequiredProperty(env, PasswordKey(tenant));
      if password.Failure? { return Failure(password.error); }
      var driver := RequiredProperty(env, DriverKey);
      if driver.Failure? { return Failure(driver.error); }
      dataSources := dataSources[tenant := DataSourceConfig(url.value, username.value, password.value, driver.value)];
      remaining := remaining - {tenant};
    }
    forall n | n in tenants.names ensures EntryFor(env, n).Success? {
      EntryForCharacterised(env, n);
    }
    r := Success(dataSources);
  }

  /** determineCurrentLookupKey: the tenant bound on the current unit. */
  function DetermineCurrentLookupKey(slot: Tenant, u: UnitId): (key: Option<string>)
    reads slot
    ensures key.Some? <==> u in slot.slots
    ensures key.Some? ==> key.value == slot.slots[u]
  {
    slot.Get(u)
  }

  /** The data source the routing data source picks for a lookup key; none when no tenant
      is bound or the key is not in the table. */
  function ResolveTarget(table: map<string, DataSourceConfig>, key: Option<string>): (r: Option<DataSourceConfig>)
    ensures r.Some? <==> key.Some? && key.value in table
    ensures r.Some? ==> r.value == table[key.value]
  {
    if key.Some? && key.value in table then Some(table[key.value]) else None
  }
}
