# Tenant routing of a multi-tenant Spring Boot service, in Dafny

This project models the tenant-routing core of a service that keeps each tenant's data in a separate database. The core has five parts:

- **Current-tenant slot.** `Tenant` is a static `ThreadLocal<String>` with `get`, `set` and `unset`. It is modelled as the class `CurrentTenant.Tenant`. Its one field maps an abstract execution-unit id to the tenant bound on that unit. A unit with no entry has no value: `ThreadLocal.get` returns null before any `set` and after `remove`.
- **Registry.** `Tenants` is a Lombok value holding a `Set<String>` of tenant names. It is modelled as the datatype `Registry.Tenants`.
- **Request gate.** `TenantInterceptor.preHandle` sorts the optional `X-Tenant-Id` header into one of three outcomes:
  - missing: status 400 and the "Missing database tenant" problem;
  - unknown: status 400 and the "Unknown database tenant" problem, carrying the header in `tenantId`;
  - known: the slot of the current unit is bound to the header and the request proceeds.

  `postHandle` empties the slot. The problem object follows sections 3.1 and 3.2 of RFC 7807. It is modelled as `Interceptor.ProblemDetail`, with status, title, detail and a map of extension members. The servlet response is a class recording its status and the problems printed to its writer.
- **Routing table.** `TenantsConfiguration` has three parts, each modelled separately:
  - `tenants` reads the required `datasource.tenants.names` property as a set;
  - `targetDataSources` loops over the registry and builds one `DataSourceConfig` per tenant. Each entry takes its url, username and password from `datasource.tenant.<name>.url` / `.username` / `.password`, and the shared driver from `spring.datasource.driver-class-name`. A missing key fails with the framework's `IllegalStateException`;
  - `determineCurrentLookupKey` returns the current slot value, and the lookup in the table returns an `Option`.
- **Context initializer.** `TenantsContextInitializer.initialize` walks the configured tenant list in order. For each tenant it:
  1. requires `datasource.tenants.location`;
  2. loads the tenant's properties;
  3. requires the url, username and password keys, in that order. The first missing key fails with `"Property '<key>' is required"`;
  4. appends the properties as the lowest-precedence property source named after the tenant.

  The environment is an ordered list of named property sources. A key takes its value from the first source that holds it, and `addLast` first removes a same-named source.

`Routing` joins the parts:
- a header the gate admits is one the table resolves;
- the entry it resolves to is the one built from that header's own keys;
- an environment the initializer completed, with the driver key set, yields a table for every listed tenant. The initializer never checks the driver key, so a successful initialize alone does not guarantee that `targetDataSources` succeeds;
- the `tenants` bean, reading the final environment, yields exactly the listed tenants unless a tenant is named after an existing property source, which `addLast` then replaces.

## Model

| member | source | states |
|---|---|---|
| `CurrentTenant.Tenant.constructor` | src/main/java/com/example/internal/Tenant.java:5 | before any `set`, `get` yields no value on every unit |
| `CurrentTenant.Tenant.Get` | src/main/java/com/example/internal/Tenant.java:7-9 | `get` on a unit yields a value exactly when that unit is bound, and then the bound name |
| `CurrentTenant.Tenant.Set` | src/main/java/com/example/internal/Tenant.java:11-13 | afterwards `get` on the unit returns the new name whatever it held before (last write wins); every other unit keeps its value |
| `CurrentTenant.Tenant.Unset` | src/main/java/com/example/internal/Tenant.java:15-17 | afterwards `get` on the unit yields no value; other units keep theirs; on an empty slot nothing changes (idempotent) |
| `Registry.FromList` | src/main/java/com/example/internal/TenantsConfiguration.java:21 | a name is in the registry exactly when it occurs in the configured list |
| `Registry.NamesAndEquality` | src/main/java/com/example/internal/Tenants.java:8-12 | the accessor returns the set given to the constructor; two registries are equal exactly when their sets are |
| `Registry.FromListIgnoresOrderAndRepeats` | src/main/java/com/example/internal/TenantsConfiguration.java:21 | lists with the same members, in any order and with any repetitions, give the same registry |
| `TenantKeys.TenantOfSettingKey` | src/main/java/com/example/internal/TenantsContextInitializer.java:31-33 | the key `"datasource.tenant." + t + ".url"` (or `.username`, `.password`) can be parsed back to exactly `t` |
| `TenantKeys.SettingKeyInjective` | src/main/java/com/example/internal/TenantsConfiguration.java:41-43 | two (tenant, setting) pairs share a key only if they are the same pair, so no tenant reads another's settings |
| `TenantKeys.SettingKeyIsNotGlobal` | src/main/java/com/example/internal/TenantsConfiguration.java:41-44 | no per-tenant key equals the names, location or driver key |
| `Properties.PropertyRequiredNamesKey` | src/main/java/com/example/internal/TenantsContextInitializer.java:45-49 | the message `"Property '" + key + "' is required"` names exactly the missing key (it parses back to it) |
| `Properties.RequiredProperty` | src/main/java/com/example/internal/TenantsConfiguration.java:41-44 | a required read succeeds exactly when the key is present, with its value; otherwise it fails with "Required key '<key>' not found" |
| `Properties.Resolve` | src/main/java/com/example/internal/TenantsContextInitializer.java:23-26 | a key has a value exactly when some source holds it, and the value is that of the first source holding it |
| `Properties.Flatten` | src/main/java/com/example/internal/TenantsConfiguration.java:35-44 | the flat environment holds exactly the keys some source holds, each with the value the ordered lookup gives |
| `Properties.CommaListOfJoin` | src/main/java/com/example/internal/TenantsConfiguration.java:21 | non-empty, trimmed, comma-free names written comma-separated are read back as the same list in the same order |
| `Interceptor.Decide` | src/main/java/com/example/internal/TenantInterceptor.java:30-41 | exactly one of: absent header gives missing; present but unregistered gives unknown with the header; registered gives select with the header. The missing check comes first |
| `Interceptor.RejectionsAreDistinguishable` | src/main/java/com/example/internal/TenantInterceptor.java:52-71 | both problems have status 400; their titles differ; the missing problem has no properties; the unknown problem has exactly `tenantId`, holding the header verbatim, so different headers give different problems |
| `Interceptor.DecisionExamples` | src/test/java/com/example/internal/TenantInterceptorTest.java:19-58 | with registry {"company-a"}: no header is missing; "foo" and "Company-A" are unknown (membership is case-sensitive); "company-a" is selected |
| `Interceptor.Response.Reject` | src/main/java/com/example/internal/TenantInterceptor.java:57-58 | the status becomes the problem's status and the problem is appended to what the writer has printed |
| `Interceptor.TenantInterceptor.PreHandle` | src/main/java/com/example/internal/TenantInterceptor.java:30-41 | returns true exactly when the header is present and registered; then the unit's slot holds exactly the header and nothing is written; otherwise the slot is untouched, status 400 is set and the problem for the decision is printed: missing-tenant without a header, unknown-tenant carrying the header otherwise |
| `Interceptor.TenantInterceptor.PostHandle` | src/main/java/com/example/internal/TenantInterceptor.java:44-50 | the unit's slot is emptied whatever it held; other units keep theirs |
| `Interceptor.TenantInterceptor.RespondMissingTenant` | src/main/java/com/example/internal/TenantInterceptor.java:52-60 | returns false, sets status 400 and prints the missing-tenant problem |
| `Interceptor.TenantInterceptor.RespondUnknownTenant` | src/main/java/com/example/internal/TenantInterceptor.java:62-71 | returns false, sets status 400 and prints the unknown-tenant problem carrying the value |
| `Interceptor.TenantInterceptor.SelectTenantAndContinue` | src/main/java/com/example/internal/TenantInterceptor.java:73-77 | returns true and binds the unit's slot to the value |
| `TenantsConfiguration.TenantsOf` | src/main/java/com/example/internal/TenantsConfiguration.java:20-22 | fails with "Required key 'datasource.tenants.names' not found" exactly when the names property is absent; otherwise the registry holds exactly the names of its comma-separated value |
| `TenantsConfiguration.EntryForCharacterised` | src/main/java/com/example/internal/TenantsConfiguration.java:39-46 | an entry is built exactly when the url, username, password and driver keys are present, with their values; otherwise the first absent key (url, then username, then password, then the driver) is reported |
| `TenantsConfiguration.Table` | src/main/java/com/example/internal/TenantsConfiguration.java:35-49 | the table has exactly one entry per registry name |
| `TenantsConfiguration.TargetDataSources` | src/main/java/com/example/internal/TenantsConfiguration.java:35-50 | succeeds exactly when every registry name has all its keys; the result's keys are the registry names, and entry `n` holds `n`'s url, username and password with the shared driver; a failure is the failure of some registry name; a success is exactly `Table` of the registry names |
| `TenantsConfiguration.DetermineCurrentLookupKey` | src/main/java/com/example/internal/TenantsConfiguration.java:55-57 | the lookup key is the tenant bound on the current unit, and there is none exactly when the unit is unbound |
| `TenantsConfiguration.ResolveTarget` | src/main/java/com/example/internal/TenantsConfiguration.java:25-32 | the lookup yields a data source exactly when a tenant is bound and in the table, and then that tenant's entry |
| `ContextInitializer.RequireProperty` | src/main/java/com/example/internal/TenantsContextInitializer.java:45-49 | fails exactly when the key is absent (an empty value passes), with message `"Property '" + key + "' is required"` |
| `ContextInitializer.RequireSettings` | src/main/java/com/example/internal/TenantsContextInitializer.java:31-33 | passes exactly when url, username and password keys are all present; otherwise reports the first missing one in that order |
| `ContextInitializer.RemoveFirstNamed` | src/main/java/com/example/internal/TenantsContextInitializer.java:35-36 | removing by name keeps every source with another name, and changes nothing when no source has the name |
| `ContextInitializer.RemoveFirstNamedAt` | src/main/java/com/example/internal/TenantsContextInitializer.java:35-36 | when the first source with the name is at index `i`, exactly that source is taken out and the others keep their order |
| `ContextInitializer.AddedLast` | src/main/java/com/example/internal/TenantsContextInitializer.java:35-36 | the new source ends up last, after the old sources with the first same-named one removed; with no such source it is simply appended; every source with another name stays |
| `ContextInitializer.AddedLastAt` | src/main/java/com/example/internal/TenantsContextInitializer.java:35-36 | when a same-named source is first at index `i`, `addLast` drops exactly it, keeps the others in their order (their precedence) and puts the new source last, so the length is unchanged |
| `ContextInitializer.Environment.AddLast` | src/main/java/com/example/internal/TenantsContextInitializer.java:35-36 | the environment's sources become those of `addLast` on the old sources |
| `ContextInitializer.Initialize` | src/main/java/com/example/internal/TenantsContextInitializer.java:20-43 | the error and the final sources are those of walking the tenant list in order and stopping at the first exception |
| `ContextInitializer.AddedLastIsLowestPrecedence` | src/main/java/com/example/internal/TenantsContextInitializer.java:35-36 | appending a newly named source changes no value already present, and makes each of its keys readable |
| `ContextInitializer.AppendedResolvesLast` | src/main/java/com/example/internal/TenantsContextInitializer.java:35-36 | a source placed after all others is consulted only for keys no other source holds |
| `ContextInitializer.LoadAllKeepsOthers` | src/main/java/com/example/internal/TenantsContextInitializer.java:23-42 | a source whose name is not a listed tenant survives a successful loop |
| `ContextInitializer.LoadAllAppendsEveryTenant` | src/main/java/com/example/internal/TenantsContextInitializer.java:23-42 | after a successful loop every listed tenant's properties are a source of the environment, and they hold its three keys |
| `ContextInitializer.InitializedSettingsAreReadable` | src/main/java/com/example/internal/TenantsContextInitializer.java:20-43 | after a successful initialize, each listed tenant's url, username and password can be read from the environment |
| `ContextInitializer.ResolveInPrefix` | src/main/java/com/example/internal/TenantsContextInitializer.java:35-36 | a key some source of a prefix holds reads the same whatever sources follow, so sources appended last never override it |
| `ContextInitializer.RemoveFirstNamedAfterPrefix` | src/main/java/com/example/internal/TenantsContextInitializer.java:35-36 | removing a name that no source of a prefix carries leaves that prefix in place |
| `ContextInitializer.LoadAllKeepsPrefix` | src/main/java/com/example/internal/TenantsContextInitializer.java:23-42 | sources not named after any listed tenant stay, in order, at the front of the sources a successful loop ends with |
| `ContextInitializer.LoadAllKeepsSources` | src/main/java/com/example/internal/TenantsContextInitializer.java:23-42 | when no starting source is named after a listed tenant, the starting sources are the front of the final ones |
| `ContextInitializer.InitializeKeepsNames` | src/main/java/com/example/internal/TenantsContextInitializer.java:20-43 | when no starting source is named after a listed tenant, the names key reads the same before and after a successful initialize |
| `ContextInitializer.FailureKeepsEarlierSources` | src/main/java/com/example/internal/TenantsContextInitializer.java:23-42 | when the first i tenants load and tenant i fails, that failure is reported and the sources appended for the first i tenants stay |
| `ContextInitializer.TenantWithoutPropertiesFile` | src/test/java/com/example/internal/TenantsContextInitializerTest.java:33-51 | a tenant with no properties file fails on its url key: `Property 'datasource.tenant.tenant-b.url' is required` |
| `ContextInitializer.ReadingTenantPropertiesFromFile` | src/test/java/com/example/internal/TenantsContextInitializerTest.java:15-31 | a tenant whose file holds its three keys loads, and the file's values become readable from the environment |
| `Routing.AdmittedHeaderSelectsItsEntry` | src/main/java/com/example/internal/TenantsConfiguration.java:55-57 | the gate admits a header exactly when the table resolves it, and an admitted header `h` resolves to the entry built from `h`'s own keys |
| `Routing.ServeRequest` | src/main/java/com/example/internal/TenantInterceptor.java:30-50 | a request proceeds exactly when its header is registered; then its data access is routed to the entry built for that header, and the slot is emptied afterwards; a rejected request gets no target, leaves the slot as it was, and gets status 400 with the problem for its decision; an admitted request leaves the response untouched |
| `Routing.ConsecutiveRequests` | src/main/java/com/example/internal/TenantInterceptor.java:44-50 | two requests in turn on one unit are each routed to their own tenant's entry, and the unit ends with no tenant bound; the response is untouched |
| `Routing.InitializedEnvironmentIsBuildable` | src/main/java/com/example/internal/TenantsConfiguration.java:35-49 | when initialize completes and the driver is configured, every listed tenant's entry can be built from the resulting environment |
| `Routing.InitializedTenantsAreRead` | src/main/java/com/example/internal/TenantsConfiguration.java:19-22 | when initialize completes, no starting source is named after a listed tenant and the driver is configured, the `tenants` bean, reading the final environment, yields exactly the listed tenants, and their table can be built |
| `Routing.DriverKeyIsNotChecked` | src/main/java/com/example/internal/TenantsContextInitializer.java:31-33 | initialize checks only url, username and password: a tenant file without the driver key lets initialize succeed while the tenant's table entry cannot be built |
| `Routing.TenantNamedAfterSourceHidesNames` | src/main/java/com/example/internal/TenantsContextInitializer.java:35-36 | a tenant named "default", listed in the test environment's "default" source, replaces that source: initialize succeeds, but the names key is gone and the `tenants` bean fails |

## Left out

- HTTP and serialisation: servlet requests, the header lookup itself, `ObjectMapper`, JSON and logging are not modelled. The header arrives as an `Option<string>`. The response records the problem objects printed to it, not their JSON. The problem's `type` and `instance` members are not modelled.
- Threads: execution units are abstract ids. There is no concurrency; isolation is stated as "other units keep their value".
- Spring's invocation protocol: `postHandle` is an explicit call. The source clears the slot only in `postHandle`, and Spring calls it only after a handler completes normally. So a rejected request leaves the slot as it was, and so does a handler that throws. The model claims no clearing on those paths. `Routing.ServeRequest` covers only a handler that completes.
- `AbstractRoutingDataSource` internals: the default data source, lenient fallback and the exception for an unresolved key are left out. The lookup returns `Option`.
- TenantsConfiguration.TargetDataSources: which incomplete tenant's missing key is reported is not modelled. The source iterates the set the framework's conversion produces, in that set's order; the model promises only that the error is the first missing key of some incomplete tenant.
- HikariCP: a data source is the four settings it receives. Driver-class loading is not modelled.
- File I/O: the `files` parameter maps a tenant to the properties of its `<tenant>.properties` file. A tenant without a file gets empty properties, as `PropertiesLoaderUtils.loadAllProperties` gives for a missing resource. The path built by `Path.of` is not modelled; `datasource.tenants.location` is only required to be present. `IOException` wrapping is not modelled.
- Framework code: the ordered property-source lookup, `addLast` and the comma-separated list conversion are framework behaviour used by the core; they are not code of this repository. The comma-separated list conversion splits at every comma and trims each piece as `String.trim` does. Placeholder resolution (`${...}`) in property values is not modelled.
- Validations the code does not have: the code has no check for an empty tenant list or a duplicate name, so startup does not fail on either. An empty list gives an empty registry and an empty table. A repeated name collapses in the registry. In the initializer, a repeated name makes `addLast` move that tenant's source to the end (`ContextInitializer.AddedLastAt`). A tenant named after an existing property source replaces that source (`Routing.TenantNamedAfterSourceHidesNames`).
- Clearing on every path: the slot is not cleared after a rejected request or a handler that throws (see the invocation-protocol line above).
- `TenantsDatabaseInitializer` (Flyway migrations), the product entity, repository, controller and DTOs, `Application`, `ServiceConfiguration` and the test infrastructure are not part of this model.
