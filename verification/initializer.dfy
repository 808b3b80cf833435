/**
 * The context initializer: for each configured tenant, in list order, it loads the
 * tenant's properties, requires its url, username and password keys, and appends the
 * properties to the environment as the lowest-precedence source named after the tenant.
 * The loaded properties files are a parameter: `files` maps a tenant to the properties
 * of its `<tenant>.properties` file, and a tenant without a file gets no properties.
 */
module ContextInitializer {
  import opened Wrappers
  import opened TenantKeys
  import opened Properties

  /** What loading a tenant's properties file yields: empty when the file is absent. */
  function LoadProperties(files: map<string, map<string, string>>, tenant: string): map<string, string>
  {
    if tenant in files then files[tenant] else map[]
  }

  /** requireProperty: only the presence of the key is checked, never its value. */
  function RequireProperty(properties: map<string, string>, name: string): (r: Option<StartupError>)
    ensures r.None? <==> name in properties
    ensures r.Some? ==> r.value.message == "Property '" + name + "' is required"
  {
    if name !in properties then Some(PropertyRequired(name)) else None
  }

  /** The three requireProperty calls for a tenant, in order; the first failure is the result. */
  function RequireSettings(properties: map<string, string>, tenant: string): (r: Option<StartupError>)
    ensures r.None? <==> UrlKey(tenant) in properties && UsernameKey(tenant) in properties
                          && PasswordKey(tenant) in properties
    ensures UrlKey(tenant) !in properties ==> r == Some(PropertyRequired(UrlKey(tenant)))
    ensures UrlKey(tenant) in properties && UsernameKey(tenant) !in properties ==>
              r == Some(PropertyRequired(UsernameKey(tenant)))
    ensures (UrlKey(tenant) in properties && UsernameKey(tenant) in properties
             && PasswordKey(tenant) !in properties) ==> r == Some(PropertyRequired(PasswordKey(tenant)))
  {
    var url := RequireProperty(properties, UrlKey(tenant));
    if url.Some? then url
    else
      var username := RequireProperty(properties, UsernameKey(tenant));
      if username.Some? then username
      else RequireProperty(properties, PasswordKey(tenant))
  }

  /** The first source with the given name, when one exists, is at index `i`. */
  predicate FirstNamedAt(sources: seq<PropertySource>, name: string, i: int)
  {
    0 <= i < |sources| && sources[i].name == name && forall j :: 0 <= j < i ==> sources[j].name != name
  }

  /** List.remove of the first source with the given name (sources are equal by name);
      with no source of that name, nothing changes. `RemoveFirstNamedAt` states what it
      removes. */
  function RemoveFirstNamed(sources: seq<PropertySource>, name: string): (r: seq<PropertySource>)
    ensures (forall q :: q in sources ==> q.name != name) ==> r == sources
    ensures forall q :: q in sources && q.name != name ==> q in r
  {
    if sources == [] then []
    else if sources[0].name == name then sources[1..]
    else [sources[0]] + RemoveFirstNamed(sources[1..], name)
  }

  /** Exactly the first source with the name is taken out; the others keep their order. */
  lemma {:induction false} RemoveFirstNamedAt(sources: seq<PropertySource>, name: string, i: int)
    requires FirstNamedAt(sources, name, i)
    ensures RemoveFirstNamed(sources, name) == sources[..i] + sources[i + 1..]
    ensures |RemoveFirstNamed(sources, name)| == |sources| - 1
  {
    if i == 0 {
      assert sources[..0] + sources[1..] == sources[1..];
    } else {
      assert sources[0].name != name;
      assert FirstNamedAt(sources[1..], name, i - 1) by {
        forall j | 0 <= j < i - 1 ensures sources[1..][j].name != name {
          assert sources[1..][j] == sources[j + 1];
        }
      }
      RemoveFirstNamedAt(sources[1..], name, i - 1);
      SplicedAfterHead(sources, i);
    }
  }

  lemma SplicedAfterHead(sources: seq<PropertySource>, i: int)
    requires 0 < i < |sources|
    ensures [sources[0]] + (sources[1..][..i - 1] + sources[1..][i..]) == sources[..i] + sources[i + 1..]
  {
    assert [sources[0]] + sources[1..][..i - 1] == sources[..i];
    assert sources[1..][i..] == sources[i + 1..];
  }

  /** MutablePropertySources.addLast: a same-named source is removed, and the new one
      goes to the end, below every other source. `AddedLastAt` gives the result in full. */
  function AddedLast(sources: seq<PropertySource>, source: PropertySource): (r: seq<PropertySource>)
    ensures |r| >= 1 && r[..|r| - 1] == RemoveFirstNamed(sources, source.name) && r[|r| - 1] == source
    ensures (forall q :: q in sources ==> q.name != source.name) ==> r == sources + [source]
    ensures forall q :: q in sources && q.name != source.name ==> q in r
  {
    RemoveFirstNamed(sources, source.name) + [source]
  }

  /** With a same-named source at index `i`, the first such, addLast takes out exactly that
      source, keeps the others in their order (their precedence), and puts the new one last. */
  lemma AddedLastAt(sources: seq<PropertySource>, source: PropertySource, i: int)
    requires FirstNamedAt(sources, source.name, i)
    ensures AddedLast(sources, source) == sources[..i] + sources[i + 1..] + [source]
    ensures |AddedLast(sources, source)| == |sources|
  {
    RemoveFirstNamedAt(sources, source.name, i);
  }

  /** One pass of the loop body for `tenant`: the new sources, or the exception. */
  function LoadTenant(sources: seq<PropertySource>, tenant: string, files: map<string, map<string, string>>)
    : Result<seq<PropertySource>, StartupError>
  {
    if Resolve(sources, LocationKey).None? then Failure(RequiredKeyNotFound(LocationKey))
    else
      var properties := LoadProperties(files, tenant);
      match RequireSettings(properties, tenant)
      case Some(e) => Failure(e)
      case None => Success(AddedLast(sources, PropertySource(tenant, properties)))
  }

  /** The loop over the tenant list: the first exception, if any, and the sources at the
      end (at the point of failure, when one occurs). */
  function LoadAll(sources: seq<PropertySource>, tenants: seq<string>, files: map<string, map<string, string>>)
    : (Option<StartupError>, seq<PropertySource>)
    decreases |tenants|
  {
    if tenants == [] then (None, sources)
    else
      match LoadTenant(sources, tenants[0], files)
      case Failure(e) => (Some(e), sources)
      case Success(next) => LoadAll(next, tenants[1..], files)
  }

  /** initialize, on the property sources it starts from. */
  function InitializeSpec(sources: seq<PropertySource>, files: map<string, map<string, string>>)
    : (Option<StartupError>, seq<PropertySource>)
  {
    match Resolve(sources, NamesKey)
    case None => (Some(RequiredKeyNotFound(NamesKey)), sources)
    case Some(value) => LoadAll(sources, CommaList(value), files)
  }

  /** The application context's environment: its mutable list of property sources. */
  class Environment {
    var sources: seq<PropertySource>

    constructor (sources: seq<PropertySource>)
      ensures this.sources == sources
    {
      this.sources := sources;
    }

    /** getProperty: the value of the first source holding the key. */
    function GetProperty(key: string): Option<string>
      reads this
    {
      Resolve(sources, key)
    }

    method AddLast(source: PropertySource)
      modifies this
      ensures sources == AddedLast(old(sources), source)
    {
      sources := RemoveFirstNamed(sources, source.name) + [source];
    }
  }

  /** initialize: walks the tenant list in order and stops at the first exception; the
      sources appended before it stay in the environment. */
  method Initialize(env: Environment, files: map<string, map<string, string>>)
    returns (error: Option<StartupError>)
    modifies env
    ensures (error, env.sources) == InitializeSpec(old(env.sources), files)
  {
    var names := env.GetProperty(NamesKey);
    if names.None? {
      return Some(RequiredKeyNotFound(NamesKey));
    }
    var tenants := CommaList(names.value);
    for i := 0 to |tenants|
      invariant LoadAll(env.sources, tenants[i..], files) == InitializeSpec(old(env.sources), files)
    {
      assert tenants[i..][1..] == tenants[i + 1..];
      var tenant := tenants[i];
      var location := env.GetProperty(LocationKey);
      if location.None? {
        return Some(RequiredKeyNotFound(LocationKey));
      }
      var properties := LoadProperties(files, tenant);
      var missing := RequireProperty(properties, UrlKey(tenant));
      if missing.Some? { return missing; }
      missing := RequireProperty(properties, UsernameKey(tenant));
      if missing.Some? { return missing; }
      missing := RequireProperty(properties, PasswordKey(tenant));
      if missing.Some? { return missing; }
      env.AddLast(PropertySource(tenant, properties));
    }
    assert tenants[|tenants|..] == [];
    error := None;
  }

  /** Appending behind the existing sources, when none of them has the new source's
      name, changes no value already present and makes every key of the new source
      readable. */
  lemma AddedLastIsLowestPrecedence(sources: seq<PropertySource>, source: PropertySource, key: string)
    requires forall q :: q in sources ==> q.name != source.name
    ensures Resolve(AddedLast(sources, source), key) ==
              if Resolve(sources, key).Some? then Resolve(sources, key)
              else if key in source.properties then Some(source.properties[key])
              else None
  {
    AppendedResolvesLast(sources, source, key);
  }

  lemma {:induction false} AppendedResolvesLast(sources: seq<PropertySource>, source: PropertySource, key: string)
    ensures Resolve(sources + [source], key) ==
              if Resolve(sources, key).Some? then Resolve(sources, key)
              else if key in source.properties then Some(source.properties[key])
              else None
  {
    if sources != [] {
      assert (sources + [source])[1..] == sources[1..] + [source];
      AppendedResolvesLast(sources[1..], source, key);
    } else {
      assert [source][1..] == [];
    }
  }

  /** A key some source of a prefix holds is read from that prefix, whatever follows. */
  lemma {:induction false} ResolveInPrefix(prefix: seq<PropertySource>, extra: seq<PropertySource>, key: string)
    requires Resolve(prefix, key).Some?
    ensures Resolve(prefix + extra, key) == Resolve(prefix, key)
  {
    if key !in prefix[0].properties {
      assert (prefix + extra)[1..] == prefix[1..] + extra;
      ResolveInPrefix(prefix[1..], extra, key);
    }
  }

  lemma Regrouped(prefix: seq<PropertySource>, rest: seq<PropertySource>)
    requires prefix != []
    ensures [prefix[0]] + (prefix[1..] + rest) == prefix + rest
  {
    assert [prefix[0]] + prefix[1..] == prefix;
  }

  /** Removing a name no source of the prefix carries leaves the prefix in place. */
  lemma {:induction false} RemoveFirstNamedAfterPrefix(prefix: seq<PropertySource>, extra: seq<PropertySource>, name: string)
    requires forall k :: 0 <= k < |prefix| ==> prefix[k].name != name
    ensures RemoveFirstNamed(prefix + extra, name) == prefix + RemoveFirstNamed(extra, name)
  {
    if prefix == [] {
      assert prefix + extra == extra;
    } else {
      var all := prefix + extra;
      assert all[0] == prefix[0];
      assert all[1..] == prefix[1..] + extra;
      RemoveFirstNamedAfterPrefix(prefix[1..], extra, name);
      var rest := RemoveFirstNamed(extra, name);
      assert RemoveFirstNamed(all, name) == [prefix[0]] + (prefix[1..] + rest);
      Regrouped(prefix, rest);
    }
  }

  /** Sources none of whose names is a listed tenant stay, in place and in order, at the
      front of the sources a successful loop ends with. */
  lemma {:induction false} LoadAllKeepsPrefix(prefix: seq<PropertySource>, extra: seq<PropertySource>,
                                              tenants: seq<string>, files: map<string, map<string, string>>)
    requires LoadAll(prefix + extra, tenants, files).0.None?
    requires forall k :: 0 <= k < |prefix| ==> prefix[k].name !in tenants
    ensures |LoadAll(prefix + extra, tenants, files).1| >= |prefix|
    ensures LoadAll(prefix + extra, tenants, files).1[..|prefix|] == prefix
    decreases |tenants|
  {
    if tenants == [] {
      assert (prefix + extra)[..|prefix|] == prefix;
    } else {
      var source := PropertySource(tenants[0], LoadProperties(files, tenants[0]));
      RemoveFirstNamedAfterPrefix(prefix, extra, tenants[0]);
      var extra' := RemoveFirstNamed(extra, tenants[0]) + [source];
      assert LoadTenant(prefix + extra, tenants[0], files).Success?;
      assert AddedLast(prefix + extra, source) == prefix + extra' by {
        assert prefix + RemoveFirstNamed(extra, tenants[0]) + [source] == prefix + extra';
      }
      LoadAllKeepsPrefix(prefix, extra', tenants[1..], files);
    }
  }

  /** The sources a successful loop starts from, when none is named after a listed
      tenant, are the front of the sources it ends with. */
  lemma LoadAllKeepsSources(sources: seq<PropertySource>, tenants: seq<string>, files: map<string, map<string, string>>)
    requires LoadAll(sources, tenants, files).0.None?
    requires forall k :: 0 <= k < |sources| ==> sources[k].name !in tenants
    ensures |LoadAll(sources, tenants, files).1| >= |sources|
    ensures LoadAll(sources, tenants, files).1[..|sources|] == sources
  {
    assert sources + [] == sources;
    LoadAllKeepsPrefix(sources, [], tenants, files);
  }

  /** A key the front of the sources holds is read from the front. */
  lemma ResolveInFront(sources: seq<PropertySource>, n: nat, key: string)
    requires n <= |sources| && Resolve(sources[..n], key).Some?
    ensures Resolve(sources, key) == Resolve(sources[..n], key)
  {
    assert sources[..n] + sources[n..] == sources;
    ResolveInPrefix(sources[..n], sources[n..], key);
  }

  /** When no source initialize starts from is named after a listed tenant, the names
      key reads the same before and after a successful initialize. */
  lemma InitializeKeepsNames(sources: seq<PropertySource>, files: map<string, map<string, string>>)
    requires InitializeSpec(sources, files).0.None?
    requires Resolve(sources, NamesKey).Some?
    requires forall k :: 0 <= k < |sources| ==> sources[k].name !in CommaList(Resolve(sources, NamesKey).value)
    ensures Resolve(InitializeSpec(sources, files).1, NamesKey) == Resolve(sources, NamesKey)
  {
    var listed := CommaList(Resolve(sources, NamesKey).value);
    LoadAllKeepsSources(sources, listed, files);
    ResolveInFront(LoadAll(sources, listed, files).1, |sources|, NamesKey);
  }

  /** Sources whose names the loop never appends survive a successful loop. */
  lemma {:induction false} LoadAllKeepsOthers(sources: seq<PropertySource>, tenants: seq<string>,
                                              files: map<string, map<string, string>>, q: PropertySource)
    requires LoadAll(sources, tenants, files).0.None?
    requires q in sources && q.name !in tenants
    ensures q in LoadAll(sources, tenants, files).1
    decreases |tenants|
  {
    if tenants != [] {
      var next := LoadTenant(sources, tenants[0], files).value;
      assert q.name !in tenants[1..];
      LoadAllKeepsOthers(next, tenants[1..], files, q);
    }
  }

  /** After a successful loop, each listed tenant's properties are one of the sources. */
  lemma {:induction false} LoadAllAppendsEveryTenant(sources: seq<PropertySource>, tenants: seq<string>,
                                                     files: map<string, map<string, string>>, tenant: string)
    requires LoadAll(sources, tenants, files).0.None?
    requires tenant in tenants
    ensures PropertySource(tenant, LoadProperties(files, tenant)) in LoadAll(sources, tenants, files).1
    ensures RequireSettings(LoadProperties(files, tenant), tenant).None?
    decreases |tenants|
  {
    var next := LoadTenant(sources, tenants[0], files).value;
    if tenant in tenants[1..] {
      LoadAllAppendsEveryTenant(next, tenants[1..], files, tenant);
    } else {
      assert tenant == tenants[0];
      LoadAllKeepsOthers(next, tenants[1..], files, PropertySource(tenant, LoadProperties(files, tenant)));
    }
  }

  /** After a successful initialize from a names value, the url, username and password of
      every listed tenant can be read from the environment. */
  lemma InitializedSettingsAreReadable(sources: seq<PropertySource>, files: map<string, map<string, string>>,
                                       tenant: string, s: Setting)
    requires InitializeSpec(sources, files).0.None?
    requires Resolve(sources, NamesKey).Some? && tenant in CommaList(Resolve(sources, NamesKey).value)
    ensures Resolve(InitializeSpec(sources, files).1, SettingKey(tenant, s)).Some?
  {
    var tenants := CommaList(Resolve(sources, NamesKey).value);
    var final := LoadAll(sources, tenants, files).1;
    var q := PropertySource(tenant, LoadProperties(files, tenant));
    LoadAllAppendsEveryTenant(sources, tenants, files, tenant);
    var i :| 0 <= i < |final| && final[i] == q;
    assert SettingKey(tenant, s) in final[i].properties;
  }

  /** Tenants are processed in list order: when the first i tenants load and tenant i
      fails, initialize reports that failure, and the sources appended for the first i
      tenants stay. */
  lemma {:induction false} FailureKeepsEarlierSources(sources: seq<PropertySource>, tenants: seq<string>,
                                                     files: map<string, map<string, string>>, i: nat)
    requires i < |tenants|
    requires LoadAll(sources, tenants[..i], files).0.None?
    requires LoadTenant(LoadAll(sources, tenants[..i], files).1, tenants[i], files).Failure?
    ensures LoadAll(sources, tenants, files) ==
              (Some(LoadTenant(LoadAll(sources, tenants[..i], files).1, tenants[i], files).error),
               LoadAll(sources, tenants[..i], files).1)
    decreases i
  {
    if i == 0 {
      assert tenants[..0] == [];
    } else {
      assert tenants[..i][0] == tenants[0];
      assert tenants[..i][1..] == tenants[1..][..i - 1];
      assert LoadTenant(sources, tenants[0], files).Success?;
      var next := LoadTenant(sources, tenants[0], files).value;
      assert LoadAll(sources, tenants[..i], files) == LoadAll(next, tenants[1..][..i - 1], files);
      assert LoadAll(sources, tenants, files) == LoadAll(next, tenants[1..], files);
      FailureKeepsEarlierSources(next, tenants[1..], files, i - 1);
    }
  }

  /** The environment of the test for a tenant without a properties file. */
  function TestSources(tenant: string): seq<PropertySource>
  {
    [PropertySource("default", map[LocationKey := "", NamesKey := tenant])]
  }

  /** initialize on a test environment naming one tenant: the outcome of that tenant's load. */
  lemma TestSourcesOutcome(tenant: string, files: map<string, map<string, string>>)
    requires tenant != "" && IsTrimmed(tenant) && ',' !in tenant
    ensures InitializeSpec(TestSources(tenant), files) ==
              match LoadTenant(TestSources(tenant), tenant, files)
              case Failure(e) => (Some(e), TestSources(tenant))
              case Success(next) => (None, next)
  {
    assert Resolve(TestSources(tenant), NamesKey) == Some(tenant);
    assert Join([tenant]) == tenant;
    CommaListOfJoin([tenant]);
    assert InitializeSpec(TestSources(tenant), files) == LoadAll(TestSources(tenant), [tenant], files);
    assert [tenant][1..] == [];
    match LoadTenant(TestSources(tenant), tenant, files)
    case Failure(e) =>
    case Success(next) =>
      assert LoadAll(next, [], files) == (None, next);
  }

  /** The location key is present in a test environment, so the load is decided by the
      tenant's required settings. */
  lemma TestSourcesLoad(tenant: string, files: map<string, map<string, string>>)
    requires tenant != "default"
    ensures LoadTenant(TestSources(tenant), tenant, files) ==
              match RequireSettings(LoadProperties(files, tenant), tenant)
              case Some(e) => Failure(e)
              case None => Success(TestSources(tenant) + [PropertySource(tenant, LoadProperties(files, tenant))])
  {
    assert Resolve(TestSources(tenant), LocationKey).Some?;
    assert RemoveFirstNamed(TestSources(tenant), tenant) == TestSources(tenant);
  }

  /** The url key of tenant-b, written out. */
  lemma TenantBUrlKey()
    ensures UrlKey("tenant-b") == "datasource.tenant.tenant-b.url"
  {
  }

  /** A tenant without a properties file fails on its url key: the message is
      "Property 'datasource.tenant.tenant-b.url' is required". */
  lemma TenantWithoutPropertiesFile()
    ensures InitializeSpec(TestSources("tenant-b"), map[]).0 ==
              Some(PropertyRequired("datasource.tenant.tenant-b.url"))
  {
    TestSourcesOutcome("tenant-b", map[]);
    TestSourcesLoad("tenant-b", map[]);
    assert LoadProperties(map[], "tenant-b") == map[];
    TenantBUrlKey();
  }

  /** A tenant whose file holds its three keys loads, and the values of its file become
      readable from the environment. */
  lemma ReadingTenantPropertiesFromFile(tenant: string, properties: map<string, string>)
    requires tenant != "" && tenant != "default" && IsTrimmed(tenant) && ',' !in tenant
    requires UrlKey(tenant) in properties && UsernameKey(tenant) in properties && PasswordKey(tenant) in properties
    ensures InitializeSpec(TestSources(tenant), map[tenant := properties]).0.None?
    ensures forall s: Setting :: Resolve(InitializeSpec(TestSources(tenant), map[tenant := properties]).1,
                                         SettingKey(tenant, s)) == Some(properties[SettingKey(tenant, s)])
  {
    var files := map[tenant := properties];
    var sources := TestSources(tenant);
    var source := PropertySource(tenant, properties);
    TestSourcesOutcome(tenant, files);
    TestSourcesLoad(tenant, files);
    assert LoadProperties(files, tenant) == properties;
    assert InitializeSpec(sources, files) == (None, sources + [source]);
    forall s: Setting
      ensures Resolve(sources + [source], SettingKey(tenant, s)) == Some(properties[SettingKey(tenant, s)])
    {
      SettingKeyIsNotGlobal(tenant, s);
      AppendedResolvesLast(sources, source, SettingKey(tenant, s));
    }
  }
}
