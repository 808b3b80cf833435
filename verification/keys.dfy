/** The property keys the core reads, and the per-tenant keys built by concatenation. */
module TenantKeys {
  import opened Wrappers

  /** The list (or set) of tenant names. */
  const NamesKey := "datasource.tenants.names"
  /** The directory holding one `<tenant>.properties` file per tenant. */
  const LocationKey := "datasource.tenants.location"
  /** The JDBC driver shared by every tenant. */
  const DriverKey := "spring.datasource.driver-class-name"
  /** Every per-tenant key starts with this. */
  const TenantPrefix := "datasource.tenant."

  /** The three settings every tenant must provide. */
  datatype Setting = Url | Username | Password

  function Suffix(s: Setting): string
  {
    match s
    case Url => ".url"
    case Username => ".username"
    case Password => ".password"
  }

  /** "datasource.tenant." + tenant + ".url" (or ".username", ".password"). */
  function SettingKey(tenant: string, s: Setting): (k: string)
    ensures |k| == |TenantPrefix| + |tenant| + |Suffix(s)|
  {
    TenantPrefix + tenant + Suffix(s)
  }

  function UrlKey(tenant: string): string { SettingKey(tenant, Url) }
  function UsernameKey(tenant: string): string { SettingKey(tenant, Username) }
  function PasswordKey(tenant: string): string { SettingKey(tenant, Password) }

  /** The tenant a key names for a setting, if the key has that setting's shape. */
  function TenantOf(key: string, s: Setting): Option<string>
  {
    var pre, post := TenantPrefix, Suffix(s);
    if |key| >= |pre| + |post| && key[..|pre|] == pre && key[|key| - |post|..] == post
    then Some(key[|pre|..|key| - |post|])
    else None
  }

  /** The tenant name can be read back from every key built for it. */
  lemma TenantOfSettingKey(tenant: string, s: Setting)
    ensures TenantOf(SettingKey(tenant, s), s) == Some(tenant)
  {
    var k, pre, post := SettingKey(tenant, s), TenantPrefix, Suffix(s);
    assert k[..|pre|] == pre;
    assert k[|k| - |post|..] == post;
    assert k[|pre|..|k| - |post|] == tenant;
  }

  /** Distinct (tenant, setting) pairs never share a key: no tenant can read another's
      settings, and the three settings of one tenant are three different keys. */
  lemma SettingKeyInjective(t1: string, s1: Setting, t2: string, s2: Setting)
    requires SettingKey(t1, s1) == SettingKey(t2, s2)
    ensures t1 == t2 && s1 == s2
  {
    var k := SettingKey(t1, s1);
    // The last characters of ".url", ".username" and ".password" differ.
    assert k[|k| - 1] == Suffix(s1)[|Suffix(s1)| - 1];
    assert k[|k| - 1] == Suffix(s2)[|Suffix(s2)| - 1];
    assert s1 == s2;
    TenantOfSettingKey(t1, s1);
    TenantOfSettingKey(t2, s2);
  }

  /** Per-tenant keys never coincide with the global keys the core reads. */
  lemma SettingKeyIsNotGlobal(tenant: string, s: Setting)
    ensures SettingKey(tenant, s) != NamesKey
    ensures SettingKey(tenant, s) != LocationKey
    ensures SettingKey(tenant, s) != DriverKey
  {
    var k := SettingKey(tenant, s);
    assert k[17] == '.';
    assert NamesKey[17] == 's' && LocationKey[17] == 's';
    assert k[0] == 'd' && DriverKey[0] == 's';
  }
}
