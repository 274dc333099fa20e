/** `LOG_CATEGORY_MAPPING` and the table-name step of `main`: which custom
    log table a category's records go to. */
module Router {
  import opened JsonValue

  const TablePrefix: string := "EntraID"
  const CustomLogSuffix: string := "_CL"
  const OtherStem: string := "Other"

  /** The sixteen categories the mapping knows, each with the stem of its
      table name. The stem is the category's own name except for
      `NonInteractiveUserSignInLogs`. */
  const KnownStems: map<string, string> := map[
    "AuditLogs" := "AuditLogs",
    "SignInLogs" := "SignInLogs",
    "NonInteractiveUserSignInLogs" := "NonInteractiveSignInLogs",
    "ServicePrincipalSignInLogs" := "ServicePrincipalSignInLogs",
    "ManagedIdentitySignInLogs" := "ManagedIdentitySignInLogs",
    "ProvisioningLogs" := "ProvisioningLogs",
    "ADFSSignInLogs" := "ADFSSignInLogs",
    "RiskyUsers" := "RiskyUsers",
    "UserRiskEvents" := "UserRiskEvents",
    "NetworkAccessTrafficLogs" := "NetworkAccessTrafficLogs",
    "RiskyServicePrincipals" := "RiskyServicePrincipals",
    "ServicePrincipalRiskEvents" := "ServicePrincipalRiskEvents",
    "EnrichedOffice365AuditLogs" := "EnrichedOffice365AuditLogs",
    "MicrosoftGraphActivityLogs" := "MicrosoftGraphActivityLogs",
    "RemoteNetworkHealthLogs" := "RemoteNetworkHealthLogs",
    "B2CRequestLogs" := "B2CRequestLogs"
  ]

  /** `f'EntraID{stem}_{tenant}_CL'`. */
  function TableFor(stem: string, tenant: string): string {
    TablePrefix + stem + "_" + tenant + CustomLogSuffix
  }

  /** `LOG_CATEGORY_MAPPING`, built from the configured tenant name. */
  function CategoryMapping(tenant: string): (m: map<string, string>)
    ensures m.Keys == KnownStems.Keys
  {
    map c | c in KnownStems :: TableFor(KnownStems[c], tenant)
  }

  /** `LOG_CATEGORY_MAPPING.get(category, f'EntraIDOther_{tenant}_CL')`.
      Only a string can equal a key of the mapping. */
  function TableName(tenant: string, category: Json): string {
    if category.JStr? && category.s in CategoryMapping(tenant)
    then CategoryMapping(tenant)[category.s]
    else TableFor(OtherStem, tenant)
  }

  /** `name.endswith(suffix)`. */
  predicate EndsWith(name: string, suffix: string) {
    |suffix| <= |name| && name[|name| - |suffix|..] == suffix
  }

  /** `if name.endswith('_CL'): name = name[:-3]`: one trailing `_CL` goes. */
  function StripCustomLogSuffix(name: string): (r: string)
    ensures EndsWith(name, CustomLogSuffix) ==> r + CustomLogSuffix == name
    ensures !EndsWith(name, CustomLogSuffix) ==> r == name
  {
    if EndsWith(name, CustomLogSuffix) then name[..|name| - 3] else name
  }

  /** The `Log-Type` sent for a category's records. */
  function LogType(tenant: string, category: Json): string {
    StripCustomLogSuffix(TableName(tenant, category))
  }

  predicate IsKnown(category: Json) {
    category.JStr? && category.s in KnownStems
  }

  /** Routing is total: every category, known or not, gets the mapped name
      with exactly one `_CL` removed, which is not empty and starts with
      `EntraID`; known categories get their own table, all others the
      tenant's `Other` table. */
  lemma RoutingIsTotal(tenant: string, category: Json)
    ensures LogType(tenant, category) + CustomLogSuffix == TableName(tenant, category)
    ensures TablePrefix <= LogType(tenant, category)
    ensures IsKnown(category) ==>
      LogType(tenant, category) == TablePrefix + KnownStems[category.s] + "_" + tenant
    ensures !IsKnown(category) ==> LogType(tenant, category) == TablePrefix + OtherStem + "_" + tenant
  {
    var t := TableName(tenant, category);
    var stem := if IsKnown(category) then KnownStems[category.s] else OtherStem;
    var base := TablePrefix + stem + "_" + tenant;
    assert t == base + CustomLogSuffix;
    assert t[|t| - 3..] == CustomLogSuffix;
  }

  /** The table name is not always `EntraID` followed by the category. */
  lemma NonInteractiveTableIsRenamed(tenant: string)
    ensures LogType(tenant, JStr("NonInteractiveUserSignInLogs"))
      != TablePrefix + "NonInteractiveUserSignInLogs" + "_" + tenant
  {
    RoutingIsTotal(tenant, JStr("NonInteractiveUserSignInLogs"));
    var a := TablePrefix + "NonInteractiveSignInLogs" + "_" + tenant;
    var b := TablePrefix + "NonInteractiveUserSignInLogs" + "_" + tenant;
    assert |a| != |b|;
  }

  /** No two table stems are the same, and none is `Other`. */
  lemma StemsDistinct()
    ensures forall c, d :: c in KnownStems && d in KnownStems && c != d ==> KnownStems[c] != KnownStems[d]
    ensures forall c :: c in KnownStems ==> KnownStems[c] != OtherStem
  {
    StemIsName();
    assert "NonInteractiveSignInLogs" !in KnownStems;
    assert OtherStem !in KnownStems;
  }

  /** Every stem is its category's name, except the renamed one. */
  lemma StemIsName()
    ensures forall c :: c in KnownStems ==>
      KnownStems[c] == c || (c == "NonInteractiveUserSignInLogs" && KnownStems[c] == "NonInteractiveSignInLogs")
  {
  }

  /** `EntraID{stem}_{tenant}` determines the stem. */
  lemma StemInjective(s1: string, s2: string, tenant: string)
    requires TablePrefix + s1 + "_" + tenant == TablePrefix + s2 + "_" + tenant
    ensures s1 == s2
  {
    var a := TablePrefix + s1 + "_" + tenant;
    assert a[|TablePrefix|..|TablePrefix| + |s1|] == s1;
    assert (TablePrefix + s2 + "_" + tenant)[|TablePrefix|..|TablePrefix| + |s2|] == s2;
  }

  /** Different known categories never share a table, and an unknown
      category never lands in a known category's table. */
  lemma RoutingSeparatesKnownCategories(tenant: string, c: Json, d: Json)
    requires IsKnown(c) && c != d
    ensures LogType(tenant, c) != LogType(tenant, d)
  {
    RoutingIsTotal(tenant, c);
    RoutingIsTotal(tenant, d);
    StemsDistinct();
    var sc := KnownStems[c.s];
    var sd := if IsKnown(d) then KnownStems[d.s] else OtherStem;
    if LogType(tenant, c) == LogType(tenant, d) {
      StemInjective(sc, sd, tenant);
    }
  }
}
