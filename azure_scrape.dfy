/**
 * The Azure scraper's entry points (scrapers/azure/azure.go:39-162):
 * `CanScrape`, `hydrateConnection`, the per-config orchestration of
 * `Scrape`, and its post-pass, which normalises each payload and attaches the
 * edges to the subscription and the resource group of every result.
 *
 * The collaborators the scraper calls (connection and environment lookups,
 * credential construction, the category pagers, the advisor fetch and the
 * marshal/jq engines) are the fields of an `Environment`.
 */
module AzureScrape {
  import opened Wrappers
  import opened Payload
  import opened StringUtil
  import opened ArmIds
  import opened ScrapeTypes
  import opened AzureFetch

  /** types.EnvVar: a literal value, or a reference (to a secret or config map) to be looked up. */
  datatype EnvVar = EnvVar(valueStatic: string, valueFrom: Option<string>)

  /** v1.Azure, restricted to the fields the scraper reads. */
  datatype AzureConfig = AzureConfig(
    connectionName: string,
    subscriptionId: string,
    clientId: EnvVar,
    clientSecret: EnvVar,
    tenantId: string)

  /** models.Connection, restricted to the fields hydration copies. */
  datatype Connection = Connection(username: string, password: string, properties: map<string, string>)

  /** What `ctx.HydrateConnection(name)` returns: an error, a nil connection, or a connection. */
  datatype ConnectionLookup = LookupFailed(cause: string) | NoConnection | Found(connection: Connection)

  /**
   * The outside world of one `Scrape` call. Pagers, credentials and the
   * advisor are keyed by the position of the config in the spec, which
   * fixes the client and credential they were built from.
   */
  datatype Environment = Environment(
    connection: string -> ConnectionLookup,
    envValue: EnvVar -> Result<string, string>,
    credentialError: (string, string, string) -> Option<string>,
    pager: (nat, CategoryKind) -> Pager,
    advisor: nat -> seq<ScrapeResult>,
    filterFails: Json -> bool)

  /** CanScrape: the spec holds at least one Azure config. */
  function CanScrape(configs: seq<AzureConfig>): (r: bool)
    ensures r <==> |configs| > 0
  {
    configs != []
  }

  /**
   * hydrateConnection. With a connection name the credentials come from that
   * connection (a failed lookup and a nil connection are errors); without
   * one, the client id and then the client secret are looked up, each
   * lookup failure being an error.
   */
  function HydrateConnection(env: Environment, t: AzureConfig): (r: Result<AzureConfig, HydrationError>)
    ensures r.Success? ==> r.value.connectionName == t.connectionName && r.value.subscriptionId == t.subscriptionId
    ensures r.Success? ==>
              r.value.clientId.valueFrom == t.clientId.valueFrom && r.value.clientSecret.valueFrom == t.clientSecret.valueFrom
    ensures t.connectionName != "" ==>
              (r.Success? <==> env.connection(t.connectionName).Found?)
              && (env.connection(t.connectionName).NoConnection? ==> r == Failure(ConnectionNotFound(t.connectionName)))
    ensures t.connectionName == "" ==>
              (r.Success? <==> env.envValue(t.clientId).Success? && env.envValue(t.clientSecret).Success?)
  {
    if t.connectionName != "" then
      match env.connection(t.connectionName)
      case LookupFailed(cause) => Failure(CouldNotHydrate(cause))
      case NoConnection => Failure(ConnectionNotFound(t.connectionName))
      case Found(c) =>
        var tenant := if "tenant" in c.properties then c.properties["tenant"] else "";
        Success(t.(clientId := t.clientId.(valueStatic := c.username),
                   clientSecret := t.clientSecret.(valueStatic := c.password),
                   tenantId := tenant))
    else
      match env.envValue(t.clientId)
      case Failure(e) => Failure(ClientIdLookupFailed(e))
      case Success(id) =>
        match env.envValue(t.clientSecret)
        case Failure(e) => Failure(ClientSecretLookupFailed(e))
        case Success(secret) =>
          Success(t.(clientId := t.clientId.(valueStatic := id), clientSecret := t.clientSecret.(valueStatic := secret)))
  }

  /**
   * A connection's credentials replace the inline ones: the client id and
   * secret are its username and password, and the tenant is its "tenant"
   * property, or "" when it has none.
   */
  lemma HydrateFromConnection(env: Environment, t: AzureConfig)
    requires t.connectionName != "" && env.connection(t.connectionName).Found?
    ensures var c := env.connection(t.connectionName).connection;
            var r := HydrateConnection(env, t);
            r.Success? && r.value.clientId.valueStatic == c.username && r.value.clientSecret.valueStatic == c.password
            && r.value.tenantId == (if "tenant" in c.properties then c.properties["tenant"] else "")
  {
  }

  /** Without a connection the looked-up values replace the static ones and the tenant is kept. */
  lemma HydrateFromEnvironment(env: Environment, t: AzureConfig)
    requires t.connectionName == ""
    requires env.envValue(t.clientId).Success? && env.envValue(t.clientSecret).Success?
    ensures var r := HydrateConnection(env, t);
            r.Success? && r.value.clientId.valueStatic == env.envValue(t.clientId).value
            && r.value.clientSecret.valueStatic == env.envValue(t.clientSecret).value
            && r.value.tenantId == t.tenantId
  {
  }

  /** A named connection wins: the environment lookups are never consulted. */
  lemma ConnectionIgnoresEnvironment(env1: Environment, env2: Environment, t: AzureConfig)
    requires t.connectionName != ""
    requires env1.connection(t.connectionName) == env2.connection(t.connectionName)
    ensures HydrateConnection(env1, t) == HydrateConnection(env2, t)
  {
  }

  /** Without a connection name no connection is looked up. */
  lemma EnvironmentIgnoresConnection(env1: Environment, env2: Environment, t: AzureConfig)
    requires t.connectionName == ""
    requires env1.envValue(t.clientId) == env2.envValue(t.clientId)
    requires env1.envValue(t.clientSecret) == env2.envValue(t.clientSecret)
    ensures HydrateConnection(env1, t) == HydrateConnection(env2, t)
  {
  }

  /** The client secret is looked up only after the client id was found: a failed id lookup is the error reported. */
  lemma ClientIdFailureReportedFirst(env: Environment, t: AzureConfig)
    requires t.connectionName == "" && env.envValue(t.clientId).Failure?
    ensures HydrateConnection(env, t) == Failure(ClientIdLookupFailed(env.envValue(t.clientId).error))
  {
  }

  /** The categories in the order `Scrape` appends them (scrapers/azure/azure.go:93-108). */
  const CategoryOrder: seq<CategoryKind> := [
    ResourceGroups, VirtualMachines, LoadBalancers, VirtualNetworks,
    ContainerRegistries, Firewalls, Databases, KubernetesClusters,
    Subscriptions, StorageAccounts, AppServices, DnsZones,
    PrivateDnsZones, TrafficManagerProfiles, NetworkSecurityGroups, PublicIpAddresses]

  /** The results of the categories `kinds`, concatenated in order, for the config at position `idx`. */
  function CategoriesResults(env: Environment, idx: nat, kinds: seq<CategoryKind>): seq<ScrapeResult>
    decreases |kinds|
  {
    if kinds == [] then []
    else
      var k := kinds[|kinds| - 1];
      CategoriesResults(env, idx, kinds[..|kinds| - 1]) + CategoryResults(k, env.pager(idx, k))
  }

  /** The categories among `kinds` whose client or one of whose pages fails. */
  function FailedCategories(env: Environment, idx: nat, kinds: seq<CategoryKind>): seq<CategoryKind>
    decreases |kinds|
  {
    if kinds == [] then []
    else
      var k := kinds[|kinds| - 1];
      FailedCategories(env, idx, kinds[..|kinds| - 1]) + (if CategoryFails(env.pager(idx, k)) then [k] else [])
  }

  /** Category failures are isolated: each failed category adds exactly one error, and the others add none. */
  lemma {:induction false} CategoriesErrorCount(env: Environment, idx: nat, kinds: seq<CategoryKind>)
    ensures ErrorCount(CategoriesResults(env, idx, kinds)) == |FailedCategories(env, idx, kinds)|
    decreases |kinds|
  {
    if kinds != [] {
      var k := kinds[|kinds| - 1];
      CategoriesErrorCount(env, idx, kinds[..|kinds| - 1]);
      CategoryErrorCount(k, env.pager(idx, k));
      ErrorCountConcat(CategoriesResults(env, idx, kinds[..|kinds| - 1]), CategoryResults(k, env.pager(idx, k)));
    }
  }

  /**
   * Three categories of which the second fails at its first page: the items
   * of the first and the third are all there, with exactly one error between
   * them, attributed to the second.
   */
  lemma MiddleCategoryFailure(env: Environment, idx: nat, k1: CategoryKind, k2: CategoryKind, k3: CategoryKind,
                              items1: seq<NativeItem>, cause: string, items3: seq<NativeItem>)
    requires env.pager(idx, k1) == Pages([Page(items1)])
    requires env.pager(idx, k2) == Pages([PageError(cause)])
    requires env.pager(idx, k3) == Pages([Page(items3)])
    ensures CategoriesResults(env, idx, [k1, k2, k3])
         == ItemResults(k1, items1) + [ErrorResult(PageReadFailed(k2, cause))] + ItemResults(k3, items3)
  {
    var r1 := ItemResults(k1, items1);
    var r2 := [ErrorResult(PageReadFailed(k2, cause))];
    var r3 := ItemResults(k3, items3);
    assert [Page(items1)][1..] == [] && [Page(items3)][1..] == [];
    assert PageResults(k1, []) == [];
    assert PageResults(k1, [Page(items1)]) == r1 + PageResults(k1, []);
    assert CategoryResults(k1, env.pager(idx, k1)) == r1 + [];
    assert CategoryResults(k2, env.pager(idx, k2)) == r2;
    assert PageResults(k3, []) == [];
    assert PageResults(k3, [Page(items3)]) == r3 + PageResults(k3, []);
    assert CategoryResults(k3, env.pager(idx, k3)) == r3 + [];
    assert [k1][..0] == [];
    assert CategoriesResults(env, idx, [k1]) == r1;
    assert [k1, k2][..1] == [k1];
    assert CategoriesResults(env, idx, [k1, k2]) == r1 + r2;
    assert [k1, k2, k3][..2] == [k1, k2];
  }

  /** Hydration and credential construction both succeeded for this config. */
  predicate Connected(env: Environment, t: AzureConfig) {
    var h := HydrateConnection(env, t);
    h.Success? && env.credentialError(h.value.tenantId, h.value.clientId.valueStatic, h.value.clientSecret.valueStatic).None?
  }

  /**
   * What one config contributes: one error result when hydration or the
   * credential fails, otherwise the sixteen categories in order followed by
   * the advisor's results.
   */
  function ConfigResults(env: Environment, idx: nat, t: AzureConfig): (r: seq<ScrapeResult>)
    ensures !Connected(env, t) ==> |r| == 1 && r[0].id == "" && r[0].error.Some?
    ensures HydrateConnection(env, t).Failure? ==> r == [ErrorResult(PopulateConnectionFailed(HydrateConnection(env, t).error))]
    ensures Connected(env, t) ==> r == CategoriesResults(env, idx, CategoryOrder) + env.advisor(idx)
  {
    match HydrateConnection(env, t)
    case Failure(e) => [ErrorResult(PopulateConnectionFailed(e))]
    case Success(c) =>
      match env.credentialError(c.tenantId, c.clientId.valueStatic, c.clientSecret.valueStatic)
      case Some(cause) => [ErrorResult(CredentialsFailed(cause))]
      case None => CategoriesResults(env, idx, CategoryOrder) + env.advisor(idx)
  }

  /** The results the first `|configs|` configs contribute, in config order, before the post-pass. */
  function Collected(env: Environment, configs: seq<AzureConfig>): seq<ScrapeResult>
    decreases |configs|
  {
    if configs == [] then []
    else
      var n := |configs| - 1;
      Collected(env, configs[..n]) + ConfigResults(env, n, configs[n])
  }

  /** The last config that connected, hydrated: the one `azure.config` points to after the loop. */
  function LastConnected(env: Environment, configs: seq<AzureConfig>): (r: Option<AzureConfig>)
    ensures r.None? <==> forall i :: 0 <= i < |configs| ==> !Connected(env, configs[i])
    decreases |configs|
  {
    if configs == [] then None
    else
      var n := |configs| - 1;
      var prev := LastConnected(env, configs[..n]);
      assert forall i :: 0 <= i < n ==> configs[..n][i] == configs[i];
      if Connected(env, configs[n]) then Some(HydrateConnection(env, configs[n]).value) else prev
  }

  /** When no config connected, every collected result is an error result with an empty id. */
  lemma {:induction false} NoConnectionNoIds(env: Environment, configs: seq<AzureConfig>)
    requires LastConnected(env, configs).None?
    ensures forall i :: 0 <= i < |Collected(env, configs)| ==> Collected(env, configs)[i].id == ""
    decreases |configs|
  {
    if configs != [] {
      var n := |configs| - 1;
      assert !Connected(env, configs[n]);
      NoConnectionNoIds(env, configs[..n]);
    }
  }

  /** The post-pass's subscription: that of the last config that connected, or none. */
  function LastSubscription(env: Environment, configs: seq<AzureConfig>): Option<string>
  {
    match LastConnected(env, configs)
    case Some(c) => Some(c.subscriptionId)
    case None => None
  }

  const SubscriptionType: string := ConfigTypePrefix + "SUBSCRIPTION"
  const ResourceGroupType: string := ConfigTypePrefix + "MICROSOFT.RESOURCES/RESOURCEGROUPS"

  /** The edge from a result to its subscription. */
  function SubscriptionEdge(r: ScrapeResult, sub: string): RelationshipResult
  {
    RelationshipResult(
      ExternalID([r.id], r.configType),
      ExternalID(["/subscriptions/" + sub], SubscriptionType),
      "Subscription" + TrimPrefix(r.configType, ConfigTypePrefix))
  }

  /** The edge from a result to the resource group named in its id. */
  function ResourceGroupEdge(r: ScrapeResult, sub: string): RelationshipResult
  {
    RelationshipResult(
      ExternalID([r.id], r.configType),
      ExternalID(["/subscriptions/" + sub + "/resourcegroups/" + ExtractResourceGroup(r.id)], ResourceGroupType),
      "Resourcegroup" + TrimPrefix(r.configType, ConfigTypePrefix))
  }

  /**
   * The edges the post-pass adds to a result with an id, by exact type:
   * none for a subscription, the subscription edge for a resource group,
   * and for any other type the subscription edge followed by the
   * resource-group edge when the id names a resource group.
   */
  function NewEdges(r: ScrapeResult, sub: string): (edges: seq<RelationshipResult>)
    ensures |edges| <= 2
    ensures |edges| == 0 <==> r.configType == SubscriptionType
    ensures |edges| == 2 <==>
              r.configType != SubscriptionType && r.configType != ResourceGroupType && ExtractResourceGroup(r.id) != ""
    ensures forall e :: e in edges ==> e.config == ExternalID([r.id], r.configType)
    ensures |edges| >= 1 ==> edges[0].related == ExternalID(["/subscriptions/" + sub], SubscriptionType)
    ensures |edges| >= 1 ==> edges[0].relationship == "Subscription" + TrimPrefix(r.configType, ConfigTypePrefix)
    ensures |edges| == 2 ==> edges[1].relationship == "Resourcegroup" + TrimPrefix(r.configType, ConfigTypePrefix)
    ensures |edges| == 2 ==>
              edges[1].related.configType == ResourceGroupType
              && edges[1].related.externalId == ["/subscriptions/" + sub + "/resourcegroups/" + ExtractResourceGroup(r.id)]
  {
    if r.configType == SubscriptionType then []
    else if r.configType == ResourceGroupType then [SubscriptionEdge(r, sub)]
    else [SubscriptionEdge(r, sub)] + (if ExtractResourceGroup(r.id) != "" then [ResourceGroupEdge(r, sub)] else [])
  }

  /** A result never gets the same edge twice from one pass: the two labels differ. */
  lemma EdgeLabelsDistinct(r: ScrapeResult, sub: string)
    ensures |NewEdges(r, sub)| == 2 ==> NewEdges(r, sub)[0] != NewEdges(r, sub)[1]
  {
    var edges := NewEdges(r, sub);
    if |edges| == 2 {
      assert edges[0].relationship[0] == 'S';
      assert edges[1].relationship[0] == 'R';
    }
  }

  /** The payload after normalisation: etag keys stripped, unless the marshal/jq step fails. */
  function NormalizedConfig(config: Option<Json>, filterFails: Json -> bool): (c: Option<Json>)
    ensures config.None? ==> c.None?
    ensures config.Some? && filterFails(config.value) ==> c == config
    ensures config.Some? && !filterFails(config.value) ==> c == Some(WithoutEtags(config.value)) && EtagFree(c.value)
  {
    match config
    case None => None
    case Some(j) =>
      if filterFails(j) then config
      else
        WithoutEtagsIsEtagFree(j);
        Some(WithoutEtags(j))
  }

  /** Normalising an already normalised payload changes nothing. */
  lemma NormalizedConfigStable(config: Option<Json>, ff1: Json -> bool, ff2: Json -> bool)
    requires config.Some? ==> !ff1(config.value)
    ensures NormalizedConfig(NormalizedConfig(config, ff1), ff2) == NormalizedConfig(config, ff1)
  {
    if config.Some? {
      WithoutEtagsIdempotent(config.value);
    }
  }

  /**
   * One step of the post-pass. A result with an empty id is left as it is.
   * Otherwise its payload is normalised (also for subscriptions) and the
   * new edges are appended after the existing ones; nothing else changes.
   * A result with an id needs a subscription: the post-pass dereferences
   * `azure.config`.
   */
  function Resolve(r: ScrapeResult, sub: Option<string>, filterFails: Json -> bool): (s: ScrapeResult)
    requires r.id != "" ==> sub.Some?
    ensures r.id == "" ==> s == r
    ensures s.id == r.id && s.name == r.name && s.configClass == r.configClass
    ensures s.configType == r.configType && s.error == r.error
    ensures r.id != "" ==> s.config == NormalizedConfig(r.config, filterFails)
    ensures r.id != "" ==> s.relationships == r.relationships + NewEdges(r, sub.value)
  {
    if r.id == "" then r
    else r.(config := NormalizedConfig(r.config, filterFails), relationships := r.relationships + NewEdges(r, sub.value))
  }

  /** Every result with an id can be resolved. */
  ghost predicate Resolvable(rs: seq<ScrapeResult>, sub: Option<string>) {
    forall i :: 0 <= i < |rs| ==> rs[i].id != "" ==> sub.Some?
  }

  /** The post-pass over the whole slice, index by index. */
  function ResolveAll(rs: seq<ScrapeResult>, sub: Option<string>, filterFails: Json -> bool): (out: seq<ScrapeResult>)
    requires Resolvable(rs, sub)
    ensures |out| == |rs|
    ensures forall i :: 0 <= i < |rs| ==> out[i] == Resolve(rs[i], sub, filterFails)
  {
    seq(|rs|, i requires 0 <= i < |rs| => Resolve(rs[i], sub, filterFails))
  }

  /** The post-pass never drops, adds or reorders results, and never touches one without an id. */
  lemma ResolveAllFrame(rs: seq<ScrapeResult>, sub: Option<string>, filterFails: Json -> bool, i: nat)
    requires Resolvable(rs, sub) && i < |rs|
    ensures var out := ResolveAll(rs, sub, filterFails);
            out[i].id == rs[i].id && out[i].configType == rs[i].configType && out[i].error == rs[i].error
            && (rs[i].id == "" ==> out[i] == rs[i])
            && rs[i].relationships <= out[i].relationships
  {
  }

  /**
   * Running the post-pass twice appends the same edges again: the list of
   * edges grows, but the set of edges is the one the first pass gave,
   * whatever the marshal/jq steps do.
   */
  lemma ResolveTwiceSameEdgeSet(r: ScrapeResult, sub: Option<string>, ff1: Json -> bool, ff2: Json -> bool)
    requires r.id != "" ==> sub.Some?
    ensures var once := Resolve(r, sub, ff1);
            var twice := Resolve(once, sub, ff2);
            (set e | e in twice.relationships) == (set e | e in once.relationships)
  {
    var once := Resolve(r, sub, ff1);
    var twice := Resolve(once, sub, ff2);
    if r.id != "" {
      assert NewEdges(once, sub.value) == NewEdges(r, sub.value);
      assert twice.relationships == once.relationships + NewEdges(r, sub.value);
    }
  }

  /** When the first pass's marshal/jq step succeeded, a second pass leaves the payload as it is. */
  lemma ResolveTwiceSamePayload(r: ScrapeResult, sub: Option<string>, ff1: Json -> bool, ff2: Json -> bool)
    requires r.id != "" ==> sub.Some?
    requires r.config.Some? ==> !ff1(r.config.value)
    ensures Resolve(Resolve(r, sub, ff1), sub, ff2).config == Resolve(r, sub, ff1).config
  {
    if r.id != "" {
      NormalizedConfigStable(r.config, ff1, ff2);
    }
  }

  /**
   * The post-pass treats each result on its own: resolving a reordering of
   * the results gives the same reordering of the resolved results.
   */
  lemma ResolveOrderIndependent(rs: seq<ScrapeResult>, perm: seq<nat>, sub: Option<string>, ff: Json -> bool)
    requires Resolvable(rs, sub)
    requires forall j :: 0 <= j < |perm| ==> perm[j] < |rs|
    ensures var permuted := seq(|perm|, j requires 0 <= j < |perm| => rs[perm[j]]);
            Resolvable(permuted, sub)
            && ResolveAll(permuted, sub, ff) == seq(|perm|, j requires 0 <= j < |perm| => ResolveAll(rs, sub, ff)[perm[j]])
  {
    var permuted := seq(|perm|, j requires 0 <= j < |perm| => rs[perm[j]]);
    var lhs := ResolveAll(permuted, sub, ff);
    var rhs := seq(|perm|, j requires 0 <= j < |perm| => ResolveAll(rs, sub, ff)[perm[j]]);
    forall j | 0 <= j < |perm| ensures lhs[j] == rhs[j] {
      assert permuted[j] == rs[perm[j]];
      assert lhs[j] == Resolve(permuted[j], sub, ff);
      assert rhs[j] == ResolveAll(rs, sub, ff)[perm[j]];
    }
  }

  /**
   * The post-pass of `Scrape` (scrapers/azure/azure.go:113-160), in place on
   * the results buffer.
   */
  method ResolveRelationships(a: array<ScrapeResult>, sub: Option<string>, filterFails: Json -> bool)
    requires Resolvable(a[..], sub)
    modifies a
    ensures Resolvable(old(a[..]), sub)
    ensures a[..] == ResolveAll(old(a[..]), sub, filterFails)
  {
    ghost var before := a[..];
    for i := 0 to a.Length
      invariant Resolvable(before[..i], sub)
      invariant a[..] == ResolveAll(before[..i], sub, filterFails) + before[i..]
    {
      var r := a[i];
      ResolveAllStep(before, sub, filterFails, i);
      if r.id == "" {
        continue;
      }
      a[i] := Resolve(r, sub, filterFails);
    }
    assert before[..a.Length] == before;
  }

  /** One step of the post-pass loop: resolving index i extends the resolved prefix by one. */
  lemma ResolveAllStep(rs: seq<ScrapeResult>, sub: Option<string>, filterFails: Json -> bool, i: nat)
    requires Resolvable(rs, sub) && i < |rs|
    ensures Resolvable(rs[..i], sub) && Resolvable(rs[..i + 1], sub)
    ensures (ResolveAll(rs[..i], sub, filterFails) + rs[i..])[i := Resolve(rs[i], sub, filterFails)]
         == ResolveAll(rs[..i + 1], sub, filterFails) + rs[i + 1..]
  {
    var lhs := (ResolveAll(rs[..i], sub, filterFails) + rs[i..])[i := Resolve(rs[i], sub, filterFails)];
    var rhs := ResolveAll(rs[..i + 1], sub, filterFails) + rs[i + 1..];
    assert |lhs| == |rhs|;
    forall k | 0 <= k < |lhs| ensures lhs[k] == rhs[k] {
      if k < i {
        assert rs[..i][k] == rs[..i + 1][k];
      }
    }
  }

  /** What `Scrape` returns. */
  function ScrapeSpec(env: Environment, configs: seq<AzureConfig>): seq<ScrapeResult>
  {
    var collected := Collected(env, configs);
    if LastConnected(env, configs).None? then
      NoConnectionNoIds(env, configs);
      ResolveAll(collected, None, env.filterFails)
    else
      ResolveAll(collected, LastSubscription(env, configs), env.filterFails)
  }

  /** With no Azure config there is nothing to scrape and `Scrape` returns no results. */
  lemma NothingToScrape(env: Environment, configs: seq<AzureConfig>)
    requires !CanScrape(configs)
    ensures ScrapeSpec(env, configs) == []
  {
  }

  /** A config that fails to connect is skipped: it adds one error result and leaves the current subscription as it was. */
  lemma FailedConfigSkipped(env: Environment, configs: seq<AzureConfig>, t: AzureConfig)
    requires !Connected(env, t)
    ensures LastSubscription(env, configs + [t]) == LastSubscription(env, configs)
    ensures Collected(env, configs + [t]) == Collected(env, configs) + ConfigResults(env, |configs|, t)
    ensures |ConfigResults(env, |configs|, t)| == 1 && ConfigResults(env, |configs|, t)[0].error.Some?
  {
    assert (configs + [t])[..|configs|] == configs;
  }

  /** A config that connects replaces the subscription every edge of the run points to, earlier configs' results included. */
  lemma ConnectedConfigTakesOver(env: Environment, configs: seq<AzureConfig>, t: AzureConfig)
    requires Connected(env, t)
    ensures LastSubscription(env, configs + [t]) == Some(t.subscriptionId)
  {
  }

  /**
   * In the results of `Scrape`, the first new edge of every result that has
   * an id and is not typed as a subscription points to the subscription of
   * the last config that connected, whichever config produced the result.
   */
  lemma ScrapeEdgesUseLastSubscription(env: Environment, configs: seq<AzureConfig>, i: nat)
    requires i < |Collected(env, configs)|
    requires Collected(env, configs)[i].id != "" && Collected(env, configs)[i].configType != SubscriptionType
    ensures LastConnected(env, configs).Some?
    ensures var before := Collected(env, configs)[i];
            var after := ScrapeSpec(env, configs)[i];
            |after.relationships| > |before.relationships|
            && after.relationships[|before.relationships|].related.externalId
               == ["/subscriptions/" + LastConnected(env, configs).value.subscriptionId]
  {
    if LastConnected(env, configs).None? {
      NoConnectionNoIds(env, configs);
      assert false;
    }
  }

  /**
   * Results of the Subscriptions category are typed "Azure::Subscription",
   * which the exact switch does not take for "Azure::SUBSCRIPTION": they are
   * not skipped but get a subscription edge, labelled "SubscriptionSubscription".
   */
  lemma SubscriptionResultsAreNotSkipped(item: NativeItem, sub: string)
    ensures var r := ItemResult(Subscriptions, item);
            r.configType != SubscriptionType && r.configType != ResourceGroupType
            && |NewEdges(r, sub)| >= 1
            && NewEdges(r, sub)[0].relationship == "Subscription" + "Subscription"
  {
    SubscriptionItemType();
    SubscriptionTypedEdges(ItemResult(Subscriptions, item), sub);
  }

  lemma SubscriptionTypedEdges(r: ScrapeResult, sub: string)
    requires r.configType != SubscriptionType && r.configType != ResourceGroupType
    requires TrimPrefix(r.configType, ConfigTypePrefix) == "Subscription"
    ensures |NewEdges(r, sub)| >= 1 && NewEdges(r, sub)[0].relationship == "Subscription" + "Subscription"
  {
    assert NewEdges(r, sub)[0] == SubscriptionEdge(r, sub);
  }

  /** The type the Subscriptions category stamps, compared with the two special-cased types. */
  lemma SubscriptionItemType()
    ensures var t := GetArmType(Some("Subscription"));
            t != SubscriptionType && t != ResourceGroupType && TrimPrefix(t, ConfigTypePrefix) == "Subscription"
  {
    var t := GetArmType(Some("Subscription"));
    assert t == "Azure::Subscription";
    assert t[8] != SubscriptionType[8];
    assert |t| != |ResourceGroupType|;
  }

  /**
   * A resource in a resource group, say a virtual machine with id
   * "/subscriptions/<s>/resourceGroups/<g>/providers/...", gets two edges:
   * to the subscription, and to "/subscriptions/<sub>/resourcegroups/<g>"
   * with <g> lower-cased.
   */
  lemma ResourceInGroupEdges(kind: CategoryKind, item: NativeItem, a: string, b: string, g: string, rest: string, sub: string)
    requires kind != Subscriptions
    requires item.id == Some("/" + PathBody(a, b, "resourceGroups", g, rest))
    requires '/' !in a && '/' !in b && '/' !in g
    requires ' ' !in a && ' ' !in b && ' ' !in g && ' ' !in rest
    requires rest == [] || rest[0] == '/'
    requires g != []
    requires GetArmType(item.resourceType) != SubscriptionType && GetArmType(item.resourceType) != ResourceGroupType
    ensures var edges := NewEdges(ItemResult(kind, item), sub);
            |edges| == 2
            && edges[0].related.externalId == ["/subscriptions/" + sub]
            && edges[1].related.externalId == ["/subscriptions/" + sub + "/resourcegroups/" + ToLower(g)]
  {
    ResourceGroupOfCanonicalId(a, b, g, rest);
  }

  /** The sixteen category fetches of one config, appended in order (scrapers/azure/azure.go:93-108). */
  method FetchCategories(env: Environment, idx: nat) returns (results: seq<ScrapeResult>)
    ensures results == CategoriesResults(env, idx, CategoryOrder)
  {
    results := [];
    for k := 0 to |CategoryOrder|
      invariant results == CategoriesResults(env, idx, CategoryOrder[..k])
    {
      assert CategoryOrder[..k + 1][..k] == CategoryOrder[..k];
      var part := FetchCategory(CategoryOrder[k], env.pager(idx, CategoryOrder[k]));
      results := results + part;
    }
    assert CategoryOrder[..|CategoryOrder|] == CategoryOrder;
  }

  /**
   * One iteration of the config loop: hydrate, build the credential, and on
   * success fetch everything; `connected` is the hydrated config when both
   * steps succeeded.
   */
  method ScrapeConfig(env: Environment, idx: nat, t: AzureConfig)
    returns (results: seq<ScrapeResult>, connected: Option<AzureConfig>)
    ensures results == ConfigResults(env, idx, t)
    ensures connected.Some? <==> Connected(env, t)
    ensures connected.Some? ==> connected.value == HydrateConnection(env, t).value
  {
    var hydrated := HydrateConnection(env, t);
    if hydrated.Failure? {
      return [ErrorResult(PopulateConnectionFailed(hydrated.error))], None;
    }
    var config := hydrated.value;
    var credError := env.credentialError(config.tenantId, config.clientId.valueStatic, config.clientSecret.valueStatic);
    if credError.Some? {
      return [ErrorResult(CredentialsFailed(credError.value))], None;
    }
    results := FetchCategories(env, idx);
    results := results + env.advisor(idx);
    connected := Some(config);
  }

  /**
   * Scrape: every config in order contributes its results; a config that
   * connected becomes the current one. Then the post-pass runs with the
   * subscription of the last config that connected.
   */
  method Scrape(env: Environment, configs: seq<AzureConfig>) returns (results: seq<ScrapeResult>)
    ensures results == ScrapeSpec(env, configs)
  {
    var collected: seq<ScrapeResult> := [];
    var current: Option<AzureConfig> := None;
    for n := 0 to |configs|
      invariant collected == Collected(env, configs[..n])
      invariant current == LastConnected(env, configs[..n])
    {
      assert configs[..n + 1][..n] == configs[..n];
      var part, connected := ScrapeConfig(env, n, configs[n]);
      collected := collected + part;
      if connected.Some? {
        current := connected;
      }
    }
    assert configs[..|configs|] == configs;
    var sub: Option<string> := None;
    if current.Some? {
      sub := Some(current.value.subscriptionId);
    } else {
      NoConnectionNoIds(env, configs);
    }
    var buf := new ScrapeResult[|collected|](i requires 0 <= i < |collected| => collected[i]);
    assert buf[..] == collected;
    ResolveRelationships(buf, sub, env.filterFails);
    results := buf[..];
  }
}
