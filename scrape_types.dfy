/**
 * The values the Azure scraper produces: scrape results, the relationship
 * edges attached to them, and the errors recorded inline as results.
 */
module ScrapeTypes {
  import opened Wrappers
  import opened Payload

  /** The resource categories `Scrape` fetches from this file, one `fetch*` function each. */
  datatype CategoryKind =
    | ResourceGroups
    | VirtualMachines
    | LoadBalancers
    | VirtualNetworks
    | ContainerRegistries
    | Firewalls
    | Databases
    | KubernetesClusters
    | Subscriptions
    | StorageAccounts
    | AppServices
    | DnsZones
    | PrivateDnsZones
    | TrafficManagerProfiles
    | NetworkSecurityGroups
    | PublicIpAddresses

  /** Why `hydrateConnection` gave up on a config. */
  datatype HydrationError =
    | CouldNotHydrate(cause: string)
    | ConnectionNotFound(connectionName: string)
    | ClientIdLookupFailed(cause: string)
    | ClientSecretLookupFailed(cause: string)

  /** The error carried by an error-only result. */
  datatype ScrapeError =
    | PopulateConnectionFailed(hydration: HydrationError)
    | CredentialsFailed(cause: string)
    | ClientInitFailed(category: CategoryKind, cause: string)
    | PageReadFailed(category: CategoryKind, cause: string)

  /** v1.ExternalID: the external ids of a config item and its type. */
  datatype ExternalID = ExternalID(externalId: seq<string>, configType: string)

  /** v1.RelationshipResult: a proposed edge from one config item to another, with a label. */
  datatype RelationshipResult = RelationshipResult(config: ExternalID, related: ExternalID, relationship: string)

  /** v1.ScrapeResult, restricted to the fields this scraper reads or writes. */
  datatype ScrapeResult = ScrapeResult(
    id: string,
    name: string,
    configClass: string,
    configType: string,
    config: Option<Json>,
    relationships: seq<RelationshipResult>,
    error: Option<ScrapeError>)

  /** A result that carries only an error; every other field is Go's zero value. */
  function ErrorResult(e: ScrapeError): (r: ScrapeResult)
    ensures r.id == "" && r.error == Some(e)
  {
    ScrapeResult("", "", "", "", None, [], Some(e))
  }
}
