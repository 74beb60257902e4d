/**
 * The shared shape of the sixteen `fetch*` functions of scrapers/azure/azure.go
 * (lines 166-668): build a category client, walk its pager, turn each item
 * into a scrape result. The SDK is abstract: a client either fails to build
 * or hands out a sequence of pages, each a list of items or an error.
 */
module AzureFetch {
  import opened Wrappers
  import opened Payload
  import opened ArmIds
  import opened ScrapeTypes

  /** The fields of an SDK resource that the scraper reads; `payload` is the resource as JSON. */
  datatype NativeItem = NativeItem(
    id: Option<string>,
    name: Option<string>,
    displayName: Option<string>,
    resourceType: Option<string>,
    payload: Json)

  /** One `NextPage` call: the page's items, or the error it returned. */
  datatype Page = Page(items: seq<NativeItem>) | PageError(cause: string)

  /** A category client: its constructor failed, or it pages through `pages` until `More()` is false. */
  datatype Pager = ClientError(cause: string) | Pages(pages: seq<Page>)

  /** The ConfigClass each `fetch*` function stamps on its results. */
  function ConfigClass(kind: CategoryKind): string {
    match kind
    case ResourceGroups => "ResourceGroup"
    case VirtualMachines => "VirtualMachine"
    case LoadBalancers => "LoadBalancer"
    case VirtualNetworks => "VirtualNetwork"
    case ContainerRegistries => "ContainerRegistry"
    case Firewalls => "Firewall"
    case Databases => "RelationalDatabase"
    case KubernetesClusters => "KubernetesCluster"
    case Subscriptions => "Subscription"
    case StorageAccounts => "StorageAccount"
    case AppServices => "AppService"
    case DnsZones => "DNSZone"
    case PrivateDnsZones => "PrivateDNSZone"
    case TrafficManagerProfiles => "TrafficManagerProfile"
    case NetworkSecurityGroups => "SecurityGroup"
    case PublicIpAddresses => "PublicIPAddress"
  }

  /**
   * The result for one item: lower-cased id, dereferenced name, the
   * category's class and "Azure::" + type. Subscriptions take the display
   * name and the fixed type "Azure::Subscription".
   */
  function ItemResult(kind: CategoryKind, item: NativeItem): (r: ScrapeResult)
    ensures r.id == GetArmId(item.id) && r.configClass == ConfigClass(kind)
    ensures r.name == Deref(if kind == Subscriptions then item.displayName else item.name)
    ensures r.configType == GetArmType(if kind == Subscriptions then Some("Subscription") else item.resourceType)
    ensures r.config == Some(item.payload) && r.relationships == [] && r.error.None?
  {
    if kind == Subscriptions then
      ScrapeResult(GetArmId(item.id), Deref(item.displayName), ConfigClass(kind),
                   GetArmType(Some("Subscription")), Some(item.payload), [], None)
    else
      ScrapeResult(GetArmId(item.id), Deref(item.name), ConfigClass(kind),
                   GetArmType(item.resourceType), Some(item.payload), [], None)
  }

  /** One result per item, in item order. */
  function ItemResults(kind: CategoryKind, items: seq<NativeItem>): (r: seq<ScrapeResult>)
    ensures |r| == |items|
  {
    if items == [] then []
    else [ItemResult(kind, items[0])] + ItemResults(kind, items[1..])
  }

  /** The i-th result is the i-th item's. */
  lemma {:induction false} ItemResultsIndex(kind: CategoryKind, items: seq<NativeItem>, i: nat)
    requires i < |items|
    ensures ItemResults(kind, items)[i] == ItemResult(kind, items[i])
    decreases i
  {
    if i > 0 {
      ItemResultsIndex(kind, items[1..], i - 1);
    }
  }

  /** What the pager loop yields: item results page by page, and at the first page error one error result and stop. */
  function PageResults(kind: CategoryKind, pages: seq<Page>): seq<ScrapeResult>
  {
    if pages == [] then []
    else match pages[0]
      case PageError(cause) => [ErrorResult(PageReadFailed(kind, cause))]
      case Page(items) => ItemResults(kind, items) + PageResults(kind, pages[1..])
  }

  /** What one `fetch*` function returns. */
  function CategoryResults(kind: CategoryKind, pager: Pager): seq<ScrapeResult>
  {
    match pager
    case ClientError(cause) => [ErrorResult(ClientInitFailed(kind, cause))]
    case Pages(pages) => PageResults(kind, pages)
  }

  /** The items of the pages read before the first page error. */
  function ItemsBeforeError(pages: seq<Page>): seq<NativeItem>
  {
    if pages == [] || pages[0].PageError? then []
    else pages[0].items + ItemsBeforeError(pages[1..])
  }

  /** The cause of the first page error, if any page fails. */
  function FirstPageError(pages: seq<Page>): Option<string>
  {
    if pages == [] then None
    else if pages[0].PageError? then Some(pages[0].cause)
    else FirstPageError(pages[1..])
  }

  /**
   * The pager loop keeps what it collected: its output is the results of
   * every item read before the first page error, followed by exactly one
   * error result when a page fails.
   */
  lemma {:induction false} PageResultsShape(kind: CategoryKind, pages: seq<Page>)
    ensures PageResults(kind, pages) == ItemResults(kind, ItemsBeforeError(pages)) +
      (match FirstPageError(pages)
       case Some(cause) => [ErrorResult(PageReadFailed(kind, cause))]
       case None => [])
  {
    if pages != [] && pages[0].Page? {
      PageResultsShape(kind, pages[1..]);
      ItemResultsConcat(kind, pages[0].items, ItemsBeforeError(pages[1..]));
    }
  }

  lemma {:induction false} ItemResultsConcat(kind: CategoryKind, a: seq<NativeItem>, b: seq<NativeItem>)
    ensures ItemResults(kind, a + b) == ItemResults(kind, a) + ItemResults(kind, b)
    decreases |a|
  {
    if a == [] {
      assert a + b == b;
    } else {
      assert (a + b)[1..] == a[1..] + b;
      ItemResultsConcat(kind, a[1..], b);
    }
  }

  /** No page after the first failing one is read: they cannot change the output. */
  lemma {:induction false} PagesAfterErrorIgnored(kind: CategoryKind, pages: seq<Page>, k: nat)
    requires k < |pages| && pages[k].PageError?
    ensures PageResults(kind, pages) == PageResults(kind, pages[..k + 1])
  {
    if k > 0 && pages[0].Page? {
      PagesAfterErrorIgnored(kind, pages[1..], k - 1);
      assert pages[1..][..k] == pages[..k + 1][1..];
    }
  }

  /** Only the last result of a category can carry an error; all others are items with no error. */
  lemma CategoryErrorIsLast(kind: CategoryKind, pager: Pager, i: nat)
    requires i < |CategoryResults(kind, pager)|
    requires CategoryResults(kind, pager)[i].error.Some?
    ensures i == |CategoryResults(kind, pager)| - 1
  {
    if pager.Pages? {
      PageResultsShape(kind, pager.pages);
      var before := ItemsBeforeError(pager.pages);
      if i < |before| {
        ItemResultsIndex(kind, before, i);
      }
    }
  }

  /** The category failed: its client could not be built or one of its pages failed. */
  predicate CategoryFails(pager: Pager) {
    pager.ClientError? || FirstPageError(pager.pages).Some?
  }

  /** The number of error-bearing results. */
  function ErrorCount(rs: seq<ScrapeResult>): nat
  {
    if rs == [] then 0
    else (if rs[0].error.Some? then 1 else 0) + ErrorCount(rs[1..])
  }

  lemma {:induction false} ErrorCountConcat(a: seq<ScrapeResult>, b: seq<ScrapeResult>)
    ensures ErrorCount(a + b) == ErrorCount(a) + ErrorCount(b)
    decreases |a|
  {
    if a == [] {
      assert a + b == b;
    } else {
      assert (a + b)[1..] == a[1..] + b;
      ErrorCountConcat(a[1..], b);
    }
  }

  lemma {:induction false} ItemResultsHaveNoError(kind: CategoryKind, items: seq<NativeItem>)
    ensures ErrorCount(ItemResults(kind, items)) == 0
    decreases |items|
  {
    if items != [] {
      ErrorCountConcat([ItemResult(kind, items[0])], ItemResults(kind, items[1..]));
      ItemResultsHaveNoError(kind, items[1..]);
    }
  }

  /** A category contributes exactly one error when it fails and none when it succeeds. */
  lemma CategoryErrorCount(kind: CategoryKind, pager: Pager)
    ensures ErrorCount(CategoryResults(kind, pager)) == if CategoryFails(pager) then 1 else 0
  {
    if pager.Pages? {
      PageResultsShape(kind, pager.pages);
      ItemResultsHaveNoError(kind, ItemsBeforeError(pager.pages));
      var tail := match FirstPageError(pager.pages)
        case Some(cause) => [ErrorResult(PageReadFailed(kind, cause))]
        case None => [];
      ErrorCountConcat(ItemResults(kind, ItemsBeforeError(pager.pages)), tail);
    }
  }

  lemma PageResultsAt(kind: CategoryKind, pages: seq<Page>, i: nat)
    requires i < |pages|
    ensures pages[i].PageError? ==> PageResults(kind, pages[i..]) == [ErrorResult(PageReadFailed(kind, pages[i].cause))]
    ensures pages[i].Page? ==>
              PageResults(kind, pages[i..]) == ItemResults(kind, pages[i].items) + PageResults(kind, pages[i + 1..])
  {
    assert pages[i..][0] == pages[i];
    assert pages[i..][1..] == pages[i + 1..];
  }

  lemma ItemResultsAt(kind: CategoryKind, items: seq<NativeItem>, j: nat)
    requires j < |items|
    ensures ItemResults(kind, items[j..]) == [ItemResult(kind, items[j])] + ItemResults(kind, items[j + 1..])
  {
    assert items[j..][1..] == items[j + 1..];
  }

  /** A page of items read at step i: its results join those collected so far. */
  lemma ItemPageStep(kind: CategoryKind, pages: seq<Page>, i: nat, results: seq<ScrapeResult>)
    requires i < |pages| && pages[i].Page?
    requires PageResults(kind, pages) == results + PageResults(kind, pages[i..])
    ensures PageResults(kind, pages) == (results + ItemResults(kind, pages[i].items)) + PageResults(kind, pages[i + 1..])
  {
    PageResultsAt(kind, pages, i);
  }

  /** A failing page at step i: one error result ends the output. */
  lemma ErrorPageStep(kind: CategoryKind, pages: seq<Page>, i: nat, results: seq<ScrapeResult>)
    requires i < |pages| && pages[i].PageError?
    requires PageResults(kind, pages) == results + PageResults(kind, pages[i..])
    ensures PageResults(kind, pages) == results + [ErrorResult(PageReadFailed(kind, pages[i].cause))]
  {
    PageResultsAt(kind, pages, i);
  }

  /** The inner `for _, v := range nextPage.Value` loop: one result appended per item, in order. */
  method AppendItemResults(kind: CategoryKind, acc: seq<ScrapeResult>, items: seq<NativeItem>)
    returns (results: seq<ScrapeResult>)
    ensures results == acc + ItemResults(kind, items)
  {
    results := acc;
    for j := 0 to |items|
      invariant results + ItemResults(kind, items[j..]) == acc + ItemResults(kind, items)
    {
      ItemStep(kind, items, j, results, acc);
      results := results + [ItemResult(kind, items[j])];
    }
    assert items[|items|..] == [];
  }

  /** One step of the item loop keeps collected + remaining equal to the whole. */
  lemma ItemStep(kind: CategoryKind, items: seq<NativeItem>, j: nat, results: seq<ScrapeResult>, acc: seq<ScrapeResult>)
    requires j < |items|
    requires results + ItemResults(kind, items[j..]) == acc + ItemResults(kind, items)
    ensures (results + [ItemResult(kind, items[j])]) + ItemResults(kind, items[j + 1..]) == acc + ItemResults(kind, items)
  {
    ItemResultsAt(kind, items, j);
  }

  /**
   * One `fetch*` function: the client-construction error becomes a single
   * error result; otherwise `for pager.More()` reads pages, appends one
   * result per item, and on a page error appends one error result and
   * returns what it has.
   */
  method FetchCategory(kind: CategoryKind, pager: Pager) returns (results: seq<ScrapeResult>)
    ensures results == CategoryResults(kind, pager)
  {
    if pager.ClientError? {
      return [ErrorResult(ClientInitFailed(kind, pager.cause))];
    }
    var pages := pager.pages;
    results := [];
    var i := 0;
    while i < |pages|
      invariant 0 <= i <= |pages|
      invariant PageResults(kind, pages) == results + PageResults(kind, pages[i..])
    {
      var page := pages[i];
      if page.PageError? {
        ErrorPageStep(kind, pages, i, results);
        results := results + [ErrorResult(PageReadFailed(kind, page.cause))];
        return;
      }
      ItemPageStep(kind, pages, i, results);
      results := AppendItemResults(kind, results, page.items);
      i := i + 1;
    }
    assert pages[i..] == [];
  }
}
