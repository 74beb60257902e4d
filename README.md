# Azure scraper and scraper-config store of config-db, in Dafny

This project models two pieces of config-db.

The first is the Azure scraper (`scrapers/azure/azure.go`):
- each `fetch*` function turns one resource category of a subscription into scrape results;
- `Scrape` hydrates every Azure config of a scrape spec and appends the sixteen categories and the advisor's results in a fixed order;
- a post-pass then strips `etag` keys from each payload and attaches edges from every result to its subscription and resource group;
- the helpers `getARMID`, `getARMType` and `extractResourceGroup` canonicalise ids and types.

The second is the scraper-config store (`db/config_scraper.go`): the soft delete of a scraper with its cascade over config items, the two persist operations, and the two queries. The tables are maps keyed by primary key inside a `Store` class.

Modules, in dependency order:
- `Wrappers`: `Option` and `Result`.
- `StringUtil`: the Go `strings` functions the scraper uses, each characterised by its contract.
- `Payload`: a JSON tree and the etag filter.
- `ScrapeTypes`: scrape results, edges and errors.
- `ArmIds`: `getARMID`, `getARMType`, `extractResourceGroup`.
- `AzureFetch`: the category fetch loop.
- `AzureScrape`: hydration, orchestration and the post-pass.
- `ScraperStore`: the persistence rules.

The Azure SDK is abstract. A category client either fails to build or hands out a sequence of pages, and each page is a list of items or an error.

Everything the scraper consults is a field of an `Environment` value, so the model is deterministic in its inputs. That covers connections, environment lookups, credential construction, pagers, the advisor and the failure of marshal/jq. Pagers are keyed by the position of the config in the spec.

Database errors are inputs of each store operation, one per statement.

## Model

| member | source | states |
|---|---|---|
| `StringUtil.HasInfix` | scrapers/azure/azure.go:124 | true exactly when the pattern occurs at some index of the string (jq `test` with a literal pattern) |
| `StringUtil.Split` | scrapers/azure/azure.go:689 | at least one piece, and no piece contains the separator |
| `StringUtil.SplitThenJoin` | scrapers/azure/azure.go:689 | joining the pieces with the separator gives back the string that was split |
| `StringUtil.SplitNoSeparator` | scrapers/azure/azure.go:689 | a string without the separator splits into itself alone |
| `StringUtil.SplitAfterPiece` | scrapers/azure/azure.go:689 | a separator-free piece followed by the separator is split off as the first segment |
| `StringUtil.SplitJoin` | scrapers/azure/azure.go:689 | splitting undoes joining separator-free pieces |
| `StringUtil.TrimLeft` | scrapers/azure/azure.go:686 | the result is a suffix of the input, everything dropped is the trimmed character, and the result does not start with it |
| `StringUtil.TrimRight` | scrapers/azure/azure.go:686 | the result is a prefix of the input, everything dropped is the trimmed character, and the result does not end with it |
| `StringUtil.Trim` | scrapers/azure/azure.go:686 | the result is no longer than the input and neither starts nor ends with the trimmed character |
| `StringUtil.TrimIsSlice` | scrapers/azure/azure.go:686 | the trim is a slice of the input, and everything cut off on either side is the trimmed character |
| `StringUtil.TrimPadded` | scrapers/azure/azure.go:686 | a string that neither starts nor ends with the character is what trimming gives back from any padding of it with that character |
| `StringUtil.TrimWithoutChar` | scrapers/azure/azure.go:686 | trimming a character the string does not contain changes nothing |
| `StringUtil.TrimPrefix` | scrapers/azure/azure.go:687 | with the prefix present, prefix + result is the input; otherwise the input is returned unchanged |
| `StringUtil.TrimPrefixOfConcat` | scrapers/azure/azure.go:681-683 | trimming a prefix that was just prepended gives the original string |
| `StringUtil.JoinAvoids` | scrapers/azure/azure.go:689 | joining pieces that avoid a character other than the separator gives a string that avoids it |
| `StringUtil.JoinHead` | scrapers/azure/azure.go:687-689 | a join whose first piece is non-empty starts with that piece's first character |
| `StringUtil.LowerChar` | scrapers/azure/azure.go:676 | upper-case ASCII letters move down by 32, everything else is kept, and the result is never upper-case |
| `StringUtil.ToLower` | scrapers/azure/azure.go:676 | same length, each character lower-cased, no upper-case character left |
| `StringUtil.ToLowerIdempotent` | scrapers/azure/azure.go:676 | lower-casing twice is lower-casing once |
| `StringUtil.ToLowerConcat` | scrapers/azure/azure.go:676 | lower-casing distributes over concatenation |
| `StringUtil.ToLowerKeepsPunctuation` | scrapers/azure/azure.go:676 | lower-casing neither adds nor removes a non-letter such as '/' or ' ' |
| `Payload.WithoutEtags` | scrapers/azure/azure.go:118-128 | each node keeps its kind; scalars are unchanged; an array keeps its length and its i-th element is the i-th input element filtered, so order is kept; an object keeps exactly the keys that do not contain "etag", each with its value filtered |
| `Payload.WithoutEtagsIsEtagFree` | scrapers/azure/azure.go:118-128 | no object at any depth of the output has a key containing "etag" |
| `Payload.WithoutEtagsKeepsEtagFree` | scrapers/azure/azure.go:118-128 | a tree without etag keys passes through unchanged |
| `Payload.WithoutEtagsIdempotent` | scrapers/azure/azure.go:118-128 | filtering twice is filtering once |
| `Payload.WithoutEtagsOnKey` | scrapers/azure/azure.go:124 | a kept key carries its filtered value; a key containing "etag" is gone |
| `Payload.EtagMatchIsCaseSensitive` | scrapers/azure/azure.go:124 | "ETag" and "eTag" are kept; "etag" and "_etag" are removed |
| `ScrapeTypes.ErrorResult` | scrapers/azure/azure.go:79 | an error-only result has an empty id and carries the error |
| `ArmIds.Deref` | scrapers/azure/azure.go:676-682 | a present string is returned as it is, a nil one as "" |
| `ArmIds.GetArmId` | scrapers/azure/azure.go:672-677 | the canonical id has the length of the dereferenced id and each character is the ASCII lower-case of the input character at that index, so none is upper-case; a nil id gives "" |
| `ArmIds.GetArmIdIdempotent` | scrapers/azure/azure.go:672-677 | a canonical id is its own canonical form |
| `ArmIds.GetArmType` | scrapers/azure/azure.go:681-683 | the type starts with "Azure::" and removing that prefix gives the dereferenced type back |
| `ArmIds.ExtractResourceGroup` | scrapers/azure/azure.go:685-700 | the resource group never contains '/' (the case analysis is `ArmIds.ResourceGroupOfSegments` for ids that start with "/", `ArmIds.ResourceGroupOfUnrootedSegments` for ids that do not, and `ArmIds.ResourceGroupIgnoresOuterSpaces` for spaces around either) |
| `ArmIds.ResourceGroupOfSegments` | scrapers/azure/azure.go:685-700 | for the id "/" + separator- and space-free segments joined by "/", the group is "" when there are fewer than four segments or the third is not exactly "resourcegroups", and the fourth segment otherwise |
| `ArmIds.ResourceGroupOfUnrootedSegments` | scrapers/azure/azure.go:685-700 | for an id of separator- and space-free segments joined by "/" that does not start with "/", the prefix trim changes nothing and the group is "" when there are fewer than four segments or the third is not exactly "resourcegroups", and the fourth segment otherwise |
| `ArmIds.ResourceGroupIgnoresOuterSpaces` | scrapers/azure/azure.go:685-700 | spaces before and after an id do not change its resource group, because the id is trimmed before it is split |
| `ArmIds.TrimRootedPath` | scrapers/azure/azure.go:686-687 | a rooted id without spaces loses exactly its leading '/' |
| `ArmIds.SegmentsOfRootedPath` | scrapers/azure/azure.go:685-700 | the group of "/<body>" is read off the segments of <body> |
| `ArmIds.SplitThreePieces` | scrapers/azure/azure.go:689 | three separator-free pieces split off as the first three segments |
| `ArmIds.FirstSegment` | scrapers/azure/azure.go:689 | a separator-free piece followed by nothing or by "/..." is the first segment |
| `ArmIds.PathBodyHasNoSpace` | scrapers/azure/azure.go:686 | an ARM path assembled from space-free parts has no space |
| `ArmIds.ResourceGroupOfArmPath` | scrapers/azure/azure.go:685-700 | on "/<a>/<b>/resourcegroups/<g>[/...]" the group is <g>, whatever follows it |
| `ArmIds.SubscriptionPathHasNoResourceGroup` | scrapers/azure/azure.go:690-692 | "/<a>/<b>" has too few segments and yields "" |
| `ArmIds.CamelCaseMarkerHasNoResourceGroup` | scrapers/azure/azure.go:694-696 | the marker test is case-sensitive: "resourceGroups" yields "" |
| `ArmIds.CamelCaseMarkerDiffers` | scrapers/azure/azure.go:694 | the camel-case "resourceGroups" is not the marker "resourcegroups" |
| `ArmIds.ToLowerPathBody` | scrapers/azure/azure.go:676 | lower-casing an ARM path lower-cases each of its parts |
| `ArmIds.ResourceGroupOfCanonicalId` | scrapers/azure/azure.go:672-700 | the canonical id of a camel-case "/<a>/<b>/resourceGroups/<g>/..." yields <g> lower-cased |
| `AzureFetch.ItemResult` | scrapers/azure/azure.go:188-196 | canonical id, dereferenced name, the category's fixed class, "Azure::"-prefixed type, the item as payload, no edges, no error; Subscriptions use the display name and the type "Azure::Subscription" |
| `AzureFetch.ItemResults` | scrapers/azure/azure.go:188-197 | one result per item |
| `AzureFetch.ItemResultsIndex` | scrapers/azure/azure.go:188-197 | the i-th result is that of the i-th item |
| `AzureFetch.ItemResultsConcat` | scrapers/azure/azure.go:182-198 | items of consecutive pages give consecutive results |
| `AzureFetch.PageResultsShape` | scrapers/azure/azure.go:182-198 | the pager loop yields the results of every item read before the first page error, then one error result if a page failed |
| `AzureFetch.PagesAfterErrorIgnored` | scrapers/azure/azure.go:184-187 | pages after the first failing one are never read |
| `AzureFetch.CategoryErrorIsLast` | scrapers/azure/azure.go:172-187 | only the last result of a category can carry an error |
| `AzureFetch.ErrorCountConcat` | scrapers/azure/azure.go:93-109 | error results add up over concatenation |
| `AzureFetch.ItemResultsHaveNoError` | scrapers/azure/azure.go:188-196 | item results carry no error |
| `AzureFetch.CategoryErrorCount` | scrapers/azure/azure.go:172-199 | a category yields exactly one error when its client or a page fails, and none otherwise |
| `AzureFetch.ItemPageStep` | scrapers/azure/azure.go:188-197 | an item page read at step i joins its results to those collected so far |
| `AzureFetch.ErrorPageStep` | scrapers/azure/azure.go:184-187 | a failing page at step i ends the output with one error result |
| `AzureFetch.ItemStep` | scrapers/azure/azure.go:188-196 | one step of the item loop keeps collected plus remaining equal to the whole |
| `AzureFetch.AppendItemResults` | scrapers/azure/azure.go:188-197 | appends one result per item, in item order, to what was collected |
| `AzureFetch.FetchCategory` | scrapers/azure/azure.go:167-200 | returns exactly the category's results: one error on a client failure, otherwise the page loop's output |
| `AzureScrape.CanScrape` | scrapers/azure/azure.go:39-41 | true exactly when the spec lists at least one Azure config |
| `AzureScrape.HydrateConnection` | scrapers/azure/azure.go:45-72 | with a connection name, success exactly when the connection is found, and a nil connection is "not found"; without one, success exactly when both lookups succeed; the name, subscription and value references are kept |
| `AzureScrape.HydrateFromConnection` | scrapers/azure/azure.go:46-58 | client id and secret become the connection's username and password; the tenant is its "tenant" property, or "" |
| `AzureScrape.HydrateFromEnvironment` | scrapers/azure/azure.go:60-71 | the looked-up client id and secret replace the static values; the tenant is kept |
| `AzureScrape.ConnectionIgnoresEnvironment` | scrapers/azure/azure.go:46-58 | with a connection name, the environment lookups play no part |
| `AzureScrape.EnvironmentIgnoresConnection` | scrapers/azure/azure.go:60-71 | without a connection name, no connection is consulted |
| `AzureScrape.ClientIdFailureReportedFirst` | scrapers/azure/azure.go:61-64 | a failed client-id lookup is the error, whatever the secret lookup would give |
| `AzureScrape.CategoriesErrorCount` | scrapers/azure/azure.go:93-108 | each failed category contributes exactly one error, and the others contribute none |
| `AzureScrape.MiddleCategoryFailure` | scrapers/azure/azure.go:93-108 | with the middle one of three categories failing, the items of the other two are all kept, with one error between them |
| `AzureScrape.ConfigResults` | scrapers/azure/azure.go:77-109 | a hydration or credential failure gives one error-only result; otherwise the sixteen categories in order, then the advisor |
| `AzureScrape.LastConnected` | scrapers/azure/azure.go:90 | there is a last connected config exactly when some config connected |
| `AzureScrape.NoConnectionNoIds` | scrapers/azure/azure.go:113-116 | when no config connected, every collected result has an empty id, so the post-pass never reads the unset subscription |
| `AzureScrape.NewEdges` | scrapers/azure/azure.go:130-160 | at most two edges; none exactly for type "Azure::SUBSCRIPTION"; two exactly for other types besides the resource-group type when the id names a group, so the resource-group type gets only the subscription edge; every edge starts at the result's (id, type); the first targets "/subscriptions/<sub>" and is labelled "Subscription" + the type without "Azure::", the second targets "/subscriptions/<sub>/resourcegroups/<group>" and is labelled "Resourcegroup" + the type without "Azure::" |
| `AzureScrape.EdgeLabelsDistinct` | scrapers/azure/azure.go:143-160 | one pass never appends the same edge twice: the subscription and resource-group edges differ |
| `AzureScrape.NormalizedConfig` | scrapers/azure/azure.go:118-128 | a nil payload stays nil; a failed marshal/jq step leaves the payload as it was; otherwise the new payload is the etag filter of the old one, and has no etag key |
| `AzureScrape.NormalizedConfigStable` | scrapers/azure/azure.go:118-128 | normalising a normalised payload changes nothing |
| `AzureScrape.Resolve` | scrapers/azure/azure.go:113-160 | an empty-id result is untouched; otherwise only the payload and the edges change, and new edges are appended after the existing ones |
| `AzureScrape.ResolveAll` | scrapers/azure/azure.go:113 | same length, and each result is resolved on its own |
| `AzureScrape.ResolveAllFrame` | scrapers/azure/azure.go:113-160 | the post-pass keeps id, type and error, keeps existing edges as a prefix, and leaves empty-id results as they were |
| `AzureScrape.ResolveTwiceSameEdgeSet` | scrapers/azure/azure.go:143-160 | resolving twice yields the same set of edges as resolving once, whatever the marshal/jq steps do |
| `AzureScrape.ResolveTwiceSamePayload` | scrapers/azure/azure.go:118-128 | when the first marshal/jq step succeeded, a second pass leaves the payload unchanged |
| `AzureScrape.ResolveOrderIndependent` | scrapers/azure/azure.go:113-160 | resolving a reordering of the results gives the same reordering of the resolved results |
| `AzureScrape.ResolveAllStep` | scrapers/azure/azure.go:113-160 | the loop step of the post-pass: resolving element i of a buffer whose first i elements are resolved extends the resolved prefix by one and leaves the rest as it was |
| `AzureScrape.ResolveRelationships` | scrapers/azure/azure.go:113-161 | rewrites the result buffer in place to the resolved results |
| `AzureScrape.NothingToScrape` | scrapers/azure/azure.go:74-76 | with no Azure config, `Scrape` returns nothing |
| `AzureScrape.FailedConfigSkipped` | scrapers/azure/azure.go:77-87 | a config that fails to connect adds one error result and leaves the current subscription as it was |
| `AzureScrape.ConnectedConfigTakesOver` | scrapers/azure/azure.go:90 | a config that connects becomes the one whose subscription the post-pass uses |
| `AzureScrape.ScrapeEdgesUseLastSubscription` | scrapers/azure/azure.go:90-146 | every subscription edge targets the subscription of the last connected config, whichever config produced the result |
| `AzureScrape.SubscriptionResultsAreNotSkipped` | scrapers/azure/azure.go:130-147 | results of the Subscriptions category are typed "Azure::Subscription", not the "Azure::SUBSCRIPTION" case label, so they get an edge labelled "SubscriptionSubscription" |
| `AzureScrape.SubscriptionTypedEdges` | scrapers/azure/azure.go:136-147 | a result of another type whose trimmed type is "Subscription" gets a first edge labelled "SubscriptionSubscription" |
| `AzureScrape.SubscriptionItemType` | scrapers/azure/azure.go:438 | "Azure::Subscription" is neither special-cased type |
| `AzureScrape.ResourceInGroupEdges` | scrapers/azure/azure.go:143-159 | a resource under "/subscriptions/<s>/resourceGroups/<g>/..." gets two edges: to the subscription, and to "/subscriptions/<sub>/resourcegroups/<g lower-cased>" |
| `AzureScrape.FetchCategories` | scrapers/azure/azure.go:93-108 | returns the sixteen categories' results in the source's order |
| `AzureScrape.ScrapeConfig` | scrapers/azure/azure.go:77-109 | returns the config's results, and the hydrated config exactly when it connected |
| `AzureScrape.Scrape` | scrapers/azure/azure.go:74-164 | returns the post-pass, run with the last connected subscription, over every config's results in config order |
| `ScraperStore.InList` | db/config_scraper.go:52 | `x IN (...)` is true exactly when some value equals x, and false exactly when none does and none is NULL |
| `ScraperStore.NotInHolds` | db/config_scraper.go:61 | `x NOT IN (...)` holds exactly when every value is non-NULL and differs from x |
| `ScraperStore.ReferencedMembership` | db/config_scraper.go:42-46 | the union holds exactly the `config_id`s of the listed tables |
| `ScraperStore.MarkDeleted` | db/config_scraper.go:30-35 | no row is removed; only the scraper with that id gets its deletion stamp |
| `ScraperStore.Detach` | db/config_scraper.go:49-55 | no config item is removed; an item of this scraper whose id is among the referenced ids loses its scraper_id, and every other item is unchanged |
| `ScraperStore.SoftDeleteUnreferenced` | db/config_scraper.go:58-64 | no config item is removed; an item of this scraper is stamped deleted exactly when its id is not referenced and no referenced id is NULL, and every other item is unchanged |
| `ScraperStore.DeleteCascadeOutcome` | db/config_scraper.go:49-64 | items not owned by the scraper are untouched; an owned referenced item is detached; an owned unreferenced item is stamped deleted when no reference is NULL, and untouched otherwise |
| `ScraperStore.DeleteKeepsRows` | db/config_scraper.go:29-66 | the delete removes no scraper row and no config-item row |
| `ScraperStore.OwnedItemsDetachedOrDeleted` | db/config_scraper.go:49-64 | without NULL references, every owned item ends either detached or stamped deleted, never both |
| `ScraperStore.NullReferenceBlocksSoftDelete` | db/config_scraper.go:58-62 | one NULL `config_id` stops every soft delete of config items |
| `ScraperStore.CrdRow` | db/config_scraper.go:69-74 | the row is keyed by the UID, named "<namespace>/<name>", sourced from a CRD, with no agent (the nil UUID, so a query for any other agent never returns it) and no deletion stamp |
| `ScraperStore.Upsert` | db/config_scraper.go:76 | the row with that key is replaced or added, and every other row is unchanged |
| `ScraperStore.CrdUpsertInPlace` | db/config_scraper.go:68-78 | re-persisting a UID adds no row, saving twice is saving once, and the row comes back undeleted |
| `ScraperStore.RowsWithSpec` | db/config_scraper.go:92 | exactly the rows whose spec equals the given one |
| `ScraperStore.FileRow` | db/config_scraper.go:100-101 | the draft's spec, agent and deletion stamp, named by the generator, with the config-file source and the key the insert assigns |
| `ScraperStore.FileInsertMakesOneRow` | db/config_scraper.go:92-105 | inserting when no row has the spec leaves exactly one such row and the others unchanged |
| `ScraperStore.Store.FindScraper` | db/config_scraper.go:16-27 | a query error is returned unchanged; a missing row is "no scraper" and not an error; otherwise the row with that id |
| `ScraperStore.Store.ScrapeConfigsOfAgent` | db/config_scraper.go:80-84 | exactly the rows of that agent, or the query's error unchanged |
| `ScraperStore.Store.ReferencedConfigIds` | db/config_scraper.go:42-46 | gathers the `config_id`s of every foreign-key table |
| `ScraperStore.Store.DeleteScrapeConfig` | db/config_scraper.go:29-66 | stamps the scraper deleted, then detaches, then soft-deletes; an error returns at once with the earlier statements applied; the error returned is the failing statement's own error, unchanged |
| `ScraperStore.Store.PersistScrapeConfigFromCRD` | db/config_scraper.go:68-78 | upserts the CRD row and reports a row affected, or changes nothing and returns the save's error |
| `ScraperStore.Store.PersistScrapeConfigFromFile` | db/config_scraper.go:86-106 | returns an existing row with the same spec and writes nothing; otherwise inserts the named draft under the fresh key and returns it; each of the four errors is returned and writes nothing |

## Left out

- The text of error messages. Errors are datatypes that record the failing step, its category and its cause.
- `BaseScraper`, the logger calls and `context.Background()`. They carry no behaviour the model states.
- `fetchAdvisorAnalysis` is not part of this model. Its output is an input of the environment, keyed by the position of the config.
- The nil dereference on a subscription without a display name (scrapers/azure/azure.go:435). The model dereferences it as "".
- The Azure SDK's response types and `azidentity`. Items carry only the fields the scraper reads, and clients and credentials either fail or succeed.
- `json.Marshal` and `utils.ParseJQ`. Their failure is an input predicate on the payload. Key order inside objects is not modelled, because payload objects are maps.
- `AzureFetch.ConfigClass`: the class of virtual machines comes from the external constant `models.ConfigClassVirtualMachine` (scrapers/azure/azure.go:374), which is not part of this model; its value is assumed to be "VirtualMachine". Every other class is a literal in the source.
- `GetArmId`: lower-casing covers only ASCII letters, not Unicode case mapping.
- `Scrape`: the sixteen appends of the source are written as a loop over a constant list in the same order. Its body is split into the per-config and per-category methods.
- The post-pass copies the results into an array and resolves it in place. The aliasing of Go slices is not modelled.
- The etag match is case-sensitive: jq `test` without flags (scrapers/azure/azure.go:124) keeps keys such as "ETag".
- The marker test in `ArmIds.ExtractResourceGroup` is case-sensitive (scrapers/azure/azure.go:694), so an id that still has "resourceGroups" yields no group.
- Results typed "Azure::Subscription" are not skipped by the post-pass, because its case label is "Azure::SUBSCRIPTION" (scrapers/azure/azure.go:131-141, 438).
- The delete runs three separate statements, not one transaction (db/config_scraper.go:30-64): a failing statement leaves the earlier ones applied.
- Page reads have no cancellation error: a page read either fails or yields items.
- `uuid.MustParse` panicking on a malformed UID: UIDs are taken as given.
- The `UNION` query is built as text in the source; the model gathers the referenced ids directly.
- Timestamps other than `deleted_at` (created and updated times).
- The store assumes that gorm adds no soft-delete filter to `First`, `Find` and `Save` on these tables, so deleted rows are found, matched and overwritten like live ones.
- `ScraperStore.Store.PersistScrapeConfigFromFile`: on an error the source also returns the partly filled row; the model returns only the error. When several rows share the spec, which one is returned is left open.
- `ScraperStore.FileRow`: `ToModel` is not part of this model, so the inserted row's key is taken as an input, the fresh primary key the database assigns; a draft that already carries a key is not modelled.
- `ScraperStore.Store.ScrapeConfigsOfAgent`: on a query error the source also returns whatever rows were scanned before it; the model returns only the error.
- `ScraperStore.Store.PersistScrapeConfigFromCRD`: `StructToJSON`'s error is ignored by the source; the model takes the spec it yields as an input.
- `ScraperStore.InList`: values are compared as strings; a `config_id` that is not a valid UUID is not modelled.
