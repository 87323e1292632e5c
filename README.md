# Web-crawler data provider: resource dispatch and provider lifecycle

This project models two pieces of decision logic of the Pimcore web-crawler
data provider for the dynamic-search bundle, and proves their properties in
Dafny.

- **Resource dispatch** (`AbstractResourceNormalizer`). A resource
  container is routed in one of these ways:
  - a spider resource goes to the HTML meta generator when the container
    has an `html` attribute;
  - otherwise it goes to the PDF meta generator when the container has a
    `pdf_content` attribute;
  - a Pimcore Page goes to `normalizePage`, an Asset to `normalizeAsset`
    and a DataObject to `normalizeDataObject`;
  - anything else yields the empty stack.

  A concrete normalizer supplies five abstract hooks. They are modelled as
  a record of arbitrary functions (`ResourceNormalizer.Hooks`), so every
  property holds for every concrete normalizer. A hook may throw a
  normalizer exception, and the dispatch passes it on.
- **Provider lifecycle** (`CrawlerDataProvider`). The class holds:
  - the configuration array. It is null until `setOptions` assigns it, or
    until a successful `provideSingle` writes `path` into it, which turns
    the null property into a one-key array;
  - the contents of the file watcher's persistence store and URI-filter
    store;
  - the log of calls made on the crawler service.

  Each method is proved against a function of a value-level state machine
  (`ProviderSpec`). Lemmas over arbitrary sequences of invocations prove
  three facts. The crawler service only ever sees `init…` directly followed
  by `process`. Every shutdown path leaves both stores empty. Without
  `setOptions`, every existing configuration key other than `path` keeps
  its value, and `path` is the only key that can be added.
- **Option declarations** (`configureOptions`). The defaults, required keys
  and allowed types of the three option groups are constants
  (`ProviderOptions`).
- **Cross-check** (`Classification`). This module compares the provider's
  trust check with the normalizer's routing, element kind by element kind.

Files:
- `resources.dfy`: the shared values.
- `normalizer.dfy`: the dispatch.
- `provider_options.dfy`: the option declarations.
- `provider_spec.dfy`: the provider state machine.
- `provider.dfy`: the class.
- `classification.dfy`: the cross-check.

Inputs from outside become parameters:
- What the external crawl leaves in the two stores is the `crawl`
  argument of `ProvideAll` and `ProvideSingle`.
- The stores' contents at construction time are the `initialStores`
  argument of the constructor.

Two classifications in the source are narrower than their names suggest:
- `validateUntrustedResource` trusts an `Asset\Document`, any `Document`
  and a `DataObject\Concrete`
  (src/DsWebCrawlerBundle/Provider/CrawlerDataProvider.php:163-167). It
  does not trust every Page, Asset and DataObject.
- The spider branch picks PDF meta generation when the container has a
  `pdf_content` attribute
  (src/DsWebCrawlerBundle/Normalizer/AbstractResourceNormalizer.php:49).
  It does not look at the content type.

## Model

| member | source | states |
|---|---|---|
| `ResourceNormalizer.StackFromMeta` | src/DsWebCrawlerBundle/Normalizer/AbstractResourceNormalizer.php:53-57 | A null meta gives the empty stack. A meta gives exactly one record, pairing that container with that meta. An exception from the generator propagates unchanged. |
| `ResourceNormalizer.NormalizeSpiderResource` | src/DsWebCrawlerBundle/Normalizer/AbstractResourceNormalizer.php:44-58 | Yields at most one record, and every record holds the same container. The HTML generator is used whenever `html` is present. The PDF generator is used only when `html` is absent and `pdf_content` is present. With neither attribute the stack is empty. |
| `ResourceNormalizer.NormalizePimcoreResource` | src/DsWebCrawlerBundle/Normalizer/AbstractResourceNormalizer.php:63-83 | A non-element gives the empty stack. A Page gives the normalizePage result, unchanged. Any Asset gives the normalizeAsset result. Any DataObject gives the normalizeDataObject result. A non-Page Document gives the empty stack. |
| `ResourceNormalizer.NormalizeToResourceStack` | src/DsWebCrawlerBundle/Normalizer/AbstractResourceNormalizer.php:32-39 | A spider resource takes the spider branch and yields at most one record. Every other resource takes the Pimcore branch. A non-element yields the empty stack. |
| `ResourceNormalizer.SpiderIgnoresElementHooks` | src/DsWebCrawlerBundle/Normalizer/AbstractResourceNormalizer.php:34-35 | For a spider resource, replacing normalizePage, normalizeAsset and normalizeDataObject by any functions leaves the result unchanged, so those hooks are never reached. |
| `ResourceNormalizer.HtmlTakesPrecedence` | src/DsWebCrawlerBundle/Normalizer/AbstractResourceNormalizer.php:47-51 | With an `html` attribute, replacing the PDF generator leaves the result unchanged, even when `pdf_content` is present too. |
| `ResourceNormalizer.SpiderCardinality` | src/DsWebCrawlerBundle/Normalizer/AbstractResourceNormalizer.php:46-57 | The spider result is the empty stack exactly when no attribute is present or the chosen generator returns null. Otherwise it is one record pairing the container with the meta, or the generator's exception. |
| `ResourceNormalizer.ElementIgnoresMetaGenerators` | src/DsWebCrawlerBundle/Normalizer/AbstractResourceNormalizer.php:34-38 | A resource that is not a spider resource never reaches either meta generator. |
| `ResourceNormalizer.ElementReachesOneHook` | src/DsWebCrawlerBundle/Normalizer/AbstractResourceNormalizer.php:70-82 | Each element reaches only the hook for its family: a Page only normalizePage, an Asset only normalizeAsset, a DataObject only normalizeDataObject. The other two hooks may be replaced freely. A non-Page Document reaches none. |
| `ProviderOptions.RequiredKeysAreTyped` | src/DsWebCrawlerBundle/Provider/CrawlerDataProvider.php:49-102 | Every required key of each of the three option groups has a declared allowed type. |
| `ProviderOptions.AlwaysDefaultsWellTyped` | src/DsWebCrawlerBundle/Provider/CrawlerDataProvider.php:52-72 | Every default of the `always` group has its declared type. |
| `ProviderOptions.OnlySeedDefaultIllTyped` | src/DsWebCrawlerBundle/Provider/CrawlerDataProvider.php:76-90 | Among the full-dispatch defaults, only `seed` (null, declared `string`) lacks its declared type. So a full crawl needs a seed from the caller. |
| `ProviderOptions.OnlyHostLacksDefault` | src/DsWebCrawlerBundle/Provider/CrawlerDataProvider.php:63-96 | Every required key of `always` and of the full-dispatch group has a default. `host` is the only single-dispatch key without one, so a single dispatch needs a host from the caller. |
| `ProviderSpec.ResetPersistenceStore` | src/DsWebCrawlerBundle/Provider/CrawlerDataProvider.php:118 | Empties the persistence store. The URI-filter store, the configuration and the crawler trace are unchanged. |
| `ProviderSpec.ResetUriFilterPersistenceStore` | src/DsWebCrawlerBundle/Provider/CrawlerDataProvider.php:127 | Empties the URI-filter store. The persistence store, the configuration and the crawler trace are unchanged. |
| `ProviderSpec.SetOptions` | src/DsWebCrawlerBundle/Provider/CrawlerDataProvider.php:108-111 | The configuration becomes exactly the given options. The stores and the crawler trace are unchanged. |
| `ProviderSpec.WarmUp` | src/DsWebCrawlerBundle/Provider/CrawlerDataProvider.php:116-119 | Empties the persistence store only. The URI-filter store, the configuration and the crawler trace are unchanged. |
| `ProviderSpec.CoolDown` | src/DsWebCrawlerBundle/Provider/CrawlerDataProvider.php:124-128 | Both stores are empty afterwards. The configuration and the crawler trace are unchanged. |
| `ProviderSpec.CancelledShutdown` | src/DsWebCrawlerBundle/Provider/CrawlerDataProvider.php:133-137 | Both stores are empty afterwards. The configuration and the crawler trace are unchanged. |
| `ProviderSpec.EmergencyShutdown` | src/DsWebCrawlerBundle/Provider/CrawlerDataProvider.php:142-146 | Both stores are empty afterwards. The configuration and the crawler trace are unchanged. |
| `ProviderSpec.ProvideAll` | src/DsWebCrawlerBundle/Provider/CrawlerDataProvider.php:177-181 | The configuration is unchanged. The trace gains exactly two calls: `initFullCrawl`, with the context's name, its dispatch type and the current configuration, then `process`. |
| `ProviderSpec.ProvideSingle` | src/DsWebCrawlerBundle/Provider/CrawlerDataProvider.php:186-198 | Throws the provider exception exactly when `path` is absent or not a string, and then nothing changes. Otherwise `path` is set to the given value and every other key keeps its value. The trace then gains `initSingleCrawl` with the updated configuration, followed by `process`. |
| `ProviderSpec.ShutdownsAgree` | src/DsWebCrawlerBundle/Provider/CrawlerDataProvider.php:124-146 | coolDown, cancelledShutdown and emergencyShutdown have identical effect. That effect is warmUp's effect with the URI-filter store emptied as well. |
| `ProviderSpec.LifecycleIdempotent` | src/DsWebCrawlerBundle/Provider/CrawlerDataProvider.php:116-146 | Applying any of the four lifecycle operations twice gives the same state as applying it once. |
| `ProviderSpec.RejectedSingleDoesNoCrawlWork` | src/DsWebCrawlerBundle/Provider/CrawlerDataProvider.php:190-192 | A rejected provideSingle records no crawler call, in particular no `initSingleCrawl`, and leaves the configuration as it was. |
| `ProviderSpec.CrawlPairsAppend` | src/DsWebCrawlerBundle/Provider/CrawlerDataProvider.php:179-180 | Appending one init call followed by `process` keeps the trace made of whole init/process pairs. |
| `ProviderSpec.ProcessFollowsInit` | src/DsWebCrawlerBundle/Provider/CrawlerDataProvider.php:179-180 | In a trace of pairs, every `process` comes directly after an `initFullCrawl` or `initSingleCrawl`. |
| `ProviderSpec.StepKeepsCrawlPairs` | src/DsWebCrawlerBundle/Provider/CrawlerDataProvider.php:177-197 | Every single invocation of the provider keeps the trace made of init/process pairs. |
| `ProviderSpec.RunKeepsCrawlPairs` | src/DsWebCrawlerBundle/Provider/CrawlerDataProvider.php:177-197 | Every sequence of invocations, in any order, keeps the trace made of init/process pairs. |
| `ProviderSpec.RunSnoc` | src/DsWebCrawlerBundle/Provider/CrawlerDataProvider.php:108-197 | Running a sequence of invocations and then one more is the same as running that one after the sequence. |
| `ProviderSpec.ShutdownAfterAnyRun` | src/DsWebCrawlerBundle/Provider/CrawlerDataProvider.php:124-146 | After any sequence of invocations, ending with any of the three shutdown paths leaves both stores empty. The configuration and the trace are the ones the sequence left. |
| `ProviderSpec.RunKeepsOtherKeys` | src/DsWebCrawlerBundle/Provider/CrawlerDataProvider.php:194 | In a sequence without setOptions, every configuration key other than `path` stays present with its original value. |
| `ProviderSpec.RunAddsOnlyPath` | src/DsWebCrawlerBundle/Provider/CrawlerDataProvider.php:194 | In a sequence without setOptions, the configuration's keys stay within the original keys plus `path`. |
| `CrawlerProvider.ValidateUntrustedResource` | src/DsWebCrawlerBundle/Provider/CrawlerDataProvider.php:161-172 | Only elements are accepted. An element is accepted exactly when it is neither a non-document asset nor a non-Concrete data object, i.e. for an Asset\Document, any Document and a DataObject\Concrete. |
| `CrawlerProvider.CheckUntrustedResourceProxy` | src/DsWebCrawlerBundle/Provider/CrawlerDataProvider.php:151-156 | Always returns null, and as a function it changes nothing. |
| `CrawlerProvider.CrawlerDataProvider.constructor` | src/DsWebCrawlerBundle/Provider/CrawlerDataProvider.php:38-42 | Starts with no configuration, the given store contents and an empty crawler trace. |
| `CrawlerProvider.CrawlerDataProvider.SetOptions` | src/DsWebCrawlerBundle/Provider/CrawlerDataProvider.php:108-111 | The new state is `ProviderSpec.SetOptions` of the old one. |
| `CrawlerProvider.CrawlerDataProvider.WarmUp` | src/DsWebCrawlerBundle/Provider/CrawlerDataProvider.php:116-119 | The new state is `ProviderSpec.WarmUp` of the old one. |
| `CrawlerProvider.CrawlerDataProvider.CoolDown` | src/DsWebCrawlerBundle/Provider/CrawlerDataProvider.php:124-128 | The new state is `ProviderSpec.CoolDown` of the old one. |
| `CrawlerProvider.CrawlerDataProvider.CancelledShutdown` | src/DsWebCrawlerBundle/Provider/CrawlerDataProvider.php:133-137 | The new state is `ProviderSpec.CancelledShutdown` of the old one. |
| `CrawlerProvider.CrawlerDataProvider.EmergencyShutdown` | src/DsWebCrawlerBundle/Provider/CrawlerDataProvider.php:142-146 | The new state is `ProviderSpec.EmergencyShutdown` of the old one. |
| `CrawlerProvider.CrawlerDataProvider.ProvideAll` | src/DsWebCrawlerBundle/Provider/CrawlerDataProvider.php:177-181 | The new state is `ProviderSpec.ProvideAll` of the old one, and the trace invariant is kept. |
| `CrawlerProvider.CrawlerDataProvider.ProvideSingle` | src/DsWebCrawlerBundle/Provider/CrawlerDataProvider.php:186-198 | The new state and the outcome (done or thrown) are `ProviderSpec.ProvideSingle` of the old state, and the trace invariant is kept. |
| `CrawlerProvider.CrawlerDataProvider.ResetPersistenceStore` | src/DsWebCrawlerBundle/Provider/CrawlerDataProvider.php:118 | Empties the persistence store and changes nothing else. |
| `CrawlerProvider.CrawlerDataProvider.ResetUriFilterPersistenceStore` | src/DsWebCrawlerBundle/Provider/CrawlerDataProvider.php:127 | Empties the URI-filter store and changes nothing else. |
| `CrawlerProvider.CrawlerDataProvider.InitFullCrawl` | src/DsWebCrawlerBundle/Provider/CrawlerDataProvider.php:179 | Records `initFullCrawl` with its arguments and changes nothing else. |
| `CrawlerProvider.CrawlerDataProvider.InitSingleCrawl` | src/DsWebCrawlerBundle/Provider/CrawlerDataProvider.php:196 | Records `initSingleCrawl` with its arguments and changes nothing else. |
| `CrawlerProvider.CrawlerDataProvider.Process` | src/DsWebCrawlerBundle/Provider/CrawlerDataProvider.php:180 | Records `process`. Afterwards the stores hold what the crawl left. |
| `Classification.TrustedDocumentNormalizesToNothing` | src/DsWebCrawlerBundle/Provider/CrawlerDataProvider.php:165 | A non-Page Document passes the trust check, yet every normalizer turns it into the empty stack. |
| `Classification.RejectedAssetReachesNormalizeAsset` | src/DsWebCrawlerBundle/Provider/CrawlerDataProvider.php:163 | A non-document Asset fails the trust check, yet it is handed unchanged to normalizeAsset. |
| `Classification.RejectedDataObjectReachesNormalizeDataObject` | src/DsWebCrawlerBundle/Provider/CrawlerDataProvider.php:167 | A non-Concrete DataObject fails the trust check, yet it is handed unchanged to normalizeDataObject. |
| `Classification.ClassificationsAgreeExactly` | src/DsWebCrawlerBundle/Provider/CrawlerDataProvider.php:161-172 | On elements, the trust check and "reaches a hook" agree exactly for Page, Asset\Document and DataObject\Concrete. They disagree for every other kind. Non-elements are never trusted. |

## Left out

- The crawler service is left out: `initFullCrawl`, `initSingleCrawl` and `process` are recorded as calls with their arguments. Their internals are not modelled: the link filter, the breadth-first frontier, deduplication, and the depth and count limits. These services are not part of this model.
- The file-watcher service is left out: its two reset calls are modelled only by their effect, emptied store contents. How it stores data is not modelled.
- What the external crawl writes into the stores is a parameter (`crawl`) chosen by the caller of the model.
- Exceptions thrown by the crawler service or the file watcher are not modelled. Only the provider's own exception in provideSingle is.
- The options resolver's mechanics are not modelled: resolving, type checking, and the nested resolvers. Only the declared defaults, required keys and allowed types are kept, as constants.
- The regular-expression meaning of `core_invalid_links` is not modelled. It is kept as an opaque string.
- The names of the two dispatch groups (`full_dispatch`, `single_dispatch`) come from a constant of the host bundle's provider interface. That interface is not part of this model.
- The provider name passed to the provider exception comes from `DsWebCrawlerBundle::PROVIDER_NAME`, which is not part of this model. The exception carries only its message.
- The bodies of the concrete normalizers and meta generators are not modelled: any functions may be supplied as the hooks. The normalizer's injected transformer and data managers are never used by the dispatch and are not modelled.
- ProviderSpec.ProvideSingle: an absent `path` key is modelled as throwing the provider exception directly. In PHP 8, reading the absent key first emits an "Undefined array key" warning, and only then does the provider throw. Under an error handler that turns warnings into exceptions, the caller sees that handler's exception (for example an `ErrorException`) instead. Error handlers belong to the host application and are not part of this model.
- `ResourceContainer::hasAttribute` is modelled as key presence in the attribute array.
- PHP arrays used as option values are modelled as lists or string-keyed dictionaries. Integer keys are not modelled.
- Concurrency, network fetching and PDF text extraction are not modelled.
