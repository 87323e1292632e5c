/** CrawlerDataProvider: the facade the indexing pipeline drives. Its own
    field is the configuration array; the two file-watcher stores and the
    crawler service's call log are fields too, standing for the external
    services it is wired to. Each method is proved against the matching
    function of ProviderSpec. */
module CrawlerProvider {
  import opened Resources
  import opened ProviderSpec

  /** validateUntrustedResource: an Asset\Document, any Document (a Page
      included) and a DataObject\Concrete are accepted; other assets,
      object folders and everything that is not an element are not. */
  function ValidateUntrustedResource(ctx: ContextDefinition, resource: Resource): (accepted: bool)
    ensures accepted ==> resource.Element?
    ensures resource.Element? ==>
              (accepted <==> !resource.kind.OtherAsset? && !resource.kind.OtherDataObject?)
  {
    if resource.Element? && resource.kind.AssetDocument? then true
    else if resource.Element? && IsDocument(resource.kind) then true
    else if resource.Element? && resource.kind.Concrete? then true
    else false
  }

  /** checkUntrustedResourceProxy is not implemented by this provider: it
      never offers a proxy resource. */
  function CheckUntrustedResourceProxy(ctx: ContextDefinition, resource: Resource): (proxy: Option<Resource>)
    ensures proxy == None
  {
    None
  }

  class CrawlerDataProvider {
    var configuration: Option<Configuration>
    /** Contents of the file watcher's persistence and URI-filter stores. */
    var stores: StoreContents
    /** The calls made so far on the crawler service. */
    var crawlerCalls: seq<CrawlerCall>

    function State(): ProviderState
      reads this
    {
      ProviderState(configuration, stores, crawlerCalls)
    }

    ghost predicate Valid()
      reads this
    {
      CrawlPairs(crawlerCalls)
    }

    /** The services are injected; the stores hold whatever they hold, and
        no option has been set yet. */
    constructor (initialStores: StoreContents)
      ensures Valid()
      ensures State() == ProviderState(None, initialStores, [])
    {
      configuration := None;
      stores := initialStores;
      crawlerCalls := [];
    }

    method SetOptions(options: Configuration)
      requires Valid()
      modifies this
      ensures Valid()
      ensures State() == ProviderSpec.SetOptions(old(State()), options)
    {
      configuration := Some(options);
    }

    method WarmUp(ctx: ContextDefinition)
      requires Valid()
      modifies this
      ensures Valid()
      ensures State() == ProviderSpec.WarmUp(old(State()), ctx)
    {
      ResetPersistenceStore();
    }

    method CoolDown(ctx: ContextDefinition)
      requires Valid()
      modifies this
      ensures Valid()
      ensures State() == ProviderSpec.CoolDown(old(State()), ctx)
    {
      ResetPersistenceStore();
      ResetUriFilterPersistenceStore();
    }

    method CancelledShutdown(ctx: ContextDefinition)
      requires Valid()
      modifies this
      ensures Valid()
      ensures State() == ProviderSpec.CancelledShutdown(old(State()), ctx)
    {
      ResetPersistenceStore();
      ResetUriFilterPersistenceStore();
    }

    method EmergencyShutdown(ctx: ContextDefinition)
      requires Valid()
      modifies this
      ensures Valid()
      ensures State() == ProviderSpec.EmergencyShutdown(old(State()), ctx)
    {
      ResetPersistenceStore();
      ResetUriFilterPersistenceStore();
    }

    /** `crawl` is what the external crawl leaves in the two stores. */
    method ProvideAll(ctx: ContextDefinition, crawl: StoreContents)
      requires Valid()
      modifies this
      ensures Valid()
      ensures State() == ProviderSpec.ProvideAll(old(State()), ctx, crawl)
    {
      ghost var before := crawlerCalls;
      var init := CrawlerCall.InitFullCrawl(ctx.name, ctx.dispatchType, configuration);
      InitFullCrawl(ctx.name, ctx.dispatchType, configuration);
      Process(crawl);
      assert crawlerCalls == before + [init, CrawlerCall.Process];
      CrawlPairsAppend(before, init);
    }

    method ProvideSingle(ctx: ContextDefinition, meta: ResourceMeta, crawl: StoreContents) returns (outcome: Outcome)
      requires Valid()
      modifies this
      ensures Valid()
      ensures SingleResult(State(), outcome) == ProviderSpec.ProvideSingle(old(State()), ctx, meta, crawl)
    {
      var options := meta.resourceOptions;
      if !("path" in options && options["path"].Str?) {
        return Thrown(ProviderException(PathMissingMessage));
      }
      var current := if configuration.Some? then configuration.value else map[];
      configuration := Some(current["path" := options["path"]]);
      ghost var before := crawlerCalls;
      var init := CrawlerCall.InitSingleCrawl(meta, ctx.name, ctx.dispatchType, configuration);
      InitSingleCrawl(meta, ctx.name, ctx.dispatchType, configuration);
      Process(crawl);
      assert crawlerCalls == before + [init, CrawlerCall.Process];
      CrawlPairsAppend(before, init);
      outcome := Done;
    }

    // The calls on the two services. Only the provider's own methods above
    // call these; on their own they do not keep Valid(), since an init call
    // without its `process` breaks the init/process pairing of the trace.

    method ResetPersistenceStore()
      modifies this
      ensures State() == ProviderSpec.ResetPersistenceStore(old(State()))
    {
      stores := stores.(persistence := {});
    }

    method ResetUriFilterPersistenceStore()
      modifies this
      ensures State() == ProviderSpec.ResetUriFilterPersistenceStore(old(State()))
    {
      stores := stores.(uriFilter := {});
    }

    method InitFullCrawl(contextName: string, dispatchType: string, config: Option<Configuration>)
      modifies this
      ensures configuration == old(configuration) && stores == old(stores)
      ensures crawlerCalls == old(crawlerCalls) + [CrawlerCall.InitFullCrawl(contextName, dispatchType, config)]
    {
      crawlerCalls := crawlerCalls + [CrawlerCall.InitFullCrawl(contextName, dispatchType, config)];
    }

    method InitSingleCrawl(meta: ResourceMeta, contextName: string, dispatchType: string, config: Option<Configuration>)
      modifies this
      ensures configuration == old(configuration) && stores == old(stores)
      ensures crawlerCalls == old(crawlerCalls) + [CrawlerCall.InitSingleCrawl(meta, contextName, dispatchType, config)]
    {
      crawlerCalls := crawlerCalls + [CrawlerCall.InitSingleCrawl(meta, contextName, dispatchType, config)];
    }

    /** The crawl runs; afterwards the stores hold `crawl`. */
    method Process(crawl: StoreContents)
      modifies this
      ensures configuration == old(configuration) && stores == crawl
      ensures crawlerCalls == old(crawlerCalls) + [CrawlerCall.Process]
    {
      crawlerCalls := crawlerCalls + [CrawlerCall.Process];
      stores := crawl;
    }
  }
}
