/** The observable behaviour of CrawlerDataProvider as a state machine over
    values: its configuration array, the contents of the file watcher's two
    stores, and the trace of calls it makes on the crawler service. What
    the external crawl leaves in the stores is chosen by the environment
    and passed in as a parameter. */
module ProviderSpec {
  import opened Resources

  datatype ProviderException = ProviderException(message: string)

  const PathMissingMessage := "resource option \"path\" must be set to provide single data."

  /** The result of an operation that returns nothing or throws. */
  datatype Outcome = Done | Thrown(exception: ProviderException)

  type Configuration = map<string, Value>

  /** A call made on the crawler service, with the arguments it was given. */
  datatype CrawlerCall =
    | InitFullCrawl(contextName: string, dispatchType: string, configuration: Option<Configuration>)
    | InitSingleCrawl(resourceMeta: ResourceMeta, contextName: string, dispatchType: string, configuration: Option<Configuration>)
    | Process

  /** The contents of the persistence store and of the URI-filter store. */
  datatype StoreContents = StoreContents(persistence: set<string>, uriFilter: set<string>)

  const EmptyStores := StoreContents({}, {})

  /** `configuration` is None while the PHP property is still null: until
      setOptions assigns it or a successful provideSingle writes `path`
      into it. */
  datatype ProviderState = ProviderState(
    configuration: Option<Configuration>,
    stores: StoreContents,
    crawlerCalls: seq<CrawlerCall>)

  /** The state after provideSingle, and whether it returned or threw. */
  datatype SingleResult = SingleResult(state: ProviderState, outcome: Outcome)

  /** The configuration array as PHP sees it when writing a key into it:
      a null property becomes a fresh empty array. */
  function ConfigurationOrEmpty(s: ProviderState): Configuration
  {
    if s.configuration.Some? then s.configuration.value else map[]
  }

  /** The crawler-call trace consists of whole provide calls: an init call
      immediately followed by `Process`, repeated. */
  predicate CrawlPairs(t: seq<CrawlerCall>)
    decreases |t|
  {
    t == [] || (|t| >= 2 && !t[0].Process? && t[1].Process? && CrawlPairs(t[2..]))
  }

  // ---------------------------------------------------------------------
  // The two file-watcher calls

  function ResetPersistenceStore(s: ProviderState): (t: ProviderState)
    ensures t.stores.persistence == {}
    ensures t.stores.uriFilter == s.stores.uriFilter
    ensures t.configuration == s.configuration && t.crawlerCalls == s.crawlerCalls
  {
    s.(stores := s.stores.(persistence := {}))
  }

  function ResetUriFilterPersistenceStore(s: ProviderState): (t: ProviderState)
    ensures t.stores.uriFilter == {}
    ensures t.stores.persistence == s.stores.persistence
    ensures t.configuration == s.configuration && t.crawlerCalls == s.crawlerCalls
  {
    s.(stores := s.stores.(uriFilter := {}))
  }

  // ---------------------------------------------------------------------
  // The provider's operations

  function SetOptions(s: ProviderState, options: Configuration): (t: ProviderState)
    ensures t.configuration == Some(options)
    ensures t.stores == s.stores && t.crawlerCalls == s.crawlerCalls
  {
    s.(configuration := Some(options))
  }

  /** warmUp resets the persistence store only. */
  function WarmUp(s: ProviderState, ctx: ContextDefinition): (t: ProviderState)
    ensures t.stores.persistence == {}
    ensures t.stores.uriFilter == s.stores.uriFilter
    ensures t.configuration == s.configuration && t.crawlerCalls == s.crawlerCalls
  {
    ResetPersistenceStore(s)
  }

  /** coolDown resets the persistence store, then the URI-filter store. */
  function CoolDown(s: ProviderState, ctx: ContextDefinition): (t: ProviderState)
    ensures t.stores == EmptyStores
    ensures t.configuration == s.configuration && t.crawlerCalls == s.crawlerCalls
  {
    ResetUriFilterPersistenceStore(ResetPersistenceStore(s))
  }

  function CancelledShutdown(s: ProviderState, ctx: ContextDefinition): (t: ProviderState)
    ensures t.stores == EmptyStores
    ensures t.configuration == s.configuration && t.crawlerCalls == s.crawlerCalls
  {
    ResetUriFilterPersistenceStore(ResetPersistenceStore(s))
  }

  function EmergencyShutdown(s: ProviderState, ctx: ContextDefinition): (t: ProviderState)
    ensures t.stores == EmptyStores
    ensures t.configuration == s.configuration && t.crawlerCalls == s.crawlerCalls
  {
    ResetUriFilterPersistenceStore(ResetPersistenceStore(s))
  }

  /** provideAll: initFullCrawl with the context's name and dispatch type
      and the configuration as it is, then process. `crawl` is what the
      crawl leaves in the stores. */
  function ProvideAll(s: ProviderState, ctx: ContextDefinition, crawl: StoreContents): (t: ProviderState)
    ensures t.configuration == s.configuration
    ensures |t.crawlerCalls| == |s.crawlerCalls| + 2
    ensures t.crawlerCalls[..|s.crawlerCalls|] == s.crawlerCalls
    ensures t.crawlerCalls[|s.crawlerCalls|] == InitFullCrawl(ctx.name, ctx.dispatchType, s.configuration)
    ensures t.crawlerCalls[|s.crawlerCalls| + 1] == Process
    ensures t.stores == crawl
  {
    s.(crawlerCalls := s.crawlerCalls + [InitFullCrawl(ctx.name, ctx.dispatchType, s.configuration), Process],
       stores := crawl)
  }

  /** The guard of provideSingle: the resource option `path` is a string
      (an absent key reads as null, which is not). */
  predicate HasStringPath(meta: ResourceMeta)
  {
    "path" in meta.resourceOptions && meta.resourceOptions["path"].Str?
  }

  /** provideSingle: without a string `path` it throws and changes nothing;
      otherwise it writes that path into the configuration, calls
      initSingleCrawl with the updated configuration, then process. */
  function ProvideSingle(s: ProviderState, ctx: ContextDefinition, meta: ResourceMeta, crawl: StoreContents)
    : (r: SingleResult)
    ensures r.outcome.Thrown? <==> !HasStringPath(meta)
    ensures r.outcome.Thrown? ==> r.state == s && r.outcome.exception == ProviderException(PathMissingMessage)
    ensures r.outcome.Done? ==>
              var c := ConfigurationOrEmpty(s);
              && r.state.configuration.Some?
              && r.state.configuration.value.Keys == c.Keys + {"path"}
              && r.state.configuration.value["path"] == meta.resourceOptions["path"]
              && (forall k :: k in c && k != "path" ==> r.state.configuration.value[k] == c[k])
              && r.state.crawlerCalls
                 == s.crawlerCalls + [InitSingleCrawl(meta, ctx.name, ctx.dispatchType, r.state.configuration), Process]
              && r.state.stores == crawl
  {
    var options := meta.resourceOptions;
    if !HasStringPath(meta) then
      SingleResult(s, Thrown(ProviderException(PathMissingMessage)))
    else
      var configuration := Some(ConfigurationOrEmpty(s)["path" := options["path"]]);
      var t := s.(configuration := configuration,
                  crawlerCalls := s.crawlerCalls + [InitSingleCrawl(meta, ctx.name, ctx.dispatchType, configuration), Process],
                  stores := crawl);
      SingleResult(t, Done)
  }

  // ---------------------------------------------------------------------
  // Arbitrary sequences of invocations by the indexing pipeline

  datatype Invocation =
    | CallSetOptions(options: Configuration)
    | CallWarmUp(ctx: ContextDefinition)
    | CallCoolDown(ctx: ContextDefinition)
    | CallCancelledShutdown(ctx: ContextDefinition)
    | CallEmergencyShutdown(ctx: ContextDefinition)
    | CallProvideAll(ctx: ContextDefinition, crawl: StoreContents)
    | CallProvideSingle(ctx: ContextDefinition, meta: ResourceMeta, crawl: StoreContents)

  predicate IsShutdown(inv: Invocation)
  {
    inv.CallCoolDown? || inv.CallCancelledShutdown? || inv.CallEmergencyShutdown?
  }

  /** One invocation; a thrown exception leaves the state as it was. */
  function Step(s: ProviderState, inv: Invocation): ProviderState
  {
    match inv
    case CallSetOptions(options) => SetOptions(s, options)
    case CallWarmUp(ctx) => WarmUp(s, ctx)
    case CallCoolDown(ctx) => CoolDown(s, ctx)
    case CallCancelledShutdown(ctx) => CancelledShutdown(s, ctx)
    case CallEmergencyShutdown(ctx) => EmergencyShutdown(s, ctx)
    case CallProvideAll(ctx, crawl) => ProvideAll(s, ctx, crawl)
    case CallProvideSingle(ctx, meta, crawl) => ProvideSingle(s, ctx, meta, crawl).state
  }

  function Run(s: ProviderState, invs: seq<Invocation>): ProviderState
    decreases |invs|
  {
    if invs == [] then s else Run(Step(s, invs[0]), invs[1..])
  }

  // ---------------------------------------------------------------------
  // Lemmas

  /** The three shutdown paths have the same effect. */
  lemma ShutdownsAgree(s: ProviderState, ctx: ContextDefinition)
    ensures CoolDown(s, ctx) == CancelledShutdown(s, ctx) == EmergencyShutdown(s, ctx)
    ensures CoolDown(s, ctx) == WarmUp(s, ctx).(stores := EmptyStores)
  {
  }

  /** Every lifecycle operation is idempotent. */
  lemma LifecycleIdempotent(s: ProviderState, ctx: ContextDefinition)
    ensures WarmUp(WarmUp(s, ctx), ctx) == WarmUp(s, ctx)
    ensures CoolDown(CoolDown(s, ctx), ctx) == CoolDown(s, ctx)
    ensures CancelledShutdown(CancelledShutdown(s, ctx), ctx) == CancelledShutdown(s, ctx)
    ensures EmergencyShutdown(EmergencyShutdown(s, ctx), ctx) == EmergencyShutdown(s, ctx)
  {
  }

  /** A rejected provideSingle records no crawler call at all, in particular
      no initSingleCrawl, and leaves the configuration untouched. */
  lemma RejectedSingleDoesNoCrawlWork(s: ProviderState, ctx: ContextDefinition, meta: ResourceMeta, crawl: StoreContents)
    requires !HasStringPath(meta)
    ensures ProvideSingle(s, ctx, meta, crawl).state.crawlerCalls == s.crawlerCalls
    ensures ProvideSingle(s, ctx, meta, crawl).state.configuration == s.configuration
  {
  }

  /** Appending one whole provide call keeps the trace made of pairs. */
  lemma {:induction false} CrawlPairsAppend(t: seq<CrawlerCall>, init: CrawlerCall)
    requires CrawlPairs(t) && !init.Process?
    ensures CrawlPairs(t + [init, Process])
    decreases |t|
  {
    if t == [] {
      assert [init, Process][2..] == [];
    } else {
      assert (t + [init, Process])[2..] == t[2..] + [init, Process];
      CrawlPairsAppend(t[2..], init);
    }
  }

  /** In a trace of pairs, each `Process` comes right after an init call. */
  lemma {:induction false} ProcessFollowsInit(t: seq<CrawlerCall>, i: nat)
    requires CrawlPairs(t) && i < |t| && t[i].Process?
    ensures i > 0 && (t[i - 1].InitFullCrawl? || t[i - 1].InitSingleCrawl?)
    decreases |t|
  {
    if i >= 2 {
      ProcessFollowsInit(t[2..], i - 2);
    }
  }

  lemma StepKeepsCrawlPairs(s: ProviderState, inv: Invocation)
    requires CrawlPairs(s.crawlerCalls)
    ensures CrawlPairs(Step(s, inv).crawlerCalls)
  {
    match inv
    case CallProvideAll(ctx, crawl) =>
      CrawlPairsAppend(s.crawlerCalls, InitFullCrawl(ctx.name, ctx.dispatchType, s.configuration));
    case CallProvideSingle(ctx, meta, crawl) =>
      var t := ProvideSingle(s, ctx, meta, crawl).state;
      if HasStringPath(meta) {
        CrawlPairsAppend(s.crawlerCalls, InitSingleCrawl(meta, ctx.name, ctx.dispatchType, t.configuration));
      }
    case _ =>
  }

  /** Whatever the pipeline invokes, in whatever order, the crawler service
      only ever sees `init…` followed directly by `process`. */
  lemma {:induction false} RunKeepsCrawlPairs(s: ProviderState, invs: seq<Invocation>)
    requires CrawlPairs(s.crawlerCalls)
    ensures CrawlPairs(Run(s, invs).crawlerCalls)
    decreases |invs|
  {
    if invs != [] {
      StepKeepsCrawlPairs(s, invs[0]);
      RunKeepsCrawlPairs(Step(s, invs[0]), invs[1..]);
    }
  }

  lemma {:induction false} RunSnoc(s: ProviderState, invs: seq<Invocation>, inv: Invocation)
    ensures Run(s, invs + [inv]) == Step(Run(s, invs), inv)
    decreases |invs|
  {
    if invs == [] {
      assert [inv][1..] == [];
    } else {
      assert (invs + [inv])[1..] == invs[1..] + [inv];
      RunSnoc(Step(s, invs[0]), invs[1..], inv);
    }
  }

  /** However a run went, ending it with any of the three shutdown paths
      leaves both stores empty, and the configuration and the crawler trace
      are those the run produced. */
  lemma ShutdownAfterAnyRun(s: ProviderState, invs: seq<Invocation>, last: Invocation)
    requires IsShutdown(last)
    ensures Run(s, invs + [last]).stores == EmptyStores
    ensures Run(s, invs + [last]).configuration == Run(s, invs).configuration
    ensures Run(s, invs + [last]).crawlerCalls == Run(s, invs).crawlerCalls
  {
    RunSnoc(s, invs, last);
  }

  /** Without setOptions, no invocation ever changes or removes a
      configuration key other than `path`. */
  lemma {:induction false} RunKeepsOtherKeys(s: ProviderState, invs: seq<Invocation>, k: string)
    requires forall i :: 0 <= i < |invs| ==> !invs[i].CallSetOptions?
    requires k != "path" && k in ConfigurationOrEmpty(s)
    ensures k in ConfigurationOrEmpty(Run(s, invs))
    ensures ConfigurationOrEmpty(Run(s, invs))[k] == ConfigurationOrEmpty(s)[k]
    decreases |invs|
  {
    if invs != [] {
      var t := Step(s, invs[0]);
      assert !invs[0].CallSetOptions?;
      assert k in ConfigurationOrEmpty(t) && ConfigurationOrEmpty(t)[k] == ConfigurationOrEmpty(s)[k];
      RunKeepsOtherKeys(t, invs[1..], k);
    }
  }

  /** Without setOptions, the only key any invocation can add to the
      configuration is `path`. */
  lemma {:induction false} RunAddsOnlyPath(s: ProviderState, invs: seq<Invocation>)
    requires forall i :: 0 <= i < |invs| ==> !invs[i].CallSetOptions?
    ensures ConfigurationOrEmpty(Run(s, invs)).Keys <= ConfigurationOrEmpty(s).Keys + {"path"}
    decreases |invs|
  {
    if invs != [] {
      var t := Step(s, invs[0]);
      assert !invs[0].CallSetOptions?;
      assert ConfigurationOrEmpty(t).Keys <= ConfigurationOrEmpty(s).Keys + {"path"};
      RunAddsOnlyPath(t, invs[1..]);
    }
  }
}
