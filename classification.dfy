/** How the provider's trust check and the normalizer's dispatch classify
    the same Pimcore element. They do not agree: a Document that is not a
    Page is trusted but normalizes to nothing, while an asset that is not
    an Asset\Document, or an object folder, is rejected as untrusted yet
    would reach a normalizer hook. */
module Classification {
  import opened Resources
  import opened ResourceNormalizer
  import CrawlerProvider

  /** The element reaches one of the three element hooks. */
  predicate ReachesElementHook(k: ElementKind)
  {
    k.Page? || IsAsset(k) || IsDataObject(k)
  }

  /** A non-Page Document is trusted, yet every normalizer turns it into
      the empty stack. */
  lemma TrustedDocumentNormalizesToNothing(h: Hooks, ctx: ContextDefinition, c: ResourceContainer)
    requires c.resource.Element? && c.resource.kind.OtherDocument?
    ensures CrawlerProvider.ValidateUntrustedResource(ctx, c.resource)
    ensures NormalizeToResourceStack(h, ctx, c) == Ok([])
  {
  }

  /** An asset that is not an Asset\Document is rejected, yet it is handed
      to normalizeAsset unchanged. */
  lemma RejectedAssetReachesNormalizeAsset(h: Hooks, ctx: ContextDefinition, c: ResourceContainer)
    requires c.resource.Element? && c.resource.kind.OtherAsset?
    ensures !CrawlerProvider.ValidateUntrustedResource(ctx, c.resource)
    ensures NormalizeToResourceStack(h, ctx, c) == h.normalizeAsset(ctx, c)
  {
  }

  /** A DataObject that is not Concrete is rejected, yet it is handed to
      normalizeDataObject unchanged. */
  lemma RejectedDataObjectReachesNormalizeDataObject(h: Hooks, ctx: ContextDefinition, c: ResourceContainer)
    requires c.resource.Element? && c.resource.kind.OtherDataObject?
    ensures !CrawlerProvider.ValidateUntrustedResource(ctx, c.resource)
    ensures NormalizeToResourceStack(h, ctx, c) == h.normalizeDataObject(ctx, c)
  {
  }

  /** On elements the two classifications agree exactly on Page,
      Asset\Document and DataObject\Concrete, and on nothing else; on
      resources that are not elements both refuse (spider resources are
      not trusted, yet the spider branch normalizes them). */
  lemma ClassificationsAgreeExactly(ctx: ContextDefinition, r: Resource)
    ensures r.Element? ==>
              ((CrawlerProvider.ValidateUntrustedResource(ctx, r) == ReachesElementHook(r.kind))
               <==> (r.kind.Page? || r.kind.AssetDocument? || r.kind.Concrete?))
    ensures !r.Element? ==> !CrawlerProvider.ValidateUntrustedResource(ctx, r)
  {
  }
}
